/** The profile page (components/UserProfile.tsx): the signed-in user's orders, the three
    running totals over them, and saving the edited name and address. */
module UserProfile {
  import opened Types
  import Seqs
  import Auth

  function OfUser(id: string): Order -> bool
  {
    (o: Order) => o.userId == id
  }

  /** `orders.filter(order => order.userId === user.id)`. */
  function UserOrders(orders: seq<Order>, id: string): (r: seq<Order>)
    ensures Seqs.IsSubseq(r, orders)
    ensures forall i :: 0 <= i < |r| ==> r[i].userId == id
    ensures forall o: Order :: multiset(r)[o] == if o.userId == id then multiset(orders)[o] else 0
  {
    Seqs.FilterIsSubseq(OfUser(id), orders);
    assert forall o: Order :: multiset(Seqs.Filter(OfUser(id), orders))[o] == if o.userId == id then multiset(orders)[o] else 0 by {
      forall o: Order {
        Seqs.FilterCount(OfUser(id), orders, o);
      }
    }
    Seqs.Filter(OfUser(id), orders)
  }

  function TotalOf(): Order -> real { (o: Order) => o.total }
  function OffsetOf(): Order -> real { (o: Order) => o.carbonOffset }
  function DonationOf(): Order -> real { (o: Order) => o.charityDonation }

  /** `totalSpent`, `carbonSaved` and `charityContributed`: sums over the user's orders. */
  function TotalSpent(orders: seq<Order>, id: string): real
  {
    Seqs.Sum(TotalOf(), UserOrders(orders, id))
  }

  function CarbonSaved(orders: seq<Order>, id: string): real
  {
    Seqs.Sum(OffsetOf(), UserOrders(orders, id))
  }

  function CharityContributed(orders: seq<Order>, id: string): real
  {
    Seqs.Sum(DonationOf(), UserOrders(orders, id))
  }

  /** An amount of an order counted only when the order is the user's. */
  function Masked(amount: Order -> real, id: string): Order -> real
  {
    (o: Order) => if o.userId == id then amount(o) else 0.0
  }

  /** Each aggregate is the sum over all orders with everyone else's orders counted as 0. */
  lemma AggregatesAreMaskedSums(orders: seq<Order>, id: string)
    ensures TotalSpent(orders, id) == Seqs.Sum(Masked(TotalOf(), id), orders)
    ensures CarbonSaved(orders, id) == Seqs.Sum(Masked(OffsetOf(), id), orders)
    ensures CharityContributed(orders, id) == Seqs.Sum(Masked(DonationOf(), id), orders)
  {
    Seqs.SumFilter(TotalOf(), OfUser(id), Masked(TotalOf(), id), orders);
    Seqs.SumFilter(OffsetOf(), OfUser(id), Masked(OffsetOf(), id), orders);
    Seqs.SumFilter(DonationOf(), OfUser(id), Masked(DonationOf(), id), orders);
  }

  /** A user with no orders has spent, offset and donated nothing. */
  lemma NoOrdersNoTotals(orders: seq<Order>, id: string)
    requires forall i :: 0 <= i < |orders| ==> orders[i].userId != id
    ensures UserOrders(orders, id) == []
    ensures TotalSpent(orders, id) == 0.0 && CarbonSaved(orders, id) == 0.0 && CharityContributed(orders, id) == 0.0
  {
    Seqs.FilterNone(OfUser(id), orders);
  }

  /** Orders of other users, inserted anywhere, change none of the aggregates. */
  lemma OtherUsersIgnored(before: seq<Order>, others: seq<Order>, after: seq<Order>, id: string)
    requires forall i :: 0 <= i < |others| ==> others[i].userId != id
    ensures UserOrders(before + others + after, id) == UserOrders(before + after, id)
    ensures TotalSpent(before + others + after, id) == TotalSpent(before + after, id)
    ensures CarbonSaved(before + others + after, id) == CarbonSaved(before + after, id)
    ensures CharityContributed(before + others + after, id) == CharityContributed(before + after, id)
  {
    Seqs.FilterAppend(OfUser(id), before + others, after);
    Seqs.FilterAppend(OfUser(id), before, others);
    Seqs.FilterAppend(OfUser(id), before, after);
    Seqs.FilterNone(OfUser(id), others);
    assert Seqs.Filter(OfUser(id), before) + [] == Seqs.Filter(OfUser(id), before);
  }

  /** A new order of the user's adds exactly its amounts to the three aggregates. */
  lemma OwnOrderAdds(orders: seq<Order>, o: Order)
    ensures TotalSpent(orders + [o], o.userId) == TotalSpent(orders, o.userId) + o.total
    ensures CarbonSaved(orders + [o], o.userId) == CarbonSaved(orders, o.userId) + o.carbonOffset
    ensures CharityContributed(orders + [o], o.userId) == CharityContributed(orders, o.userId) + o.charityDonation
  {
    var mine := UserOrders(orders, o.userId);
    Seqs.FilterAppend(OfUser(o.userId), orders, [o]);
    assert UserOrders(orders + [o], o.userId) == mine + [o];
    assert (mine + [o])[..|mine|] == mine;
  }

  /** The profile page's own state: the edit flag and the edited name and address. */
  class ProfileState {
    const auth: Auth.AuthProvider
    var isEditing: bool
    var formName: string
    var formEmail: string

    /** `user?.name || ''` and `user?.email || ''`. */
    constructor (auth: Auth.AuthProvider)
      ensures this.auth == auth && !isEditing
      ensures formName == if auth.user.Some? then auth.user.value.name else ""
      ensures formEmail == if auth.user.Some? then auth.user.value.email else ""
    {
      this.auth := auth;
      isEditing := false;
      formName := if auth.user.Some? then auth.user.value.name else "";
      formEmail := if auth.user.Some? then auth.user.value.email else "";
    }

    method SetEditing(editing: bool)
      modifies this`isEditing
      ensures isEditing == editing
    {
      isEditing := editing;
    }

    method SetForm(name: string, email: string)
      modifies this`formName, this`formEmail
      ensures formName == name && formEmail == email
    {
      formName, formEmail := name, email;
    }

    /** `handleSaveProfile`: hands exactly the name and the address to `updateProfile`, then
        leaves editing mode. */
    method SaveProfile()
      modifies this`isEditing, auth`user, auth`storage
      ensures !isEditing
      ensures old(auth.user).None? ==> auth.user == old(auth.user) && auth.storage == old(auth.storage)
      ensures old(auth.user).Some? ==>
        && auth.user == Some(old(auth.user).value.(name := formName, email := formEmail))
        && auth.storage == old(auth.storage)[Auth.UserKey := auth.user.value]
    {
      auth.UpdateProfile(Auth.NameEmailPatch(formName, formEmail));
      if old(auth.user).Some? {
        Auth.NameEmailPatchSpec(old(auth.user).value, formName, formEmail);
      }
      isEditing := false;
    }
  }
}
