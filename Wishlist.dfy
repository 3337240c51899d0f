/** The wishlist hook (hooks/useWishlist.ts): a list of products that add, remove and toggle keep
    free of repeated ids. */
module Wishlist {
  import opened Types
  import Seqs

  /** `items.some(item => item.id === id)`. */
  predicate HasId(items: seq<Product>, id: string)
  {
    items != [] && (items[0].id == id || HasId(items[1..], id))
  }

  /** `HasId` holds exactly when some position carries the id. */
  lemma {:induction false} HasIdIff(items: seq<Product>, id: string)
    ensures HasId(items, id) <==> exists i :: 0 <= i < |items| && items[i].id == id
  {
    if items != [] {
      HasIdIff(items[1..], id);
      if exists i :: 0 <= i < |items| && items[i].id == id {
        var i :| 0 <= i < |items| && items[i].id == id;
        if i > 0 {
          assert items[1..][i - 1].id == id;
        }
      }
      if HasId(items[1..], id) {
        var i :| 0 <= i < |items[1..]| && items[1..][i].id == id;
        assert items[i + 1].id == id;
      }
    }
  }

  /** No id occurs twice: every item's id is absent from the items after it. */
  predicate UniqueIds(items: seq<Product>)
  {
    items == [] || (!HasId(items[1..], items[0].id) && UniqueIds(items[1..]))
  }

  /** `UniqueIds` is pairwise distinctness of the ids. */
  lemma {:induction false} UniqueIdsIff(items: seq<Product>)
    ensures UniqueIds(items) <==>
      forall i, j :: 0 <= i < j < |items| ==> items[i].id != items[j].id
  {
    if items != [] {
      UniqueIdsIff(items[1..]);
      HasIdIff(items[1..], items[0].id);
      if UniqueIds(items) {
        forall i, j | 0 <= i < j < |items|
          ensures items[i].id != items[j].id
        {
          if i > 0 {
            assert items[i] == items[1..][i - 1] && items[j] == items[1..][j - 1];
          } else {
            assert items[j] == items[1..][j - 1];
          }
        }
      }
      if forall i, j :: 0 <= i < j < |items| ==> items[i].id != items[j].id {
        forall i, j | 0 <= i < j < |items[1..]|
          ensures items[1..][i].id != items[1..][j].id
        {
          assert items[1..][i] == items[i + 1] && items[1..][j] == items[j + 1];
        }
        assert forall k :: 0 <= k < |items[1..]| ==> items[1..][k] == items[k + 1];
      }
    }
  }

  /** `addToWishlist`: unchanged when the id is already present, else the product appended. */
  function Added(items: seq<Product>, p: Product): seq<Product>
  {
    if HasId(items, p.id) then items else items + [p]
  }

  function OtherId(id: string): Product -> bool
  {
    (q: Product) => q.id != id
  }

  /** `removeFromWishlist`: the items whose id differs, in order. */
  function Removed(items: seq<Product>, id: string): seq<Product>
  {
    Seqs.Filter(OtherId(id), items)
  }

  /** `toggleWishlist`: remove when present, add when absent. */
  function Toggled(items: seq<Product>, p: Product): seq<Product>
  {
    if HasId(items, p.id) then Removed(items, p.id) else Added(items, p)
  }

  /** The ids of `a + b` are those of `a` and those of `b`. */
  lemma {:induction false} HasIdAppend(a: seq<Product>, b: seq<Product>, id: string)
    ensures HasId(a + b, id) <==> HasId(a, id) || HasId(b, id)
  {
    if a == [] {
      assert a + b == b;
    } else {
      assert (a + b)[0] == a[0] && (a + b)[1..] == a[1..] + b;
      HasIdAppend(a[1..], b, id);
    }
  }

  /** Adding a product whose id is present changes nothing; adding an absent one appends it
      and keeps every earlier entry where it was. */
  lemma AddSpec(items: seq<Product>, p: Product)
    ensures HasId(items, p.id) ==> Added(items, p) == items
    ensures !HasId(items, p.id) ==> Added(items, p) == items + [p]
    ensures Added(items, p)[..|items|] == items
    ensures HasId(Added(items, p), p.id)
  {
    HasIdAppend(items, [p], p.id);
    assert (items + [p])[..|items|] == items;
  }

  /** After removal an id is present exactly when it differs from the removed one and was present before. */
  lemma {:induction false} RemovedHasId(items: seq<Product>, id: string, x: string)
    ensures HasId(Removed(items, id), x) <==> x != id && HasId(items, x)
  {
    if items != [] {
      RemovedHasId(items[1..], id, x);
      if items[0].id != id {
        assert Removed(items, id) == [items[0]] + Removed(items[1..], id);
        assert ([items[0]] + Removed(items[1..], id))[1..] == Removed(items[1..], id);
      }
    }
  }

  /** Removal keeps exactly the items with another id, each as often as before, in order. */
  lemma RemoveSpec(items: seq<Product>, id: string)
    ensures Seqs.IsSubseq(Removed(items, id), items)
    ensures !HasId(Removed(items, id), id)
    ensures forall q: Product :: multiset(Removed(items, id))[q] == if q.id != id then multiset(items)[q] else 0
  {
    Seqs.FilterIsSubseq(OtherId(id), items);
    RemovedHasId(items, id, id);
    forall q: Product
      ensures multiset(Removed(items, id))[q] == if q.id != id then multiset(items)[q] else 0
    {
      Seqs.FilterCount(OtherId(id), items, q);
    }
  }

  /** Toggling flips the product's own membership and leaves every other id's membership alone. */
  lemma ToggleSpec(items: seq<Product>, p: Product, x: string)
    ensures HasId(Toggled(items, p), p.id) <==> !HasId(items, p.id)
    ensures x != p.id ==> (HasId(Toggled(items, p), x) <==> HasId(items, x))
  {
    RemovedHasId(items, p.id, p.id);
    RemovedHasId(items, p.id, x);
    HasIdAppend(items, [p], p.id);
    HasIdAppend(items, [p], x);
  }

  /** Removal keeps ids unique. */
  lemma {:induction false} RemovedUnique(items: seq<Product>, id: string)
    requires UniqueIds(items)
    ensures UniqueIds(Removed(items, id))
  {
    if items != [] {
      RemovedUnique(items[1..], id);
      if items[0].id != id {
        var rest := Removed(items[1..], id);
        assert Removed(items, id) == [items[0]] + rest;
        assert ([items[0]] + rest)[1..] == rest;
        RemovedHasId(items[1..], id, items[0].id);
      }
    }
  }

  /** Appending a product whose id is absent keeps ids unique. */
  lemma {:induction false} AppendUnique(items: seq<Product>, p: Product)
    requires UniqueIds(items) && !HasId(items, p.id)
    ensures UniqueIds(items + [p])
  {
    if items == [] {
      assert items + [p] == [p];
      assert [p][1..] == [];
    } else {
      assert (items + [p])[0] == items[0] && (items + [p])[1..] == items[1..] + [p];
      AppendUnique(items[1..], p);
      HasIdAppend(items[1..], [p], items[0].id);
    }
  }

  /** Add, remove and toggle keep the ids unique. */
  lemma UniquePreserved(items: seq<Product>, p: Product, id: string)
    requires UniqueIds(items)
    ensures UniqueIds(Added(items, p))
    ensures UniqueIds(Removed(items, id))
    ensures UniqueIds(Toggled(items, p))
  {
    RemovedUnique(items, id);
    RemovedUnique(items, p.id);
    if !HasId(items, p.id) {
      AppendUnique(items, p);
    }
  }

  /** A list none of whose items has the id is left as it is by removal. */
  lemma RemoveAbsent(items: seq<Product>, id: string)
    requires !HasId(items, id)
    ensures Removed(items, id) == items
  {
    HasIdIff(items, id);
    Seqs.FilterAll(OtherId(id), items);
  }

  /** Toggling an absent product twice restores the exact list. */
  lemma ToggleTwiceAbsent(items: seq<Product>, p: Product)
    requires !HasId(items, p.id)
    ensures Toggled(Toggled(items, p), p) == items
  {
    HasIdAppend(items, [p], p.id);
    Seqs.FilterAppend(OtherId(p.id), items, [p]);
    RemoveAbsent(items, p.id);
  }

  /** Toggling a present product twice brings it back, but at the end of the list. */
  lemma ToggleTwicePresent(items: seq<Product>, p: Product)
    requires HasId(items, p.id)
    ensures Toggled(Toggled(items, p), p) == Removed(items, p.id) + [p]
    ensures HasId(Toggled(Toggled(items, p), p), p.id)
  {
    RemovedHasId(items, p.id, p.id);
    HasIdAppend(Removed(items, p.id), [p], p.id);
  }

  /** The hook's state. */
  class WishlistState {
    var items: seq<Product>

    ghost predicate Valid()
      reads this
    {
      UniqueIds(items)
    }

    constructor ()
      ensures items == [] && Valid()
    {
      items := [];
    }

    /** `isInWishlist(id)`: some item carries the id. */
    function IsInWishlist(id: string): (r: bool)
      reads this
      ensures r <==> exists i :: 0 <= i < |items| && items[i].id == id
    {
      HasIdIff(items, id);
      HasId(items, id)
    }

    method AddToWishlist(p: Product)
      modifies this`items
      ensures items == Added(old(items), p)
      ensures old(Valid()) ==> Valid()
    {
      if !IsInWishlist(p.id) {
        if Valid() {
          AppendUnique(items, p);
        }
        items := items + [p];
      }
    }

    method RemoveFromWishlist(id: string)
      modifies this`items
      ensures items == Removed(old(items), id)
      ensures old(Valid()) ==> Valid()
    {
      if Valid() {
        RemovedUnique(items, id);
      }
      items := Removed(items, id);
    }

    /** Reads membership first, then removes or adds. */
    method ToggleWishlist(p: Product)
      modifies this`items
      ensures items == Toggled(old(items), p)
      ensures old(Valid()) ==> Valid()
    {
      if IsInWishlist(p.id) {
        RemoveFromWishlist(p.id);
      } else {
        AddToWishlist(p);
      }
    }
  }
}
