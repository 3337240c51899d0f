/** The mock authentication provider (the `AuthProvider` in components/AdminPanel.tsx): the
    signed-in user, a loading flag, and the browser storage entry that mirrors the user. */
module Auth {
  import opened Types

  /** The one e-mail address that signs in as an administrator. */
  const AdminEmail: string := "admin@nextshop.com"

  /** The storage key the session is kept under. */
  const UserKey: string := "user"

  /** The user `login` makes up: id "1", and the administrator's name and role exactly for the
      administrator's address. `createdAt` stands for `new Date().toISOString()`. */
  function MockUser(email: string, createdAt: string): (r: User)
    ensures r.id == "1" && r.email == email && r.createdAt == createdAt
    ensures r.role == Admin <==> email == AdminEmail
    ensures r.name == "Admin User" <==> email == AdminEmail
    ensures email != AdminEmail ==> r.role == Customer && r.name == "John Doe"
    ensures r.carbonOffset == Some(0.0) && r.avatar.None? && r.twoFactorEnabled.None?
  {
    User("1", if email == AdminEmail then "Admin User" else "John Doe", email, None,
      if email == AdminEmail then Admin else Customer, createdAt, None, Some(0.0))
  }

  /** The user `register` makes: always a customer, with the given name and address.
      `id` stands for `Date.now().toString()`. */
  function NewUser(id: string, name: string, email: string, createdAt: string): (r: User)
    ensures r.role == Customer && r.name == name && r.email == email
    ensures r.id == id && r.createdAt == createdAt && r.carbonOffset == Some(0.0)
  {
    User(id, name, email, None, Customer, createdAt, None, Some(0.0))
  }

  /** `{ ...user, ...updates }`. */
  function MergeUser(u: User, p: UserPatch): User
  {
    User(Pick(p.id, u.id), Pick(p.name, u.name), Pick(p.email, u.email), Pick(p.avatar, u.avatar),
      Pick(p.role, u.role), Pick(p.createdAt, u.createdAt), Pick(p.twoFactorEnabled, u.twoFactorEnabled),
      Pick(p.carbonOffset, u.carbonOffset))
  }

  /** A patch naming only the name and the address. */
  function NameEmailPatch(name: string, email: string): UserPatch
  {
    UserPatch(None, Some(name), Some(email), None, None, None, None, None)
  }

  /** Each key present in the patch is overwritten and every other key is kept; applying the
      same patch again changes nothing more. */
  lemma MergeUserSpec(u: User, p: UserPatch)
    ensures MergeUser(u, p).id == (if p.id.Some? then p.id.value else u.id)
    ensures MergeUser(u, p).name == (if p.name.Some? then p.name.value else u.name)
    ensures MergeUser(u, p).email == (if p.email.Some? then p.email.value else u.email)
    ensures MergeUser(u, p).avatar == (if p.avatar.Some? then p.avatar.value else u.avatar)
    ensures MergeUser(u, p).role == (if p.role.Some? then p.role.value else u.role)
    ensures MergeUser(u, p).createdAt == (if p.createdAt.Some? then p.createdAt.value else u.createdAt)
    ensures MergeUser(u, p).twoFactorEnabled
         == (if p.twoFactorEnabled.Some? then p.twoFactorEnabled.value else u.twoFactorEnabled)
    ensures MergeUser(u, p).carbonOffset
         == (if p.carbonOffset.Some? then p.carbonOffset.value else u.carbonOffset)
    ensures MergeUser(MergeUser(u, p), p) == MergeUser(u, p)
    ensures MergeUser(u, UserPatch(None, None, None, None, None, None, None, None)) == u
  {
  }

  /** A name-and-address patch changes those two keys and no other. */
  lemma NameEmailPatchSpec(u: User, name: string, email: string)
    ensures MergeUser(u, NameEmailPatch(name, email)) == u.(name := name, email := email)
  {
  }

  class AuthProvider {
    var user: Option<User>
    var isLoading: bool
    /** `localStorage`, as a map from keys to the users stored under them. */
    var storage: map<string, User>

    /** The stored entry mirrors the session: present exactly when someone is signed in, and
        equal to that user. */
    ghost predicate Valid()
      reads this
    {
      (UserKey in storage <==> user.Some?) && (user.Some? ==> storage[UserKey] == user.value)
    }

    /** Mounting: restore the user from a saved entry, if any, then stop loading. */
    constructor (saved: map<string, User>)
      ensures storage == saved && !isLoading
      ensures user == if UserKey in saved then Some(saved[UserKey]) else None
      ensures Valid()
    {
      storage := saved;
      user := if UserKey in saved then Some(saved[UserKey]) else None;
      isLoading := false;
    }

    /** `login`, with the delay collapsed: the password is not checked, and it always succeeds. */
    method Login(email: string, password: string, createdAt: string) returns (ok: bool)
      modifies this
      ensures ok
      ensures user == Some(MockUser(email, createdAt))
      ensures storage == old(storage)[UserKey := MockUser(email, createdAt)]
      ensures !isLoading && Valid()
    {
      isLoading := true;
      var u := MockUser(email, createdAt);
      user := Some(u);
      storage := storage[UserKey := u];
      ok := true;
      isLoading := false;
    }

    /** `register`, with the delay collapsed; it always succeeds. */
    method Register(name: string, email: string, password: string, id: string, createdAt: string)
      returns (ok: bool)
      modifies this
      ensures ok
      ensures user == Some(NewUser(id, name, email, createdAt))
      ensures storage == old(storage)[UserKey := NewUser(id, name, email, createdAt)]
      ensures !isLoading && Valid()
    {
      isLoading := true;
      var u := NewUser(id, name, email, createdAt);
      user := Some(u);
      storage := storage[UserKey := u];
      ok := true;
      isLoading := false;
    }

    method Logout()
      modifies this`user, this`storage
      ensures user == None && storage == old(storage) - {UserKey}
      ensures Valid()
    {
      user := None;
      storage := storage - {UserKey};
    }

    /** `updateProfile`: nothing without a user; otherwise the merged user, also stored. */
    method UpdateProfile(updates: UserPatch)
      modifies this`user, this`storage
      ensures old(user).None? ==> user == old(user) && storage == old(storage)
      ensures old(user).Some? ==>
        && user == Some(MergeUser(old(user).value, updates))
        && storage == old(storage)[UserKey := MergeUser(old(user).value, updates)]
      ensures old(Valid()) ==> Valid()
    {
      if user.Some? {
        var u := MergeUser(user.value, updates);
        user := Some(u);
        storage := storage[UserKey := u];
      }
    }
  }
}
