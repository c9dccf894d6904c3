/**
 * The session store of `src/hooks/useAuth.tsx`: at most one signed-in user,
 * written through to the single `localStorage` slot named 'pulse-user'.
 * JSON serialisation is abstracted away: the slot holds the record itself.
 */
module Session {
  import opened Wrappers

  /** The user's `type`: 'creator', 'user' (an investor) or 'admin'. */
  datatype Role = Creator | Investor | Admin

  /** The `User` record; `role` is the source's `type` field. */
  datatype User = User(
    id: string,
    principal: string,
    role: Role,
    name: string,
    avatar: string,
    email: Option<string>,
    bio: Option<string>,
    website: Option<string>,
    twitter: Option<string>,
    discord: Option<string>)

  /**
   * A `Partial<User>`: every field may be supplied (`Some`) or left out (`None`).
   * Nothing keeps `id`, `principal` or `role` out of an update.
   */
  datatype Patch = Patch(
    id: Option<string>,
    principal: Option<string>,
    role: Option<Role>,
    name: Option<string>,
    avatar: Option<string>,
    email: Option<string>,
    bio: Option<string>,
    website: Option<string>,
    twitter: Option<string>,
    discord: Option<string>)

  /** The empty patch `{}`. */
  const NoChanges: Patch := Patch(None, None, None, None, None, None, None, None, None, None)

  /** A supplied value replaces the old one; a left-out one keeps it. */
  function Pick<T>(update: Option<T>, current: T): T {
    if update.Some? then update.value else current
  }

  /** Like `Pick`, for a field that is itself optional on `User`. */
  function PickOptional<T>(update: Option<T>, current: Option<T>): Option<T> {
    if update.Some? then update else current
  }

  /** The shallow merge `{ ...u, ...p }`. */
  function Merge(u: User, p: Patch): User {
    User(
      Pick(p.id, u.id), Pick(p.principal, u.principal), Pick(p.role, u.role),
      Pick(p.name, u.name), Pick(p.avatar, u.avatar),
      PickOptional(p.email, u.email), PickOptional(p.bio, u.bio),
      PickOptional(p.website, u.website), PickOptional(p.twitter, u.twitter),
      PickOptional(p.discord, u.discord))
  }

  /** The patch that applies `p` and then `q`: a key of `q` wins over the same key of `p`. */
  function Then(p: Patch, q: Patch): Patch {
    Patch(
      PickOptional(q.id, p.id), PickOptional(q.principal, p.principal),
      PickOptional(q.role, p.role), PickOptional(q.name, p.name),
      PickOptional(q.avatar, p.avatar), PickOptional(q.email, p.email),
      PickOptional(q.bio, p.bio), PickOptional(q.website, p.website),
      PickOptional(q.twitter, p.twitter), PickOptional(q.discord, p.discord))
  }

  /** Every supplied field gets its new value and every other field keeps its old one. */
  lemma MergeFields(u: User, p: Patch)
    ensures p.id.Some? ==> Merge(u, p).id == p.id.value
    ensures p.id.None? ==> Merge(u, p).id == u.id
    ensures p.principal.Some? ==> Merge(u, p).principal == p.principal.value
    ensures p.principal.None? ==> Merge(u, p).principal == u.principal
    ensures p.role.Some? ==> Merge(u, p).role == p.role.value
    ensures p.role.None? ==> Merge(u, p).role == u.role
    ensures p.name.Some? ==> Merge(u, p).name == p.name.value
    ensures p.name.None? ==> Merge(u, p).name == u.name
    ensures p.avatar.Some? ==> Merge(u, p).avatar == p.avatar.value
    ensures p.avatar.None? ==> Merge(u, p).avatar == u.avatar
    ensures Merge(u, p).email == (if p.email.Some? then p.email else u.email)
    ensures Merge(u, p).bio == (if p.bio.Some? then p.bio else u.bio)
    ensures Merge(u, p).website == (if p.website.Some? then p.website else u.website)
    ensures Merge(u, p).twitter == (if p.twitter.Some? then p.twitter else u.twitter)
    ensures Merge(u, p).discord == (if p.discord.Some? then p.discord else u.discord)
  {
  }

  /** Merging the empty patch changes nothing. */
  lemma MergeNoChanges(u: User)
    ensures Merge(u, NoChanges) == u
  {
  }

  /** Applying the same update twice is the same as applying it once. */
  lemma MergeIdempotent(u: User, p: Patch)
    ensures Merge(Merge(u, p), p) == Merge(u, p)
  {
  }

  /** Two updates in a row are one update with the later keys winning. */
  lemma MergeThen(u: User, p: Patch, q: Patch)
    ensures Merge(Merge(u, p), q) == Merge(u, Then(p, q))
  {
  }

  /** The merge does not protect the role: a patch may change it. */
  lemma MergeCanChangeRole(u: User, r: Role)
    ensures Merge(u, NoChanges.(role := Some(r))).role == r
  {
  }

  /** The in-memory user and the persisted slot, as one value. */
  datatype Store = Store(user: Option<User>, slot: Option<User>)

  /** Write-through: the slot holds exactly the in-memory user (both empty when signed out). */
  predicate Synced(s: Store) {
    s.slot == s.user
  }

  /** `isAuthenticated: !!user`. */
  function Authenticated(s: Store): (b: bool)
    ensures b <==> s.user != None
  {
    s.user.Some?
  }

  /** The provider's first state: no user, whatever the slot holds. */
  function Start(stored: Option<User>): (s: Store)
    ensures !Authenticated(s) && s.slot == stored
  {
    Store(None, stored)
  }

  /** The mount effect: a stored value becomes the user; an empty slot changes nothing. */
  function Mounted(s: Store): Store {
    if s.slot.Some? then s.(user := s.slot) else s
  }

  /** `login(u)`: replace the user with `u` and write `u` to the slot. */
  function LoggedIn(s: Store, u: User): Store {
    Store(Some(u), Some(u))
  }

  /** `logout()`: clear the user and remove the slot. */
  function LoggedOut(s: Store): Store {
    Store(None, None)
  }

  /** `updateProfile(p)`: merge into the present user and persist; ignored when signed out. */
  function Updated(s: Store, p: Patch): Store {
    if s.user.Some? then
      var merged := Merge(s.user.value, p);
      Store(Some(merged), Some(merged))
    else s
  }

  /** After mounting, the user is what the slot held, and the two agree. */
  lemma MountRestores(stored: Option<User>)
    ensures Mounted(Start(stored)).user == stored
    ensures Synced(Mounted(Start(stored)))
    ensures Authenticated(Mounted(Start(stored))) <==> stored.Some?
  {
  }

  /** `login` is a full replace: the previous user, if any, leaves no trace. */
  lemma LoginReplaces(s: Store, u1: User, u2: User)
    ensures LoggedIn(s, u2).user == Some(u2)
    ensures LoggedIn(LoggedIn(s, u1), u2) == LoggedIn(s, u2)
    ensures Authenticated(LoggedIn(s, u2))
  {
  }

  /** `logout` signs out, and a second `logout` changes nothing. */
  lemma LogoutIdempotent(s: Store)
    ensures !Authenticated(LoggedOut(s)) && LoggedOut(s).slot == None
    ensures LoggedOut(LoggedOut(s)) == LoggedOut(s)
  {
  }

  /** `updateProfile` while signed out creates no user and leaves the slot alone. */
  lemma UpdateWhenSignedOut(s: Store, p: Patch)
    requires !Authenticated(s)
    ensures Updated(s, p) == s
  {
  }

  /** `updateProfile` while signed in merges and persists the merged record. */
  lemma UpdateWhenSignedIn(s: Store, p: Patch)
    requires Authenticated(s)
    ensures Updated(s, p).user == Some(Merge(s.user.value, p))
    ensures Synced(Updated(s, p))
  {
  }

  /** Every mutating operation keeps the slot equal to the user. */
  lemma OperationsKeepSynced(s: Store, u: User, p: Patch)
    requires Synced(s)
    ensures Synced(LoggedIn(s, u)) && Synced(LoggedOut(s)) && Synced(Updated(s, p))
    ensures Synced(Mounted(s)) && Mounted(s) == s
  {
  }

  /** Reload: a fresh provider mounted over the slot `login(u)` wrote sees `u`. */
  lemma ReloadAfterLogin(s: Store, u: User)
    ensures Mounted(Start(LoggedIn(s, u).slot)).user == Some(u)
  {
  }

  /** Reload after `updateProfile` sees the merged record; after `logout` it sees nobody. */
  lemma ReloadAfterUpdateOrLogout(s: Store, p: Patch)
    ensures Mounted(Start(Updated(s, p).slot)).user == Updated(s, p).slot
    ensures Mounted(Start(LoggedOut(s).slot)).user == None
  {
  }

  /** One call on the store's interface. */
  datatype Action = Login(u: User) | Logout | UpdateProfile(p: Patch)

  function Apply(s: Store, a: Action): Store {
    match a
    case Login(u) => LoggedIn(s, u)
    case Logout => LoggedOut(s)
    case UpdateProfile(p) => Updated(s, p)
  }

  /** The store after a sequence of calls, in order. */
  function Run(s: Store, actions: seq<Action>): Store
    decreases |actions|
  {
    if actions == [] then s else Run(Apply(s, actions[0]), actions[1..])
  }

  /**
   * From a mounted start, any sequence of calls leaves the slot equal to the
   * user, so a reload at any point restores exactly the current user.
   */
  /** After an action the store is signed in exactly when it was a login, or an update of a signed-in store. */
  lemma AuthenticatedAfter(s: Store, a: Action)
    ensures Authenticated(Apply(s, a)) <==> a.Login? || (a.UpdateProfile? && Authenticated(s))
  {
  }

  lemma {:induction false} RunKeepsSynced(stored: Option<User>, actions: seq<Action>)
    ensures Synced(Run(Mounted(Start(stored)), actions))
    ensures Mounted(Start(Run(Mounted(Start(stored)), actions).slot)).user
            == Run(Mounted(Start(stored)), actions).user
  {
    RunFromSynced(Mounted(Start(stored)), actions);
  }

  lemma {:induction false} RunFromSynced(s: Store, actions: seq<Action>)
    requires Synced(s)
    ensures Synced(Run(s, actions))
    decreases |actions|
  {
    if actions != [] {
      RunFromSynced(Apply(s, actions[0]), actions[1..]);
    }
  }

  /** The store as a mutable object: the provider's `user` state and the storage slot. */
  class SessionStore {
    var user: Option<User>
    var slot: Option<User>

    function Snapshot(): Store
      reads this
    {
      Store(user, slot)
    }

    /** The provider is created with no user over whatever storage already holds. */
    constructor (stored: Option<User>)
      ensures Snapshot() == Start(stored)
    {
      user := None;
      slot := stored;
    }

    function IsAuthenticated(): (b: bool)
      reads this
      ensures b == Authenticated(Snapshot())
    {
      user.Some?
    }

    /** The mount effect, run once: read the slot. */
    method Mount()
      modifies this
      ensures Snapshot() == Mounted(old(Snapshot()))
      ensures old(user) == None ==> Synced(Snapshot())
    {
      if slot.Some? {
        user := slot;
      }
    }

    method Login(u: User)
      modifies this
      ensures Snapshot() == LoggedIn(old(Snapshot()), u)
      ensures user == Some(u) && Synced(Snapshot())
    {
      user := Some(u);
      slot := Some(u);
    }

    method Logout()
      modifies this
      ensures Snapshot() == LoggedOut(old(Snapshot()))
      ensures user == None && Synced(Snapshot())
    {
      user := None;
      slot := None;
    }

    method UpdateProfile(p: Patch)
      modifies this
      ensures Snapshot() == Updated(old(Snapshot()), p)
      ensures old(Synced(Snapshot())) ==> Synced(Snapshot())
    {
      if user.Some? {
        var merged := Merge(user.value, p);
        user := Some(merged);
        slot := Some(merged);
      }
    }
  }

  /** A page reload after `login`: the new provider, once mounted, holds the same user. */
  method ReloadScenario(u: User, stored: Option<User>) returns (reloaded: SessionStore)
    ensures reloaded.user == Some(u) && Synced(reloaded.Snapshot())
  {
    var store := new SessionStore(stored);
    store.Mount();
    store.Login(u);
    reloaded := new SessionStore(store.slot);
    reloaded.Mount();
  }
}
