/**
 * The authentication store of src/store/authStore.ts: the signed-in user and
 * the `isAuthenticated` flag, overwritten by `setUser`, `clearUser` and
 * `updateUser`.
 */
module AuthStore {
  import opened Wrappers

  datatype UserRole = AgentRole | ClientRole
  datatype SubscriptionStatus = Trial | Active | Inactive
  datatype SubscriptionTier = Basic | Premium

  /** `AuthUser` of src/types/auth.ts. */
  datatype AuthUser = AuthUser(
    id: string,
    email: string,
    name: string,
    role: UserRole,
    subscriptionStatus: Option<SubscriptionStatus>,
    subscriptionTier: Option<SubscriptionTier>)

  /** `Partial<AuthUser>`: the fields an update sets. */
  datatype UserUpdates = UserUpdates(
    id: Option<string>,
    email: Option<string>,
    name: Option<string>,
    role: Option<UserRole>,
    subscriptionStatus: Option<SubscriptionStatus>,
    subscriptionTier: Option<SubscriptionTier>)

  const NoUpdates := UserUpdates(None, None, None, None, None, None)

  /** `v ?? current` for one field of an update. */
  function Pick<T>(v: Option<T>, current: T): (r: T)
    ensures v.Some? ==> r == v.value
    ensures v.None? ==> r == current
  {
    v.GetOr(current)
  }

  /** `{ ...user, ...updates }`: a field the update sets wins, every other field is kept. */
  function Merge(user: AuthUser, u: UserUpdates): (r: AuthUser)
    ensures r.id == Pick(u.id, user.id) && r.email == Pick(u.email, user.email)
    ensures r.name == Pick(u.name, user.name) && r.role == Pick(u.role, user.role)
    ensures u.subscriptionStatus.Some? ==> r.subscriptionStatus == u.subscriptionStatus
    ensures u.subscriptionStatus.None? ==> r.subscriptionStatus == user.subscriptionStatus
    ensures u.subscriptionTier.Some? ==> r.subscriptionTier == u.subscriptionTier
    ensures u.subscriptionTier.None? ==> r.subscriptionTier == user.subscriptionTier
  {
    AuthUser(
      u.id.GetOr(user.id), u.email.GetOr(user.email), u.name.GetOr(user.name), u.role.GetOr(user.role),
      if u.subscriptionStatus.Some? then u.subscriptionStatus else user.subscriptionStatus,
      if u.subscriptionTier.Some? then u.subscriptionTier else user.subscriptionTier)
  }

  /** Two updates one after the other, as one: the later one wins where both set a field. */
  function Then(first: UserUpdates, second: UserUpdates): UserUpdates {
    UserUpdates(
      if second.id.Some? then second.id else first.id,
      if second.email.Some? then second.email else first.email,
      if second.name.Some? then second.name else first.name,
      if second.role.Some? then second.role else first.role,
      if second.subscriptionStatus.Some? then second.subscriptionStatus else first.subscriptionStatus,
      if second.subscriptionTier.Some? then second.subscriptionTier else first.subscriptionTier)
  }

  /** An empty update keeps the user, and applying the same update twice is applying it once. */
  lemma MergeNeutralAndIdempotent(user: AuthUser, u: UserUpdates)
    ensures Merge(user, NoUpdates) == user
    ensures Merge(Merge(user, u), u) == Merge(user, u)
  {
  }

  /** Merging two updates in turn is merging their combination. */
  lemma MergeThen(user: AuthUser, first: UserUpdates, second: UserUpdates)
    ensures Merge(Merge(user, first), second) == Merge(user, Then(first, second))
  {
  }

  /** The store's state. */
  class Store {
    var user: Option<AuthUser>
    var isAuthenticated: bool

    /** The flag says whether there is a user. */
    predicate Valid()
      reads this
    {
      isAuthenticated <==> user.Some?
    }

    constructor ()
      ensures user == None && !isAuthenticated
      ensures Valid()
    {
      user := None;
      isAuthenticated := false;
    }

    method SetUser(u: AuthUser)
      modifies this
      ensures user == Some(u) && isAuthenticated
      ensures Valid()
    {
      user := Some(u);
      isAuthenticated := true;
    }

    method ClearUser()
      modifies this
      ensures user == None && !isAuthenticated
      ensures Valid()
    {
      user := None;
      isAuthenticated := false;
    }

    /** `updateUser`: merges into a signed-in user; without one the user stays absent. The flag is not touched. */
    method UpdateUser(updates: UserUpdates)
      modifies this
      ensures old(user).Some? ==> user == Some(Merge(old(user).value, updates))
      ensures old(user).None? ==> user == None
      ensures isAuthenticated == old(isAuthenticated)
      ensures old(Valid()) ==> Valid()
    {
      if user.Some? {
        user := Some(Merge(user.value, updates));
      } else {
        user := None;
      }
    }
  }
}
