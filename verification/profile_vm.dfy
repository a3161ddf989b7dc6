/**
 * The profile screen: the signed-in user shown from the user cache, a
 * reload that bypasses the cache, sign-out, and removing one of the user's
 * jobs. The removal goes to a repository call the user repository declares
 * but does not implement, so it is recorded as a request.
 */
module Profile {
  import opened Common
  import opened UserRepository

  const UserLoadFailed: string := "Couldn't load user"
  const UserStateLoadFailed: string := "Couldn't load user state"

  /** `ProfileUIState`. */
  datatype ProfileUIState = ProfileUIState(user: Option<User>, error: Option<string>, loading: bool)

  const InitialProfileState: ProfileUIState := ProfileUIState(None, None, true)

  /** Sign-out, the job-removal request and the success callback, in the order they happen. */
  datatype Effect = SignOut | SoftDeleteJobRequest(jobId: string) | Success

  /**
   * A load's answer applied to the state: a user is shown and loading ends,
   * keeping whatever error was there; no user clears the user and shows
   * `message`.
   */
  function AfterLoad(s: ProfileUIState, r: Option<User>, message: string): (t: ProfileUIState)
    ensures !t.loading && t.user == r
    ensures r.Some? ==> t.error == s.error
    ensures r.None? ==> t.error == Some(message)
  {
    if r.Some? then s.(user := r, loading := false)
    else s.(user := None, error := Some(message), loading := false)
  }

  class ProfileViewModel {
    const users: UserRepositoryImpl
    var state: ProfileUIState
    var effects: seq<Effect>

    /** A shown user is one the repository loaded, so its id is its info's id. */
    predicate Valid()
      reads this, users
    {
      && users.Valid()
      && (state.user.Some? ==> Consistent(state.user.value))
    }

    /** The fields as constructed; `init`'s load is `Init`. */
    constructor (users: UserRepositoryImpl)
      requires users.Valid()
      ensures this.users == users && Valid()
      ensures state == InitialProfileState && effects == []
    {
      this.users := users;
      state := InitialProfileState;
      effects := [];
    }

    /** The coroutine `init` starts: the user from the cache or a load, or the first failure message. */
    method Init(s: Session)
      requires Valid()
      modifies this`state, users`cachedUser
      ensures Valid()
      ensures old(users.cachedUser).Some? ==>
                state == AfterLoad(old(state), old(users.cachedUser), UserLoadFailed) && users.cachedUser == old(users.cachedUser)
      ensures old(users.cachedUser).None? ==>
                && state == AfterLoad(old(state), LoadedUser(s, users.db.users), UserLoadFailed)
                && users.cachedUser == LoadedUser(s, users.db.users)
    {
      var user := users.GetUser(s);
      if user.Some? {
        state := state.(user := user, loading := false);
      } else {
        state := state.(user := None, error := Some(UserLoadFailed), loading := false);
      }
    }

    /** `logout`: sign out, empty the cache, show no user, report success. */
    method Logout()
      requires Valid()
      modifies this`state, this`effects, users`cachedUser
      ensures Valid()
      ensures users.cachedUser.None?
      ensures state == old(state).(user := None, loading := false)
      ensures effects == old(effects) + [SignOut, Success]
    {
      effects := effects + [SignOut];
      users.ClearUserCache();
      state := state.(user := None, loading := false);
      effects := effects + [Success];
    }

    /** `loadUserInfo`: loading on, a load that bypasses the cache, then the user or the second failure message. */
    method LoadUserInfo(s: Session)
      requires Valid()
      modifies this`state, users`cachedUser
      ensures Valid()
      ensures state == AfterLoad(old(state).(loading := true), LoadedUser(s, users.db.users), UserStateLoadFailed)
      ensures users.cachedUser == if LoadedUser(s, users.db.users).Some? then LoadedUser(s, users.db.users) else old(users.cachedUser)
    {
      state := state.(loading := true);
      var user := users.LoadUserData(s);
      if user.Some? {
        state := state.(user := user, loading := false);
      } else {
        state := state.(user := None, error := Some(UserStateLoadFailed), loading := false);
      }
    }

    /** `deleteJob`: request the removal, then reload the user info. */
    method DeleteJob(jobId: string, s: Session)
      requires Valid()
      modifies this`state, this`effects, users`cachedUser
      ensures Valid()
      ensures effects == old(effects) + [SoftDeleteJobRequest(jobId)]
      ensures state == AfterLoad(old(state).(loading := true), LoadedUser(s, users.db.users), UserStateLoadFailed)
      ensures users.cachedUser == if LoadedUser(s, users.db.users).Some? then LoadedUser(s, users.db.users) else old(users.cachedUser)
    {
      effects := effects + [SoftDeleteJobRequest(jobId)];
      LoadUserInfo(s);
    }
  }
}
