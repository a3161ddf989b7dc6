/**
 * The signed-in user, read from Firebase Auth and the `users` collection,
 * and the one-slot cache that `getUser` serves from.
 */
module UserRepository {
  import opened Common
  import opened Firestore

  datatype UserInfo = UserInfo(id: string, name: string, surname: string, phone: string)

  datatype User = User(uid: string, email: string, accessToken: string, userInfo: UserInfo)

  /** The account Firebase Auth reports as signed in. */
  datatype AuthUser = AuthUser(uid: string, email: Option<string>)

  /**
   * What one load sees of the outside world: the signed-in account, the
   * token a forced refresh hands back, and whether the token refresh or
   * the document read throws.
   */
  datatype Session = Session(currentUser: Option<AuthUser>, token: Option<string>, fails: bool)

  /** A user whose two copies of the uid agree, as every loaded user's do. */
  predicate Consistent(u: User) {
    u.uid == u.userInfo.id
  }

  /**
   * The outcome of `loadUserData`: nothing without a signed-in account, a
   * token, a user document and an e-mail (a null e-mail throws and is
   * caught), or when a call throws; otherwise the account's uid, e-mail
   * and token with the document's fields, a missing field read as "".
   */
  function LoadedUser(s: Session, users: map<string, UserDoc>): (r: Option<User>)
    ensures r.Some? <==>
              && !s.fails && s.currentUser.Some? && s.token.Some?
              && s.currentUser.value.uid in users && s.currentUser.value.email.Some?
    ensures r.Some? ==>
              && Consistent(r.value)
              && r.value.uid == s.currentUser.value.uid
              && r.value.email == s.currentUser.value.email.value
              && r.value.accessToken == s.token.value
    ensures r.Some? ==>
              var d := users[s.currentUser.value.uid];
              && r.value.userInfo.name == (if d.name.Some? then d.name.value else "")
              && r.value.userInfo.surname == (if d.surname.Some? then d.surname.value else "")
              && r.value.userInfo.phone == (if d.phone.Some? then d.phone.value else "")
  {
    if s.fails then None
    else match s.currentUser
      case None => None
      case Some(account) =>
        match s.token
        case None => None
        case Some(token) =>
          if account.uid !in users then None
          else
            var d := users[account.uid];
            var info := UserInfo(account.uid, d.name.GetOr(""), d.surname.GetOr(""), d.phone.GetOr(""));
            match account.email
            case None => None
            case Some(email) => Some(User(account.uid, email, token, info))
  }

  class UserRepositoryImpl {
    const db: Db
    var cachedUser: Option<User>

    /** Every user the cache can hold came out of a load. */
    predicate Valid()
      reads this
    {
      cachedUser.Some? ==> Consistent(cachedUser.value)
    }

    constructor (db: Db)
      ensures this.db == db && cachedUser == None && Valid()
    {
      this.db := db;
      cachedUser := None;
    }

    /** `loadUserData`: a successful load is cached and returned; a failed one leaves the cache as it was. */
    method LoadUserData(s: Session) returns (r: Option<User>)
      requires Valid()
      modifies this`cachedUser
      ensures Valid()
      ensures r == LoadedUser(s, db.users)
      ensures cachedUser == if r.Some? then r else old(cachedUser)
    {
      r := LoadedUser(s, db.users);
      if r.Some? {
        cachedUser := r;
      }
    }

    /** `getUser`: the cached user when there is one, without loading; otherwise a load. */
    method GetUser(s: Session) returns (r: Option<User>)
      requires Valid()
      modifies this`cachedUser
      ensures Valid()
      ensures old(cachedUser).Some? ==> r == old(cachedUser) && cachedUser == old(cachedUser)
      ensures old(cachedUser).None? ==> r == LoadedUser(s, db.users) && cachedUser == r
    {
      if cachedUser.Some? {
        r := cachedUser;
      } else {
        r := LoadUserData(s);
      }
    }

    /** `updateUserInfo`: a load that bypasses the cache. */
    method UpdateUserInfo(s: Session) returns (r: Option<User>)
      requires Valid()
      modifies this`cachedUser
      ensures Valid()
      ensures r == LoadedUser(s, db.users)
      ensures cachedUser == if r.Some? then r else old(cachedUser)
    {
      r := LoadUserData(s);
    }

    /** `clearUserCache`. */
    method ClearUserCache()
      modifies this`cachedUser
      ensures cachedUser == None && Valid()
    {
      cachedUser := None;
    }
  }

  /** After clearing the cache the next `getUser` loads afresh, seeing the current session. */
  method ClearThenGet(repo: UserRepositoryImpl, s: Session) returns (r: Option<User>)
    requires repo.Valid()
    modifies repo`cachedUser
    ensures r == LoadedUser(s, repo.db.users)
    ensures repo.cachedUser == r
  {
    repo.ClearUserCache();
    r := repo.GetUser(s);
  }

  /** A second `getUser` answers from the cache even when the session has since ended. */
  method GetTwice(repo: UserRepositoryImpl, s1: Session, s2: Session) returns (r1: Option<User>, r2: Option<User>)
    requires repo.Valid()
    modifies repo`cachedUser
    ensures r1.Some? ==> r2 == r1
  {
    r1 := repo.GetUser(s1);
    r2 := repo.GetUser(s2);
  }
}
