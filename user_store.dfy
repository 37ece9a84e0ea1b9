/**
 * The user session store: the refs `token`, `refreshToken`, `userInfo` and
 * `isLoggedIn`, restored from storage when the store is created and written
 * back to storage by `login`, `logout`, `updateUserInfo` and
 * `fetchUserInfo`. The API calls are inputs: each operation is given what
 * the call returned, or that it threw.
 */
module UserStore {
  import opened Wrappers
  import opened Types
  import opened Storage

  const TokenKey: string := "token"
  const RefreshKey: string := "refreshToken"
  const UserKey: string := "userInfo"

  /** What an awaited API call gave the store: an envelope, or a thrown error. */
  datatype ApiResult = Threw | Returned(code: int, message: string, data: User)

  predicate IsOk(r: ApiResult) {
    r.Returned? && r.code == 200
  }

  /** The four refs. */
  datatype Session = Session(token: Option<string>, refreshToken: Option<string>, userInfo: Option<User>, isLoggedIn: bool)

  /** The refs together with the storage they are persisted in. */
  datatype World = World(session: Session, items: Items)

  const LoggedOut: Session := Session(None, None, None, false)

  /**
   * The refs as the store initialises them from storage: the stored token
   * and refresh token, the stored user record, and logged in exactly when
   * the stored token is truthy. A "userInfo" value that is text rather than
   * a serialised record is read as no user.
   */
  function Restore(items: Items): (s: Session)
    ensures s.isLoggedIn <==> Truthy(GetItem(items, TokenKey))
    ensures s.token == GetText(items, TokenKey) && s.refreshToken == GetText(items, RefreshKey)
    ensures s.userInfo.Some? <==> UserKey in items && items[UserKey].Record?
    ensures s.userInfo.Some? ==> s.userInfo.value == items[UserKey].user
  {
    var user := if UserKey in items && items[UserKey].Record? then Some(items[UserKey].user) else None;
    Session(GetText(items, TokenKey), GetText(items, RefreshKey), user, Truthy(GetItem(items, TokenKey)))
  }

  /** The storage reproduces the refs: a reload would restore the same session. */
  predicate Mirrors(w: World) {
    Restore(w.items) == w.session
  }

  /** `login`: only a 200 result changes anything; it sets all four refs and the three keys from the returned user. */
  function AfterLogin(w: World, r: ApiResult): World {
    if IsOk(r) then
      var u := r.data;
      World(Session(Some(u.token), Some(u.refresh), Some(u), true),
            w.items[TokenKey := Text(u.token)][RefreshKey := Text(u.refresh)][UserKey := Record(u)])
    else w
  }

  /** `logout`: every ref cleared and the three keys removed. */
  function AfterLogout(w: World): World {
    World(LoggedOut, w.items - {TokenKey, RefreshKey, UserKey})
  }

  /** `updateUserInfo`: the user ref and its key. */
  function AfterUpdate(w: World, u: User): World {
    World(w.session.(userInfo := Some(u)), w.items[UserKey := Record(u)])
  }

  /** `fetchUserInfo`: a 200 result updates the user, any other result is ignored, a thrown error logs out. */
  function AfterFetch(w: World, r: ApiResult): World {
    match r
    case Threw => AfterLogout(w)
    case Returned(code, _, u) => if code == 200 then AfterUpdate(w, u) else w
  }

  /** How `login`'s promise settles and which error it shows. */
  datatype LoginOutcome =
    | LoggedIn(message: string, user: User)
    | Refused(shownMessage: string)
    | LoginFailed

  /**
   * `login` resolves with the result only for code 200; any other code
   * shows the result's message and rejects; a thrown error shows the
   * generic failure and rejects.
   */
  function LoginOutcomeOf(r: ApiResult): (o: LoginOutcome)
    ensures o.LoggedIn? <==> IsOk(r)
    ensures o.LoggedIn? ==> o.user == r.data && o.message == r.message
    ensures o.Refused? <==> r.Returned? && r.code != 200
    ensures o.Refused? ==> o.shownMessage == r.message
  {
    match r
    case Threw => LoginFailed
    case Returned(code, message, u) => if code == 200 then LoggedIn(message, u) else Refused(message)
  }

  /** A successful login: every ref and key set from the returned user, logged in. */
  lemma LoginSetsSession(w: World, r: ApiResult)
    requires IsOk(r)
    ensures var w' := AfterLogin(w, r);
      && w'.session.isLoggedIn
      && w'.session.token == Some(r.data.token) && GetText(w'.items, TokenKey) == Some(r.data.token)
      && w'.session.refreshToken == Some(r.data.refresh) && GetText(w'.items, RefreshKey) == Some(r.data.refresh)
      && w'.session.userInfo == Some(r.data) && w'.items[UserKey] == Record(r.data)
      && w'.items - {TokenKey, RefreshKey, UserKey} == w.items - {TokenKey, RefreshKey, UserKey}
  {
  }

  /** A refused or failed login leaves the refs and the storage as they were. */
  lemma LoginFailureKeepsWorld(w: World, r: ApiResult)
    requires !IsOk(r)
    ensures AfterLogin(w, r) == w
  {
  }

  /** Logging out twice is logging out once, and a logged-out world restores as logged out. */
  lemma LogoutIdempotent(w: World)
    ensures AfterLogout(AfterLogout(w)) == AfterLogout(w)
    ensures Mirrors(AfterLogout(w))
    ensures !AfterLogout(w).session.isLoggedIn
  {
    var items := AfterLogout(w).items;
    assert TokenKey !in items && RefreshKey !in items && UserKey !in items;
  }

  /** `updateUserInfo` changes the user ref and its key and nothing else. */
  lemma UpdateChangesOnlyUser(w: World, u: User)
    ensures AfterUpdate(w, u).session.userInfo == Some(u)
    ensures AfterUpdate(w, u).session.(userInfo := w.session.userInfo) == w.session
    ensures AfterUpdate(w, u).items - {UserKey} == w.items - {UserKey}
    ensures UserKey in AfterUpdate(w, u).items && AfterUpdate(w, u).items[UserKey] == Record(u)
  {
  }

  /** A failing `fetchUserInfo` is a logout; a 200 result is an update; any other code changes nothing. */
  lemma FetchOutcomes(w: World, r: ApiResult)
    ensures r.Threw? ==> AfterFetch(w, r) == AfterLogout(w)
    ensures IsOk(r) ==> AfterFetch(w, r) == AfterUpdate(w, r.data)
    ensures r.Returned? && r.code != 200 ==> AfterFetch(w, r) == w
  {
  }

  /**
   * Every operation keeps the storage a faithful copy of the refs, so a
   * page reload restores the session the user had; for `login` this needs
   * the returned token to be non-empty, since an empty token reloads as
   * logged out.
   */
  lemma OperationsKeepMirror(w: World, r: ApiResult, u: User)
    requires Mirrors(w)
    ensures Mirrors(AfterLogout(w))
    ensures Mirrors(AfterUpdate(w, u))
    ensures Mirrors(AfterFetch(w, r))
    ensures IsOk(r) ==> (Mirrors(AfterLogin(w, r)) <==> r.data.token != "")
    ensures !IsOk(r) ==> Mirrors(AfterLogin(w, r))
  {
    LogoutIdempotent(w);
    UpdateKeepsMirror(w, u);
    if r.Returned? { UpdateKeepsMirror(w, r.data); }
    if IsOk(r) {
      var items := AfterLogin(w, r).items;
      assert GetText(items, TokenKey) == Some(r.data.token);
      assert GetText(items, RefreshKey) == Some(r.data.refresh);
      assert GetItem(items, TokenKey) == Some(Text(r.data.token));
    }
  }

  lemma UpdateKeepsMirror(w: World, u: User)
    requires Mirrors(w)
    ensures Mirrors(AfterUpdate(w, u))
  {
    var items := AfterUpdate(w, u).items;
    assert GetText(items, TokenKey) == GetText(w.items, TokenKey);
    assert GetText(items, RefreshKey) == GetText(w.items, RefreshKey);
    assert GetItem(items, TokenKey) == GetItem(w.items, TokenKey);
  }

  /** The store object: four refs over the shared storage. */
  class Store {
    var token: Option<string>
    var refreshToken: Option<string>
    var userInfo: Option<User>
    var isLoggedIn: bool
    const storage: LocalStorage

    /** The refs and the storage as one value. */
    function Current(): World
      reads this, storage
    {
      World(Session(token, refreshToken, userInfo, isLoggedIn), storage.items)
    }

    /** Store creation: every ref read from storage, which is left as it was. */
    constructor (storage: LocalStorage)
      ensures this.storage == storage
      ensures Current() == World(Restore(storage.items), storage.items)
      ensures Mirrors(Current())
    {
      this.storage := storage;
      var s := Restore(storage.items);
      token, refreshToken, userInfo, isLoggedIn := s.token, s.refreshToken, s.userInfo, s.isLoggedIn;
    }

    method Login(result: ApiResult) returns (outcome: LoginOutcome)
      modifies this, storage
      ensures Current() == AfterLogin(old(Current()), result)
      ensures outcome == LoginOutcomeOf(result)
    {
      if result.Returned? && result.code == 200 {
        token := Some(result.data.token);
        refreshToken := Some(result.data.refresh);
        userInfo := Some(result.data);
        isLoggedIn := true;
        storage.SetItem(TokenKey, Text(result.data.token));
        storage.SetItem(RefreshKey, Text(result.data.refresh));
        storage.SetItem(UserKey, Record(result.data));
        return LoggedIn(result.message, result.data);
      }
      if result.Returned? {
        return Refused(result.message);
      }
      return LoginFailed;
    }

    method Logout()
      modifies this, storage
      ensures Current() == AfterLogout(old(Current()))
    {
      token := None;
      refreshToken := None;
      userInfo := None;
      isLoggedIn := false;
      storage.RemoveItem(TokenKey);
      storage.RemoveItem(RefreshKey);
      storage.RemoveItem(UserKey);
    }

    method UpdateUserInfo(data: User)
      modifies this, storage
      ensures Current() == AfterUpdate(old(Current()), data)
    {
      userInfo := Some(data);
      storage.SetItem(UserKey, Record(data));
    }

    method FetchUserInfo(result: ApiResult)
      modifies this, storage
      ensures Current() == AfterFetch(old(Current()), result)
    {
      match result
      case Threw =>
        Logout();
      case Returned(code, _, data) =>
        if code == 200 {
          userInfo := Some(data);
          storage.SetItem(UserKey, Record(data));
        }
    }
  }
}
