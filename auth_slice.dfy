/** The login slice of the Redux store: the signed-in user and token, mirrored in the
    browser's storage, with the three states of the login request. */
module AuthSlice {
  import opened Common
  import opened Browser
  import UsersCtrl

  const DefaultRejection := "Invalid credentials"

  /** The rejection payload of `loginUser`: the server's message, or the default when it
      sent none (or an empty one). */
  function RejectionMessage(serverMessage: Option<string>): (r: string)
    ensures r != ""
    ensures serverMessage.Some? && serverMessage.value != "" ==> r == serverMessage.value
  {
    if serverMessage.Some? && serverMessage.value != "" then serverMessage.value else DefaultRejection
  }

  /** `JSON.parse(localStorage.getItem("user")) || null`. */
  function StoredUser(items: map<string, Value>): Option<Value> {
    if "user" in items then Some(items["user"]) else None
  }

  /** `localStorage.getItem("token") || null`: an empty token reads as none. */
  function StoredToken(items: map<string, Value>): (r: Option<string>)
    ensures r.Some? ==> r.value != ""
  {
    if "token" in items && items["token"].Text? && items["token"].text != "" then Some(items["token"].text) else None
  }

  /** The storage once a login reply is saved. */
  function AfterLogin(items: map<string, Value>, payload: UsersCtrl.Session): map<string, Value> {
    items["token" := Text(payload.token)]["user" := LoginReply(payload)]
  }

  /** A page loaded after a login finds that login. */
  lemma LoginSurvivesReload(items: map<string, Value>, payload: UsersCtrl.Session)
    requires payload.token != ""
    ensures StoredUser(AfterLogin(items, payload)) == Some(LoginReply(payload))
    ensures StoredToken(AfterLogin(items, payload)) == Some(payload.token)
  {
  }

  /** A page loaded after `logoutAction` finds nobody signed in; the layout's own logout
      keeps the token, so such a page still holds it. */
  lemma LogoutSurvivesReload(items: map<string, Value>)
    ensures StoredUser(items - {"token", "user"}) == None
    ensures StoredToken(items - {"token", "user"}) == None
    ensures StoredToken(items - {"user"}) == StoredToken(items)
  {
  }

  class AuthState {
    var user: Option<Value>
    var token: Option<string>
    var loading: bool
    var error: Option<string>

    /** `initialState`, read from the storage. */
    constructor(ls: LocalStorage)
      ensures user == StoredUser(ls.items) && token == StoredToken(ls.items)
      ensures !loading && error == None
    {
      user := StoredUser(ls.items);
      token := StoredToken(ls.items);
      loading := false;
      error := None;
    }

    /** `logoutAction`: forget the session here and in the storage; `loading` is kept. */
    method Logout(ls: LocalStorage)
      modifies this, ls
      ensures user == None && token == None && error == None
      ensures loading == old(loading)
      ensures ls.items == old(ls.items) - {"token", "user"}
    {
      user := None;
      token := None;
      error := None;
      ls.RemoveItem("token");
      ls.RemoveItem("user");
    }

    /** `loginUser.pending`. */
    method Pending()
      modifies this
      ensures loading && error == None
      ensures user == old(user) && token == old(token)
    {
      loading := true;
      error := None;
    }

    /** `loginUser.fulfilled`: the reply becomes the user, its token the token, and both
        are saved. */
    method Fulfilled(ls: LocalStorage, payload: UsersCtrl.Session)
      modifies this, ls
      ensures !loading && user == Some(LoginReply(payload)) && token == Some(payload.token)
      ensures error == old(error)
      ensures ls.items == AfterLogin(old(ls.items), payload)
    {
      loading := false;
      user := Some(LoginReply(payload));
      token := Some(payload.token);
      ls.SetItem("token", Text(payload.token));
      ls.SetItem("user", LoginReply(payload));
    }

    /** `loginUser.rejected`: the payload becomes the error; the session is kept. */
    method Rejected(payload: string)
      modifies this
      ensures !loading && error == Some(payload)
      ensures user == old(user) && token == old(token)
    {
      loading := false;
      error := Some(payload);
    }
  }

  /** After a login, the saved state is what a reloaded store reads back. */
  method LoginThenReload(ls: LocalStorage, payload: UsersCtrl.Session) returns (reloaded: AuthState)
    requires payload.token != ""
    modifies ls
    ensures reloaded.user == Some(LoginReply(payload)) && reloaded.token == Some(payload.token)
    ensures !reloaded.loading && reloaded.error == None
  {
    var state := new AuthState(ls);
    state.Pending();
    state.Fulfilled(ls, payload);
    LoginSurvivesReload(old(ls.items), payload);
    reloaded := new AuthState(ls);
  }
}
