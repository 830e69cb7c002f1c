/** The state of src/App.jsx: the `isLoggedIn` flag, set by the mount effect
    (a `linked` query parameter, then the accounts check) and by the login
    page, and never cleared. */
module AppShell {
  import opened Outcomes
  import Entities
  import Api
  import Text
  import Routing

  /** The decoded body of GET /api/accounts. */
  datatype AccountsBody = AccountList(accounts: seq<Entities.Account>) | NotAList

  /** A response to the accounts check: its `ok` status and its body. The body
      is only read when `ok` holds; a body that is not valid JSON is a Failure. */
  datatype AccountsReply = AccountsReply(ok: bool, body: AccountsBody)

  const AccountsPath := "/api/accounts"

  /** "/api/accounts" is a relative path, so `apiUrl` prefixes the base. */
  lemma AccountsPathIsRelative()
    ensures !Api.IsAbsoluteHttpUrl(AccountsPath)
  {
    assert Text.LowerAscii(AccountsPath[0]) != 'h';
  }

  /** The request of the accounts check: `apiFetch("/api/accounts")` with no
      options. */
  function AccountsCheckRequest(apiBase: string): (req: Api.Request)
    ensures req.url == apiBase + AccountsPath
    ensures req.options == map["credentials" := Api.JsString("include")]
  {
    AccountsPathIsRelative();
    Api.ApiFetch(apiBase, Some(AccountsPath), map[])
  }

  /** `params.get("linked")` is truthy: present and non-empty. */
  predicate LinkedParamSet(linked: Option<string>)
  {
    linked.Some? && linked.value != ""
  }

  /** The accounts check logs the user in: the request completed, the
      response is ok, and its body is a non-empty array. */
  predicate AccountsConfirmLogin(reply: Outcome<AccountsReply>)
  {
    && reply.Success?
    && reply.value.ok
    && reply.value.body.AccountList?
    && |reply.value.body.accounts| > 0
  }

  class App {
    var isLoggedIn: bool

    /** `useState(false)`. */
    constructor()
      ensures !isLoggedIn
    {
      isLoggedIn := false;
    }

    /** The first step of the mount effect: a truthy `linked` parameter logs
        the user in; otherwise the flag is left as it is. */
    method ApplyLinkedParam(linked: Option<string>)
      modifies this
      ensures isLoggedIn == (old(isLoggedIn) || LinkedParamSet(linked))
    {
      if LinkedParamSet(linked) {
        isLoggedIn := true;
      }
    }

    /** The awaited accounts check: only a completed, ok, non-empty array
        reply sets the flag; a thrown, non-ok or empty check is ignored and
        reports nothing. */
    method ApplyAccountsCheck(reply: Outcome<AccountsReply>)
      modifies this
      ensures isLoggedIn == (old(isLoggedIn) || AccountsConfirmLogin(reply))
    {
      if reply.Success? {
        var r := reply.value;
        if r.ok {
          if r.body.AccountList? && |r.body.accounts| > 0 {
            isLoggedIn := true;
          }
        }
      }
    }

    /** The mount effect run as one step: the `linked` parameter first, then
        the accounts check, whose request it returns. */
    method Mount(apiBase: string, linked: Option<string>, reply: Outcome<AccountsReply>) returns (req: Api.Request)
      modifies this
      ensures req == AccountsCheckRequest(apiBase)
      ensures isLoggedIn == (old(isLoggedIn) || LinkedParamSet(linked) || AccountsConfirmLogin(reply))
    {
      ApplyLinkedParam(linked);
      req := AccountsCheckRequest(apiBase);
      ApplyAccountsCheck(reply);
    }

    /** `setIsLoggedIn(true)`, as the login page calls it. */
    method MarkLoggedIn()
      modifies this
      ensures isLoggedIn
    {
      isLoggedIn := true;
    }

    /** The page the router mounts for `path` in the current state. */
    function CurrentRoute(path: string): (view: Option<Routing.View>)
      reads this
      ensures view.Some? && view.value.NeedsLogin() ==> isLoggedIn
    {
      Routing.LoggedOutRoutesArePublic(path);
      Routing.RouteFor(path, isLoggedIn)
    }
  }

  /** A fresh app that mounts with no `linked` parameter and a failed or
      empty accounts check still routes none of the protected pages. */
  method MountWithoutLogin(apiBase: string, reply: Outcome<AccountsReply>) returns (app: App)
    requires !AccountsConfirmLogin(reply)
    ensures !app.isLoggedIn
    ensures app.CurrentRoute("/events") == None
  {
    app := new App();
    var _ := app.Mount(apiBase, None, reply);
    Routing.ProtectedPathsRouted();
  }
}
