/** src/pages/LoginPage.jsx: the OAuth URL, the linked accounts, the events and
    the notetaker flags, and the parent's login flag, which a completed toggle
    sets. None of its requests has a catch around the state update. */
module Login {
  import opened Outcomes
  import opened Entities
  import opened Flags
  import AppShell
  import Events

  /** All state fields of the page (the parent's flag is held by `app`). */
  datatype LoginState = LoginState(
    authUrl: Option<string>, accounts: seq<Account>, events: seq<CalendarEvent>, flags: FlagMap)

  const NoAuthUrlAlert := "no auth url yet"

  /** What "Sign in with Google" does: open the OAuth URL in a new tab, or
      alert when there is none. */
  datatype LinkEffect = OpenTab(url: string) | Alert(message: string)

  class LoginPage {
    /** The parent App, whose `setIsLoggedIn` the page receives. */
    const app: AppShell.App
    var authUrl: Option<string>
    var accounts: seq<Account>
    var events: seq<CalendarEvent>
    var flags: FlagMap

    function State(): LoginState
      reads this
    {
      LoginState(authUrl, accounts, events, flags)
    }

    constructor(app: AppShell.App)
      ensures this.app == app
      ensures State() == LoginState(None, [], [], map[])
    {
      this.app := app;
      authUrl, accounts, events, flags := None, [], [], map[];
    }

    /** GET /auth/url: store `j.url` (None when the reply has no url); a
        failure is swallowed by its catch. */
    method LoadAuthUrl(reply: Outcome<Option<string>>)
      modifies this
      ensures State() == old(State()).(authUrl := if reply.Success? then reply.value else old(authUrl))
    {
      if reply.Success? {
        authUrl := reply.value;
      }
    }

    /** `loadAccounts`: a rejected request never reaches the update. */
    method LoadAccounts(reply: Outcome<seq<Account>>)
      modifies this
      ensures State() == old(State()).(accounts := if reply.Success? then reply.value else old(accounts))
    {
      if reply.Success? {
        accounts := reply.value;
      }
    }

    /** `loadEvents`: a rejected request never reaches the update. */
    method LoadEvents(reply: Outcome<seq<CalendarEvent>>)
      modifies this
      ensures State() == old(State()).(events := if reply.Success? then reply.value else old(events))
    {
      if reply.Success? {
        events := reply.value;
      }
    }

    /** GET /api/notetaker-flags. */
    method LoadFlags(reply: Outcome<FlagMap>)
      modifies this
      ensures State() == old(State()).(flags := if reply.Success? then reply.value else old(flags))
    {
      if reply.Success? {
        flags := reply.value;
      }
    }

    /** `linkAccount`: with a truthy auth URL it is opened in a new tab,
        otherwise the page alerts and opens nothing. No state changes. */
    method LinkAccount() returns (effect: LinkEffect)
      ensures effect.OpenTab? <==> authUrl.Some? && authUrl.value != ""
      ensures effect.OpenTab? ==> Some(effect.url) == authUrl
      ensures effect.Alert? ==> effect.message == NoAuthUrlAlert
    {
      if authUrl.None? || authUrl.value == "" {
        effect := Alert(NoAuthUrlAlert);
      } else {
        effect := OpenTab(authUrl.value);
      }
    }

    /** `toggleFlag(id, v)`: only after the request completes does the flag of
        `id` become `v` and the user count as logged in; a rejected request
        changes neither, since nothing catches it. */
    method ToggleFlag(id: string, v: bool, reply: Outcome<()>) returns (req: Events.ToggleRequest)
      modifies this, app
      ensures req == Events.ToggleRequest(id, v)
      ensures State() == old(State()).(flags := if reply.Success? then SetFlag(old(flags), id, v) else old(flags))
      ensures reply.Success? ==> Checked(id) == v
      ensures app.isLoggedIn == (old(app.isLoggedIn) || reply.Success?)
    {
      req := Events.ToggleRequest(id, v);
      if reply.Success? {
        flags := SetFlag(flags, id, v);
        app.MarkLoggedIn();
      }
    }

    /** The checkbox of event `id`. */
    predicate Checked(id: string)
      reads this
    {
      IsChecked(flags, id)
    }
  }
}
