/** src/pages/SettingsPage.jsx: the join-lead setting, the saved automations
    and their creation form, the connected social accounts, the status
    message, and the `saving` / `creatingAutomation` busy flags. */
module SettingsScreen {
  import opened Outcomes
  import opened Entities
  import Lists
  import Text

  const DefaultSettings := Settings(5)

  /** The creation form. */
  datatype AutomationForm = AutomationForm(platform: string, name: string, customPrompt: string)

  const EmptyForm := AutomationForm("linkedin", "", "")

  /** The body of POST /api/automations: the custom prompt travels as `prompt`. */
  datatype CreateRequest = CreateRequest(platform: string, name: string, prompt: string)

  datatype MessageKind = SuccessMessage | ErrorMessage

  /** The banner at the top of the page. */
  datatype Message = Message(kind: MessageKind, text: string)

  /** The two social platforms the page can connect. */
  datatype Platform = LinkedIn | Facebook
  {
    /** The `platform` value of its accounts. */
    function Id(): string
    {
      match this
      case LinkedIn => "linkedin"
      case Facebook => "facebook"
    }

    /** The name shown to the user. */
    function DisplayName(): string
    {
      match this
      case LinkedIn => "LinkedIn"
      case Facebook => "Facebook"
    }
  }

  /** All state fields of the page. */
  datatype SettingsState = SettingsState(
    settings: Settings,
    automations: seq<Automation>,
    socialAccounts: seq<SocialAccount>,
    loading: bool,
    saving: bool,
    message: Option<Message>,
    newAutomation: AutomationForm,
    creatingAutomation: bool)

  /** `a => a.platform === platform`. */
  function AccountOn(platform: string): SocialAccount -> bool
  {
    (a: SocialAccount) => a.platform == platform
  }

  /** `a => a.platform !== platform`. */
  function AccountNotOn(platform: string): SocialAccount -> bool
  {
    (a: SocialAccount) => a.platform != platform
  }

  /** `a => a.id !== id`. */
  function AutomationNotWithId(id: string): Automation -> bool
  {
    (a: Automation) => a.id != id
  }

  /** The account shown for a platform: the first one on that platform. */
  function AccountFor(accounts: seq<SocialAccount>, platform: Platform): Option<SocialAccount>
  {
    Lists.Find(accounts, AccountOn(platform.Id()))
  }

  /** The accounts left after disconnecting a platform. */
  function Disconnected(accounts: seq<SocialAccount>, platform: Platform): seq<SocialAccount>
  {
    Lists.Filter(accounts, AccountNotOn(platform.Id()))
  }

  /** The automations left after deleting `id`. */
  function WithoutAutomation(automations: seq<Automation>, id: string): seq<Automation>
  {
    Lists.Filter(automations, AutomationNotWithId(id))
  }

  /** Disconnecting a platform drops exactly its accounts: afterwards that
      platform shows no account, the other platform shows the same account
      as before, and every account of another platform stays, in order. */
  lemma DisconnectKeepsOtherPlatforms(accounts: seq<SocialAccount>, more: seq<SocialAccount>, platform: Platform, other: Platform)
    requires other != platform
    ensures AccountFor(Disconnected(accounts, platform), platform) == None
    ensures AccountFor(Disconnected(accounts, platform), other) == AccountFor(accounts, other)
    ensures forall a :: a in Disconnected(accounts, platform) <==> a in accounts && a.platform != platform.Id()
    ensures Disconnected(accounts + more, platform) == Disconnected(accounts, platform) + Disconnected(more, platform)
  {
    Lists.FilterAppend(accounts, more, AccountNotOn(platform.Id()));
    Lists.FindAfterRemovingHits(accounts, AccountNotOn(platform.Id()), AccountOn(platform.Id()));
    assert platform.Id() != other.Id();
    Lists.FindIgnoresRemovedMisses(accounts, AccountNotOn(platform.Id()), AccountOn(other.Id()));
    var r := Disconnected(accounts, platform);
    forall a ensures a in r <==> a in accounts && a.platform != platform.Id() {
      if a in r {
        var i :| 0 <= i < |r| && r[i] == a;
      }
      if a in accounts && a.platform != platform.Id() {
        var i :| 0 <= i < |accounts| && accounts[i] == a;
      }
    }
  }

  /** Deleting an automation removes every automation with that id and keeps
      the others in order. */
  lemma DeleteRemovesOnlyThatId(automations: seq<Automation>, more: seq<Automation>, id: string)
    ensures forall a :: a in WithoutAutomation(automations, id) <==> a in automations && a.id != id
    ensures WithoutAutomation(automations + more, id) == WithoutAutomation(automations, id) + WithoutAutomation(more, id)
  {
    Lists.FilterAppend(automations, more, AutomationNotWithId(id));
    var r := WithoutAutomation(automations, id);
    forall a ensures a in r <==> a in automations && a.id != id {
      if a in r {
        var i :| 0 <= i < |r| && r[i] == a;
      }
      if a in automations && a.id != id {
        var i :| 0 <= i < |automations| && automations[i] == a;
      }
    }
  }

  /** The caption of a platform's button. */
  function ButtonCaption(accounts: seq<SocialAccount>, platform: Platform): (caption: string)
    ensures caption == "Disconnect" <==> exists i :: 0 <= i < |accounts| && accounts[i].platform == platform.Id()
    ensures caption != "Disconnect" ==> caption == "Connect"
  {
    if AccountFor(accounts, platform).Some? then "Disconnect" else "Connect"
  }

  /** `settingsReply || { join_lead_minutes: 5 }`. */
  function SettingsOrDefault(decoded: Option<Settings>): (s: Settings)
    ensures decoded.None? ==> s.joinLeadMinutes == 5
    ensures decoded.Some? ==> s == decoded.value
  {
    if decoded.Some? then decoded.value else DefaultSettings
  }

  /** A form whose name is empty or whitespace is refused before any
      request. */
  predicate NameMissing(form: AutomationForm)
  {
    Text.Trim(form.name) == ""
  }

  /** The refusal test is exactly "the name is all whitespace". */
  lemma NameMissingIffBlank(form: AutomationForm)
    ensures NameMissing(form) <==> Text.IsBlank(form.name)
  {
    Text.TrimEmptyIffBlank(form.name);
  }

  /** What a platform button does besides changing state. */
  datatype ButtonEffect = NoEffect | Redirect(url: string) | Alert(message: string)

  class SettingsPage {
    var settings: Settings
    var automations: seq<Automation>
    var socialAccounts: seq<SocialAccount>
    var loading: bool
    var saving: bool
    var message: Option<Message>
    var newAutomation: AutomationForm
    var creatingAutomation: bool

    function State(): SettingsState
      reads this
    {
      SettingsState(settings, automations, socialAccounts, loading, saving, message, newAutomation, creatingAutomation)
    }

    constructor()
      ensures State() == SettingsState(DefaultSettings, [], [], true, false, None, EmptyForm, false)
    {
      settings, automations, socialAccounts := DefaultSettings, [], [];
      loading, saving, message := true, false, None;
      newAutomation, creatingAutomation := EmptyForm, false;
    }

    /** The mount effect's reading of the `success` and `error` query
        parameters: a truthy one sets the banner, `error` winning over
        `success`. */
    method ApplyOAuthParams(success: Option<string>, error: Option<string>)
      modifies this
      ensures error.Some? && error.value != "" ==> State() == old(State()).(message := Some(Message(ErrorMessage, error.value)))
      ensures !(error.Some? && error.value != "") && success.Some? && success.value != "" ==>
        State() == old(State()).(message := Some(Message(SuccessMessage, success.value)))
      ensures !(error.Some? && error.value != "") && !(success.Some? && success.value != "") ==> State() == old(State())
    {
      if success.Some? && success.value != "" {
        message := Some(Message(SuccessMessage, success.value));
      }
      if error.Some? && error.value != "" {
        message := Some(Message(ErrorMessage, error.value));
      }
    }

    /** A 3000 ms banner timer firing. */
    method MessageTimerFired()
      modifies this
      ensures State() == old(State()).(message := None)
    {
      message := None;
    }

    /** `loadSettings`: a null reply keeps the join lead at its default of 5
        minutes; a failure keeps the settings. */
    method LoadSettings(reply: Outcome<Option<Settings>>)
      modifies this
      ensures State() == old(State()).(settings := if reply.Success? then SettingsOrDefault(reply.value) else old(settings))
    {
      if reply.Success? {
        settings := SettingsOrDefault(reply.value);
      }
    }

    /** `loadAutomations`; the page stops showing "Loading settings..."
        whatever the outcome. */
    method LoadAutomations(reply: Outcome<seq<Automation>>)
      modifies this
      ensures State() == old(State()).(automations := if reply.Success? then reply.value else old(automations), loading := false)
    {
      if reply.Success? {
        automations := reply.value;
      }
      loading := false;
    }

    /** `loadSocialAccounts`. */
    method LoadSocialAccounts(reply: Outcome<seq<SocialAccount>>)
      modifies this
      ensures State() == old(State()).(socialAccounts := if reply.Success? then reply.value else old(socialAccounts))
    {
      if reply.Success? {
        socialAccounts := reply.value;
      }
    }

    /** The join-lead slider (`parseInt` of its value). */
    method SetJoinLeadMinutes(minutes: int)
      modifies this
      ensures State() == old(State()).(settings := old(settings).(joinLeadMinutes := minutes))
    {
      settings := settings.(joinLeadMinutes := minutes);
    }

    /** `saveSettings` up to its await: returns the body sent. */
    method BeginSaveSettings() returns (body: Settings)
      modifies this
      ensures body == settings
      ensures State() == old(State()).(saving := true)
    {
      saving := true;
      body := settings;
    }

    /** `saveSettings` after its await: only the alert depends on the outcome. */
    method FinishSaveSettings(reply: Outcome<()>) returns (alertText: string)
      modifies this
      ensures alertText == if reply.Success? then "Settings saved!" else "Error saving settings"
      ensures State() == old(State()).(saving := false)
    {
      alertText := if reply.Success? then "Settings saved!" else "Error saving settings";
      saving := false;
    }

    /** The platform select of the creation form. */
    method EditPlatform(platform: string)
      modifies this
      ensures State() == old(State()).(newAutomation := old(newAutomation).(platform := platform))
    {
      newAutomation := newAutomation.(platform := platform);
    }

    /** The name input of the creation form. */
    method EditName(name: string)
      modifies this
      ensures State() == old(State()).(newAutomation := old(newAutomation).(name := name))
    {
      newAutomation := newAutomation.(name := name);
    }

    /** The custom-prompt textarea of the creation form. */
    method EditPrompt(prompt: string)
      modifies this
      ensures State() == old(State()).(newAutomation := old(newAutomation).(customPrompt := prompt))
    {
      newAutomation := newAutomation.(customPrompt := prompt);
    }

    /** `createAutomation` up to its await. A blank name alerts and returns
        with no request and no change; otherwise the request is built from
        the form and the button is disabled. */
    method BeginCreateAutomation() returns (req: Option<CreateRequest>, alertText: Option<string>)
      modifies this
      ensures NameMissing(old(newAutomation)) ==> req == None
      ensures NameMissing(old(newAutomation)) ==> alertText == Some("Please enter a name for the automation")
      ensures NameMissing(old(newAutomation)) ==> State() == old(State())
      ensures !NameMissing(old(newAutomation)) ==> alertText == None
      ensures !NameMissing(old(newAutomation)) ==>
        req == Some(CreateRequest(old(newAutomation).platform, old(newAutomation).name, old(newAutomation).customPrompt))
      ensures !NameMissing(old(newAutomation)) ==> State() == old(State()).(creatingAutomation := true)
    {
      var form := newAutomation;
      if NameMissing(form) {
        req, alertText := None, Some("Please enter a name for the automation");
      } else {
        creatingAutomation := true;
        req, alertText := Some(CreateRequest(form.platform, form.name, form.customPrompt)), None;
      }
    }

    /** `createAutomation` after its await: the created automation is
        appended and the form reset; a failure keeps both. The button is
        enabled again either way. */
    method FinishCreateAutomation(reply: Outcome<Automation>) returns (alertText: string)
      modifies this
      ensures alertText == if reply.Success? then "Automation created!" else "Error creating automation"
      ensures reply.Success? ==>
        State() == old(State()).(automations := old(automations) + [reply.value], newAutomation := EmptyForm, creatingAutomation := false)
      ensures reply.Failure? ==> State() == old(State()).(creatingAutomation := false)
    {
      if reply.Success? {
        automations := automations + [reply.value];
        newAutomation := EmptyForm;
        alertText := "Automation created!";
      } else {
        alertText := "Error creating automation";
      }
      creatingAutomation := false;
    }

    /** `deleteAutomation(id)`: nothing happens unless confirmed; a confirmed
        delete requests "/api/automations/<id>"; a completed request removes
        the automations with that id, a rejected one alerts. */
    method DeleteAutomation(id: string, confirmed: bool, reply: Outcome<()>)
      returns (path: Option<string>, alertText: Option<string>)
      modifies this
      ensures path.Some? <==> confirmed
      ensures path.Some? ==> path.value == "/api/automations/" + id
      ensures confirmed && reply.Success? ==>
        State() == old(State()).(automations := WithoutAutomation(old(automations), id))
      ensures !(confirmed && reply.Success?) ==> State() == old(State())
      ensures alertText.Some? <==> confirmed && reply.Failure?
      ensures alertText.Some? ==> alertText.value == "Error deleting automation"
    {
      path, alertText := None, None;
      if !confirmed {
        return;
      }
      path := Some("/api/automations/" + id);
      if reply.Success? {
        automations := WithoutAutomation(automations, id);
      } else {
        alertText := Some("Error deleting automation");
      }
    }

    /** The Connect / Disconnect button of a platform. With an account shown
        it disconnects, after confirmation: a completed DELETE drops that
        platform's accounts and shows "<Name> disconnected"; a rejected one
        alerts. Without one it fetches the platform's OAuth URL and navigates
        there, alerting when that fails. */
    method PlatformButton(platform: Platform, confirmed: bool, deleteReply: Outcome<()>, authReply: Outcome<string>)
      returns (effect: ButtonEffect)
      modifies this
      ensures AccountFor(old(socialAccounts), platform).Some? && confirmed && deleteReply.Success? ==>
        State() == old(State()).(socialAccounts := Disconnected(old(socialAccounts), platform),
                                 message := Some(Message(SuccessMessage, platform.DisplayName() + " disconnected")))
      ensures AccountFor(old(socialAccounts), platform).Some? ==>
        effect == if confirmed && deleteReply.Failure? then Alert("Failed to disconnect") else NoEffect
      ensures AccountFor(old(socialAccounts), platform).Some? && !(confirmed && deleteReply.Success?) ==>
        State() == old(State())
      ensures AccountFor(old(socialAccounts), platform).None? ==> State() == old(State())
      ensures AccountFor(old(socialAccounts), platform).None? ==>
        effect == if authReply.Success? then Redirect(authReply.value) else Alert("Failed to connect " + platform.DisplayName())
    {
      effect := NoEffect;
      if AccountFor(socialAccounts, platform).Some? {
        if !confirmed {
          return;
        }
        if deleteReply.Success? {
          socialAccounts := Disconnected(socialAccounts, platform);
          message := Some(Message(SuccessMessage, platform.DisplayName() + " disconnected"));
        } else {
          effect := Alert("Failed to disconnect");
        }
      } else {
        if authReply.Success? {
          effect := Redirect(authReply.value);
        } else {
          effect := Alert("Failed to connect " + platform.DisplayName());
        }
      }
    }
  }
}
