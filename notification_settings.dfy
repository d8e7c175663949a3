/**
 * The notification-settings page: the preference record as the browser
 * edits it, the toggle and number handlers, which inputs are disabled, and
 * the load / save cycle with its status message.
 */
module NotificationSettings {
  import opened Wrappers

  /**
   * The record as the page holds it. A threshold is the number the input
   * produced: None stands for NaN, what `parseFloat` gives for text that
   * is not a number.
   */
  datatype ClientPreference = ClientPreference(
    id: int,
    enableRealTimeNotifications: bool,
    enableEmailNotifications: bool,
    emailForTransactions: bool,
    emailForSecurity: bool,
    emailForSystem: bool,
    emailTransactionThreshold: Option<int>,
    enableSmsNotifications: bool,
    smsForTransactions: bool,
    smsForSecurity: bool,
    smsForSystem: bool,
    smsTransactionThreshold: Option<int>)

  /** The boolean fields a checkbox toggles. */
  datatype Flag =
    | RealTime
    | EmailEnabled | EmailTransactions | EmailSecurity | EmailSystem
    | SmsEnabled | SmsTransactions | SmsSecurity | SmsSystem

  /** The two channels with a threshold input. */
  datatype Channel = Email | Sms

  function Get(p: ClientPreference, f: Flag): bool
  {
    match f
    case RealTime => p.enableRealTimeNotifications
    case EmailEnabled => p.enableEmailNotifications
    case EmailTransactions => p.emailForTransactions
    case EmailSecurity => p.emailForSecurity
    case EmailSystem => p.emailForSystem
    case SmsEnabled => p.enableSmsNotifications
    case SmsTransactions => p.smsForTransactions
    case SmsSecurity => p.smsForSecurity
    case SmsSystem => p.smsForSystem
  }

  function Threshold(p: ClientPreference, c: Channel): Option<int>
  {
    match c
    case Email => p.emailTransactionThreshold
    case Sms => p.smsTransactionThreshold
  }

  /** `{ ...preferences, [field]: !preferences[field] }`. */
  function Toggled(p: ClientPreference, f: Flag): ClientPreference
  {
    match f
    case RealTime => p.(enableRealTimeNotifications := !p.enableRealTimeNotifications)
    case EmailEnabled => p.(enableEmailNotifications := !p.enableEmailNotifications)
    case EmailTransactions => p.(emailForTransactions := !p.emailForTransactions)
    case EmailSecurity => p.(emailForSecurity := !p.emailForSecurity)
    case EmailSystem => p.(emailForSystem := !p.emailForSystem)
    case SmsEnabled => p.(enableSmsNotifications := !p.enableSmsNotifications)
    case SmsTransactions => p.(smsForTransactions := !p.smsForTransactions)
    case SmsSecurity => p.(smsForSecurity := !p.smsForSecurity)
    case SmsSystem => p.(smsForSystem := !p.smsForSystem)
  }

  /** A toggle flips the named flag and no other; the id and both thresholds stay. */
  lemma ToggleFlipsOne(p: ClientPreference, f: Flag)
    ensures Get(Toggled(p, f), f) == !Get(p, f)
    ensures forall g :: g != f ==> Get(Toggled(p, f), g) == Get(p, g)
    ensures Toggled(p, f).id == p.id
    ensures forall c :: Threshold(Toggled(p, f), c) == Threshold(p, c)
  {
  }

  /** Toggling the same flag twice restores the record. */
  lemma ToggleTwice(p: ClientPreference, f: Flag)
    ensures Toggled(Toggled(p, f), f) == p
  {
  }

  /** `{ ...preferences, [field]: parseFloat(value) }` for a threshold field. */
  function WithThreshold(p: ClientPreference, c: Channel, parsed: Option<int>): (r: ClientPreference)
    ensures Threshold(r, c) == parsed
    ensures forall d :: d != c ==> Threshold(r, d) == Threshold(p, d)
    ensures forall f :: Get(r, f) == Get(p, f)
    ensures r.id == p.id
  {
    match c
    case Email => p.(emailTransactionThreshold := parsed)
    case Sms => p.(smsTransactionThreshold := parsed)
  }

  /** The channel whose master switch governs a flag's checkbox, if any. */
  function GoverningChannel(f: Flag): Option<Channel>
  {
    match f
    case EmailTransactions | EmailSecurity | EmailSystem => Some(Email)
    case SmsTransactions | SmsSecurity | SmsSystem => Some(Sms)
    case _ => None
  }

  function Switch(c: Channel): Flag
  {
    match c
    case Email => EmailEnabled
    case Sms => SmsEnabled
  }

  function ForTransactions(c: Channel): Flag
  {
    match c
    case Email => EmailTransactions
    case Sms => SmsTransactions
  }

  /** The `disabled` attribute of a flag's checkbox. */
  function CheckboxDisabled(p: ClientPreference, f: Flag): bool
  {
    match f
    case EmailTransactions | EmailSecurity | EmailSystem => !p.enableEmailNotifications
    case SmsTransactions | SmsSecurity | SmsSystem => !p.enableSmsNotifications
    case _ => false
  }

  /** The `disabled` attribute of a channel's threshold input. */
  function ThresholdDisabled(p: ClientPreference, c: Channel): bool
  {
    match c
    case Email => !p.enableEmailNotifications || !p.emailForTransactions
    case Sms => !p.enableSmsNotifications || !p.smsForTransactions
  }

  /**
   * A sub-option's checkbox is disabled exactly when its channel is
   * switched off; the three master switches are never disabled; a
   * threshold is editable exactly when its channel is on and sends
   * transaction messages.
   */
  lemma DisabledRules(p: ClientPreference, f: Flag, c: Channel)
    ensures GoverningChannel(f).Some? ==> (CheckboxDisabled(p, f) <==> !Get(p, Switch(GoverningChannel(f).value)))
    ensures GoverningChannel(f).None? ==> !CheckboxDisabled(p, f)
    ensures ThresholdDisabled(p, c) <==> !Get(p, Switch(c)) || !Get(p, ForTransactions(c))
  {
  }

  /**
   * Toggling a channel's switch flips the disabled state of every checkbox
   * it governs, and of nothing else.
   */
  lemma SwitchGovernsSubOptions(p: ClientPreference, c: Channel, f: Flag)
    ensures GoverningChannel(f) == Some(c) ==>
              CheckboxDisabled(Toggled(p, Switch(c)), f) == !CheckboxDisabled(p, f)
    ensures GoverningChannel(f) != Some(c) ==>
              CheckboxDisabled(Toggled(p, Switch(c)), f) == CheckboxDisabled(p, f)
  {
    match c
    case Email =>
    case Sms =>
  }

  /** Toggling any flag other than a channel switch disables or enables no checkbox. */
  lemma OtherTogglesKeepDisabled(p: ClientPreference, g: Flag, f: Flag)
    requires g != EmailEnabled && g != SmsEnabled
    ensures CheckboxDisabled(Toggled(p, g), f) == CheckboxDisabled(p, f)
  {
  }

  /** The status line under the form. */
  datatype Message = Message(text: string, kind: string)

  const NO_MESSAGE: Message := Message("", "")
  const SAVED: Message := Message("Preferences saved successfully!", "success")
  const SAVE_FAILED: Message := Message("Failed to save preferences", "error")

  /** The page's four state variables. */
  datatype SettingsState = SettingsState(preferences: Option<ClientPreference>, loading: bool, saving: bool, message: Message)

  const INITIAL: SettingsState := SettingsState(None, true, false, NO_MESSAGE)

  /** The fetch settling: `response` is the record, None when the request failed. */
  function Loaded(s: SettingsState, response: Option<ClientPreference>): (r: SettingsState)
    ensures !r.loading
    ensures response.Some? ==> r.preferences == response
    ensures response.None? ==> r.preferences == s.preferences
    ensures r.saving == s.saving && r.message == s.message
  {
    s.(preferences := if response.Some? then response else s.preferences, loading := false)
  }

  function FlagToggled(s: SettingsState, f: Flag): SettingsState
  {
    if s.preferences.None? then s else s.(preferences := Some(Toggled(s.preferences.value, f)))
  }

  function NumberChanged(s: SettingsState, c: Channel, parsed: Option<int>): SettingsState
  {
    if s.preferences.None? then s else s.(preferences := Some(WithThreshold(s.preferences.value, c, parsed)))
  }

  /** `handleSubmit`: the state while the request is in flight, and the record it sends. */
  datatype Submitted = Submitted(state: SettingsState, request: Option<ClientPreference>)

  function SubmitStarted(s: SettingsState): Submitted
  {
    if s.preferences.None? then Submitted(s, None)
    else Submitted(s.(saving := true), s.preferences)
  }

  /** The request settling: `ok` when the server accepted it. */
  function SubmitSettled(s: SettingsState, ok: bool): SettingsState
  {
    s.(message := if ok then SAVED else SAVE_FAILED, saving := false)
  }

  /** The timer set after a successful save, three seconds later. */
  const MESSAGE_TIMEOUT_MS: nat := 3000

  function MessageExpired(s: SettingsState): SettingsState
  {
    s.(message := NO_MESSAGE)
  }

  /** Before the record is loaded, toggles, number changes and submits do nothing and send nothing. */
  lemma NothingWithoutPreferences(s: SettingsState, f: Flag, c: Channel, parsed: Option<int>)
    requires s.preferences.None?
    ensures FlagToggled(s, f) == s && NumberChanged(s, c, parsed) == s
    ensures SubmitStarted(s) == Submitted(s, None)
  {
  }

  /**
   * With a record loaded, a submit sends it as it stands and marks the page
   * saving, which disables the button; when the request settles, saving is
   * over and the message says how it went; the timer clears the message.
   */
  lemma SaveCycle(s: SettingsState, ok: bool)
    requires s.preferences.Some?
    ensures var started := SubmitStarted(s);
            started.request == s.preferences && SubmitDisabled(started.state)
            && started.state.(saving := s.saving) == s
    ensures var settled := SubmitSettled(SubmitStarted(s).state, ok);
            !SubmitDisabled(settled) && settled.preferences == s.preferences
            && (settled.message == SAVED <==> ok) && (settled.message == SAVE_FAILED <==> !ok)
    ensures MessageExpired(SubmitSettled(SubmitStarted(s).state, ok)).message == NO_MESSAGE
  {
  }

  /** The submit button is disabled while a save is in flight. */
  function SubmitDisabled(s: SettingsState): bool
  {
    s.saving
  }

  /** The page: its state variables as fields, its handlers as methods. */
  class SettingsPage {
    var preferences: Option<ClientPreference>
    var loading: bool
    var saving: bool
    var message: Message

    function State(): SettingsState
      reads this
    {
      SettingsState(preferences, loading, saving, message)
    }

    constructor()
      ensures State() == INITIAL
    {
      preferences := None;
      loading := true;
      saving := false;
      message := NO_MESSAGE;
    }

    method Load(response: Option<ClientPreference>)
      modifies this
      ensures State() == Loaded(old(State()), response)
    {
      if response.Some? {
        preferences := response;
      }
      loading := false;
    }

    method ToggleChange(f: Flag)
      modifies this
      ensures State() == FlagToggled(old(State()), f)
    {
      if preferences.None? {
        return;
      }
      preferences := Some(Toggled(preferences.value, f));
    }

    method NumberChange(c: Channel, parsed: Option<int>)
      modifies this
      ensures State() == NumberChanged(old(State()), c, parsed)
    {
      if preferences.None? {
        return;
      }
      preferences := Some(WithThreshold(preferences.value, c, parsed));
    }

    method Submit() returns (request: Option<ClientPreference>)
      modifies this
      ensures Submitted(State(), request) == SubmitStarted(old(State()))
    {
      if preferences.None? {
        return None;
      }
      saving := true;
      request := preferences;
    }

    method Settle(ok: bool)
      modifies this
      ensures State() == SubmitSettled(old(State()), ok)
    {
      if ok {
        message := SAVED;
      } else {
        message := SAVE_FAILED;
      }
      saving := false;
    }

    method ExpireMessage()
      modifies this
      ensures State() == MessageExpired(old(State()))
    {
      message := NO_MESSAGE;
    }
  }
}
