/**
 * The account screen: the profile record, the table of third-party integrations with their
 * connected flags, the notification and privacy switches, and the avatar initials.
 */
module Account {
  import opened Wrappers
  import opened Text

  /** The profile record edited on the "Profile" tab. */
  datatype Profile = Profile(
    name: string, email: string, username: string, title: string,
    company: string, location: string, timezone: string, bio: string)

  /** The profile the screen starts with. */
  const InitialProfile: Profile := Profile(
    "Alex Thompson", "alex.thompson@company.com", "alexthompson", "Senior Product Manager",
    "TechCorp Inc.", "San Francisco, CA", "PST (UTC-8)",
    "Passionate about productivity and innovation. Love building products that make people's lives easier.")

  /** The profile inputs; the time zone has no input. */
  datatype ProfileField = NameField | EmailField | UsernameField | TitleField | CompanyField | LocationField | BioField

  /** The value an input shows. */
  function FieldValue(p: Profile, f: ProfileField): string {
    match f
    case NameField => p.name
    case EmailField => p.email
    case UsernameField => p.username
    case TitleField => p.title
    case CompanyField => p.company
    case LocationField => p.location
    case BioField => p.bio
  }

  /** `setProfileData(prev => ({ ...prev, f: v }))`: the input's field becomes `v`, every other field is kept. */
  function WithField(p: Profile, f: ProfileField, v: string): (r: Profile)
    ensures FieldValue(r, f) == v
    ensures forall g :: g != f ==> FieldValue(r, g) == FieldValue(p, g)
    ensures r.timezone == p.timezone
  {
    match f
    case NameField => p.(name := v)
    case EmailField => p.(email := v)
    case UsernameField => p.(username := v)
    case TitleField => p.(title := v)
    case CompanyField => p.(company := v)
    case LocationField => p.(location := v)
    case BioField => p.(bio := v)
  }

  /** Typing the value an input already shows changes nothing. */
  lemma WithSameField(p: Profile, f: ProfileField)
    ensures WithField(p, f, FieldValue(p, f)) == p
  {
  }

  /** Of two edits of the same input only the later one counts. */
  lemma WithFieldLastWins(p: Profile, f: ProfileField, v: string, w: string)
    ensures WithField(WithField(p, f, v), f, w) == WithField(p, f, w)
  {
  }

  /**
   * The first character of each piece, skipping empty pieces: `pieces.map(n => n[0]).join('')`.
   * At most one character per piece, and exactly one when no piece is empty.
   */
  function FirstChars(pieces: seq<string>): (r: string)
    ensures |r| <= |pieces|
    ensures (forall i :: 0 <= i < |pieces| ==> pieces[i] != "") ==> |r| == |pieces|
  {
    if pieces == [] then ""
    else (if pieces[0] == "" then "" else [pieces[0][0]]) + FirstChars(pieces[1..])
  }

  /**
   * The characters of `s` that start a word: not a space, and either first or after a space
   * (`afterSpace` says whether the character before `s` was a space, or there was none).
   */
  function WordStarts(s: string, afterSpace: bool): (r: string)
    ensures |r| <= |s|
    ensures forall i :: 0 <= i < |r| ==> r[i] != ' '
  {
    if s == [] then ""
    else (if afterSpace && s[0] != ' ' then [s[0]] else "") + WordStarts(s[1..], s[0] == ' ')
  }

  /** The pieces of a split, and the pieces after the first, give the word starts from the start and after it. */
  lemma {:induction false} SplitWordStarts(s: string)
    ensures FirstChars(Split(s, ' ')) == WordStarts(s, true)
    ensures FirstChars(Split(s, ' ')[1..]) == WordStarts(s, false)
    decreases |s|
  {
    if s != [] {
      var rest := Split(s[1..], ' ');
      SplitWordStarts(s[1..]);
      if s[0] == ' ' {
        assert Split(s, ' ') == [""] + rest;
        assert ([""] + rest)[1..] == rest;
      } else {
        var head := [s[0]] + rest[0];
        assert Split(s, ' ') == [head] + rest[1..];
        assert ([head] + rest[1..])[1..] == rest[1..];
        assert FirstChars([head] + rest[1..]) == [s[0]] + FirstChars(rest[1..]);
      }
    }
  }

  /**
   * The avatar fallback, `name.split(' ').map(n => n[0]).join('')`: the characters that start a
   * word of the name, in order, none of them a space.
   */
  function Initials(name: string): (r: string)
    ensures r == WordStarts(name, true)
    ensures forall i :: 0 <= i < |r| ==> r[i] != ' '
  {
    SplitWordStarts(name);
    FirstChars(Split(name, ' '))
  }

  /** For a name made of words without spaces, the initials are the words' first characters. */
  lemma InitialsOfWords(words: seq<string>)
    requires |words| >= 1
    requires forall i :: 0 <= i < |words| ==> ' ' !in words[i]
    ensures Initials(Join(words, ' ')) == FirstChars(words)
  {
    SplitJoin(words, ' ');
  }

  /** A name of two words gives their two first characters. */
  lemma TwoWordInitials(first: string, last: string)
    requires first != "" && last != ""
    requires ' ' !in first && ' ' !in last
    ensures Initials(first + " " + last) == [first[0], last[0]]
  {
    var words := [first, last];
    assert words[1..] == [last];
    assert Join(words, ' ') == first + " " + last;
    InitialsOfWords(words);
    assert FirstChars(words[1..]) == [last[0]] + FirstChars([]);
  }

  /** The sample name "Alex Thompson" shows "AT". */
  lemma InitialAvatar()
    ensures Initials("Alex Thompson") == "AT"
  {
    TwoWordInitials("Alex", "Thompson");
    assert "Alex" + " " + "Thompson" == "Alex Thompson";
  }

  /** The descriptive field each integration carries besides its connected flag. */
  datatype Detail = Email(email: string) | Workspace(workspace: string) | Username(username: string)

  datatype Integration = Integration(connected: bool, detail: Detail)

  /** The integrations record, keyed by service. */
  type Integrations = map<string, Integration>

  /** The integrations the screen starts with. */
  const InitialIntegrations: Integrations := map[
    "google" := Integration(true, Email("alex@gmail.com")),
    "outlook" := Integration(false, Email("")),
    "notion" := Integration(true, Workspace("Personal Workspace")),
    "slack" := Integration(true, Workspace("TechCorp")),
    "trello" := Integration(false, Workspace("")),
    "github" := Integration(true, Username("alexthompson")),
    "zoom" := Integration(false, Email("")),
    "dropbox" := Integration(true, Email("alex@dropbox.com"))
  ]

  /** An entry of `integrationServices`, the list the "Integrations" tab renders; icon, description and colour are not modelled. */
  datatype Service = Service(key: string, name: string, premium: bool)

  const IntegrationServices: seq<Service> := [
    Service("google", "Google Calendar", false),
    Service("outlook", "Outlook", false),
    Service("notion", "Notion", false),
    Service("slack", "Slack", true),
    Service("trello", "Trello", true),
    Service("github", "GitHub", true),
    Service("zoom", "Zoom", true),
    Service("dropbox", "Dropbox", false)
  ]

  /** Every rendered service has an entry in the record, so its connected flag can be looked up. */
  ghost predicate Listed(ints: Integrations) {
    forall i :: 0 <= i < |IntegrationServices| ==> IntegrationServices[i].key in ints
  }

  /** The rendered services and the keys of the initial record are the same set of names. */
  lemma ServicesMatchIntegrations()
    ensures Listed(InitialIntegrations)
    ensures forall k :: k in InitialIntegrations ==> exists i :: 0 <= i < |IntegrationServices| && IntegrationServices[i].key == k
  {
    forall k | k in InitialIntegrations
      ensures exists i :: 0 <= i < |IntegrationServices| && IntegrationServices[i].key == k
    {
      if k == "google" { assert IntegrationServices[0].key == k; }
      else if k == "outlook" { assert IntegrationServices[1].key == k; }
      else if k == "notion" { assert IntegrationServices[2].key == k; }
      else if k == "slack" { assert IntegrationServices[3].key == k; }
      else if k == "trello" { assert IntegrationServices[4].key == k; }
      else if k == "github" { assert IntegrationServices[5].key == k; }
      else if k == "zoom" { assert IntegrationServices[6].key == k; }
      else { assert IntegrationServices[7].key == k; }
    }
  }

  /** `toggleIntegration` on a service the record has no entry for fails (reading `connected` of `undefined`). */
  datatype ToggleError = UnknownService(service: string)

  /** The new record and the toast text. */
  datatype Toggled = Toggled(integrations: Integrations, notice: string)

  /** The toast after connecting names the service first. */
  function ConnectedNotice(service: string): (r: string)
    ensures service <= r && |r| == |service| + 24
  {
    service + " connected successfully!"
  }

  /** The toast after disconnecting names the service first. */
  function DisconnectedNotice(service: string): (r: string)
    ensures service <= r && |r| == |service| + 13
  {
    service + " disconnected"
  }

  /**
   * `toggleIntegration(service)`: only the service's connected flag flips, its detail and every
   * other entry stay, and the toast says "connected" exactly when it was disconnected before.
   */
  function ToggleIntegration(ints: Integrations, service: string): (r: Result<Toggled, ToggleError>)
    ensures r.Failure? <==> service !in ints
    ensures r.Failure? ==> r.error == UnknownService(service)
    ensures r.Success? ==>
      && r.value.integrations.Keys == ints.Keys
      && r.value.integrations[service].connected == !ints[service].connected
      && r.value.integrations[service].detail == ints[service].detail
      && (forall k :: k in ints && k != service ==> r.value.integrations[k] == ints[k])
    ensures r.Success? ==>
      && (r.value.notice == ConnectedNotice(service) <==> !ints[service].connected)
      && (r.value.notice == DisconnectedNotice(service) <==> ints[service].connected)
  {
    if service !in ints then Failure(UnknownService(service))
    else
      var entry := ints[service];
      var notice := if !entry.connected then ConnectedNotice(service) else DisconnectedNotice(service);
      NoticesDiffer(service);
      Success(Toggled(ints[service := entry.(connected := !entry.connected)], notice))
  }

  /** The two toast texts of a service differ (they have different lengths). */
  lemma NoticesDiffer(service: string)
    ensures ConnectedNotice(service) != DisconnectedNotice(service)
  {
  }

  /** Toggling keeps every service listed. */
  lemma ToggleKeepsListed(ints: Integrations, service: string)
    requires Listed(ints) && service in ints
    ensures Listed(ToggleIntegration(ints, service).value.integrations)
  {
  }

  /** Toggling the same service twice gives back the original record. */
  lemma ToggleTwice(ints: Integrations, service: string)
    requires service in ints
    ensures ToggleIntegration(ToggleIntegration(ints, service).value.integrations, service).value.integrations == ints
  {
    var once := ToggleIntegration(ints, service).value.integrations;
    var twice := ToggleIntegration(once, service).value.integrations;
    assert twice[service] == ints[service];
  }

  /** The notification switches. */
  datatype Notifications = Notifications(email: bool, desktop: bool, mobile: bool, weeklyReports: bool, taskReminders: bool)

  /** The privacy record; `profileVisibility` has no control on the screen. */
  datatype Privacy = Privacy(profileVisibility: string, activityTracking: bool, dataAnalytics: bool)

  /** The preferences record; no control on the screen changes it. */
  datatype Preferences = Preferences(theme: string, language: string, timezone: string, dateFormat: string)

  datatype Settings = Settings(notifications: Notifications, privacy: Privacy, preferences: Preferences)

  /** The settings the screen starts with. */
  const InitialSettings: Settings := Settings(
    Notifications(true, true, false, true, true),
    Privacy("public", true, true),
    Preferences("system", "English", "auto", "MM/DD/YYYY"))

  /** The five switches of the "Notifications" tab. */
  datatype NotificationSwitch = EmailSwitch | DesktopSwitch | MobileSwitch | WeeklyReportsSwitch | TaskRemindersSwitch

  /** Whether a notification switch is on. */
  function NotificationOn(n: Notifications, w: NotificationSwitch): bool {
    match w
    case EmailSwitch => n.email
    case DesktopSwitch => n.desktop
    case MobileSwitch => n.mobile
    case WeeklyReportsSwitch => n.weeklyReports
    case TaskRemindersSwitch => n.taskReminders
  }

  /** A notification switch changes: that switch takes the new value, every other setting stays. */
  function WithNotification(s: Settings, w: NotificationSwitch, checked: bool): (r: Settings)
    ensures NotificationOn(r.notifications, w) == checked
    ensures forall v :: v != w ==> NotificationOn(r.notifications, v) == NotificationOn(s.notifications, v)
    ensures r.privacy == s.privacy && r.preferences == s.preferences
  {
    var n := s.notifications;
    var n' := match w
      case EmailSwitch => n.(email := checked)
      case DesktopSwitch => n.(desktop := checked)
      case MobileSwitch => n.(mobile := checked)
      case WeeklyReportsSwitch => n.(weeklyReports := checked)
      case TaskRemindersSwitch => n.(taskReminders := checked);
    s.(notifications := n')
  }

  /** The two switches of the privacy card. */
  datatype PrivacySwitch = ActivityTrackingSwitch | DataAnalyticsSwitch

  /** Whether a privacy switch is on. */
  function PrivacyOn(p: Privacy, w: PrivacySwitch): bool {
    match w
    case ActivityTrackingSwitch => p.activityTracking
    case DataAnalyticsSwitch => p.dataAnalytics
  }

  /** A privacy switch changes: that switch takes the new value, every other setting stays. */
  function WithPrivacy(s: Settings, w: PrivacySwitch, checked: bool): (r: Settings)
    ensures PrivacyOn(r.privacy, w) == checked
    ensures forall v :: v != w ==> PrivacyOn(r.privacy, v) == PrivacyOn(s.privacy, v)
    ensures r.privacy.profileVisibility == s.privacy.profileVisibility
    ensures r.notifications == s.notifications && r.preferences == s.preferences
  {
    var p := s.privacy;
    var p' := match w
      case ActivityTrackingSwitch => p.(activityTracking := checked)
      case DataAnalyticsSwitch => p.(dataAnalytics := checked);
    s.(privacy := p')
  }

  /** Flipping a switch to the value it shows changes nothing, for both kinds of switch. */
  lemma SwitchToSameValue(s: Settings, w: NotificationSwitch, v: PrivacySwitch)
    ensures WithNotification(s, w, NotificationOn(s.notifications, w)) == s
    ensures WithPrivacy(s, v, PrivacyOn(s.privacy, v)) == s
  {
  }

  /** The state of the account screen. */
  class AccountScreen {
    var profile: Profile
    var integrations: Integrations
    var settings: Settings

    /** Every rendered service can be looked up in the record. */
    ghost predicate Valid()
      reads this
    {
      Listed(integrations)
    }

    constructor ()
      ensures Valid()
      ensures profile == InitialProfile && integrations == InitialIntegrations && settings == InitialSettings
    {
      profile := InitialProfile;
      integrations := InitialIntegrations;
      settings := InitialSettings;
      ServicesMatchIntegrations();
    }

    /** The text of the avatar fallback. */
    function AvatarFallback(): (r: string)
      reads this
      ensures forall i :: 0 <= i < |r| ==> r[i] != ' '
    {
      Initials(profile.name)
    }

    /** Typing into a profile input. */
    method EditProfile(f: ProfileField, v: string)
      modifies this`profile
      ensures profile == WithField(old(profile), f, v)
    {
      profile := WithField(profile, f, v);
    }

    /**
     * The Connect / Disconnect button of a service: returns the toast text, or the error for a
     * service the record has no entry for, in which case nothing changes.
     */
    method Toggle(service: string) returns (notice: Result<string, ToggleError>)
      requires Valid()
      modifies this`integrations
      ensures Valid()
      ensures service in old(integrations) ==>
        && integrations == ToggleIntegration(old(integrations), service).value.integrations
        && notice == Success(ToggleIntegration(old(integrations), service).value.notice)
      ensures service !in old(integrations) ==>
        integrations == old(integrations) && notice == Failure(UnknownService(service))
    {
      var r := ToggleIntegration(integrations, service);
      if r.Success? {
        ToggleKeepsListed(integrations, service);
        integrations := r.value.integrations;
        notice := Success(r.value.notice);
      } else {
        notice := Failure(r.error);
      }
    }

    /** A switch of the "Notifications" tab. */
    method SetNotification(w: NotificationSwitch, checked: bool)
      modifies this`settings
      ensures settings == WithNotification(old(settings), w, checked)
    {
      settings := WithNotification(settings, w, checked);
    }

    /** A switch of the privacy card. */
    method SetPrivacy(w: PrivacySwitch, checked: bool)
      modifies this`settings
      ensures settings == WithPrivacy(old(settings), w, checked)
    {
      settings := WithPrivacy(settings, w, checked);
    }
  }
}
