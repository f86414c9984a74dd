/** The settings page of src/pages/UserSettings.tsx: the preferences
    record, the updaters its buttons pass to `setPreferences`, and the save
    button. The mock save delay is not part of this model. */
module UserSettings {
  import opened Routing

  datatype Theme = Light | Dark
  datatype Language = Ko | En
  datatype Notifications = Notifications(push: bool, email: bool, marketing: bool)
  datatype Preferences = Preferences(theme: Theme, language: Language, notifications: Notifications)

  /** The keys of the notification switches. */
  datatype NotificationKey = PushKey | EmailKey | MarketingKey

  /** `defaultPreferences`. */
  const DefaultPreferences := Preferences(Light, Ko, Notifications(true, true, false))

  function Flag(n: Notifications, key: NotificationKey): bool {
    match key
    case PushKey => n.push
    case EmailKey => n.email
    case MarketingKey => n.marketing
  }

  /** `toggleTheme`: the other theme; nothing else changes. */
  function ToggleTheme(p: Preferences): (r: Preferences)
    ensures r.theme != p.theme
    ensures r.language == p.language && r.notifications == p.notifications
  {
    p.(theme := if p.theme == Light then Dark else Light)
  }

  /** `toggleNotification(key)`: that switch flips; the other switches and
      the other fields stay. */
  function ToggleNotification(p: Preferences, key: NotificationKey): (r: Preferences)
    ensures Flag(r.notifications, key) == !Flag(p.notifications, key)
    ensures forall k :: k != key ==> Flag(r.notifications, k) == Flag(p.notifications, k)
    ensures r.theme == p.theme && r.language == p.language
  {
    var n := p.notifications;
    p.(notifications := match key
                        case PushKey => n.(push := !n.push)
                        case EmailKey => n.(email := !n.email)
                        case MarketingKey => n.(marketing := !n.marketing))
  }

  /** The language buttons: only the language changes. */
  function SetLanguage(p: Preferences, language: Language): (r: Preferences)
    ensures r.language == language
    ensures r.theme == p.theme && r.notifications == p.notifications
  {
    p.(language := language)
  }

  /** Each toggle undoes itself, and toggles of different kinds commute. */
  lemma TogglesAreInvolutions(p: Preferences, key: NotificationKey, other: NotificationKey)
    ensures ToggleTheme(ToggleTheme(p)) == p
    ensures ToggleNotification(ToggleNotification(p, key), key) == p
    ensures ToggleNotification(ToggleNotification(p, key), other) ==
            ToggleNotification(ToggleNotification(p, other), key)
    ensures ToggleTheme(ToggleNotification(p, key)) == ToggleNotification(ToggleTheme(p), key)
  {
    var r := ToggleNotification(ToggleNotification(p, key), key);
    assert r.notifications.push == Flag(r.notifications, PushKey);
    assert r.notifications.email == Flag(r.notifications, EmailKey);
    assert r.notifications.marketing == Flag(r.notifications, MarketingKey);
  }

  /** The page's `preferences` and `saving` state. */
  class SettingsPage {
    var preferences: Preferences
    var saving: bool

    constructor ()
      ensures preferences == DefaultPreferences && !saving
    {
      preferences := DefaultPreferences;
      saving := false;
    }

    /** `handleSave` up to its simulated 500 ms wait: the busy flag goes up
        and the preferences are left as they are. */
    method HandleSave()
      modifies this
      ensures preferences == old(preferences) && saving
    {
      saving := true;
    }

    /** The wait over: the busy flag comes down and the page goes to
        "/mypage", still with the preferences unchanged. */
    method SaveSettled() returns (nav: Navigation)
      modifies this
      ensures preferences == old(preferences) && !saving
      ensures nav == Push("/mypage")
    {
      saving := false;
      nav := Push("/mypage");
    }
  }
}
