/** The settings screen of src/app/components/SettingsView.tsx: invisible mode and the
    three notification switches, each change reported to the update callback. */
module Settings {
  import opened Common

  datatype Notifications = Notifications(messages: bool, matches: bool, news: bool)

  datatype NotificationKey = MessagesKey | MatchesKey | NewsKey

  /** The settings fields of the user record; `None` is an absent field. */
  datatype SettingsUser = SettingsUser(invisibleMode: Option<bool>, notificationSettings: Option<Notifications>)

  /** What `onUpdateSettings` receives. */
  datatype SettingsUpdate =
    | InvisibleModeUpdate(invisibleMode: bool)
    | NotificationSettingsUpdate(notificationSettings: Notifications)

  const ALL_NOTIFICATIONS: Notifications := Notifications(true, true, true)

  /** `user.invisibleMode || false`. */
  function InitialInvisibleMode(u: SettingsUser): (b: bool)
    ensures b <==> u.invisibleMode == Some(true)
  {
    if u.invisibleMode.Some? then u.invisibleMode.value else false
  }

  /** `user.notificationSettings || { messages: true, matches: true, news: true }`. */
  function InitialNotifications(u: SettingsUser): (n: Notifications)
    ensures u.notificationSettings.None? ==> n == ALL_NOTIFICATIONS
    ensures u.notificationSettings.Some? ==> n == u.notificationSettings.value
  {
    if u.notificationSettings.Some? then u.notificationSettings.value else ALL_NOTIFICATIONS
  }

  function Flag(n: Notifications, key: NotificationKey): bool {
    match key
    case MessagesKey => n.messages
    case MatchesKey => n.matches
    case NewsKey => n.news
  }

  /** `{ ...notifications, [key]: checked }`. */
  function SetFlag(n: Notifications, key: NotificationKey, checked: bool): (r: Notifications)
    ensures Flag(r, key) == checked
    ensures forall other :: other != key ==> Flag(r, other) == Flag(n, other)
  {
    match key
    case MessagesKey => n.(messages := checked)
    case MatchesKey => n.(matches := checked)
    case NewsKey => n.(news := checked)
  }

  /** Switching a notification and switching it back restores the settings; the last
      of two changes to the same key wins. */
  lemma SetFlagRoundTrip(n: Notifications, key: NotificationKey, a: bool, b: bool)
    ensures SetFlag(SetFlag(n, key, a), key, Flag(n, key)) == n
    ensures SetFlag(SetFlag(n, key, a), key, b) == SetFlag(n, key, b)
  {
  }

  /** The first switch change of a user without stored settings reports the chosen
      value for that key and `true` for the other two; with stored settings, the other
      two keep the user's values. */
  lemma FirstNotificationChange(u: SettingsUser, key: NotificationKey, checked: bool)
    ensures var n := SetFlag(InitialNotifications(u), key, checked);
      && Flag(n, key) == checked
      && (u.notificationSettings.None? ==> forall other :: other != key ==> Flag(n, other))
      && (u.notificationSettings.Some? ==>
            forall other :: other != key ==> Flag(n, other) == Flag(u.notificationSettings.value, other))
  {
  }

  class SettingsView {
    var invisibleMode: bool
    var notifications: Notifications

    constructor (user: SettingsUser)
      ensures invisibleMode == InitialInvisibleMode(user)
      ensures notifications == InitialNotifications(user)
    {
      invisibleMode := InitialInvisibleMode(user);
      notifications := InitialNotifications(user);
    }

    /** `handleInvisibleModeChange`: set the state and report just that field. */
    method HandleInvisibleModeChange(checked: bool) returns (update: SettingsUpdate)
      modifies this
      ensures invisibleMode == checked && notifications == old(notifications)
      ensures update == InvisibleModeUpdate(checked)
    {
      invisibleMode := checked;
      update := InvisibleModeUpdate(checked);
    }

    /** `handleNotificationChange`: change one switch and report the whole object. */
    method HandleNotificationChange(key: NotificationKey, checked: bool) returns (update: SettingsUpdate)
      modifies this
      ensures notifications == SetFlag(old(notifications), key, checked)
      ensures invisibleMode == old(invisibleMode)
      ensures update == NotificationSettingsUpdate(notifications)
    {
      var newSettings := SetFlag(notifications, key, checked);
      notifications := newSettings;
      update := NotificationSettingsUpdate(newSettings);
    }
  }
}
