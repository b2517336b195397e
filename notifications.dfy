/**
 * The NotificationManager of the page (frontend/static/js/notifications.js):
 * two switches, desktop notifications and the notification sound, kept in
 * the browser's local storage under `notificationSettings`.
 *
 * Local storage is the field `storage`; the browser's notification
 * permission is a parameter. What the manager shows or plays is appended
 * to `out`. The Web Audio tone and the popup's click and 5-second close
 * handlers are not modelled.
 */
module Notifications {
  import opened Wrappers

  /** A value read back from the stored JSON for one switch. */
  datatype StoredField = Absent | JsBool(b: bool) | OtherValue

  /** The parsed `notificationSettings` object. */
  datatype Saved = Saved(notifications: StoredField, sound: StoredField)

  /** The two switches. */
  datatype Settings = Settings(notifications: bool, sound: bool)

  const Defaults := Settings(true, true)

  /** `parsed.x !== false`: on unless stored as exactly false. */
  function SwitchFrom(f: StoredField): (on: bool)
    ensures !on <==> f == JsBool(false)
  {
    f != JsBool(false)
  }

  /** loadSettings: stored switches replace the current ones; with nothing stored, the current ones stay. */
  function Load(stored: Option<Saved>, current: Settings): (s: Settings)
    ensures stored.None? ==> s == current
    ensures stored.Some? ==> s.notifications == SwitchFrom(stored.value.notifications)
    ensures stored.Some? ==> s.sound == SwitchFrom(stored.value.sound)
  {
    match stored
    case None => current
    case Some(saved) => Settings(SwitchFrom(saved.notifications), SwitchFrom(saved.sound))
  }

  /** saveSettings: both switches as JSON booleans. */
  function Save(s: Settings): Saved
  {
    Saved(JsBool(s.notifications), JsBool(s.sound))
  }

  /** What was saved loads back unchanged, whatever the switches were before. */
  lemma LoadAfterSave(s: Settings, before: Settings)
    ensures Load(Some(Save(s)), before) == s
  {
  }

  /** Only an explicit false turns a switch off: a setting never saved stays on. */
  lemma MissingSwitchIsOn(stored: Saved, before: Settings)
    requires stored.notifications != JsBool(false)
    ensures Load(Some(stored), before).notifications
  {
  }

  function Flip(s: Settings, sound: bool): (r: Settings)
    ensures sound ==> r == s.(sound := !s.sound)
    ensures !sound ==> r == s.(notifications := !s.notifications)
  {
    if sound then s.(sound := !s.sound) else s.(notifications := !s.notifications)
  }

  /** Two toggles of the same switch restore the settings. */
  lemma FlipTwice(s: Settings, sound: bool)
    ensures Flip(Flip(s, sound), sound) == s
  {
  }

  /** What the manager makes the user see or hear. */
  datatype Alert = Popup(title: string, body: string, icon: string) | Tone

  const DefaultIcon := "/static/images/logo.png"

  class NotificationManager {
    var notificationEnabled: bool
    var soundEnabled: bool
    var storage: Option<Saved>
    var out: seq<Alert>

    function Current(): Settings
      reads this`notificationEnabled, this`soundEnabled
    {
      Settings(notificationEnabled, soundEnabled)
    }

    /** The constructor: both switches on, then whatever is stored is loaded. */
    constructor(stored: Option<Saved>)
      ensures storage == stored && out == []
      ensures Current() == Load(stored, Defaults)
    {
      notificationEnabled := true;
      soundEnabled := true;
      storage := stored;
      out := [];
      new;
      LoadSettings();
    }

    method LoadSettings()
      modifies this`notificationEnabled, this`soundEnabled
      ensures Current() == Load(storage, old(Current()))
    {
      if storage.Some? {
        notificationEnabled := SwitchFrom(storage.value.notifications);
        soundEnabled := SwitchFrom(storage.value.sound);
      }
    }

    method SaveSettings()
      modifies this`storage
      ensures storage == Some(Save(Current()))
    {
      storage := Some(Save(Current()));
    }

    /** toggleNotifications: flip, persist, and return the new state. */
    method ToggleNotifications() returns (enabled: bool)
      modifies this`notificationEnabled, this`storage
      ensures Current() == Flip(old(Current()), false)
      ensures storage == Some(Save(Current()))
      ensures enabled == notificationEnabled
    {
      notificationEnabled := !notificationEnabled;
      SaveSettings();
      enabled := notificationEnabled;
    }

    /** toggleSound: flip, persist, and return the new state. */
    method ToggleSound() returns (enabled: bool)
      modifies this`soundEnabled, this`storage
      ensures Current() == Flip(old(Current()), true)
      ensures storage == Some(Save(Current()))
      ensures enabled == soundEnabled
    {
      soundEnabled := !soundEnabled;
      SaveSettings();
      enabled := soundEnabled;
    }

    /** playNotificationSound: a tone, unless the sound is off. */
    method PlayNotificationSound()
      modifies this`out
      ensures out == old(out) + (if soundEnabled then [Tone] else [])
    {
      if !soundEnabled {
        return;
      }
      out := out + [Tone];
    }

    /**
     * showNotification: nothing at all when notifications are off; otherwise
     * a popup when the browser has granted permission, then the sound.
     */
    method ShowNotification(title: string, body: string, icon: Option<string>, granted: bool)
      modifies this`out
      ensures !notificationEnabled ==> out == old(out)
      ensures notificationEnabled ==>
        out == old(out) + (if granted then [Popup(title, body, icon.GetOr(DefaultIcon))] else [])
                        + (if soundEnabled then [Tone] else [])
    {
      if !notificationEnabled {
        return;
      }
      if granted {
        out := out + [Popup(title, body, icon.GetOr(DefaultIcon))];
      }
      PlayNotificationSound();
    }
  }

  /** A toggle survives a reload of the page: the next manager starts with the toggled settings. */
  lemma ToggleSurvivesReload(s: Settings, sound: bool)
    ensures Load(Some(Save(Flip(s, sound))), Defaults) == Flip(s, sound)
  {
    LoadAfterSave(Flip(s, sound), Defaults);
  }
}
