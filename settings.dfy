/**
 * The admin settings page (components/admin/pages/settings-page.tsx): two
 * records updated one key at a time.  Both are maps from the page's keys.
 */
module Settings {

  datatype NotificationKey = EmailNotifications | AppointmentReminders | PaymentAlerts | NewRegistrations

  datatype SettingKey = SiteName | SiteEmail | ConsultationFee | MaxBookingDays | MaintenanceMode

  /** The values the page's inputs write: text fields and the maintenance switch. */
  datatype SettingValue = Text(text: string) | Flag(on: bool)

  const NotificationKeys: set<NotificationKey> := {EmailNotifications, AppointmentReminders, PaymentAlerts, NewRegistrations}

  const SettingKeys: set<SettingKey> := {SiteName, SiteEmail, ConsultationFee, MaxBookingDays, MaintenanceMode}

  lemma NotificationKeysListed()
    ensures forall k: NotificationKey :: k in NotificationKeys
  {
    forall k: NotificationKey
      ensures k in NotificationKeys
    {
      match k {
        case EmailNotifications =>
        case AppointmentReminders =>
        case PaymentAlerts =>
        case NewRegistrations =>
      }
    }
  }

  lemma SettingKeysListed()
    ensures forall k: SettingKey :: k in SettingKeys
  {
    forall k: SettingKey
      ensures k in SettingKeys
    {
      match k {
        case SiteName =>
        case SiteEmail =>
        case ConsultationFee =>
        case MaxBookingDays =>
        case MaintenanceMode =>
      }
    }
  }

  function DefaultNotifications(): (n: map<NotificationKey, bool>)
    ensures forall k: NotificationKey :: k in n && n[k]
  {
    NotificationKeysListed();
    var m := map[EmailNotifications := true, AppointmentReminders := true, PaymentAlerts := true, NewRegistrations := true];
    assert m.Keys == NotificationKeys;
    m
  }

  function DefaultSettings(): (s: map<SettingKey, SettingValue>)
    ensures forall k: SettingKey :: k in s
    ensures s[MaintenanceMode] == Flag(false)
    ensures s[ConsultationFee] == Text("150") && s[MaxBookingDays] == Text("30")
  {
    SettingKeysListed();
    var m := map[SiteName := Text("RCH - Red de Centros Hospitalarios"), SiteEmail := Text("admin@rch.com"),
                 ConsultationFee := Text("150"), MaxBookingDays := Text("30"), MaintenanceMode := Flag(false)];
    assert m.Keys == SettingKeys;
    m
  }

  /** `{ ...prev, [key]: !prev[key] }`. */
  function Flip(n: map<NotificationKey, bool>, key: NotificationKey): (r: map<NotificationKey, bool>)
    requires key in n
    ensures r.Keys == n.Keys
    ensures r[key] == !n[key]
    ensures forall k :: k in n && k != key ==> r[k] == n[k]
  {
    n[key := !n[key]]
  }

  /** Flipping one flag twice gives back the record. */
  lemma FlipTwice(n: map<NotificationKey, bool>, key: NotificationKey)
    requires key in n
    ensures Flip(Flip(n, key), key) == n
  {
  }

  /** Flips of two different flags commute. */
  lemma FlipsCommute(n: map<NotificationKey, bool>, a: NotificationKey, b: NotificationKey)
    requires a in n && b in n
    ensures Flip(Flip(n, a), b) == Flip(Flip(n, b), a)
  {
  }

  class SettingsPage {
    var notifications: map<NotificationKey, bool>
    var settings: map<SettingKey, SettingValue>

    predicate Valid()
      reads this
    {
      (forall k: NotificationKey :: k in notifications) && (forall k: SettingKey :: k in settings)
    }

    constructor ()
      ensures Valid()
      ensures notifications == DefaultNotifications() && settings == DefaultSettings()
    {
      notifications := DefaultNotifications();
      settings := DefaultSettings();
    }

    /** `handleNotificationChange`. */
    method HandleNotificationChange(key: NotificationKey)
      requires Valid()
      modifies this
      ensures Valid()
      ensures notifications == Flip(old(notifications), key) && settings == old(settings)
    {
      notifications := Flip(notifications, key);
    }

    /** `handleSettingChange`: exactly one key takes the given value. */
    method HandleSettingChange(key: SettingKey, value: SettingValue)
      requires Valid()
      modifies this
      ensures Valid()
      ensures settings == old(settings)[key := value] && notifications == old(notifications)
      ensures settings[key] == value && forall k :: k != key ==> settings[k] == old(settings)[k]
    {
      settings := settings[key := value];
    }
  }
}
