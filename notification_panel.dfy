/**
 * The notification panel of the page header: the bell badge, the drop-down
 * that lists the store's notifications with an icon and a relative time each,
 * and the fields it copies from the store's streams.
 */
module NotificationPanel {
  import opened Common
  import opened NotificationService

  const MinuteMs: int := 60000
  const HourMs: int := 3600000
  const DayMs: int := 86400000

  // ----- Relative time -----

  /** `floor(floor(d / 60000) / 60) == floor(d / 3600000)`: hours counted from whole minutes. */
  lemma HoursFromMinutes(d: int)
    ensures d / MinuteMs / 60 == d / HourMs
  {
    var q := d / MinuteMs;
    var r := d % MinuteMs;
    var h := q / 60;
    var m := q % 60;
    assert d == MinuteMs * q + r;
    assert q == 60 * h + m;
    assert d == HourMs * h + (MinuteMs * m + r);
    assert 0 <= MinuteMs * m + r < HourMs;
  }

  /** `floor(floor(d / 3600000) / 24) == floor(d / 86400000)`: days counted from whole hours. */
  lemma DaysFromHours(d: int)
    ensures d / HourMs / 24 == d / DayMs
  {
    var q := d / HourMs;
    var r := d % HourMs;
    var dd := q / 24;
    var h := q % 24;
    assert d == HourMs * q + r;
    assert q == 24 * dd + h;
    assert d == DayMs * dd + (HourMs * h + r);
    assert 0 <= HourMs * h + r < DayMs;
  }

  /** A count followed by a unit and " ago" is never "Just now". */
  lemma EndsInAgo(count: string, unit: char)
    ensures count + [unit] + " ago" != "Just now"
  {
    var r := count + [unit] + " ago";
    assert r[|r| - 1] == 'o';
  }

  /**
   * `formatTime`: how long ago `timestamp` was, seen at `now` (both in
   * milliseconds).  The contract states the result on the elapsed time
   * itself: under a minute (a timestamp in the future included) is
   * "Just now", and otherwise the largest whole unit that fits — minutes
   * under an hour, hours under a day, days beyond.
   */
  function FormatTime(now: int, timestamp: int): (r: string)
    ensures now - timestamp < MinuteMs <==> r == "Just now"
    ensures MinuteMs <= now - timestamp < HourMs ==> r == Decimal((now - timestamp) / MinuteMs) + "m ago"
    ensures HourMs <= now - timestamp < DayMs ==> r == Decimal((now - timestamp) / HourMs) + "h ago"
    ensures DayMs <= now - timestamp ==> r == Decimal((now - timestamp) / DayMs) + "d ago"
  {
    var diff := now - timestamp;
    var minutes := diff / 60000;
    HoursFromMinutes(diff);
    DaysFromHours(diff);
    if minutes < 1 then "Just now"
    else if minutes < 60 then
      EndsInAgo(Decimal(minutes), 'm');
      Decimal(minutes) + "m ago"
    else
      var hours := minutes / 60;
      if hours < 24 then
        EndsInAgo(Decimal(hours), 'h');
        Decimal(hours) + "h ago"
      else
        EndsInAgo(Decimal(hours / 24), 'd');
        Decimal(hours / 24) + "d ago"
  }

  /** The unit shown is never rounded up: the count read back, times the unit, fits in the elapsed time, and one more does not. */
  lemma FormatTimeCountsWholeUnits(now: int, timestamp: int)
    requires now - timestamp >= MinuteMs
    ensures var r := FormatTime(now, timestamp);
      var unit := if r[|r| - 5] == 'm' then MinuteMs else if r[|r| - 5] == 'h' then HourMs else DayMs;
      |r| >= 6 && AllDigits(r[..|r| - 5]) &&
      var n := ParseDecimal(r[..|r| - 5]);
      1 <= n && n * unit <= now - timestamp < (n + 1) * unit
  {
    var d := now - timestamp;
    var r := FormatTime(now, timestamp);
    var unit, suffix;
    if d < HourMs {
      unit, suffix := MinuteMs, "m ago";
    } else if d < DayMs {
      unit, suffix := HourMs, "h ago";
    } else {
      unit, suffix := DayMs, "d ago";
    }
    assert r == Decimal(d / unit) + suffix;
    WholeUnits(d, unit);
    CountReadsBack(d / unit, suffix);
    assert r[|r| - 5] == suffix[0];
  }

  /** The quotient is the number of whole units in `d`. */
  lemma WholeUnits(d: int, unit: int)
    requires 0 < unit <= d
    ensures 1 <= d / unit && (d / unit) * unit <= d < (d / unit + 1) * unit
  {
    var q := d / unit;
    assert d == unit * q + d % unit;
    if q < 1 {
      assert false;
    }
  }

  /** The digits before a five-character suffix read back as the count. */
  lemma CountReadsBack(n: nat, suffix: string)
    requires |suffix| == 5
    ensures var r := Decimal(n) + suffix;
      |r| >= 6 && r[..|r| - 5] == Decimal(n) && r[|r| - 5] == suffix[0] &&
      AllDigits(r[..|r| - 5]) && ParseDecimal(r[..|r| - 5]) == n
  {
    var r := Decimal(n) + suffix;
    assert r[..|r| - 5] == Decimal(n);
    ParseDecimalOfDecimal(n);
  }

  // ----- Icons and badge -----

  /** The string form of a notification's `type`. */
  function TypeName(kind: NotificationType): string {
    match kind
    case Success => "success"
    case Info => "info"
    case Warning => "warning"
    case Error => "error"
  }

  /** `getNotificationIcon`: one icon per known type name, the info icon for anything else. */
  function NotificationIcon(kind: string): (icon: string)
    ensures kind == "success" <==> icon == "pi pi-check-circle"
    ensures kind == "error" <==> icon == "pi pi-times-circle"
    ensures kind == "warning" <==> icon == "pi pi-exclamation-triangle"
    ensures kind !in {"success", "error", "warning"} <==> icon == "pi pi-info-circle"
  {
    match kind
    case "success" => "pi pi-check-circle"
    case "error" => "pi pi-times-circle"
    case "warning" => "pi pi-exclamation-triangle"
    case _ => "pi pi-info-circle"
  }

  /** Distinct notification types are shown with distinct icons. */
  lemma IconsTellTypesApart(a: NotificationType, b: NotificationType)
    ensures NotificationIcon(TypeName(a)) == NotificationIcon(TypeName(b)) <==> a == b
  {
  }

  /** The bell's badge: the unread count when positive, empty otherwise. */
  function BadgeText(unread: int): (r: string)
    ensures r == "" <==> unread <= 0
    ensures unread > 0 ==> AllDigits(r) && ParseDecimal(r) == unread
  {
    if unread > 0 then
      ParseDecimalOfDecimal(unread);
      IntToString(unread)
    else ""
  }

  /** The badge colour class: danger while something is unread. */
  function BadgeClass(unread: int): (r: string)
    ensures r == "p-badge-danger" <==> unread > 0
    ensures r == "p-badge-secondary" <==> unread <= 0
  {
    if unread > 0 then "p-badge-danger" else "p-badge-secondary"
  }

  /** For the store's list, the badge is hidden exactly when everything is read. */
  lemma BadgeHiddenIffAllRead(list: seq<Notification>)
    ensures BadgeText(UnreadCount(list)) == "" <==> forall i :: 0 <= i < |list| ==> list[i].isRead
  {
    UnreadCountZeroIff(list);
  }

  /** The per-item "mark as read" button: shown for unread items that have an id. */
  predicate ShowsMarkRead(n: Notification) {
    !n.isRead && Truthy(n.id)
  }

  /** An item shows the button exactly when mark-all-as-read would ask the backend to confirm it. */
  lemma MarkReadButtonMatchesConfirmations(list: seq<Notification>, x: string)
    ensures x in ConfirmationIds(list) <==> exists i :: 0 <= i < |list| && ShowsMarkRead(list[i]) && list[i].id == Some(x)
  {
    ConfirmationIdsIff(list, x);
  }

  // ----- The component -----

  class Panel {
    var notifications: seq<Notification>
    var notificationCount: nat
    var unreadCount: nat
    var isConnected: bool
    var showPanel: bool

    constructor()
      ensures notifications == [] && notificationCount == 0 && unreadCount == 0
      ensures !isConnected && !showPanel
    {
      notifications := [];
      notificationCount := 0;
      unreadCount := 0;
      isConnected := false;
      showPanel := false;
    }

    /** `togglePanel`. */
    method TogglePanel()
      modifies this
      ensures showPanel == !old(showPanel)
      ensures notifications == old(notifications) && notificationCount == old(notificationCount)
      ensures unreadCount == old(unreadCount) && isConnected == old(isConnected)
    {
      showPanel := !showPanel;
    }

    /** `closePanel`. */
    method ClosePanel()
      modifies this
      ensures !showPanel
      ensures notifications == old(notifications) && notificationCount == old(notificationCount)
      ensures unreadCount == old(unreadCount) && isConnected == old(isConnected)
    {
      showPanel := false;
    }

    /** `onDocumentClick`: a click outside the component closes the panel; one inside leaves it. */
    method OnDocumentClick(insideComponent: bool)
      modifies this
      ensures showPanel == (old(showPanel) && insideComponent)
      ensures notifications == old(notifications) && notificationCount == old(notificationCount)
      ensures unreadCount == old(unreadCount) && isConnected == old(isConnected)
    {
      if !insideComponent {
        showPanel := false;
      }
    }

    /** The subscription to the store's list. */
    method OnNotifications(list: seq<Notification>)
      modifies this
      ensures notifications == list && notificationCount == |list|
      ensures unreadCount == old(unreadCount) && isConnected == old(isConnected) && showPanel == old(showPanel)
    {
      notifications := list;
      notificationCount := |list|;
    }

    /** The subscription to the unread count. */
    method OnUnreadCount(count: nat)
      modifies this
      ensures unreadCount == count
      ensures notifications == old(notifications) && notificationCount == old(notificationCount)
      ensures isConnected == old(isConnected) && showPanel == old(showPanel)
    {
      unreadCount := count;
    }

    /** The subscription to the connection status. */
    method OnConnectionStatus(status: bool)
      modifies this
      ensures isConnected == status
      ensures notifications == old(notifications) && notificationCount == old(notificationCount)
      ensures unreadCount == old(unreadCount) && showPanel == old(showPanel)
    {
      isConnected := status;
    }
  }

  /** Toggling twice restores the panel. */
  method ToggleTwiceRestores(panel: Panel)
    modifies panel
    ensures panel.showPanel == old(panel.showPanel)
  {
    panel.TogglePanel();
    panel.TogglePanel();
  }

  /** A store update, pushed through both subscriptions, leaves the badge showing the store's unread count. */
  method PublishToPanel(store: NotificationStore, panel: Panel)
    modifies panel
    ensures panel.notifications == store.notifications
    ensures panel.notificationCount == |store.notifications|
    ensures panel.unreadCount == UnreadCount(store.notifications)
    ensures BadgeText(panel.unreadCount) == "" <==> forall i :: 0 <= i < |store.notifications| ==> store.notifications[i].isRead
  {
    panel.OnNotifications(store.notifications);
    panel.OnUnreadCount(UnreadCount(store.notifications));
    BadgeHiddenIffAllRead(store.notifications);
  }
}
