/**
 * The notification store of the exam portal: one in-memory list of
 * notifications, newest first, fed by live pushes from the real-time channel
 * and by a role-selected history snapshot from the REST backend, with
 * optimistic read marking that is rolled back when the backend refuses.
 *
 * The list transforms are pure functions; `NotificationStore` holds the
 * published list and the connection-status flag and applies them.  A backend
 * confirmation is an outcome passed in (`true` = the PUT succeeded).
 */
module NotificationService {
  import opened Common

  /** The store keeps at most this many notifications (`slice(0, 50)`). */
  const MaxNotifications: nat := 50

  /** The `type` field of a notification. */
  datatype NotificationType = Success | Info | Warning | Error

  /**
   * A notification as the store holds it.  `id` is absent for live pushes;
   * `timestamp` is in milliseconds since the epoch; `kind` is the source's
   * `type` field.
   */
  datatype Notification = Notification(
    id: Option<string>,
    message: string,
    timestamp: int,
    kind: NotificationType,
    isRead: bool)

  /** A record of the history endpoints, its ISO-8601 timestamp already read as milliseconds. */
  datatype BackendNotification = BackendNotification(
    id: string,
    message: string,
    timestamp: int,
    isRead: bool)

  /** The two push events of the channel. */
  datatype Channel = ReceiveMessage | ReceiveAdminMessage

  /** Which history endpoint is asked: `/Notification/Admins` or `/Notification/Student`. */
  datatype Audience = Admins | Students

  /** What the history request delivers: an HTTP error, or a response whose `data` may be missing. */
  datatype HistoryResponse = HistoryFailed | HistoryReceived(data: Option<seq<BackendNotification>>)

  /** The error a closed connection reports; its `message` may be missing. */
  datatype CloseError = CloseError(message: Option<string>)

  /**
   * An optimistic read marking in flight: the list as it was before the
   * optimistic step, and the ids whose confirmation was requested.
   */
  datatype Pending = Pending(snapshot: seq<Notification>, confirmations: seq<string>)

  // ----- Live push -----

  /** The type a push event is given. */
  function ChannelType(channel: Channel): (kind: NotificationType)
    ensures kind == Success <==> channel == ReceiveMessage
    ensures kind == Info <==> channel == ReceiveAdminMessage
  {
    match channel
    case ReceiveMessage => Success
    case ReceiveAdminMessage => Info
  }

  /** `addNotification`: the new item, unread, goes in front and the list is cut to 50. */
  function AfterAdd(list: seq<Notification>, n: Notification): (r: seq<Notification>)
    ensures |r| == Min(|list| + 1, MaxNotifications)
    ensures r[0] == n.(isRead := false)
    ensures r[1..] == list[..|r| - 1]
  {
    var all := [n.(isRead := false)] + list;
    assert all[1..] == list;
    all[..Min(|all|, MaxNotifications)]
  }

  /** A run of pushes, oldest first. */
  function AfterAddAll(list: seq<Notification>, pushes: seq<Notification>): (r: seq<Notification>)
    ensures pushes != [] ==> |r| <= MaxNotifications
    ensures |r| <= |list| + |pushes|
    decreases |pushes|
  {
    if pushes == [] then list
    else AfterAddAll(AfterAdd(list, pushes[0]), pushes[1..])
  }

  /** The pushes as the store shows them: newest first, unread. */
  function NewestFirst(pushes: seq<Notification>): (r: seq<Notification>)
    ensures |r| == |pushes|
    ensures forall i :: 0 <= i < |r| ==> r[i] == pushes[|pushes| - 1 - i].(isRead := false)
  {
    if pushes == [] then []
    else NewestFirst(pushes[1..]) + [pushes[0].(isRead := false)]
  }

  function Take(s: seq<Notification>, n: nat): (r: seq<Notification>)
    ensures |r| == Min(|s|, n) && r == s[..|r|]
  {
    if |s| <= n then s else s[..n]
  }

  /** One push is a prepend followed by a cut to 50. */
  lemma AfterAddIsTake(list: seq<Notification>, n: Notification)
    ensures AfterAdd(list, n) == Take([n.(isRead := false)] + list, MaxNotifications)
  {
  }

  /**
   * Bounded retention and order: after any non-empty run of pushes the list
   * is the pushes, newest first, followed by the old list, cut to 50.
   */
  lemma {:induction false} AfterAddAllIsTake(list: seq<Notification>, pushes: seq<Notification>)
    requires pushes != []
    ensures AfterAddAll(list, pushes) == Take(NewestFirst(pushes) + list, MaxNotifications)
    ensures |AfterAddAll(list, pushes)| <= MaxNotifications
    decreases |pushes|
  {
    var head := pushes[0].(isRead := false);
    var once := AfterAdd(list, pushes[0]);
    AfterAddIsTake(list, pushes[0]);
    if |pushes| > 1 {
      var rest := pushes[1..];
      AfterAddAllIsTake(once, rest);
      assert NewestFirst(pushes) == NewestFirst(rest) + [head];
      TakeOfPrefixed(NewestFirst(rest), [head] + list, MaxNotifications);
      assert NewestFirst(rest) + ([head] + list) == NewestFirst(pushes) + list;
    }
  }

  /** Cutting the tail first does not change a cut that keeps at most as much. */
  lemma TakeOfPrefixed(front: seq<Notification>, back: seq<Notification>, n: nat)
    ensures Take(front + Take(back, n), n) == Take(front + back, n)
  {
    var l := Take(front + back, n);
    var r := Take(front + Take(back, n), n);
    assert |l| == |r|;
    forall i | 0 <= i < |l| ensures l[i] == r[i] {
      if i >= |front| {
        assert l[i] == back[i - |front|];
      }
    }
  }

  // ----- Clear and remove -----

  /** `r` is `list` with exactly item `k` taken out, the others in their order. */
  predicate RemovedAt(list: seq<Notification>, r: seq<Notification>, k: nat) {
    k < |list| && |r| == |list| - 1 &&
    forall j :: 0 <= j < |r| ==> r[j] == if j < k then list[j] else list[j + 1]
  }

  /** Where `splice(index, 1)` starts on a list of length `len`. */
  function SpliceStart(len: nat, index: int): (k: nat)
    ensures k <= len
  {
    if index < 0 then (if len + index < 0 then 0 else len + index)
    else if index > len then len
    else index
  }

  /**
   * `removeNotificationByIndex`: JavaScript `splice(index, 1)`.  An index
   * inside the list removes that item; a negative index counts from the end;
   * an index at or past the end removes nothing.
   */
  function AfterRemove(list: seq<Notification>, index: int): (r: seq<Notification>)
    ensures 0 <= index < |list| ==> RemovedAt(list, r, index)
    ensures -|list| <= index < 0 ==> RemovedAt(list, r, |list| + index)
    ensures index >= |list| ==> r == list
    ensures index < -|list| ==> |list| == 0 || RemovedAt(list, r, 0)
  {
    var k := SpliceStart(|list|, index);
    if k < |list| then list[..k] + list[k + 1..] else list
  }

  /** Removing an item in the list takes exactly that one item out of the bag of items. */
  lemma RemoveTakesOneOut(list: seq<Notification>, index: int)
    requires 0 <= index < |list|
    ensures multiset(AfterRemove(list, index)) + multiset{list[index]} == multiset(list)
  {
    assert list == list[..index] + [list[index]] + list[index + 1..];
  }

  // ----- Unread count -----

  /** `getUnreadCount`: the number of items with `!isRead`. */
  function UnreadCount(list: seq<Notification>): (n: nat)
    ensures n <= |list|
  {
    if list == [] then 0
    else (if list[0].isRead then 0 else 1) + UnreadCount(list[1..])
  }

  /** The count is zero exactly when every item is read. */
  lemma {:induction false} UnreadCountZeroIff(list: seq<Notification>)
    ensures UnreadCount(list) == 0 <==> forall i :: 0 <= i < |list| ==> list[i].isRead
  {
    if list != [] {
      UnreadCountZeroIff(list[1..]);
      if forall i :: 0 <= i < |list| ==> list[i].isRead {
        assert forall i :: 0 <= i < |list[1..]| ==> list[1..][i].isRead by {
          forall i | 0 <= i < |list[1..]| ensures list[1..][i].isRead {
            assert list[1..][i] == list[i + 1];
          }
        }
      }
    }
  }

  // ----- History load -----

  /**
   * `determineNotificationType`: keyword rules on the lower-cased message,
   * the first matching rule wins, `info` otherwise.
   */
  function DetermineType(message: string): (kind: NotificationType)
    ensures kind == Success <==> Contains(ToLower(message), "submitted") || Contains(ToLower(message), "completed")
    ensures kind == Warning ==> Contains(ToLower(message), "warning") || Contains(ToLower(message), "expired")
    ensures kind == Error ==> Contains(ToLower(message), "error") || Contains(ToLower(message), "failed")
  {
    var lower := ToLower(message);
    if Contains(lower, "submitted") || Contains(lower, "completed") then Success
    else if Contains(lower, "scored") || Contains(lower, "score") then Info
    else if Contains(lower, "warning") || Contains(lower, "expired") then Warning
    else if Contains(lower, "error") || Contains(lower, "failed") then Error
    else Info
  }

  /** The classifier ignores letter case. */
  lemma DetermineTypeIgnoresCase(message: string)
    ensures DetermineType(ToLower(message)) == DetermineType(message)
  {
    ToLowerIdempotent(message);
  }

  /** A message naming a submission or completion is a success, whatever else it says. */
  lemma SubmittedWins(message: string, j: nat)
    requires OccursAt(ToLower(message), "submitted", j) || OccursAt(ToLower(message), "completed", j)
    ensures DetermineType(message) == Success
  {
    if OccursAt(ToLower(message), "submitted", j) {
      ContainsAt(ToLower(message), "submitted", j);
    } else {
      ContainsAt(ToLower(message), "completed", j);
    }
  }

  /** A warning keyword without any success or score keyword gives a warning. */
  lemma WarningRule(message: string)
    requires !Contains(ToLower(message), "submitted") && !Contains(ToLower(message), "completed")
    requires !Contains(ToLower(message), "scored") && !Contains(ToLower(message), "score")
    requires Contains(ToLower(message), "warning") || Contains(ToLower(message), "expired")
    ensures DetermineType(message) == Warning
  {
  }

  /** A score keyword without any success keyword gives info. */
  lemma ScoreRule(message: string)
    requires !Contains(ToLower(message), "submitted") && !Contains(ToLower(message), "completed")
    requires Contains(ToLower(message), "scored") || Contains(ToLower(message), "score")
    ensures DetermineType(message) == Info
  {
  }

  /** An error keyword without any success, score or warning keyword gives an error. */
  lemma ErrorRule(message: string)
    requires !Contains(ToLower(message), "submitted") && !Contains(ToLower(message), "completed")
    requires !Contains(ToLower(message), "scored") && !Contains(ToLower(message), "score")
    requires !Contains(ToLower(message), "warning") && !Contains(ToLower(message), "expired")
    requires Contains(ToLower(message), "error") || Contains(ToLower(message), "failed")
    ensures DetermineType(message) == Error
  {
  }

  /** An `error` result needs one of its own keywords and none of the earlier rules' keywords. */
  lemma ErrorNeedsKeyword(message: string)
    requires DetermineType(message) == Error
    ensures exists j :: OccursAt(ToLower(message), "error", j) || OccursAt(ToLower(message), "failed", j)
    ensures !Contains(ToLower(message), "submitted") && !Contains(ToLower(message), "completed")
    ensures !Contains(ToLower(message), "scored") && !Contains(ToLower(message), "score")
    ensures !Contains(ToLower(message), "warning") && !Contains(ToLower(message), "expired")
  {
    var lower := ToLower(message);
    ContainsIff(lower, "error");
    ContainsIff(lower, "failed");
    if Contains(lower, "error") {
      var j :| OccursAt(lower, "error", j);
    } else {
      var j :| OccursAt(lower, "failed", j);
    }
  }

  /** Without the letters `s` and `c`, in either case, a message can be neither a success nor a score. */
  lemma NoSuccessOrScoreKeyword(message: string)
    requires 's' !in message && 'S' !in message && 'c' !in message && 'C' !in message
    ensures !Contains(ToLower(message), "submitted") && !Contains(ToLower(message), "completed")
    ensures !Contains(ToLower(message), "scored") && !Contains(ToLower(message), "score")
  {
    LowerAbsentRefutes(message, "submitted", 0);
    LowerAbsentRefutes(message, "completed", 0);
    LowerAbsentRefutes(message, "scored", 0);
    LowerAbsentRefutes(message, "score", 0);
  }

  /** A message with none of the eight keywords is info. */
  lemma FallbackRule(message: string)
    requires !Contains(ToLower(message), "submitted") && !Contains(ToLower(message), "completed")
    requires !Contains(ToLower(message), "scored") && !Contains(ToLower(message), "score")
    requires !Contains(ToLower(message), "warning") && !Contains(ToLower(message), "expired")
    requires !Contains(ToLower(message), "error") && !Contains(ToLower(message), "failed")
    ensures DetermineType(message) == Info
  {
  }

  /** A submission message is a success. */
  lemma SubmittedExample(m: string)
    requires m == "Your exam was submitted"
    ensures DetermineType(m) == Success
  {
    assert OccursAt(m, "submitted", 14);
    LowerKeeps(m, "submitted", 14);
    SubmittedWins(m, 14);
  }

  /** An expiry warning is a warning. */
  lemma ExpiredExample(m: string)
    requires m == "Exam expired warning"
    ensures DetermineType(m) == Warning
  {
    assert 's' !in m && 'S' !in m && 'c' !in m && 'C' !in m;
    NoSuccessOrScoreKeyword(m);
    ExpiredHits(m);
    WarningRule(m);
  }

  /** The lower-cased expiry message contains "expired" at position 5. */
  lemma ExpiredHits(m: string)
    requires m == "Exam expired warning"
    ensures Contains(ToLower(m), "expired")
  {
    assert OccursAt(m, "expired", 5);
    LowerKeeps(m, "expired", 5);
    ContainsAt(ToLower(m), "expired", 5);
  }

  /** A message without any keyword falls through to info. */
  lemma DefaultExample(m: string)
    requires m == "Unknown update"
    ensures DetermineType(m) == Info
  {
    assert 's' !in m && 'S' !in m && 'c' !in m && 'C' !in m;
    NoSuccessOrScoreKeyword(m);
    DefaultMissesLater(m);
    FallbackRule(m);
  }

  /** "Unknown update" has no `r` and no `f` in either case. */
  lemma DefaultMissesLater(m: string)
    requires m == "Unknown update"
    ensures !Contains(ToLower(m), "warning") && !Contains(ToLower(m), "expired")
    ensures !Contains(ToLower(m), "error") && !Contains(ToLower(m), "failed")
  {
    assert 'r' !in m && 'R' !in m && 'f' !in m && 'F' !in m;
    NoWarningOrErrorKeyword(m);
  }

  /** Without the letters `r` and `f`, in either case, a message has no warning or error keyword. */
  lemma NoWarningOrErrorKeyword(message: string)
    requires 'r' !in message && 'R' !in message && 'f' !in message && 'F' !in message
    ensures !Contains(ToLower(message), "warning") && !Contains(ToLower(message), "expired")
    ensures !Contains(ToLower(message), "error") && !Contains(ToLower(message), "failed")
  {
    LowerAbsentRefutes(message, "warning", 2);
    LowerAbsentRefutes(message, "expired", 4);
    LowerAbsentRefutes(message, "error", 1);
    LowerAbsentRefutes(message, "failed", 0);
  }

  /** The earlier rule wins: a message with both `warning` and `error` is a warning. */
  lemma FirstRuleWinsExample(m: string)
    requires m == "warning: error"
    ensures DetermineType(m) == Warning
  {
    assert 's' !in m && 'S' !in m && 'c' !in m && 'C' !in m;
    NoSuccessOrScoreKeyword(m);
    FirstRuleWinsHits(m);
    WarningRule(m);
  }

  /** The message contains both the warning and the error keyword. */
  lemma FirstRuleWinsHits(m: string)
    requires m == "warning: error"
    ensures Contains(ToLower(m), "warning") && Contains(ToLower(m), "error")
  {
    assert OccursAt(m, "warning", 0) && OccursAt(m, "error", 9);
    LowerKeeps(m, "warning", 0);
    LowerKeeps(m, "error", 9);
    ContainsAt(ToLower(m), "warning", 0);
    ContainsAt(ToLower(m), "error", 9);
  }

  /** One backend record as the store holds it. */
  function FromRecord(rec: BackendNotification): (n: Notification)
    ensures n.id == Some(rec.id) && n.message == rec.message && n.timestamp == rec.timestamp && n.isRead == rec.isRead
    ensures n.kind == DetermineType(n.message)
  {
    Notification(Some(rec.id), rec.message, rec.timestamp, DetermineType(rec.message), rec.isRead)
  }

  /** The mapping inside `loadNotificationsFromBackend`: same length, same order, fields copied, type classified. */
  function FromBackend(records: seq<BackendNotification>): (r: seq<Notification>)
    ensures |r| == |records|
    ensures forall i :: 0 <= i < |r| ==>
      && r[i].id == Some(records[i].id)
      && r[i].message == records[i].message
      && r[i].timestamp == records[i].timestamp
      && r[i].isRead == records[i].isRead
      && r[i].kind == DetermineType(records[i].message)
  {
    if records == [] then [] else [FromRecord(records[0])] + FromBackend(records[1..])
  }

  /** Which endpoint is asked: Admin takes precedence over Student; with neither role nothing is fetched. */
  function HistoryAudience(roles: seq<string>): (a: Option<Audience>)
    ensures a == Some(Admins) <==> "Admin" in roles
    ensures a == Some(Students) <==> "Admin" !in roles && "Student" in roles
    ensures a == None <==> "Admin" !in roles && "Student" !in roles
  {
    if "Admin" in roles then Some(Admins)
    else if "Student" in roles then Some(Students)
    else None
  }

  /** The list after a history response: a delivered `data` array replaces it, anything else leaves it. */
  function AfterHistory(list: seq<Notification>, response: HistoryResponse): (r: seq<Notification>)
    ensures response.HistoryReceived? && response.data.Some? ==> r == FromBackend(response.data.value)
    ensures !(response.HistoryReceived? && response.data.Some?) ==> r == list
  {
    match response
    case HistoryReceived(Some(records)) => FromBackend(records)
    case _ => list
  }

  /** A history load is authoritative: what the list was before does not matter. */
  lemma HistoryDiscardsPrevious(a: seq<Notification>, b: seq<Notification>, records: seq<BackendNotification>)
    ensures AfterHistory(a, HistoryReceived(Some(records))) == AfterHistory(b, HistoryReceived(Some(records)))
    ensures UnreadCount(AfterHistory(a, HistoryReceived(Some(records)))) == UnreadRecords(records)
  {
    UnreadOfFromBackend(records);
  }

  /** The number of records the backend reports unread. */
  function UnreadRecords(records: seq<BackendNotification>): nat {
    if records == [] then 0 else (if records[0].isRead then 0 else 1) + UnreadRecords(records[1..])
  }

  lemma {:induction false} UnreadOfFromBackend(records: seq<BackendNotification>)
    ensures UnreadCount(FromBackend(records)) == UnreadRecords(records)
  {
    if records != [] {
      UnreadOfFromBackend(records[1..]);
      assert FromBackend(records)[1..] == FromBackend(records[1..]);
    }
  }

  // ----- Read marking -----

  /** The optimistic step of `markAsRead(id)`: every item carrying `id` becomes read, nothing else changes. */
  function AfterMarkAsRead(list: seq<Notification>, id: string): (r: seq<Notification>)
    ensures |r| == |list|
    ensures forall i :: 0 <= i < |list| ==>
      r[i] == if list[i].id == Some(id) then list[i].(isRead := true) else list[i]
  {
    if list == [] then []
    else
      [if list[0].id == Some(id) then list[0].(isRead := true) else list[0]]
      + AfterMarkAsRead(list[1..], id)
  }

  /** An id no item carries leaves the list as it is. */
  lemma MarkAbsentIdIsNoOp(list: seq<Notification>, id: string)
    requires forall i :: 0 <= i < |list| ==> list[i].id != Some(id)
    ensures AfterMarkAsRead(list, id) == list
  {
  }

  /** Marking the same id again changes nothing more, and never raises the unread count. */
  lemma {:induction false} MarkAsReadSettles(list: seq<Notification>, id: string)
    ensures AfterMarkAsRead(AfterMarkAsRead(list, id), id) == AfterMarkAsRead(list, id)
    ensures UnreadCount(AfterMarkAsRead(list, id)) <= UnreadCount(list)
  {
    if list != [] {
      MarkAsReadSettles(list[1..], id);
      assert AfterMarkAsRead(list, id)[1..] == AfterMarkAsRead(list[1..], id);
    }
  }

  /** The optimistic step of `markAllAsRead`: every item, with or without an id, becomes read. */
  function AfterMarkAllAsRead(list: seq<Notification>): (r: seq<Notification>)
    ensures |r| == |list|
    ensures forall i :: 0 <= i < |list| ==> r[i] == list[i].(isRead := true)
  {
    if list == [] then [] else [list[0].(isRead := true)] + AfterMarkAllAsRead(list[1..])
  }

  /** Right after the optimistic `markAllAsRead` nothing is unread. */
  lemma {:induction false} MarkAllLeavesNoUnread(list: seq<Notification>)
    ensures UnreadCount(AfterMarkAllAsRead(list)) == 0
  {
    UnreadCountZeroIff(AfterMarkAllAsRead(list));
  }

  /** An item `markAllAsRead` confirms with the backend: unread, with a non-empty id. */
  predicate NeedsConfirmation(n: Notification) {
    !n.isRead && Truthy(n.id)
  }

  /** The ids `markAllAsRead` sends a confirmation for, in list order. */
  function ConfirmationIds(list: seq<Notification>): (ids: seq<string>)
    ensures |ids| <= UnreadCount(list)
    ensures forall x :: x in ids ==> x != ""
  {
    if list == [] then []
    else if NeedsConfirmation(list[0]) then [list[0].id.value] + ConfirmationIds(list[1..])
    else ConfirmationIds(list[1..])
  }

  /** An id is confirmed exactly when some unread item of the list carries it. */
  lemma {:induction false} ConfirmationIdsIff(list: seq<Notification>, x: string)
    ensures x in ConfirmationIds(list) <==>
      exists i :: 0 <= i < |list| && NeedsConfirmation(list[i]) && list[i].id == Some(x)
  {
    if list != [] {
      ConfirmationIdsIff(list[1..], x);
      if exists i :: 0 <= i < |list[1..]| && NeedsConfirmation(list[1..][i]) && list[1..][i].id == Some(x) {
        var i :| 0 <= i < |list[1..]| && NeedsConfirmation(list[1..][i]) && list[1..][i].id == Some(x);
        assert list[i + 1] == list[1..][i];
      }
      if exists i :: 0 <= i < |list| && NeedsConfirmation(list[i]) && list[i].id == Some(x) {
        var i :| 0 <= i < |list| && NeedsConfirmation(list[i]) && list[i].id == Some(x);
        if i > 0 {
          assert list[1..][i - 1] == list[i];
        }
      }
    }
  }

  /** The positions of the items `markAllAsRead` confirms. */
  function ConfirmedPositions(list: seq<Notification>): set<int> {
    set i | 0 <= i < |list| && NeedsConfirmation(list[i])
  }

  /** One confirmation per unread item with an id, duplicates included: the filter does not merge equal ids. */
  lemma {:induction false} ConfirmationCount(list: seq<Notification>)
    ensures |ConfirmationIds(list)| == |ConfirmedPositions(list)|
    decreases |list|
  {
    if list == [] {
      assert ConfirmedPositions(list) == {};
    } else {
      var n := |list| - 1;
      var front := list[..n];
      ConfirmationCount(front);
      ConfirmationIdsAppend(front, [list[n]]);
      assert front + [list[n]] == list;
      var last: set<int> := if NeedsConfirmation(list[n]) then {n} else {};
      forall k | k in ConfirmedPositions(list) ensures k in ConfirmedPositions(front) + last {
        if k < n {
          assert front[k] == list[k];
        }
      }
      forall k | k in ConfirmedPositions(front) ensures k in ConfirmedPositions(list) {
        assert front[k] == list[k];
      }
      assert ConfirmedPositions(list) == ConfirmedPositions(front) + last;
      assert n !in ConfirmedPositions(front);
    }
  }

  /** The confirmations of a list are those of its front part followed by those of its back part, so they keep list order. */
  lemma {:induction false} ConfirmationIdsAppend(front: seq<Notification>, back: seq<Notification>)
    ensures ConfirmationIds(front + back) == ConfirmationIds(front) + ConfirmationIds(back)
  {
    if front != [] {
      assert (front + back)[1..] == front[1..] + back;
      ConfirmationIdsAppend(front[1..], back);
    } else {
      assert front + back == back;
    }
  }

  /** A list with nothing unread asks for no confirmation (`Promise.all([])` succeeds at once). */
  lemma NothingUnreadNothingToConfirm(list: seq<Notification>)
    requires UnreadCount(list) == 0
    ensures ConfirmationIds(list) == []
  {
  }

  /** `Promise.all` over the confirmations succeeds only if every one of them does. */
  predicate AllConfirmed(outcomes: seq<bool>) {
    forall i :: 0 <= i < |outcomes| ==> outcomes[i]
  }

  /** The published list once every confirmation of `p` has answered. */
  function AfterSettle(current: seq<Notification>, p: Pending, outcomes: seq<bool>): (r: seq<Notification>)
    requires |outcomes| == |p.confirmations|
    ensures AllConfirmed(outcomes) ==> r == current
    ensures !AllConfirmed(outcomes) ==> r == p.snapshot
  {
    if AllConfirmed(outcomes) then current else p.snapshot
  }

  // ----- Connection -----

  /** The `onclose` test: a close error whose message includes `401` or `Unauthorized` schedules a restart. */
  predicate IsAuthFailure(error: Option<CloseError>) {
    error.Some? && error.value.message.Some? &&
    (Contains(error.value.message.value, "401") || Contains(error.value.message.value, "Unauthorized"))
  }

  /** The test is a substring test: `401` or `Unauthorized` at any position of the message counts. */
  lemma AuthFailureAnywhere(text: string, j: nat)
    requires OccursAt(text, "401", j) || OccursAt(text, "Unauthorized", j)
    ensures IsAuthFailure(Some(CloseError(Some(text))))
  {
    if OccursAt(text, "401", j) {
      ContainsAt(text, "401", j);
    } else {
      ContainsAt(text, "Unauthorized", j);
    }
  }

  /** The delay before that restart, in milliseconds. */
  const AuthRetryDelayMs: nat := 5000

  /** The match is on the text as written: `401` anywhere counts, a lower-case `unauthorized` does not. */
  lemma AuthFailureExamples()
    ensures IsAuthFailure(Some(CloseError(Some("Error: 401"))))
    ensures IsAuthFailure(Some(CloseError(Some("Unauthorized"))))
    ensures !IsAuthFailure(Some(CloseError(Some("unauthorized"))))
    ensures !IsAuthFailure(Some(CloseError(None)))
    ensures !IsAuthFailure(None)
  {
    ContainsAt("Error: 401", "401", 7);
    ContainsAt("Unauthorized", "Unauthorized", 0);
    AbsentCharRefutes("unauthorized", "401", 0);
    AbsentCharRefutes("unauthorized", "Unauthorized", 0);
  }

  /**
   * The notification service: the published list (`notificationsSubject`'s
   * value) and the connection-status flag (`connectionStatusSubject`'s value).
   * `hasConnection` says whether a hub connection object has been built.
   */
  class NotificationStore {
    var notifications: seq<Notification>
    var connected: bool
    var hasConnection: bool

    constructor()
      ensures notifications == [] && !connected && !hasConnection
    {
      notifications := [];
      connected := false;
      hasConnection := false;
    }

    /** `addNotification`. */
    method AddNotification(n: Notification)
      modifies this`notifications
      ensures notifications == AfterAdd(old(notifications), n)
    {
      var all := [n.(isRead := false)] + notifications;
      notifications := all[..Min(|all|, MaxNotifications)];
    }

    /** The `ReceiveMessage` / `ReceiveAdminMessage` handlers: an id-less notification stamped `now`. */
    method OnPush(channel: Channel, message: string, now: int)
      modifies this`notifications
      ensures notifications == AfterAdd(old(notifications), Notification(None, message, now, ChannelType(channel), false))
    {
      AddNotification(Notification(None, message, now, ChannelType(channel), false));
    }

    /** `addSuccessNotification`, `addInfoNotification`, `addWarningNotification`, `addErrorNotification`. */
    method AddTypedNotification(kind: NotificationType, message: string, now: int)
      modifies this`notifications
      ensures notifications == AfterAdd(old(notifications), Notification(None, message, now, kind, false))
    {
      AddNotification(Notification(None, message, now, kind, false));
    }

    /** `clearNotifications`. */
    method ClearNotifications()
      modifies this`notifications
      ensures notifications == []
    {
      notifications := [];
    }

    /** `removeNotificationByIndex`. */
    method RemoveNotificationByIndex(index: int)
      modifies this`notifications
      ensures notifications == AfterRemove(old(notifications), index)
    {
      var k := SpliceStart(|notifications|, index);
      if k < |notifications| {
        notifications := notifications[..k] + notifications[k + 1..];
      }
    }

    /**
     * `loadNotificationsFromBackend`: asks the endpoint the roles select and
     * applies its response; with neither role no request is made.
     */
    method LoadNotificationsFromBackend(roles: seq<string>, response: HistoryResponse)
      returns (request: Option<Audience>)
      modifies this`notifications
      ensures request == HistoryAudience(roles)
      ensures request == None ==> notifications == old(notifications)
      ensures request != None ==> notifications == AfterHistory(old(notifications), response)
    {
      request := HistoryAudience(roles);
      if request == None {
        return;
      }
      match response
      case HistoryReceived(Some(records)) =>
        notifications := FromBackend(records);
      case _ =>
    }

    /** The synchronous part of `markAsRead(id)`: snapshot, optimistic update, one confirmation requested. */
    method BeginMarkAsRead(id: string) returns (p: Pending)
      modifies this`notifications
      ensures p == Pending(old(notifications), [id])
      ensures notifications == AfterMarkAsRead(old(notifications), id)
    {
      p := Pending(notifications, [id]);
      notifications := AfterMarkAsRead(notifications, id);
    }

    /** The synchronous part of `markAllAsRead`: snapshot, everything read, confirmations for the unread items with ids. */
    method BeginMarkAllAsRead() returns (p: Pending)
      modifies this`notifications
      ensures p == Pending(old(notifications), ConfirmationIds(old(notifications)))
      ensures notifications == AfterMarkAllAsRead(old(notifications))
    {
      p := Pending(notifications, ConfirmationIds(notifications));
      notifications := AfterMarkAllAsRead(notifications);
    }

    /**
     * The answers to the confirmations of `p`: all successful leaves the
     * list as it now is; any failure publishes the snapshot again, whatever
     * happened to the list in between.
     */
    method Settle(p: Pending, outcomes: seq<bool>)
      requires |outcomes| == |p.confirmations|
      modifies this`notifications
      ensures notifications == AfterSettle(old(notifications), p, outcomes)
    {
      if !AllConfirmed(outcomes) {
        notifications := p.snapshot;
      }
    }

    /** `markAsRead(id)` with its confirmation answered before anything else happens. */
    method MarkAsRead(id: string, confirmed: bool)
      modifies this`notifications
      ensures confirmed ==> notifications == AfterMarkAsRead(old(notifications), id)
      ensures !confirmed ==> notifications == old(notifications)
    {
      var p := BeginMarkAsRead(id);
      assert [confirmed][0] == confirmed;
      Settle(p, [confirmed]);
    }

    /** `markAllAsRead()` with its confirmations answered before anything else happens. */
    method MarkAllAsRead(outcomes: seq<bool>)
      requires |outcomes| == |ConfirmationIds(notifications)|
      modifies this`notifications
      ensures AllConfirmed(outcomes) ==> notifications == AfterMarkAllAsRead(old(notifications))
      ensures AllConfirmed(outcomes) ==> UnreadCount(notifications) == 0
      ensures !AllConfirmed(outcomes) ==> notifications == old(notifications)
    {
      var p := BeginMarkAllAsRead();
      Settle(p, outcomes);
      MarkAllLeavesNoUnread(old(notifications));
    }

    /** `startConnection`: without a token nothing happens; otherwise a connection is built and its start reported. */
    method StartConnection(token: Option<string>, started: bool)
      modifies this`connected, this`hasConnection
      ensures !Truthy(token) ==> connected == old(connected) && hasConnection == old(hasConnection)
      ensures Truthy(token) ==> hasConnection && connected == started
    {
      if !Truthy(token) {
        return;
      }
      hasConnection := true;
      connected := started;
    }

    /** The `onreconnecting` handler. */
    method OnReconnecting()
      modifies this`connected
      ensures !connected
    {
      connected := false;
    }

    /** The `onreconnected` handler. */
    method OnReconnected()
      modifies this`connected
      ensures connected
    {
      connected := true;
    }

    /** The `onclose` handler: disconnected, and a delayed restart exactly on an authentication failure. */
    method OnClose(error: Option<CloseError>) returns (retryAfterMs: Option<nat>)
      modifies this`connected
      ensures !connected
      ensures retryAfterMs == if IsAuthFailure(error) then Some(AuthRetryDelayMs) else None
    {
      retryAfterMs := if IsAuthFailure(error) then Some(AuthRetryDelayMs) else None;
      connected := false;
    }

    /** `stopConnection`: with a connection whose stop succeeds the flag drops; otherwise nothing changes. */
    method StopConnection(stopped: bool)
      modifies this`connected
      ensures hasConnection && stopped ==> !connected
      ensures !(hasConnection && stopped) ==> connected == old(connected)
    {
      if hasConnection && stopped {
        connected := false;
      }
    }
  }

  /**
   * The rollback publishes the whole snapshot: a push that arrives while a
   * read confirmation is in flight is lost when that confirmation fails.
   */
  method RollbackDropsInterleavedPush(store: NotificationStore, id: string, message: string, now: int)
    modifies store
    ensures store.notifications == old(store.notifications)
  {
    var p := store.BeginMarkAsRead(id);
    store.OnPush(ReceiveMessage, message, now);
    assert [false][0] == false;
    store.Settle(p, [false]);
  }

  /** The scenario of a live push followed by a history load: the load discards the push. */
  method PushThenHistory(store: NotificationStore, now: int)
    modifies store
    ensures |store.notifications| == 1 && store.notifications[0].id == Some("a")
    ensures UnreadCount(store.notifications) == 0
  {
    store.ClearNotifications();
    store.OnPush(ReceiveMessage, "Exam submitted", now);
    assert store.notifications[0].kind == Success && UnreadCount(store.notifications) == 1;
    var request := store.LoadNotificationsFromBackend(["Student"],
      HistoryReceived(Some([BackendNotification("a", "x", 1704067200000, true)])));
    assert store.notifications == FromBackend([BackendNotification("a", "x", 1704067200000, true)]);
  }
}
