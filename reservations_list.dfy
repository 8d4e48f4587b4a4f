/** The reservation list (src/components/rooms/ReservationsList.js): the filter, sort and limit
    pipeline, the pending-conflict flag, the approve and reject handlers and what the list shows. */
module ReservationsList {
  import opened Wrappers
  import opened Seqs
  import opened Rooms
  import opened Tasks

  datatype SortField = SortByDate | SortByRoom | SortByStatus

  /** The list's props (`userId`, `roomId`, `limit`) and its controls; `status` absent is 'all'
      and `ascending` false is any order other than 'asc'. */
  datatype ListOptions = ListOptions(
    userId: Option<int>, roomId: Option<int>, status: Option<Status>,
    sortBy: SortField, ascending: bool, limit: Option<nat>)

  /** A numeric prop takes part only when truthy: present and not 0. */
  predicate Truthy(x: Option<int>) { x.Some? && x.value != 0 }

  predicate LimitActive(limit: Option<nat>) { limit.Some? && limit.value != 0 }

  /** The value the comparator subtracts. Statuses are strings, whose difference is NaN, which
      the sort reads as "equal"; one key for all has that effect. */
  function SortKey(field: SortField): Reservation -> int
  {
    match field
    case SortByDate => (r: Reservation) => r.startTime
    case SortByRoom => (r: Reservation) => r.roomId
    case SortByStatus => (r: Reservation) => 0
  }

  function UserPart(o: ListOptions): Reservation -> bool
  {
    (r: Reservation) => Truthy(o.userId) ==> r.userId == o.userId.value
  }

  function UserRoomPart(o: ListOptions): Reservation -> bool
  {
    (r: Reservation) => (Truthy(o.userId) ==> r.userId == o.userId.value) &&
                        (Truthy(o.roomId) ==> r.roomId == o.roomId.value)
  }

  /** A reservation passes every active filter. */
  predicate Selected(o: ListOptions, r: Reservation)
  {
    (Truthy(o.userId) ==> r.userId == o.userId.value) &&
    (Truthy(o.roomId) ==> r.roomId == o.roomId.value) &&
    (o.status.Some? ==> r.status == o.status.value)
  }

  function SelectedBy(o: ListOptions): Reservation -> bool { (r: Reservation) => Selected(o, r) }

  function StatusIs(st: Status): Reservation -> bool { (r: Reservation) => r.status == st }

  /** The sorted, filtered list before the limit. */
  function SortedSelection(all: seq<Reservation>, o: ListOptions): seq<Reservation>
  {
    SortByKey(Filter(all, SelectedBy(o)), SortKey(o.sortBy), !o.ascending)
  }

  /** The reference list: one filter with every active test, the stable sort, the limit. */
  function ListSpec(all: seq<Reservation>, o: ListOptions): seq<Reservation>
  {
    var sorted := SortedSelection(all, o);
    if LimitActive(o.limit) && |sorted| > o.limit.value then sorted[..o.limit.value] else sorted
  }

  /** The pipeline as the component runs it: successive filters on a copy, then sort, then cut. */
  method VisibleReservations(all: seq<Reservation>, o: ListOptions) returns (result: seq<Reservation>)
    ensures result == ListSpec(all, o)
  {
    var filtered := all;
    if Truthy(o.userId) {
      FilterCongruent(all, OfUser(o.userId.value), UserPart(o));
      filtered := Filter(filtered, OfUser(o.userId.value));
    } else {
      FilterAll(all, UserPart(o));
    }
    assert filtered == Filter(all, UserPart(o));
    if Truthy(o.roomId) {
      FilterFuse(all, UserPart(o), InRoom(o.roomId.value), UserRoomPart(o));
      filtered := Filter(filtered, InRoom(o.roomId.value));
    } else {
      FilterCongruent(all, UserPart(o), UserRoomPart(o));
    }
    assert filtered == Filter(all, UserRoomPart(o));
    if o.status.Some? {
      FilterFuse(all, UserRoomPart(o), StatusIs(o.status.value), SelectedBy(o));
      filtered := Filter(filtered, StatusIs(o.status.value));
    } else {
      FilterCongruent(all, UserRoomPart(o), SelectedBy(o));
    }
    assert filtered == Filter(all, SelectedBy(o));
    filtered := SortByKey(filtered, SortKey(o.sortBy), !o.ascending);
    if LimitActive(o.limit) && |filtered| > o.limit.value {
      filtered := filtered[..o.limit.value];
    }
    result := filtered;
  }

  /** The sort rearranges the selection into key order. */
  lemma SortedSelectionFacts(all: seq<Reservation>, o: ListOptions)
    ensures multiset(SortedSelection(all, o)) == multiset(Filter(all, SelectedBy(o)))
    ensures |SortedSelection(all, o)| == |Filter(all, SelectedBy(o))|
    ensures SortedByKey(SortedSelection(all, o), SortKey(o.sortBy), !o.ascending)
  {
    var f := Filter(all, SelectedBy(o));
    SortByKeyCorrect(f, SortKey(o.sortBy), !o.ascending);
    assert |multiset(SortedSelection(all, o))| == |multiset(f)|;
  }

  /** The shown list is a prefix of the sorted selection, cut at the limit when one is set. */
  lemma ListSpecIsPrefix(all: seq<Reservation>, o: ListOptions)
    ensures var r := ListSpec(all, o);
      var sorted := SortedSelection(all, o);
      r == sorted[..|r|] &&
      (LimitActive(o.limit) ==> |r| <= o.limit.value) &&
      ((!LimitActive(o.limit) || |sorted| <= o.limit.value) ==> r == sorted) &&
      multiset(r) <= multiset(sorted)
  {
    var r := ListSpec(all, o);
    var sorted := SortedSelection(all, o);
    assert sorted == r + sorted[|r|..];
    assert multiset(sorted) == multiset(r) + multiset(sorted[|r|..]);
  }

  /** What the list promises: only selected reservations, in key order, at most `limit` of them,
      all of them when there is no cut, and the filtered order itself under the status sort. */
  lemma ListSpecProperties(all: seq<Reservation>, o: ListOptions)
    ensures var r := ListSpec(all, o);
      (forall x :: x in r ==> x in all && Selected(o, x)) &&
      multiset(r) <= multiset(Filter(all, SelectedBy(o))) &&
      SortedByKey(r, SortKey(o.sortBy), !o.ascending) &&
      (LimitActive(o.limit) ==> |r| <= o.limit.value) &&
      ((!LimitActive(o.limit) || |Filter(all, SelectedBy(o))| <= o.limit.value) ==>
        multiset(r) == multiset(Filter(all, SelectedBy(o)))) &&
      (o.sortBy == SortByStatus ==> r == Filter(all, SelectedBy(o))[..|r|])
  {
    var f := Filter(all, SelectedBy(o));
    var r := ListSpec(all, o);
    SortedSelectionFacts(all, o);
    ListSpecIsPrefix(all, o);
    forall x | x in r ensures x in all && Selected(o, x) {
      assert x in multiset(r);
      assert x in multiset(f);
    }
    if o.sortBy == SortByStatus {
      SortByConstantKey(f, SortKey(SortByStatus), 0, !o.ascending);
    }
  }

  /** "View all" appears exactly when a limit is set and the selection reaches it. */
  function ShowsViewAll(shown: seq<Reservation>, limit: Option<nat>): bool
  {
    LimitActive(limit) && |shown| >= limit.value
  }

  /** The empty-state panel: nothing to show and no limit. */
  function ShowsEmptyState(shown: seq<Reservation>, limit: Option<nat>): bool
  {
    |shown| == 0 && !LimitActive(limit)
  }

  lemma ListFooters(all: seq<Reservation>, o: ListOptions)
    ensures ShowsViewAll(ListSpec(all, o), o.limit) <==>
      LimitActive(o.limit) && |Filter(all, SelectedBy(o))| >= o.limit.value
    ensures ShowsEmptyState(ListSpec(all, o), o.limit) <==>
      !LimitActive(o.limit) && forall x :: x in all ==> !Selected(o, x)
  {
    var f := Filter(all, SelectedBy(o));
    SortedSelectionFacts(all, o);
    if forall x :: x in all ==> !Selected(o, x) {
      FilterNone(all, SelectedBy(o));
    } else {
      var x :| x in all && Selected(o, x);
      assert x in f;
    }
  }

  // ---------------------------------------------------------------------------
  // The pending-conflict flag

  function ConfirmedInRoomOf(r: Reservation): Reservation -> bool
  {
    (x: Reservation) => x.roomId == r.roomId && x.status == Confirmed
  }

  function OverlapsReservation(r: Reservation): Reservation -> bool
  {
    (x: Reservation) => Overlaps(r.startTime, r.endTime, x.startTime, x.endTime)
  }

  /** `hasConflict`: only a pending reservation is flagged, when a confirmed one of its room overlaps. */
  predicate HasConflictFlag(all: seq<Reservation>, r: Reservation)
    ensures HasConflictFlag(all, r) <==>
      r.status == Pending &&
      exists j :: 0 <= j < |all| && all[j].roomId == r.roomId && all[j].status == Confirmed &&
        Overlaps(r.startTime, r.endTime, all[j].startTime, all[j].endTime)
  {
    if r.status != Pending then false
    else
      var rivals := Filter(all, ConfirmedInRoomOf(r));
      assert forall x :: x in rivals && OverlapsReservation(r)(x) <==>
        x in all && x.roomId == r.roomId && x.status == Confirmed &&
        Overlaps(r.startTime, r.endTime, x.startTime, x.endTime);
      Any(rivals, OverlapsReservation(r))
  }

  /** For a pending reservation of the table the flag is the slice's conflict test: the flag does
      not skip the reservation's own id, but a pending reservation cannot block itself. */
  lemma ConflictFlagAgreesWithSlice(all: seq<Reservation>, m: int)
    requires UniqueBy(all, ReservationKey) && PositiveIds(all)
    requires 0 <= m < |all| && all[m].status == Pending
    ensures HasConflictFlag(all, all[m]) <==> HasBookingConflict(all, BookingOf(all[m]))
  {
    var r := all[m];
    assert r.id > 0;
    if HasConflictFlag(all, r) {
      var j :| 0 <= j < |all| && all[j].roomId == r.roomId && all[j].status == Confirmed &&
        Overlaps(r.startTime, r.endTime, all[j].startTime, all[j].endTime);
      assert j < m ==> ReservationKey(all[j]) != ReservationKey(all[m]);
      assert j > m ==> ReservationKey(all[m]) != ReservationKey(all[j]);
      assert Blocks(all[j], BookingOf(r));
    }
  }

  /** The flag on a pending row foretells the approval: approving it fails with a conflict
      exactly when the row is flagged. */
  lemma ConflictFlagPredictsApproval(all: seq<Reservation>, m: int)
    requires UniqueBy(all, ReservationKey) && PositiveIds(all)
    requires 0 <= m < |all| && all[m].status == Pending
    ensures HasConflictFlag(all, all[m]) <==> ApproveDecision(all, all[m].id) == Failure(Conflict)
  {
    var k := FirstIndex(all, HasId(all[m].id));
    assert k != -1 by { assert HasId(all[m].id)(all[m]); }
    assert k <= m;
    assert k < m ==> ReservationKey(all[k]) != ReservationKey(all[m]);
    ConflictFlagAgreesWithSlice(all, m);
  }

  /** Approve and Reject are shown to an admin on a pending row only. */
  function ShowsReviewControls(isAdmin: bool, r: Reservation): (shown: bool)
    ensures shown <==> isAdmin && r.status == Pending
  {
    isAdmin && r.status == Pending
  }

  // ---------------------------------------------------------------------------
  // Handlers

  /** `getRoomInfo`: the room's name, or 'Unknown Room' when it is missing or empty. */
  function RoomInfo(rooms: seq<Room>, roomId: int): (name: string)
    ensures name != ""
    ensures RoomById(rooms, roomId).None? ==> name == "Unknown Room"
  {
    match RoomById(rooms, roomId)
    case Some(room) => if room.name != "" then room.name else "Unknown Room"
    case None => "Unknown Room"
  }

  function ApprovedNotice(r: Reservation, rooms: seq<Room>): NotificationPayload
  {
    NotificationPayload(Some(r.userId), "Reservation Approved",
      "Your reservation for \"" + RoomInfo(rooms, r.roomId) + "\" has been approved.", "reservation", Some(r.id))
  }

  function RejectedNotice(r: Reservation, rooms: seq<Room>): NotificationPayload
  {
    NotificationPayload(Some(r.userId), "Reservation Rejected",
      "Your reservation for \"" + RoomInfo(rooms, r.roomId) + "\" has been rejected.", "reservation", Some(r.id))
  }

  /** `handleApprove` on a row: notify the owner only when `unwrapResult` does not throw. */
  method HandleApprove(rooms: RoomsStore, tasks: TasksStore, r: Reservation, notificationId: int, now: int)
    returns (outcome: Result<int, ApproveError>)
    modifies rooms, tasks
    ensures outcome == ApproveDecision(old(rooms.reservations), r.id)
    ensures outcome.Success? ==>
      rooms.reservations == UpdateFirst(old(rooms.reservations), HasId(r.id), WithStatus(Confirmed)) &&
      tasks.notifications == old(tasks.notifications) + [NewNotification(ApprovedNotice(r, old(rooms.rooms)), notificationId, now)]
    ensures outcome.Failure? ==>
      rooms.reservations == old(rooms.reservations) && tasks.notifications == old(tasks.notifications)
    ensures outcome.Success? ==> rooms.error == None
    ensures outcome.Failure? ==> rooms.error == Some(ApproveErrorMessage(outcome.error))
    ensures !rooms.loading && rooms.filters == old(rooms.filters)
    ensures rooms.rooms == old(rooms.rooms) && tasks.tasks == old(tasks.tasks)
    ensures tasks.loading == old(tasks.loading) && tasks.error == old(tasks.error) && tasks.filters == old(tasks.filters)
    ensures old(rooms.Valid() && NoDoubleBooking(rooms.reservations)) ==> NoDoubleBooking(rooms.reservations)
    ensures old(ProperIntervals(rooms.reservations) && ProperSpanOf(rooms.reservations, r.id)) ==>
      ProperIntervals(rooms.reservations)
  {
    var notice := ApprovedNotice(r, rooms.rooms);
    outcome := rooms.ApproveReservation(r.id);
    if outcome.Success? {
      tasks.AddNotification(notice, notificationId, now);
    }
  }

  /** `handleReject` on a row: reject and always notify the owner. */
  method HandleReject(rooms: RoomsStore, tasks: TasksStore, r: Reservation, notificationId: int, now: int)
    modifies rooms, tasks
    ensures rooms.reservations == UpdateFirst(old(rooms.reservations), HasId(r.id), WithStatus(Rejected))
    ensures tasks.notifications == old(tasks.notifications) + [NewNotification(RejectedNotice(r, old(rooms.rooms)), notificationId, now)]
    ensures rooms.rooms == old(rooms.rooms) && tasks.tasks == old(tasks.tasks)
    ensures rooms.loading == old(rooms.loading) && rooms.error == old(rooms.error) && rooms.filters == old(rooms.filters)
    ensures tasks.loading == old(tasks.loading) && tasks.error == old(tasks.error) && tasks.filters == old(tasks.filters)
    ensures old(NoDoubleBooking(rooms.reservations)) ==> NoDoubleBooking(rooms.reservations)
  {
    var notice := RejectedNotice(r, rooms.rooms);
    rooms.RejectReservation(r.id);
    tasks.AddNotification(notice, notificationId, now);
  }
}
