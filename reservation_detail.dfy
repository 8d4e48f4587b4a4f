/** The reservation detail screen (src/components/rooms/ReservationDetail.js): extending a booking,
    the approve, reject and cancel handlers with the notifications they send, the duration text
    and the actions the screen offers. The screen is only shown for a reservation that exists. */
module ReservationDetail {
  import opened Wrappers
  import opened Seqs
  import opened Text
  import opened Rooms
  import opened Tasks

  const MsPerHour := 3600000
  const MsPerMinute := 60000

  // ---------------------------------------------------------------------------
  // Extending a reservation

  datatype ExtendOutcome = InvalidHours | WindowTaken | Extended(newEnd: int)

  /** The added window `[oldEnd, newEnd)`, checked under the reservation's own id. */
  function ExtensionWindow(r: Reservation, newEnd: int): Booking
  {
    Booking(Some(r.id), r.roomId, r.endTime, newEnd)
  }

  /** `handleExtend` on the reservation `r`: `hours` is the parsed answer to the prompt, absent
      when it is not a number. */
  function ExtendDecision(rs: seq<Reservation>, r: Reservation, hours: Option<int>): (o: ExtendOutcome)
    ensures o == InvalidHours <==> hours.None? || hours.value <= 0
    ensures o == WindowTaken <==>
      hours.Some? && hours.value > 0 &&
      exists j :: 0 <= j < |rs| && Blocks(rs[j], ExtensionWindow(r, r.endTime + hours.value * MsPerHour))
    ensures o.Extended? ==> hours.Some? && o.newEnd == r.endTime + hours.value * MsPerHour && o.newEnd > r.endTime
  {
    if hours.None? || hours.value <= 0 then InvalidHours
    else
      var newEnd := r.endTime + hours.value * MsPerHour;
      if HasBookingConflict(rs, ExtensionWindow(r, newEnd)) then WindowTaken else Extended(newEnd)
  }

  /** Moving the end forward keeps every confirmed span non-empty. */
  lemma ExtendKeepsProperIntervals(rs: seq<Reservation>, k: int, newEnd: int)
    requires ProperIntervals(rs) && 0 <= k < |rs| && newEnd > rs[k].endTime
    ensures ProperIntervals(rs[k := rs[k].(endTime := newEnd)])
  {
  }

  /** The window rule misses a double booking once an empty span is confirmed. A confirmed
      booking covers the first hour. A forced submission, which skips the form's checks, adds an
      empty pending span at its end. The approval finds no overlap and confirms it. Extending the
      first booking by an hour then passes the window test and yields two overlapping confirmed
      bookings. */
  lemma ForcedEmptySpanDefeatsExtendCheck()
    ensures var rs0 := [Reservation(1, 1, 1, "", 0, MsPerHour, 1, "", None, Confirmed, 0)];
      var rs1 := rs0 + [NewReservation(rs0, ReservationDraft(1, 2, "", MsPerHour, MsPerHour, 1, "", None), 0)];
      var rs2 := UpdateFirst(rs1, HasId(2), WithStatus(Confirmed));
      var rs3 := UpdateFirst(rs2, HasId(1), MergeReservation(EndTimePatch(1, 2 * MsPerHour)));
      NoDoubleBooking(rs1) && ApproveDecision(rs1, 2) == Success(2) && NoDoubleBooking(rs2) &&
      ExtendDecision(rs2, rs2[0], Some(1)) == Extended(2 * MsPerHour) && !NoDoubleBooking(rs3)
  {
    var rs0 := [Reservation(1, 1, 1, "", 0, MsPerHour, 1, "", None, Confirmed, 0)];
    var x := NewReservation(rs0, ReservationDraft(1, 2, "", MsPerHour, MsPerHour, 1, "", None), 0);
    assert x == Reservation(2, 1, 2, "", MsPerHour, MsPerHour, 1, "", None, Pending, 0);
    var rs1 := rs0 + [x];
    assert FirstIndex(rs1, HasId(2)) == 1;
    assert !Blocks(rs1[0], BookingOf(rs1[1]));
    var rs2 := UpdateFirst(rs1, HasId(2), WithStatus(Confirmed));
    assert rs2 == [rs1[0], x.(status := Confirmed)];
    assert !Clash(rs2[0], rs2[1]) && !Clash(rs2[1], rs2[0]);
    assert !Blocks(rs2[1], ExtensionWindow(rs2[0], 2 * MsPerHour));
    assert !Blocks(rs2[0], ExtensionWindow(rs2[0], 2 * MsPerHour));
    var rs3 := UpdateFirst(rs2, HasId(1), MergeReservation(EndTimePatch(1, 2 * MsPerHour)));
    EndTimePatchOnlyEnd(rs2[0], 2 * MsPerHour);
    assert rs3 == [rs2[0].(endTime := 2 * MsPerHour), rs2[1]];
    assert Clash(rs3[0], rs3[1]);
  }

  /** An accepted extension of the reservation the screen shows keeps the table free of double
      bookings and of empty confirmed spans. */
  lemma ExtensionKeepsInvariant(rs: seq<Reservation>, id: int, hours: Option<int>)
    requires UniqueBy(rs, ReservationKey) && PositiveIds(rs) && NoDoubleBooking(rs) && ProperIntervals(rs)
    requires ReservationById(rs, id).Some?
    requires ExtendDecision(rs, ReservationById(rs, id).value, hours).Extended?
    ensures var newEnd := ExtendDecision(rs, ReservationById(rs, id).value, hours).newEnd;
      var after := UpdateFirst(rs, HasId(id), MergeReservation(EndTimePatch(id, newEnd)));
      NoDoubleBooking(after) && ProperIntervals(after)
  {
    var k := FirstIndex(rs, HasId(id));
    var r := rs[k];
    var newEnd := ExtendDecision(rs, r, hours).newEnd;
    EndTimePatchOnlyEnd(r, newEnd);
    assert UpdateFirst(rs, HasId(id), MergeReservation(EndTimePatch(id, newEnd))) == rs[k := r.(endTime := newEnd)];
    ExtendKeepsNoDoubleBooking(rs, k, newEnd);
    ExtendKeepsProperIntervals(rs, k, newEnd);
  }

  /** `handleExtend`: refuse a bad number of hours, refuse a taken window, else patch the end time. */
  method HandleExtend(store: RoomsStore, id: int, hours: Option<int>) returns (outcome: ExtendOutcome)
    requires ReservationById(store.reservations, id).Some?
    modifies store
    ensures outcome == ExtendDecision(old(store.reservations), ReservationById(old(store.reservations), id).value, hours)
    ensures outcome.Extended? ==>
      store.reservations == UpdateFirst(old(store.reservations), HasId(id), MergeReservation(EndTimePatch(id, outcome.newEnd)))
    ensures !outcome.Extended? ==> store.reservations == old(store.reservations)
    ensures store.rooms == old(store.rooms) && store.loading == old(store.loading)
    ensures store.error == old(store.error) && store.filters == old(store.filters)
    ensures old(store.Valid()) ==> store.Valid()
    ensures old(store.Valid() && NoDoubleBooking(store.reservations) && ProperIntervals(store.reservations)) ==>
      NoDoubleBooking(store.reservations) && ProperIntervals(store.reservations)
  {
    var reservation := ReservationById(store.reservations, id).value;
    if hours.None? || hours.value <= 0 {
      return InvalidHours;
    }
    var newEnd := reservation.endTime + hours.value * MsPerHour;
    if HasBookingConflict(store.reservations, ExtensionWindow(reservation, newEnd)) {
      return WindowTaken;
    }
    if store.Valid() && NoDoubleBooking(store.reservations) && ProperIntervals(store.reservations) {
      ExtensionKeepsInvariant(store.reservations, id, hours);
    }
    store.UpdateReservation(EndTimePatch(reservation.id, newEnd));
    outcome := Extended(newEnd);
  }

  // ---------------------------------------------------------------------------
  // Approve, reject and cancel

  /** `room?.name || ''`. */
  function RoomName(room: Option<Room>): string
  {
    match room
    case Some(r) => r.name
    case None => ""
  }

  function ApprovedNotice(r: Reservation, room: Option<Room>): NotificationPayload
  {
    NotificationPayload(Some(r.userId), "Reservasi Disetujui",
      "Reservasi Anda untuk ruangan \"" + RoomName(room) + "\" telah disetujui.", "reservation", Some(r.id))
  }

  function RejectedNotice(r: Reservation, room: Option<Room>): NotificationPayload
  {
    NotificationPayload(Some(r.userId), "Reservasi Ditolak",
      "Reservasi Anda untuk ruangan \"" + RoomName(room) + "\" telah ditolak.", "reservation", Some(r.id))
  }

  /** `handleApprove`: run the approval; only when it is fulfilled notify the owner.
      `notificationId` and `now` stand for the clock readings of `addNotification`. */
  method HandleApprove(rooms: RoomsStore, tasks: TasksStore, id: int, notificationId: int, now: int)
    returns (outcome: Result<int, ApproveError>)
    requires ReservationById(rooms.reservations, id).Some?
    modifies rooms, tasks
    ensures outcome == ApproveDecision(old(rooms.reservations), id)
    ensures outcome.Success? ==>
      rooms.reservations == UpdateFirst(old(rooms.reservations), HasId(id), WithStatus(Confirmed)) &&
      var r := ReservationById(old(rooms.reservations), id).value;
      tasks.notifications == old(tasks.notifications) +
        [NewNotification(ApprovedNotice(r, RoomById(old(rooms.rooms), r.roomId)), notificationId, now)]
    ensures outcome.Failure? ==>
      rooms.reservations == old(rooms.reservations) && tasks.notifications == old(tasks.notifications)
    ensures outcome.Success? ==> rooms.error == None
    ensures outcome.Failure? ==> rooms.error == Some(ApproveErrorMessage(outcome.error))
    ensures !rooms.loading && rooms.filters == old(rooms.filters)
    ensures rooms.rooms == old(rooms.rooms) && tasks.tasks == old(tasks.tasks)
    ensures tasks.loading == old(tasks.loading) && tasks.error == old(tasks.error) && tasks.filters == old(tasks.filters)
    ensures old(rooms.Valid() && NoDoubleBooking(rooms.reservations)) ==> NoDoubleBooking(rooms.reservations)
    ensures old(ProperIntervals(rooms.reservations) && ProperSpanOf(rooms.reservations, id)) ==>
      ProperIntervals(rooms.reservations)
  {
    var reservation := ReservationById(rooms.reservations, id).value;
    var room := RoomById(rooms.rooms, reservation.roomId);
    outcome := rooms.ApproveReservation(id);
    if outcome.Success? {
      tasks.AddNotification(ApprovedNotice(reservation, room), notificationId, now);
    }
  }

  /** `handleReject`: reject and always notify the owner. */
  method HandleReject(rooms: RoomsStore, tasks: TasksStore, id: int, notificationId: int, now: int)
    requires ReservationById(rooms.reservations, id).Some?
    modifies rooms, tasks
    ensures rooms.reservations == UpdateFirst(old(rooms.reservations), HasId(id), WithStatus(Rejected))
    ensures var r := ReservationById(old(rooms.reservations), id).value;
      tasks.notifications == old(tasks.notifications) +
        [NewNotification(RejectedNotice(r, RoomById(old(rooms.rooms), r.roomId)), notificationId, now)]
    ensures rooms.rooms == old(rooms.rooms) && tasks.tasks == old(tasks.tasks)
    ensures rooms.loading == old(rooms.loading) && rooms.error == old(rooms.error) && rooms.filters == old(rooms.filters)
    ensures tasks.loading == old(tasks.loading) && tasks.error == old(tasks.error) && tasks.filters == old(tasks.filters)
    ensures old(NoDoubleBooking(rooms.reservations)) ==> NoDoubleBooking(rooms.reservations)
  {
    var reservation := ReservationById(rooms.reservations, id).value;
    var room := RoomById(rooms.rooms, reservation.roomId);
    rooms.RejectReservation(id);
    tasks.AddNotification(RejectedNotice(reservation, room), notificationId, now);
  }

  /** `handleDelete`: cancel the reservation by removing it. */
  method HandleDelete(rooms: RoomsStore, id: int)
    modifies rooms
    ensures rooms.reservations == Filter(old(rooms.reservations), IdIsNot(id))
    ensures forall x :: x in rooms.reservations <==> x in old(rooms.reservations) && x.id != id
    ensures rooms.rooms == old(rooms.rooms)
    ensures rooms.loading == old(rooms.loading) && rooms.error == old(rooms.error) && rooms.filters == old(rooms.filters)
    ensures old(rooms.Valid()) ==> rooms.Valid()
    ensures old(NoDoubleBooking(rooms.reservations)) ==> NoDoubleBooking(rooms.reservations)
  {
    rooms.DeleteReservation(id);
  }

  // ---------------------------------------------------------------------------
  // Duration text and offered actions

  /** JavaScript's `%`: the remainder takes the sign of the dividend. */
  function JsRem(a: int, b: int): (r: int)
    requires b > 0
    ensures a >= 0 ==> 0 <= r < b && r == a % b
    ensures a < 0 ==> -b < r <= 0 && r == -((-a) % b)
  {
    if a >= 0 then a % b else -((-a) % b)
  }

  /** `calculateDuration`: whole hours and the minutes of the rest, as `Math.floor` gives them. */
  function DetailDuration(durationMs: int): (hm: (int, int))
    ensures durationMs >= 0 ==>
      0 <= hm.1 < 60 &&
      hm.0 * MsPerHour + hm.1 * MsPerMinute <= durationMs < hm.0 * MsPerHour + (hm.1 + 1) * MsPerMinute
  {
    (durationMs / MsPerHour, JsRem(durationMs, MsPerHour) / MsPerMinute)
  }

  /** The text `"<h> jam <m> menit"`, the minutes part left empty when there are none. */
  function DetailDurationText(durationMs: int): string
  {
    var (hours, minutes) := DetailDuration(durationMs);
    IntToString(hours) + " jam " + (if minutes > 0 then IntToString(minutes) + " menit" else "")
  }

  /** Which buttons the screen shows. */
  datatype OfferedActions = OfferedActions(approve: bool, reject: bool, extend: bool, cancel: bool)

  function Offered(isAdmin: bool, status: Status): (a: OfferedActions)
    ensures a.approve == a.reject
    ensures a.approve <==> isAdmin && status == Pending
    ensures a.extend <==> status == Confirmed
    ensures !(a.approve && a.extend)
    ensures a.cancel
  {
    var review := isAdmin && status == Pending;
    OfferedActions(review, review, status == Confirmed, true)
  }
}
