/** The rooms slice (src/features/rooms/roomsSlice.js): the room and reservation tables, the
    booking-conflict test, the guarded approval workflow, the reducers and the selectors.
    Times are integers of milliseconds, the values `new Date(...).getTime()` produces. */
module Rooms {
  import opened Wrappers
  import opened Seqs

  // ---------------------------------------------------------------------------
  // Entities

  datatype Status = Pending | Confirmed | Rejected | Cancelled

  datatype Room = Room(
    id: int, name: string, roomType: string, capacity: int, floor: int,
    amenities: seq<string>, image: string, description: string, hourlyRate: int,
    parkingCapacityCars: Option<int>, parkingCapacityMotorcycles: Option<int>,
    isAvailable: bool)

  datatype Reservation = Reservation(
    id: int, roomId: int, userId: int, title: string,
    startTime: int, endTime: int, attendees: int, notes: string,
    contactPhone: Option<string>, status: Status, createdAt: int)

  /** What the booking form hands to `addReservation`: every field but id, status and creation time. */
  datatype ReservationDraft = ReservationDraft(
    roomId: int, userId: int, title: string, startTime: int, endTime: int,
    attendees: int, notes: string, contactPhone: Option<string>)

  /** The fields `hasBookingConflict` reads from its candidate; a new booking has no id. */
  datatype Booking = Booking(id: Option<int>, roomId: int, startTime: int, endTime: int)

  function BookingOf(r: Reservation): Booking
  {
    Booking(Some(r.id), r.roomId, r.startTime, r.endTime)
  }

  function DraftBooking(d: ReservationDraft): Booking
  {
    Booking(None, d.roomId, d.startTime, d.endTime)
  }

  function RoomKey(r: Room): int { r.id }

  function ReservationKey(r: Reservation): int { r.id }

  function RoomHasId(id: int): Room -> bool { (r: Room) => r.id == id }

  function RoomIdIsNot(id: int): Room -> bool { (r: Room) => r.id != id }

  function HasId(id: int): Reservation -> bool { (r: Reservation) => r.id == id }

  function IdIsNot(id: int): Reservation -> bool { (r: Reservation) => r.id != id }

  function InRoom(roomId: int): Reservation -> bool { (r: Reservation) => r.roomId == roomId }

  function NotInRoom(roomId: int): Reservation -> bool { (r: Reservation) => r.roomId != roomId }

  function OfUser(userId: int): Reservation -> bool { (r: Reservation) => r.userId == userId }

  predicate IsPending(r: Reservation) { r.status == Pending }

  predicate IsConfirmed(r: Reservation) { r.status == Confirmed }

  function WithStatus(st: Status): Reservation -> Reservation { (r: Reservation) => r.(status := st) }

  predicate PositiveIds(rs: seq<Reservation>)
  {
    forall i :: 0 <= i < |rs| ==> rs[i].id > 0
  }

  // ---------------------------------------------------------------------------
  // The conflict test

  /** `newReservationId || -1`: a missing id or the id 0 stands for -1. */
  function ExcludedId(id: Option<int>): int
  {
    match id
    case Some(v) => if v == 0 then -1 else v
    case None => -1
  }

  /** The half-open overlap test `newStart < existingEnd && newEnd > existingStart`. */
  predicate Overlaps(newStart: int, newEnd: int, existingStart: int, existingEnd: int)
  {
    newStart < existingEnd && newEnd > existingStart
  }

  /** The filter of `hasBookingConflict`: confirmed, same room, not the candidate itself. */
  function IsRivalOf(c: Booking): Reservation -> bool
  {
    (r: Reservation) => r.roomId == c.roomId && r.status == Confirmed && r.id != ExcludedId(c.id)
  }

  function OverlapsBooking(c: Booking): Reservation -> bool
  {
    (r: Reservation) => Overlaps(c.startTime, c.endTime, r.startTime, r.endTime)
  }

  /** `existing` stands in the way of the candidate `c`. */
  predicate Blocks(existing: Reservation, c: Booking)
  {
    existing.roomId == c.roomId && existing.status == Confirmed && existing.id != ExcludedId(c.id) &&
    Overlaps(c.startTime, c.endTime, existing.startTime, existing.endTime)
  }

  /** `hasBookingConflict`: filter the rivals, then ask whether some rival overlaps. */
  predicate HasBookingConflict(rs: seq<Reservation>, c: Booking)
    ensures HasBookingConflict(rs, c) <==> exists i :: 0 <= i < |rs| && Blocks(rs[i], c)
  {
    var rivals := Filter(rs, IsRivalOf(c));
    assert forall x :: x in rivals && OverlapsBooking(c)(x) <==> x in rs && Blocks(x, c);
    Any(rivals, OverlapsBooking(c))
  }

  /** Overlap does not depend on which interval is called the new one. */
  lemma OverlapsSymmetric(s1: int, e1: int, s2: int, e2: int)
    ensures Overlaps(s1, e1, s2, e2) <==> Overlaps(s2, e2, s1, e1)
  {
  }

  /** A booking that ends exactly when another starts, or starts exactly when it ends, is not blocked by it. */
  lemma BackToBackNeverBlocks(existing: Reservation, c: Booking)
    requires c.endTime == existing.startTime || c.startTime == existing.endTime
    ensures !Blocks(existing, c)
  {
  }

  /** A reservation with a proper id never stands in its own way. */
  lemma NeverBlocksItself(r: Reservation)
    requires r.id != 0
    ensures !Blocks(r, BookingOf(r))
  {
  }

  /** Only confirmed reservations matter: two tables with the same confirmed reservations,
      in any order and whatever their pending, rejected or cancelled ones, give the same answer. */
  lemma ConflictIgnoresUnconfirmed(rs: seq<Reservation>, rs2: seq<Reservation>, c: Booking)
    requires forall x :: x in Filter(rs, IsConfirmed) <==> x in Filter(rs2, IsConfirmed)
    ensures HasBookingConflict(rs, c) <==> HasBookingConflict(rs2, c)
  {
    if HasBookingConflict(rs, c) {
      var i :| 0 <= i < |rs| && Blocks(rs[i], c);
      assert rs[i] in Filter(rs, IsConfirmed);
      var j :| 0 <= j < |rs2| && rs2[j] == rs[i];
    }
    if HasBookingConflict(rs2, c) {
      var i :| 0 <= i < |rs2| && Blocks(rs2[i], c);
      assert rs2[i] in Filter(rs2, IsConfirmed);
      var j :| 0 <= j < |rs| && rs[j] == rs2[i];
    }
  }

  // ---------------------------------------------------------------------------
  // The approval decision of the `approveReservation` thunk

  datatype ApproveError = NotFound | Conflict

  /** The values the thunk rejects with. */
  function ApproveErrorMessage(e: ApproveError): string
  {
    match e
    case NotFound => "Reservasi tidak ditemukan."
    case Conflict => "Gagal disetujui: Waktu bentrok dengan reservasi lain yang sudah dikonfirmasi."
  }

  /** The thunk: find the first reservation with the id, re-run the conflict test on it,
      and succeed with the id only when it is found and free. */
  function ApproveDecision(rs: seq<Reservation>, id: int): (r: Result<int, ApproveError>)
    ensures r == Failure(NotFound) <==> forall j :: 0 <= j < |rs| ==> rs[j].id != id
    ensures r == Failure(Conflict) <==>
      var k := FirstIndex(rs, HasId(id));
      k != -1 && exists j :: 0 <= j < |rs| && Blocks(rs[j], BookingOf(rs[k]))
    ensures r.Success? ==> r.value == id && FirstIndex(rs, HasId(id)) != -1
  {
    match Find(rs, HasId(id))
    case None => Failure(NotFound)
    case Some(target) =>
      if HasBookingConflict(rs, BookingOf(target)) then Failure(Conflict) else Success(id)
  }

  // ---------------------------------------------------------------------------
  // The no-double-booking invariant

  /** Two confirmed reservations of one room whose spans overlap. */
  predicate Clash(a: Reservation, b: Reservation)
  {
    a.roomId == b.roomId && a.status == Confirmed && b.status == Confirmed &&
    Overlaps(a.startTime, a.endTime, b.startTime, b.endTime)
  }

  /** No two confirmed reservations of the same room overlap. */
  predicate NoDoubleBooking(rs: seq<Reservation>)
  {
    PairwiseFree(rs, Clash)
  }

  /** Every confirmed reservation spans a non-empty interval. */
  predicate ProperIntervals(rs: seq<Reservation>)
  {
    forall i :: 0 <= i < |rs| && rs[i].status == Confirmed ==> rs[i].startTime < rs[i].endTime
  }

  lemma ClashSymmetric(a: Reservation, b: Reservation)
    ensures Clash(a, b) <==> Clash(b, a)
  {
  }

  /** With unique positive ids, a confirmed reservation of the same room that the conflict test
      does not report for a candidate carrying the id of `rs[k]` does not overlap the candidate. */
  lemma UnreportedMeansDisjoint(rs: seq<Reservation>, k: int, j: int, c: Booking)
    requires UniqueBy(rs, ReservationKey) && PositiveIds(rs)
    requires 0 <= k < |rs| && 0 <= j < |rs| && j != k
    requires c.id == Some(rs[k].id) && c.roomId == rs[j].roomId && rs[j].status == Confirmed
    requires !Blocks(rs[j], c)
    ensures !Overlaps(c.startTime, c.endTime, rs[j].startTime, rs[j].endTime)
  {
    if j < k { assert ReservationKey(rs[j]) != ReservationKey(rs[k]); }
    else { assert ReservationKey(rs[k]) != ReservationKey(rs[j]); }
    assert rs[k].id > 0;
  }

  /** A successful approval keeps the table free of double bookings. */
  lemma ApproveKeepsNoDoubleBooking(rs: seq<Reservation>, id: int)
    requires UniqueBy(rs, ReservationKey) && PositiveIds(rs) && NoDoubleBooking(rs)
    requires ApproveDecision(rs, id).Success?
    ensures NoDoubleBooking(UpdateFirst(rs, HasId(id), WithStatus(Confirmed)))
  {
    var k := FirstIndex(rs, HasId(id));
    var v := rs[k].(status := Confirmed);
    forall j | 0 <= j < |rs| && j != k ensures !Clash(v, rs[j]) && !Clash(rs[j], v) {
      if rs[j].roomId == v.roomId && rs[j].status == Confirmed {
        UnreportedMeansDisjoint(rs, k, j, BookingOf(rs[k]));
      }
    }
    PairwiseFreeUpdate(rs, Clash, k, v);
    assert UpdateFirst(rs, HasId(id), WithStatus(Confirmed)) == rs[k := v];
  }

  /** The first reservation with the id, if any, spans a non-empty interval. */
  predicate ProperSpanOf(rs: seq<Reservation>, id: int)
  {
    var k := FirstIndex(rs, HasId(id));
    k == -1 || rs[k].startTime < rs[k].endTime
  }

  /** Confirming a reservation whose span is non-empty keeps every confirmed span non-empty. */
  lemma ApproveKeepsProperIntervals(rs: seq<Reservation>, id: int)
    requires ProperIntervals(rs) && ProperSpanOf(rs, id)
    ensures ProperIntervals(UpdateFirst(rs, HasId(id), WithStatus(Confirmed)))
  {
    var k := FirstIndex(rs, HasId(id));
    if k != -1 {
      assert UpdateFirst(rs, HasId(id), WithStatus(Confirmed)) == rs[k := rs[k].(status := Confirmed)];
    }
  }

  /** The approval does not look at the span itself: an empty pending booking that touches a
      confirmed one is confirmed, and the table then holds an empty confirmed span. */
  lemma ApproveAdmitsEmptySpan()
    ensures var rs := [Reservation(1, 1, 1, "", 8, 10, 1, "", None, Confirmed, 0),
                       Reservation(2, 1, 1, "", 10, 10, 1, "", None, Pending, 0)];
            ProperIntervals(rs) && ApproveDecision(rs, 2) == Success(2) &&
            !ProperIntervals(UpdateFirst(rs, HasId(2), WithStatus(Confirmed)))
  {
    var rs := [Reservation(1, 1, 1, "", 8, 10, 1, "", None, Confirmed, 0),
               Reservation(2, 1, 1, "", 10, 10, 1, "", None, Pending, 0)];
    assert FirstIndex(rs, HasId(2)) == 1;
    assert !Blocks(rs[0], BookingOf(rs[1]));
    assert UpdateFirst(rs, HasId(2), WithStatus(Confirmed))[1] == rs[1].(status := Confirmed);
  }

  /** Setting a status other than confirmed never creates a double booking. */
  lemma UnconfirmKeepsNoDoubleBooking(rs: seq<Reservation>, id: int, st: Status)
    requires NoDoubleBooking(rs) && st != Confirmed
    ensures NoDoubleBooking(UpdateFirst(rs, HasId(id), WithStatus(st)))
  {
    var k := FirstIndex(rs, HasId(id));
    if k != -1 {
      PairwiseFreeUpdate(rs, Clash, k, rs[k].(status := st));
      assert UpdateFirst(rs, HasId(id), WithStatus(st)) == rs[k := rs[k].(status := st)];
    }
  }

  /** Removing reservations never creates a double booking. */
  lemma RemovalKeepsNoDoubleBooking(rs: seq<Reservation>, keep: Reservation -> bool)
    requires NoDoubleBooking(rs)
    ensures NoDoubleBooking(Filter(rs, keep))
  {
    PairwiseFreeFilter(rs, Clash, keep);
  }

  /** Appending a pending reservation never creates a double booking. */
  lemma AddPendingKeepsNoDoubleBooking(rs: seq<Reservation>, x: Reservation)
    requires NoDoubleBooking(rs) && x.status == Pending
    ensures NoDoubleBooking(rs + [x])
  {
    PairwiseFreeAppend(rs, Clash, x);
  }

  /** Moving the end of `rs[k]` to `newEnd` when the added window `[oldEnd, newEnd)` is free
      keeps the table free of double bookings: the old span was free and the window is free. */
  lemma ExtendKeepsNoDoubleBooking(rs: seq<Reservation>, k: int, newEnd: int)
    requires UniqueBy(rs, ReservationKey) && PositiveIds(rs) && NoDoubleBooking(rs) && ProperIntervals(rs)
    requires 0 <= k < |rs|
    requires !HasBookingConflict(rs, Booking(Some(rs[k].id), rs[k].roomId, rs[k].endTime, newEnd))
    ensures NoDoubleBooking(rs[k := rs[k].(endTime := newEnd)])
  {
    var v := rs[k].(endTime := newEnd);
    var window := Booking(Some(rs[k].id), rs[k].roomId, rs[k].endTime, newEnd);
    forall j | 0 <= j < |rs| && j != k ensures !Clash(v, rs[j]) && !Clash(rs[j], v) {
      if rs[j].roomId == v.roomId && rs[j].status == Confirmed && v.status == Confirmed {
        // the old span was free, and so is the added window
        assert !Clash(rs[k], rs[j]);
        UnreportedMeansDisjoint(rs, k, j, window);
      }
    }
    PairwiseFreeUpdate(rs, Clash, k, v);
  }

  /** Without proper intervals the window rule is not enough: a confirmed zero-length booking
      at the old end is missed by the window test but clashes with the extended span. */
  lemma ExtendNeedsProperIntervals()
    ensures var rs := [Reservation(1, 1, 1, "", 0, 5, 1, "", None, Confirmed, 0),
                       Reservation(2, 1, 1, "", 5, 5, 1, "", None, Confirmed, 0)];
            NoDoubleBooking(rs) &&
            !HasBookingConflict(rs, Booking(Some(1), 1, 5, 8)) &&
            !NoDoubleBooking(rs[0 := rs[0].(endTime := 8)])
  {
    var rs := [Reservation(1, 1, 1, "", 0, 5, 1, "", None, Confirmed, 0),
               Reservation(2, 1, 1, "", 5, 5, 1, "", None, Confirmed, 0)];
    assert !Blocks(rs[1], Booking(Some(1), 1, 5, 8));
    assert Clash(rs[0 := rs[0].(endTime := 8)][0], rs[0 := rs[0].(endTime := 8)][1]);
  }

  // ---------------------------------------------------------------------------
  // Reducer payloads and their merges

  /** The reservation `addReservation` appends: the draft, the next id, pending, created now. */
  function NewReservation(rs: seq<Reservation>, d: ReservationDraft, now: int): (r: Reservation)
    ensures r.id >= 1 && forall i :: 0 <= i < |rs| ==> rs[i].id < r.id
    ensures r.status == Pending && r.createdAt == now
    ensures BookingOf(r) == Booking(Some(r.id), d.roomId, d.startTime, d.endTime)
    ensures r.userId == d.userId && r.title == d.title && r.attendees == d.attendees
    ensures r.notes == d.notes && r.contactPhone == d.contactPhone
  {
    Reservation(NextKey(rs, ReservationKey), d.roomId, d.userId, d.title, d.startTime, d.endTime,
                d.attendees, d.notes, d.contactPhone, Pending, now)
  }

  /** The room `addRoom` appends: the payload with the next id, available. */
  function NewRoom(rooms: seq<Room>, payload: Room): (r: Room)
    ensures r.id >= 1 && forall i :: 0 <= i < |rooms| ==> rooms[i].id < r.id
    ensures r.isAvailable
    ensures r.(id := payload.id, isAvailable := payload.isAvailable) == payload
  {
    payload.(id := NextKey(rooms, RoomKey), isAvailable := true)
  }

  /** An `updateRoom` payload: the id of the room and the fields to overwrite. */
  datatype RoomPatch = RoomPatch(
    id: int, name: Option<string>, roomType: Option<string>, capacity: Option<int>,
    floor: Option<int>, amenities: Option<seq<string>>, image: Option<string>,
    description: Option<string>, hourlyRate: Option<int>,
    parkingCapacityCars: Option<Option<int>>, parkingCapacityMotorcycles: Option<Option<int>>,
    isAvailable: Option<bool>)

  /** `{ ...room, ...patch }` on the room the patch's id selected, so the id is kept. */
  function MergeRoom(p: RoomPatch): Room -> Room
  {
    (r: Room) => r.(name := GetOr(p.name, r.name), roomType := GetOr(p.roomType, r.roomType),
            capacity := GetOr(p.capacity, r.capacity), floor := GetOr(p.floor, r.floor),
            amenities := GetOr(p.amenities, r.amenities), image := GetOr(p.image, r.image),
            description := GetOr(p.description, r.description),
            hourlyRate := GetOr(p.hourlyRate, r.hourlyRate),
            parkingCapacityCars := GetOr(p.parkingCapacityCars, r.parkingCapacityCars),
            parkingCapacityMotorcycles := GetOr(p.parkingCapacityMotorcycles, r.parkingCapacityMotorcycles),
            isAvailable := GetOr(p.isAvailable, r.isAvailable))
  }

  /** An `updateReservation` payload: the id of the reservation and the fields to overwrite. */
  datatype ReservationPatch = ReservationPatch(
    id: int, roomId: Option<int>, userId: Option<int>, title: Option<string>,
    startTime: Option<int>, endTime: Option<int>, attendees: Option<int>, notes: Option<string>,
    contactPhone: Option<Option<string>>, status: Option<Status>, createdAt: Option<int>)

  /** The payload `{ id, endTime }` that extends a reservation. */
  function EndTimePatch(id: int, newEnd: int): ReservationPatch
  {
    ReservationPatch(id, None, None, None, None, Some(newEnd), None, None, None, None, None)
  }

  /** `{ ...reservation, ...patch }` on the reservation the patch's id selected. */
  function MergeReservation(p: ReservationPatch): Reservation -> Reservation
  {
    (r: Reservation) => r.(roomId := GetOr(p.roomId, r.roomId), userId := GetOr(p.userId, r.userId),
            title := GetOr(p.title, r.title), startTime := GetOr(p.startTime, r.startTime),
            endTime := GetOr(p.endTime, r.endTime), attendees := GetOr(p.attendees, r.attendees),
            notes := GetOr(p.notes, r.notes), contactPhone := GetOr(p.contactPhone, r.contactPhone),
            status := GetOr(p.status, r.status), createdAt := GetOr(p.createdAt, r.createdAt))
  }

  /** A merge keeps the id, and merging the same patch again changes nothing. */
  lemma MergeLaws(p: ReservationPatch, q: RoomPatch, r: Reservation, room: Room)
    ensures MergeReservation(p)(r).id == r.id
    ensures MergeReservation(p)(MergeReservation(p)(r)) == MergeReservation(p)(r)
    ensures MergeRoom(q)(room).id == room.id
    ensures MergeRoom(q)(MergeRoom(q)(room)) == MergeRoom(q)(room)
  {
  }

  /** The extend patch overwrites the end time and nothing else. */
  lemma EndTimePatchOnlyEnd(r: Reservation, newEnd: int)
    ensures MergeReservation(EndTimePatch(r.id, newEnd))(r) == r.(endTime := newEnd)
  {
  }

  /** The generic update is not guarded: confirming a pending reservation through it can create
      the double booking the approval thunk would have refused. */
  lemma UpdateIsUnguarded()
    ensures var rs := [Reservation(1, 1, 1, "", 0, 10, 1, "", None, Confirmed, 0),
                       Reservation(2, 1, 1, "", 5, 15, 1, "", None, Pending, 0)];
            var p := ReservationPatch(2, None, None, None, None, None, None, None, None, Some(Confirmed), None);
            NoDoubleBooking(rs) && ApproveDecision(rs, 2) == Failure(Conflict) &&
            !NoDoubleBooking(UpdateFirst(rs, HasId(2), MergeReservation(p)))
  {
    var rs := [Reservation(1, 1, 1, "", 0, 10, 1, "", None, Confirmed, 0),
               Reservation(2, 1, 1, "", 5, 15, 1, "", None, Pending, 0)];
    var p := ReservationPatch(2, None, None, None, None, None, None, None, None, Some(Confirmed), None);
    assert FirstIndex(rs, HasId(2)) == 1;
    assert Blocks(rs[0], BookingOf(rs[1]));
    var t := UpdateFirst(rs, HasId(2), MergeReservation(p));
    assert Clash(t[0], t[1]);
  }

  /** Rejecting twice is rejecting once; the same holds for any status overwrite. */
  lemma SetStatusIdempotent(rs: seq<Reservation>, id: int, st: Status)
    ensures UpdateFirst(UpdateFirst(rs, HasId(id), WithStatus(st)), HasId(id), WithStatus(st))
         == UpdateFirst(rs, HasId(id), WithStatus(st))
  {
    UpdateFirstIdempotent(rs, HasId(id), WithStatus(st));
  }

  /** `deleteRoom` cascades: no remaining reservation refers to the room, every reservation of
      another room survives in order, and exactly the room's reservations go. */
  lemma DeleteRoomCascade(rs: seq<Reservation>, roomId: int)
    ensures forall r :: r in Filter(rs, NotInRoom(roomId)) <==> r in rs && r.roomId != roomId
    ensures IsSubsequence(Filter(rs, NotInRoom(roomId)), rs)
    ensures |Filter(rs, NotInRoom(roomId))| + |ReservationsByRoom(rs, roomId)| == |rs|
  {
    FilterIsSubsequence(rs, NotInRoom(roomId));
    var all: Reservation -> bool := (r: Reservation) => true;
    FilterSplitCount(rs, NotInRoom(roomId), InRoom(roomId), all);
    FilterAll(rs, all);
  }

  // ---------------------------------------------------------------------------
  // Room filters and selectors

  /** The `filters` of the slice; `date` is stored but no selector reads it. */
  datatype RoomFilters = RoomFilters(
    capacity: Option<int>, roomType: Option<string>, amenities: seq<string>, date: Option<string>)

  const InitialRoomFilters := RoomFilters(None, None, [], None)

  /** A `setFilters` payload: the fields present overwrite, `Some(None)` sets a field to null. */
  datatype RoomFiltersPatch = RoomFiltersPatch(
    capacity: Option<Option<int>>, roomType: Option<Option<string>>,
    amenities: Option<seq<string>>, date: Option<Option<string>>)

  function MergeRoomFilters(f: RoomFilters, p: RoomFiltersPatch): (g: RoomFilters)
    ensures p.capacity.None? ==> g.capacity == f.capacity
    ensures p.roomType.None? ==> g.roomType == f.roomType
    ensures p.amenities.None? ==> g.amenities == f.amenities
    ensures p.date.None? ==> g.date == f.date
  {
    RoomFilters(GetOr(p.capacity, f.capacity), GetOr(p.roomType, f.roomType),
                GetOr(p.amenities, f.amenities), GetOr(p.date, f.date))
  }

  /** Re-applying a `setFilters` payload changes nothing. */
  lemma MergeRoomFiltersIdempotent(f: RoomFilters, p: RoomFiltersPatch)
    ensures MergeRoomFilters(MergeRoomFilters(f, p), p) == MergeRoomFilters(f, p)
  {
  }

  /** `filters.capacity &&`: null and 0 switch the test off. */
  predicate CapacityActive(f: RoomFilters) { f.capacity.Some? && f.capacity.value != 0 }

  /** `filters.type &&`: null and the empty string switch the test off. */
  predicate TypeActive(f: RoomFilters) { f.roomType.Some? && f.roomType.value != "" }

  /** The early-return chain of `selectFilteredRooms`. */
  function RoomMatches(f: RoomFilters): Room -> bool
  {
    (room: Room) =>
      if CapacityActive(f) && room.capacity < f.capacity.value then false
      else if TypeActive(f) && room.roomType != f.roomType.value then false
      else if |f.amenities| > 0 && !(forall a :: a in f.amenities ==> a in room.amenities) then false
      else true
  }

  /** `selectFilteredRooms`: the rooms, in order, that pass every active test. */
  function FilteredRooms(rooms: seq<Room>, f: RoomFilters): (r: seq<Room>)
    ensures forall room :: room in r <==>
      room in rooms &&
      (CapacityActive(f) ==> room.capacity >= f.capacity.value) &&
      (TypeActive(f) ==> room.roomType == f.roomType.value) &&
      (forall a :: a in f.amenities ==> a in room.amenities)
    ensures IsSubsequence(r, rooms)
    ensures f == InitialRoomFilters ==> r == rooms
  {
    FilterIsSubsequence(rooms, RoomMatches(f));
    if f == InitialRoomFilters then FilterAll(rooms, RoomMatches(f)); Filter(rooms, RoomMatches(f))
    else Filter(rooms, RoomMatches(f))
  }

  /** `selectRoomById`. */
  function RoomById(rooms: seq<Room>, id: int): (r: Option<Room>)
    ensures r.None? <==> forall j :: 0 <= j < |rooms| ==> rooms[j].id != id
    ensures r.Some? ==> r.value == rooms[FirstIndex(rooms, RoomHasId(id))] && r.value.id == id
  {
    Find(rooms, RoomHasId(id))
  }

  /** `selectReservationById`. */
  function ReservationById(rs: seq<Reservation>, id: int): (r: Option<Reservation>)
    ensures r.None? <==> forall j :: 0 <= j < |rs| ==> rs[j].id != id
    ensures r.Some? ==> r.value == rs[FirstIndex(rs, HasId(id))] && r.value.id == id
  {
    Find(rs, HasId(id))
  }

  /** `selectReservationsByRoom`. */
  function ReservationsByRoom(rs: seq<Reservation>, roomId: int): (r: seq<Reservation>)
    ensures forall x :: x in r <==> x in rs && x.roomId == roomId
    ensures IsSubsequence(r, rs)
  {
    FilterIsSubsequence(rs, InRoom(roomId));
    Filter(rs, InRoom(roomId))
  }

  /** `selectReservationsByUser`. */
  function ReservationsByUser(rs: seq<Reservation>, userId: int): (r: seq<Reservation>)
    ensures forall x :: x in r <==> x in rs && x.userId == userId
    ensures IsSubsequence(r, rs)
  {
    FilterIsSubsequence(rs, OfUser(userId));
    Filter(rs, OfUser(userId))
  }

  /** `selectPendingReservations`. */
  function PendingReservations(rs: seq<Reservation>): (r: seq<Reservation>)
    ensures forall x :: x in r <==> x in rs && x.status == Pending
    ensures IsSubsequence(r, rs)
  {
    FilterIsSubsequence(rs, IsPending);
    Filter(rs, IsPending)
  }

  // ---------------------------------------------------------------------------
  // The seed tables

  /** The six rooms the slice starts with. */
  const MockRoom1 := Room(1, "Orion Conference Room", "conference", 20, 1,
    ["projector", "whiteboard", "video-conferencing"],
    "https://images.unsplash.com/photo-1517502884422-41eaead166d4?ixlib=rb-1.2.1&auto=format&fit=crop&w=800&q=80",
    "Large conference room perfect for team meetings and presentations.",
    50000, Some(5), Some(10), true)

  const MockRoom2 := Room(2, "Phoenix Meeting Room", "meeting", 8, 1,
    ["whiteboard", "tv-screen"],
    "https://images.unsplash.com/photo-1568992687947-868a62a9f521?ixlib=rb-1.2.1&auto=format&fit=crop&w=800&q=80",
    "Mid-sized meeting room for small team discussions.",
    35000, Some(2), Some(15), true)

  const MockRoom3 := Room(3, "Pegasus Brainstorm Room", "brainstorming", 6, 2,
    ["whiteboard", "standing-desk", "creative-supplies"],
    "https://images.unsplash.com/photo-1497366811353-6870744d04b2?ixlib=rb-1.2.1&auto=format&fit=crop&w=800&q=80",
    "Creative space designed for brainstorming and ideation sessions.",
    40000, Some(2), Some(15), true)

  const MockRoom4 := Room(4, "Cassiopeia Quiet Room", "focus", 1, 2,
    ["ergonomic-chair", "noise-cancellation"],
    "https://images.unsplash.com/photo-1498503182468-3b51cbb6cb24?ixlib=rb-1.2.1&auto=format&fit=crop&w=800&q=80",
    "Private focus room for individual work requiring concentration.",
    75000, Some(0), Some(5), false)

  const MockRoom5 := Room(5, "Andromeda Office Suite", "office", 40000, 3,
    ["private-bathroom", "coffee-machine", "mini-fridge"],
    "https://images.unsplash.com/photo-1556761175-5973dc0f32e7?ixlib=rb-1.2.1&auto=format&fit=crop&w=800&q=80",
    "Premium office suite for executives or small teams needing privacy.",
    85000, Some(1), Some(2), true)

  const MockRoom6 := Room(6, "Gemini Creative Hub", "brainstorming", 10, 3,
    ["whiteboard", "tv-screen", "coffee-machine", "creative-supplies"],
    "https://images.unsplash.com/photo-1524758631624-e2822e304c36?ixlib=rb-4.0.3&ixid=M3wxMjA3fDB8MHxwaG90by1wYWdlfHx8fGVufDB8fHx8fA%3D%3D&auto=format&fit=crop&w=1170&q=80",
    "Ruang kolaboratif yang didesain untuk memicu kreativitas dan inovasi.",
    72000, Some(3), Some(20), true)

  const MockRooms: seq<Room> := [MockRoom1, MockRoom2, MockRoom3, MockRoom4, MockRoom5, MockRoom6]

  /** The four reservations the slice starts with. The local date-times of the source are read
      as if the local zone were UTC; a fixed offset moves every instant alike and changes no overlap. */
  const MockReservation1 := Reservation(1, 1, 2, "Quarterly Planning",
    1752570000000, 1752580800000, 12,
    "Need projector and video conferencing setup", None, Confirmed, 1751364900000)

  const MockReservation2 := Reservation(2, 3, 3, "Design Sprint",
    1752670800000, 1752685200000, 5,
    "Will need extra creative supplies", None, Confirmed, 1751466600000)

  const MockReservation3 := Reservation(3, 2, 2, "Client Meeting",
    1752746400000, 1752751800000, 6,
    "Prepare presentation materials", None, Pending, 1751708700000)

  const MockReservation4 := Reservation(4, 5, 1, "Executive Meeting",
    1752850800000, 1752858000000, 3,
    "Confidential meeting", None, Pending, 1752232500000)

  const MockReservations: seq<Reservation> := [MockReservation1, MockReservation2, MockReservation3, MockReservation4]


  // ---------------------------------------------------------------------------
  // The store

  class RoomsStore {
    var rooms: seq<Room>
    var reservations: seq<Reservation>
    var loading: bool
    var error: Option<string>
    var filters: RoomFilters

    /** The identities the reducers maintain: unique room ids, unique positive reservation ids. */
    ghost predicate Valid()
      reads this
    {
      UniqueBy(rooms, RoomKey) && UniqueBy(reservations, ReservationKey) && PositiveIds(reservations)
    }

    /** The initial state: the seed tables, which already keep every identity and the
        no-double-booking invariant. */
    constructor()
      ensures rooms == MockRooms && reservations == MockReservations
      ensures !loading && error == None && filters == InitialRoomFilters
      ensures Valid() && NoDoubleBooking(reservations) && ProperIntervals(reservations)
    {
      rooms := MockRooms;
      reservations := MockReservations;
      loading := false;
      error := None;
      filters := InitialRoomFilters;
    }

    method AddRoom(payload: Room)
      modifies this
      ensures rooms == old(rooms) + [NewRoom(old(rooms), payload)]
      ensures reservations == old(reservations) && loading == old(loading)
      ensures error == old(error) && filters == old(filters)
      ensures old(Valid()) ==> Valid()
    {
      var room := NewRoom(rooms, payload);
      if Valid() { UniqueByAppendFresh(rooms, RoomKey, room); }
      rooms := rooms + [room];
    }

    method UpdateRoom(p: RoomPatch)
      modifies this
      ensures rooms == UpdateFirst(old(rooms), RoomHasId(p.id), MergeRoom(p))
      ensures reservations == old(reservations) && loading == old(loading)
      ensures error == old(error) && filters == old(filters)
      ensures old(Valid()) ==> Valid()
    {
      var updated := UpdateFirst(rooms, RoomHasId(p.id), MergeRoom(p));
      if Valid() { UniqueBySameKeys(rooms, updated, RoomKey); }
      rooms := updated;
    }

    /** Removes the room and, with it, every reservation of the room. */
    method DeleteRoom(roomId: int)
      modifies this
      ensures rooms == Filter(old(rooms), RoomIdIsNot(roomId))
      ensures reservations == Filter(old(reservations), NotInRoom(roomId))
      ensures loading == old(loading) && error == old(error) && filters == old(filters)
      ensures old(Valid()) ==> Valid()
      ensures old(NoDoubleBooking(reservations)) ==> NoDoubleBooking(reservations)
    {
      if Valid() {
        UniqueByFilter(rooms, RoomKey, RoomIdIsNot(roomId));
        UniqueByFilter(reservations, ReservationKey, NotInRoom(roomId));
        ChosenPositive(reservations, NotInRoom(roomId));
      }
      if NoDoubleBooking(reservations) { RemovalKeepsNoDoubleBooking(reservations, NotInRoom(roomId)); }
      rooms := Filter(rooms, RoomIdIsNot(roomId));
      reservations := Filter(reservations, NotInRoom(roomId));
    }

    /** Appends a pending reservation with a fresh id, whatever the room's calendar holds. */
    method AddReservation(d: ReservationDraft, now: int)
      modifies this
      ensures reservations == old(reservations) + [NewReservation(old(reservations), d, now)]
      ensures rooms == old(rooms) && loading == old(loading)
      ensures error == old(error) && filters == old(filters)
      ensures old(Valid()) ==> Valid()
      ensures old(NoDoubleBooking(reservations)) ==> NoDoubleBooking(reservations)
    {
      var r := NewReservation(reservations, d, now);
      if Valid() { UniqueByAppendFresh(reservations, ReservationKey, r); }
      if NoDoubleBooking(reservations) { AddPendingKeepsNoDoubleBooking(reservations, r); }
      reservations := reservations + [r];
    }

    method UpdateReservation(p: ReservationPatch)
      modifies this
      ensures reservations == UpdateFirst(old(reservations), HasId(p.id), MergeReservation(p))
      ensures rooms == old(rooms) && loading == old(loading)
      ensures error == old(error) && filters == old(filters)
      ensures old(Valid()) ==> Valid()
    {
      var updated := UpdateFirst(reservations, HasId(p.id), MergeReservation(p));
      if Valid() { UniqueBySameKeys(reservations, updated, ReservationKey); }
      reservations := updated;
    }

    /** Removes every reservation with the id. */
    method DeleteReservation(id: int)
      modifies this
      ensures reservations == Filter(old(reservations), IdIsNot(id))
      ensures rooms == old(rooms) && loading == old(loading)
      ensures error == old(error) && filters == old(filters)
      ensures old(Valid()) ==> Valid()
      ensures old(NoDoubleBooking(reservations)) ==> NoDoubleBooking(reservations)
    {
      if Valid() {
        UniqueByFilter(reservations, ReservationKey, IdIsNot(id));
        ChosenPositive(reservations, IdIsNot(id));
      }
      if NoDoubleBooking(reservations) { RemovalKeepsNoDoubleBooking(reservations, IdIsNot(id)); }
      reservations := Filter(reservations, IdIsNot(id));
    }

    /** Marks the first reservation with the id rejected; no prior status is required. */
    method RejectReservation(id: int)
      modifies this
      ensures reservations == UpdateFirst(old(reservations), HasId(id), WithStatus(Rejected))
      ensures rooms == old(rooms) && loading == old(loading)
      ensures error == old(error) && filters == old(filters)
      ensures old(Valid()) ==> Valid()
      ensures old(NoDoubleBooking(reservations)) ==> NoDoubleBooking(reservations)
    {
      var updated := UpdateFirst(reservations, HasId(id), WithStatus(Rejected));
      if Valid() { UniqueBySameKeys(reservations, updated, ReservationKey); }
      if NoDoubleBooking(reservations) { UnconfirmKeepsNoDoubleBooking(reservations, id, Rejected); }
      reservations := updated;
    }

    method SetFilters(p: RoomFiltersPatch)
      modifies this
      ensures filters == MergeRoomFilters(old(filters), p)
      ensures rooms == old(rooms) && reservations == old(reservations)
      ensures loading == old(loading) && error == old(error)
    {
      filters := MergeRoomFilters(filters, p);
    }

    method ClearFilters()
      modifies this
      ensures filters == InitialRoomFilters
      ensures rooms == old(rooms) && reservations == old(reservations)
      ensures loading == old(loading) && error == old(error)
    {
      filters := InitialRoomFilters;
    }

    /** `approveReservation.pending`. */
    method ApprovePending()
      modifies this
      ensures loading && error == None
      ensures rooms == old(rooms) && reservations == old(reservations) && filters == old(filters)
    {
      loading := true;
      error := None;
    }

    /** `approveReservation.fulfilled`: confirms the first reservation with the id. */
    method ApproveFulfilled(id: int)
      modifies this
      ensures reservations == UpdateFirst(old(reservations), HasId(id), WithStatus(Confirmed))
      ensures !loading && error == old(error)
      ensures rooms == old(rooms) && filters == old(filters)
    {
      reservations := UpdateFirst(reservations, HasId(id), WithStatus(Confirmed));
      loading := false;
    }

    /** `approveReservation.rejected`: records the message; the tables are untouched. */
    method ApproveRejected(message: string)
      modifies this
      ensures !loading && error == Some(message)
      ensures rooms == old(rooms) && reservations == old(reservations) && filters == old(filters)
    {
      loading := false;
      error := Some(message);
    }

    /** The whole approval: pending, the thunk's decision, then fulfilled or rejected. */
    method ApproveReservation(id: int) returns (outcome: Result<int, ApproveError>)
      modifies this
      ensures outcome == ApproveDecision(old(reservations), id)
      ensures outcome.Success? ==>
        reservations == UpdateFirst(old(reservations), HasId(id), WithStatus(Confirmed)) && error == None
      ensures outcome.Failure? ==>
        reservations == old(reservations) && error == Some(ApproveErrorMessage(outcome.error))
      ensures !loading && rooms == old(rooms) && filters == old(filters)
      ensures old(Valid()) ==> Valid()
      ensures old(Valid() && NoDoubleBooking(reservations)) ==> NoDoubleBooking(reservations)
      ensures old(ProperIntervals(reservations) && ProperSpanOf(reservations, id)) ==> ProperIntervals(reservations)
    {
      ghost var before := reservations;
      ghost var wasValid := Valid();
      if ProperIntervals(before) && ProperSpanOf(before, id) { ApproveKeepsProperIntervals(before, id); }
      ApprovePending();
      outcome := ApproveDecision(reservations, id);
      if outcome.Success? {
        var updated := UpdateFirst(reservations, HasId(id), WithStatus(Confirmed));
        if wasValid {
          UniqueBySameKeys(reservations, updated, ReservationKey);
          if NoDoubleBooking(before) { ApproveKeepsNoDoubleBooking(before, id); }
        }
        ApproveFulfilled(outcome.value);
      } else {
        ApproveRejected(ApproveErrorMessage(outcome.error));
      }
    }
  }

  /** Filtering keeps ids positive. */
  lemma ChosenPositive(rs: seq<Reservation>, p: Reservation -> bool)
    requires PositiveIds(rs)
    ensures PositiveIds(Filter(rs, p))
  {
    var f := Filter(rs, p);
    forall i | 0 <= i < |f| ensures f[i].id > 0 {
      assert f[i] in f;
      var j :| 0 <= j < |rs| && rs[j] == f[i];
    }
  }
}
