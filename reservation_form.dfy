/** The booking form (src/components/rooms/ReservationForm.js): the parking-capacity advice, field
    validation, the submit and force-submit paths, the half-hour time slots and the duration text.
    Times of day are the `HH:MM` strings the form compares; the instants handed to the rooms slice
    are milliseconds, parsed from date and time outside the model. */
module ReservationForm {
  import opened Wrappers
  import opened Seqs
  import opened Text
  import opened Rooms

  // ---------------------------------------------------------------------------
  // Parking suggestion

  datatype ParkingAdvice =
    | NoAdvice
    | CapacityAvailable
    | CapacityWarning(carCapacity: int, motorCapacity: int,
                      carExceeded: bool, motorExceeded: bool, carpoolAdvice: bool)

  /** `room.parkingCapacityCars || 0`: a missing capacity counts as none. */
  function CapacityOrZero(c: Option<int>): int
  {
    GetOr(c, 0)
  }

  /** The `ParkingSuggestion` component, as the decision it renders. The form passes empty vehicle
      fields in as 0. */
  function ParkingSuggestion(numCars: int, numMotorcycles: int, room: Option<Room>): (a: ParkingAdvice)
    ensures a == NoAdvice <==> room.None? || (numCars == 0 && numMotorcycles == 0)
    ensures a.CapacityWarning? <==>
      room.Some? && !(numCars == 0 && numMotorcycles == 0) &&
      (numCars > CapacityOrZero(room.value.parkingCapacityCars) ||
       numMotorcycles > CapacityOrZero(room.value.parkingCapacityMotorcycles))
    ensures a.CapacityWarning? ==>
      a.carCapacity == CapacityOrZero(room.value.parkingCapacityCars) &&
      a.motorCapacity == CapacityOrZero(room.value.parkingCapacityMotorcycles) &&
      (a.carExceeded <==> numCars > a.carCapacity) &&
      (a.motorExceeded <==> numMotorcycles > a.motorCapacity) &&
      (a.carExceeded || a.motorExceeded) &&
      (a.carpoolAdvice <==> a.carExceeded)
  {
    if room.None? || (numCars == 0 && numMotorcycles == 0) then NoAdvice
    else
      var carCapacity := CapacityOrZero(room.value.parkingCapacityCars);
      var motorCapacity := CapacityOrZero(room.value.parkingCapacityMotorcycles);
      var carExceeded := numCars > carCapacity;
      var motorExceeded := numMotorcycles > motorCapacity;
      if !carExceeded && !motorExceeded then CapacityAvailable
      else CapacityWarning(carCapacity, motorCapacity, carExceeded, motorExceeded, carExceeded)
  }

  /** Bringing more vehicles never turns a warning back into an all-clear. */
  lemma ParkingWarningMonotone(cars: int, motors: int, moreCars: int, moreMotors: int, room: Option<Room>)
    requires 0 <= cars && 0 <= motors
    requires ParkingSuggestion(cars, motors, room).CapacityWarning?
    requires cars <= moreCars && motors <= moreMotors
    ensures ParkingSuggestion(moreCars, moreMotors, room).CapacityWarning?
    ensures ParkingSuggestion(cars, motors, room).carExceeded ==> ParkingSuggestion(moreCars, moreMotors, room).carpoolAdvice
  {
  }

  // ---------------------------------------------------------------------------
  // Validation

  datatype Field = TitleField | DateField | StartTimeField | EndTimeField | AttendeesField | PhoneField

  /** What the form holds when it is submitted. `attendees` is 0 when the field was emptied
      (`Math.max(0, parseInt(value)) || ''` stores `''`, which compares as 0); `startTime` and
      `endTime` are the instants of `${dateOnly}T${startTimeOnly}` and `${dateOnly}T${endTimeOnly}`. */
  datatype FormInput = FormInput(
    title: string, dateOnly: string, startTimeOnly: string, endTimeOnly: string,
    startTime: int, endTime: int, attendees: int, notes: string, contactPhone: string)

  /** The form's initial state; `dateOnly` is tomorrow's date, set by an effect. */
  function InitialForm(tomorrow: string, startTime: int, endTime: int): FormInput
  {
    FormInput("", tomorrow, "09:00", "10:00", startTime, endTime, 1, "", "")
  }

  /** The characters `replace(/[\s\-]/g, '')` keeps. */
  predicate KeptInPhone(c: char)
  {
    !IsWhitespace(c) && c != '-'
  }

  function StripPhone(s: string): string
  {
    Filter(s, KeptInPhone)
  }

  /** `/^62[0-9]{8,15}$/`. */
  predicate PhonePattern(p: string)
  {
    10 <= |p| <= 17 && p[0] == '6' && p[1] == '2' && AllDigits(p[2..])
  }

  predicate PhoneAccepted(s: string)
  {
    PhonePattern(StripPhone(s))
  }

  /** Spaces and hyphens typed anywhere in the number do not change the verdict. */
  lemma {:induction false} PhoneIgnoresSeparator(a: string, c: char, b: string)
    requires !KeptInPhone(c)
    ensures StripPhone(a + [c] + b) == StripPhone(a + b)
    ensures PhoneAccepted(a + [c] + b) <==> PhoneAccepted(a + b)
  {
    FilterAppend(a + [c], b, KeptInPhone);
    FilterAppend(a, [c], KeptInPhone);
    FilterAppend(a, b, KeptInPhone);
    assert Filter([c], KeptInPhone) == [];
  }

  /** An accepted number keeps at least ten characters once stripped, all of them digits. */
  lemma AcceptedPhoneIsDigits(s: string)
    requires PhoneAccepted(s)
    ensures |StripPhone(s)| >= 10 && AllDigits(StripPhone(s))
  {
    var p := StripPhone(s);
    assert forall i :: 2 <= i < |p| ==> p[i] == p[2..][i - 2];
  }

  /** The messages `validateForm` can leave under a field. */
  datatype ErrorMessage =
    | TitleRequired | DateRequired | StartTimeRequired | EndTimeRequired | EndNotAfterStart
    | TooFewAttendees | TooManyAttendees(capacity: int) | InvalidPhone

  function MessageText(m: ErrorMessage): string
  {
    match m
    case TitleRequired => "Reservation title is required"
    case DateRequired => "Date is required"
    case StartTimeRequired => "Start time is required"
    case EndTimeRequired => "End time is required"
    case EndNotAfterStart => "End time must be after start time"
    case TooFewAttendees => "At least 1 attendee is required"
    case TooManyAttendees(capacity) => "Maximum " + IntToString(capacity) + " attendees allowed for this room"
    case InvalidPhone => "Please enter a valid phone number"
  }

  /** The conjunction `validateForm` checks. */
  predicate FormValid(f: FormInput, capacity: int)
  {
    !IsBlank(f.title) &&
    f.dateOnly != [] && f.startTimeOnly != [] && f.endTimeOnly != [] &&
    StringLess(f.startTimeOnly, f.endTimeOnly) &&
    1 <= f.attendees <= capacity &&
    (f.contactPhone == [] || PhoneAccepted(f.contactPhone))
  }

  /** `if (cond) newErrors.<field> = message`. */
  function SetIf(e: map<Field, ErrorMessage>, cond: bool, k: Field, message: ErrorMessage): map<Field, ErrorMessage>
  {
    if cond then e[k := message] else e
  }

  /** The outcome of each test `validateForm` runs, in the order it runs them. */
  datatype Checks = Checks(
    titleBlank: bool, dateMissing: bool, startMissing: bool, endMissing: bool,
    endNotAfterStart: bool, tooFew: bool, tooMany: bool, phoneRejected: bool)

  function ChecksOf(f: FormInput, capacity: int): Checks
  {
    Checks(Trim(f.title) == [], f.dateOnly == [], f.startTimeOnly == [], f.endTimeOnly == [],
           f.startTimeOnly != [] && f.endTimeOnly != [] && !StringLess(f.startTimeOnly, f.endTimeOnly),
           f.attendees < 1, f.attendees > capacity,
           f.contactPhone != [] && !PhonePattern(StripPhone(f.contactPhone)))
  }

  /** The `newErrors` object, one test after another; a later test overwrites an earlier message
      for the same field. */
  function ErrorsFrom(c: Checks, capacity: int): map<Field, ErrorMessage>
  {
    var e1 := SetIf(map[], c.titleBlank, TitleField, TitleRequired);
    var e2 := SetIf(e1, c.dateMissing, DateField, DateRequired);
    var e3 := SetIf(e2, c.startMissing, StartTimeField, StartTimeRequired);
    var e4 := SetIf(e3, c.endMissing, EndTimeField, EndTimeRequired);
    var e5 := SetIf(e4, c.endNotAfterStart, EndTimeField, EndNotAfterStart);
    var e6 := SetIf(e5, c.tooFew, AttendeesField, TooFewAttendees);
    var e7 := SetIf(e6, c.tooMany, AttendeesField, TooManyAttendees(capacity));
    SetIf(e7, c.phoneRejected, PhoneField, InvalidPhone)
  }

  /** Which fields the tests leave a message under, and which message: the last test to fire
      for a field decides its message. */
  lemma ErrorsFromByField(c: Checks, capacity: int)
    ensures var e := ErrorsFrom(c, capacity);
      (TitleField in e <==> c.titleBlank)
      && (DateField in e <==> c.dateMissing)
      && (StartTimeField in e <==> c.startMissing)
      && (EndTimeField in e <==> c.endMissing || c.endNotAfterStart)
      && (AttendeesField in e <==> c.tooFew || c.tooMany)
      && (PhoneField in e <==> c.phoneRejected)
      && (TitleField in e ==> e[TitleField] == TitleRequired)
      && (DateField in e ==> e[DateField] == DateRequired)
      && (StartTimeField in e ==> e[StartTimeField] == StartTimeRequired)
      && (EndTimeField in e ==> e[EndTimeField] == (if c.endNotAfterStart then EndNotAfterStart else EndTimeRequired))
      && (AttendeesField in e ==> e[AttendeesField] == (if c.tooMany then TooManyAttendees(capacity) else TooFewAttendees))
      && (PhoneField in e ==> e[PhoneField] == InvalidPhone)
      && (e == map[] <==> !(c.titleBlank || c.dateMissing || c.startMissing || c.endMissing ||
                              c.endNotAfterStart || c.tooFew || c.tooMany || c.phoneRejected))
  {
    var e := ErrorsFrom(c, capacity);
    assert e == map[] <==> forall k :: k !in e;
  }

  /** The error map `validateForm` leaves for the form `f`. */
  function FormErrors(f: FormInput, capacity: int): map<Field, ErrorMessage>
  {
    ErrorsFrom(ChecksOf(f, capacity), capacity)
  }

  /** Field by field: which fields get a message, and which message. */
  lemma FormErrorsByField(f: FormInput, capacity: int)
    ensures var e := FormErrors(f, capacity);
      (TitleField in e <==> IsBlank(f.title)) &&
      (DateField in e <==> f.dateOnly == []) &&
      (StartTimeField in e <==> f.startTimeOnly == []) &&
      (EndTimeField in e <==> f.endTimeOnly == [] || (f.startTimeOnly != [] && !StringLess(f.startTimeOnly, f.endTimeOnly))) &&
      (AttendeesField in e <==> f.attendees < 1 || f.attendees > capacity) &&
      (PhoneField in e <==> f.contactPhone != [] && !PhoneAccepted(f.contactPhone))
    ensures var e := FormErrors(f, capacity);
      (TitleField in e ==> e[TitleField] == TitleRequired) &&
      (DateField in e ==> e[DateField] == DateRequired) &&
      (StartTimeField in e ==> e[StartTimeField] == StartTimeRequired) &&
      (EndTimeField in e ==> e[EndTimeField] == (if f.startTimeOnly != [] && f.endTimeOnly != [] then EndNotAfterStart else EndTimeRequired)) &&
      (AttendeesField in e ==> e[AttendeesField] == (if f.attendees > capacity then TooManyAttendees(capacity) else TooFewAttendees)) &&
      (PhoneField in e ==> e[PhoneField] == InvalidPhone)
  {
    TrimEmptyIffBlank(f.title);
    ErrorsFromByField(ChecksOf(f, capacity), capacity);
  }

  /** `validateForm` passes exactly when every condition of `FormValid` holds. */
  lemma NoErrorsIffValid(f: FormInput, capacity: int)
    ensures FormErrors(f, capacity) == map[] <==> FormValid(f, capacity)
  {
    TrimEmptyIffBlank(f.title);
    ErrorsFromByField(ChecksOf(f, capacity), capacity);
  }

  /** The untouched form, on a room with room for one, is held back only by the empty title. */
  lemma InitialFormNeedsTitle(tomorrow: string, startTime: int, endTime: int, capacity: int)
    requires tomorrow != [] && capacity >= 1
    ensures FormErrors(InitialForm(tomorrow, startTime, endTime), capacity) ==
      map[TitleField := TitleRequired]
  {
    TimeTextLess(9, 0, 10, 0);
    Pad2Digits(9); Pad2Digits(0); Pad2Digits(10);
    assert TimeText(9, 0) == "09:00" && TimeText(10, 0) == "10:00";
    var e := FormErrors(InitialForm(tomorrow, startTime, endTime), capacity);
    assert e.Keys == {TitleField};
  }

  /** The payload `handleSubmit` and `handleForceSubmit` build; an empty phone becomes `null`. */
  function DraftOf(f: FormInput, roomId: int, userId: int): ReservationDraft
  {
    ReservationDraft(roomId, userId, f.title, f.startTime, f.endTime, f.attendees, f.notes,
                     if f.contactPhone == [] then None else Some(f.contactPhone))
  }

  /** The form's pre-check, run with no id (`-1`), gives the answer an approval of the booking
      right after it is added would give: when it finds no conflict the approval succeeds, and
      when it finds one the approval is refused for the conflict. */
  lemma PrecheckPredictsApproval(rs: seq<Reservation>, d: ReservationDraft, now: int)
    requires PositiveIds(rs)
    ensures var r := NewReservation(rs, d, now);
      ApproveDecision(rs + [r], r.id) ==
        if HasBookingConflict(rs, DraftBooking(d)) then Failure(Conflict) else Success(r.id)
  {
    var r := NewReservation(rs, d, now);
    var all := rs + [r];
    assert all[|rs|] == r;
    assert FirstIndex(all, HasId(r.id)) == |rs| by {
      assert forall j :: 0 <= j < |rs| ==> all[j].id != r.id;
    }
    assert forall j :: 0 <= j < |rs| ==> (Blocks(all[j], BookingOf(r)) <==> Blocks(rs[j], DraftBooking(d)));
    assert !Blocks(all[|rs|], BookingOf(r));
    if HasBookingConflict(rs, DraftBooking(d)) {
      var j :| 0 <= j < |rs| && Blocks(rs[j], DraftBooking(d));
      assert Blocks(all[j], BookingOf(r));
    } else {
      assert forall j :: 0 <= j < |all| ==> !Blocks(all[j], BookingOf(r));
    }
  }

  /** The body of `validateForm` that fills the local `newErrors` object: run the tests, then
      set the message of each field whose test fired, in order. */
  method CollectErrors(f: FormInput, capacity: int) returns (newErrors: map<Field, ErrorMessage>)
    ensures newErrors == FormErrors(f, capacity)
  {
    var c := ChecksOf(f, capacity);
    newErrors := map[];
    ghost var before := newErrors;
    if c.titleBlank {
      newErrors := newErrors[TitleField := TitleRequired];
    }
    assert newErrors == SetIf(before, c.titleBlank, TitleField, TitleRequired);
    before := newErrors;
    if c.dateMissing {
      newErrors := newErrors[DateField := DateRequired];
    }
    assert newErrors == SetIf(before, c.dateMissing, DateField, DateRequired);
    before := newErrors;
    if c.startMissing {
      newErrors := newErrors[StartTimeField := StartTimeRequired];
    }
    assert newErrors == SetIf(before, c.startMissing, StartTimeField, StartTimeRequired);
    before := newErrors;
    if c.endMissing {
      newErrors := newErrors[EndTimeField := EndTimeRequired];
    }
    assert newErrors == SetIf(before, c.endMissing, EndTimeField, EndTimeRequired);
    before := newErrors;
    if c.endNotAfterStart {
      newErrors := newErrors[EndTimeField := EndNotAfterStart];
    }
    assert newErrors == SetIf(before, c.endNotAfterStart, EndTimeField, EndNotAfterStart);
    before := newErrors;
    if c.tooFew {
      newErrors := newErrors[AttendeesField := TooFewAttendees];
    }
    assert newErrors == SetIf(before, c.tooFew, AttendeesField, TooFewAttendees);
    before := newErrors;
    if c.tooMany {
      newErrors := newErrors[AttendeesField := TooManyAttendees(capacity)];
    }
    assert newErrors == SetIf(before, c.tooMany, AttendeesField, TooManyAttendees(capacity));
    before := newErrors;
    if c.phoneRejected {
      newErrors := newErrors[PhoneField := InvalidPhone];
    }
    assert newErrors == SetIf(before, c.phoneRejected, PhoneField, InvalidPhone);
  }

  // ---------------------------------------------------------------------------
  // Submitting

  /** `getWhatsAppShareLink` and `getCalendarLink` give `'#'` unless `reservationId` is truthy. */
  predicate ShareLinksAvailable(reservationId: Option<int>)
  {
    reservationId.Some? && reservationId.value != 0
  }

  datatype SubmitOutcome = Invalid | ConflictDetected | Submitted(id: int)

  /** The form component's own state. */
  class FormState {
    var errors: map<Field, ErrorMessage>
    var showSuccess: bool
    var reservationId: Option<int>
    var conflictWarning: bool

    constructor ()
      ensures errors == map[] && !showSuccess && reservationId.None? && !conflictWarning
    {
      errors := map[];
      showSuccess := false;
      reservationId := None;
      conflictWarning := false;
    }

    /** `validateForm`: collect the errors, clear the conflict warning, store the errors and
        report whether there are none. */
    method ValidateForm(f: FormInput, capacity: int) returns (ok: bool)
      modifies this
      ensures errors == FormErrors(f, capacity)
      ensures ok <==> FormValid(f, capacity)
      ensures !conflictWarning
      ensures showSuccess == old(showSuccess) && reservationId == old(reservationId)
    {
      var newErrors := CollectErrors(f, capacity);
      conflictWarning := false;
      errors := newErrors;
      ok := |errors| == 0;
      assert ok <==> errors == map[];
      NoErrorsIffValid(f, capacity);
      assert ok <==> FormValid(f, capacity);
    }
  }

  /** `handleSubmit` for the room `roomId` (the form is only shown for a room that exists):
      validate, pre-check for a conflict, and only then add the reservation and show the id
      `max(0, ids) + 1` taken over the table as it was before the dispatch. */
  method Submit(form: FormState, store: RoomsStore, f: FormInput, roomId: int, userId: int, now: int)
    returns (outcome: SubmitOutcome)
    requires RoomById(store.rooms, roomId).Some?
    modifies form, store
    ensures var capacity := RoomById(old(store.rooms), roomId).value.capacity;
      form.errors == FormErrors(f, capacity) &&
      (outcome == Invalid <==> !FormValid(f, capacity)) &&
      (outcome == ConflictDetected <==>
        FormValid(f, capacity) && HasBookingConflict(old(store.reservations), DraftBooking(DraftOf(f, roomId, userId))))
    ensures form.conflictWarning <==> outcome == ConflictDetected
    ensures outcome.Submitted? ==>
      store.reservations == old(store.reservations) + [NewReservation(old(store.reservations), DraftOf(f, roomId, userId), now)] &&
      outcome.id == store.reservations[|store.reservations| - 1].id &&
      form.reservationId == Some(outcome.id) && form.showSuccess && ShareLinksAvailable(form.reservationId)
    ensures !outcome.Submitted? ==>
      store.reservations == old(store.reservations) &&
      form.reservationId == old(form.reservationId) && form.showSuccess == old(form.showSuccess)
    ensures store.rooms == old(store.rooms)
    ensures store.loading == old(store.loading) && store.error == old(store.error) && store.filters == old(store.filters)
    ensures old(store.Valid()) ==> store.Valid()
    ensures old(NoDoubleBooking(store.reservations)) ==> NoDoubleBooking(store.reservations)
  {
    var room := RoomById(store.rooms, roomId).value;
    var ok := form.ValidateForm(f, room.capacity);
    if !ok {
      return Invalid;
    }
    var newReservation := DraftOf(f, roomId, userId);
    if HasBookingConflict(store.reservations, DraftBooking(newReservation)) {
      form.conflictWarning := true;
      return ConflictDetected;
    }
    var reservations := store.reservations;
    store.AddReservation(newReservation, now);
    var lastId := MaxOrZero(Map(reservations, ReservationKey)) + 1;
    form.reservationId := Some(lastId);
    form.showSuccess := true;
    outcome := Submitted(lastId);
  }

  /** `handleForceSubmit` as written: it adds the reservation without the pre-check but reads the
      new id from `action.payload.id`, which the payload does not carry, so no id is recorded and
      the share links stay `'#'` although a booking was made. */
  method ForceSubmitAsWritten(form: FormState, store: RoomsStore, f: FormInput, roomId: int, userId: int, now: int)
    modifies form, store
    ensures store.reservations == old(store.reservations) + [NewReservation(old(store.reservations), DraftOf(f, roomId, userId), now)]
    ensures store.reservations[|store.reservations| - 1].status == Pending
    ensures form.reservationId.None? && !ShareLinksAvailable(form.reservationId)
    ensures form.showSuccess && !form.conflictWarning && form.errors == old(form.errors)
    ensures store.rooms == old(store.rooms)
    ensures store.loading == old(store.loading) && store.error == old(store.error) && store.filters == old(store.filters)
    ensures old(store.Valid()) ==> store.Valid()
    ensures old(NoDoubleBooking(store.reservations)) ==> NoDoubleBooking(store.reservations)
  {
    var newReservation := DraftOf(f, roomId, userId);
    store.AddReservation(newReservation, now);
    form.reservationId := None;
    form.showSuccess := true;
    form.conflictWarning := false;
  }

  /** `handleForceSubmit` as intended: the same dispatch, recording the id the reducer assigned.
      Skipping the pre-check never breaks the table: the booking still lands as pending. */
  method ForceSubmit(form: FormState, store: RoomsStore, f: FormInput, roomId: int, userId: int, now: int)
    returns (id: int)
    modifies form, store
    ensures store.reservations == old(store.reservations) + [NewReservation(old(store.reservations), DraftOf(f, roomId, userId), now)]
    ensures store.reservations[|store.reservations| - 1].status == Pending
    ensures id == store.reservations[|store.reservations| - 1].id
    ensures form.reservationId == Some(id) && ShareLinksAvailable(form.reservationId)
    ensures form.showSuccess && !form.conflictWarning && form.errors == old(form.errors)
    ensures store.rooms == old(store.rooms)
    ensures store.loading == old(store.loading) && store.error == old(store.error) && store.filters == old(store.filters)
    ensures old(store.Valid()) ==> store.Valid()
    ensures old(NoDoubleBooking(store.reservations)) ==> NoDoubleBooking(store.reservations)
  {
    var newReservation := DraftOf(f, roomId, userId);
    store.AddReservation(newReservation, now);
    id := store.reservations[|store.reservations| - 1].id;
    form.reservationId := Some(id);
    form.showSuccess := true;
    form.conflictWarning := false;
  }

  // ---------------------------------------------------------------------------
  // Time slots

  datatype TimeOption = TimeOption(value: string, display: string)

  /** The two minute labels of each hour. */
  const MinuteLabels: seq<string> := ["00", "30"]

  /** The label `${hour > 12 ? hour - 12 : hour}:${minute} ${hour >= 12 ? 'PM' : 'AM'}`. */
  function DisplayTime(hour: nat, minute: string): string
  {
    IntToString(if hour > 12 then hour - 12 else hour) + ":" + minute + " " + (if hour >= 12 then "PM" else "AM")
  }

  function MakeOption(hour: nat, minute: string): TimeOption
  {
    TimeOption(Pad2(hour) + ":" + minute, DisplayTime(hour, minute))
  }

  /** The option at position `i` of the list: hour `8 + i / 2`, first `00` then `30`. */
  function OptionAt(i: nat): TimeOption
    requires i < 24
  {
    MakeOption(8 + i / 2, MinuteLabels[i % 2])
  }

  /** Slot `k` of hour `hour` sits at position `2 * (hour - 8) + k`. */
  lemma OptionAtPosition(hour: nat, k: nat)
    requires 8 <= hour < 20 && k < 2
    ensures OptionAt(2 * (hour - 8) + k) == MakeOption(hour, MinuteLabels[k])
  {
    var i := 2 * (hour - 8) + k;
    assert i / 2 == hour - 8 && i % 2 == k;
  }

  /** The minute labels are the zero-padded minute counts 0 and 30. */
  lemma OptionAtIsTimeText(i: nat)
    requires i < 24
    ensures OptionAt(i).value == TimeText(8 + i / 2, 30 * (i % 2))
  {
    Pad2Digits(0); Pad2Digits(30);
    assert Pad2(0) == "00" && Pad2(30) == "30";
  }

  /** The slots are strictly increasing as strings, half an hour apart, from `08:00` to `19:30`. */
  lemma {:induction false} OptionsIncreasing(i: nat, j: nat)
    requires i < j < 24
    ensures StringLess(OptionAt(i).value, OptionAt(j).value)
  {
    OptionAtIsTimeText(i);
    OptionAtIsTimeText(j);
    TimeTextLess(8 + i / 2, 30 * (i % 2), 8 + j / 2, 30 * (j % 2));
    assert (8 + i / 2) * 60 + 30 * (i % 2) == 480 + 30 * i;
    assert (8 + j / 2) * 60 + 30 * (j % 2) == 480 + 30 * j;
  }

  lemma OptionsBounds()
    ensures OptionAt(0).value == "08:00" && OptionAt(23).value == "19:30"
    ensures OptionAt(0).display == "8:00 AM" && OptionAt(23).display == "7:30 PM"
  {
    Pad2Digits(8); Pad2Digits(19);
    assert IntToString(8) == "8" && IntToString(7) == "7";
  }

  /** `generateTimeOptions`: for every hour from 8 to 19, push the `00` and the `30` slot. */
  method GenerateTimeOptions() returns (options: seq<TimeOption>)
    ensures |options| == 24
    ensures forall i :: 0 <= i < 24 ==> options[i] == OptionAt(i)
    ensures forall i, j :: 0 <= i < j < 24 ==> StringLess(options[i].value, options[j].value)
  {
    options := [];
    var hour := 8;
    while hour < 20
      invariant 8 <= hour <= 20
      invariant |options| == 2 * (hour - 8)
      invariant forall i :: 0 <= i < |options| ==> options[i] == OptionAt(i)
    {
      var k := 0;
      while k < |MinuteLabels|
        invariant 0 <= k <= 2
        invariant |options| == 2 * (hour - 8) + k
        invariant forall i :: 0 <= i < |options| ==> options[i] == OptionAt(i)
      {
        var minute := MinuteLabels[k];
        OptionAtPosition(hour, k);
        options := options + [MakeOption(hour, minute)];
        k := k + 1;
      }
      hour := hour + 1;
    }
    forall i, j | 0 <= i < j < 24
      ensures StringLess(options[i].value, options[j].value)
    {
      OptionsIncreasing(i, j);
    }
  }

  // ---------------------------------------------------------------------------
  // Duration

  /** The arithmetic of `calculateDuration` on the hour and minute parts of two `HH:MM` strings:
      nothing when the end is not after the start, else whole hours and the remaining minutes. */
  function DurationParts(startHour: int, startMinute: int, endHour: int, endMinute: int): (d: Option<(int, int)>)
    ensures d.None? <==> endHour * 60 + endMinute <= startHour * 60 + startMinute
    ensures d.Some? ==>
      var diff := (endHour * 60 + endMinute) - (startHour * 60 + startMinute);
      d.value.0 >= 0 && 0 <= d.value.1 < 60 && d.value.0 * 60 + d.value.1 == diff
  {
    var startMinutes := startHour * 60 + startMinute;
    var endMinutes := endHour * 60 + endMinute;
    if endMinutes <= startMinutes then None
    else
      var durationMinutes := endMinutes - startMinutes;
      Some((durationMinutes / 60, durationMinutes % 60))
  }

  /** `s` when `n !== 1`. */
  function Plural(n: int): string
  {
    if n != 1 then "s" else ""
  }

  /** `calculateDuration`: the text the form shows, e.g. `1 hour 30 minutes`. */
  function CalculateDuration(startHour: int, startMinute: int, endHour: int, endMinute: int): (t: string)
    ensures t == "Invalid time range" <==> endHour * 60 + endMinute <= startHour * 60 + startMinute
    ensures var d := DurationParts(startHour, startMinute, endHour, endMinute);
      d.Some? ==> IntToString(d.value.0) + " hour" <= t
  {
    match DurationParts(startHour, startMinute, endHour, endMinute)
    case None => "Invalid time range"
    case Some((hours, minutes)) =>
      var head := IntToString(hours) + " hour";
      var t := head + Plural(hours) +
        (if minutes > 0 then " " + IntToString(minutes) + " minute" + Plural(minutes) else "");
      assert t[..|head|] == head;
      assert t[0] == IntToString(hours)[0] && IsDigit(t[0]);
      t
  }

  /** On two slot strings the form's string test and the duration agree: the end is accepted
      exactly when the duration is a proper one. */
  lemma DurationAgreesWithTimeOrder(h1: nat, m1: nat, h2: nat, m2: nat)
    requires h1 < 100 && m1 < 60 && h2 < 100 && m2 < 60
    ensures StringLess(TimeText(h1, m1), TimeText(h2, m2)) <==> DurationParts(h1, m1, h2, m2).Some?
  {
    TimeTextLess(h1, m1, h2, m2);
  }
}
