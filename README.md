# Working Space reservation engine, in Dafny

This project models the core of the Working Space co-working application (FlexXcop/Working-Space-with-redux).
That application is a React and Redux front end for booking rooms, running a Kanban task board and administering users.

At the centre is the room-reservation engine of `src/features/rooms/roomsSlice.js`:

- the room and reservation tables;
- the half-open interval conflict test `hasBookingConflict`;
- the reducers, which assign ids as `max(0, ids) + 1`, force new bookings to pending and cascade a room's deletion to its reservations;
- the guarded `approveReservation` thunk and its pending, fulfilled and rejected reducers.

The central invariant is that no two confirmed reservations of the same room overlap.
It is stated as `Rooms.NoDoubleBooking`. It is proved to survive approval, rejection, deletion and adding a booking. Extending a booking keeps it only while every confirmed span is non-empty, and a forced submission can break that (see `Rooms.ExtendKeepsNoDoubleBooking` under "Left out").

Around the engine:

- **Workflow entry points:**
  - the extend, approve, reject and cancel handlers of the reservation screen;
  - the booking form's validation, conflict pre-check, force-submit, time slots, duration text and parking advice;
  - the reservation list's filter, sort and limit pipeline, with its pending-conflict flag.
- **Supporting slices:** tasks with comments and notifications, users, the login state machine and the theme settings.
- **Small component logic:**
  - the route guard;
  - the header's notification bell;
  - the dashboard search;
  - the Kanban board's columns and exports;
  - the room page's amenity labels.

How the model is built:

- **Classes for the slices.** Each slice is a class whose fields are the slice's state (`Rooms.RoomsStore`, `Tasks.TasksStore`, `Users.UsersStore`, `Auth.AuthState`, `Theme.ThemeStore`). Each reducer is a method that modifies it. Its `ensures` give the whole new state in terms of pure functions over the tables (`Seqs.UpdateFirst`, `Seqs.Filter`, `Rooms.NewReservation`, ...), and lemmas about those functions carry the properties.
- **Component handlers.** These are methods over the stores. Where the source loops or reassigns step by step, the model does the same and is proved against a specification function: `ReservationsList.VisibleReservations`, `ReservationForm.CollectErrors`, `ReservationForm.GenerateTimeOptions`, `TasksPage.TasksToExport` and `Header.ClearAll`.
- **Time.** Instants are integers of milliseconds, the values `new Date(...).getTime()` gives. Times of day are the zero-padded `HH:MM` strings the form compares. The clock (`now`) and `Date.now()` notification ids are parameters.
- **JavaScript's falsy rules follow the code:**
  - `id || -1` turns an id of 0 into -1;
  - `filters.capacity &&` ignores 0 and null;
  - `!notification.userId` makes a missing or zero user id a broadcast;
  - `requiredRole &&` ignores an empty role;
  - `x || 0` and `x || 'Unknown Room'`.
- **Optional values.** Absent values are `Option`s. Failures are `Result`s.

Modules: `Wrappers` (Option, Result), `Seqs` (the array operations), `Text` (the string operations), then one module per source file: `Rooms`, `ReservationDetail`, `ReservationsList`, `ReservationForm`, `Tasks`, `Users`, `Auth`, `Theme`, `RouteGuard`, `Header`, `Dashboard`, `TasksPage`, `RoomDetail`.

Where the code differs from what its labels and names suggest, the model follows the code:

- The dashboard's notification panel compares `n.userId === user?.id`, so when nobody is signed in it lists the unread broadcasts that carry no user id. `Dashboard.DashboardNotifications` keeps that behaviour: absent equals absent.
- The generic `updateReservation` is not guarded. It can confirm a booking that the approval thunk would refuse (`Rooms.UpdateIsUnguarded`). The no-double-booking invariant is therefore proved for the guarded paths only.
- The reservation list's status sort subtracts two strings. That gives `NaN`, which the sort treats as "equal", so the filtered order is kept. `ReservationsList.ListSpecProperties` states exactly that.
- The Kanban page resolves assignee names from its own three-entry user list, not from the users slice (`TasksPage.AssigneeName`).

## Model

| member | source | states |
|---|---|---|
| Rooms.HasBookingConflict | src/features/rooms/roomsSlice.js:165-185 | a booking conflicts exactly when some confirmed reservation of the same room, other than the candidate itself (id matched as `id \|\| -1`), overlaps it with strict inequalities |
| Rooms.OverlapsSymmetric | src/features/rooms/roomsSlice.js:183 | the overlap test does not depend on which interval is the new one |
| Rooms.BackToBackNeverBlocks | src/features/rooms/roomsSlice.js:183 | a booking that ends when another starts, or starts when it ends, is not blocked by it |
| Rooms.NeverBlocksItself | src/features/rooms/roomsSlice.js:175 | a reservation with a non-zero id is never its own rival |
| Rooms.ConflictIgnoresUnconfirmed | src/features/rooms/roomsSlice.js:171-176 | two tables with the same confirmed reservations give the same conflict answer, whatever their other reservations and order |
| Rooms.ApproveDecision | src/features/rooms/roomsSlice.js:189-208 | the thunk fails with "not found" exactly when no reservation has the id, fails with "conflict" exactly when the first one with the id is blocked, and otherwise succeeds with the id |
| Rooms.ClashSymmetric | src/features/rooms/roomsSlice.js:183 | two confirmed reservations of a room clash symmetrically |
| Rooms.UnreportedMeansDisjoint | src/features/rooms/roomsSlice.js:171-184 | with unique positive ids, a confirmed rival the conflict test does not report does not overlap the candidate |
| Rooms.ApproveKeepsNoDoubleBooking | src/features/rooms/roomsSlice.js:189-208 | confirming the reservation an approval succeeded for leaves no two confirmed reservations of a room overlapping |
| Rooms.ApproveKeepsProperIntervals | src/features/rooms/roomsSlice.js:270-276 | confirming a reservation whose span is non-empty keeps every confirmed span non-empty |
| Rooms.ApproveAdmitsEmptySpan | src/features/rooms/roomsSlice.js:179-208 | the approval never looks at the span itself: an empty pending booking touching a confirmed one is approved and becomes an empty confirmed span |
| Rooms.UnconfirmKeepsNoDoubleBooking | src/features/rooms/roomsSlice.js:250-255 | setting any status other than confirmed never creates a double booking |
| Rooms.RemovalKeepsNoDoubleBooking | src/features/rooms/roomsSlice.js:229-249 | removing reservations never creates a double booking |
| Rooms.AddPendingKeepsNoDoubleBooking | src/features/rooms/roomsSlice.js:233-240 | appending a pending reservation never creates a double booking |
| Rooms.ExtendKeepsNoDoubleBooking | src/features/rooms/roomsSlice.js:165-185 | with proper intervals, moving a reservation's end when the added window is conflict-free keeps the table free of double bookings |
| Rooms.ExtendNeedsProperIntervals | src/features/rooms/roomsSlice.js:183 | a zero-length confirmed reservation at the old end slips past the window test and clashes with the extended span |
| Rooms.NewReservation | src/features/rooms/roomsSlice.js:233-240 | the appended reservation carries the payload's room, times, owner, title, attendees, notes and phone, an id above every existing id, pending status and the current time |
| Rooms.NewRoom | src/features/rooms/roomsSlice.js:216-222 | the appended room is the payload with an id above every existing id and marked available |
| Rooms.MergeLaws | src/features/rooms/roomsSlice.js:223-246 | a spread merge keeps the id and merging the same patch twice equals merging it once |
| Rooms.EndTimePatchOnlyEnd | src/features/rooms/roomsSlice.js:241-246 | an end-time patch changes the end time and nothing else |
| Rooms.UpdateIsUnguarded | src/features/rooms/roomsSlice.js:241-246 | the generic update can confirm a reservation the approval thunk refuses, creating a double booking |
| Rooms.SetStatusIdempotent | src/features/rooms/roomsSlice.js:250-255 | rejecting (or setting any status) twice equals doing it once |
| Rooms.DeleteRoomCascade | src/features/rooms/roomsSlice.js:229-232 | after deleting a room no reservation refers to it, all others survive in order, and exactly the room's reservations go |
| Rooms.MergeRoomFilters | src/features/rooms/roomsSlice.js:256-258 | a filter absent from the payload keeps its old value |
| Rooms.MergeRoomFiltersIdempotent | src/features/rooms/roomsSlice.js:256-258 | applying the same filter payload twice equals applying it once |
| Rooms.FilteredRooms | src/features/rooms/roomsSlice.js:300-313 | a room is listed exactly when it passes the active capacity, type and all-amenities tests; order is kept; the initial filters list every room |
| Rooms.RoomById | src/features/rooms/roomsSlice.js:297-298 | absent exactly when no room has the id; otherwise the first room of the table with that id, as `find` returns it |
| Rooms.ReservationById | src/features/rooms/roomsSlice.js:316-317 | absent exactly when no reservation has the id; otherwise the first one with it |
| Rooms.ReservationsByRoom | src/features/rooms/roomsSlice.js:318-319 | exactly the reservations of the room, as an order-preserving subsequence of the table |
| Rooms.ReservationsByUser | src/features/rooms/roomsSlice.js:320-321 | exactly the reservations of the user, as an order-preserving subsequence of the table |
| Rooms.PendingReservations | src/features/rooms/roomsSlice.js:322-323 | exactly the pending reservations, as an order-preserving subsequence of the table |
| Rooms.RoomsStore.constructor | src/features/rooms/roomsSlice.js:3-155 | the initial state: the six seed rooms and four seed reservations, not loading, no error, empty filters; the seed already has unique room ids, unique positive reservation ids, non-empty confirmed spans and no double booking |
| Rooms.RoomsStore.AddRoom | src/features/rooms/roomsSlice.js:216-222 | appends the new room, touches nothing else, keeps room ids unique |
| Rooms.RoomsStore.UpdateRoom | src/features/rooms/roomsSlice.js:223-228 | merges the patch into the first room with its id, touches nothing else |
| Rooms.RoomsStore.DeleteRoom | src/features/rooms/roomsSlice.js:229-232 | removes the room and every reservation of it, keeps the no-double-booking invariant |
| Rooms.RoomsStore.AddReservation | src/features/rooms/roomsSlice.js:233-240 | appends the pending reservation without a conflict test, keeps the invariants |
| Rooms.RoomsStore.UpdateReservation | src/features/rooms/roomsSlice.js:241-246 | merges the patch into the first reservation with its id, touches nothing else |
| Rooms.RoomsStore.DeleteReservation | src/features/rooms/roomsSlice.js:247-249 | removes every reservation with the id, keeps the invariants |
| Rooms.RoomsStore.RejectReservation | src/features/rooms/roomsSlice.js:250-255 | marks the first reservation with the id rejected whatever its status, keeps the invariants |
| Rooms.RoomsStore.SetFilters | src/features/rooms/roomsSlice.js:256-258 | merges the filter payload, touches nothing else |
| Rooms.RoomsStore.ClearFilters | src/features/rooms/roomsSlice.js:259-261 | restores the initial filters |
| Rooms.RoomsStore.ApprovePending | src/features/rooms/roomsSlice.js:266-269 | sets loading and clears the error |
| Rooms.RoomsStore.ApproveFulfilled | src/features/rooms/roomsSlice.js:270-276 | confirms the first reservation with the id and stops loading |
| Rooms.RoomsStore.ApproveRejected | src/features/rooms/roomsSlice.js:277-280 | stops loading and records the message, tables untouched |
| Rooms.RoomsStore.ApproveReservation | src/features/rooms/roomsSlice.js:189-280 | the whole approval: the outcome is the thunk's decision; on success the reservation is confirmed, on failure the tables are untouched and the message recorded; no double booking is ever introduced; confirmed spans stay non-empty when the approved span is non-empty |
| Rooms.ChosenPositive | src/features/rooms/roomsSlice.js:229-249 | filtering the table keeps every id positive |
| ReservationDetail.ExtendDecision | src/components/rooms/ReservationDetail.js:98-129 | an unparsable or non-positive number of hours is refused; otherwise the extension is refused exactly when the added window from the old end to the new end is blocked; an accepted one ends later by exactly the hours asked |
| ReservationDetail.ExtendKeepsProperIntervals | src/components/rooms/ReservationDetail.js:105-106 | moving an end forward keeps every confirmed span non-empty |
| ReservationDetail.ExtensionKeepsInvariant | src/components/rooms/ReservationDetail.js:98-129 | an accepted extension keeps the table free of double bookings and of empty confirmed spans |
| ReservationDetail.ForcedEmptySpanDefeatsExtendCheck | src/components/rooms/ReservationDetail.js:105-127 | a forced empty booking at a confirmed booking's end is approved without a clash; extending the confirmed booking by an hour then passes the window test and double-books the room |
| ReservationDetail.HandleExtend | src/components/rooms/ReservationDetail.js:98-129 | the outcome is the extend decision; only an accepted extension patches the end time; the invariants are kept |
| ReservationDetail.HandleApprove | src/components/rooms/ReservationDetail.js:72-84 | the outcome is the approval decision; only a fulfilled approval confirms the reservation and appends the owner's notification; a failure leaves both tables and the notifications alone and records its message as the rooms error; loading ends, filters and the task store's status fields stay; no double booking is kept, and confirmed spans stay non-empty when the approved span is |
| ReservationDetail.HandleReject | src/components/rooms/ReservationDetail.js:86-90 | rejects the reservation and always appends the owner's notification; rooms, tasks and the loading, error and filter fields of both stores stay; no double booking is kept |
| ReservationDetail.HandleDelete | src/components/rooms/ReservationDetail.js:92-96 | exactly the reservations with the id are removed; rooms and the loading, error and filter fields stay; identities and no double booking are kept |
| ReservationDetail.JsRem | src/components/rooms/ReservationDetail.js:68 | JavaScript's remainder: Euclidean for a non-negative dividend, the sign of the dividend otherwise |
| ReservationDetail.DetailDuration | src/components/rooms/ReservationDetail.js:65-70 | for a non-negative duration, the whole hours and the leftover minutes (below 60) bracket the duration to the minute |
| ReservationDetail.Offered | src/components/rooms/ReservationDetail.js:171-180 | approve and reject appear together, exactly for an administrator on a pending reservation; extend exactly on a confirmed one; cancel always |
| ReservationsList.VisibleReservations | src/components/rooms/ReservationsList.js:26-56 | the imperative pipeline (user, room and status filters on a copy, sort, cut) yields the list specification |
| ReservationsList.SortedSelectionFacts | src/components/rooms/ReservationsList.js:39-52 | the sort is a permutation of the selection and leaves it in key order for the chosen direction |
| ReservationsList.ListSpecIsPrefix | src/components/rooms/ReservationsList.js:54-56 | the shown list is a prefix of the sorted selection, at most `limit` long when a limit is set, and the whole selection otherwise |
| ReservationsList.ListSpecProperties | src/components/rooms/ReservationsList.js:26-56 | only selected reservations are shown, in key order, at most `limit` of them, all of them when nothing is cut, and in table order under the status sort |
| ReservationsList.ListFooters | src/components/rooms/ReservationsList.js:127-134 | "View all" shows exactly when a limit is set and the selection reaches it; the empty state exactly when there is no limit and nothing is selected |
| ReservationsList.HasConflictFlag | src/components/rooms/ReservationsList.js:115-125 | a row is flagged exactly when it is pending and a confirmed reservation of its room overlaps it |
| ReservationsList.ConflictFlagAgreesWithSlice | src/components/rooms/ReservationsList.js:115-125 | for a pending row of a table with unique positive ids, the flag equals the slice's conflict test |
| ReservationsList.ConflictFlagPredictsApproval | src/components/rooms/ReservationsList.js:115-125 | approving a pending row fails with a conflict exactly when the row is flagged |
| ReservationsList.ShowsReviewControls | src/components/rooms/ReservationsList.js:204 | approve and reject appear exactly for an administrator on a pending row |
| ReservationsList.RoomInfo | src/components/rooms/ReservationsList.js:60 | the room name is never empty and is "Unknown Room" for a missing room |
| ReservationsList.HandleApprove | src/components/rooms/ReservationsList.js:73-99 | the outcome is the approval decision; only on success is the reservation confirmed and the owner notified; a failure records its message as the rooms error and changes no table; loading ends, filters and the task store's status fields stay; no double booking is kept, and confirmed spans stay non-empty when the approved span is |
| ReservationsList.HandleReject | src/components/rooms/ReservationsList.js:101-112 | rejects the reservation and always notifies the owner; rooms, tasks and the loading, error and filter fields of both stores stay; no double booking is kept |
| ReservationForm.ParkingSuggestion | src/components/rooms/ReservationForm.js:8-50 | no advice without a room or without vehicles; a warning exactly when cars or motorcycles exceed the room's capacity (missing capacity counts as 0), naming which is exceeded, with the carpool advice exactly when the cars are |
| ReservationForm.ParkingWarningMonotone | src/components/rooms/ReservationForm.js:14-18 | bringing more vehicles never turns a warning into an all-clear, and never withdraws the carpool advice |
| ReservationForm.PhoneIgnoresSeparator | src/components/rooms/ReservationForm.js:176-181 | a space or hyphen anywhere in the number changes neither the stripped number nor the verdict |
| ReservationForm.AcceptedPhoneIsDigits | src/components/rooms/ReservationForm.js:176-181 | an accepted number, once stripped, is at least ten digits |
| ReservationForm.ErrorsFromByField | src/components/rooms/ReservationForm.js:144-187 | each field gets a message exactly when one of its tests fires, the last test to fire decides the message, and the map is empty exactly when no test fires |
| ReservationForm.FormErrorsByField | src/components/rooms/ReservationForm.js:144-187 | field by field, in terms of the form input: blank title, missing date or times, end not after start, attendees outside 1..capacity, rejected phone, and the message each one leaves |
| ReservationForm.NoErrorsIffValid | src/components/rooms/ReservationForm.js:183-186 | validation passes exactly when every condition of a valid form holds |
| ReservationForm.InitialFormNeedsTitle | src/components/rooms/ReservationForm.js:61-85 | the untouched form, with tomorrow's date filled in, is held back only by the empty title |
| ReservationForm.PrecheckPredictsApproval | src/components/rooms/ReservationForm.js:207-216 | the form's id-less conflict pre-check gives the verdict an approval of the just-added booking would give |
| ReservationForm.CollectErrors | src/components/rooms/ReservationForm.js:144-181 | the imperative filling of the error object yields the specified error map |
| ReservationForm.FormState.constructor | src/components/rooms/ReservationForm.js:75-78 | no errors, no success panel, no reservation id, no conflict warning |
| ReservationForm.FormState.ValidateForm | src/components/rooms/ReservationForm.js:144-187 | stores the error map, clears the conflict warning and returns true exactly for a valid form |
| ReservationForm.Submit | src/components/rooms/ReservationForm.js:191-231 | an invalid form adds nothing; a conflicting booking raises the warning and adds nothing; otherwise the pending reservation is appended and its reducer-assigned id is shown, enabling the share links; rooms and the store's loading, error and filters stay |
| ReservationForm.ForceSubmitAsWritten | src/components/rooms/ReservationForm.js:233-260 | as written: the reservation is appended as pending but no id is recorded, so the share links stay disabled; rooms and the store's loading, error and filters stay; ids stay unique and no double booking is introduced |
| ReservationForm.ForceSubmit | src/components/rooms/ReservationForm.js:233-260 | as intended: the reservation is appended as pending, its assigned id is recorded and the share links work; rooms and the store's loading, error and filters stay; the table keeps its invariants |
| ReservationForm.OptionAtIsTimeText | src/components/rooms/ReservationForm.js:262-275 | each slot value is the zero-padded hour and the minute 00 or 30 |
| ReservationForm.OptionsIncreasing | src/components/rooms/ReservationForm.js:262-275 | slot values increase strictly as strings |
| ReservationForm.OptionsBounds | src/components/rooms/ReservationForm.js:264-267 | the slots run from "08:00" (8:00 AM) to "19:30" (7:30 PM) |
| ReservationForm.GenerateTimeOptions | src/components/rooms/ReservationForm.js:262-275 | the nested loop produces exactly the 24 half-hour slots, in increasing order |
| ReservationForm.DurationParts | src/components/rooms/ReservationForm.js:638-651 | nothing when the end is not after the start; otherwise hours and minutes below 60 that add up to the difference |
| ReservationForm.CalculateDuration | src/components/rooms/ReservationForm.js:638-654 | "Invalid time range" exactly for an end not after the start; otherwise the text starts with the hour count |
| ReservationForm.DurationAgreesWithTimeOrder | src/components/rooms/ReservationForm.js:163-165 | on two `HH:MM` strings, the validation's string comparison and the duration's minute arithmetic agree |
| Tasks.NewTask | src/features/tasks/tasksSlice.js:108-117 | the appended task carries the payload's title, description, status, priority, due date and both assignees, an id above every existing id, no comments, and the current time as creation and update time |
| Tasks.MergeTaskLaws | src/features/tasks/tasksSlice.js:120-131 | an update keeps the id and stamps the update time, repeating it changes nothing more, and a status patch changes only the status |
| Tasks.NewComment | src/features/tasks/tasksSlice.js:144-149 | the new comment has an id above every comment of the task, the author, the text and the current time |
| Tasks.AddCommentEffect | src/features/tasks/tasksSlice.js:139-153 | only the first task with the id changes, by one comment at the end; no task with the id leaves the table unchanged |
| Tasks.NewNotification | src/features/tasks/tasksSlice.js:170-177 | the appended notification is unread and carries the payload, the given id and time |
| Tasks.MarkReadIdempotent | src/features/tasks/tasksSlice.js:180-188 | marking a notification read twice equals marking it once |
| Tasks.MergeTaskFilters | src/features/tasks/tasksSlice.js:156-158 | a filter absent from the payload keeps its old value |
| Tasks.FilteredTasks | src/features/tasks/tasksSlice.js:218-239 | a task is listed exactly when it passes every active status, priority and assignee filter; order is kept; no filters list every task |
| Tasks.SplitByStatus | src/features/tasks/tasksSlice.js:241-249 | each list holds exactly the tasks of its status, as an order-keeping subsequence of the input (the column order of the board) |
| Tasks.SplitByStatusPartition | src/features/tasks/tasksSlice.js:241-249 | a task with an unknown status lands in no list, and the list sizes add up to the tasks of known status |
| Tasks.TaskById | src/features/tasks/tasksSlice.js:215-216 | absent exactly when no task has the id; otherwise the first task with the id, as `find` returns it |
| Tasks.TasksAssignedTo | src/features/tasks/tasksSlice.js:251-260 | exactly the user's tasks, in order |
| Tasks.MyTasks | src/features/tasks/tasksSlice.js:263-267 | nothing without a signed-in user (a missing or zero id); otherwise exactly the user's tasks, in the table's order |
| Tasks.UnreadNotifications | src/features/tasks/tasksSlice.js:254-255 | exactly the unread notifications, as an order-preserving subsequence whose length is the number of unread positions |
| Tasks.TasksStore.constructor | src/features/tasks/tasksSlice.js:4-87 | the five seed tasks, not loading, no error, no filters, no notifications; the seed task ids are unique |
| Tasks.TasksStore.GetTasks | src/features/tasks/tasksSlice.js:94-97 | sets loading and clears the error |
| Tasks.TasksStore.GetTasksSuccess | src/features/tasks/tasksSlice.js:98-101 | replaces the tasks and stops loading |
| Tasks.TasksStore.GetTasksFailure | src/features/tasks/tasksSlice.js:102-105 | stops loading and records the error |
| Tasks.TasksStore.AddTask | src/features/tasks/tasksSlice.js:108-117 | appends the new task, keeps task ids unique |
| Tasks.TasksStore.UpdateTask | src/features/tasks/tasksSlice.js:120-131 | merges the patch into the first task with its id and stamps it |
| Tasks.TasksStore.DeleteTask | src/features/tasks/tasksSlice.js:134-136 | removes every task with the id |
| Tasks.TasksStore.AddComment | src/features/tasks/tasksSlice.js:139-153 | appends the comment to the first task with the id |
| Tasks.TasksStore.SetFilters | src/features/tasks/tasksSlice.js:156-158 | merges the filter payload |
| Tasks.TasksStore.ClearFilters | src/features/tasks/tasksSlice.js:161-167 | resets all three filters |
| Tasks.TasksStore.AddNotification | src/features/tasks/tasksSlice.js:170-177 | appends the unread notification |
| Tasks.TasksStore.MarkNotificationAsRead | src/features/tasks/tasksSlice.js:180-188 | marks the first notification with the id read |
| Tasks.TasksStore.ClearNotifications | src/features/tasks/tasksSlice.js:191-193 | empties the notification list |
| Users.NewUser | src/features/users/usersSlice.js:109-117 | the pushed user carries every payload field, an id above every existing id, the creation time, and is active |
| Users.MergeUserLaws | src/features/users/usersSlice.js:120-130 | an update keeps the id, repeating it changes nothing more, and an empty update changes nothing |
| Users.ToggleTwiceRestores | src/features/users/usersSlice.js:133-140 | toggling a user's status twice gives back the table |
| Users.SingleFieldEdits | src/features/users/usersSlice.js:133-150 | a status toggle or role change touches one field of the first user with the id and nobody else; no user with the id means no change |
| Users.UserById | src/features/users/usersSlice.js:176-177 | absent exactly when no user has the id; otherwise the first user with the id, as `find` returns it |
| Users.ActiveUsers | src/features/users/usersSlice.js:179-180 | exactly the active users, in order |
| Users.UsersByRole | src/features/users/usersSlice.js:182-183 | exactly the users of the role, in order |
| Users.CountUsers | src/features/users/usersSlice.js:185-190 | the total is the table size; active, admins and regular users are the numbers of positions holding an active user, an `admin` and a `user` |
| Users.RoleCountsSplitTotal | src/features/users/usersSlice.js:185-190 | when every role is admin or user, the two role counts add up to the total |
| Users.CountFive | src/features/users/usersSlice.js:185-190 | the count of five users passing a filter is the number of them that pass it |
| Users.MockUserCounts | src/features/users/usersSlice.js:3-66 | the seed table counts five users, four active, two admins and three regular users |
| Users.UsersStore.constructor | src/features/users/usersSlice.js:68-73 | the seed users, not loading, no error, no selected user, unique ids |
| Users.UsersStore.GetUsers | src/features/users/usersSlice.js:80-83 | sets loading and clears the error |
| Users.UsersStore.GetUsersSuccess | src/features/users/usersSlice.js:84-87 | replaces the table and stops loading |
| Users.UsersStore.GetUsersFailure | src/features/users/usersSlice.js:88-91 | stops loading and records the error |
| Users.UsersStore.GetUserById | src/features/users/usersSlice.js:94-98 | sets loading, clears the error and the selected user |
| Users.UsersStore.GetUserByIdSuccess | src/features/users/usersSlice.js:99-102 | selects the fetched user and stops loading |
| Users.UsersStore.GetUserByIdFailure | src/features/users/usersSlice.js:103-106 | stops loading and records the error |
| Users.UsersStore.AddUser | src/features/users/usersSlice.js:109-117 | appends the new, active user, keeps ids unique |
| Users.UsersStore.UpdateUser | src/features/users/usersSlice.js:120-130 | merges the updates into the first user with the id; no such user means no change |
| Users.UsersStore.ToggleUserStatus | src/features/users/usersSlice.js:133-140 | flips the active flag of the first user with the id |
| Users.UsersStore.ChangeUserRole | src/features/users/usersSlice.js:143-150 | sets the role of the first user with the id |
| Users.UsersStore.ClearSelectedUser | src/features/users/usersSlice.js:153-155 | clears the selected user |
| Auth.WithoutPassword | src/features/auth/authSlice.js:100 | the profile keeps every account field except the password |
| Auth.Authenticate | src/features/auth/authSlice.js:91-108 | succeeds exactly when some account has both the username and the password, with the first such account minus its password; otherwise fails with "Invalid username or password" |
| Auth.MockLogins | src/features/auth/authSlice.js:4-44 | the three seed logins work, and a wrong password or unknown name is refused |
| Auth.LoginIdentifiesAccount | src/features/auth/authSlice.js:91-93 | with unique usernames a successful login returns that user's account, whose password is the one given |
| Auth.AuthState.constructor | src/features/auth/authSlice.js:46-53 | nobody signed in, no error, not loading |
| Auth.AuthState.LoginStart | src/features/auth/authSlice.js:59-62 | sets loading and clears the error, keeps the session |
| Auth.AuthState.LoginSuccess | src/features/auth/authSlice.js:63-71 | records user, token and role, signs in, stops loading, clears the error |
| Auth.AuthState.LoginFailure | src/features/auth/authSlice.js:72-75 | records the error and stops loading, keeps the session |
| Auth.AuthState.Logout | src/features/auth/authSlice.js:76-81 | ends the session, leaving error and loading as they were |
| Auth.AuthState.Login | src/features/auth/authSlice.js:86-111 | the result is the credential check; success records the profile, the `fake-jwt-token-` token and the account's role; failure records the error and keeps the old session |
| Theme.Merge | src/features/theme/themeSlice.js:22-24 | a key the payload carries takes the payload's value, every other key keeps its value |
| Theme.MergeIdempotent | src/features/theme/themeSlice.js:22-24 | merging the same payload twice equals merging it once |
| Theme.MergeFullPayload | src/features/theme/themeSlice.js:22-24 | a payload naming all three settings replaces the state whatever it was |
| Theme.MergeEmptyPayload | src/features/theme/themeSlice.js:22-24 | an empty payload changes nothing |
| Theme.SettersCommute | src/features/theme/themeSlice.js:13-21 | setters of different keys commute, and the three setters in turn give exactly their three values |
| Theme.ThemeStore.constructor | src/features/theme/themeSlice.js:3-7 | light theme, blue colour scheme, medium font size |
| Theme.ThemeStore.SetTheme | src/features/theme/themeSlice.js:13-15 | only the theme changes, as a one-key merge |
| Theme.ThemeStore.SetColorScheme | src/features/theme/themeSlice.js:16-18 | only the colour scheme changes, as a one-key merge |
| Theme.ThemeStore.SetFontSize | src/features/theme/themeSlice.js:19-21 | only the font size changes, as a one-key merge |
| Theme.ThemeStore.UpdateThemeSettings | src/features/theme/themeSlice.js:22-24 | the state becomes the merge of the old state and the payload |
| RouteGuard.Guard | src/components/common/ProtectedRoute.js:8-20 | the page renders exactly for an authenticated caller who meets a non-empty required role; an anonymous caller goes to the redirect path (default "/login"), a caller with the wrong role to "/dashboard" |
| RouteGuard.AnonymousIgnoresRoles | src/components/common/ProtectedRoute.js:12-14 | an anonymous caller's redirect does not depend on roles, and is "/login" by default |
| RouteGuard.RequirementOnlyRestricts | src/components/common/ProtectedRoute.js:16-18 | dropping the role requirement never turns an allowed caller away |
| RouteGuard.MatchingRoleAllowed | src/components/common/ProtectedRoute.js:12-20 | a caller holding the required role is let through exactly when authenticated |
| Header.UserNotifications | src/components/layout/Header.js:16-18 | exactly the broadcasts (no or zero user id) and the user's own notifications, in order; without a user only broadcasts |
| Header.UnreadCount | src/components/layout/Header.js:21 | the number of positions of the visible list holding an unread notification; zero exactly when every visible notification is read |
| Header.BadgeFor | src/components/layout/Header.js:172-176 | no badge at zero, "9+" above nine, the single digit otherwise |
| Header.DropdownFor | src/components/layout/Header.js:184-226 | the first (at most) ten visible notifications, "Mark all as read" exactly when there is one, "View all" exactly when some did not fit |
| Header.FloorChain | src/components/layout/Header.js:59-62 | the chain of floored divisions equals one floored division by the unit's length in milliseconds |
| Header.RelativeTime | src/components/layout/Header.js:55-73 | "Just now" exactly under a minute (or in the future), otherwise the count of the largest unit with a positive count |
| Header.RelativeTimeMinutes | src/components/layout/Header.js:68-71 | the minute boundary is at 60000 ms and the plural "s" appears only above one |
| Header.RelativeTimeHoursAndDays | src/components/layout/Header.js:64-67 | one hour reads "1 hour ago" and three days "3 days ago" |
| Header.MarkVisible | src/components/layout/Header.js:48-52 | the list with exactly the visible notifications marked read, in place |
| Header.MarkVisibleClearsUnread | src/components/layout/Header.js:48-52 | after marking all as read the unread count is zero |
| Header.MarkVisibleKeepsVisible | src/components/layout/Header.js:48-52 | marking all as read removes no visible notification |
| Header.OnlyReadStep | src/features/tasks/tasksSlice.js:180-188 | a mark-as-read step only ever sets a read flag |
| Header.MarkStep | src/features/tasks/tasksSlice.js:180-188 | with unique ids a mark-as-read step marks exactly the notification with its id |
| Header.VisibleIdIff | src/components/layout/Header.js:16-18 | with unique ids a notification's id is a visible id exactly when it is visible |
| Header.MarkedVisibleIds | src/components/layout/Header.js:48-52 | marking the ids of the visible notifications marks exactly those |
| Header.ClearStep | src/components/layout/Header.js:49-51 | one turn of the forEach keeps both loop invariants |
| Header.ClearAll | src/components/layout/Header.js:48-52 | the loop only changes read flags, and with unique ids leaves exactly the visible notifications marked read |
| Dashboard.RoomHits | src/pages/Dashboard.js:27-30 | exactly the rooms whose name or description contains the term, case-insensitively, as room results, in the table's order (a subsequence of all rooms' results), which decides the ten that survive the cut |
| Dashboard.TaskHits | src/pages/Dashboard.js:32-35 | exactly the tasks whose title or description contains the term, as task results, in the table's order (a subsequence of all tasks' results) |
| Dashboard.UserHits | src/pages/Dashboard.js:37-44 | for an administrator exactly the users whose name, username or e-mail contains the term, in the table's order (a subsequence of all users' results); nothing otherwise |
| Dashboard.Search | src/pages/Dashboard.js:17-49 | a term under two UTF-16 code units gives empty hidden results; otherwise the first ten hits of rooms, tasks, users; results show exactly when there are some |
| Dashboard.SearchOrdered | src/pages/Dashboard.js:46 | rooms come before tasks and tasks before users |
| Dashboard.SearchSound | src/pages/Dashboard.js:17-49 | every result is a matching entity of its kind, and user results appear only for an administrator |
| Dashboard.SearchComplete | src/pages/Dashboard.js:27-46 | when nothing is cut off, every matching room, task and (for an administrator) user is listed |
| Dashboard.SearchIgnoresCase | src/pages/Dashboard.js:28-42 | the results do not depend on the case of the term |
| Dashboard.DashboardNotifications | src/pages/Dashboard.js:180-184 | exactly the unread notifications whose user id equals the current one, in order |
| Dashboard.DashboardNotificationsAddressed | src/pages/Dashboard.js:180-184 | a signed-in user's panel holds no broadcast, and everything in it is visible and unread in the header |
| TasksPage.ToggleTaskView | src/pages/TasksPage.js:133-137 | the personal view flips and the assignee filter resets |
| TasksPage.ToggleTwice | src/pages/TasksPage.js:133-137 | toggling twice returns to the same view with the assignee filter reset |
| TasksPage.ColumnTasks | src/pages/TasksPage.js:332-358 | a column is empty under another status filter; otherwise it draws the view's tasks, or the filtered tasks of the chosen assignee outside the personal view, kept in the filtered list's order |
| TasksPage.BoardColumnsSound | src/pages/TasksPage.js:111-123 | each column holds only board tasks of its own status, a status filter empties the other columns, the assignee filter and the personal view keep only the right assignee |
| TasksPage.StatusSummary | src/pages/TasksPage.js:194-197 | the total is the sum of the three counts |
| TasksPage.SummaryTotalCountsKnown | src/pages/TasksPage.js:194-197 | the total counts exactly the view's tasks of a known status |
| TasksPage.Drop | src/pages/TasksPage.js:125-127 | only the dropped task changes, in status and update time; notifications, filters, loading and error stay; task ids stay unique |
| TasksPage.TasksToExport | src/pages/TasksPage.js:153-165 | the successive reassignments yield the tasks the export predicate keeps |
| TasksPage.PersonalExportIgnoresAssignee | src/pages/TasksPage.js:153-161 | in the personal view the assignee filter plays no part and only the user's tasks are exported |
| TasksPage.CsvTasks | src/pages/TasksPage.js:217-232 | every task, or the user's own in the personal view, in the table's order; no other filter applies |
| TasksPage.ExportWithinCsv | src/pages/TasksPage.js:153-232 | the PDF rows are among the CSV rows |
| TasksPage.StatusLabel | src/pages/TasksPage.js:171-172 | the label is one of the three column titles |
| TasksPage.StatusLabels | src/pages/TasksPage.js:225-226 | the three known statuses get their titles and any other status is labelled "Completed" |
| TasksPage.AssigneeName | src/pages/TasksPage.js:103-107 | the name of users 1 to 3 from the page's own list, "Unknown" for anyone else |
| RoomDetail.Capitalize | src/components/rooms/RoomDetail.js:42 | same length, first character upper-cased, the rest unchanged |
| RoomDetail.UpperKeepsPunctuation | src/components/rooms/RoomDetail.js:42 | upper-casing neither creates nor removes a hyphen or a space |
| RoomDetail.CapitalizeChars | src/components/rooms/RoomDetail.js:42 | a word holds a hyphen or space exactly when its capitalized form does |
| RoomDetail.FormatAmenityHasNoHyphen | src/components/rooms/RoomDetail.js:39-44 | the label contains no hyphen |
| RoomDetail.FormatAmenityWords | src/components/rooms/RoomDetail.js:39-44 | for an amenity without spaces, the label has one word per hyphen-separated piece (hyphens plus one), each the capitalized piece |
| RoomDetail.FormatSingleWord | src/components/rooms/RoomDetail.js:39-44 | an amenity without hyphens is just capitalized |
| RoomDetail.FormatTwoPieces | src/components/rooms/RoomDetail.js:39-44 | a two-piece amenity becomes its two capitalized pieces around one space |
| RoomDetail.CapitalizeExample | src/components/rooms/RoomDetail.js:42 | "video" and "conferencing" capitalize to "Video Conferencing" |
| RoomDetail.Upcoming | src/components/rooms/RoomDetail.js:171-211 | the first (at most) three reservations of the room, "View all" exactly when there are more, the empty message exactly when there are none |
| RoomDetail.StatusCaption | src/components/rooms/RoomDetail.js:190 | the caption is as long as the status name |
| RoomDetail.StatusCaptions | src/components/rooms/RoomDetail.js:190 | the four statuses read "Pending", "Confirmed", "Rejected", "Cancelled" |
| Text.NatToString | src/components/layout/Header.js:65-69 | a non-empty digit string without a leading zero, one digit exactly below ten |
| Text.DigitsValueOfNatToString | src/components/layout/Header.js:65-69 | reading back the rendered number gives the number |
| Text.Pad2 | src/components/rooms/ReservationForm.js:266 | two digits whose value is the number |
| Text.TimeTextLess | src/components/rooms/ReservationForm.js:163-165 | on zero-padded `HH:MM` strings the string order is the order of the times |
| Text.Lower | src/pages/Dashboard.js:28 | same length, each character lower-cased (ASCII) |
| Text.LowerIdempotent | src/pages/Dashboard.js:28 | lower-casing twice is lower-casing once |
| Text.Utf16Length | src/pages/Dashboard.js:21 | `term.length`: at least the number of characters, and exactly that when no character lies beyond the Basic Multilingual Plane |
| Text.Utf16LengthSurrogatePair | src/pages/Dashboard.js:21 | a single emoji has length 2, so a one-emoji term is searched |
| Text.ContainsIff | src/pages/Dashboard.js:28 | `includes` holds exactly when the term occurs at some position |
| Text.TrimEmptyIffBlank | src/components/rooms/ReservationForm.js:147-149 | a trimmed title is empty exactly when every character is white space |
| Text.SplitPieces | src/components/rooms/RoomDetail.js:41 | one piece more than there are separators, none holding a separator |
| Text.JoinSplit | src/components/rooms/RoomDetail.js:41-43 | joining the pieces with the separator gives back the string |
| Text.SplitJoin | src/components/rooms/RoomDetail.js:41-43 | splitting a join of separator-free pieces gives back the pieces |
| Seqs.Filter | src/features/rooms/roomsSlice.js:171-176 | the kept elements are exactly those satisfying the test, never more than the input |
| Seqs.FilterCountsPositions | src/features/users/usersSlice.js:185-190 | the length of a `filter` is the number of positions whose element passes |
| Seqs.MapFilterIsSubsequence | src/pages/Dashboard.js:27-44 | mapping the filtered items gives an order-keeping subsequence of mapping all items |
| Seqs.Take | src/pages/Dashboard.js:46 | the first `n` elements, or all when there are fewer |
| Seqs.MaxOrZero | src/features/rooms/roomsSlice.js:236 | at least 0 and every id, and either 0 or one of the ids |
| Seqs.NextIsFresh | src/features/rooms/roomsSlice.js:236 | the next id is above every existing id |
| Seqs.FirstIndex | src/features/rooms/roomsSlice.js:224 | `findIndex`: -1 exactly when no element passes, otherwise the position of the first one that does |
| Seqs.Find | src/features/rooms/roomsSlice.js:193 | `find`: absent exactly when no element passes, otherwise the first one that does |
| Seqs.UpdateFirst | src/features/rooms/roomsSlice.js:224-227 | the element at the first passing position is replaced by its update, every other element is kept, and nothing changes when none passes |
| Seqs.UpdateFirstIdempotent | src/features/rooms/roomsSlice.js:250-255 | an update that keeps the element passing and repeats to itself changes nothing the second time |
| Seqs.SortByKeyCorrect | src/components/rooms/ReservationsList.js:39-52 | the sort gives a permutation of its input in key order |

## Left out

- Date handling: parsing and formatting (`new Date(...)`, `toISOString`, `toLocaleString`, `toLocaleDateString`) is outside the model. Instants are integers of milliseconds, and the form's date and time fields are turned into instants outside the model. The seed reservations' local date-times are read as if the local zone were UTC; a fixed offset shifts every instant alike and changes no overlap.
- Money: `calculateCost` and `formatRupiah` work on floating point, and `utils/formatters` is not part of this model.
- Percentages: the `toFixed` percentages of the task summary are floating point and are left out. Only the counts are modelled.
- `reportsSlice.js` builds its data from `Math.random()` and the clock, so it is nondeterministic and left out.
- Export plumbing: the jsPDF and react-csv calls, the file names and the due-date column (a date format) are left out. Which tasks are exported, and their status labels, are modelled.
- Share links: the iCalendar invite text and the WhatsApp link builder of the booking form are left out. Only the rule that both links are `'#'` without a reservation id is kept (`ReservationForm.ShareLinksAvailable`).
- Asynchrony: `createAsyncThunk` and `unwrapResult` become a synchronous `Result`. `setTimeout` delays, the login delay and navigation after the delays are left out. The random tail of the login token is a parameter.
- Notification ids come from `Date.now()` and creation times from the clock. Both are parameters of the handlers.
- React and the browser: rendering and hooks, routing tables, `navigate`, `alert`, `prompt` (its parsed answer is a parameter), `window.scrollTo`, CSS class helpers such as `getStatusClass`, and the redux-persist configuration are left out.
- Navigation on a notification click (`handleNotificationClick`) is left out. Its store effect is `Tasks.TasksStore.MarkNotificationAsRead`.
- Form-only screens are left out: settings, the user, task and room forms, registration, the user and task detail pages, and the rooms page filter form. They only copy fields into payloads.
- Text: upper- and lower-casing are modelled on ASCII letters only. Unicode case mapping is not modelled.
- Theme payloads: a theme payload carrying keys other than the three settings is not modelled. Those extra keys would be added to the stored object.
- The hook called after an early return (`src/components/rooms/ReservationDetail.js:52`) is not specified as behaviour; it does not change what the screen computes.
- Header.DropdownFor: its `viewAllShown` flag says when the header means to offer "View all notifications". The header renders that entry with `Link`, which `src/components/layout/Header.js:2` never imports, so with more than ten visible notifications and the dropdown open the render throws instead of showing the entry. The model states the intended flag and does not model the failed render.
- ReservationDetail.DetailDuration: states the hour and minute arithmetic for non-negative durations only. The `jam`/`menit` text around the numbers is not built.
- ReservationForm.CalculateDuration: states the invalid case and that the text starts with the hour count. The plural endings and the minute part are in the body only.
- Header.ClearAll: the exact outcome (every visible notification marked read, nothing else changed) is proved only when notification ids are unique. The reducer marks the first notification carrying an id, and `Date.now()` ids can repeat. Without unique ids the method still only sets `read` flags.
- Rooms.ApproveKeepsNoDoubleBooking: assumes unique, positive reservation ids. The seed table has them and the reducers keep them (`Rooms.RoomsStore.Valid`, established by `Rooms.RoomsStore.constructor`). The conflict test's `id || -1` would let a reservation with id 0 count as a rival of itself.
- Rooms.ExtendKeepsNoDoubleBooking: assumes every confirmed reservation has a non-empty span. `Rooms.ExtendNeedsProperIntervals` shows a zero-length confirmed booking at the old end that the window test misses. That assumption can fail in the application. Force-submit (`src/components/rooms/ReservationForm.js:233-246`) builds the booking without `validateForm`. Its button stays on screen while the conflict warning is up, and editing the times (`src/components/rooms/ReservationForm.js:131-141`) does not clear the warning. So a user can force-submit a pending span whose end is at or before its start. The approval's strict overlap test never blocks such a span (`Rooms.ApproveAdmitsEmptySpan`), and once it is confirmed an extension can double-book the room (`ReservationDetail.ForcedEmptySpanDefeatsExtendCheck`). Approval keeps spans non-empty only when the approved span is non-empty (`Rooms.ApproveKeepsProperIntervals`). Extending keeps spans non-empty (`ReservationDetail.ExtendKeepsProperIntervals`). The unguarded `updateReservation` can also create an empty span.
- TasksPage.StatusSummary: states the total as the sum of the three counts. The partition of the board's tasks is proved separately (`TasksPage.SummaryTotalCountsKnown`).

## Findings

| source | as written | input that shows it | evidently intended | confidence | as-written member | corrected member |
|---|---|---|---|---|---|---|
| src/components/rooms/ReservationForm.js:248-250 | force-submit takes the new id from `action.payload.id`, but the dispatched payload has no `id`: the reducer assigns it inside the store | any force-submit after a conflict warning, for example into an empty table, where the reducer assigns id 1 | record the id the reducer assigned, as `handleSubmit` does, so that the WhatsApp and calendar links work | not executed | ReservationForm.ForceSubmitAsWritten | ReservationForm.ForceSubmit |
