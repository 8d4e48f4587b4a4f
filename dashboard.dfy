/** The dashboard (src/pages/Dashboard.js): the search box over rooms, tasks and users, and the
    list of the signed-in user's unread notifications. Letters are compared ASCII case-insensitively. */
module Dashboard {
  import opened Wrappers
  import opened Seqs
  import opened Text
  import Rooms
  import Tasks
  import Users
  import Header

  // ---------------------------------------------------------------------------
  // Search

  datatype ResultKind = RoomResult | TaskResult | UserResult

  datatype SearchResult = SearchResult(kind: ResultKind, id: int, title: string, description: string)

  /** What `handleSearch` leaves in the component state. */
  datatype SearchState = SearchState(term: string, results: seq<SearchResult>, showResults: bool)

  const MinTermLength := 2
  const MaxResults := 10
  const Bullet := " \U{2022} "

  /** `field.toLowerCase().includes(term.toLowerCase())`. */
  predicate Mentions(field: string, term: string)
  {
    Contains(Lower(field), Lower(term))
  }

  function RoomMatches(term: string): Rooms.Room -> bool
  {
    (r: Rooms.Room) => Mentions(r.name, term) || Mentions(r.description, term)
  }

  function TaskMatches(term: string): Tasks.Task -> bool
  {
    (t: Tasks.Task) => Mentions(t.title, term) || Mentions(t.description, term)
  }

  function UserMatches(term: string): Users.User -> bool
  {
    (u: Users.User) => Mentions(u.name, term) || Mentions(u.username, term) || Mentions(u.email, term)
  }

  function RoomItem(r: Rooms.Room): SearchResult
  {
    SearchResult(RoomResult, r.id, r.name, r.roomType + Bullet + "Floor " + IntToString(r.floor))
  }

  function TaskItem(t: Tasks.Task): SearchResult
  {
    SearchResult(TaskResult, t.id, t.title, t.status + Bullet + t.priority + " priority")
  }

  function UserItem(u: Users.User): SearchResult
  {
    SearchResult(UserResult, u.id, u.name, u.role + Bullet + u.department)
  }

  /** The matching rooms as results. */
  function RoomHits(term: string, rooms: seq<Rooms.Room>): (hs: seq<SearchResult>)
    ensures forall h :: h in hs ==> h.kind == RoomResult && exists r :: r in rooms && RoomMatches(term)(r) && h == RoomItem(r)
    ensures forall r :: r in rooms && RoomMatches(term)(r) ==> RoomItem(r) in hs
    ensures IsSubsequence(hs, Map(rooms, RoomItem))
  {
    MapFilterIsSubsequence(rooms, RoomMatches(term), RoomItem);
    var rs := Filter(rooms, RoomMatches(term));
    forall r | r in rs ensures RoomItem(r) in Map(rs, RoomItem) {
      var i :| 0 <= i < |rs| && rs[i] == r;
      assert Map(rs, RoomItem)[i] == RoomItem(r);
    }
    Map(rs, RoomItem)
  }

  /** The matching tasks as results. */
  function TaskHits(term: string, tasks: seq<Tasks.Task>): (hs: seq<SearchResult>)
    ensures forall h :: h in hs ==> h.kind == TaskResult && exists t :: t in tasks && TaskMatches(term)(t) && h == TaskItem(t)
    ensures forall t :: t in tasks && TaskMatches(term)(t) ==> TaskItem(t) in hs
    ensures IsSubsequence(hs, Map(tasks, TaskItem))
  {
    MapFilterIsSubsequence(tasks, TaskMatches(term), TaskItem);
    var ts := Filter(tasks, TaskMatches(term));
    forall t | t in ts ensures TaskItem(t) in Map(ts, TaskItem) {
      var i :| 0 <= i < |ts| && ts[i] == t;
      assert Map(ts, TaskItem)[i] == TaskItem(t);
    }
    Map(ts, TaskItem)
  }

  /** The matching users as results, only for an administrator. */
  function UserHits(term: string, users: seq<Users.User>, role: string): (hs: seq<SearchResult>)
    ensures forall h :: h in hs ==>
      h.kind == UserResult && role == "admin" && exists u :: u in users && UserMatches(term)(u) && h == UserItem(u)
    ensures role == "admin" ==> forall u :: u in users && UserMatches(term)(u) ==> UserItem(u) in hs
    ensures IsSubsequence(hs, Map(users, UserItem))
  {
    MapFilterIsSubsequence(users, UserMatches(term), UserItem);
    var us := if role == "admin" then Filter(users, UserMatches(term)) else [];
    forall u | u in us ensures UserItem(u) in Map(us, UserItem) {
      var i :| 0 <= i < |us| && us[i] == u;
      assert Map(us, UserItem)[i] == UserItem(u);
    }
    Map(us, UserItem)
  }

  /** Every hit before truncation: rooms, then tasks, then users. */
  function AllHits(term: string, rooms: seq<Rooms.Room>, tasks: seq<Tasks.Task>, users: seq<Users.User>,
                   role: string): seq<SearchResult>
  {
    RoomHits(term, rooms) + TaskHits(term, tasks) + UserHits(term, users, role)
  }

  /** The rank of a kind in the result list. */
  function KindRank(k: ResultKind): nat
  {
    match k
    case RoomResult => 0
    case TaskResult => 1
    case UserResult => 2
  }

  /** `handleSearch`. */
  function Search(term: string, rooms: seq<Rooms.Room>, tasks: seq<Tasks.Task>, users: seq<Users.User>,
                  role: string): (s: SearchState)
    ensures s.term == term
    ensures Utf16Length(term) < MinTermLength ==> s.results == [] && !s.showResults
    ensures Utf16Length(term) >= MinTermLength ==> s.results == Take(AllHits(term, rooms, tasks, users, role), MaxResults)
    ensures |s.results| <= MaxResults
    ensures s.showResults <==> s.results != []
  {
    if Utf16Length(term) < MinTermLength then SearchState(term, [], false)
    else
      var results := Take(AllHits(term, rooms, tasks, users, role), MaxResults);
      SearchState(term, results, |results| > 0)
  }

  /** The rank of each hit follows from the block it lies in. */
  lemma HitRanks(a: seq<SearchResult>, b: seq<SearchResult>, c: seq<SearchResult>)
    requires forall h :: h in a ==> h.kind == RoomResult
    requires forall h :: h in b ==> h.kind == TaskResult
    requires forall h :: h in c ==> h.kind == UserResult
    ensures forall i, j :: 0 <= i < j < |a + b + c| ==> KindRank((a + b + c)[i].kind) <= KindRank((a + b + c)[j].kind)
  {
    var hits := a + b + c;
    forall i | 0 <= i < |hits|
      ensures KindRank(hits[i].kind) == if i < |a| then 0 else if i < |a| + |b| then 1 else 2
    {
      if i < |a| { assert hits[i] == a[i] && a[i] in a; }
      else if i < |a| + |b| { assert hits[i] == b[i - |a|] && b[i - |a|] in b; }
      else { assert hits[i] == c[i - |a| - |b|] && c[i - |a| - |b|] in c; }
    }
  }

  /** Rooms come before tasks, and tasks before users. */
  lemma {:induction false} SearchOrdered(term: string, rooms: seq<Rooms.Room>, tasks: seq<Tasks.Task>,
                                         users: seq<Users.User>, role: string)
    ensures var rs := Search(term, rooms, tasks, users, role).results;
      forall i, j :: 0 <= i < j < |rs| ==> KindRank(rs[i].kind) <= KindRank(rs[j].kind)
  {
    var hits := AllHits(term, rooms, tasks, users, role);
    HitRanks(RoomHits(term, rooms), TaskHits(term, tasks), UserHits(term, users, role));
    var rs := Search(term, rooms, tasks, users, role).results;
    if Utf16Length(term) >= MinTermLength {
      assert rs == Take(hits, MaxResults);
      assert forall i :: 0 <= i < |rs| ==> rs[i] == hits[i];
    }
  }

  /** Every result is a matching entity, and users show up only for an administrator. */
  lemma SearchSound(term: string, rooms: seq<Rooms.Room>, tasks: seq<Tasks.Task>, users: seq<Users.User>,
                    role: string, h: SearchResult)
    requires h in Search(term, rooms, tasks, users, role).results
    ensures Utf16Length(term) >= MinTermLength
    ensures h.kind == RoomResult ==> exists r :: r in rooms && RoomMatches(term)(r) && h == RoomItem(r)
    ensures h.kind == TaskResult ==> exists t :: t in tasks && TaskMatches(term)(t) && h == TaskItem(t)
    ensures h.kind == UserResult ==> role == "admin" && exists u :: u in users && UserMatches(term)(u) && h == UserItem(u)
  {
    var a := RoomHits(term, rooms);
    var b := TaskHits(term, tasks);
    var c := UserHits(term, users, role);
    var results := Search(term, rooms, tasks, users, role).results;
    var i :| 0 <= i < |results| && results[i] == h;
    assert h == (a + b + c)[i];
    assert h in a || h in b || h in c;
  }

  /** When nothing is cut off, every matching room, task and (for an administrator) user is listed. */
  lemma SearchComplete(term: string, rooms: seq<Rooms.Room>, tasks: seq<Tasks.Task>, users: seq<Users.User>,
                       role: string)
    requires Utf16Length(term) >= MinTermLength && |AllHits(term, rooms, tasks, users, role)| <= MaxResults
    ensures var rs := Search(term, rooms, tasks, users, role).results;
      (forall r :: r in rooms && RoomMatches(term)(r) ==> RoomItem(r) in rs) &&
      (forall t :: t in tasks && TaskMatches(term)(t) ==> TaskItem(t) in rs) &&
      (role == "admin" ==> forall u :: u in users && UserMatches(term)(u) ==> UserItem(u) in rs)
  {
  }

  /** The search does not depend on the case of the term. */
  lemma SearchIgnoresCase(term: string, rooms: seq<Rooms.Room>, tasks: seq<Tasks.Task>, users: seq<Users.User>,
                          role: string)
    ensures Search(Lower(term), rooms, tasks, users, role).results == Search(term, rooms, tasks, users, role).results
  {
    LowerIdempotent(term);
    Utf16LengthLower(term);
    FilterCongruent(rooms, RoomMatches(Lower(term)), RoomMatches(term));
    FilterCongruent(tasks, TaskMatches(Lower(term)), TaskMatches(term));
    FilterCongruent(users, UserMatches(Lower(term)), UserMatches(term));
  }

  // ---------------------------------------------------------------------------
  // Notifications panel

  /** `notifications.filter(n => n.userId === user?.id && !n.read)`. */
  function DashboardNotifications(ns: seq<Tasks.Notification>, currentUserId: Option<int>): (r: seq<Tasks.Notification>)
    ensures forall n :: n in r <==> n in ns && n.userId == currentUserId && !n.read
    ensures IsSubsequence(r, ns)
  {
    var p := (n: Tasks.Notification) => n.userId == currentUserId && !n.read;
    FilterIsSubsequence(ns, p);
    Filter(ns, p)
  }

  /** A signed-in user's panel holds no broadcast, and everything in it is an unread notification
      the header shows too. */
  lemma DashboardNotificationsAddressed(ns: seq<Tasks.Notification>, currentUserId: Option<int>)
    ensures currentUserId.Some? ==> forall n :: n in DashboardNotifications(ns, currentUserId) ==> n.userId == currentUserId
    ensures forall n :: n in DashboardNotifications(ns, currentUserId) ==>
      n in Header.UserNotifications(ns, currentUserId) && !n.read
  {
  }
}
