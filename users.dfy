/** The users slice (src/features/users/usersSlice.js): the user table with its seed accounts,
    the reducers that add, edit, activate and re-role users, and the counting selectors.
    Creation times are the ISO strings the reducer's clock produces, handed in as `now`. */
module Users {
  import opened Wrappers
  import opened Seqs

  datatype User = User(
    id: int, username: string, name: string, email: string, role: string,
    department: string, position: string, avatar: string, isActive: bool, createdAt: string)

  /** What the user form hands to `addUser`. */
  datatype UserDraft = UserDraft(
    username: string, name: string, email: string, role: string,
    department: string, position: string, avatar: string, isActive: bool)

  /** The `updates` of `updateUser`: every field but `id`, each one optional. */
  datatype UserPatch = UserPatch(
    id: int, username: Option<string>, name: Option<string>, email: Option<string>,
    role: Option<string>, department: Option<string>, position: Option<string>,
    avatar: Option<string>, isActive: Option<bool>, createdAt: Option<string>)

  function UserKey(u: User): int { u.id }

  function UserHasId(id: int): User -> bool { (u: User) => u.id == id }

  predicate IsActive(u: User) { u.isActive }

  function HasRole(role: string): User -> bool { (u: User) => u.role == role }

  /** The seed table. */
  const MockUsers: seq<User> := [AdminUser, RegularUser, JohnDoe, JaneSmith, SarahJohnson]

  const AdminUser := User(1, "admin", "Admin User", "admin@example.com", "admin", "Management",
    "System Administrator", "https://randomuser.me/api/portraits/men/1.jpg", true, "2023-01-15T10:30:00")
  const RegularUser := User(2, "user1", "Regular User", "user1@example.com", "user", "Marketing",
    "Marketing Specialist", "https://randomuser.me/api/portraits/women/2.jpg", true, "2023-02-20T14:45:00")
  const JohnDoe := User(3, "user2", "John Doe", "john.doe@example.com", "user", "Development",
    "Full Stack Developer", "https://randomuser.me/api/portraits/men/3.jpg", true, "2023-03-10T09:15:00")
  const JaneSmith := User(4, "user3", "Jane Smith", "jane.smith@example.com", "user", "Design",
    "UI/UX Designer", "https://randomuser.me/api/portraits/women/4.jpg", false, "2023-03-25T11:20:00")
  const SarahJohnson := User(5, "admin2", "Sarah Johnson", "sarah.j@example.com", "admin", "Operations",
    "Operations Manager", "https://randomuser.me/api/portraits/women/5.jpg", true, "2023-04-05T08:30:00")

  // ---------------------------------------------------------------------------
  // Record builders

  /** The user `addUser` pushes: the payload with a fresh id, the creation time, and active. */
  function NewUser(users: seq<User>, d: UserDraft, now: string): (u: User)
    ensures u.id >= 1 && forall i :: 0 <= i < |users| ==> users[i].id < u.id
    ensures u.isActive && u.createdAt == now
    ensures u.username == d.username && u.name == d.name && u.email == d.email && u.role == d.role
    ensures u.department == d.department && u.position == d.position && u.avatar == d.avatar
  {
    User(NextKey(users, UserKey), d.username, d.name, d.email, d.role, d.department, d.position,
         d.avatar, true, now)
  }

  /** `{ ...user, ...updates }` with the id taken out of the updates. */
  function MergeUser(p: UserPatch): User -> User
  {
    (u: User) => u.(username := GetOr(p.username, u.username), name := GetOr(p.name, u.name),
                    email := GetOr(p.email, u.email), role := GetOr(p.role, u.role),
                    department := GetOr(p.department, u.department), position := GetOr(p.position, u.position),
                    avatar := GetOr(p.avatar, u.avatar), isActive := GetOr(p.isActive, u.isActive),
                    createdAt := GetOr(p.createdAt, u.createdAt))
  }

  /** `isActive = !isActive`. */
  function Toggle(u: User): User { u.(isActive := !u.isActive) }

  function WithRole(role: string): User -> User { (u: User) => u.(role := role) }

  /** A merge keeps the id, applying it twice changes nothing more, and an empty patch is no change. */
  lemma MergeUserLaws(p: UserPatch, u: User)
    ensures MergeUser(p)(u).id == u.id
    ensures MergeUser(p)(MergeUser(p)(u)) == MergeUser(p)(u)
    ensures MergeUser(UserPatch(p.id, None, None, None, None, None, None, None, None, None))(u) == u
  {
  }

  /** Toggling the status of `id` twice gives back the table. */
  lemma ToggleTwiceRestores(users: seq<User>, id: int)
    ensures UpdateFirst(UpdateFirst(users, UserHasId(id), Toggle), UserHasId(id), Toggle) == users
  {
    UpdateFirstInvolution(users, UserHasId(id), Toggle);
  }

  /** A status toggle or a role change touches one field of the first user with that id, and
      nobody else. */
  lemma SingleFieldEdits(users: seq<User>, id: int, role: string)
    ensures var k := FirstIndex(users, UserHasId(id));
      var toggled := UpdateFirst(users, UserHasId(id), Toggle);
      var reroled := UpdateFirst(users, UserHasId(id), WithRole(role));
      (k == -1 ==> toggled == users && reroled == users) &&
      (k != -1 ==> toggled == users[k := users[k].(isActive := !users[k].isActive)] &&
                   reroled == users[k := users[k].(role := role)])
  {
    var k := FirstIndex(users, UserHasId(id));
    if k != -1 {
      assert UpdateFirst(users, UserHasId(id), Toggle) == users[k := Toggle(users[k])];
      assert UpdateFirst(users, UserHasId(id), WithRole(role)) == users[k := WithRole(role)(users[k])];
    }
  }

  // ---------------------------------------------------------------------------
  // Selectors

  /** `selectUserById`. */
  function UserById(users: seq<User>, id: int): (r: Option<User>)
    ensures r.None? <==> forall j :: 0 <= j < |users| ==> users[j].id != id
    ensures r.Some? ==> r.value == users[FirstIndex(users, UserHasId(id))] && r.value.id == id
  {
    Find(users, UserHasId(id))
  }

  /** `selectActiveUsers`. */
  function ActiveUsers(users: seq<User>): (r: seq<User>)
    ensures forall u :: u in r <==> u in users && u.isActive
    ensures IsSubsequence(r, users)
  {
    FilterIsSubsequence(users, IsActive);
    Filter(users, IsActive)
  }

  /** `selectUsersByRole`. */
  function UsersByRole(users: seq<User>, role: string): (r: seq<User>)
    ensures forall u :: u in r <==> u in users && u.role == role
    ensures IsSubsequence(r, users)
  {
    FilterIsSubsequence(users, HasRole(role));
    Filter(users, HasRole(role))
  }

  datatype UserCount = UserCount(total: nat, active: nat, admins: nat, regularUsers: nat)

  /** `selectUserCount`. */
  function CountUsers(users: seq<User>): (c: UserCount)
    ensures c.total == |users|
    ensures c.active == |set i | 0 <= i < |users| && users[i].isActive|
    ensures c.admins == |set i | 0 <= i < |users| && users[i].role == "admin"|
    ensures c.regularUsers == |set i | 0 <= i < |users| && users[i].role == "user"|
    ensures c.active <= c.total && c.admins <= c.total && c.regularUsers <= c.total
  {
    FilterCountsPositions(users, IsActive);
    FilterCountsPositions(users, HasRole("admin"));
    FilterCountsPositions(users, HasRole("user"));
    assert Positions(users, IsActive) == set i | 0 <= i < |users| && users[i].isActive;
    assert Positions(users, HasRole("admin")) == set i | 0 <= i < |users| && users[i].role == "admin";
    assert Positions(users, HasRole("user")) == set i | 0 <= i < |users| && users[i].role == "user";
    UserCount(|users|, |ActiveUsers(users)|, |UsersByRole(users, "admin")|, |UsersByRole(users, "user")|)
  }

  predicate AdminOrUser(u: User) { u.role == "admin" || u.role == "user" }

  /** When every role is `admin` or `user`, the two role counts split the total. */
  lemma RoleCountsSplitTotal(users: seq<User>)
    requires forall u :: u in users ==> AdminOrUser(u)
    ensures CountUsers(users).admins + CountUsers(users).regularUsers == CountUsers(users).total
  {
    FilterSplitCount(users, HasRole("admin"), HasRole("user"), AdminOrUser);
    FilterAll(users, AdminOrUser);
  }

  /** How many of five users pass a filter. */
  lemma CountFive(a: User, b: User, c: User, d: User, e: User, p: User -> bool)
    ensures |Filter([a, b, c, d, e], p)| ==
      (if p(a) then 1 else 0) + (if p(b) then 1 else 0) + (if p(c) then 1 else 0) +
      (if p(d) then 1 else 0) + (if p(e) then 1 else 0)
  {
    assert [a, b, c, d, e] == [a] + [b, c, d, e];
    assert [b, c, d, e] == [b] + [c, d, e];
    assert [c, d, e] == [c] + [d, e];
    assert [d, e] == [d] + [e];
    assert [e] == [e] + [];
    FilterCons(a, [b, c, d, e], p);
    FilterCons(b, [c, d, e], p);
    FilterCons(c, [d, e], p);
    FilterCons(d, [e], p);
    FilterCons(e, [], p);
  }

  /** The seed table: five users, four active, two admins and three regular users. */
  lemma MockUserCounts()
    ensures CountUsers(MockUsers) == UserCount(5, 4, 2, 3)
  {
    CountFive(AdminUser, RegularUser, JohnDoe, JaneSmith, SarahJohnson, IsActive);
    CountFive(AdminUser, RegularUser, JohnDoe, JaneSmith, SarahJohnson, HasRole("admin"));
    CountFive(AdminUser, RegularUser, JohnDoe, JaneSmith, SarahJohnson, HasRole("user"));
  }

  // ---------------------------------------------------------------------------
  // The store

  class UsersStore {
    var users: seq<User>
    var loading: bool
    var error: Option<string>
    var selectedUser: Option<User>

    /** User ids are unique. */
    ghost predicate Valid()
      reads this
    {
      UniqueBy(users, UserKey)
    }

    constructor()
      ensures users == MockUsers && !loading && error.None? && selectedUser.None?
      ensures Valid()
    {
      users := MockUsers;
      loading := false;
      error := None;
      selectedUser := None;
    }

    method GetUsers()
      modifies this
      ensures loading && error.None? && users == old(users) && selectedUser == old(selectedUser)
    {
      loading := true;
      error := None;
    }

    /** A fetched table replaces the current one. */
    method GetUsersSuccess(payload: seq<User>)
      modifies this
      ensures users == payload && !loading && error == old(error) && selectedUser == old(selectedUser)
      ensures UniqueBy(payload, UserKey) ==> Valid()
    {
      users := payload;
      loading := false;
    }

    method GetUsersFailure(message: string)
      modifies this
      ensures !loading && error == Some(message) && users == old(users) && selectedUser == old(selectedUser)
    {
      loading := false;
      error := Some(message);
    }

    method GetUserById()
      modifies this
      ensures loading && error.None? && selectedUser.None? && users == old(users)
    {
      loading := true;
      error := None;
      selectedUser := None;
    }

    method GetUserByIdSuccess(u: User)
      modifies this
      ensures selectedUser == Some(u) && !loading && error == old(error) && users == old(users)
    {
      selectedUser := Some(u);
      loading := false;
    }

    method GetUserByIdFailure(message: string)
      modifies this
      ensures !loading && error == Some(message) && users == old(users) && selectedUser == old(selectedUser)
    {
      loading := false;
      error := Some(message);
    }

    /** `addUser`: append the payload under a fresh id, active whatever the payload says. */
    method AddUser(d: UserDraft, now: string)
      modifies this
      ensures users == old(users) + [NewUser(old(users), d, now)]
      ensures users[|users| - 1].isActive
      ensures loading == old(loading) && error == old(error) && selectedUser == old(selectedUser)
      ensures old(Valid()) ==> Valid()
    {
      var u := NewUser(users, d, now);
      if Valid() { UniqueByAppendFresh(users, UserKey, u); }
      users := users + [u];
    }

    /** `updateUser`: merge the updates into the first user with the id; no-op when absent. */
    method UpdateUser(p: UserPatch)
      modifies this
      ensures users == UpdateFirst(old(users), UserHasId(p.id), MergeUser(p))
      ensures FirstIndex(old(users), UserHasId(p.id)) == -1 ==> users == old(users)
      ensures loading == old(loading) && error == old(error) && selectedUser == old(selectedUser)
      ensures old(Valid()) ==> Valid()
    {
      var updated := UpdateFirst(users, UserHasId(p.id), MergeUser(p));
      if Valid() { UniqueBySameKeys(users, updated, UserKey); }
      users := updated;
    }

    /** `toggleUserStatus`: flip `isActive` of the first user with the id. */
    method ToggleUserStatus(id: int)
      modifies this
      ensures users == UpdateFirst(old(users), UserHasId(id), Toggle)
      ensures loading == old(loading) && error == old(error) && selectedUser == old(selectedUser)
      ensures old(Valid()) ==> Valid()
    {
      var updated := UpdateFirst(users, UserHasId(id), Toggle);
      if Valid() { UniqueBySameKeys(users, updated, UserKey); }
      users := updated;
    }

    /** `changeUserRole`: set the role of the first user with the id. */
    method ChangeUserRole(id: int, role: string)
      modifies this
      ensures users == UpdateFirst(old(users), UserHasId(id), WithRole(role))
      ensures loading == old(loading) && error == old(error) && selectedUser == old(selectedUser)
      ensures old(Valid()) ==> Valid()
    {
      var updated := UpdateFirst(users, UserHasId(id), WithRole(role));
      if Valid() { UniqueBySameKeys(users, updated, UserKey); }
      users := updated;
    }

    method ClearSelectedUser()
      modifies this
      ensures selectedUser.None? && users == old(users) && loading == old(loading) && error == old(error)
    {
      selectedUser := None;
    }
  }
}
