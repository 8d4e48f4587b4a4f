/** The authentication slice (src/features/auth/authSlice.js): the mock accounts, the
    credential check of the `login` thunk and the session reducers. The simulated delay is left
    out and the random tail of the token is a parameter. */
module Auth {
  import opened Wrappers
  import opened Seqs

  datatype Account = Account(
    id: int, username: string, password: string, role: string, name: string, email: string,
    department: string, avatar: string, phoneNumber: string, roleDescription: string, joinDate: string)

  /** An account with the password taken out, as the session stores it. */
  datatype Profile = Profile(
    id: int, username: string, role: string, name: string, email: string,
    department: string, avatar: string, phoneNumber: string, roleDescription: string, joinDate: string)

  const AdminAccount := Account(1, "admin", "admin123", "admin", "Admin User", "admin@coworkspace.com",
    "Management", "https://randomuser.me/api/portraits/men/1.jpg", "+628123456789", "Administrator", "2022-01-01")
  const MemberAccount := Account(2, "user1", "user123", "user", "Regular User", "user@coworkspace.com",
    "Marketing", "https://randomuser.me/api/portraits/lego/1.jpg", "+628234567890", "Member", "2022-03-15")
  const DesignerAccount := Account(3, "user2", "user123", "user", "Hussen Worker", "hussen@coworkspace.com",
    "Design", "https://randomuser.me/api/portraits/lego/5.jpg", "+628345678901", "Member", "2022-05-20")

  const MockAccounts: seq<Account> := [AdminAccount, MemberAccount, DesignerAccount]

  const InvalidCredentials := "Invalid username or password"

  const TokenPrefix := "fake-jwt-token-"

  /** `const { password, ...userWithoutPassword } = user`. */
  function WithoutPassword(a: Account): (p: Profile)
    ensures p.id == a.id && p.username == a.username && p.role == a.role && p.name == a.name
    ensures p.email == a.email && p.department == a.department && p.avatar == a.avatar
    ensures p.phoneNumber == a.phoneNumber && p.roleDescription == a.roleDescription && p.joinDate == a.joinDate
  {
    Profile(a.id, a.username, a.role, a.name, a.email, a.department, a.avatar, a.phoneNumber,
            a.roleDescription, a.joinDate)
  }

  function Matches(username: string, password: string): Account -> bool
  {
    (a: Account) => a.username == username && a.password == password
  }

  /** The check inside `login`: the first account with both the username and the password. */
  function Authenticate(accounts: seq<Account>, username: string, password: string): (r: Result<Profile, string>)
    ensures r.Success? <==> exists i :: 0 <= i < |accounts| && accounts[i].username == username && accounts[i].password == password
    ensures r.Success? ==> r.value == WithoutPassword(accounts[FirstIndex(accounts, Matches(username, password))])
    ensures r.Success? ==> r.value.username == username
    ensures r.Failure? ==> r.error == InvalidCredentials
  {
    match Find(accounts, Matches(username, password))
    case Some(a) => Success(WithoutPassword(a))
    case None => Failure(InvalidCredentials)
  }

  /** The three mock logins work, and a wrong password or an unknown name does not. */
  lemma MockLogins()
    ensures Authenticate(MockAccounts, "admin", "admin123") == Success(WithoutPassword(AdminAccount))
    ensures Authenticate(MockAccounts, "user1", "user123") == Success(WithoutPassword(MemberAccount))
    ensures Authenticate(MockAccounts, "user2", "user123") == Success(WithoutPassword(DesignerAccount))
    ensures Authenticate(MockAccounts, "admin", "user123") == Failure(InvalidCredentials)
    ensures Authenticate(MockAccounts, "guest", "admin123") == Failure(InvalidCredentials)
  {
    assert MockAccounts[0] == AdminAccount && MockAccounts[1] == MemberAccount && MockAccounts[2] == DesignerAccount;
    assert FirstIndex(MockAccounts, Matches("admin", "admin123")) == 0;
    assert FirstIndex(MockAccounts, Matches("user1", "user123")) == 1;
    assert FirstIndex(MockAccounts, Matches("user2", "user123")) == 2;
  }

  /** When usernames are unique, a successful login returns the one account with that name. */
  lemma LoginIdentifiesAccount(accounts: seq<Account>, username: string, password: string, i: int)
    requires forall j, k :: 0 <= j < k < |accounts| ==> accounts[j].username != accounts[k].username
    requires 0 <= i < |accounts| && accounts[i].username == username
    requires Authenticate(accounts, username, password).Success?
    ensures Authenticate(accounts, username, password).value == WithoutPassword(accounts[i])
    ensures accounts[i].password == password
  {
    var k := FirstIndex(accounts, Matches(username, password));
    assert accounts[k].username == username;
  }

  class AuthState {
    var user: Option<Profile>
    var token: Option<string>
    var role: Option<string>
    var isAuthenticated: bool
    var error: Option<string>
    var loading: bool

    /** A signed-in session holds a user, a token and that user's role. */
    ghost predicate Valid()
      reads this
    {
      isAuthenticated ==> user.Some? && token.Some? && role == Some(user.value.role)
    }

    constructor()
      ensures user.None? && token.None? && role.None? && !isAuthenticated && error.None? && !loading
      ensures Valid()
    {
      user := None;
      token := None;
      role := None;
      isAuthenticated := false;
      error := None;
      loading := false;
    }

    method LoginStart()
      modifies this
      ensures loading && error.None?
      ensures user == old(user) && token == old(token) && role == old(role) && isAuthenticated == old(isAuthenticated)
      ensures old(Valid()) ==> Valid()
    {
      loading := true;
      error := None;
    }

    method LoginSuccess(u: Profile, t: string, r: string)
      modifies this
      ensures user == Some(u) && token == Some(t) && role == Some(r)
      ensures isAuthenticated && !loading && error.None?
      ensures r == u.role ==> Valid()
    {
      user := Some(u);
      token := Some(t);
      role := Some(r);
      isAuthenticated := true;
      loading := false;
      error := None;
    }

    /** A failed attempt records the message and leaves the session as it was. */
    method LoginFailure(message: string)
      modifies this
      ensures !loading && error == Some(message)
      ensures user == old(user) && token == old(token) && role == old(role) && isAuthenticated == old(isAuthenticated)
      ensures old(Valid()) ==> Valid()
    {
      loading := false;
      error := Some(message);
    }

    /** `logout` ends the session; `error` and `loading` stay as they were. */
    method Logout()
      modifies this
      ensures user.None? && token.None? && role.None? && !isAuthenticated
      ensures error == old(error) && loading == old(loading)
      ensures Valid()
    {
      user := None;
      token := None;
      role := None;
      isAuthenticated := false;
    }

    /** The `login` thunk: start, check the credentials against the mock accounts, then record
        the session (token `fake-jwt-token-<tokenTail>`) or the error. */
    method Login(username: string, password: string, tokenTail: string) returns (r: Result<Profile, string>)
      modifies this
      ensures r == Authenticate(MockAccounts, username, password)
      ensures r.Success? ==>
        user == Some(r.value) && token == Some(TokenPrefix + tokenTail) && role == Some(r.value.role) &&
        isAuthenticated && !loading && error.None?
      ensures r.Failure? ==>
        error == Some(InvalidCredentials) && !loading &&
        user == old(user) && token == old(token) && role == old(role) && isAuthenticated == old(isAuthenticated)
      ensures old(Valid()) ==> Valid()
    {
      LoginStart();
      r := Authenticate(MockAccounts, username, password);
      if r.Success? {
        LoginSuccess(r.value, TokenPrefix + tokenTail, r.value.role);
      } else {
        LoginFailure(r.error);
      }
    }
  }
}
