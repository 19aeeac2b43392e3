/** The session state shared by every page (src/contexts/AuthContext.tsx):
    who is signed in, whether that is settled yet, and the browser's persisted
    `"user"` slot. Each operation is a transition on a `Session` value; the
    `AuthProvider` class holds the state and performs the transitions step by
    step, as the React provider does. */
module AuthContext {
  import opened Common

  /** The signed-in user as the pages see it: the credential row minus its password. */
  datatype User = User(id: int, username: string, userType: string, name: string, email: string)

  /** A row of the hard-coded credential fixture. */
  datatype MockUser = MockUser(id: int, username: string, password: string, userType: string, name: string, email: string)

  const MockUsers: seq<MockUser> := [
    MockUser(1, "muser", "muser", "company", "Mock Company Owner", "owner@example.com"),
    MockUser(2, "mpe", "mpe", "investor", "Mock Private Equity", "investor@example.com")
  ]

  function WithoutPassword(m: MockUser): User {
    User(m.id, m.username, m.userType, m.name, m.email)
  }

  predicate Matches(m: MockUser, username: string, password: string) {
    m.username == username && m.password == password
  }

  /** Row `i` matches and no earlier row does. */
  predicate FirstMatch(rows: seq<MockUser>, i: int, username: string, password: string) {
    && 0 <= i < |rows|
    && Matches(rows[i], username, password)
    && forall j :: 0 <= j < i ==> !Matches(rows[j], username, password)
  }

  /** `MOCK_USERS.find(u => u.username === username && u.password === password)`:
      a row matching both fields exactly if there is one, and none otherwise. */
  function FindMock(rows: seq<MockUser>, username: string, password: string): (found: Option<MockUser>)
    ensures found.Some? ==> found.value in rows && Matches(found.value, username, password)
    ensures found.None? ==> forall i :: 0 <= i < |rows| ==> !Matches(rows[i], username, password)
  {
    if rows == [] then None
    else if Matches(rows[0], username, password) then Some(rows[0])
    else FindMock(rows[1..], username, password)
  }

  /** The row found is the first matching one. */
  lemma {:induction false} FindMockIsFirst(rows: seq<MockUser>, username: string, password: string)
    requires FindMock(rows, username, password).Some?
    ensures exists i :: FirstMatch(rows, i, username, password) && rows[i] == FindMock(rows, username, password).value
  {
    if Matches(rows[0], username, password) {
      assert FirstMatch(rows, 0, username, password);
    } else {
      FindMockIsFirst(rows[1..], username, password);
      var k :| FirstMatch(rows[1..], k, username, password) && rows[1..][k] == FindMock(rows[1..], username, password).value;
      assert FirstMatch(rows, k + 1, username, password) by {
        forall j | 0 <= j < k + 1 ensures !Matches(rows[j], username, password) {
          if j > 0 { assert rows[j] == rows[1..][j - 1]; }
        }
      }
    }
  }

  /** The two credential rows have distinct usernames: `muser` is a company
      owner and `mpe` an investor, each with its own name as password. */
  lemma MockUsersFixture()
    ensures forall i, j :: 0 <= i < j < |MockUsers| ==> MockUsers[i].username != MockUsers[j].username
    ensures FindMock(MockUsers, "muser", "muser") == Some(MockUsers[0]) && MockUsers[0].userType == "company"
    ensures FindMock(MockUsers, "mpe", "mpe") == Some(MockUsers[1]) && MockUsers[1].userType == "investor"
  {
  }

  /** Only the two fixture pairs pass the local credential check. */
  lemma {:induction false} MockMatchIff(username: string, password: string)
    ensures FindMock(MockUsers, username, password).Some?
      <==> (username == "muser" && password == "muser") || (username == "mpe" && password == "mpe")
  {
    if FindMock(MockUsers, username, password).Some? {
      var i :| 0 <= i < |MockUsers| && Matches(MockUsers[i], username, password);
      assert i == 0 || i == 1;
    } else {
      assert !Matches(MockUsers[0], username, password) && !Matches(MockUsers[1], username, password);
    }
  }

  /** What the `"user"` slot of local storage can hold: a serialised user record
      (what the provider writes), or text that is not valid JSON. */
  datatype Stored = Record(user: User) | Unparseable(raw: string)

  /** `if (userData)`: a stored string is truthy unless it is empty. A
      serialised record is never empty. */
  predicate Present(slot: Option<Stored>) {
    slot.Some? && (slot.value.Unparseable? ==> slot.value.raw != "")
  }

  /** The provider's observable state. */
  datatype Session = Session(user: Option<User>, isAuthenticated: bool, loading: bool, slot: Option<Stored>)

  /** `isAuthenticated` is true exactly when there is a user. */
  predicate Consistent(s: Session) {
    s.isAuthenticated <==> s.user.Some?
  }

  /** `user?.type`. */
  function UserTypeOf(user: Option<User>): Option<string> {
    if user.Some? then Some(user.value.userType) else None
  }

  /** A freshly mounted provider: no user, not authenticated, still loading. */
  function Fresh(slot: Option<Stored>): Session {
    Session(None, false, true, slot)
  }

  /** `checkSession`: a stored record becomes the user; an absent or empty slot
      leaves no user; either way loading ends. Text that is not JSON makes
      `JSON.parse` throw before `setLoading(false)`, so nothing changes and
      loading never ends. */
  function RestoreStep(s: Session): Session {
    if !Present(s.slot) then s.(loading := false)
    else match s.slot.value
      case Record(u) => s.(user := Some(u), isAuthenticated := true, loading := false)
      case Unparseable(_) => s
  }

  /** The answer of `POST /api/login`, which is only asked when no fixture row matches. */
  datatype LoginReply =
    | Accepted(user: User)  // a 2xx response whose body is the user record
    | Rejected              // a non-ok status
    | Unreachable           // `fetch` or `response.json()` threw

  datatype LoginOutcome = LoginOutcome(session: Session, ok: bool)

  function SignIn(s: Session, u: User): LoginOutcome {
    LoginOutcome(s.(user := Some(u), isAuthenticated := true, slot := Some(Record(u))), true)
  }

  /** `login(username, password)`: the fixture first, then the endpoint. */
  function LoginStep(s: Session, username: string, password: string, reply: LoginReply): LoginOutcome {
    match FindMock(MockUsers, username, password)
    case Some(m) => SignIn(s, WithoutPassword(m))
    case None =>
      match reply
      case Accepted(u) => SignIn(s, u)
      case Rejected => LoginOutcome(s, false)
      case Unreachable => LoginOutcome(s, false)
  }

  /** `logout`: forget the user and remove the slot. */
  function LogoutStep(s: Session): Session {
    s.(user := None, isAuthenticated := false, slot := None)
  }

  /** Restore, login and logout all keep `isAuthenticated` in step with `user`. */
  lemma ConsistencyPreserved(s: Session, username: string, password: string, reply: LoginReply)
    requires Consistent(s)
    ensures Consistent(Fresh(s.slot))
    ensures Consistent(RestoreStep(s))
    ensures Consistent(LoginStep(s, username, password, reply).session)
    ensures Consistent(LogoutStep(s))
  {
  }

  /** Restoring a fresh provider: a stored record is signed in, an absent or
      empty slot settles with no user, and unparseable text leaves the provider
      loading for good (restoring again changes nothing). */
  lemma RestoreOutcomes(slot: Option<Stored>)
    ensures var r := RestoreStep(Fresh(slot));
      && (slot.Some? && slot.value.Record? ==> r.user == Some(slot.value.user) && r.isAuthenticated && !r.loading)
      && (!Present(slot) ==> r.user == None && !r.isAuthenticated && !r.loading)
      && (Present(slot) && slot.value.Unparseable? ==> r.loading && r.user == None && RestoreStep(r) == r)
      && r.slot == slot
  {
  }

  /** A fixture match signs in regardless of the endpoint: the user is the row
      minus its password, and the slot holds that same record. */
  lemma MockLoginSignsIn(s: Session, username: string, password: string, reply: LoginReply, i: nat)
    requires i < |MockUsers| && Matches(MockUsers[i], username, password)
    ensures var out := LoginStep(s, username, password, reply);
      && out.ok
      && out.session.user == Some(WithoutPassword(MockUsers[i]))
      && out.session.isAuthenticated
      && out.session.slot == Some(Record(WithoutPassword(MockUsers[i])))
      && out.session.loading == s.loading
  {
    MockUsersFixture();
  }

  /** Login succeeds exactly when a fixture row matches or the endpoint accepts;
      a failed login changes nothing. */
  lemma LoginOkIff(s: Session, username: string, password: string, reply: LoginReply)
    ensures LoginStep(s, username, password, reply).ok
      <==> (exists i :: 0 <= i < |MockUsers| && Matches(MockUsers[i], username, password)) || reply.Accepted?
    ensures !LoginStep(s, username, password, reply).ok ==> LoginStep(s, username, password, reply).session == s
  {
  }

  /** Logging out twice is the same as logging out once. */
  lemma LogoutIdempotent(s: Session)
    ensures LogoutStep(LogoutStep(s)) == LogoutStep(s)
    ensures LogoutStep(s).user == None && !LogoutStep(s).isAuthenticated && LogoutStep(s).slot == None
  {
  }

  /** Persisting round-trips: after a successful login, a new provider that
      restores from the slot signs in the same user; after logout it finds nothing. */
  lemma SessionSurvivesReload(s: Session, username: string, password: string, reply: LoginReply)
    ensures var out := LoginStep(s, username, password, reply);
      out.ok ==> var r := RestoreStep(Fresh(out.session.slot));
        r.user == out.session.user && r.isAuthenticated && !r.loading
    ensures var r := RestoreStep(Fresh(LogoutStep(s).slot));
      r.user == None && !r.isAuthenticated && !r.loading
  {
  }

  /** The provider (`AuthProvider`): the React state plus the `"user"` slot of
      local storage, which outlives the provider and is passed to a new one. */
  class AuthProvider {
    var user: Option<User>
    var isAuthenticated: bool
    var loading: bool
    var storage: Option<Stored>

    function State(): Session
      reads this
    {
      Session(user, isAuthenticated, loading, storage)
    }

    /** Mounting: `useState(null)`, `useState(true)`, `useState(false)`. */
    constructor (slot: Option<Stored>)
      ensures State() == Fresh(slot)
    {
      user := None;
      loading := true;
      isAuthenticated := false;
      storage := slot;
    }

    method CheckSession()
      modifies this
      ensures State() == RestoreStep(old(State()))
    {
      var userData := storage;
      if Present(userData) {
        match userData.value {
          case Unparseable(_) =>
            // JSON.parse throws; the rest of checkSession does not run
            return;
          case Record(u) =>
            user := Some(u);
            isAuthenticated := true;
        }
      }
      loading := false;
    }

    method Login(username: string, password: string, reply: LoginReply) returns (ok: bool)
      modifies this
      ensures LoginOutcome(State(), ok) == LoginStep(old(State()), username, password, reply)
    {
      var mockUser := FindMock(MockUsers, username, password);
      if mockUser.Some? {
        var userWithoutPassword := WithoutPassword(mockUser.value);
        user := Some(userWithoutPassword);
        isAuthenticated := true;
        storage := Some(Record(userWithoutPassword));
        return true;
      }
      match reply {
        case Accepted(u) =>
          user := Some(u);
          isAuthenticated := true;
          storage := Some(Record(u));
          return true;
        case Rejected =>
          return false;
        case Unreachable =>
          return false;
      }
    }

    method Logout()
      modifies this
      ensures State() == LogoutStep(old(State()))
    {
      user := None;
      isAuthenticated := false;
      storage := None;
    }
  }
}
