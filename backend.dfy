/** The Flask service (src/backend/app.py): login, registration and the company
    listings, over the `users` and `companies` tables held as sequences of rows. */
module Backend {
  import opened Common
  import AuthContext
  import RegisterPage

  /** A JSON value of a request body. */
  datatype Json = JStr(s: string) | JNum(n: int) | JBool(b: bool) | JNull

  /** Python truthiness: `not value` is false for these. */
  predicate Truthy(v: Json) {
    match v
    case JStr(s) => s != ""
    case JNum(n) => n != 0
    case JBool(b) => b
    case JNull => false
  }

  /** A request body: a JSON object. */
  type Request = map<string, Json>

  /** `data.get(key)`, with JSON null standing for Python's None. */
  function Field(data: Request, key: string): Json {
    if key in data then data[key] else JNull
  }

  /** `data.get(key)` is truthy. */
  predicate GivenTruthy(data: Request, key: string) {
    key in data && Truthy(data[key])
  }

  /** Stand-in for werkzeug's `generate_password_hash`. */
  function Hash(password: string): string {
    "hashed:" + password
  }

  /** Stand-in for werkzeug's `check_password_hash`. */
  predicate CheckHash(hash: string, password: string) {
    hash == Hash(password)
  }

  lemma HashChecks(password: string, other: string)
    ensures CheckHash(Hash(password), password)
    ensures other != password ==> !CheckHash(Hash(password), other)
  {
    assert Hash(password)[7..] == password;
    assert Hash(other)[7..] == other;
  }

  datatype UserRow = UserRow(id: int, username: Json, passwordHash: string, email: Json, name: Json, userType: Json)

  datatype CompanyRow = CompanyRow(
    id: int,
    name: Json,
    industry: Json,
    status: Json,
    location: Json,
    revenue: Json,
    ebitda: Json,
    employees: Json,
    foundedYear: Json,
    askingPrice: Json,
    description: Json,
    ownerId: Json,
    viewsThisMonth: Json,
    inquiriesThisMonth: Json)

  datatype Body =
    | ErrorBody(error: string)
    | MessageBody(message: string)
    | UserBody(id: int, username: Json, name: Json, email: Json, userType: Json)
    | CompanyBody(company: CompanyRow)
    | CompanyListBody(companies: seq<CompanyRow>)
    | CreatedBody(id: int, message: string)

  datatype Response = Response(status: int, body: Body)

  const MissingCredentials := "Username and password are required"
  const InvalidCredentials := "Invalid username or password"
  const UsernameTaken := "Username already exists"
  const CompanyNotFound := "Company not found"

  function MissingField(field: string): string {
    "Missing required field: " + field
  }

  const RegisterFields: seq<string> := ["username", "password", "email", "name", "type"]
  const CompanyFields: seq<string> := ["name", "industry", "location", "revenue", "asking_price", "description", "owner_id"]

  /** The first of `fields` that the body lacks, in order; keys are checked for
      presence, not for a non-empty value. */
  function FirstAbsent(data: Request, fields: seq<string>): (missing: Option<string>)
    ensures missing.None? <==> forall i :: 0 <= i < |fields| ==> fields[i] in data
    ensures missing.Some? ==> missing.value in fields && missing.value !in data
  {
    if fields == [] then None
    else if fields[0] !in data then Some(fields[0])
    else FirstAbsent(data, fields[1..])
  }

  predicate FirstAbsentAt(data: Request, fields: seq<string>, i: int) {
    && 0 <= i < |fields|
    && fields[i] !in data
    && forall j :: 0 <= j < i ==> fields[j] in data
  }

  /** The key reported is the first absent one: every earlier key is present. */
  lemma {:induction false} FirstAbsentIsFirst(data: Request, fields: seq<string>)
    requires FirstAbsent(data, fields).Some?
    ensures exists i :: FirstAbsentAt(data, fields, i) && fields[i] == FirstAbsent(data, fields).value
  {
    if fields[0] !in data {
      assert FirstAbsentAt(data, fields, 0);
    } else {
      FirstAbsentIsFirst(data, fields[1..]);
      var k :| FirstAbsentAt(data, fields[1..], k) && fields[1..][k] == FirstAbsent(data, fields[1..]).value;
      assert FirstAbsentAt(data, fields, k + 1) by {
        forall j | 0 <= j < k + 1 ensures fields[j] in data {
          if j > 0 { assert fields[j] == fields[1..][j - 1]; }
        }
      }
    }
  }

  /** The `for field in required_fields` loop with its early return. */
  method CheckRequired(data: Request, fields: seq<string>) returns (missing: Option<string>)
    ensures missing == FirstAbsent(data, fields)
  {
    var i := 0;
    while i < |fields|
      invariant 0 <= i <= |fields|
      invariant FirstAbsent(data, fields) == FirstAbsent(data, fields[i..])
    {
      assert fields[i..][1..] == fields[i + 1..];
      if fields[i] !in data {
        return Some(fields[i]);
      }
      i := i + 1;
    }
    return None;
  }

  /** `SELECT ... FROM users WHERE username = ?`. In SQL `username = NULL` is
      never true, so a null username finds nothing, not even a row whose
      username is null. */
  function FindUser(users: seq<UserRow>, username: Json): (found: Option<UserRow>)
    ensures found.Some? ==> found.value in users && found.value.username == username && username != JNull
    ensures found.None? ==> username == JNull || forall i :: 0 <= i < |users| ==> users[i].username != username
  {
    if username == JNull || users == [] then None
    else if users[0].username == username then Some(users[0])
    else FindUser(users[1..], username)
  }

  /** `SELECT * FROM companies WHERE id = ?`. */
  function FindCompany(companies: seq<CompanyRow>, id: int): (found: Option<CompanyRow>)
    ensures found.Some? ==> found.value in companies && found.value.id == id
    ensures found.None? ==> forall i :: 0 <= i < |companies| ==> companies[i].id != id
  {
    if companies == [] then None
    else if companies[0].id == id then Some(companies[0])
    else FindCompany(companies[1..], id)
  }

  /** The login answer: the row's id, username, name, email and type, and
      nothing about its password. */
  function PublicUser(row: UserRow): Body {
    UserBody(row.id, row.username, row.name, row.email, row.userType)
  }

  /** `data.setdefault(key, value)`: fill an absent key, keep a present one. */
  function SetDefault(data: Request, key: string, value: Json): (filled: Request)
    ensures filled.Keys == data.Keys + {key}
    ensures filled[key] == (if key in data then data[key] else value)
    ensures forall k :: k in data ==> filled[k] == data[k]
  {
    if key in data then data else data[key := value]
  }

  /** The value stored for an optional column: the body's, or the default. */
  function Defaulted(data: Request, key: string, default: Json): Json {
    if key in data then data[key] else default
  }

  /** The row `create_company` inserts: the body's required columns, and each
      optional column from the body when the key is present, else its default. */
  function NewCompanyRow(id: int, data: Request): CompanyRow {
    CompanyRow(id, Field(data, "name"), Field(data, "industry"), Defaulted(data, "status", JStr("Active")),
      Field(data, "location"), Field(data, "revenue"), Defaulted(data, "ebitda", JNum(0)),
      Defaulted(data, "employees", JNum(0)), Defaulted(data, "founded_year", JNum(2000)),
      Field(data, "asking_price"), Field(data, "description"), Field(data, "owner_id"),
      Defaulted(data, "views_this_month", JNum(0)), Defaulted(data, "inquiries_this_month", JNum(0)))
  }

  /** The six `setdefault` calls of `create_company`, in order. */
  function ApplyDefaults(data: Request): Request {
    var d1 := SetDefault(data, "status", JStr("Active"));
    var d2 := SetDefault(d1, "ebitda", JNum(0));
    var d3 := SetDefault(d2, "employees", JNum(0));
    var d4 := SetDefault(d3, "founded_year", JNum(2000));
    var d5 := SetDefault(d4, "views_this_month", JNum(0));
    SetDefault(d5, "inquiries_this_month", JNum(0))
  }

  /** The INSERT's column values, read from the filled body. */
  function RowOf(id: int, filled: Request): CompanyRow {
    CompanyRow(id, Field(filled, "name"), Field(filled, "industry"), Field(filled, "status"),
      Field(filled, "location"), Field(filled, "revenue"), Field(filled, "ebitda"), Field(filled, "employees"),
      Field(filled, "founded_year"), Field(filled, "asking_price"), Field(filled, "description"),
      Field(filled, "owner_id"), Field(filled, "views_this_month"), Field(filled, "inquiries_this_month"))
  }

  const DefaultedKeys: set<string> :=
    {"status", "ebitda", "employees", "founded_year", "views_this_month", "inquiries_this_month"}

  /** A key outside the defaulted columns passes through the `setdefault` calls. */
  lemma DefaultsKeep(data: Request, k: string)
    requires k !in DefaultedKeys
    ensures Field(ApplyDefaults(data), k) == Field(data, k)
  {
    var d1 := SetDefault(data, "status", JStr("Active"));
    var d2 := SetDefault(d1, "ebitda", JNum(0));
    var d3 := SetDefault(d2, "employees", JNum(0));
    var d4 := SetDefault(d3, "founded_year", JNum(2000));
    var d5 := SetDefault(d4, "views_this_month", JNum(0));
    assert Field(d5, k) == Field(data, k);
  }

  /** Each defaulted column ends up with the body's value or its default. */
  lemma DefaultsFill(data: Request)
    ensures Field(ApplyDefaults(data), "status") == Defaulted(data, "status", JStr("Active"))
    ensures Field(ApplyDefaults(data), "ebitda") == Defaulted(data, "ebitda", JNum(0))
    ensures Field(ApplyDefaults(data), "employees") == Defaulted(data, "employees", JNum(0))
    ensures Field(ApplyDefaults(data), "founded_year") == Defaulted(data, "founded_year", JNum(2000))
    ensures Field(ApplyDefaults(data), "views_this_month") == Defaulted(data, "views_this_month", JNum(0))
    ensures Field(ApplyDefaults(data), "inquiries_this_month") == Defaulted(data, "inquiries_this_month", JNum(0))
  {
    var d1 := SetDefault(data, "status", JStr("Active"));
    var d2 := SetDefault(d1, "ebitda", JNum(0));
    var d3 := SetDefault(d2, "employees", JNum(0));
    var d4 := SetDefault(d3, "founded_year", JNum(2000));
    var d5 := SetDefault(d4, "views_this_month", JNum(0));
    assert Field(d5, "status") == Defaulted(data, "status", JStr("Active"));
    assert Field(d5, "ebitda") == Defaulted(data, "ebitda", JNum(0));
    assert Field(d5, "employees") == Defaulted(data, "employees", JNum(0));
    assert Field(d5, "founded_year") == Defaulted(data, "founded_year", JNum(2000));
  }

  /** Filling the defaults and reading the columns back gives the row
      described by `NewCompanyRow`: defaults only fill absent keys. */
  lemma DefaultsFillRow(id: int, data: Request)
    ensures RowOf(id, ApplyDefaults(data)) == NewCompanyRow(id, data)
  {
    DefaultsFill(data);
    DefaultsKeep(data, "name");
    DefaultsKeep(data, "industry");
    DefaultsKeep(data, "location");
    DefaultsKeep(data, "revenue");
    DefaultsKeep(data, "asking_price");
    DefaultsKeep(data, "description");
    DefaultsKeep(data, "owner_id");
  }

  /** The rows `init_db` inserts into an empty database. */
  const SeedUsers: seq<UserRow> := [
    UserRow(1, JStr("muser"), Hash("muser"), JStr("owner@example.com"), JStr("Mock Company Owner"), JStr("company")),
    UserRow(2, JStr("mpe"), Hash("mpe"), JStr("investor@example.com"), JStr("Mock Private Equity"), JStr("investor"))
  ]

  /** The backend's seeded accounts are the front end's credential fixture:
      same ids, usernames, names, emails and types, and each fixture password
      checks against the stored hash. */
  lemma SeedMatchesMockUsers()
    ensures |SeedUsers| == |AuthContext.MockUsers|
    ensures forall i :: 0 <= i < |SeedUsers| ==>
      var row, mock := SeedUsers[i], AuthContext.MockUsers[i];
      && row.id == mock.id && row.username == JStr(mock.username) && row.name == JStr(mock.name)
      && row.email == JStr(mock.email) && row.userType == JStr(mock.userType)
      && CheckHash(row.passwordHash, mock.password)
  {
  }

  /** The request body `register(formData)` sends for a register form. */
  function FormRequest(form: RegisterPage.FormData): Request {
    map[
      "username" := JStr(form.username),
      "password" := JStr(form.password),
      "confirmPassword" := JStr(form.confirmPassword),
      "email" := JStr(form.email),
      "name" := JStr(form.name),
      "type" := JStr(form.userType)]
  }

  /** Every body the register form sends has all the keys `register` requires. */
  lemma FormRequestHasRequiredFields(form: RegisterPage.FormData)
    ensures FirstAbsent(FormRequest(form), RegisterFields) == None
  {
  }

  /** The two tables, with the next id SQLite will assign in each. */
  class Database {
    var users: seq<UserRow>
    var companies: seq<CompanyRow>
    var nextUserId: int
    var nextCompanyId: int

    /** Non-null usernames are unique (the existence check cannot see a null
        one), and ids increase and stay below the next id. */
    ghost predicate Valid()
      reads this
    {
      && (forall i, j :: 0 <= i < j < |users| && users[i].username != JNull ==> users[i].username != users[j].username)
      && (forall i, j :: 0 <= i < j < |users| ==> users[i].id < users[j].id)
      && (forall i :: 0 <= i < |users| ==> users[i].id < nextUserId)
      && (forall i, j :: 0 <= i < j < |companies| ==> companies[i].id < companies[j].id)
      && (forall i :: 0 <= i < |companies| ==> companies[i].id < nextCompanyId)
    }

    /** A new database after `init_db`: the two seeded users, no companies. */
    constructor ()
      ensures Valid()
      ensures users == SeedUsers && companies == [] && nextUserId == 3 && nextCompanyId == 1
    {
      users := SeedUsers;
      companies := [];
      nextUserId := 3;
      nextCompanyId := 1;
    }

    /** `POST /api/login`. Missing or empty credentials give 400; an unknown
        username and a wrong password give the same 401; a match gives the
        public part of the row. A password that is not a string makes the hash
        check raise, which Flask answers with 500. */
    method Login(data: Request) returns (resp: Response)
      ensures !(GivenTruthy(data, "username") && GivenTruthy(data, "password"))
        ==> resp == Response(400, ErrorBody(MissingCredentials))
      ensures GivenTruthy(data, "username") && GivenTruthy(data, "password") ==>
        match FindUser(users, data["username"])
        case None => resp == Response(401, ErrorBody(InvalidCredentials))
        case Some(row) =>
          if !data["password"].JStr? then resp.status == 500
          else if CheckHash(row.passwordHash, data["password"].s) then resp == Response(200, PublicUser(row))
          else resp == Response(401, ErrorBody(InvalidCredentials))
      ensures resp.status == 200 ==>
        (exists i :: 0 <= i < |users| && resp.body == PublicUser(users[i]) && users[i].username == Field(data, "username")
           && Field(data, "password").JStr? && CheckHash(users[i].passwordHash, Field(data, "password").s))
    {
      if !GivenTruthy(data, "username") || !GivenTruthy(data, "password") {
        return Response(400, ErrorBody(MissingCredentials));
      }
      var username, password := data["username"], data["password"];
      var user := FindUser(users, username);
      if user.None? {
        return Response(401, ErrorBody(InvalidCredentials));
      }
      if !password.JStr? {
        return Response(500, ErrorBody("password is not a string"));
      }
      if !CheckHash(user.value.passwordHash, password.s) {
        return Response(401, ErrorBody(InvalidCredentials));
      }
      return Response(200, PublicUser(user.value));
    }

    /** `POST /api/register`. The first absent key gives 400; a taken username
        gives 400 and leaves the table alone; otherwise exactly one row is
        appended, with the hashed password and the next id. A password that is
        not a string makes hashing raise inside the `try`, which answers 500. */
    method Register(data: Request) returns (resp: Response)
      requires Valid()
      modifies this
      ensures Valid()
      ensures companies == old(companies) && nextCompanyId == old(nextCompanyId)
      ensures FirstAbsent(data, RegisterFields).Some? ==>
        resp == Response(400, ErrorBody(MissingField(FirstAbsent(data, RegisterFields).value)))
        && users == old(users) && nextUserId == old(nextUserId)
      ensures FirstAbsent(data, RegisterFields).None? && FindUser(old(users), Field(data, "username")).Some? ==>
        resp == Response(400, ErrorBody(UsernameTaken)) && users == old(users) && nextUserId == old(nextUserId)
      ensures (FirstAbsent(data, RegisterFields).None? && FindUser(old(users), Field(data, "username")).None?
               && Field(data, "password").JStr?) ==>
        resp == Response(201, MessageBody("User registered successfully"))
        && users == old(users) + [UserRow(old(nextUserId), Field(data, "username"), Hash(Field(data, "password").s),
                                          Field(data, "email"), Field(data, "name"), Field(data, "type"))]
        && nextUserId == old(nextUserId) + 1
      ensures (FirstAbsent(data, RegisterFields).None? && FindUser(old(users), Field(data, "username")).None?
               && !Field(data, "password").JStr?) ==>
        resp.status == 500 && users == old(users) && nextUserId == old(nextUserId)
    {
      var missing := CheckRequired(data, RegisterFields);
      if missing.Some? {
        return Response(400, ErrorBody(MissingField(missing.value)));
      }
      assert RegisterFields[0] in data && RegisterFields[1] in data && RegisterFields[2] in data
        && RegisterFields[3] in data && RegisterFields[4] in data;
      var username, password, email, name, userType :=
        data["username"], data["password"], data["email"], data["name"], data["type"];
      var existing := FindUser(users, username);
      if existing.Some? {
        return Response(400, ErrorBody(UsernameTaken));
      }
      if !password.JStr? {
        return Response(500, ErrorBody("password is not a string"));
      }
      users := users + [UserRow(nextUserId, username, Hash(password.s), email, name, userType)];
      nextUserId := nextUserId + 1;
      return Response(201, MessageBody("User registered successfully"));
    }

    /** `GET /api/companies`: every row, in table order. */
    method GetCompanies() returns (resp: Response)
      ensures resp == Response(200, CompanyListBody(companies))
    {
      var result: seq<CompanyRow> := [];
      var i := 0;
      while i < |companies|
        invariant 0 <= i <= |companies|
        invariant result == companies[..i]
      {
        result := result + [companies[i]];
        i := i + 1;
      }
      assert companies[..i] == companies;
      return Response(200, CompanyListBody(result));
    }

    /** `GET /api/companies/<id>`: 404 exactly when no row has the id; otherwise
        that row. */
    method GetCompany(companyId: nat) returns (resp: Response)
      requires Valid()
      ensures resp.status == 404 <==> forall i :: 0 <= i < |companies| ==> companies[i].id != companyId
      ensures resp.status == 404 ==> resp.body == ErrorBody(CompanyNotFound)
      ensures resp.status != 404 ==>
        (resp.status == 200 && resp.body.CompanyBody? && resp.body.company in companies && resp.body.company.id == companyId)
    {
      var company := FindCompany(companies, companyId);
      if company.None? {
        return Response(404, ErrorBody(CompanyNotFound));
      }
      return Response(200, CompanyBody(company.value));
    }

    /** `POST /api/companies`. The first absent required key gives 400; otherwise
        the optional columns absent from the body take their defaults (status
        "Active", zero ebitda, employees, views and inquiries, founded 2000),
        present ones are kept, and one row is appended with the next id. */
    method CreateCompany(data: Request) returns (resp: Response)
      requires Valid()
      modifies this
      ensures Valid()
      ensures users == old(users) && nextUserId == old(nextUserId)
      ensures FirstAbsent(data, CompanyFields).Some? ==>
        resp == Response(400, ErrorBody(MissingField(FirstAbsent(data, CompanyFields).value)))
        && companies == old(companies) && nextCompanyId == old(nextCompanyId)
      ensures FirstAbsent(data, CompanyFields).None? ==>
        resp == Response(201, CreatedBody(old(nextCompanyId), "Company created successfully"))
        && companies == old(companies) + [NewCompanyRow(old(nextCompanyId), data)]
        && nextCompanyId == old(nextCompanyId) + 1
    {
      var missing := CheckRequired(data, CompanyFields);
      if missing.Some? {
        return Response(400, ErrorBody(MissingField(missing.value)));
      }
      var filled := ApplyDefaults(data);
      var row := RowOf(nextCompanyId, filled);
      DefaultsFillRow(nextCompanyId, data);
      companies := companies + [row];
      nextCompanyId := nextCompanyId + 1;
      return Response(201, CreatedBody(row.id, "Company created successfully"));
    }
  }

  /** What a client can rely on: a username registered with a string password
      logs in with that password and gets back its own row's public part,
      while any other password is refused exactly like an unknown username. */
  method RegisterThenLogin(db: Database, username: string, password: string, other: string,
                           email: Json, name: Json, userType: Json)
    returns (ok: Response, wrong: Response)
    requires db.Valid()
    requires username != "" && password != "" && other != "" && other != password
    requires FindUser(db.users, JStr(username)).None?
    modifies db
    ensures db.Valid()
    ensures ok == Response(200, UserBody(old(db.nextUserId), JStr(username), name, email, userType))
    ensures wrong == Response(401, ErrorBody(InvalidCredentials))
  {
    var id := db.nextUserId;
    var form := map["username" := JStr(username), "password" := JStr(password),
                    "email" := email, "name" := name, "type" := userType];
    assert FirstAbsent(form, RegisterFields).None?;
    var created := db.Register(form);
    assert created.status == 201;
    var row := UserRow(id, JStr(username), Hash(password), email, name, userType);
    assert db.users[|db.users| - 1] == row;
    HashChecks(password, other);
    var found := FindUser(db.users, JStr(username));
    assert found == Some(row) by {
      assert forall i :: 0 <= i < |db.users| - 1 ==> db.users[i].username != JStr(username);
    }
    ok := db.Login(map["username" := JStr(username), "password" := JStr(password)]);
    wrong := db.Login(map["username" := JStr(username), "password" := JStr(other)]);
  }
}
