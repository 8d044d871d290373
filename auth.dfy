/** Registration and login of `auth.routes.js` over the three account
    tables (students, drivers, admins), each keyed by email.

    Password hashing and comparison are passed in as functions: the model
    says where the hash is stored and when the comparison decides, not how
    either is computed. The login token is represented by the claims it
    would carry. */
module Auth {
  import opened Common

  datatype Account = Account(id: int, name: string, email: string, passwordHash: string,
                             plateNumber: Option<string>)

  /** An account as returned to the client: every field but the password. */
  datatype PublicUser = PublicUser(id: int, name: string, email: string, plateNumber: Option<string>)

  function Public(a: Account): PublicUser
  {
    PublicUser(a.id, a.name, a.email, a.plateNumber)
  }

  /** A successful login: the token's claims `{id, role}` and the user. */
  datatype Session = Session(claims: Principal, user: PublicUser)

  // ---------------------------------------------------------------------
  // The plate-number format ^[A-Z]{3}-\d{3}[A-Z]{2}$

  datatype CharClass = Upper | Digit | Dash

  predicate InClass(c: char, k: CharClass)
  {
    match k
    case Upper => 'A' <= c <= 'Z'
    case Digit => '0' <= c <= '9'
    case Dash => c == '-'
  }

  /** The anchored pattern, one class per character. */
  const PlatePattern: seq<CharClass> := [Upper, Upper, Upper, Dash, Digit, Digit, Digit, Upper, Upper]

  /** `s` matches the anchored pattern `p`, character for character. */
  predicate MatchesAll(p: seq<CharClass>, s: string)
  {
    if p == [] then s == []
    else s != [] && InClass(s[0], p[0]) && MatchesAll(p[1..], s[1..])
  }

  /** Matching an anchored pattern of single-character classes means having
      its length and each character in its class. */
  lemma {:induction false} MatchesAllIff(p: seq<CharClass>, s: string)
    ensures MatchesAll(p, s) <==> |s| == |p| && forall i :: 0 <= i < |p| ==> InClass(s[i], p[i])
  {
    if p != [] && s != [] {
      MatchesAllIff(p[1..], s[1..]);
      if |s| == |p| && forall i :: 0 <= i < |p| ==> InClass(s[i], p[i]) {
        forall i | 0 <= i < |p| - 1 ensures InClass(s[1..][i], p[1..][i]) {
          assert s[1..][i] == s[i + 1] && p[1..][i] == p[i + 1];
        }
      }
      if MatchesAll(p, s) {
        forall i | 0 <= i < |p| ensures InClass(s[i], p[i]) {
          if i > 0 { assert s[i] == s[1..][i - 1] && p[i] == p[1..][i - 1]; }
        }
      }
    }
  }

  predicate IsPlate(s: string)
  {
    MatchesAll(PlatePattern, s)
  }

  /** A plate is nine characters: three capital ASCII letters, a dash,
      three ASCII digits and two capital ASCII letters. */
  lemma PlateFormat(s: string)
    ensures IsPlate(s) <==>
      && |s| == 9
      && (forall i :: 0 <= i < 3 ==> 'A' <= s[i] <= 'Z')
      && s[3] == '-'
      && (forall i :: 4 <= i < 7 ==> '0' <= s[i] <= '9')
      && (forall i :: 7 <= i < 9 ==> 'A' <= s[i] <= 'Z')
  {
    MatchesAllIff(PlatePattern, s);
  }

  /** The plate check a DRIVER registration must pass: a plate is given and
      matches. Since a plate is never empty, the emptiness test is subsumed
      by the pattern. */
  predicate PlateAccepted(plateNumber: Option<string>): (accepted: bool)
    ensures accepted <==> plateNumber.Some? && IsPlate(plateNumber.value)
  {
    Present(plateNumber) && IsPlate(plateNumber.value)
  }

  /** The format the error message quotes is itself a plate; lower-case
      letters are not. */
  lemma PlateExamples()
    ensures PlateAccepted(Some("ABC-123DE"))
    ensures !PlateAccepted(Some("abc-123de"))
  {
    var good, bad := "ABC-123DE", "abc-123de";
    PlateFormat(good);
    assert good[0] == 'A' && good[1] == 'B' && good[2] == 'C' && good[3] == '-';
    assert good[4] == '1' && good[5] == '2' && good[6] == '3' && good[7] == 'D' && good[8] == 'E';
    PlateFormat(bad);
    assert bad[0] == 'a';
  }

  // ---------------------------------------------------------------------
  // Field and role checks

  /** The `role` body field, if it is one of the three role names. */
  function ParseRole(role: Option<string>): (r: Option<Role>)
    ensures r == Some(Student) <==> role == Some("STUDENT")
    ensures r == Some(Driver) <==> role == Some("DRIVER")
    ensures r == Some(Admin) <==> role == Some("ADMIN")
  {
    if role == Some("STUDENT") then Some(Student)
    else if role == Some("DRIVER") then Some(Driver)
    else if role == Some("ADMIN") then Some(Admin)
    else None
  }

  /** The first two registration checks: required fields, then the role.
      Missing fields are reported before a bad role; the role is accepted
      exactly when it names one of the three tables. */
  function CheckFields(name: Option<string>, email: Option<string>, password: Option<string>,
                       role: Option<string>): (r: Result<Role>)
    ensures !Present(name) || !Present(email) || !Present(password) ==> r == Err(InvalidInput(MissingFields))
    ensures r.Ok? <==> Present(name) && Present(email) && Present(password)
                       && role in {Some("STUDENT"), Some("DRIVER"), Some("ADMIN")}
    ensures Present(name) && Present(email) && Present(password) && ParseRole(role).None?
            ==> r == Err(InvalidInput(InvalidRole))
    ensures r.Ok? ==> ParseRole(role) == Some(r.value)
    ensures r.Err? ==> r.error == InvalidInput(MissingFields) || r.error == InvalidInput(InvalidRole)
  {
    if !Present(name) || !Present(email) || !Present(password) then Err(InvalidInput(MissingFields))
    else if ParseRole(role).None? then Err(InvalidInput(InvalidRole))
    else Ok(ParseRole(role).value)
  }

  /** What the tables hold: keyed by non-empty email, ids below the table's
      next id and distinct, a valid plate on every driver and on no one else. */
  predicate TableInv(t: map<string, Account>, nextId: int, role: Role)
  {
    && 1 <= nextId
    && (forall e :: e in t ==> e != "" && t[e].email == e && 1 <= t[e].id < nextId)
    && (forall e :: e in t ==> (role == Driver <==> t[e].plateNumber.Some?))
    && (forall e :: e in t && role == Driver ==> PlateAccepted(t[e].plateNumber))
    && (forall e1, e2 :: e1 in t && e2 in t && t[e1].id == t[e2].id ==> e1 == e2)
  }

  /** Inserting a fresh account under the table's next id keeps the table's invariant. */
  lemma InsertKeepsTableInv(t: map<string, Account>, nextId: int, role: Role, a: Account)
    requires TableInv(t, nextId, role)
    requires a.email !in t && a.email != "" && a.id == nextId
    requires role == Driver <==> a.plateNumber.Some?
    requires role == Driver ==> PlateAccepted(a.plateNumber)
    ensures TableInv(t[a.email := a], nextId + 1, role)
  {
  }

  datatype Found = Found(account: Account, role: Role)

  class AccountStore {
    var students: map<string, Account>
    var drivers: map<string, Account>
    var admins: map<string, Account>
    var nextStudentId: int
    var nextDriverId: int
    var nextAdminId: int

    function Table(role: Role): map<string, Account>
      reads this
    {
      match role
      case Student => students
      case Driver => drivers
      case Admin => admins
    }

    function NextId(role: Role): int
      reads this
    {
      match role
      case Student => nextStudentId
      case Driver => nextDriverId
      case Admin => nextAdminId
    }

    /** An email is unique across the three tables. */
    ghost predicate Valid()
      reads this
    {
      && students.Keys !! drivers.Keys
      && students.Keys !! admins.Keys
      && drivers.Keys !! admins.Keys
      && TableInv(students, nextStudentId, Student)
      && TableInv(drivers, nextDriverId, Driver)
      && TableInv(admins, nextAdminId, Admin)
    }

    constructor ()
      ensures Valid()
      ensures students == map[] && drivers == map[] && admins == map[]
    {
      students, drivers, admins := map[], map[], map[];
      nextStudentId, nextDriverId, nextAdminId := 1, 1, 1;
    }

    predicate EmailTaken(email: string)
      reads this
    {
      email in students || email in drivers || email in admins
    }

    /** The registration checks in the handler's order: fields, role,
      email uniqueness, then (for drivers only) the plate. `Ok` carries the
      table to insert into. */
    function RegisterCheck(name: Option<string>, email: Option<string>, password: Option<string>,
                           role: Option<string>, plateNumber: Option<string>): (r: Result<Role>)
      reads this
      ensures r.Ok? <==> && CheckFields(name, email, password, role).Ok?
                         && !EmailTaken(email.value)
                         && (role == Some("DRIVER") ==> PlateAccepted(plateNumber))
      ensures r.Ok? ==> ParseRole(role) == Some(r.value)
      ensures CheckFields(name, email, password, role).Err? ==> r == CheckFields(name, email, password, role)
      ensures r.Err? ==> r.error.InvalidInput?
    {
      match CheckFields(name, email, password, role)
      case Err(e) => Err(e)
      case Ok(r) =>
        if EmailTaken(email.value) then Err(InvalidInput(EmailExists))
        else if r == Driver && !PlateAccepted(plateNumber) then Err(InvalidInput(InvalidPlate))
        else Ok(r)
    }

    /** An email held by any of the three tables is refused, for every role,
      once the fields and the role are acceptable. */
    lemma TakenEmailRefused(name: Option<string>, email: Option<string>, password: Option<string>,
                            role: Option<string>, plateNumber: Option<string>)
      requires CheckFields(name, email, password, role).Ok? && EmailTaken(email.value)
      ensures RegisterCheck(name, email, password, role, plateNumber) == Err(InvalidInput(EmailExists))
    {
    }

    /** The plate decides only a DRIVER registration; for the other roles it
      is not looked at. */
    lemma PlateCheckedForDriversOnly(name: Option<string>, email: Option<string>, password: Option<string>,
                                     role: Option<string>, plateNumber: Option<string>, otherPlate: Option<string>)
      requires CheckFields(name, email, password, role).Ok? && !EmailTaken(email.value)
      ensures role == Some("DRIVER") ==>
        RegisterCheck(name, email, password, role, plateNumber)
          == if PlateAccepted(plateNumber) then Ok(Driver) else Err(InvalidInput(InvalidPlate))
      ensures role != Some("DRIVER") ==>
        RegisterCheck(name, email, password, role, plateNumber)
          == RegisterCheck(name, email, password, role, otherPlate)
          == Ok(ParseRole(role).value)
    {
    }

    /** `create` on the table of `role`: stores a new account, with a fresh
      email, under the table's next id. */
    method Create(role: Role, account: Account)
      requires Valid()
      requires !EmailTaken(account.email) && account.email != "" && account.id == NextId(role)
      requires role == Driver <==> account.plateNumber.Some?
      requires role == Driver ==> PlateAccepted(account.plateNumber)
      modifies this
      ensures Valid()
      ensures Table(role) == old(Table(role))[account.email := account]
      ensures NextId(role) == old(NextId(role)) + 1
      ensures role != Student ==> students == old(students) && nextStudentId == old(nextStudentId)
      ensures role != Driver ==> drivers == old(drivers) && nextDriverId == old(nextDriverId)
      ensures role != Admin ==> admins == old(admins) && nextAdminId == old(nextAdminId)
    {
      match role
      case Student =>
        var grown := students[account.email := account];
        InsertKeepsTableInv(students, nextStudentId, Student, account);
        assert grown.Keys !! drivers.Keys && grown.Keys !! admins.Keys;
        students, nextStudentId := grown, nextStudentId + 1;
      case Driver =>
        var grown := drivers[account.email := account];
        InsertKeepsTableInv(drivers, nextDriverId, Driver, account);
        assert grown.Keys !! students.Keys && grown.Keys !! admins.Keys;
        drivers, nextDriverId := grown, nextDriverId + 1;
      case Admin =>
        var grown := admins[account.email := account];
        InsertKeepsTableInv(admins, nextAdminId, Admin, account);
        assert grown.Keys !! students.Keys && grown.Keys !! drivers.Keys;
        admins, nextAdminId := grown, nextAdminId + 1;
    }

    /** POST /register: inserts one account into the table the role names.
      `hash` stands for the password hash. */
    method Register(name: Option<string>, email: Option<string>, password: Option<string>,
                    role: Option<string>, plateNumber: Option<string>, hash: string -> string)
      returns (res: Result<PublicUser>)
      requires Valid()
      modifies this
      ensures Valid()
      ensures var check := old(RegisterCheck(name, email, password, role, plateNumber));
        && (res.Err? <==> check.Err?)
        && (res.Err? ==> res.error == check.error && unchanged(this))
        && (res.Ok? ==>
              var r := check.value;
              var account := Account(old(NextId(r)), name.value, email.value, hash(password.value),
                                     if r == Driver then plateNumber else None);
              && email.value !in old(Table(r))
              && Table(r) == old(Table(r))[email.value := account]
              && NextId(r) == old(NextId(r)) + 1
              && (r != Student ==> students == old(students) && nextStudentId == old(nextStudentId))
              && (r != Driver ==> drivers == old(drivers) && nextDriverId == old(nextDriverId))
              && (r != Admin ==> admins == old(admins) && nextAdminId == old(nextAdminId))
              && res.value == Public(account))
    {
      var fields := CheckFields(name, email, password, role);
      if fields.Err? {
        return Err(fields.error);
      }
      var r := fields.value;
      var e := email.value;
      if e in students || e in drivers || e in admins {
        return Err(InvalidInput(EmailExists));
      }
      var hashed := hash(password.value);
      if r == Driver && !PlateAccepted(plateNumber) {
        return Err(InvalidInput(InvalidPlate));
      }
      var account := Account(NextId(r), name.value, e, hashed, if r == Driver then plateNumber else None);
      Create(r, account);
      res := Ok(Public(account));
    }

    /** The account holding `email`, searching students, then drivers, then
      admins; the role is that of the first table that has it. */
    function Lookup(email: string): (found: Option<Found>)
      reads this
      ensures found.None? <==> !EmailTaken(email)
      ensures found.Some? ==>
        && email in Table(found.value.role)
        && found.value.account == Table(found.value.role)[email]
        && (found.value.role != Student ==> email !in students)
        && (found.value.role == Admin ==> email !in drivers)
    {
      if email in students then Some(Found(students[email], Student))
      else if email in drivers then Some(Found(drivers[email], Driver))
      else if email in admins then Some(Found(admins[email], Admin))
      else None
    }

    /** POST /login. `matches(password, hash)` stands for the password comparison. */
    function Login(email: Option<string>, password: Option<string>, matches: (string, string) -> bool)
      : (r: Result<Session>)
      reads this
      ensures r.Ok? <==> && Present(email) && Present(password) && EmailTaken(email.value)
                         && matches(password.value, Lookup(email.value).value.account.passwordHash)
      ensures r.Ok? ==> var found := Lookup(email.value).value;
        r.value == Session(Principal(found.account.id, found.role), Public(found.account))
      ensures r.Err? ==> r.error == InvalidInput(MissingCredentials) || r.error == InvalidCredentials
    {
      if !Present(email) || !Present(password) then Err(InvalidInput(MissingCredentials))
      else
        match Lookup(email.value)
        case None => Err(InvalidCredentials)
        case Some(Found(account, role)) =>
          if !matches(password.value, account.passwordHash) then Err(InvalidCredentials)
          else Ok(Session(Principal(account.id, role), Public(account)))
    }

    /** Login refuses missing credentials as bad input, and an unknown email
      and a wrong password alike, with the same failure. */
    lemma LoginFailures(email: Option<string>, password: Option<string>, matches: (string, string) -> bool)
      ensures !Present(email) || !Present(password) ==>
        Login(email, password, matches) == Err(InvalidInput(MissingCredentials))
      ensures Present(email) && Present(password) && !EmailTaken(email.value) ==>
        Login(email, password, matches) == Err(InvalidCredentials)
      ensures Present(email) && Present(password) && EmailTaken(email.value)
              && !matches(password.value, Lookup(email.value).value.account.passwordHash) ==>
        Login(email, password, matches) == Err(InvalidCredentials)
    {
    }

    /** A successful login names the first of students, drivers, admins
      holding the email, and returns that account without its password. */
    lemma LoginRoleFromFirstTable(email: Option<string>, password: Option<string>,
                                  matches: (string, string) -> bool)
      requires Login(email, password, matches).Ok?
      ensures var s := Login(email, password, matches).value;
        && email.value in Table(s.claims.role)
        && (s.claims.role != Student ==> email.value !in students)
        && (s.claims.role == Admin ==> email.value !in drivers)
        && s.user == Public(Table(s.claims.role)[email.value])
        && s.claims.id == s.user.id
    {
    }

    /** With emails unique across tables, the search order does not matter:
      an account whose password matches logs in with the role of the one
      table that holds it. */
    lemma LoginFindsAccount(role: Role, email: string, password: string, matches: (string, string) -> bool)
      requires Valid() && email in Table(role) && password != ""
      requires matches(password, Table(role)[email].passwordHash)
      ensures Login(Some(email), Some(password), matches)
              == Ok(Session(Principal(Table(role)[email].id, role), Public(Table(role)[email])))
    {
    }
  }
}
