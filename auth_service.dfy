/** The user store and the authentication service: sign-up inserts a user
    with a hashed password, sign-in looks a user up and checks the password.
    The database table is an in-memory map from email to row, the password
    hasher an abstract pair of functions. */
module AuthService {
  import opened Wrappers

  /** The role stored when the caller supplies none. */
  const DefaultRole := "user"

  /** The messages of the errors the service throws. */
  const EmailTaken := "User with this email already exists"
  const UserNotFound := "User not found"
  const InvalidPassword := "Invalid password"

  /** The first value of the table's serial id column. */
  const FirstId: nat := 1

  /** The password hasher (bcrypt with cost 10), left uninterpreted:
      `hash` is `hashPassword`, `compare` is `comparePassword`. */
  datatype Hasher = Hasher(hash: string -> string, compare: (string, string) -> bool)

  /** The one property assumed of the hasher: a password matches its own hash. */
  ghost predicate Sound(h: Hasher)
  {
    forall p :: h.compare(p, h.hash(p))
  }

  /** The argument of `createUser`; `role` is `None` when not supplied. */
  datatype NewUser = NewUser(name: string, email: string, password: string, role: Option<string>)

  /** A row of the users table; `password` holds the hash. */
  datatype UserRecord = UserRecord(id: nat, name: string, email: string, password: string, role: string, createdAt: int)

  /** What the service returns about a user: the row without its password. */
  datatype PublicUser = PublicUser(id: nat, name: string, email: string, role: string, createdAt: int)

  function Project(u: UserRecord): PublicUser
  {
    PublicUser(u.id, u.name, u.email, u.role, u.createdAt)
  }

  /** The destructuring default `role = "user"`. */
  function RoleOrDefault(role: Option<string>): string
  {
    match role
    case Some(r) => r
    case None => DefaultRole
  }

  /** The contents of the users table and the next value of its id sequence. */
  datatype Table = Table(users: map<string, UserRecord>, nextId: nat)

  const EmptyTable := Table(map[], FirstId)

  /** Every row is filed under its own email, and ids are distinct and
      below the next id. */
  ghost predicate Consistent(t: Table)
  {
    && FirstId <= t.nextId
    && (forall e :: e in t.users ==> t.users[e].email == e && FirstId <= t.users[e].id < t.nextId)
    && (forall e1, e2 :: e1 in t.users && e2 in t.users && e1 != e2 ==> t.users[e1].id != t.users[e2].id)
  }

  /** The table after an operation and what the operation returned. */
  datatype Step = Step(table: Table, result: Result<PublicUser>)

  /** `createUser`: refuse a known email, otherwise insert a row holding the
      hashed password and return that row without the password. */
  function Create(t: Table, h: Hasher, u: NewUser, now: int): (s: Step)
    ensures u.email in t.users <==> s.result.Failure?
    ensures s.result.Failure? ==> s.table == t && s.result.error == EmailTaken
    ensures s.result.Success? ==>
      && s.table.users.Keys == t.users.Keys + {u.email}
      && (forall e :: e in t.users ==> s.table.users[e] == t.users[e])
      && s.table.nextId == t.nextId + 1
      && var row := s.table.users[u.email];
         && row.id == t.nextId && row.name == u.name && row.email == u.email
         && row.password == h.hash(u.password)
         && row.role == (if u.role.None? then DefaultRole else u.role.value)
         && row.createdAt == now
         && s.result.value == Project(row)
  {
    if u.email in t.users then
      Step(t, Failure(EmailTaken))
    else
      var row := UserRecord(t.nextId, u.name, u.email, h.hash(u.password), RoleOrDefault(u.role), now);
      Step(Table(t.users[u.email := row], t.nextId + 1), Success(Project(row)))
  }

  /** A sign-up: the argument of `createUser` and the time the row is stored. */
  datatype SignUpCall = SignUpCall(user: NewUser, now: int)

  /** The table after a sequence of `createUser` calls, in order. */
  function CreateAll(t: Table, h: Hasher, calls: seq<SignUpCall>): Table
    decreases |calls|
  {
    if |calls| == 0 then t
    else CreateAll(Create(t, h, calls[0].user, calls[0].now).table, h, calls[1..])
  }

  /** The emails of a sequence of sign-ups. */
  function Emails(calls: seq<SignUpCall>): set<string>
  {
    set c | c in calls :: c.user.email
  }

  /** `authenticateUser`: an unknown email is "User not found", a password
      the hasher rejects is "Invalid password", otherwise the row without
      its password. */
  function Authenticate(t: Table, h: Hasher, email: string, password: string): (r: Result<PublicUser>)
    ensures r == Failure(UserNotFound) <==> email !in t.users
    ensures r == Failure(InvalidPassword) <==> email in t.users && !h.compare(password, t.users[email].password)
    ensures r.Success? <==> email in t.users && h.compare(password, t.users[email].password)
    ensures r.Success? ==> r.value == Project(t.users[email])
  {
    if email !in t.users then Failure(UserNotFound)
    else if !h.compare(password, t.users[email].password) then Failure(InvalidPassword)
    else Success(Project(t.users[email]))
  }

  /** A sign-up keeps the table consistent. */
  lemma CreateKeepsConsistent(t: Table, h: Hasher, u: NewUser, now: int)
    requires Consistent(t)
    ensures Consistent(Create(t, h, u, now).table)
  {
  }

  /** Any sequence of sign-ups keeps the table consistent, so no two rows
      share an email or an id. */
  lemma {:induction false} CreateAllKeepsConsistent(t: Table, h: Hasher, calls: seq<SignUpCall>)
    requires Consistent(t)
    ensures Consistent(CreateAll(t, h, calls))
    ensures forall e1, e2 :: e1 in CreateAll(t, h, calls).users && e2 in CreateAll(t, h, calls).users && e1 != e2
              ==> CreateAll(t, h, calls).users[e1].email != CreateAll(t, h, calls).users[e2].email
    decreases |calls|
  {
    if |calls| > 0 {
      CreateKeepsConsistent(t, h, calls[0].user, calls[0].now);
      CreateAllKeepsConsistent(Create(t, h, calls[0].user, calls[0].now).table, h, calls[1..]);
    }
  }

  /** After a sequence of sign-ups the table holds exactly the emails it held
      before and those signed up: one row per email, whatever the repeats. */
  lemma {:induction false} CreateAllEmails(t: Table, h: Hasher, calls: seq<SignUpCall>)
    ensures CreateAll(t, h, calls).users.Keys == t.users.Keys + Emails(calls)
    decreases |calls|
  {
    if |calls| > 0 {
      var t1 := Create(t, h, calls[0].user, calls[0].now).table;
      CreateAllEmails(t1, h, calls[1..]);
      assert calls == [calls[0]] + calls[1..];
      assert Emails(calls) == {calls[0].user.email} + Emails(calls[1..]);
    }
  }

  /** Rows already in the table are never altered by later sign-ups: the
      first sign-up with an email decides its row. */
  lemma {:induction false} CreateAllKeepsRows(t: Table, h: Hasher, calls: seq<SignUpCall>, e: string)
    requires e in t.users
    ensures e in CreateAll(t, h, calls).users && CreateAll(t, h, calls).users[e] == t.users[e]
    decreases |calls|
  {
    if |calls| > 0 {
      CreateAllKeepsRows(Create(t, h, calls[0].user, calls[0].now).table, h, calls[1..], e);
    }
  }

  /** A second sign-up with an email that just succeeded fails and changes nothing. */
  lemma SecondCreateFails(t: Table, h: Hasher, u: NewUser, v: NewUser, now1: int, now2: int)
    requires v.email == u.email
    ensures var t1 := Create(t, h, u, now1).table;
            Create(t1, h, v, now2) == Step(t1, Failure(EmailTaken))
  {
  }

  /** The result of a sign-up does not depend on the password: the password,
      and its hash, never leave the store. */
  lemma CreateResultHidesPassword(t: Table, h: Hasher, u: NewUser, other: string, now: int)
    ensures Create(t, h, u, now).result == Create(t, h, u.(password := other), now).result
  {
  }

  /** The result of a sign-in does not depend on the stored hash beyond the
      hasher's verdict on it. */
  lemma AuthenticateHidesHash(t: Table, h: Hasher, email: string, password: string, other: string)
    requires email in t.users && h.compare(password, t.users[email].password) == h.compare(password, other)
    ensures Authenticate(t, h, email, password)
            == Authenticate(Table(t.users[email := t.users[email].(password := other)], t.nextId), h, email, password)
  {
  }

  /** With a sound hasher, a user who has just signed up can sign in with the
      same password and gets back what sign-up returned. */
  lemma AuthenticateAfterCreate(t: Table, h: Hasher, u: NewUser, now: int)
    requires Sound(h) && u.email !in t.users
    ensures var s := Create(t, h, u, now);
            Authenticate(s.table, h, u.email, u.password) == s.result
  {
    assert h.compare(u.password, h.hash(u.password));
  }

  /** With a sound hasher, a user can sign in with the password they signed
      up with after any later sequence of sign-ups, and gets back what
      sign-up returned. */
  lemma AuthenticateAfterLaterCreates(t: Table, h: Hasher, u: NewUser, now: int, calls: seq<SignUpCall>)
    requires Sound(h) && u.email !in t.users
    ensures var s := Create(t, h, u, now);
            Authenticate(CreateAll(s.table, h, calls), h, u.email, u.password) == s.result
  {
    var s := Create(t, h, u, now);
    CreateAllKeepsRows(s.table, h, calls, u.email);
    AuthenticateAfterCreate(t, h, u, now);
  }

  /** A sign-up does not change the outcome of signing in as anyone else. */
  lemma AuthenticateUnaffectedByOtherCreate(t: Table, h: Hasher, u: NewUser, now: int, email: string, password: string)
    requires email != u.email
    ensures Authenticate(Create(t, h, u, now).table, h, email, password) == Authenticate(t, h, email, password)
  {
  }

  /** The users table as the service sees it. */
  class UserStore {
    const hasher: Hasher
    var users: map<string, UserRecord>
    var nextId: nat

    function State(): Table
      reads this
    {
      Table(users, nextId)
    }

    ghost predicate Valid()
      reads this
    {
      Consistent(State())
    }

    constructor (h: Hasher)
      ensures hasher == h && State() == EmptyTable && Valid()
    {
      hasher := h;
      users := map[];
      nextId := FirstId;
    }

    /** `createUser`: the lookup, the hash and the insert. */
    method CreateUser(u: NewUser, now: int) returns (r: Result<PublicUser>)
      requires Valid()
      modifies this
      ensures Valid()
      ensures Step(State(), r) == Create(old(State()), hasher, u, now)
    {
      if u.email in users {
        return Failure(EmailTaken);
      }
      var passwordHash := hasher.hash(u.password);
      var row := UserRecord(nextId, u.name, u.email, passwordHash, RoleOrDefault(u.role), now);
      users := users[u.email := row];
      nextId := nextId + 1;
      r := Success(Project(row));
    }

    /** `authenticateUser`: a lookup and a password check that change nothing. */
    method AuthenticateUser(email: string, password: string) returns (r: Result<PublicUser>)
      ensures r == Authenticate(State(), hasher, email, password)
    {
      if email !in users {
        return Failure(UserNotFound);
      }
      var user := users[email];
      var isPasswordValid := hasher.compare(password, user.password);
      if !isPasswordValid {
        return Failure(InvalidPassword);
      }
      r := Success(Project(user));
    }
  }
}
