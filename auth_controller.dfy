/** The sign-up, sign-in and sign-out handlers: they map the outcome of
    request validation and of the service to a status code, a JSON body and
    the token cookie, or pass the error on to the next middleware. */
module AuthController {
  import opened Wrappers
  import Format
  import AuthService

  /** The texts the handlers respond with. */
  const ValidationFailed := "Validation Failed"
  const SignedUp := "User signed up successfully"
  const SignedIn := "User signed in successfully"
  const SignedOut := "User signed out successfully"
  const EmailConflict := "Email already exist"
  const BadCredentials := "Invalid email or password"

  /** The result of a schema's `safeParse` on the request body. */
  datatype SafeParse<T> = Parsed(data: T) | ParseFailed(error: Format.ValidationError)

  /** The validated body of a sign-in request. */
  datatype Credentials = Credentials(email: string, password: string)

  /** The claims the session token is signed over. */
  datatype Claims = Claims(id: nat, email: string, role: string)

  /** The user as the response body shows it. */
  datatype UserView = UserView(id: nat, name: string, email: string, role: string)

  /** The JSON bodies the handlers send. */
  datatype Body =
    | Invalid(error: string, details: string)
    | Notice(message: string)
    | Welcome(message: string, user: UserView)

  /** What happened to the `token` cookie; a set cookie is recorded by the
      claims of the token it carries. */
  datatype TokenCookie = Untouched | SetTo(claims: Claims) | Cleared

  /** A handler either responds or calls `next(e)` with the error. */
  datatype Reply = Respond(status: nat, body: Body, cookie: TokenCookie) | Forward(error: string)

  function ViewOf(u: AuthService.PublicUser): UserView
  {
    UserView(u.id, u.name, u.email, u.role)
  }

  function ClaimsOf(u: AuthService.PublicUser): Claims
  {
    Claims(u.id, u.email, u.role)
  }

  /** The 400 response to a body the schema rejected. */
  function Rejected(error: Format.ValidationError, stringify: Format.ValidationError -> string): Reply
  {
    Respond(400, Invalid(ValidationFailed, Format.FormatValidationError(error, stringify)), Untouched)
  }

  /** `signUp`'s response to the validation result and, when validation
      passed, to what `createUser` returned or threw. */
  function SignUpReply(stringify: Format.ValidationError -> string,
                       request: SafeParse<AuthService.NewUser>,
                       created: Result<AuthService.PublicUser>): (r: Reply)
    ensures request.ParseFailed? <==> r.Respond? && r.status == 400
    ensures request.ParseFailed? ==>
      r.body == Invalid(ValidationFailed, Format.FormatValidationError(request.error, stringify)) && r.cookie == Untouched
    ensures r.Respond? && r.status == 201 <==> request.Parsed? && created.Success?
    ensures r.Respond? && r.status == 201 ==>
      r.body == Welcome(SignedUp, ViewOf(created.value)) && r.cookie == SetTo(ClaimsOf(created.value))
    ensures r.Respond? && r.status == 409 <==> request.Parsed? && created == Failure(AuthService.EmailTaken)
    ensures r.Respond? && r.status == 409 ==> r.body == Notice(EmailConflict) && r.cookie == Untouched
    ensures r.Forward? <==> request.Parsed? && created.Failure? && created.error != AuthService.EmailTaken
    ensures r.Forward? ==> r.error == created.error
  {
    match request
    case ParseFailed(error) => Rejected(error, stringify)
    case Parsed(_) =>
      match created
      case Success(user) => Respond(201, Welcome(SignedUp, ViewOf(user)), SetTo(ClaimsOf(user)))
      case Failure(message) =>
        if message == AuthService.EmailTaken then Respond(409, Notice(EmailConflict), Untouched)
        else Forward(message)
  }

  /** `signIn`'s response to the validation result and, when validation
      passed, to what `authenticateUser` returned or threw. */
  function SignInReply(stringify: Format.ValidationError -> string,
                       request: SafeParse<Credentials>,
                       authenticated: Result<AuthService.PublicUser>): (r: Reply)
    ensures request.ParseFailed? <==> r.Respond? && r.status == 400
    ensures request.ParseFailed? ==>
      r.body == Invalid(ValidationFailed, Format.FormatValidationError(request.error, stringify)) && r.cookie == Untouched
    ensures r.Respond? && r.status == 200 <==> request.Parsed? && authenticated.Success?
    ensures r.Respond? && r.status == 200 ==>
      r.body == Welcome(SignedIn, ViewOf(authenticated.value)) && r.cookie == SetTo(ClaimsOf(authenticated.value))
    ensures r.Respond? && r.status == 401 <==>
      request.Parsed? && authenticated.Failure?
      && (authenticated.error == AuthService.UserNotFound || authenticated.error == AuthService.InvalidPassword)
    ensures r.Respond? && r.status == 401 ==> r.body == Notice(BadCredentials) && r.cookie == Untouched
    ensures r.Forward? <==>
      request.Parsed? && authenticated.Failure?
      && authenticated.error != AuthService.UserNotFound && authenticated.error != AuthService.InvalidPassword
    ensures r.Forward? ==> r.error == authenticated.error
  {
    match request
    case ParseFailed(error) => Rejected(error, stringify)
    case Parsed(_) =>
      match authenticated
      case Success(user) => Respond(200, Welcome(SignedIn, ViewOf(user)), SetTo(ClaimsOf(user)))
      case Failure(message) =>
        if message == AuthService.UserNotFound || message == AuthService.InvalidPassword then
          Respond(401, Notice(BadCredentials), Untouched)
        else Forward(message)
  }

  /** A rejected request is answered without the service's outcome: the
      service is not called. */
  lemma ParseFailureIgnoresService(stringify: Format.ValidationError -> string, error: Format.ValidationError,
                                   up1: Result<AuthService.PublicUser>, up2: Result<AuthService.PublicUser>)
    ensures SignUpReply(stringify, ParseFailed(error), up1) == SignUpReply(stringify, ParseFailed(error), up2)
    ensures SignInReply(stringify, ParseFailed(error), up1) == SignInReply(stringify, ParseFailed(error), up2)
  {
  }

  /** Whenever a handler sets the token cookie, its claims are the id, email
      and role of the user the body shows, and the status is a success. */
  lemma TokenMatchesBody(stringify: Format.ValidationError -> string,
                         up: SafeParse<AuthService.NewUser>, login: SafeParse<Credentials>,
                         outcome: Result<AuthService.PublicUser>)
    ensures var r := SignUpReply(stringify, up, outcome);
            r.Respond? && r.cookie.SetTo? ==>
              r.status == 201 && r.body.Welcome?
              && r.cookie.claims == Claims(r.body.user.id, r.body.user.email, r.body.user.role)
    ensures var r := SignInReply(stringify, login, outcome);
            r.Respond? && r.cookie.SetTo? ==>
              r.status == 200 && r.body.Welcome?
              && r.cookie.claims == Claims(r.body.user.id, r.body.user.email, r.body.user.role)
  {
  }

  /** The table and the response after a sign-up request. */
  datatype Exchange = Exchange(table: AuthService.Table, reply: Reply)

  /** A sign-up request against a table: validation first, then the service. */
  function SignUpEffect(t: AuthService.Table, h: AuthService.Hasher, stringify: Format.ValidationError -> string,
                        request: SafeParse<AuthService.NewUser>, now: int): (x: Exchange)
    ensures request.ParseFailed? ==> x == Exchange(t, Rejected(request.error, stringify))
    ensures request.Parsed? ==> x.reply.Respond?
    ensures x.reply.Respond? && x.reply.status == 409 <==> request.Parsed? && request.data.email in t.users
    ensures x.reply.Respond? && x.reply.status == 409 ==>
      x.table == t && x.reply == Respond(409, Notice(EmailConflict), Untouched)
    ensures x.reply.Respond? && x.reply.status == 201 <==> request.Parsed? && request.data.email !in t.users
    ensures x.reply.Respond? && x.reply.status == 201 ==>
      && x.table == AuthService.Create(t, h, request.data, now).table
      && request.data.email in x.table.users
      && var user := AuthService.Project(x.table.users[request.data.email]);
         x.reply == Respond(201, Welcome(SignedUp, ViewOf(user)), SetTo(ClaimsOf(user)))
  {
    match request
    case ParseFailed(error) => Exchange(t, Rejected(error, stringify))
    case Parsed(data) =>
      var s := AuthService.Create(t, h, data, now);
      Exchange(s.table, SignUpReply(stringify, request, s.result))
  }

  /** A sign-in request against a table: validation first, then the service. */
  function SignInEffect(t: AuthService.Table, h: AuthService.Hasher, stringify: Format.ValidationError -> string,
                        request: SafeParse<Credentials>): (r: Reply)
    ensures request.ParseFailed? ==> r == Rejected(request.error, stringify)
    ensures request.Parsed? ==> r.Respond?
    ensures r.Respond? && r.status == 200 <==>
      request.Parsed? && request.data.email in t.users
      && h.compare(request.data.password, t.users[request.data.email].password)
    ensures r.Respond? && r.status == 401 <==>
      request.Parsed? && !(request.data.email in t.users
                           && h.compare(request.data.password, t.users[request.data.email].password))
    ensures r.Respond? && r.status == 200 ==>
      var user := AuthService.Project(t.users[request.data.email]);
      r == Respond(200, Welcome(SignedIn, ViewOf(user)), SetTo(ClaimsOf(user)))
    ensures r.Respond? && r.status == 401 ==> r == Respond(401, Notice(BadCredentials), Untouched)
  {
    match request
    case ParseFailed(error) => Rejected(error, stringify)
    case Parsed(c) => SignInReply(stringify, request, AuthService.Authenticate(t, h, c.email, c.password))
  }

  /** In this model, where the lookup, `compare` and signing cannot fail, a
      sign-in never reaches `next`: the only errors `Authenticate` returns are
      the two the handler maps to one 401. */
  lemma SignInAlwaysResponds(t: AuthService.Table, h: AuthService.Hasher, stringify: Format.ValidationError -> string,
                             request: SafeParse<Credentials>)
    ensures SignInEffect(t, h, stringify, request).Respond?
    ensures SignInEffect(t, h, stringify, request).status in {200, 400, 401}
  {
  }

  /** An unknown email and a wrong password for a known one get the very
      same response, so a response does not tell whether an email is registered. */
  lemma SignInHidesRegisteredEmails(t: AuthService.Table, h: AuthService.Hasher, stringify: Format.ValidationError -> string,
                                    unknown: Credentials, known: Credentials)
    requires unknown.email !in t.users
    requires known.email in t.users && !h.compare(known.password, t.users[known.email].password)
    ensures SignInEffect(t, h, stringify, Parsed(unknown)) == SignInEffect(t, h, stringify, Parsed(known))
    ensures SignInEffect(t, h, stringify, Parsed(unknown)) == Respond(401, Notice(BadCredentials), Untouched)
  {
  }

  /** A second sign-up with the same email gets 409 and leaves the table as
      the first one left it. */
  lemma SignUpTwiceConflicts(t: AuthService.Table, h: AuthService.Hasher, stringify: Format.ValidationError -> string,
                             first: AuthService.NewUser, second: AuthService.NewUser, now1: int, now2: int)
    requires first.email == second.email
    ensures var x1 := SignUpEffect(t, h, stringify, Parsed(first), now1);
            SignUpEffect(x1.table, h, stringify, Parsed(second), now2) == Exchange(x1.table, Respond(409, Notice(EmailConflict), Untouched))
  {
    AuthService.SecondCreateFails(t, h, first, second, now1, now2);
  }

  /** With a sound hasher, after a successful sign-up, signing in with the
      same email and password gets 200, the same user and the same claims. */
  lemma SignUpThenSignIn(t: AuthService.Table, h: AuthService.Hasher, stringify: Format.ValidationError -> string,
                         u: AuthService.NewUser, now: int)
    requires AuthService.Sound(h) && u.email !in t.users
    ensures var up := SignUpEffect(t, h, stringify, Parsed(u), now);
            var signIn := SignInEffect(up.table, h, stringify, Parsed(Credentials(u.email, u.password)));
            && up.reply.Respond? && up.reply.status == 201
            && signIn.Respond? && signIn.status == 200
            && signIn.body.user == up.reply.body.user
            && signIn.cookie == up.reply.cookie
  {
    AuthService.AuthenticateAfterCreate(t, h, u, now);
  }

  /** The Express response object, reduced to what the handlers set. */
  class ServerResponse {
    var statusCode: nat
    var body: Option<Body>
    var cookie: TokenCookie

    /** A response nothing has been written to yet. */
    ghost predicate Pristine()
      reads this
    {
      statusCode == 200 && body == None && cookie == Untouched
    }

    /** The response shows `r`, with `next` the error passed on, if any. */
    ghost predicate Shows(r: Reply, next: Option<string>)
      reads this
    {
      match r
      case Respond(status, b, c) => next == None && statusCode == status && body == Some(b) && cookie == c
      case Forward(e) => next == Some(e) && Pristine()
    }

    constructor ()
      ensures Pristine()
    {
      statusCode, body, cookie := 200, None, Untouched;
    }

    /** `res.status(code).json(b)`. */
    method Send(code: nat, b: Body)
      modifies this
      ensures statusCode == code && body == Some(b) && cookie == old(cookie)
    {
      statusCode, body := code, Some(b);
    }

    /** `cookies.set(res, 'token', sign(claims))`. */
    method SetToken(claims: Claims)
      modifies this
      ensures cookie == SetTo(claims) && statusCode == old(statusCode) && body == old(body)
    {
      cookie := SetTo(claims);
    }

    /** `cookies.clear(res, 'token')`. */
    method ClearToken()
      modifies this
      ensures cookie == Cleared && statusCode == old(statusCode) && body == old(body)
    {
      cookie := Cleared;
    }
  }

  /** `signUp`: validate, create the user, set the token and respond. */
  method SignUp(store: AuthService.UserStore, stringify: Format.ValidationError -> string,
                request: SafeParse<AuthService.NewUser>, now: int, res: ServerResponse)
    returns (next: Option<string>)
    requires store.Valid() && res.Pristine()
    modifies store, res
    ensures store.Valid()
    ensures var x := SignUpEffect(old(store.State()), store.hasher, stringify, request, now);
            store.State() == x.table && res.Shows(x.reply, next)
  {
    match request
    case ParseFailed(error) =>
      res.Send(400, Invalid(ValidationFailed, Format.FormatValidationError(error, stringify)));
      next := None;
    case Parsed(data) =>
      var user := store.CreateUser(data, now);
      match user
      case Success(u) =>
        res.SetToken(ClaimsOf(u));
        res.Send(201, Welcome(SignedUp, ViewOf(u)));
        next := None;
      case Failure(message) =>
        if message == AuthService.EmailTaken {
          res.Send(409, Notice(EmailConflict));
          next := None;
        } else {
          next := Some(message);
        }
  }

  /** `signIn`: validate, authenticate, set the token and respond. */
  method SignIn(store: AuthService.UserStore, stringify: Format.ValidationError -> string,
                request: SafeParse<Credentials>, res: ServerResponse)
    returns (next: Option<string>)
    requires res.Pristine()
    modifies res
    ensures res.Shows(SignInEffect(store.State(), store.hasher, stringify, request), next)
  {
    match request
    case ParseFailed(error) =>
      res.Send(400, Invalid(ValidationFailed, Format.FormatValidationError(error, stringify)));
      next := None;
    case Parsed(c) =>
      var user := store.AuthenticateUser(c.email, c.password);
      match user
      case Success(u) =>
        res.SetToken(ClaimsOf(u));
        res.Send(200, Welcome(SignedIn, ViewOf(u)));
        next := None;
      case Failure(message) =>
        if message == AuthService.UserNotFound || message == AuthService.InvalidPassword {
          res.Send(401, Notice(BadCredentials));
          next := None;
        } else {
          next := Some(message);
        }
  }

  /** `signOut`: clear the token cookie and respond 200. */
  method SignOut(res: ServerResponse) returns (next: Option<string>)
    modifies res
    ensures res.Shows(Respond(200, Notice(SignedOut), Cleared), next)
  {
    res.ClearToken();
    res.Send(200, Notice(SignedOut));
    next := None;
  }
}
