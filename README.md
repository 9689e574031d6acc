# Sign-up / sign-in core, modelled in Dafny

This project models the credential logic of an Express authentication API.

- **Sign-up** (`createUser`) refuses an email that is already registered. Otherwise it hashes the password and inserts a user row. The role defaults to `"user"`. It returns the row without its password.
- **Sign-in** (`authenticateUser`) looks a user up by email, checks the password against the stored hash, and returns the same password-free view.
- **Handlers** (`signUp`, `signIn`, `signOut`) turn the validation result and the service outcome into a status code, a JSON body and the `token` cookie, or pass the error to `next`.
- **Formatter** (`formatValidationError`) builds the `details` text of a 400 response.

Files:

- `wrappers.dfy`: `Option` and `Result`. A thrown `Error` is a `Failure` carrying its message, because the handlers match on `e.message`.
- `format.dfy`: the formatter and `Array.prototype.join`.
- `auth_service.dfy`:
  - The users table as a value `Table`: a map from email to row plus the next serial id.
  - The pure specifications `Create` and `Authenticate`.
  - The class `UserStore`, whose methods `CreateUser` and `AuthenticateUser` are proved equal to those specifications.
- `auth_controller.dfy`:
  - The pure reply functions.
  - `ServerResponse`, the part of Express's `res` that the handlers write.
  - The handler methods.

Collaborators the model treats as parameters:

- **bcrypt** is a `Hasher` value holding two uninterpreted total functions, `hash` and `compare`. The only thing assumed about them is `Sound(h)`: `compare(p, hash(p))` holds for every `p`. Only the lemmas that need it carry it as a precondition.
- **`JSON.stringify`** is a parameter `stringify`.
- **The database's `createdAt` default** is a parameter `now`.
- **The signed token** is recorded as the claims `{id, email, role}` it is signed over.

Behaviour of the code worth knowing:

- **Email uniqueness.** The code enforces it by a look-up followed by an insert. The 409 path depends only on that look-up (src/services/auth.service.js:26-33). In this sequential model that is enough.
- **Token issue.** The token is issued by the controller, not the service.
- **Sign-out.** Sign-out clears the `token` cookie.

## Model

| member | source | states |
|---|---|---|
| `Format.FormatValidationError` | src/utils/format.js:1-9 | a falsy error or falsy `issues` gives "Validation Failed"; a non-array `issues` gives the serialisation of the error; an empty array gives ""; one issue gives exactly its message |
| `Format.FormatLength` | src/utils/format.js:4-6 | for n >= 1 issues the text is as long as the messages together plus 2·(n−1) |
| `Format.FormatKeepsOrder` | src/utils/format.js:4-6 | message k stands unchanged at offset (lengths of messages before it) + 2k, preceded by ", " when k > 0: the messages appear in order |
| `Format.Join` | src/utils/format.js:5 | `join(sep)` of no parts is the empty string, and the text begins with the first part; with `JoinLength`, `JoinPlacesPart` and `JoinPlacesSeparator` every character of the joined text is fixed |
| `Format.JoinLength` | src/utils/format.js:5 | `join(sep)` of n >= 1 parts has length sum of the parts + (n−1)·\|sep\| |
| `Format.JoinPlacesPart` | src/utils/format.js:5 | each part occurs at its offset in the joined text |
| `Format.JoinPlacesSeparator` | src/utils/format.js:5 | exactly the separator stands between neighbouring parts |
| `AuthService.Create` | src/services/auth.service.js:24-47 | a known email fails with "User with this email already exists" and leaves the table unchanged. A fresh email adds exactly one row under that email and keeps every other row. The new row has the next id, the given name and email, password = hash(password), role defaulting to "user", and createdAt = now. The result is that row without its password |
| `AuthService.Authenticate` | src/services/auth.service.js:54-78 | "User not found" exactly when the email is absent; "Invalid password" exactly when it is present and `compare` rejects; success exactly otherwise, returning the row without its password |
| `AuthService.CreateKeepsConsistent` | src/services/auth.service.js:26-37 | a sign-up keeps every row filed under its own email with distinct ids below the next id |
| `AuthService.CreateAllKeepsConsistent` | src/services/auth.service.js:26-37 | after any sequence of sign-ups the table is consistent and no two rows share an email |
| `AuthService.CreateAllEmails` | src/services/auth.service.js:26-37 | after a sequence of sign-ups the table holds exactly the old emails plus the emails signed up |
| `AuthService.CreateAllKeepsRows` | src/services/auth.service.js:31-33 | a row once stored is never altered by later sign-ups |
| `AuthService.SecondCreateFails` | src/services/auth.service.js:26-33 | a second sign-up with the same email fails with the conflict message and changes nothing |
| `AuthService.CreateResultHidesPassword` | src/services/auth.service.js:38-47 | what sign-up returns does not depend on the password |
| `AuthService.AuthenticateHidesHash` | src/services/auth.service.js:66-78 | what sign-in returns depends on the stored hash only through the hasher's verdict |
| `AuthService.AuthenticateAfterCreate` | src/services/auth.service.js:34-37 | with a sound hasher, signing in with the password just signed up with succeeds and returns what sign-up returned |
| `AuthService.AuthenticateAfterLaterCreates` | src/services/auth.service.js:54-78 | with a sound hasher, signing in with the sign-up password still succeeds after any later sequence of sign-ups, returning what sign-up returned |
| `AuthService.AuthenticateUnaffectedByOtherCreate` | src/services/auth.service.js:54-69 | a sign-up does not change the outcome of signing in as another email |
| `AuthService.UserStore.constructor` | src/services/auth.service.js:24-37 | a new store is empty, with the first serial id next |
| `AuthService.UserStore.CreateUser` | src/services/auth.service.js:24-52 | the new table and the result are those of `Create` on the old table; the store stays consistent |
| `AuthService.UserStore.AuthenticateUser` | src/services/auth.service.js:54-83 | returns `Authenticate` of the current table and changes nothing |
| `AuthController.SignUpReply` | src/controllers/auth.controller.js:7-40 | 400 with "Validation Failed" and the formatted details exactly when validation fails. 201 exactly on success, with body {id, name, email, role} and token claims {id, email, role} of the created user. 409 "Email already exist" exactly for the duplicate-email error. Every other error goes to `next` unchanged |
| `AuthController.SignInReply` | src/controllers/auth.controller.js:42-72 | 400 exactly when validation fails. 200 exactly on success, with the user body and token claims. 401 "Invalid email or password" exactly for "User not found" or "Invalid password". Any other error goes to `next` |
| `AuthController.ParseFailureIgnoresService` | src/controllers/auth.controller.js:10-16 | a rejected request's response does not depend on the service's outcome |
| `AuthController.TokenMatchesBody` | src/controllers/auth.controller.js:22-29 | whenever either handler sets the token, the status is a success and the claims are the id, email and role of the user in the body |
| `AuthController.SignUpEffect` | src/controllers/auth.controller.js:7-38 | a rejected sign-up gets the 400 validation response and leaves the table unchanged; a validated one always responds: 409 with "Email already exist" and the table unchanged exactly when the email is already stored, 201 exactly when it is fresh, with the table `Create` leaves and the stored row's id, name, email and role as body and id, email and role as token claims |
| `AuthController.SignInEffect` | src/controllers/auth.controller.js:42-70 | a rejected sign-in gets the 400 validation response without the service; a validated one always responds: 200 exactly when the email is stored and `compare` accepts the password against its hash, with the stored row's id, name, email and role as body and id, email and role as token claims; otherwise 401 with "Invalid email or password" and no cookie |
| `AuthController.SignInAlwaysResponds` | src/controllers/auth.controller.js:54-70 | in this model, where the lookup, `compare` and signing cannot fail, sign-in always responds, with 200, 400 or 401, and never reaches `next` |
| `AuthController.SignInHidesRegisteredEmails` | src/controllers/auth.controller.js:67-69 | an unknown email and a wrong password for a known email get the identical 401 response |
| `AuthController.SignUpTwiceConflicts` | src/controllers/auth.controller.js:35-37 | a second sign-up with the same email gets 409 and the table stays as the first left it |
| `AuthController.SignUpThenSignIn` | src/controllers/auth.controller.js:21-63 | with a sound hasher, sign-up (201) then sign-in with the same credentials gives 200 with the same user body and the same token claims |
| `AuthController.ServerResponse.constructor` | src/controllers/auth.controller.js:7 | a response starts with status 200, no body and the cookie untouched |
| `AuthController.ServerResponse.Send` | src/controllers/auth.controller.js:27-31 | sets status and body and keeps the cookie |
| `AuthController.ServerResponse.SetToken` | src/controllers/auth.controller.js:22-23 | records the token claims and keeps status and body |
| `AuthController.ServerResponse.ClearToken` | src/controllers/auth.controller.js:76 | marks the cookie cleared and keeps status and body |
| `AuthController.SignUp` | src/controllers/auth.controller.js:7-40 | the new table and the written response (or the error given to `next`) are those of `SignUpEffect` on the old table; the store stays consistent |
| `AuthController.SignIn` | src/controllers/auth.controller.js:42-72 | the written response (or the error given to `next`) is that of `SignInEffect` on the current table; the store is not modified |
| `AuthController.SignOut` | src/controllers/auth.controller.js:74-86 | clears the token cookie and responds 200 with "User signed out successfully" |

## Left out

- bcrypt internals and its cost factor of 10 (src/services/auth.service.js:8) are not modelled. Hashing is an uninterpreted function with the single property `Sound`.
- The hasher's `hash` is deterministic, while bcrypt salts each hash, so two hashes of one password differ. Nothing proved depends on determinism.
- The wrapped error paths of `hashPassword` and `comparePassword` are not modelled: "Error hashing " and "Error comparing password" (src/services/auth.service.js:9-12, 18-21). The abstract functions are total. The reply functions still send any such message to `next`.
- Database failures other than the duplicate email are not modelled. The table is an in-memory map.
- The concurrent check-then-insert race between two sign-ups cannot arise in a sequential model. Uniqueness is stated as a sequential invariant only.
- Token signing (src/utils/jws.js) is not part of this model. Only the claims handed to it are recorded, so the `expiresIn: '1d'` setting is not modelled either.
- A signing failure is not modelled. In sign-up it would go to `next` and leave the stored row in place. In sign-in it would go to `next` instead of the 200 response (src/controllers/auth.controller.js:55, 70).
- The error path of src/utils/jws.js refers to an unimported `logger` and an undefined `error`. It would throw a ReferenceError instead of its own error. That file is not part of this model.
- Cookie transport (the cookies helper is not part of this model) and all logger calls are left out.
- The zod schemas are not part of this model. A validation result is an input.
- The `catch` of `signOut` (src/controllers/auth.controller.js:82-85) is not modelled, because nothing in the model throws there.
- The routes (src/route/auth.routes.js) are not modelled. They send sign-in and sign-out to stub handlers, so only `signUp` reaches the controller.
- The rate-limiting configuration (src/config/arcjet.js) is not modelled. It has no logic.
