# To-do list API: users, tokens and owner-scoped tasks

This project models the core of a small Flask to-do service in Dafny and proves
properties of it. The service has two tables:

- **users**: a row is an id, a unique email, a password hash and a creation time.
  `register` appends rows. `login` reads them and issues a token.
- **tasks**: a row is an id, a title, a description, a completion flag, a creation
  time and the owner's `user_id`.

A gate runs before every task route. It turns the `Authorization` header into a
user id. Each of the five task handlers then works only on rows owned by that id.

Files and modules:

- `wrappers.dfy` (`Wrappers`): `Option`.
- `models.dfy` (`Models`): the `User` and `Task` rows and their column defaults
  (`NewUser`, `NewTask`). Also `as_dict` (`AsDict`) with its inverse, and the two
  sides of the user/task relationship. `app/models/task.py` and
  `app/models/user.py` declare the same two classes as `app/models.py`. They are
  modelled once.
- `auth.dfy` (`Auth`): `register` is a method of the class `UserTable`, which
  holds the users as a sequence it appends to. `login` is a pure function over
  that sequence. Password hashing is an abstract `Hasher`: a pair of functions.
  Where it matters, they are assumed `Sound`: `check(hash(p), q)` holds exactly
  when `p == q`. Token issue is a function parameter `issue`.
- `tasks.dfy` (`Tasks`): the gate (`Gate`). It also holds one specification
  function per handler (`CreateOutcome`, `ListTasks`, `GetTaskById`,
  `UpdateOutcome`, `DeleteOutcome`) and `ServeOutcome`, which runs a whole request.
  The class `TaskTable` holds the table as a `map` from id to task. Its methods
  `CreateTask`, `UpdateTask`, `DeleteTask` and `Serve` change that map in place.
  Each is proved equal to its specification function.
  `verify_token` is a function parameter. It yields the subject claim, or
  `Expired`, `Invalid` or `VerifyFailed` for the three exceptions it re-raises.
  Parsing and printing UUIDs (`uuid.UUID(s)`, `str(u)`) is the abstract `UuidText`.

UUID generation (`uuid.uuid4`) and the clock (`datetime.now`) are parameters
(`freshId`, `now`). Where an operation stores a row under the generated id, it
requires that id to be unused. This stands for the assumption that uuid4 does
not collide.

Three behaviours of the code that a reader might not expect, all kept in the
model:

- The code does not turn an expired or invalid token into a 401. The exceptions that
  `verify_token` re-raises are not caught by the gate, so they escape the
  request. A subject that is not a UUID makes `uuid.UUID` raise `ValueError`,
  which also escapes. The model gives both their own outcomes
  (`VerificationError`, `MalformedSubject`), with status 500.
- The check after parsing the subject (app/routes/tasks.py:43) refuses only an
  empty subject. Parsing the empty string has already raised by then, so that
  401 is never produced (`SubjectCheckRefusesOnlyEmpty`).
- `create_task` does not reject an empty title or description. A missing key
  raises `KeyError`, which the model gives as `FieldMissing` (status 500).

## Model

| member | source | states |
|---|---|---|
| `Models.NewUser` | app/models/user.py:21-24 | a new user gets the generated id and the current time; email and password hash are the given ones |
| `Models.NewTask` | app/models.py:38-44 | a new task is not completed; it gets the generated id and the current time and is owned by the given user |
| `Models.AsDict` | app/models.py:50-63 | `as_dict` has exactly the six keys id, title, description, completed, created_at, user_id |
| `Models.AsDictRoundTrip` | app/models/task.py:33-46 | every field can be read back unchanged from `as_dict` under its own name |
| `Models.FindUserById` | app/models.py:45 | a lookup by primary key finds a row with that id, or shows that no row has it |
| `Models.SameIdSameUser` | app/models/user.py:21 | in a users table with distinct ids, two rows with the same id are the same row |
| `Models.OwnerOf` | app/models.py:45 | `task.user` is a stored user whose id is the task's `user_id`, or there is none when no stored user has that id |
| `Models.TasksOf` | app/models.py:27 | `user.tasks` holds exactly the stored tasks whose `user_id` is the user's id |
| `Models.RelationshipSidesAgree` | app/models.py:27-45 | a task is in `u.tasks` exactly when `task.user` is `u` |
| `Auth.FindByEmail` | app/routes/auth.py:39 | the email query finds a user with that email, or none exists |
| `Auth.SameEmailSameUser` | app/models.py:23 | in a valid users table, two rows with the same email are the same row |
| `Auth.PresentEmailCountsOnce` | app/models/user.py:22 | in a valid users table, an email that is present is held by exactly one user |
| `Auth.UserTable.Register` | app/routes/auth.py:34-48 | missing data or an empty email or password gives 400 and no change; a taken email gives 400 and no change; otherwise exactly one user is appended, whose stored password is `hash(password)`; email uniqueness and id uniqueness are kept; the guard is `Complete` (with `Given` for each field) and the appended row is `RegisteredUser` |
| `Auth.RegisterTwice` | app/routes/auth.py:39-40 | starting from any valid table without that email, registering the same email twice gives 201 then 400 "User already registered"; the table grows by one row and holds exactly one user with that email |
| `Auth.Login` | app/routes/auth.py:66-78 | missing fields give 400 (and nothing else does); a 200 with a token, or the 500 of an escaped `generate_token` exception, happens only for a stored user with that email whose hash checks against the password, and the token is the one issued for that user's id; the 400 guard is the same `Complete` predicate `register` uses (app/routes/auth.py:36, :68) |
| `Auth.LoginMeansMatchingUser` | app/routes/auth.py:71-76 | with a complete body, login gives 401 exactly when no user has that email and that password; the reply is the same for an unknown email and a wrong password; otherwise the reply is the token issued for that user's id, or 500 when issuing it raises |
| `Auth.RegisterThenLogin` | app/routes/auth.py:42-48 | after `register(e, p)` succeeds, `login(e, p)` passes the hash check and returns the token issued for the new user's id (500 if issuing it raises) |
| `Tasks.Gate` | app/routes/tasks.py:25-46 | an absent or empty header, and only that, gives "Token is missing"; a bound user id is the parse of the subject the token verifies to; a verification error carries the failing check of the given token |
| `Tasks.NoTokenIsRefused` | app/routes/tasks.py:34-37 | a request with no `Authorization` header, or an empty one, gets 401 "Token is missing" |
| `Tasks.GateAuthenticatesParsedSubject` | app/routes/tasks.py:39-46 | the gate binds user id `u` exactly when the token verifies to a subject that parses as `u` |
| `Tasks.SubjectCheckRefusesOnlyEmpty` | app/routes/tasks.py:41-44 | the 401 after parsing happens only for an empty subject that parsed; if the empty string is not a UUID, it never happens |
| `Tasks.VerificationErrorsEscape` | app/routes/tasks.py:39 | an expired, invalid or failing token gives an escaped verification error, not a 401 |
| `Tasks.RefusedRequestChangesNothing` | app/routes/tasks.py:25-46 | when the gate refuses a request, no handler runs and the tasks table is unchanged |
| `Tasks.ServeRunsHandlerForBoundUser` | app/routes/tasks.py:46-159 | a request the gate lets through with user id `u` runs the handler of its route for `u` ("for the authenticated user"); a task id that is not a UUID escapes as 500 with the table unchanged |
| `Tasks.ResponseDependsOnlyOnOwnRows` | app/routes/tasks.py:46-159 | for a request bound to user `u`, two tables that agree on `u`'s rows give the same response |
| `Tasks.FindOwned` | app/routes/tasks.py:98 | `filter_by(id=..., user_id=...).first()` finds a row exactly when the id is among the caller's rows, and returns that row, owned by the caller |
| `Tasks.FindOwnedIsTheQuery` | app/routes/tasks.py:98 | under the primary-key invariant, the lookup finds a task exactly when a row has both that id and that owner, and it returns that row |
| `Tasks.CreateOutcome` | app/routes/tasks.py:62-69 | create succeeds exactly when title and description are both given; the new row is stored under the fresh id, owned by the caller, not completed, and the reply reads back as that row; a missing field is a `KeyError` with the table unchanged; no other row changes |
| `Tasks.ListTasks` | app/routes/tasks.py:81-83 | the listing has exactly the caller's rows (filtered by `user_id`), each entry reading back as that row's `as_dict` |
| `Tasks.GetTaskById` | app/routes/tasks.py:98-103 | the reply is 200 with the row exactly when the id is one of the caller's rows, and 404 otherwise |
| `Tasks.UpdateOutcome` | app/routes/tasks.py:123-136 | the update succeeds exactly when the id is one of the caller's rows; the reply reads back as the stored new row; otherwise 404 and no change; keys and owners are kept and only that row changes |
| `Tasks.DeleteOutcome` | app/routes/tasks.py:151-159 | the delete succeeds exactly when the id is one of the caller's rows, and then removes exactly that key; otherwise 404 and no change; no other row changes |
| `Tasks.ServeOutcome` | app/routes/tasks.py:25-159 | a request the gate refuses is answered by the gate with the table unchanged; a task id that is not a UUID, a listing and a read leave the table unchanged; a request the gate lets through for user `u` (with a fresh generated id) leaves every row of another user as it was, and every row it adds is owned by `u` |
| `Tasks.ApplyPatch` | app/routes/tasks.py:130-132 | a supplied title, description or completed replaces the old value; an absent one keeps it; id, owner and created_at never change |
| `Tasks.ApplyPatchIdempotent` | app/routes/tasks.py:130-132 | applying the same partial update twice equals applying it once |
| `Tasks.CreateAddsOneOwnedTask` | app/routes/tasks.py:64-69 | create adds exactly one row under the fresh id, owned by the caller, not completed, with the given title and description; no other row changes; the reply is that row's dictionary; a missing field adds nothing |
| `Tasks.UpdateTouchesOnlyItsTask` | app/routes/tasks.py:125-136 | updating a task the caller owns rewrites only that row, keeps its owner and replies with its new dictionary; any other id gives 404 and no change |
| `Tasks.DeleteRemovesOnlyItsTask` | app/routes/tasks.py:151-159 | deleting a task the caller owns removes exactly that row; any other id gives 404 and no change |
| `Tasks.ForeignTaskLooksMissing` | app/routes/tasks.py:98-101 | another user's task gets the same read, update and delete replies as a missing one, and nothing changes |
| `Tasks.RepliesDependOnlyOnOwnRows` | app/routes/tasks.py:81-154 | two tables that agree on a user's rows give that user the same listing and lookups, and the same update and delete replies |
| `Tasks.ListingAfterCreate` | app/routes/tasks.py:81-83 | a new task joins its owner's listing as exactly one more entry, and leaves every other user's listing unchanged |
| `Tasks.TwoCreatesListTwo` | app/routes/tasks.py:64-83 | two creates by a user who had no tasks give a listing of length 2 |
| `Tasks.CreateListDeleteScenario` | app/routes/tasks.py:64-159 | create gives 201 with completed false; the listing has one entry; another user gets 404; delete succeeds; reading the task again gives 404 |
| `Tasks.ServeKeepsOwnersAndKeys` | app/routes/tasks.py:64-157 | no request changes the owner of any task, and every request keeps every row stored under its own id |
| `Tasks.TaskTable.CreateTask` | app/routes/tasks.py:62-69 | the in-place insert gives the reply and table of `CreateOutcome`; ownership and the key invariant are kept |
| `Tasks.TaskTable.UpdateTask` | app/routes/tasks.py:123-136 | the three in-place field assignments give the reply and table of `UpdateOutcome` |
| `Tasks.TaskTable.DeleteTask` | app/routes/tasks.py:151-159 | the in-place removal gives the reply and table of `DeleteOutcome` |
| `Tasks.TaskTable.Serve` | app/routes/tasks.py:25-159 | the gate runs first, then the handler for the route in place; the result is `ServeOutcome`; a request the gate lets through for user `u` changes no row of another user and adds only rows owned by `u` |

## Left out

- Token signing and expiry (app/utils/token.py) are not modelled. HS256 signatures, the secret key, and the one-day `exp` claim are left out. `verify_token` is an abstract parameter. It yields a subject or one of the three exceptions it re-raises. `generate_token` is the abstract parameter `issue`. It returns no token when it raises, for whatever reason (for example a subject the encoder cannot serialise, or a missing secret key); `login` does not catch that exception, so the model answers 500 (`TokenNotIssued`). Which inputs make the encoder fail is not modelled.
- Password hashing is abstract. Salting, randomness and one-wayness are not modelled. The only assumption is `Sound`.
- Auth.UserTable.Register: the model proves the stored password is `hash(password)`, but not that it differs from the plaintext. This is weaker than "never the plaintext" because the hash function is abstract.
- Storage faults are left out. This covers a failing commit (the 500 at app/routes/auth.py:49-50) and a uuid4 collision. The generated id is required to be unused instead.
- Foreign keys are not checked. `user_id` is declared as a foreign key to `users.id` (app/models.py:44), but neither the code nor the default SQLite database enforces it. So the gate does not check that the user behind a token still exists, and a task may name a user who is not in the users table. A database that enforces the key would fail the commit instead; that is a storage fault, left out above.
- Request bodies are typed: a field is absent or holds a value of the expected type. A task-route body that is not a JSON object is not modelled. A register or login body that is not a JSON object but is not false in Python (`[1]`, `"x"`, `1`) is not modelled: the code raises `AttributeError` at `data.get` and answers 500. A request that is not JSON at all is not modelled either: `request.get_json()` answers it with Flask's own error reply before the handler's guard runs. JSON values of other types are not modelled. A `null` that would fail the NOT NULL constraint on commit is not modelled.
- The listing is keyed by task id. The order in which `get_tasks` returns rows is not modelled.
- An escaped exception gets status 500. The framework's option to propagate exceptions in testing mode is not modelled.
- UUID text is abstract: the syntax `uuid.UUID` accepts and the form `str` prints.
- Timestamps are natural numbers. Real clock values are not modelled.
- Concurrency and transactions are left out. Each handler is one atomic update of the table.
- Configuration, the application factory and blueprint registration contain no logic and are not modelled.
