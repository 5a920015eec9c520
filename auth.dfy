/**
 * The credential table and the two authentication endpoints: `register`
 * appends a user whose stored password is a hash, `login` looks the user up
 * and issues a token.
 */
module Auth {
  import opened Wrappers
  import opened Models

  /**
   * The password hashing library (`generate_password_hash` and
   * `check_password_hash`), kept abstract: the model only knows the two
   * functions and, where it matters, that they are `Sound`.
   */
  datatype Hasher = Hasher(hash: string -> string, check: (string, string) -> bool)

  /** A stored hash checks against exactly the password it was made from. */
  ghost predicate Sound(h: Hasher)
  {
    forall p, q :: h.check(h.hash(p), q) <==> p == q
  }

  /**
   * The JSON body of a register or login request. `None` for the whole body is
   * a JSON body that Python treats as false (`null`, `{}`, `[]`, ...); `None`
   * for a field is an absent key.
   */
  datatype Credentials = Credentials(email: Option<string>, password: Option<string>)

  /** A field is given when it is present and not empty (Python truthiness of a string). */
  predicate Given(field: Option<string>)
  {
    field.Some? && field.value != ""
  }

  /** The guard both endpoints open with: a body holding a non-empty email and password. */
  predicate Complete(body: Option<Credentials>)
  {
    body.Some? && Given(body.value.email) && Given(body.value.password)
  }

  /** The replies of `register`. */
  datatype RegisterReply = Registered | CredentialsRequired | AlreadyRegistered
  {
    function Status(): int
    {
      if Registered? then 201 else 400
    }

    function Message(): string
    {
      match this
      case Registered => "User registered successfully"
      case CredentialsRequired => "Email and password are required"
      case AlreadyRegistered => "User already registered"
    }
  }

  /**
   * `generate_token` (kept abstract): the signed token for a user id, or None
   * when it raises, as it does for any failure of the encoder.
   */
  type Issuer = Uuid -> Option<string>

  /** The replies of `login`. */
  datatype LoginReply =
    | TokenIssued(token: string)
    | LoginFieldsRequired
    | InvalidCredentials
    | TokenNotIssued  // the exception from generate_token escapes `login`
  {
    function Status(): int
    {
      match this
      case TokenIssued(_) => 200
      case LoginFieldsRequired => 400
      case InvalidCredentials => 401
      case TokenNotIssued => 500
    }

    function Message(): string
      requires LoginFieldsRequired? || InvalidCredentials?
    {
      if LoginFieldsRequired? then "Email and password are required" else "Invalid email or password"
    }
  }

  /** `User.query.filter_by(email=e).first()`: the first user with this email. */
  function FindByEmail(users: seq<User>, email: string): (r: Option<User>)
    ensures r.Some? ==> r.value in users && r.value.email == email
    ensures r.None? <==> forall u :: u in users ==> u.email != email
    decreases |users|
  {
    if |users| == 0 then None
    else if users[0].email == email then Some(users[0])
    else FindByEmail(users[1..], email)
  }

  /** The invariant of the users table: emails are unique and ids are primary keys. */
  ghost predicate TableValid(users: seq<User>)
  {
    && (forall i, j :: 0 <= i < j < |users| ==> users[i].email != users[j].email)
    && DistinctUserIds(users)
  }

  /** How many users hold this email. */
  function CountEmail(users: seq<User>, email: string): nat
    decreases |users|
  {
    if |users| == 0 then 0
    else (if users[0].email == email then 1 else 0) + CountEmail(users[1..], email)
  }

  /** In a valid table an email that is present is held by exactly one user. */
  lemma {:induction false} PresentEmailCountsOnce(users: seq<User>, email: string)
    requires TableValid(users)
    requires exists u :: u in users && u.email == email
    ensures CountEmail(users, email) == 1
    decreases |users|
  {
    var rest := users[1..];
    assert TableValid(rest) by {
      forall i, j | 0 <= i < j < |rest|
        ensures rest[i].email != rest[j].email && rest[i].id != rest[j].id
      {
        assert rest[i] == users[i + 1] && rest[j] == users[j + 1];
      }
    }
    if users[0].email == email {
      AbsentEmailCountsZero(rest, email);
    } else {
      var u :| u in users && u.email == email;
      assert u in rest;
      PresentEmailCountsOnce(rest, email);
    }
  }

  /** No user holds an email that no row carries. */
  lemma {:induction false} AbsentEmailCountsZero(users: seq<User>, email: string)
    requires forall u :: u in users ==> u.email != email
    ensures CountEmail(users, email) == 0
    decreases |users|
  {
    if |users| > 0 {
      forall u | u in users[1..] ensures u.email != email {
        var k :| 0 <= k < |users[1..]| && users[1..][k] == u;
        assert users[k + 1] == u;
      }
      AbsentEmailCountsZero(users[1..], email);
    }
  }

  /**
   * `login`: check the fields, find the user by email, check the hash, issue a
   * token for the user's id; an exception from issuing is not caught.
   */
  function Login(users: seq<User>, body: Option<Credentials>, hasher: Hasher, issue: Issuer): (r: LoginReply)
    ensures r == LoginFieldsRequired <==> !Complete(body)
    ensures r.TokenIssued? || r.TokenNotIssued? ==>
              exists u :: u in users && u.email == body.value.email.value
                          && hasher.check(u.password, body.value.password.value)
                          && r == (if issue(u.id).Some? then TokenIssued(issue(u.id).value) else TokenNotIssued)
  {
    if !Complete(body) then LoginFieldsRequired
    else
      var email, password := body.value.email.value, body.value.password.value;
      match FindByEmail(users, email)
      case None => InvalidCredentials
      case Some(u) =>
        if !hasher.check(u.password, password) then InvalidCredentials
        else
          match issue(u.id)
          case None => TokenNotIssued
          case Some(token) => TokenIssued(token)
  }

  /**
   * Against a valid table and a sound hasher, `login` with a complete body fails
   * exactly when no user has both that email and that password, and succeeds
   * with the token issued for that user otherwise (or 500 when issuing it
   * raises). An unknown email and a wrong password give the same reply.
   */
  lemma LoginMeansMatchingUser(users: seq<User>, email: string, password: string, hasher: Hasher, issue: Issuer)
    requires TableValid(users)
    requires email != "" && password != ""
    ensures var r := Login(users, Some(Credentials(Some(email), Some(password))), hasher, issue);
      && (r == InvalidCredentials <==> forall u :: u in users && u.email == email ==> !hasher.check(u.password, password))
      && (r != InvalidCredentials ==>
            exists u :: && u in users && u.email == email
                        && r == (if issue(u.id).Some? then TokenIssued(issue(u.id).value) else TokenNotIssued))
  {
    var found := FindByEmail(users, email);
    if found.Some? {
      forall u | u in users && u.email == email
        ensures u == found.value
      {
        SameEmailSameUser(users, u, found.value);
      }
    }
  }

  /** Two users of a valid table with the same email are the same user. */
  lemma SameEmailSameUser(users: seq<User>, u: User, v: User)
    requires TableValid(users)
    requires u in users && v in users && u.email == v.email
    ensures u == v
  {
  }

  /** The user `register` appends for an email and a password. */
  function RegisteredUser(email: string, password: string, hasher: Hasher, freshId: Uuid, now: Timestamp): User
  {
    NewUser(email, hasher.hash(password), freshId, now)
  }

  /**
   * `register(e, p)` followed by `login(e, p)`: with a sound hasher, the login
   * passes the hash check and asks for a token for the id of the user just
   * appended: 200 with that token, or 500 when issuing it raises.
   */
  lemma RegisterThenLogin(users: seq<User>, email: string, password: string, hasher: Hasher,
                          issue: Issuer, freshId: Uuid, now: Timestamp)
    requires Sound(hasher)
    requires email != "" && password != ""
    requires FindByEmail(users, email).None?
    ensures Login(users + [RegisteredUser(email, password, hasher, freshId, now)],
                  Some(Credentials(Some(email), Some(password))), hasher, issue)
            == if issue(freshId).Some? then TokenIssued(issue(freshId).value) else TokenNotIssued
  {
  }

  /** The users table: a sequence of rows that `register` appends to. */
  class UserTable {
    var users: seq<User>

    ghost predicate Valid()
      reads this
    {
      TableValid(users)
    }

    constructor ()
      ensures Valid() && users == []
    {
      users := [];
    }

    /**
     * `register`: a body without a non-empty email and password is refused
     * with 400, an email already present is refused with 400, and otherwise
     * one user is appended whose stored password is the hash of the given
     * one. A refusal leaves the table as it was.
     */
    method Register(body: Option<Credentials>, hasher: Hasher, freshId: Uuid, now: Timestamp) returns (r: RegisterReply)
      requires Valid()
      requires forall u :: u in users ==> u.id != freshId
      modifies this
      ensures Valid()
      ensures !Complete(body) ==> r == CredentialsRequired && users == old(users)
      ensures Complete(body) && FindByEmail(old(users), body.value.email.value).Some? ==>
                r == AlreadyRegistered && users == old(users)
      ensures Complete(body) && FindByEmail(old(users), body.value.email.value).None? ==>
                && r == Registered
                && users == old(users) + [RegisteredUser(body.value.email.value, body.value.password.value, hasher, freshId, now)]
    {
      if !Complete(body) {
        return CredentialsRequired;
      }
      var email, password := body.value.email.value, body.value.password.value;
      if FindByEmail(users, email).Some? {
        return AlreadyRegistered;
      }
      var hashed := hasher.hash(password);
      var nu := NewUser(email, hashed, freshId, now);
      users := users + [nu];
      r := Registered;
    }
  }

  /**
   * Registering a new email twice: the first request appends the user, the
   * second is refused, and the table then holds exactly one user with that
   * email.
   */
  method RegisterTwice(table: UserTable, email: string, password: string, hasher: Hasher,
                       id1: Uuid, id2: Uuid, now: Timestamp) returns (first: RegisterReply, second: RegisterReply)
    requires table.Valid() && FindByEmail(table.users, email).None?
    requires email != "" && password != ""
    requires id1 != id2
    requires forall u :: u in table.users ==> u.id != id1 && u.id != id2
    modifies table
    ensures first == Registered && second == AlreadyRegistered
    ensures |table.users| == |old(table.users)| + 1 && CountEmail(table.users, email) == 1
  {
    var body := Some(Credentials(Some(email), Some(password)));
    first := table.Register(body, hasher, id1, now);
    assert table.users[|table.users| - 1] in table.users;
    second := table.Register(body, hasher, id2, now);
    PresentEmailCountsOnce(table.users, email);
  }
}
