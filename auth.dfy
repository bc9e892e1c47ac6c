/**
 * Registration and login request handling: the validation chain over the
 * request body, the role default, the public projection of a user, and
 * the credential check. The user store, password hashing and token signing
 * are not modelled; their answers are inputs here.
 */
module Auth {
  import opened Wrappers
  import opened Text
  import opened Utf16

  /** `{ name, email, password, role, phone } = req.body`; each key may be missing. */
  datatype RegisterBody = RegisterBody(
    name: Option<string>,
    email: Option<string>,
    password: Option<string>,
    role: Option<string>,
    phone: Option<string>)

  /** An error response: HTTP status and `message`. */
  datatype Rejection = Rejection(status: int, message: string)

  /** The record handed to the user store. */
  datatype NewUser = NewUser(name: string, email: string, password: string, role: string, phone: Option<string>)

  /** A stored user; `passwordHash` never leaves the server. */
  datatype StoredUser = StoredUser(id: string, name: string, email: string, role: string, passwordHash: string)

  /** The `user` object of a successful response. */
  datatype PublicUser = PublicUser(id: string, name: string, email: string, role: string)

  const MissingFields := Rejection(400, "Name, email, and password are required")
  const BadEmail := Rejection(400, "Invalid email format")
  const ShortPassword := Rejection(400, "Password must be at least 6 characters long")
  const EmailTaken := Rejection(400, "Email already in use")
  const BadCredentials := Rejection(400, "Invalid credentials")

  /** One `[^\s@]+` run: non-empty, no white space, no '@'. */
  predicate Atom(s: string)
  {
    |s| > 0 && forall i :: 0 <= i < |s| ==> !IsSpace(s[i]) && s[i] != '@'
  }

  /**
   * `/^[^\s@]+@[^\s@]+\.[^\s@]+$/.test(email)`: a run, '@', a run, '.',
   * a run, and nothing else. The middle run may itself contain dots.
   */
  predicate EmailMatches(email: string)
  {
    exists at, dot | 0 < at < dot < |email| ::
      && email[at] == '@' && email[dot] == '.'
      && Atom(email[..at]) && Atom(email[at + 1..dot]) && Atom(email[dot + 1..])
  }

  /** The same language described by its parts. */
  predicate EmailShape(email: string)
  {
    && (forall i :: 0 <= i < |email| ==> !IsSpace(email[i]))
    && exists at | 0 <= at < |email| :: EmailShapeAt(email, at)
  }

  /**
   * '@' at `at` is the only one, the local part before it is non-empty,
   * and the domain after it has a '.' that is neither its first nor its
   * last character.
   */
  predicate EmailShapeAt(email: string, at: int)
  {
    && 0 < at < |email|
    && email[at] == '@'
    && (forall i :: 0 <= i < |email| && i != at ==> email[i] != '@')
    && exists k | at + 1 < k < |email| - 1 :: email[k] == '.'
  }

  /**
   * An email passes the format check exactly when it has one '@' and no
   * white space, a non-empty local part, and a dot strictly inside the
   * domain.
   */
  lemma EmailMatchesIffShape(email: string)
    ensures EmailMatches(email) <==> EmailShape(email)
  {
    if EmailMatches(email) {
      MatchHasShape(email);
    }
    if EmailShape(email) {
      ShapeMatches(email);
    }
  }

  lemma MatchHasShape(email: string)
    requires EmailMatches(email)
    ensures EmailShape(email)
  {
    var at, dot :| 0 < at < dot < |email| && email[at] == '@' && email[dot] == '.'
      && Atom(email[..at]) && Atom(email[at + 1..dot]) && Atom(email[dot + 1..]);
    forall i | 0 <= i < |email| && i != at
      ensures !IsSpace(email[i]) && email[i] != '@'
    {
      if i < at {
        assert email[i] == email[..at][i];
      } else if i < dot {
        assert email[i] == email[at + 1..dot][i - at - 1];
      } else if i > dot {
        assert email[i] == email[dot + 1..][i - dot - 1];
      }
    }
    assert EmailShapeAt(email, at);
  }

  lemma ShapeMatches(email: string)
    requires EmailShape(email)
    ensures EmailMatches(email)
  {
    var at :| 0 <= at < |email| && EmailShapeAt(email, at);
    var dot :| at + 1 < dot < |email| - 1 && email[dot] == '.';
    assert Atom(email[..at]);
    assert Atom(email[at + 1..dot]);
    assert Atom(email[dot + 1..]);
  }

  /** `role || 'customer'` */
  function RoleOrDefault(role: Option<string>): (r: string)
    ensures r != ""
    ensures Filled(role) ==> r == role.value
    ensures !Filled(role) ==> r == "customer"
  {
    OrElse(role, "customer")
  }

  /**
   * The registration chain: required fields, then email format, then
   * password length (in UTF-16 code units), then the duplicate-email lookup,
   * whose answer is `emailInUse`. The first failing check decides the
   * response; when all pass, the record to store has the role defaulted.
   */
  function Register(body: RegisterBody, emailInUse: bool): (r: Result<NewUser, Rejection>)
    ensures r == Failure(MissingFields) <==> !Filled(body.name) || !Filled(body.email) || !Filled(body.password)
    ensures r == Failure(BadEmail) <==>
      Filled(body.name) && Filled(body.email) && Filled(body.password) && !EmailMatches(body.email.value)
    ensures r == Failure(ShortPassword) <==>
      Filled(body.name) && Filled(body.email) && Filled(body.password) && EmailMatches(body.email.value)
      && Utf16Length(body.password.value) < 6
    ensures r == Failure(EmailTaken) <==>
      Filled(body.name) && Filled(body.email) && Filled(body.password) && EmailMatches(body.email.value)
      && Utf16Length(body.password.value) >= 6 && emailInUse
    ensures r.Success? ==>
      && r.value.name == body.name.value && r.value.email == body.email.value
      && r.value.password == body.password.value && r.value.phone == body.phone
      && r.value.role == RoleOrDefault(body.role)
      && Utf16Length(r.value.password) >= 6 && EmailShape(r.value.email)
  {
    if !Filled(body.name) || !Filled(body.email) || !Filled(body.password) then Failure(MissingFields)
    else if !EmailMatches(body.email.value) then Failure(BadEmail)
    else if Utf16Length(body.password.value) < 6 then Failure(ShortPassword)
    else if emailInUse then Failure(EmailTaken)
    else
      EmailMatchesIffShape(body.email.value);
      Success(NewUser(body.name.value, body.email.value, body.password.value, RoleOrDefault(body.role), body.phone))
  }

  /** `{ id, name, email, role }` of a stored user. */
  function Public(u: StoredUser): PublicUser
  {
    PublicUser(u.id, u.name, u.email, u.role)
  }

  /** The response for a user does not depend on the user's password hash. */
  lemma PublicIgnoresPassword(u: StoredUser, otherHash: string)
    ensures Public(u.(passwordHash := otherHash)) == Public(u)
  {
  }

  /**
   * Login: `found` is the user the store returns for the email and
   * `passwordMatches` the hash comparison, consulted only for a found user.
   */
  function Login(found: Option<StoredUser>, password: string, passwordMatches: (StoredUser, string) -> bool)
    : (r: Result<PublicUser, Rejection>)
    ensures r.Success? <==> found.Some? && passwordMatches(found.value, password)
    ensures r.Success? ==> r.value == Public(found.value)
    ensures r.Failure? ==> r.error == BadCredentials
  {
    match found
    case None => Failure(BadCredentials)
    case Some(u) => if passwordMatches(u, password) then Success(Public(u)) else Failure(BadCredentials)
  }

  /** An unknown email and a wrong password get the very same response. */
  lemma LoginFailuresIndistinguishable(u: StoredUser, password: string, passwordMatches: (StoredUser, string) -> bool)
    requires !passwordMatches(u, password)
    ensures Login(None, password, passwordMatches) == Login(Some(u), password, passwordMatches)
  {
  }
}
