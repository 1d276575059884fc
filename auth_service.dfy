/** The authentication service (src/auth/auth.service.ts): the user-response projection,
    login, registration, token refresh and token verification over the users service.
    bcrypt's `compare` and the JWT service's `sign` and `verify` are kept abstract. */
module Auth {
  import opened Common
  import opened UserEntity
  import opened Users
  import opened RegisterDto

  const InvalidCredentials: string := "Invalid credentials"
  const InvalidRefreshToken: string := "Invalid refresh token"

  /** A property value of a plain object; `Undefined` is what reading an absent one gives. */
  datatype Value = Str(s: string) | Num(n: int) | Undefined

  /** A plain object, as `toObject()` returns it: property names to values. */
  type Document = map<string, Value>

  function Get(doc: Document, key: string): (v: Value) {
    if key in doc then doc[key] else Undefined
  }

  /** JavaScript truthiness: the empty string, zero and `undefined` are falsy. */
  predicate Truthy(v: Value) {
    match v
    case Str(s) => s != ""
    case Num(n) => n != 0
    case Undefined => false
  }

  /** `toObject()` of a stored user: every stored property, the id and the version key. */
  function ToObject(id: Id, u: User): (d: Document)
    ensures d.Keys == {"_id", "email", "phone", "password_hash", "role", "__v"} +
      (if u.business_verification.Some? then {"business_verification"} else {})
    ensures d["password_hash"] == Str(u.password_hash) && d["__v"] == Num(0)
    ensures Get(d, "_id") == Str(id) && Get(d, "email") == Str(u.email)
    ensures Get(d, "phone") == Str(u.phone) && Get(d, "role") == Str(RoleName(u.role))
    ensures u.business_verification.Some? <==> "business_verification" in d
    ensures u.business_verification.Some? ==> d["business_verification"] == Str(u.business_verification.value)
  {
    var stored := map[
      "_id" := Str(id),
      "email" := Str(u.email),
      "phone" := Str(u.phone),
      "password_hash" := Str(u.password_hash),
      "role" := Str(RoleName(u.role)),
      "__v" := Num(0)];
    if u.business_verification.Some? then stored["business_verification" := Str(u.business_verification.value)]
    else stored
  }

  /** `sanitizeUser`: the object without `password_hash` and `__v`, everything else kept. */
  function Sanitize(doc: Document): (r: Document)
    ensures "password_hash" !in r && "__v" !in r
    ensures r.Keys == doc.Keys - {"password_hash", "__v"}
    ensures forall k :: k in r ==> r[k] == doc[k]
  {
    doc - {"password_hash", "__v"}
  }

  /** `prepareUserResponse`: an allow-list of `_id`, `email`, `phone` and `role`, with
      `business_verification` only when it is truthy; never the password hash. */
  function PrepareUserResponse(doc: Document): (r: Document)
    ensures r.Keys <= {"_id", "email", "phone", "role", "business_verification"}
    ensures "password_hash" !in r && "__v" !in r
    ensures "_id" in r && r["_id"] == Get(doc, "_id")
    ensures "email" in r && r["email"] == Get(doc, "email")
    ensures "phone" in r && r["phone"] == Get(doc, "phone")
    ensures "role" in r && r["role"] == Get(doc, "role")
    ensures "business_verification" in r <==> Truthy(Get(doc, "business_verification"))
    ensures "business_verification" in r ==> r["business_verification"] == doc["business_verification"]
  {
    var sanitized := Sanitize(doc);
    var picked := map[
      "_id" := Get(sanitized, "_id"),
      "email" := Get(sanitized, "email"),
      "phone" := Get(sanitized, "phone"),
      "role" := Get(sanitized, "role")];
    if Truthy(Get(sanitized, "business_verification")) then
      picked["business_verification" := Get(sanitized, "business_verification")]
    else picked
  }

  /** The response of a stored user never carries the hash, and carries the business
      verification number exactly when the user has a non-empty one. */
  lemma UserResponseOfStoredUser(id: Id, u: User)
    ensures "password_hash" !in PrepareUserResponse(ToObject(id, u))
    ensures "business_verification" in PrepareUserResponse(ToObject(id, u)) <==>
      u.business_verification.Some? && u.business_verification.value != ""
    ensures PrepareUserResponse(Sanitize(ToObject(id, u))) == PrepareUserResponse(ToObject(id, u))
  {
    var d := ToObject(id, u);
    assert Get(Sanitize(d), "business_verification") == Get(d, "business_verification");
  }

  /** `register`'s body for the users service: the business verification number is passed
      on for sellers only. */
  function ForwardToUsers(dto: RegisterDto): (c: CreateUserDto)
    ensures c.business_verification.Some? ==> dto.role == Seller
    ensures dto.role == Seller ==> c.business_verification == dto.business_verification
    ensures c.email == dto.email && c.phone == dto.phone
    ensures c.password == dto.password && c.role == dto.role
  {
    CreateUserDto(dto.email, dto.phone, dto.password, dto.role,
      if dto.role == Seller then dto.business_verification else None)
  }

  datatype LoginDto = LoginDto(email: string, password: string)

  /** The claims signed into both tokens, read from a user object as `{ sub: user._id,
      email: user.email, role: user.role }`. */
  datatype TokenPayload = TokenPayload(sub: Value, email: Value, role: Value)

  function PayloadOf(user: Document): (p: TokenPayload)
    ensures p.sub == Get(user, "_id") && p.email == Get(user, "email") && p.role == Get(user, "role")
  {
    TokenPayload(Get(user, "_id"), Get(user, "email"), Get(user, "role"))
  }

  /** The access token is signed with the configured lifetime, the refresh token with 7 days. */
  datatype Expiry = Configured | SevenDays

  datatype AuthResult = AuthResult(access_token: string, refresh_token: string, user: Document)

  class AuthService {
    const usersService: UsersService
    /** bcrypt's `compare(password, hash)`. */
    const compare: (string, string) -> bool
    /** The JWT service's `sign`. */
    const sign: (TokenPayload, Expiry) -> string
    /** The JWT service's `verify`: the payload, or None where it throws. */
    const verify: string -> Option<TokenPayload>

    constructor (usersService: UsersService, compare: (string, string) -> bool,
                 sign: (TokenPayload, Expiry) -> string, verify: string -> Option<TokenPayload>)
      ensures this.usersService == usersService && this.compare == compare
      ensures this.sign == sign && this.verify == verify
    {
      this.usersService := usersService;
      this.compare := compare;
      this.sign := sign;
      this.verify := verify;
    }

    /** The tokens and response issued for a user: both tokens carry `{sub, email, role}` of
        that user. */
    function Issue(id: Id, u: User): (r: AuthResult)
      ensures r.access_token == sign(TokenPayload(Str(id), Str(u.email), Str(RoleName(u.role))), Configured)
      ensures r.refresh_token == sign(TokenPayload(Str(id), Str(u.email), Str(RoleName(u.role))), SevenDays)
      ensures r.user == PrepareUserResponse(ToObject(id, u))
      ensures "password_hash" !in r.user && "__v" !in r.user
      ensures Get(r.user, "_id") == Str(id) && Get(r.user, "email") == Str(u.email)
      ensures Get(r.user, "phone") == Str(u.phone) && Get(r.user, "role") == Str(RoleName(u.role))
    {
      var payload := PayloadOf(ToObject(id, u));
      AuthResult(sign(payload, Configured), sign(payload, SevenDays), PrepareUserResponse(ToObject(id, u)))
    }

    /** `validateUser`: NotFound from the lookup propagates; a matching password gives the
        sanitized user, a wrong one gives no user. */
    method ValidateUser(email: string, password: string) returns (r: Result<Option<Document>>)
      ensures r.Err? <==> forall id :: id in usersService.users ==> usersService.users[id].email != email
      ensures r.Err? ==> r.error == NotFound(UserNotFound)
      ensures r.Ok? ==>
        exists id :: id in usersService.users && usersService.users[id].email == email &&
          (r.value.Some? <==> compare(password, usersService.users[id].password_hash)) &&
          (r.value.Some? ==> r.value.value == Sanitize(ToObject(id, usersService.users[id])))
      ensures r.Ok? && r.value.Some? ==> "password_hash" !in r.value.value && "__v" !in r.value.value
    {
      var found := usersService.FindOneByEmail(email);
      if found.Err? {
        return Err(found.error);
      }
      if compare(password, found.value.body.password_hash) {
        r := Ok(Some(Sanitize(ToObject(found.value.id, found.value.body))));
      } else {
        r := Ok(None);
      }
    }

    /** `login`: an unknown email fails with the lookup's NotFound, a wrong password with
        Unauthorized; a success issues tokens for the user found, reading the claims from
        the sanitized user. */
    method Login(dto: LoginDto) returns (r: Result<AuthResult>)
      ensures r == Err(NotFound(UserNotFound)) <==>
        forall id :: id in usersService.users ==> usersService.users[id].email != dto.email
      ensures r.Err? ==> r.error == NotFound(UserNotFound) || r.error == Unauthorized(InvalidCredentials)
      ensures r == Err(Unauthorized(InvalidCredentials)) ==>
        exists id :: id in usersService.users && usersService.users[id].email == dto.email &&
          !compare(dto.password, usersService.users[id].password_hash)
      ensures r.Ok? ==>
        exists id :: id in usersService.users && usersService.users[id].email == dto.email &&
          compare(dto.password, usersService.users[id].password_hash) &&
          r.value == Issue(id, usersService.users[id])
    {
      var validated := ValidateUser(dto.email, dto.password);
      if validated.Err? {
        return Err(validated.error);
      }
      if validated.value.None? {
        return Err(Unauthorized(InvalidCredentials));
      }
      var user := validated.value.value;
      ghost var id :| id in usersService.users && usersService.users[id].email == dto.email &&
        compare(dto.password, usersService.users[id].password_hash) &&
        user == Sanitize(ToObject(id, usersService.users[id]));
      var payload := PayloadOf(user);
      UserResponseOfStoredUser(id, usersService.users[id]);
      r := Ok(AuthResult(sign(payload, Configured), sign(payload, SevenDays), PrepareUserResponse(user)));
    }

    /** `register`: the users service's create, with the business verification number kept
        for sellers only; its Conflict propagates. */
    method Register(dto: RegisterDto) returns (r: Result<AuthResult>)
      modifies usersService
      ensures
        var c := ForwardToUsers(dto);
        ContactTaken(old(usersService.users), c.email, c.phone) ==>
          r == Err(Conflict(UserExists)) && usersService.users == old(usersService.users)
      ensures
        var c := ForwardToUsers(dto);
        !ContactTaken(old(usersService.users), c.email, c.phone) ==>
          exists id :: id !in old(usersService.users) &&
            usersService.users == old(usersService.users)[id := User(c.email, c.phone, usersService.hash(c.password), c.role, c.business_verification)] &&
            r == Ok(Issue(id, usersService.users[id]))
    {
      var created := usersService.Create(ForwardToUsers(dto));
      if created.Err? {
        return Err(created.error);
      }
      r := Ok(Issue(created.value.id, created.value.body));
    }

    /** `refreshToken`: every failure, an unknown user included, becomes Unauthorized
        "Invalid refresh token". */
    method RefreshToken(token: string) returns (r: Result<AuthResult>)
      ensures r.Err? ==> r.error == Unauthorized(InvalidRefreshToken)
      ensures r.Ok? <==>
        verify(token).Some? && verify(token).value.sub.Str? && verify(token).value.sub.s in usersService.users
      ensures r.Ok? ==>
        var sub := verify(token).value.sub.s;
        r.value == Issue(sub, usersService.users[sub])
    {
      var payload := verify(token);
      if payload.None? || !payload.value.sub.Str? {
        return Err(Unauthorized(InvalidRefreshToken));
      }
      var found := usersService.FindOne(payload.value.sub.s);
      if found.Err? {
        // the NotFound is caught and replaced
        return Err(Unauthorized(InvalidRefreshToken));
      }
      r := Ok(Issue(payload.value.sub.s, found.value));
    }

    /** `verifyToken`: a subject naming no user gives the lookup's NotFound (the `!user`
        branch cannot be reached); otherwise the user's response. */
    method VerifyToken(userPayload: TokenPayload) returns (r: Result<Document>)
      ensures !(userPayload.sub.Str? && userPayload.sub.s in usersService.users) ==>
        r == Err(NotFound(UserNotFound))
      ensures userPayload.sub.Str? && userPayload.sub.s in usersService.users ==>
        r == Ok(PrepareUserResponse(ToObject(userPayload.sub.s, usersService.users[userPayload.sub.s])))
      ensures r.Ok? ==> "password_hash" !in r.value
    {
      if !userPayload.sub.Str? {
        return Err(NotFound(UserNotFound));
      }
      var found := usersService.FindOne(userPayload.sub.s);
      if found.Err? {
        return Err(found.error);
      }
      r := Ok(PrepareUserResponse(ToObject(userPayload.sub.s, found.value)));
    }
  }
}
