/** AuthController: registration, sign-in and the JWT it issues. BCrypt is
    represented by its result (`passwordHash`) and by a verification oracle
    (`verify`); `Guid.ToString` by `format`; the clock by `now`. */
module AuthApi {
  import opened Common
  import opened Sequences
  import opened Models
  import opened Http
  import opened ExpenseApi

  const EmailMaxLength: nat := 255
  const PasswordMinLength: nat := 8

  const DefaultIssuer := "ExpenseTrackerApp"
  const DefaultAudience := "ExpenseTrackerUsers"
  const EmailClaim := "email"

  /** The token lives seven days; the reply reports it in seconds. */
  const TokenLifetimeDays: nat := 7
  const ExpiresInSeconds: nat := 7 * 24 * 60 * 60
  const TokenLifetimeTicks: nat := TokenLifetimeDays * SecondsPerDay * TicksPerSecond

  const ValidationFailed := "One or more validation errors occurred."
  const PasswordsDoNotMatch := "Passwords do not match."
  const PasswordTooWeak := "Password must be at least 8 characters, include an uppercase letter and a number."
  const EmailExists := "Email already exists."
  const InvalidCredentials := "Invalid credentials."
  const UnrepresentableDateTime := "The added or subtracted value results in an un-representable DateTime."

  datatype RegisterDto = RegisterDto(email: string, password: string, confirmPassword: string)

  datatype LoginDto = LoginDto(email: string, password: string)

  // ---------------------------------------------------------------- data annotations

  /** `[Required]` on a string: neither empty nor only white space. */
  predicate Required(s: string) {
    !IsWhiteSpaceOnly(s)
  }

  /** `[EmailAddress]`: no line break, exactly one `@`, and it is neither
      the first nor the last character. */
  predicate IsEmailAddress(s: string) {
    && '\r' !in s && '\n' !in s
    && multiset(s)['@'] == 1
    && |s| > 0 && s[0] != '@' && s[|s| - 1] != '@'
  }

  predicate EmailAnnotationsHold(email: string) {
    Required(email) && IsEmailAddress(email) && |email| <= EmailMaxLength
  }

  /** `ModelState.IsValid` for RegisterDto: `[Required]`, `[EmailAddress]`,
      `[MaxLength(255)]` on the e-mail; `[Required]`, `[MinLength(8)]` on
      both passwords. */
  predicate RegisterModelValid(dto: RegisterDto) {
    && EmailAnnotationsHold(dto.email)
    && Required(dto.password) && |dto.password| >= PasswordMinLength
    && Required(dto.confirmPassword) && |dto.confirmPassword| >= PasswordMinLength
  }

  /** `ModelState.IsValid` for LoginDto. */
  predicate LoginModelValid(dto: LoginDto) {
    EmailAnnotationsHold(dto.email) && Required(dto.password)
  }

  // ---------------------------------------------------------------- password strength

  predicate HasUpper(p: string) {
    exists i :: 0 <= i < |p| && IsUpper(p[i])
  }

  predicate HasDigit(p: string) {
    exists i :: 0 <= i < |p| && IsDigit(p[i])
  }

  /** IsPasswordStrong, check by check. */
  predicate IsPasswordStrong(p: string) {
    if IsWhiteSpaceOnly(p) || |p| < PasswordMinLength then false
    else if !HasUpper(p) then false
    else HasDigit(p)
  }

  /** The white-space test is subsumed: a password is strong exactly when it
      has eight characters, an upper-case letter and a digit. */
  lemma {:induction false} PasswordStrengthRules(p: string)
    ensures IsPasswordStrong(p) <==> |p| >= PasswordMinLength && HasUpper(p) && HasDigit(p)
  {
    if HasUpper(p) {
      var i :| 0 <= i < |p| && IsUpper(p[i]);
      assert !IsWhiteSpace(p[i]);
    }
  }

  // ---------------------------------------------------------------- e-mail normalisation

  /** `email.Trim().ToLower()`. */
  function NormalizeEmail(email: string): (r: string)
    ensures IsTrimmed(r) && |r| <= |email|
    ensures forall i :: 0 <= i < |r| ==> !IsUpper(r[i])
    ensures ToLower(r) == r
    ensures |r| == |Trim(email)| && forall k :: 0 <= k < |r| ==> r[k] == ToLowerChar(Trim(email)[k])
  {
    var t := Trim(email);
    assert IsTrimmed(ToLower(t)) && ToLower(ToLower(t)) == ToLower(t) by {
      ToLowerKeepsTrimmed(t);
      ToLowerIdempotent(t);
    }
    ToLower(t)
  }

  /** The stored address keeps the characters of the typed one: it is an
      infix with only white space around it, lower-cased. */
  lemma NormalizeEmailIsLoweredInfix(email: string)
    ensures exists i, j :: 0 <= i <= j <= |email| && IsWhiteSpaceOnly(email[..i]) && IsWhiteSpaceOnly(email[j..])
                           && NormalizeEmail(email) == ToLower(email[i..j])
  {
    var i, j :| 0 <= i <= j <= |email| && Trim(email) == email[i..j]
                && IsWhiteSpaceOnly(email[..i]) && IsWhiteSpaceOnly(email[j..]);
    assert NormalizeEmail(email) == ToLower(email[i..j]);
  }

  lemma {:induction false} TrimStartCommutesWithToLower(s: string)
    ensures ToLower(TrimStart(s)) == TrimStart(ToLower(s))
  {
    if s == [] {
    } else if IsWhiteSpace(s[0]) {
      var l := ToLower(s);
      assert IsWhiteSpace(l[0]);
      assert l[1..] == ToLower(s[1..]);
      calc {
        TrimStart(l);
        TrimStart(ToLower(s[1..]));
        { TrimStartCommutesWithToLower(s[1..]); }
        ToLower(TrimStart(s[1..]));
      }
    } else {
      assert !IsWhiteSpace(ToLower(s)[0]);
    }
  }

  lemma {:induction false} TrimEndCommutesWithToLower(s: string)
    ensures ToLower(TrimEnd(s)) == TrimEnd(ToLower(s))
  {
    if s == [] {
    } else if IsWhiteSpace(s[|s| - 1]) {
      var l := ToLower(s);
      assert IsWhiteSpace(l[|l| - 1]);
      assert l[..|l| - 1] == ToLower(s[..|s| - 1]);
      calc {
        TrimEnd(l);
        TrimEnd(ToLower(s[..|s| - 1]));
        { TrimEndCommutesWithToLower(s[..|s| - 1]); }
        ToLower(TrimEnd(s[..|s| - 1]));
      }
    } else {
      assert !IsWhiteSpace(ToLower(s)[|s| - 1]);
    }
  }

  /** Lower-casing and trimming can be done in either order. */
  lemma {:induction false} TrimCommutesWithToLower(s: string)
    ensures ToLower(Trim(s)) == Trim(ToLower(s))
  {
    TrimStartCommutesWithToLower(s);
    TrimEndCommutesWithToLower(TrimStart(s));
  }

  /** A normalised address is its own normal form, and surrounding white
      space does not change it. */
  lemma {:induction false} NormalizeEmailCanonical(email: string)
    ensures NormalizeEmail(NormalizeEmail(email)) == NormalizeEmail(email)
    ensures NormalizeEmail(Trim(email)) == NormalizeEmail(email)
  {
    TrimOfTrimmed(NormalizeEmail(email));
    TrimOfTrimmed(Trim(email));
  }

  /** Two addresses that differ only in case normalise to the same address. */
  lemma {:induction false} CaseVariantsNormalizeEqual(a: string, b: string)
    requires ToLower(a) == ToLower(b)
    ensures NormalizeEmail(a) == NormalizeEmail(b)
  {
    TrimCommutesWithToLower(a);
    TrimCommutesWithToLower(b);
  }

  /** The `AnyAsync` test of Register: some user, active or not, has this
      address up to case. */
  predicate EmailTaken(users: seq<User>, email: string) {
    exists u :: u in users && ToLower(u.email) == email
  }

  /** Appending a user whose normalised address is not taken and whose key is
      fresh keeps the user table's keys and addresses distinct. */
  lemma {:induction false} AddUserKeepsUsersValid(users: seq<User>, u: User)
    requires UserIdsUnique(users) && EmailsDistinct(users)
    requires forall v :: v in users ==> v.userId != u.userId
    requires ToLower(u.email) == u.email && !EmailTaken(users, u.email)
    ensures UserIdsUnique(users + [u]) && EmailsDistinct(users + [u])
  {
    var us := users + [u];
    forall i, j | 0 <= i < j < |us|
      ensures us[i].userId != us[j].userId && ToLower(us[i].email) != ToLower(us[j].email)
    {
      if j == |users| {
        assert us[i] in users;
      }
    }
  }

  // ---------------------------------------------------------------- tokens

  datatype JwtConfig = JwtConfig(issuer: Option<string>, audience: Option<string>)

  /** The content of the signed token; the HMAC signature with `Jwt:Key` is
      not modelled. */
  datatype JwtToken = JwtToken(issuer: string, audience: string, claims: seq<Claim>, expires: DateTime)

  /** GenerateJwtToken: a `sub` claim with the user's key, an `email` claim,
      the configured issuer and audience or their defaults, and an expiry
      seven days after `now`; `AddDays` throws when that passes `DateTime.MaxValue`. */
  function GenerateJwtToken(user: User, format: Guid -> string, config: JwtConfig, now: DateTime): (r: Result<JwtToken>)
    ensures r.Ok? <==> now + TokenLifetimeTicks <= MaxTicks
    ensures r.Thrown? ==> r.exception == ArgumentOutOfRangeException
    ensures r.Ok? ==> r.value.expires - now == ExpiresInSeconds * TicksPerSecond
    ensures r.Ok? ==> FindFirst(r.value.claims, SubClaim) == Some(format(user.userId))
    ensures r.Ok? ==> FindFirst(r.value.claims, EmailClaim) == Some(user.email)
    ensures r.Ok? ==> (config.issuer.Some? ==> r.value.issuer == config.issuer.value)
                      && (config.issuer.None? ==> r.value.issuer == DefaultIssuer)
    ensures r.Ok? ==> (config.audience.Some? ==> r.value.audience == config.audience.value)
                      && (config.audience.None? ==> r.value.audience == DefaultAudience)
  {
    var claims := [Claim(SubClaim, format(user.userId)), Claim(EmailClaim, user.email)];
    assert IsFirstOfType(claims, 0, SubClaim);
    assert IsFirstOfType(claims, 1, EmailClaim);
    if now + TokenLifetimeTicks <= MaxTicks then
      Ok(JwtToken(config.issuer.GetOr(DefaultIssuer), config.audience.GetOr(DefaultAudience),
                  claims, now + TokenLifetimeTicks))
    else
      Thrown(ArgumentOutOfRangeException)
  }

  /** The token names its holder: read back by ExpensesController's
      GetUserId, whether the `sub` claim arrives as issued or has been mapped
      to the NameIdentifier claim on the way in, it yields the user's key. */
  lemma {:induction false} TokenIdentifiesUser(user: User, format: Guid -> string, parse: string -> Option<Guid>,
                                               config: JwtConfig, now: DateTime)
    requires parse(format(user.userId)) == Some(user.userId) && format(user.userId) != ""
    requires GenerateJwtToken(user, format, config, now).Ok?
    ensures var claims := GenerateJwtToken(user, format, config, now).value.claims;
            GetUserId(claims, parse) == user.userId
            && GetUserId([Claim(NameIdentifierClaim, claims[0].value)] + claims[1..], parse) == user.userId
  {
    var claims := GenerateJwtToken(user, format, config, now).value.claims;
    GetUserIdPrefersSub(claims, parse);
    assert IsFirstOfType(claims, 0, SubClaim);
    var mapped := [Claim(NameIdentifierClaim, claims[0].value)] + claims[1..];
    GetUserIdPrefersSub(mapped, parse);
    assert forall i :: !IsFirstOfType(mapped, i, SubClaim);
    assert IsFirstOfType(mapped, 0, NameIdentifierClaim);
  }

  // ---------------------------------------------------------------- login

  datatype LoginResult = LoginResult(token: JwtToken, expiresIn: int, userId: Guid, email: string)

  /** The `FirstOrDefaultAsync` filter of Login. */
  function CanSignIn(email: string): User -> bool {
    (u: User) => ToLower(u.email) == email && u.isActive
  }

  /** The password check and the token for the account the lookup found: the
      same 401 as an unknown address for a wrong password, and the
      `AddDays` exception, left to the global handler, past `DateTime.MaxValue`. */
  function SignIn(user: User, dto: LoginDto, verify: (string, string) -> bool, format: Guid -> string,
                  config: JwtConfig, now: DateTime): (r: Reply<LoginResult>)
    ensures !verify(dto.password, user.passwordHash) ==> r == Failure(Status401Unauthorized, InvalidCredentials)
    ensures verify(dto.password, user.passwordHash) && GenerateJwtToken(user, format, config, now).Thrown? ==>
              r.Failure? && r.status == StatusFor(ArgumentOutOfRangeException)
    ensures r.Success? <==> verify(dto.password, user.passwordHash) && GenerateJwtToken(user, format, config, now).Ok?
    ensures r.Success? ==>
              && r.status == Status200OK
              && r.value.expiresIn == ExpiresInSeconds
              && r.value.token.expires - now == r.value.expiresIn * TicksPerSecond
              && r.value.userId == user.userId && r.value.email == user.email
              && Ok(r.value.token) == GenerateJwtToken(user, format, config, now)
  {
    if !verify(dto.password, user.passwordHash) then Failure(Status401Unauthorized, InvalidCredentials)
    else
      match GenerateJwtToken(user, format, config, now)
      case Thrown(ex) => Failure(StatusFor(ex), UnrepresentableDateTime)
      case Ok(token) => Success(Status200OK, LoginResult(token, ExpiresInSeconds, user.userId, user.email))
  }

  /** Login: a 400 for an invalid model, the same 401 for an unknown or
      inactive address and for a wrong password, and otherwise the token of
      the first active user with the normalised address. Nothing is stored. */
  function Login(users: seq<User>, dto: LoginDto, verify: (string, string) -> bool, format: Guid -> string,
                 config: JwtConfig, now: DateTime): (r: Reply<LoginResult>)
    ensures !LoginModelValid(dto) ==> r == Failure(Status400BadRequest, ValidationFailed)
    ensures r.Failure? && r.status == Status401Unauthorized ==> r.message == InvalidCredentials
    ensures LoginModelValid(dto) && (forall u :: u in users ==> !CanSignIn(NormalizeEmail(dto.email))(u)) ==>
              r == Failure(Status401Unauthorized, InvalidCredentials)
    ensures r.Success? ==>
              && r.status == Status200OK
              && r.value.expiresIn == ExpiresInSeconds
              && r.value.token.expires - now == r.value.expiresIn * TicksPerSecond
              && exists u :: u in users && CanSignIn(NormalizeEmail(dto.email))(u)
                             && verify(dto.password, u.passwordHash)
                             && r.value.userId == u.userId && r.value.email == u.email
                             && Ok(r.value.token) == GenerateJwtToken(u, format, config, now)
    ensures var found := FirstIndex(users, CanSignIn(NormalizeEmail(dto.email)));
            && (LoginModelValid(dto) && found.Some? && !verify(dto.password, users[found.value].passwordHash) ==>
                  r == Failure(Status401Unauthorized, InvalidCredentials))
            && (LoginModelValid(dto) && found.Some? && verify(dto.password, users[found.value].passwordHash)
                && GenerateJwtToken(users[found.value], format, config, now).Thrown? ==>
                  r.Failure? && r.status == StatusFor(ArgumentOutOfRangeException))
            && (r.Success? <==>
                  LoginModelValid(dto) && found.Some? && verify(dto.password, users[found.value].passwordHash)
                  && GenerateJwtToken(users[found.value], format, config, now).Ok?)
            && (r.Success? ==>
                  found.Some? && r.value.userId == users[found.value].userId && r.value.email == users[found.value].email
                  && Ok(r.value.token) == GenerateJwtToken(users[found.value], format, config, now))
  {
    if !LoginModelValid(dto) then Failure(Status400BadRequest, ValidationFailed)
    else
      match FirstIndex(users, CanSignIn(NormalizeEmail(dto.email)))
      case None => Failure(Status401Unauthorized, InvalidCredentials)
      case Some(i) =>
        assert users[i] in users;
        SignIn(users[i], dto, verify, format, config, now)
  }

  /** Inactive accounts never sign in, whatever the password. */
  lemma {:induction false} InactiveUserCannotSignIn(users: seq<User>, dto: LoginDto, verify: (string, string) -> bool,
                                                    format: Guid -> string, config: JwtConfig, now: DateTime)
    requires forall u :: u in users && ToLower(u.email) == NormalizeEmail(dto.email) ==> !u.isActive
    ensures !Login(users, dto, verify, format, config, now).Success?
  {
  }

  // ---------------------------------------------------------------- the controller

  class AuthController {
    const context: AppDb

    constructor (context: AppDb)
      ensures this.context == context
    {
      this.context := context;
    }

    /** Register: model state, matching passwords, strength, then a 409 when
        the normalised address is taken; otherwise the user is stored with
        the normalised address and `passwordHash` (BCrypt's hash of the
        password) and the new key is returned. */
    method Register(dto: RegisterDto, passwordHash: string, newId: Guid, now: DateTime) returns (reply: Reply<Guid>)
      requires context.Valid()
      requires newId != EmptyGuid && forall u :: u in context.users ==> u.userId != newId
      modifies context
      ensures context.Valid()
      ensures context.categories == old(context.categories) && context.expenses == old(context.expenses)
      ensures !RegisterModelValid(dto) ==> reply == Failure(Status400BadRequest, ValidationFailed)
      ensures RegisterModelValid(dto) && dto.password != dto.confirmPassword ==>
                reply == Failure(Status400BadRequest, PasswordsDoNotMatch)
      ensures RegisterModelValid(dto) && dto.password == dto.confirmPassword && !IsPasswordStrong(dto.password) ==>
                reply == Failure(Status400BadRequest, PasswordTooWeak)
      ensures RegisterModelValid(dto) && dto.password == dto.confirmPassword && IsPasswordStrong(dto.password)
              && EmailTaken(old(context.users), NormalizeEmail(dto.email)) ==>
                reply == Failure(Status409Conflict, EmailExists)
      ensures reply.Success? <==>
                RegisterModelValid(dto) && dto.password == dto.confirmPassword && IsPasswordStrong(dto.password)
                && !EmailTaken(old(context.users), NormalizeEmail(dto.email))
      ensures reply.Success? ==>
                reply == Success(Status200OK, newId)
                && context.users == old(context.users) + [User(newId, NormalizeEmail(dto.email), passwordHash, now, None, true)]
      ensures reply.Failure? ==> context.users == old(context.users)
    {
      if !RegisterModelValid(dto) {
        return Failure(Status400BadRequest, ValidationFailed);
      }
      if dto.password != dto.confirmPassword {
        return Failure(Status400BadRequest, PasswordsDoNotMatch);
      }
      if !IsPasswordStrong(dto.password) {
        return Failure(Status400BadRequest, PasswordTooWeak);
      }
      var email := NormalizeEmail(dto.email);
      if EmailTaken(context.users, email) {
        return Failure(Status409Conflict, EmailExists);
      }
      var user := User(newId, email, passwordHash, now, None, true);
      AddUserKeepsUsersValid(context.users, user);
      context.users := context.users + [user];
      reply := Success(Status200OK, newId);
    }
  }

  /** With addresses distinct up to case, the lookup finds the one account
      that holds the address. */
  lemma OnlyAccountForAddress(users: seq<User>, email: string, k: nat)
    requires EmailsDistinct(users) && k < |users| && CanSignIn(email)(users[k])
    ensures FirstIndex(users, CanSignIn(email)) == Some(k)
  {
    assert users[k] in users;
    var found := FirstIndex(users, CanSignIn(email));
    assert found.Some?;
    SameAddressSameAccount(users, found.value, k);
  }

  lemma SameAddressSameAccount(users: seq<User>, i: nat, k: nat)
    requires EmailsDistinct(users) && i < |users| && k < |users|
    requires ToLower(users[i].email) == ToLower(users[k].email)
    ensures i == k
  {
  }

  /** Once the lookup lands on account `k` and its password verifies, the
      sign-in succeeds for that account. */
  lemma LoginFindsAccount(users: seq<User>, dto: LoginDto, verify: (string, string) -> bool,
                          format: Guid -> string, config: JwtConfig, now: DateTime, k: nat)
    requires LoginModelValid(dto)
    requires FirstIndex(users, CanSignIn(NormalizeEmail(dto.email))) == Some(k)
    requires verify(dto.password, users[k].passwordHash)
    requires now + TokenLifetimeTicks <= MaxTicks
    ensures var r := Login(users, dto, verify, format, config, now);
            r.Success? && r.value.userId == users[k].userId
  {
    assert GenerateJwtToken(users[k], format, config, now).Ok?;
  }

  /** A registered user signs in with any case variant of the address, as
      long as the table keeps addresses distinct up to case and the
      password verifies against the stored hash. */
  lemma {:induction false} RegisteredUserSignsIn(users: seq<User>, k: nat, dto: LoginDto, verify: (string, string) -> bool,
                                                 format: Guid -> string, config: JwtConfig, now: DateTime)
    requires EmailsDistinct(users) && k < |users| && users[k].isActive
    requires LoginModelValid(dto) && ToLower(dto.email) == ToLower(users[k].email)
    requires NormalizeEmail(users[k].email) == users[k].email
    requires verify(dto.password, users[k].passwordHash)
    requires now + TokenLifetimeTicks <= MaxTicks
    ensures var r := Login(users, dto, verify, format, config, now);
            r.Success? && r.value.userId == users[k].userId
  {
    var email := NormalizeEmail(dto.email);
    assert CanSignIn(email)(users[k]) by {
      CaseVariantsNormalizeEqual(dto.email, users[k].email);
    }
    OnlyAccountForAddress(users, email, k);
    LoginFindsAccount(users, dto, verify, format, config, now, k);
  }
}
