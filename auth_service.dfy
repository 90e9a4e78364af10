/** The auth service's account lifecycle: registration, email and phone
    verification, login, resending codes, and forgotten, reset and changed
    passwords. The store is an `AuthStore.Repository`; bcrypt is the
    `matches(hash, password)` relation and a `hashed` result per call; the
    struct-tag validation, one-time codes, refresh tokens and JWT signing are
    inputs; a driver failure of a store call is named in `faults`. */
module AuthService {
  import opened Common
  import opened AuthStore
  import Validation

  const VerificationRequestExpiry: int := 15 * Minute
  const VerificationRequestWaitTime: int := 1 * Minute
  const SessionExpiry: int := 30 * Day
  const RootUserID: Uuid := NilUuid

  /** A `*ServiceError`: the HTTP status, the developer code and the two messages. */
  datatype ServiceError = ServiceError(httpErrorCode: int, devErrorCode: string, short: string, long: string)

  const UserExistsErr := ServiceError(409, "auth_001", "user.exists", "user already exists")
  const UserNotFoundErr := ServiceError(404, "auth_002", "user.not_found", "user not found")
  const VerificationRequestExpiredErr := ServiceError(400, "auth_003", "verification_request.expired", "verification request expired")
  const InvalidVerificationCodeErr := ServiceError(400, "auth_004", "invalid_verification_code", "invalid verification code")
  const UserEmailNotVerifiedErr := ServiceError(400, "auth_005", "user.email_not_verified", "user email not verified")
  const UserPhoneNotVerifiedErr := ServiceError(400, "auth_006", "user.phone_not_verified", "user phone not verified")
  const UserDeactivatedErr := ServiceError(400, "auth_007", "user.deactivated", "user deactivated")
  const InvalidCredentialsErr := ServiceError(400, "auth_008", "user.invalid_credentials", "invalid credentials")
  const InvalidLoginMethodErr := ServiceError(400, "auth_009", "user.invalid_login_method", "invalid login method")
  const UserEmailVerifiedErr := ServiceError(400, "auth_010", "user.email_verified", "user email verified")
  const TooManyVerificationRequestsErr := ServiceError(429, "auth_011", "auth.too_many_verification_requests", "too many verification requests")
  const UserPhoneVerifiedErr := ServiceError(400, "auth_012", "user.phone_verified", "user phone verified")
  const PasswordAlreadyUsedErr := ServiceError(400, "auth_013", "password.already_used", "password already used")
  const PasswordMismatchErr := ServiceError(400, "auth_014", "password.mismatch", "password mismatch")
  /** `InternalError`: code `GeneralErrorCode + 1`, which the error handler uses as its status. */
  const InternalError := ServiceError(1001, "", "internal", "Internal server error")

  /** The store calls that can fail at the driver. */
  datatype Step =
    | FindUser | StartTx | CreateUser | CreatePassword | CreateEmailRequest | CreatePhoneRequest | Commit
    | FindRequest | SetVerified | SetConsumed | FindPassword | FindLastFour | DeletePassword
    | CreateRequest | CreateSession | CreateBusiness | CreateBusinessUser | FindBusinesses | FindUserById

  /** What a service call returns instead of a response. */
  datatype Failure =
    | Service(error: ServiceError)
    | Invalid(errors: seq<Validation.ValidationError>)
    | Driver(step: Step)
    | Random(message: string)

  datatype RegisterPayload = RegisterPayload(name: string, email: string, countryCode: string, phone: string, password: string)
  datatype RegisterResponse = RegisterResponse(id: Uuid, name: string, email: string, countryCode: string, phone: string)
  datatype VerifyPayload = VerifyPayload(email: string, code: string)
  datatype LoginPayload = LoginPayload(email: string, password: string, userIp: string, userAgent: string)
  datatype LoginResponse = LoginResponse(accessToken: string, refreshToken: string,
                                         accessTokenLifetime: Time, refreshTokenLifetime: Time)
  datatype EmailPayload = EmailPayload(email: string)
  datatype ResetPasswordPayload = ResetPasswordPayload(email: string, code: string, password: string, confirmPassword: string)
  datatype ChangePasswordPayload = ChangePasswordPayload(email: string, currentPassword: string, newPassword: string,
                                                         confirmPassword: string)

  /** What is signed into an access token; there is a business only after `Select`. */
  datatype JwtPayload = JwtPayload(userId: Uuid, email: string, name: string, dp: string, businessId: Option<Uuid>)
  datatype AccessToken = AccessToken(token: string, lifetime: Time)

  /** The errors `ValidatePassword` reports for a password. */
  function PasswordErrors(password: string): (errs: seq<Validation.ValidationError>)
    ensures errs == [] <==> Validation.Strong(password)
  {
    Validation.StrongIffNothingBroken(password);
    Validation.Reports(Validation.Report(password), Validation.BrokenRules(password))
  }

  function DpOf(u: User): string {
    if u.dp.Some? then u.dp.value else ""
  }

  // ----- Register -----

  function RegisteredUser(t: Tables, p: RegisterPayload, humanId: string, now: Time): User {
    NewUser(t.nextId, CreateUserParams(humanId, p.name, p.email, p.countryCode + p.phone, false, RootUserID), now)
  }

  function CodeRequest(id: Uuid, userId: Uuid, code: string, kind: VerificationType, now: Time): VerificationRequest {
    NewRequest(id, CreateVerificationRequestParams(userId, code, kind, now + VerificationRequestExpiry, userId), now)
  }

  /** The tables after a committed registration: the user, the password, the
      email code and the phone code, in that order. */
  function Registered(t: Tables, p: RegisterPayload, humanId: string, hash: string, emailCode: string,
                      phoneCode: string, now: Time): Tables
  {
    var u := RegisteredUser(t, p, humanId, now);
    var t1 := t.InsertUser(u);
    var t2 := t1.InsertPassword(NewPassword(t1.nextId, CreatePasswordParams(u.id, hash, u.id), now));
    var t3 := t2.InsertRequest(CodeRequest(t2.nextId, u.id, emailCode, EmailVerification, now));
    t3.InsertRequest(CodeRequest(t3.nextId, u.id, phoneCode, PhoneVerification, now))
  }

  /** Whether every step of the registration transaction succeeds. */
  predicate TransactionSucceeds(hashed: Result<string, string>, emailOtp: Result<string, string>,
                                phoneOtp: Result<string, string>, faults: set<Step>)
  {
    && hashed.Ok? && emailOtp.Ok? && phoneOtp.Ok?
    && StartTx !in faults && CreateUser !in faults && CreatePassword !in faults
    && CreateEmailRequest !in faults && CreatePhoneRequest !in faults && Commit !in faults
  }

  /** `Register`: rejects a bad payload or a weak password, refuses an email
      that already has an account, and otherwise writes the user, the
      password and the two codes in one transaction. */
  method Register(store: Repository, p: RegisterPayload, shapeErrors: seq<Validation.ValidationError>,
                  humanId: string, hashed: Result<string, string>,
                  emailOtp: Result<string, string>, phoneOtp: Result<string, string>,
                  faults: set<Step>, now: Time)
    returns (r: Result<RegisterResponse, Failure>)
    requires store.Valid()
    modifies store
    ensures store.Valid()
    ensures r.Err? ==> store.Snapshot() == old(store.Snapshot())
    ensures shapeErrors != [] ==> r == Err(Invalid(shapeErrors))
    ensures shapeErrors == [] && !Validation.Strong(p.password) ==> r == Err(Invalid(PasswordErrors(p.password)))
    ensures (shapeErrors == [] && Validation.Strong(p.password) && FindUser !in faults
             && old(store.Snapshot().FindUserByEmail(p.email)).Some?) ==> r == Err(Service(UserExistsErr))
    ensures r.Ok? <==>
              && shapeErrors == [] && Validation.Strong(p.password)
              && (FindUser in faults || old(store.Snapshot().FindUserByEmail(p.email)).None?)
              && TransactionSucceeds(hashed, emailOtp, phoneOtp, faults)
    ensures r.Ok? ==>
              var u := RegisteredUser(old(store.Snapshot()), p, humanId, now);
              && store.Snapshot() == Registered(old(store.Snapshot()), p, humanId, hashed.value, emailOtp.value,
                                                phoneOtp.value, now)
              && r.value == RegisterResponse(u.id, p.name, p.email, "", p.countryCode + p.phone)
  {
    if shapeErrors != [] {
      return Err(Invalid(shapeErrors));
    }
    var errs := Validation.ValidatePassword(p.password);
    if errs != [] {
      return Err(Invalid(errs));
    }
    if FindUser !in faults && store.Snapshot().FindUserByEmail(p.email).Some? {
      return Err(Service(UserExistsErr));
    }
    r := RegisterInTransaction(store, p, humanId, hashed, emailOtp, phoneOtp, faults, now);
  }

  /** The transactional part of `Register`, from `StartTransaction` to `Commit`;
      the deferred rollback undoes everything on every early return. */
  method RegisterInTransaction(store: Repository, p: RegisterPayload, humanId: string, hashed: Result<string, string>,
                               emailOtp: Result<string, string>, phoneOtp: Result<string, string>,
                               faults: set<Step>, now: Time)
    returns (r: Result<RegisterResponse, Failure>)
    requires store.Valid()
    modifies store
    ensures store.Valid()
    ensures r.Err? ==> store.Snapshot() == old(store.Snapshot())
    ensures r.Ok? <==> TransactionSucceeds(hashed, emailOtp, phoneOtp, faults)
    ensures r.Ok? ==>
              var u := RegisteredUser(old(store.Snapshot()), p, humanId, now);
              && store.Snapshot() == Registered(old(store.Snapshot()), p, humanId, hashed.value, emailOtp.value,
                                                phoneOtp.value, now)
              && r.value == RegisterResponse(u.id, p.name, p.email, "", p.countryCode + p.phone)
  {
    if StartTx in faults {
      return Err(Driver(StartTx));
    }
    var tx := store.StartTransaction();
    var staged := StageRegistration(tx, p, humanId, hashed, emailOtp, phoneOtp, faults, now);
    if staged.Err? {
      return Err(staged.error);
    }
    if Commit in faults {
      return Err(Driver(Commit));
    }
    store.Commit(tx);
    var user := staged.value;
    return Ok(RegisterResponse(user.id, user.name, user.email, "", user.phone));
  }

  /** The writes `Register` makes through the transaction `tx`, in order. */
  method StageRegistration(tx: Repository, p: RegisterPayload, humanId: string, hashed: Result<string, string>,
                           emailOtp: Result<string, string>, phoneOtp: Result<string, string>,
                           faults: set<Step>, now: Time)
    returns (r: Result<User, Failure>)
    requires tx.Valid()
    modifies tx
    ensures tx.Valid()
    ensures r.Ok? <==> && hashed.Ok? && emailOtp.Ok? && phoneOtp.Ok?
                       && CreateUser !in faults && CreatePassword !in faults
                       && CreateEmailRequest !in faults && CreatePhoneRequest !in faults
    ensures (&& hashed.Ok? && emailOtp.Ok? && phoneOtp.Ok? && CreateUser !in faults && CreatePassword !in faults
             && CreateEmailRequest in faults) ==> r == Err(Driver(CreatePhoneRequest))
    ensures r.Ok? ==>
              && r.value == RegisteredUser(old(tx.Snapshot()), p, humanId, now)
              && tx.Snapshot() == Registered(old(tx.Snapshot()), p, humanId, hashed.value, emailOtp.value,
                                             phoneOtp.value, now)
  {
    ghost var t0 := tx.Snapshot();
    if CreateUser in faults {
      return Err(Driver(CreateUser));
    }
    var user := tx.CreateUser(CreateUserParams(humanId, p.name, p.email, p.countryCode + p.phone, false, RootUserID), now);
    ghost var t1 := t0.InsertUser(RegisteredUser(t0, p, humanId, now));
    assert tx.Snapshot() == t1;
    if hashed.Err? {
      return Err(Service(InternalError));
    }
    if CreatePassword in faults {
      return Err(Driver(CreatePassword));
    }
    tx.CreatePassword(CreatePasswordParams(user.id, hashed.value, user.id), now);
    ghost var t2 := t1.InsertPassword(NewPassword(t1.nextId, CreatePasswordParams(user.id, hashed.value, user.id), now));
    assert tx.Snapshot() == t2;
    if emailOtp.Err? {
      return Err(Random(emailOtp.error));
    }
    // The email insert's error is overwritten below, but a failed statement
    // aborts the transaction, so the phone insert then fails too.
    var aborted := CreateEmailRequest in faults;
    if !aborted {
      tx.CreateVerificationRequest(CreateVerificationRequestParams(user.id, emailOtp.value, EmailVerification,
                                                                   now + VerificationRequestExpiry, user.id), now);
    }
    if phoneOtp.Err? {
      return Err(Random(phoneOtp.error));
    }
    if aborted || CreatePhoneRequest in faults {
      return Err(Driver(CreatePhoneRequest));
    }
    tx.CreateVerificationRequest(CreateVerificationRequestParams(user.id, phoneOtp.value, PhoneVerification,
                                                                 now + VerificationRequestExpiry, user.id), now);
    return Ok(user);
  }

  // ----- VerifyEmail and VerifyPhone -----

  function VerifiedFlagSet(t: Tables, userId: Uuid, kind: VerificationType): Tables {
    if kind == EmailVerification then t.(users := EmailVerifiedIn(t.users, userId))
    else t.(users := PhoneVerifiedIn(t.users, userId))
  }

  /** `VerifyEmail` (kind `EmailVerification`) and `VerifyPhone` (kind
      `PhoneVerification`): the account must exist, have a pending code of
      that kind, and the code must be the one given; then the matching flag
      is set and the code consumed, as two separate writes. */
  method VerifyContact(store: Repository, p: VerifyPayload, kind: VerificationType,
                       shapeErrors: seq<Validation.ValidationError>, faults: set<Step>, now: Time)
    returns (r: Result<(), Failure>)
    requires kind != ResetPasswordVerification
    requires store.Valid()
    modifies store
    ensures store.Valid()
    ensures shapeErrors != [] ==> r == Err(Invalid(shapeErrors))
    ensures var user := old(store.Snapshot().FindUserByEmail(p.email));
            shapeErrors == [] && (FindUser in faults || user.None?) ==> r == Err(Service(UserNotFoundErr))
    ensures var user := old(store.Snapshot().FindUserByEmail(p.email));
            shapeErrors == [] && FindUser !in faults && user.Some? ==>
              var req := old(store.Snapshot().FindVerificationRequest(user.value.id, kind, now));
              && ((FindRequest in faults || req.None?) ==> r == Err(Service(VerificationRequestExpiredErr)))
              && (FindRequest !in faults && req.Some? && req.value.code != p.code ==>
                    r == Err(Service(InvalidVerificationCodeErr)))
              && (FindRequest !in faults && req.Some? && req.value.code == p.code ==>
                    && (SetVerified in faults ==> r == Err(Driver(SetVerified)) && store.Snapshot() == old(store.Snapshot()))
                    && (SetVerified !in faults && SetConsumed in faults ==>
                          r == Err(Driver(SetConsumed))
                          && store.Snapshot() == VerifiedFlagSet(old(store.Snapshot()), user.value.id, kind))
                    && (SetVerified !in faults && SetConsumed !in faults ==>
                          r == Ok(())
                          && store.Snapshot() == VerifiedFlagSet(old(store.Snapshot()), user.value.id, kind)
                                                   .(requests := ConsumedIn(old(store.requests), req.value.id, now))))
    ensures r.Err? && !(r.error.Driver? && r.error.step == SetConsumed) ==> store.Snapshot() == old(store.Snapshot())
  {
    if shapeErrors != [] {
      return Err(Invalid(shapeErrors));
    }
    var user := store.Snapshot().FindUserByEmail(p.email);
    if FindUser in faults || user.None? {
      return Err(Service(UserNotFoundErr));
    }
    var request := store.Snapshot().FindVerificationRequest(user.value.id, kind, now);
    if FindRequest in faults || request.None? {
      return Err(Service(VerificationRequestExpiredErr));
    }
    if request.value.code != p.code {
      return Err(Service(InvalidVerificationCodeErr));
    }
    if SetVerified in faults {
      return Err(Driver(SetVerified));
    }
    if kind == EmailVerification {
      store.SetUserEmailVerified(user.value.id);
    } else {
      store.SetUserPhoneVerified(user.value.id);
    }
    if SetConsumed in faults {
      return Err(Driver(SetConsumed));
    }
    store.SetVerificationRequestConsumedAt(request.value.id, now);
    return Ok(());
  }

  method VerifyEmail(store: Repository, p: VerifyPayload, shapeErrors: seq<Validation.ValidationError>,
                     faults: set<Step>, now: Time)
    returns (r: Result<(), Failure>)
    requires store.Valid()
    modifies store
    ensures store.Valid()
    ensures shapeErrors != [] ==> r == Err(Invalid(shapeErrors))
    ensures var user := old(store.Snapshot().FindUserByEmail(p.email));
            shapeErrors == [] && (FindUser in faults || user.None?) ==> r == Err(Service(UserNotFoundErr))
    ensures var user := old(store.Snapshot().FindUserByEmail(p.email));
            shapeErrors == [] && FindUser !in faults && user.Some? ==>
              var req := old(store.Snapshot().FindVerificationRequest(user.value.id, EmailVerification, now));
              && ((FindRequest in faults || req.None?) ==> r == Err(Service(VerificationRequestExpiredErr)))
              && (FindRequest !in faults && req.Some? && req.value.code != p.code ==>
                    r == Err(Service(InvalidVerificationCodeErr)))
              && (FindRequest !in faults && req.Some? && req.value.code == p.code && SetVerified in faults ==>
                    r == Err(Driver(SetVerified)))
              && ((FindRequest !in faults && req.Some? && req.value.code == p.code && SetVerified !in faults
                   && SetConsumed in faults) ==> r == Err(Driver(SetConsumed)))
    ensures r.Ok? ==> old(store.Snapshot().FindUserByEmail(p.email)).Some?
    ensures r.Ok? ==>
              var user := old(store.Snapshot().FindUserByEmail(p.email)).value;
              old(store.Snapshot().FindVerificationRequest(user.id, EmailVerification, now)).Some?
    ensures r.Ok? ==>
              var user := old(store.Snapshot().FindUserByEmail(p.email)).value;
              var req := old(store.Snapshot().FindVerificationRequest(user.id, EmailVerification, now)).value;
              && req.code == p.code
              && store.Snapshot() == old(store.Snapshot()).(users := EmailVerifiedIn(old(store.users), user.id),
                                                            requests := ConsumedIn(old(store.requests), req.id, now))
    ensures r.Err? && !(r.error.Driver? && r.error.step == SetConsumed) ==> store.Snapshot() == old(store.Snapshot())
  {
    r := VerifyContact(store, p, EmailVerification, shapeErrors, faults, now);
  }

  method VerifyPhone(store: Repository, p: VerifyPayload, shapeErrors: seq<Validation.ValidationError>,
                     faults: set<Step>, now: Time)
    returns (r: Result<(), Failure>)
    requires store.Valid()
    modifies store
    ensures store.Valid()
    ensures shapeErrors != [] ==> r == Err(Invalid(shapeErrors))
    ensures var user := old(store.Snapshot().FindUserByEmail(p.email));
            shapeErrors == [] && (FindUser in faults || user.None?) ==> r == Err(Service(UserNotFoundErr))
    ensures var user := old(store.Snapshot().FindUserByEmail(p.email));
            shapeErrors == [] && FindUser !in faults && user.Some? ==>
              var req := old(store.Snapshot().FindVerificationRequest(user.value.id, PhoneVerification, now));
              && ((FindRequest in faults || req.None?) ==> r == Err(Service(VerificationRequestExpiredErr)))
              && (FindRequest !in faults && req.Some? && req.value.code != p.code ==>
                    r == Err(Service(InvalidVerificationCodeErr)))
              && (FindRequest !in faults && req.Some? && req.value.code == p.code && SetVerified in faults ==>
                    r == Err(Driver(SetVerified)))
              && ((FindRequest !in faults && req.Some? && req.value.code == p.code && SetVerified !in faults
                   && SetConsumed in faults) ==> r == Err(Driver(SetConsumed)))
    ensures r.Ok? ==> old(store.Snapshot().FindUserByEmail(p.email)).Some?
    ensures r.Ok? ==>
              var user := old(store.Snapshot().FindUserByEmail(p.email)).value;
              old(store.Snapshot().FindVerificationRequest(user.id, PhoneVerification, now)).Some?
    ensures r.Ok? ==>
              var user := old(store.Snapshot().FindUserByEmail(p.email)).value;
              var req := old(store.Snapshot().FindVerificationRequest(user.id, PhoneVerification, now)).value;
              && req.code == p.code
              && store.Snapshot() == old(store.Snapshot()).(users := PhoneVerifiedIn(old(store.users), user.id),
                                                            requests := ConsumedIn(old(store.requests), req.id, now))
    ensures r.Err? && !(r.error.Driver? && r.error.step == SetConsumed) ==> store.Snapshot() == old(store.Snapshot())
  {
    r := VerifyContact(store, p, PhoneVerification, shapeErrors, faults, now);
  }

  // ----- Login -----

  /** The checks that gate a login, in the order the service makes them; `None`
      when all pass. */
  function LoginRefusal(t: Tables, p: LoginPayload, matches: (string, string) -> bool, faults: set<Step>): Option<ServiceError> {
    var user := t.FindUserByEmail(p.email);
    if FindUser in faults || user.None? then Some(UserNotFoundErr)
    else if user.value.deletedAt.Some? then Some(UserNotFoundErr)
    else if !user.value.emailVerified then Some(UserEmailNotVerifiedErr)
    else if !user.value.phoneVerified then Some(UserPhoneNotVerifiedErr)
    else if user.value.deactivatedAt.Some? then Some(UserDeactivatedErr)
    else
      var password := t.FindPasswordByUserId(user.value.id);
      if FindPassword in faults || password.None? then Some(InvalidLoginMethodErr)
      else if !matches(password.value.hash, p.password) then Some(InvalidCredentialsErr)
      else None
  }

  function LoginSession(user: User, p: LoginPayload, humanId: string, refreshToken: string, now: Time): CreateSessionParams {
    CreateSessionParams(humanId, user.id, p.userIp, p.userAgent, refreshToken, now + SessionExpiry, user.id)
  }

  /** `Login`: the gate, then an access token, a refresh token and a session
      valid for thirty days. A failure to store the session is not looked at. */
  method Login(store: Repository, p: LoginPayload, shapeErrors: seq<Validation.ValidationError>,
               matches: (string, string) -> bool, sign: JwtPayload -> Result<AccessToken, string>,
               refreshToken: Result<string, string>, humanId: string, faults: set<Step>, now: Time)
    returns (r: Result<LoginResponse, Failure>)
    requires store.Valid()
    modifies store
    ensures store.Valid()
    ensures shapeErrors != [] ==> r == Err(Invalid(shapeErrors))
    ensures shapeErrors == [] && LoginRefusal(old(store.Snapshot()), p, matches, faults).Some? ==>
              r == Err(Service(LoginRefusal(old(store.Snapshot()), p, matches, faults).value))
    ensures shapeErrors == [] && LoginRefusal(old(store.Snapshot()), p, matches, faults).None? ==>
              var user := old(store.Snapshot().FindUserByEmail(p.email)).value;
              var signed := sign(JwtPayload(user.id, user.email, user.name, DpOf(user), None));
              && (signed.Err? || refreshToken.Err? ==> r == Err(Service(InternalError)))
              && (signed.Ok? && refreshToken.Ok? ==>
                    r == Ok(LoginResponse(signed.value.token, refreshToken.value, signed.value.lifetime, now + SessionExpiry)))
    ensures r.Ok? && CreateSession !in faults ==>
              var user := old(store.Snapshot().FindUserByEmail(p.email)).value;
              store.Snapshot() == old(store.Snapshot()).InsertSession(
                NewSession(old(store.nextId), LoginSession(user, p, humanId, r.value.refreshToken, now), now))
    ensures r.Err? || CreateSession in faults ==> store.Snapshot() == old(store.Snapshot())
  {
    if shapeErrors != [] {
      return Err(Invalid(shapeErrors));
    }
    var user := store.Snapshot().FindUserByEmail(p.email);
    if FindUser in faults || user.None? {
      return Err(Service(UserNotFoundErr));
    }
    if user.value.deletedAt.Some? {
      return Err(Service(UserNotFoundErr));
    }
    if !user.value.emailVerified {
      return Err(Service(UserEmailNotVerifiedErr));
    }
    if !user.value.phoneVerified {
      return Err(Service(UserPhoneNotVerifiedErr));
    }
    if user.value.deactivatedAt.Some? {
      return Err(Service(UserDeactivatedErr));
    }
    var password := store.Snapshot().FindPasswordByUserId(user.value.id);
    if FindPassword in faults || password.None? {
      return Err(Service(InvalidLoginMethodErr));
    }
    if !matches(password.value.hash, p.password) {
      return Err(Service(InvalidCredentialsErr));
    }
    var accessToken := sign(JwtPayload(user.value.id, user.value.email, user.value.name, DpOf(user.value), None));
    if accessToken.Err? {
      return Err(Service(InternalError));
    }
    if refreshToken.Err? {
      return Err(Service(InternalError));
    }
    if CreateSession !in faults {
      store.CreateSession(LoginSession(user.value, p, humanId, refreshToken.value, now), now);
    }
    return Ok(LoginResponse(accessToken.value.token, refreshToken.value, accessToken.value.lifetime, now + SessionExpiry));
  }

  // ----- SendEmailVerificationRequest and SendPhoneVerificationRequest -----

  /** The resend guard exactly as the service writes it: it refuses when the
      pending code was created MORE than a minute before `now`. */
  predicate ResendRefused(request: VerificationRequest, now: Time) {
    request.createdAt + VerificationRequestWaitTime < now
  }

  function AlreadyVerified(u: User, kind: VerificationType): bool {
    if kind == EmailVerification then u.emailVerified else u.phoneVerified
  }

  function AlreadyVerifiedErr(kind: VerificationType): ServiceError {
    if kind == EmailVerification then UserEmailVerifiedErr else UserPhoneVerifiedErr
  }

  /** `SendEmailVerificationRequest` and `SendPhoneVerificationRequest`. */
  method SendVerificationRequest(store: Repository, p: EmailPayload, kind: VerificationType,
                                 shapeErrors: seq<Validation.ValidationError>, otp: Result<string, string>,
                                 faults: set<Step>, now: Time)
    returns (r: Result<(), Failure>)
    requires kind != ResetPasswordVerification
    requires store.Valid()
    modifies store
    ensures store.Valid()
    ensures shapeErrors != [] ==> r == Err(Invalid(shapeErrors))
    ensures var user := old(store.Snapshot().FindUserByEmail(p.email));
            shapeErrors == [] && (FindUser in faults || user.None?) ==> r == Err(Service(UserNotFoundErr))
    ensures var user := old(store.Snapshot().FindUserByEmail(p.email));
            shapeErrors == [] && FindUser !in faults && user.Some? ==>
              var pending := old(store.Snapshot().FindVerificationRequest(user.value.id, kind, now));
              var throttled := FindRequest !in faults && pending.Some? && ResendRefused(pending.value, now);
              && (AlreadyVerified(user.value, kind) ==> r == Err(Service(AlreadyVerifiedErr(kind))))
              && (!AlreadyVerified(user.value, kind) && throttled ==> r == Err(Service(TooManyVerificationRequestsErr)))
              && (!AlreadyVerified(user.value, kind) && !throttled && (otp.Err? || CreateRequest in faults) ==>
                    r == Err(Service(InternalError)))
              && (!AlreadyVerified(user.value, kind) && !throttled && otp.Ok? && CreateRequest !in faults ==>
                    r == Ok(())
                    && store.Snapshot() == old(store.Snapshot()).InsertRequest(
                         CodeRequest(old(store.nextId), user.value.id, otp.value, kind, now)))
    ensures r.Err? ==> store.Snapshot() == old(store.Snapshot())
  {
    if shapeErrors != [] {
      return Err(Invalid(shapeErrors));
    }
    var user := store.Snapshot().FindUserByEmail(p.email);
    if FindUser in faults || user.None? {
      return Err(Service(UserNotFoundErr));
    }
    if AlreadyVerified(user.value, kind) {
      return Err(Service(AlreadyVerifiedErr(kind)));
    }
    var pending := store.Snapshot().FindVerificationRequest(user.value.id, kind, now);
    if FindRequest !in faults && pending.Some? {
      if ResendRefused(pending.value, now) {
        return Err(Service(TooManyVerificationRequestsErr));
      }
    }
    if otp.Err? {
      return Err(Service(InternalError));
    }
    if CreateRequest in faults {
      return Err(Service(InternalError));
    }
    store.CreateVerificationRequest(CreateVerificationRequestParams(user.value.id, otp.value, kind,
                                                                    now + VerificationRequestExpiry, user.value.id), now);
    return Ok(());
  }

  // ----- ForgotPassword -----

  /** `ForgotPassword`: a reset code for any existing account, with neither a
      cooldown nor a verified check. */
  method ForgotPassword(store: Repository, p: EmailPayload, shapeErrors: seq<Validation.ValidationError>,
                        otp: Result<string, string>, faults: set<Step>, now: Time)
    returns (r: Result<(), Failure>)
    requires store.Valid()
    modifies store
    ensures store.Valid()
    ensures shapeErrors != [] ==> r == Err(Invalid(shapeErrors))
    ensures var user := old(store.Snapshot().FindUserByEmail(p.email));
            shapeErrors == [] && (FindUser in faults || user.None?) ==> r == Err(Service(UserNotFoundErr))
    ensures var user := old(store.Snapshot().FindUserByEmail(p.email));
            shapeErrors == [] && FindUser !in faults && user.Some? ==>
              && (otp.Err? || CreateRequest in faults ==> r == Err(Service(InternalError)))
              && (otp.Ok? && CreateRequest !in faults ==>
                    r == Ok(())
                    && store.Snapshot() == old(store.Snapshot()).InsertRequest(
                         CodeRequest(old(store.nextId), user.value.id, otp.value, ResetPasswordVerification, now)))
    ensures r.Err? ==> store.Snapshot() == old(store.Snapshot())
  {
    if shapeErrors != [] {
      return Err(Invalid(shapeErrors));
    }
    var user := store.Snapshot().FindUserByEmail(p.email);
    if FindUser in faults || user.None? {
      return Err(Service(UserNotFoundErr));
    }
    if otp.Err? {
      return Err(Service(InternalError));
    }
    if CreateRequest in faults {
      return Err(Service(InternalError));
    }
    store.CreateVerificationRequest(CreateVerificationRequestParams(user.value.id, otp.value, ResetPasswordVerification,
                                                                    now + VerificationRequestExpiry, user.value.id), now);
    return Ok(());
  }

  // ----- Password rotation -----

  /** Whether any of the stored hashes matches the password. */
  predicate UsedBefore(history: seq<PasswordRow>, password: string, matches: (string, string) -> bool) {
    exists i :: 0 <= i < |history| && matches(history[i].hash, password)
  }

  /** The `for` loop over the last four passwords that sets `match` and breaks
      on the first hash that matches. */
  method MatchesAny(history: seq<PasswordRow>, password: string, matches: (string, string) -> bool)
    returns (found: bool)
    ensures found <==> UsedBefore(history, password, matches)
  {
    found := false;
    var i := 0;
    while i < |history|
      invariant 0 <= i <= |history|
      invariant forall j :: 0 <= j < i ==> !matches(history[j].hash, password)
    {
      if matches(history[i].hash, password) {
        found := true;
        break;
      }
      i := i + 1;
    }
  }

  /** The tables after every active password of the user is soft-deleted. */
  function PasswordsRetired(t: Tables, userId: Uuid, now: Time): Tables {
    t.(passwords := DeletedIn(t.passwords, userId, userId, now))
  }

  /** The tables after the user's passwords are retired and `hash` stored. */
  function Rotated(t: Tables, userId: Uuid, hash: string, now: Time): Tables {
    var t1 := PasswordsRetired(t, userId, now);
    t1.InsertPassword(NewPassword(t1.nextId, CreatePasswordParams(userId, hash, userId), now))
  }

  /** `ResetPassword`: a strong new password, an existing account, a pending
      reset code equal to the one given, and a password none of the last
      four stored ones matches; then the old password is retired, the new one
      stored and the code consumed, as three separate writes. */
  method ResetPassword(store: Repository, p: ResetPasswordPayload, shapeErrors: seq<Validation.ValidationError>,
                       matches: (string, string) -> bool, hashed: Result<string, string>,
                       faults: set<Step>, now: Time)
    returns (r: Result<(), Failure>)
    requires store.Valid()
    modifies store
    ensures store.Valid()
    ensures shapeErrors != [] ==> r == Err(Invalid(shapeErrors))
    ensures shapeErrors == [] && !Validation.Strong(p.password) ==> r == Err(Invalid(PasswordErrors(p.password)))
    ensures var user := old(store.Snapshot().FindUserByEmail(p.email));
            shapeErrors == [] && Validation.Strong(p.password) ==>
              && (FindUser in faults || user.None? ==> r == Err(Service(UserNotFoundErr)))
              && (FindUser !in faults && user.Some? ==>
                    var req := old(store.Snapshot().FindVerificationRequest(user.value.id, ResetPasswordVerification, now));
                    && (FindRequest in faults || req.None? ==> r == Err(Service(VerificationRequestExpiredErr)))
                    && (FindRequest !in faults && req.Some? && req.value.code != p.code ==>
                          r == Err(Service(InvalidVerificationCodeErr)))
                    && (FindRequest !in faults && req.Some? && req.value.code == p.code ==>
                          var history := old(store.Snapshot().FindLastFourPasswords(user.value.id));
                          && (FindLastFour in faults ==>
                                r == Err(Service(InternalError)) && store.Snapshot() == old(store.Snapshot()))
                          && (FindLastFour !in faults && UsedBefore(history, p.password, matches) ==>
                                r == Err(Service(PasswordAlreadyUsedErr)) && store.Snapshot() == old(store.Snapshot()))
                          && (FindLastFour !in faults && !UsedBefore(history, p.password, matches) ==>
                                && (hashed.Err? || DeletePassword in faults ==>
                                      r == Err(Service(InternalError)) && store.Snapshot() == old(store.Snapshot()))
                                && (hashed.Ok? && DeletePassword !in faults && CreatePassword in faults ==>
                                      && r == Err(Service(InternalError))
                                      && store.Snapshot() == PasswordsRetired(old(store.Snapshot()), user.value.id, now))
                                && (hashed.Ok? && DeletePassword !in faults && CreatePassword !in faults
                                    && SetConsumed in faults ==>
                                      && r == Err(Service(InternalError))
                                      && store.Snapshot() == Rotated(old(store.Snapshot()), user.value.id, hashed.value, now)))
                          && (r.Ok? ==>
                                && hashed.Ok?
                                && store.Snapshot() == Rotated(old(store.Snapshot()), user.value.id, hashed.value, now)
                                                         .(requests := ConsumedIn(old(store.requests), req.value.id, now)))))
    ensures r.Ok? <==>
              var user := old(store.Snapshot().FindUserByEmail(p.email));
              && shapeErrors == [] && Validation.Strong(p.password) && FindUser !in faults && user.Some?
              && var req := old(store.Snapshot().FindVerificationRequest(user.value.id, ResetPasswordVerification, now));
              && FindRequest !in faults && req.Some? && req.value.code == p.code
              && FindLastFour !in faults
              && !UsedBefore(old(store.Snapshot().FindLastFourPasswords(user.value.id)), p.password, matches)
              && hashed.Ok? && DeletePassword !in faults && CreatePassword !in faults && SetConsumed !in faults
    ensures r.Err? && r.error != Service(InternalError) ==> store.Snapshot() == old(store.Snapshot())
  {
    if shapeErrors != [] {
      return Err(Invalid(shapeErrors));
    }
    var errs := Validation.ValidatePassword(p.password);
    if errs != [] {
      return Err(Invalid(errs));
    }
    var user := store.Snapshot().FindUserByEmail(p.email);
    if FindUser in faults || user.None? {
      return Err(Service(UserNotFoundErr));
    }
    var request := store.Snapshot().FindVerificationRequest(user.value.id, ResetPasswordVerification, now);
    if FindRequest in faults || request.None? {
      return Err(Service(VerificationRequestExpiredErr));
    }
    if request.value.code != p.code {
      return Err(Service(InvalidVerificationCodeErr));
    }
    if FindLastFour in faults {
      return Err(Service(InternalError));
    }
    var lastFour := store.Snapshot().FindLastFourPasswords(user.value.id);
    var used := MatchesAny(lastFour, p.password, matches);
    if used {
      return Err(Service(PasswordAlreadyUsedErr));
    }
    if hashed.Err? {
      return Err(Service(InternalError));
    }
    if DeletePassword in faults {
      return Err(Service(InternalError));
    }
    store.DeletePassword(user.value.id, user.value.id, now);
    if CreatePassword in faults {
      return Err(Service(InternalError));
    }
    store.CreatePassword(CreatePasswordParams(user.value.id, hashed.value, user.value.id), now);
    if SetConsumed in faults {
      return Err(Service(InternalError));
    }
    store.SetVerificationRequestConsumedAt(request.value.id, now);
    return Ok(());
  }

  /** `ChangePassword`: like a reset, except that the current password must
      match the active one (else `PasswordMismatchErr`) instead of a code.
      The initiator is not used: the account is the one of `p.email`. */
  method ChangePassword(store: Repository, initiator: string, p: ChangePasswordPayload,
                        shapeErrors: seq<Validation.ValidationError>,
                        matches: (string, string) -> bool, hashed: Result<string, string>,
                        faults: set<Step>, now: Time)
    returns (r: Result<(), Failure>)
    requires store.Valid()
    modifies store
    ensures store.Valid()
    ensures shapeErrors != [] ==> r == Err(Invalid(shapeErrors))
    ensures shapeErrors == [] && !Validation.Strong(p.newPassword) ==> r == Err(Invalid(PasswordErrors(p.newPassword)))
    ensures var user := old(store.Snapshot().FindUserByEmail(p.email));
            shapeErrors == [] && Validation.Strong(p.newPassword) ==>
              && (FindUser in faults || user.None? ==> r == Err(Service(UserNotFoundErr)))
              && (FindUser !in faults && user.Some? ==>
                    var current := old(store.Snapshot().FindPasswordByUserId(user.value.id));
                    && (FindPassword in faults || current.None? || !matches(current.value.hash, p.currentPassword) ==>
                          r == Err(Service(PasswordMismatchErr)))
                    && (FindPassword !in faults && current.Some? && matches(current.value.hash, p.currentPassword) ==>
                          var history := old(store.Snapshot().FindLastFourPasswords(user.value.id));
                          && (FindLastFour in faults ==>
                                r == Err(Service(InternalError)) && store.Snapshot() == old(store.Snapshot()))
                          && (FindLastFour !in faults && UsedBefore(history, p.newPassword, matches) ==>
                                r == Err(Service(PasswordAlreadyUsedErr)))
                          && (FindLastFour !in faults && !UsedBefore(history, p.newPassword, matches) ==>
                                && (hashed.Err? || DeletePassword in faults ==>
                                      r == Err(Service(InternalError)) && store.Snapshot() == old(store.Snapshot()))
                                && (hashed.Ok? && DeletePassword !in faults && CreatePassword in faults ==>
                                      && r == Err(Service(InternalError))
                                      && store.Snapshot() == PasswordsRetired(old(store.Snapshot()), user.value.id, now)))
                          && (r.Ok? ==> hashed.Ok? && store.Snapshot() == Rotated(old(store.Snapshot()), user.value.id, hashed.value, now))))
    ensures r.Ok? <==>
              var user := old(store.Snapshot().FindUserByEmail(p.email));
              && shapeErrors == [] && Validation.Strong(p.newPassword) && FindUser !in faults && user.Some?
              && var current := old(store.Snapshot().FindPasswordByUserId(user.value.id));
              && FindPassword !in faults && current.Some? && matches(current.value.hash, p.currentPassword)
              && FindLastFour !in faults
              && !UsedBefore(old(store.Snapshot().FindLastFourPasswords(user.value.id)), p.newPassword, matches)
              && hashed.Ok? && DeletePassword !in faults && CreatePassword !in faults
    ensures r.Err? && r.error != Service(InternalError) ==> store.Snapshot() == old(store.Snapshot())
  {
    if shapeErrors != [] {
      return Err(Invalid(shapeErrors));
    }
    var errs := Validation.ValidatePassword(p.newPassword);
    if errs != [] {
      return Err(Invalid(errs));
    }
    var user := store.Snapshot().FindUserByEmail(p.email);
    if FindUser in faults || user.None? {
      return Err(Service(UserNotFoundErr));
    }
    var password := store.Snapshot().FindPasswordByUserId(user.value.id);
    if FindPassword in faults || password.None? {
      return Err(Service(PasswordMismatchErr));
    }
    if !matches(password.value.hash, p.currentPassword) {
      return Err(Service(PasswordMismatchErr));
    }
    if FindLastFour in faults {
      return Err(Service(InternalError));
    }
    var lastFour := store.Snapshot().FindLastFourPasswords(user.value.id);
    var used := MatchesAny(lastFour, p.newPassword, matches);
    if used {
      return Err(Service(PasswordAlreadyUsedErr));
    }
    if hashed.Err? {
      return Err(Service(InternalError));
    }
    if DeletePassword in faults {
      return Err(Service(InternalError));
    }
    store.DeletePassword(user.value.id, user.value.id, now);
    if CreatePassword in faults {
      return Err(Service(InternalError));
    }
    store.CreatePassword(CreatePasswordParams(user.value.id, hashed.value, user.value.id), now);
    return Ok(());
  }
}
