# billbharat core, modelled in Dafny

This project models the business logic at the core of billbharat, a set of Go
microservices for invoicing. The logic spans the services below.

- The **auth service** runs the account lifecycle:
  - registration;
  - email and phone verification with one-time codes, and resending them under a cooldown;
  - login through a fixed chain of checks;
  - forgotten, reset and changed passwords with a last-four reuse check;
  - creating, listing and selecting businesses.

  Its relational store is a class, `AuthStore.Repository`, with one sequence per table. The service methods change it step by step. A transaction is a private copy of the repository, loaded back on commit.
- The **shared events** package covers:
  - the event envelopes and their tags;
  - the Kafka producer, with one topic per event;
  - the consumer loop's fetch, decode, handle and commit policy.
- The **notification service** has:
  - the document store: template lookup, and map upserts that mirror users, businesses and memberships;
  - the read-only embedded template tree;
  - the notifier, which dispatches a notification request channel by channel.
- The **product service** has password validation, its random-value encoders (RFC 4648 sections 6 and 8, and zero-padded one-time codes) and the category service with its paging.
- The **broker** builds a prefix routing table and forwards each request to the first matching route.
- The **HTTP layer** has the auth error handler and the two authentication middlewares.

Whatever the Go code gets from an outside system becomes an input of the call:

- bcrypt is a `matches(hash, password)` relation, plus a `hashed` result per call;
- `crypto/rand` is a byte stream or a drawn number;
- time is a `now` parameter;
- JSON encoding, template rendering, JWT signing and verification, URL parsing and struct-tag validation are function-valued inputs or result values;
- a failing database or driver call is named in a `faults` set, or given as a `fault` value.

The code is modelled as written. Where it looks unintended, the model keeps that behaviour and states it as a lemma:

- the inverted resend cooldown;
- events emitted before the commit;
- the dropped `action` argument;
- the ignored business in a category update;
- the empty broker prefix.

The SQL behind the auth repository is not in the repository's visible code. `AuthStore` therefore states its assumptions about it as definitions:

- `FindUserByEmail` and `FindUserById` return the oldest row.
- `FindVerificationRequestByUserIdAndType` returns the newest unconsumed, unexpired request of that user and kind.
- `FindPasswordByUserId` returns the newest row that is not deleted.
- `FindLastFourPasswordsByUserId` returns the user's four newest rows, newest first.
- `DeletePassword` soft-deletes every active row of the user.
- `FindBusinessesByUserID` returns the businesses of the user's memberships, in membership order.

The notification store's template lookup is a MongoDB `FindOne` with no sort, which promises only some matching document. `NotificationRepository` takes the first matching template in insertion order.

## Model

| member | source | states |
|---|---|---|
| Common.IdSource.constructor | backend/shared/events/events.go:28 | the identifier source starts with nothing handed out |
| Common.IdSource.New | backend/shared/events/events.go:28 | `uuid.New()`: the identifier was never handed out before, is not `uuid.Nil`, and every earlier one stays issued |
| Common.TrimPrefix | backend/auth/internal/ports/httpd/authn/authn.go:22 | `strings.TrimPrefix`: with the prefix present, prefix plus result is the input; otherwise the input is unchanged |
| Common.TrimRightChar | backend/broker/main.go:39 | the result is a prefix of the input that does not end in `c`, and only `c`s were cut |
| Common.TrimChar | backend/broker/main.go:39 | `strings.Trim(p, "/")`: no longer than the input, neither end is the trimmed character, and an input made only of that character gives "" (that the result is the input with only its ends cut is `Common.TrimCharSlice`) |
| Common.TrimCharSlice | backend/broker/main.go:39 | the trimmed text is one contiguous slice of the input, and every character cut before and after it is the trimmed one |
| Common.TrimCharOfWrapped | backend/broker/main.go:39 | text that neither starts nor ends with `c`, wrapped in one `c` on each side, trims back to itself |
| Common.Utf8Length | backend/product/internal/core/validation/custom_validations.go:15 | Go's `len` of a string is its UTF-8 byte count, between one and four bytes per character |
| Common.Utf8LengthOfAscii | backend/product/internal/core/validation/custom_validations.go:15 | an ASCII password has one byte per character |
| Decimal.Pow10 | backend/product/internal/core/cryptoutil/cryptoutil.go:26 | `10^k` is positive |
| Decimal.DigitChar | backend/product/internal/core/cryptoutil/cryptoutil.go:33 | a digit value gives a decimal digit character |
| Decimal.Itoa | backend/product/internal/core/cryptoutil/cryptoutil.go:33 | `%d` of a natural number: at least one digit, all digits, and no leading zero |
| Decimal.IntString | backend/auth/internal/ports/httpd/error_handler.go:20 | `%d` of any integer is non-empty |
| Decimal.AtoiItoa | backend/product/internal/core/cryptoutil/cryptoutil.go:33 | reading the decimal text back gives the number |
| Decimal.ItoaFits | backend/auth/internal/core/cryptoutil/cryptoutil.go:19-26 | a number has at most `w` digits exactly when it is below `10^w` |
| Decimal.Pow10Grows | backend/auth/internal/core/cryptoutil/cryptoutil.go:19 | `10^w` is at least 10 for `w >= 1` |
| Decimal.Repeat | backend/product/internal/core/cryptoutil/cryptoutil.go:33 | the padding: `k` copies of one character, none for a negative `k` |
| Decimal.ZeroPadded | backend/product/internal/core/cryptoutil/cryptoutil.go:33 | `%0*d`: all digits, `width` long unless the number needs more digits, and then nothing is cut |
| Decimal.LeftJustified | backend/auth/internal/core/cryptoutil/cryptoutil.go:26 | `fmt` with a negative `*` width: the text first, then spaces up to the width, nothing cut |
| Decimal.AtoiOfZeros | backend/product/internal/core/cryptoutil/cryptoutil.go:33 | a run of zeros reads as 0 |
| Decimal.AtoiLeadingZeros | backend/product/internal/core/cryptoutil/cryptoutil.go:33 | leading zeros do not change the number read |
| Decimal.ZeroPaddedValue | backend/product/internal/core/cryptoutil/cryptoutil.go:33 | the padded text reads back as the number |
| Decimal.ZeroPaddedLength | backend/auth/internal/core/cryptoutil/cryptoutil.go:26 | a number below `10^width` is padded to exactly `width` digits |
| Rfc4648.HexDigit | backend/product/internal/core/cryptoutil/cryptoutil.go:46 | a value below 16 gives a lower-case hexadecimal digit |
| Rfc4648.HexValue | backend/product/internal/core/cryptoutil/cryptoutil.go:46 | a digit's value is below 16, and every lower-case digit has one |
| Rfc4648.HexValueOfDigit | backend/product/internal/core/cryptoutil/cryptoutil.go:46 | a digit decodes to the value it was written for |
| Rfc4648.NibbleValue | backend/product/internal/core/cryptoutil/cryptoutil.go:46 | four bits make a value below 16 |
| Rfc4648.NibbleBits | backend/product/internal/core/cryptoutil/cryptoutil.go:46 | a value below 16 has four bits |
| Rfc4648.NibbleRoundTrip | backend/product/internal/core/cryptoutil/cryptoutil.go:46 | the bits of a nibble's value are the nibble |
| Rfc4648.HexPair | backend/product/internal/core/cryptoutil/cryptoutil.go:46 | each byte is two digits |
| Rfc4648.HexEncode | backend/product/internal/core/cryptoutil/cryptoutil.go:46 | `hex.EncodeToString`: two lower-case digits per byte |
| Rfc4648.HexDecode | backend/product/internal/core/cryptoutil/cryptoutil.go:46 | accepted text has two characters per byte |
| Rfc4648.HexDecodeByte | backend/product/internal/core/cryptoutil/cryptoutil.go:46 | the two digits of a byte decode back to it in front of the rest |
| Rfc4648.HexRoundTrip | backend/product/internal/core/cryptoutil/cryptoutil.go:46 | decoding the hexadecimal text gives back the bytes |
| Rfc4648.Base32Digit | backend/product/internal/core/cryptoutil/cryptoutil.go:20-22 | a value below 32 gives a character of the alphabet A-Z, 2-7 |
| Rfc4648.Base32Value | backend/product/internal/core/cryptoutil/cryptoutil.go:20-22 | a character's value is below 32 |
| Rfc4648.Base32ValueOfDigit | backend/product/internal/core/cryptoutil/cryptoutil.go:20-22 | each alphabet character decodes to its own value |
| Rfc4648.ByteBits | backend/product/internal/core/cryptoutil/cryptoutil.go:20-22 | a byte has eight bits |
| Rfc4648.BitsByteOfByteBits | backend/product/internal/core/cryptoutil/cryptoutil.go:20-22 | rebuilding a byte from its bits gives the byte |
| Rfc4648.BytesToBits | backend/product/internal/core/cryptoutil/cryptoutil.go:20-22 | eight bits per byte |
| Rfc4648.BitsToBytes | backend/product/internal/core/cryptoutil/cryptoutil.go:20-22 | one byte per eight bits |
| Rfc4648.BitsRoundTrip | backend/product/internal/core/cryptoutil/cryptoutil.go:20-22 | bytes to bits and back is the identity |
| Rfc4648.QuintetValue | backend/product/internal/core/cryptoutil/cryptoutil.go:20-22 | five bits make a value below 32 |
| Rfc4648.QuintetBits | backend/product/internal/core/cryptoutil/cryptoutil.go:20-22 | a value below 32 has five bits |
| Rfc4648.QuintetRoundTrip | backend/product/internal/core/cryptoutil/cryptoutil.go:20-22 | the bits of a quintet's value are the quintet |
| Rfc4648.Zeros | backend/product/internal/core/cryptoutil/cryptoutil.go:20-22 | the filler bits of the last group are all zero |
| Rfc4648.EncodeBits | backend/product/internal/core/cryptoutil/cryptoutil.go:20-22 | one alphabet character per five bits, rounding up, with no padding character |
| Rfc4648.Base32Encode | backend/product/internal/core/cryptoutil/cryptoutil.go:20-22 | unpadded base 32 of `n` bytes is `(8n+4)/5` alphabet characters |
| Rfc4648.DecodeChars | backend/product/internal/core/cryptoutil/cryptoutil.go:20-22 | each accepted character is five bits |
| Rfc4648.DecodeEncodedBits | backend/product/internal/core/cryptoutil/cryptoutil.go:20-22 | decoding the encoded bits gives them back, followed by fewer than five filler bits |
| Rfc4648.Base32RoundTrip | backend/product/internal/core/cryptoutil/cryptoutil.go:20-22 | decoding the unpadded base 32 text gives back the bytes |
| Rfc4648.WholeBytes | backend/product/internal/core/cryptoutil/cryptoutil.go:20-22 | the filler bits never make another byte |
| CryptoRand.MakeBytes | backend/product/internal/core/cryptoutil/cryptoutil.go:41 | `make([]byte, n)`: a fresh buffer of `n` zero bytes |
| CryptoRand.Filled | backend/product/internal/core/cryptoutil/cryptoutil.go:42 | what a read leaves in the buffer: the delivered bytes in front and the rest as it was, so a full delivery fills the buffer |
| CryptoRand.Read | backend/product/internal/core/cryptoutil/cryptoutil.go:42 | `rand.Read` fills the buffer from the source, and fails with the short-read error exactly when the source runs out |
| ProductCrypto.HumanID | backend/product/internal/core/cryptoutil/cryptoutil.go:17-23 | the prefix, "-", and 7 base 32 characters that decode back to the four random bytes |
| ProductCrypto.GenerateOTP | backend/product/internal/core/cryptoutil/cryptoutil.go:25-34 | exactly six decimal digits whose value is the drawn number; a failed draw gives "" and the error |
| ProductCrypto.GenerateHash | backend/product/internal/core/cryptoutil/cryptoutil.go:40-47 | `2·length` lower-case hex characters that decode to the random bytes; a short source gives "" and the error |
| ProductCrypto.GenerateRefreshToken | backend/product/internal/core/cryptoutil/cryptoutil.go:36-38 | 128 hexadecimal characters decoding to the 64 random bytes, or "" and the error |
| ProductCrypto.GenerateInvitationHash | backend/product/internal/core/cryptoutil/cryptoutil.go:49-51 | 128 hexadecimal characters decoding to the 64 random bytes, or "" and the error |
| AuthCrypto.HumanID | backend/auth/internal/core/cryptoutil/cryptoutil.go:10-16 | the prefix, "-", and 7 base 32 characters that decode back to the four random bytes |
| AuthCrypto.GeneratOTP | backend/auth/internal/core/cryptoutil/cryptoutil.go:18-27 | for `length >= 1`: exactly `length` digits whose value is the drawn number, or "" and the error of a failed draw; for `length <= 0` no error (the bound is 1, so 0 is drawn without reading): "0" for length 0, and "0" left-justified with spaces to `-length` characters below that |
| Validation.Rank | backend/product/internal/core/validation/custom_validations.go:13-56 | each rule's position in the checking order |
| Validation.ErrorFor | backend/product/internal/core/validation/custom_validations.go:16-53 | the error of a broken rule is on field "password", with the rule's code |
| Validation.Broken | backend/product/internal/core/validation/custom_validations.go:13-56 | the broken rules are no more than the rules checked |
| Validation.Reports | backend/product/internal/core/validation/custom_validations.go:13-56 | one report per rule |
| Validation.ReportsAt | backend/product/internal/core/validation/custom_validations.go:13-56 | the `i`-th report is the report of the `i`-th rule |
| Validation.FoldIsReports | backend/product/internal/core/validation/custom_validations.go:13-56 | checking rule by rule appends exactly the reports of the broken rules |
| Validation.FoldRules | backend/product/internal/core/validation/custom_validations.go:15-54 | the five checks in sequence are the fold over the rule list |
| Validation.BrokenMembers | backend/product/internal/core/validation/custom_validations.go:13-56 | a rule is listed as broken exactly when it is checked and fails |
| Validation.BrokenInOrder | backend/product/internal/core/validation/custom_validations.go:13-56 | the broken rules keep the checking order |
| Validation.ValidatePassword | backend/product/internal/core/validation/custom_validations.go:13-56 | one error per broken rule in rule order, at most five, each on "password"; none exactly when all five rules hold |
| Validation.CheckingAllRules | backend/product/internal/core/validation/custom_validations.go:13-56 | checking the five rules in turn gives the reports of the broken rules, at most five, each on "password", and none exactly for a strong password |
| Validation.StrongIffNothingBroken | backend/product/internal/core/validation/custom_validations.go:13-56 | no rule is broken exactly when the password is strong |
| Validation.ErrorsInRuleOrder | backend/product/internal/core/validation/custom_validations.go:13-56 | the errors come in the order min, uppercase, lowercase, number, special |
| Validation.ReportedExactlyWhenBroken | backend/product/internal/core/validation/custom_validations.go:13-56 | a rule's error is reported if and only if the password breaks that rule |
| Validation.BrokenRuleReported | backend/product/internal/core/validation/custom_validations.go:15-54 | a broken rule's error is reported |
| Validation.OnlyBrokenRulesReported | backend/product/internal/core/validation/custom_validations.go:15-54 | a rule the password passes is not reported |
| Validation.CodeInjective | backend/product/internal/core/validation/custom_validations.go:19-51 | different rules have different error codes |
| Events.Tag | backend/shared/events/events.go:19-24 | each event's tag parses back to the event |
| Events.ParseTagInverse | backend/shared/events/events.go:19-24 | a string that names a tag is that tag's string |
| Events.TagsDistinct | backend/shared/events/events.go:19-24 | two events have the same tag exactly when they are the same event |
| Events.NewEvent | backend/shared/events/events.go:26-33 | the envelope carries the given event and data unchanged, the fresh identifier and the current time; its action is empty |
| Events.NewEventIgnoresAction | backend/shared/events/events.go:26-33 | the action argument makes no difference to the envelope |
| Events.NewEventDistinctIds | backend/shared/events/events.go:28 | envelopes with different identifiers differ |
| Events.NewUserManageEvent | backend/shared/events/events.go:35-37 | tagged "manage-user", with the data unchanged and no action |
| Events.NewBusinessManageEvent | backend/shared/events/events.go:39-41 | tagged "manage-business", with the data unchanged and no action |
| Events.NewBusinessUserManageEvent | backend/shared/events/events.go:43-45 | tagged "manage-business-user", with the data unchanged and no action |
| Events.NewNotificationManageEvent | backend/shared/events/notification.go:17-19 | tagged "manage-notification"; the channel list and tokens are carried unchanged and the "send" action is dropped |
| Kafka.EventManager.constructor | backend/shared/events/kafka.go:25-38 | the brokers and group of the options, and nothing written yet |
| Kafka.EventManager.Produce | backend/shared/events/kafka.go:82-91 | an encoding error is returned with nothing written; otherwise the encoding is written to the event's topic, or the write error is returned |
| Kafka.EventManager.EmitManageUserEvent | backend/shared/events/kafka.go:40-42 | writes to topic "manage-user", with produce's error rules |
| Kafka.EventManager.EmitManageNotificationEvent | backend/shared/events/kafka.go:44-46 | writes to topic "manage-notification", with produce's error rules |
| Kafka.EventManager.EmitManageBusinessEvent | backend/shared/events/kafka.go:48-50 | writes to topic "manage-business", with produce's error rules |
| Kafka.EventManager.EmitManageBusinessUserEvent | backend/shared/events/kafka.go:52-54 | writes to topic "manage-business-user", with produce's error rules |
| Kafka.EventManager.NewReader | backend/shared/events/kafka.go:72-80 | the configured brokers and group, the event's own topic, and the byte limits 10e3 and 10e6 |
| Kafka.ReaderTopicMatchesProducer | backend/shared/events/kafka.go:72-80 | a reader for an event gets only messages produced for that event |
| Kafka.Handled | backend/shared/events/kafka.go:99-118 | no more handler calls than fetches |
| Kafka.Committed | backend/shared/events/kafka.go:115-122 | no more commits than handler calls |
| Kafka.StartKafkaConsumer | backend/shared/events/kafka.go:93-124 | the loop stops exactly at the first end of file; until then it hands every decoded message to the handler and commits exactly the ones whose handler succeeded |
| Kafka.CommittedIff | backend/shared/events/kafka.go:109-122 | a message is committed if and only if it was fetched, decoded, and its handler succeeded |
| Kafka.SkippedOutcome | backend/shared/events/kafka.go:100-113 | a fetch error or an undecodable message calls no handler and commits nothing |
| Kafka.FailedHandlerNotCommitted | backend/shared/events/kafka.go:115-118 | a message whose handler fails is handled but not committed |
| AuthStore.NewUser | backend/auth/internal/core/service/auth_service.go:199-206 | the inserted user row carries the parameters, the phone not verified, and no deletion or deactivation |
| AuthStore.NewPassword | backend/auth/internal/core/service/auth_service.go:218-222 | the inserted password row is the user's, active, and holds the hash |
| AuthStore.NewRequest | backend/auth/internal/core/service/auth_service.go:235-241 | the inserted request carries user, code, kind and expiry, is created now, and is not consumed |
| AuthStore.NewSession | backend/auth/internal/core/service/auth_service.go:423-431 | the inserted session carries user, refresh token and expiry |
| AuthStore.NewBusiness | backend/auth/internal/core/service/business_service.go:94-103 | the inserted business carries name, owner, creator, industry and currencies |
| AuthStore.NewBusinessUser | backend/auth/internal/core/service/business_service.go:109-115 | the inserted membership carries user, business and role |
| AuthStore.NewestOfUser | backend/auth/internal/core/service/auth_service.go:616 | at most `n` rows come back |
| AuthStore.Tables.FindLastFourPasswords | backend/auth/internal/core/service/auth_service.go:616 | `FindLastFourPasswordsByUserId` returns at most four rows |
| AuthStore.EmailVerifiedIn | backend/auth/internal/core/service/auth_service.go:303 | `SetUserEmailVerified` sets the flag on the rows with that identifier and changes no other row |
| AuthStore.PhoneVerifiedIn | backend/auth/internal/core/service/auth_service.go:346 | `SetUserPhoneVerified` sets the flag on the rows with that identifier and changes no other row |
| AuthStore.ConsumedIn | backend/auth/internal/core/service/auth_service.go:308 | `SetVerificationRequestConsumedAt` stamps the request with that identifier and changes no other row |
| AuthStore.DeletedIn | backend/auth/internal/core/service/auth_service.go:639-643 | `DeletePassword` soft-deletes every active row of the user and changes no other row |
| AuthStore.Repository.constructor | backend/auth/internal/persistence/repository/repository.go:27-30 | an empty, valid store |
| AuthStore.Repository.Load | backend/auth/internal/persistence/repository/repository.go:41-43 | the repository holds exactly the given tables |
| AuthStore.Repository.StartTransaction | backend/auth/internal/persistence/repository/repository.go:33-43 | a fresh transaction holding a copy of the tables |
| AuthStore.Repository.Commit | backend/auth/internal/core/service/auth_service.go:261 | the transaction's tables become the repository's |
| AuthStore.Repository.CreateUser | backend/auth/internal/core/service/auth_service.go:199-206 | appends the new user under a fresh identifier and keeps identifiers fresh |
| AuthStore.Repository.CreatePassword | backend/auth/internal/core/service/auth_service.go:218-222 | appends the new password row under a fresh identifier |
| AuthStore.Repository.CreateVerificationRequest | backend/auth/internal/core/service/auth_service.go:235-241 | appends the new request under a fresh identifier |
| AuthStore.Repository.CreateSession | backend/auth/internal/core/service/auth_service.go:423-431 | appends the new session under a fresh identifier |
| AuthStore.Repository.CreateBusiness | backend/auth/internal/core/service/business_service.go:94-103 | appends the new business under a fresh identifier |
| AuthStore.Repository.CreateBusinessUser | backend/auth/internal/core/service/business_service.go:109-115 | appends the new membership |
| AuthStore.Repository.SetUserEmailVerified | backend/auth/internal/core/service/auth_service.go:303 | only the user table changes, as `EmailVerifiedIn` says |
| AuthStore.Repository.SetUserPhoneVerified | backend/auth/internal/core/service/auth_service.go:346 | only the user table changes, as `PhoneVerifiedIn` says |
| AuthStore.Repository.SetVerificationRequestConsumedAt | backend/auth/internal/core/service/auth_service.go:308 | only the request table changes, as `ConsumedIn` says |
| AuthStore.Repository.DeletePassword | backend/auth/internal/core/service/auth_service.go:639-643 | only the password table changes, as `DeletedIn` says |
| AuthStore.FirstWithEmailSpec | backend/auth/internal/core/service/auth_service.go:186 | the user found has that email; there is none exactly when no row has it |
| AuthStore.FirstWithIdSpec | backend/auth/internal/core/service/business_service.go:187 | the user found has that identifier; there is none exactly when no row has it |
| AuthStore.LatestPendingSpec | backend/auth/internal/core/service/auth_service.go:289-292 | the request found is pending for that user and kind, and no later row is; there is none exactly when none is pending |
| AuthStore.LatestActiveSpec | backend/auth/internal/core/service/auth_service.go:394 | the password found is the user's newest active row; there is none exactly when the user has no active row |
| AuthStore.NewestOfUserSpec | backend/auth/internal/core/service/auth_service.go:616 | the rows returned are the user's own; when fewer than `n` come back, every row of the user is among them |
| AuthStore.BusinessesOfSpec | backend/auth/internal/core/service/business_service.go:157 | every business listed exists and belongs to one of the user's memberships |
| AuthStore.BusinessesOfComplete | backend/auth/internal/core/service/business_service.go:157 | conversely, every membership of the user whose business exists puts that business in the listing |
| AuthStore.BusinessWithIdSpec | backend/auth/internal/core/service/business_service.go:157 | the business found has that identifier; there is none exactly when no row has it |
| AuthStore.FreshId | backend/auth/internal/core/service/auth_service.go:199 | the next identifier is used by no row |
| AuthStore.FirstWithEmailAppend | backend/auth/internal/core/service/auth_service.go:186-199 | an appended user is found by email only when no older row has that email |
| AuthStore.FirstWithEmailOfEmailVerified | backend/auth/internal/core/service/auth_service.go:303 | after the email flag is set, the email lookup finds the same row with the flag set when that row is the one verified, and the same row otherwise |
| AuthStore.FirstWithEmailOfPhoneVerified | backend/auth/internal/core/service/auth_service.go:346 | the same for the phone flag |
| AuthStore.ConsumedNotPending | backend/auth/internal/core/service/auth_service.go:308 | a consumed request is never found pending again |
| AuthService.PasswordErrors | backend/auth/internal/core/service/auth_service.go:181 | no password errors exactly when the password is strong |
| AuthService.Register | backend/auth/internal/core/service/auth_service.go:174-272 | validation errors, then password errors, then `UserExistsErr` for a known email, each with nothing written; success exactly when no step fails, and then the user, the password and both codes are committed |
| AuthService.RegisterInTransaction | backend/auth/internal/core/service/auth_service.go:191-264 | any failure before or at commit leaves the store unchanged; success exactly when every step, the email-code insert included, succeeds, and then the store is `Registered` |
| AuthService.StageRegistration | backend/auth/internal/core/service/auth_service.go:199-259 | the user, password, email code and phone code written through the transaction, in order; the email insert's error is overwritten, but the aborted transaction makes the phone insert fail |
| AuthService.VerifyContact | backend/auth/internal/core/service/auth_service.go:275-358 | fails in order with `UserNotFoundErr`, `VerificationRequestExpiredErr` and `InvalidVerificationCodeErr`; on success only the matching flag is set and the request consumed |
| AuthService.VerifyEmail | backend/auth/internal/core/service/auth_service.go:275-315 | shape errors, then `UserNotFoundErr`, `VerificationRequestExpiredErr` and `InvalidVerificationCodeErr` in that order, then the flag write's and the consume's driver errors; success needs the account and a pending email code equal to the one given, and then sets the email flag and consumes the code |
| AuthService.VerifyPhone | backend/auth/internal/core/service/auth_service.go:318-358 | the same refusals in the same order, for the phone flag and the phone code |
| AuthService.Login | backend/auth/internal/core/service/auth_service.go:360-439 | the refusals of the ordered gate; otherwise tokens and a 30-day session, with a session write failure ignored |
| AuthService.SendVerificationRequest | backend/auth/internal/core/service/auth_service.go:442-543 | unknown user, flag already set and the cooldown as written refuse it; otherwise exactly one new code of that kind is stored |
| AuthService.ForgotPassword | backend/auth/internal/core/service/auth_service.go:545-579 | any existing account gets one reset code expiring in 15 minutes, with no cooldown and no verified check |
| AuthService.MatchesAny | backend/auth/internal/core/service/auth_service.go:622-627 | the reuse loop finds a match exactly when one of the hashes matches |
| AuthService.ResetPassword | backend/auth/internal/core/service/auth_service.go:582-664 | the failure order including `PasswordAlreadyUsedErr` with no write; the store on each `InternalError` path (unchanged, passwords retired with none stored, or rotated with the code still pending); on success the old password is retired, the new one stored and the code consumed |
| AuthService.ChangePassword | backend/auth/internal/core/service/auth_service.go:666-743 | the current password must match, else `PasswordMismatchErr`; reuse of the last four is refused with no write; the store on each `InternalError` path (unchanged, or passwords retired with none stored); on success the password rotates |
| AccountLifecycle.RegisteredKeepsValid | backend/auth/internal/core/service/auth_service.go:199-254 | a registration keeps every identifier fresh |
| AccountLifecycle.RegisteredRows | backend/auth/internal/core/service/auth_service.go:199-227 | one unverified user created by `uuid.Nil` with phone = country code ++ phone, and one password row of that user; nothing else changes |
| AccountLifecycle.RegisteredRequestRows | backend/auth/internal/core/service/auth_service.go:235-254 | the email code, then the phone code, each unconsumed and expiring 15 minutes after now |
| AccountLifecycle.RegisteredAccountFound | backend/auth/internal/core/service/auth_service.go:186-206 | the email now finds the new account |
| AccountLifecycle.RegisteredCodesPending | backend/auth/internal/core/service/auth_service.go:289-292 | both new codes are pending, so verification finds them |
| AccountLifecycle.FreshAccountCannotLogIn | backend/auth/internal/core/service/auth_service.go:374-377 | a new account is refused with `UserEmailNotVerifiedErr` |
| AccountLifecycle.LoginAdmitted | backend/auth/internal/core/service/auth_service.go:368-403 | an admitted login has a live account with both contacts verified and an active password that matches |
| AccountLifecycle.LoginUnknownEmail | backend/auth/internal/core/service/auth_service.go:368-372 | an unknown email is refused with `UserNotFoundErr` |
| AccountLifecycle.VerifiedFlagVisible | backend/auth/internal/core/service/auth_service.go:303 | after verification the email finds the account with the flag set |
| AccountLifecycle.CodeUsedOnce | backend/auth/internal/core/service/auth_service.go:308 | a consumed code is never found pending again |
| AccountLifecycle.RotationInstallsNewPassword | backend/auth/internal/core/service/auth_service.go:639-656 | a rotation retires the user's active passwords, appends one new row that becomes the only active one, and leaves other rows alone |
| AccountLifecycle.RotationBlocksImmediateReuse | backend/auth/internal/core/service/auth_service.go:616-631 | the password just stored is among the last four, so setting it again is refused |
| AccountLifecycle.RotatedPasswordLogsIn | backend/auth/internal/core/service/auth_service.go:394-403 | after a rotation the new password passes the login gate |
| AccountLifecycle.RetiredWithoutReplacementLocksOut | backend/auth/internal/core/service/auth_service.go:639-652 | when the new-password insert fails after the old passwords were retired, the account's next login is refused with `InvalidLoginMethodErr` |
| AccountLifecycle.ResendGuardAsWritten | backend/auth/internal/core/service/auth_service.go:466 | as written, a resend is allowed in the second the code was issued and refused once a minute has passed |
| AccountLifecycle.ReuseCheckOverFour | backend/auth/internal/core/service/auth_service.go:616-627 | a reported reuse is a match against one of the user's own stored hashes |
| BusinessService.IndustryErrors | backend/auth/internal/core/service/business_service.go:40 | no error exactly when the industry is one of the nine listed; the empty industry reports only `required`, any other unlisted one only `oneof`, because the validator stops at a field's first failing tag |
| BusinessService.BusinessEventData | backend/auth/internal/core/service/business_service.go:121 | the event carries the business row's fields |
| BusinessService.MemberEventData | backend/auth/internal/core/service/business_service.go:127 | the event carries the membership's user, business and role |
| BusinessService.CreateErrors | backend/auth/internal/core/service/business_service.go:36-43 | no error exactly when every field passes; the errors come in field order, with the fields before `Industry`, then the industry's one error, then the fields after it |
| BusinessService.Create | backend/auth/internal/core/service/business_service.go:80-151 | a validation failure returns before any transaction; otherwise as `CreateValidated` says |
| BusinessService.CreateValidated | backend/auth/internal/core/service/business_service.go:86-151 | each failure in order; both events written before the commit; a failed emission or commit is `InternalError` and rolls the rows back but keeps written events |
| BusinessService.StageBusiness | backend/auth/internal/core/service/business_service.go:94-119 | one business owned and created by the initiator, then its "Owner" membership, with each insert's failure |
| BusinessService.EmitCreation | backend/auth/internal/core/service/business_service.go:121-131 | manage-business first, then manage-business-user, the second not attempted after a failure |
| BusinessService.Listing | backend/auth/internal/core/service/business_service.go:163-168 | one entry per business |
| BusinessService.List | backend/auth/internal/core/service/business_service.go:153-171 | one {Name, ID} per membership business, in order, or an empty list and the error |
| BusinessService.Select | backend/auth/internal/core/service/business_service.go:173-233 | `InternalError` when the business lookup fails; `BusinessNotFoundErr` with no session for a business not the initiator's; every later failure (user lookup, signing, refresh token, session insert) is `InternalError`; otherwise a token naming the business and one 30-day session |
| BusinessService.CreatedRows | backend/auth/internal/core/service/business_service.go:94-119 | one new business owned by the initiator under a fresh identifier, one "Owner" membership in it, nothing else changes |
| BusinessService.BusinessesOfAppend | backend/auth/internal/core/service/business_service.go:157 | a new membership appends its business to the member's list |
| BusinessService.BusinessWithIdAppend | backend/auth/internal/core/service/business_service.go:157 | a business appended with a fresh identifier is found by it |
| BusinessService.BusinessWithIdKept | backend/auth/internal/core/service/business_service.go:157 | appending a business keeps earlier lookups |
| BusinessService.CreatorSeesBusiness | backend/auth/internal/core/service/business_service.go:153-185 | after a creation the initiator's list ends with the new business and `Select` accepts it |
| BusinessService.ListingEntries | backend/auth/internal/core/service/business_service.go:163-168 | each entry is the business's name and identifier, in order |
| NotificationRepository.FirstMatchSpec | backend/notification/internal/persistence/repository/repository.go:51-61 | the template found matches all five fields and is the first in insertion order that does (the model's choice for an unsorted `FindOne`); none exactly when no template matches |
| NotificationRepository.Upsert | backend/notification/internal/persistence/repository/repository.go:63-88 | the key now holds the value, every other key keeps its value, and no key is removed |
| NotificationRepository.UpsertIdempotent | backend/notification/internal/persistence/repository/repository.go:65 | writing the same document twice is writing it once |
| NotificationRepository.Repository.constructor | backend/notification/internal/persistence/repository/repository.go:41-88 | empty collections |
| NotificationRepository.Repository.CreateTemplate | backend/notification/internal/persistence/repository/repository.go:41-49 | the template is appended and returned, or the driver's error leaves everything as it was |
| NotificationRepository.Repository.FindTemplate | backend/notification/internal/persistence/repository/repository.go:51-61 | the driver's error; else a template matching all five fields, the first in insertion order; else "no documents" exactly when none matches |
| NotificationRepository.Repository.SyncUser | backend/notification/internal/persistence/repository/repository.go:63-70 | upsert keyed by the user's id, other collections unchanged, errors passed through |
| NotificationRepository.Repository.SyncBusiness | backend/notification/internal/persistence/repository/repository.go:72-79 | upsert keyed by the business's id, other collections unchanged, errors passed through |
| NotificationRepository.Repository.SyncBusinessUser | backend/notification/internal/persistence/repository/repository.go:81-88 | upsert keyed by (user, business), other collections unchanged, errors passed through |
| TemplateFiles.PreferredExt | backend/notification/internal/persistence/repository/filesystem.go:23-32 | the preferred extension, else the first system one, else "" |
| TemplateFiles.PreferredExtensions | backend/notification/internal/persistence/repository/filesystem.go:17-21 | text/html, application/json and text/plain get .html, .json and .txt |
| TemplateFiles.JoinPair | backend/notification/internal/persistence/repository/filesystem.go:52-62 | joining two names puts one "/" between them |
| TemplateFiles.JoinTriple | backend/notification/internal/persistence/repository/filesystem.go:48-50 | joining three names puts one "/" between neighbours |
| TemplateFiles.Directory | backend/notification/internal/persistence/repository/filesystem.go:48-50 | "templates/<event>/<channel>" |
| TemplateFiles.DirectoryIgnoresScope | backend/notification/internal/persistence/repository/filesystem.go:48-50 | the scope plays no part in the directory |
| TemplateFiles.ContentPath | backend/notification/internal/persistence/repository/filesystem.go:52-58 | an error exactly for types outside the three; else directory/"<locale><ext>" |
| TemplateFiles.JsonTemplateIsItsMetadata | backend/notification/internal/persistence/repository/filesystem.go:52-62 | the content path of a JSON template is the metadata path |
| TemplateFiles.ContentBesideMetadata | backend/notification/internal/persistence/repository/filesystem.go:52-62 | HTML and text templates have a content file distinct from the metadata |
| TemplateFiles.BytesToString | backend/notification/internal/persistence/repository/filesystem.go:98 | the string holds the file's bytes one for one |
| TemplateFiles.FindTemplate | backend/notification/internal/persistence/repository/filesystem.go:69-105 | fails on an unsupported type, a missing content file, a missing metadata file or bad metadata, in that order; succeeds exactly otherwise, with body, subject, ID = directory, and the parameters echoed |
| TemplateFiles.FoundTemplateMatches | backend/notification/internal/persistence/repository/filesystem.go:94-104 | a template found matches the parameters it was looked up with |
| TemplateFiles.CreateTemplate | backend/notification/internal/persistence/repository/filesystem.go:65-67 | always an error |
| Notifier.TemplateQuery | backend/notification/internal/core/notifier/notifier.go:69-75 | every lookup is for locale "en" and scope "default" |
| Notifier.TemplateOrZero | backend/notification/internal/core/notifier/notifier.go:81-90 | a failed lookup leaves the zero template, whose body is empty |
| Notifier.EmailOutcome | backend/notification/internal/core/notifier/notifier.go:56-118 | nil data sends nothing and succeeds; a decode, HTML lookup or compile failure returns that step's error with no send; when every step succeeds a send is made, of the compiled HTML body and subject, with the text alternative only for a non-empty text body |
| Notifier.SmsOutcome | backend/notification/internal/core/notifier/notifier.go:120-162 | nil data sends nothing; a decode, template lookup or compile failure returns that step's error with no send; when every step succeeds a send of the compiled body and subject is made |
| Notifier.Outcomes | backend/notification/internal/core/notifier/notifier.go:39-52 | one routed outcome per channel, in order |
| Notifier.Notifier.constructor | backend/notification/internal/core/notifier/notifier.go:29-36 | nothing sent yet |
| Notifier.Notifier.HandleEmailNotification | backend/notification/internal/core/notifier/notifier.go:56-118 | the send and error of `EmailOutcome` |
| Notifier.Notifier.HandleSmsNotification | backend/notification/internal/core/notifier/notifier.go:120-162 | the send and error of `SmsOutcome` |
| Notifier.Notifier.HandleChannel | backend/notification/internal/core/notifier/notifier.go:40-51 | EMAIL to the email handler, SMS to the SMS handler, other channels ignored |
| Notifier.Notifier.Notify | backend/notification/internal/core/notifier/notifier.go:38-54 | the sends of the channels in order up to the first error, which is returned |
| Notifier.RunStops | backend/notification/internal/core/notifier/notifier.go:42-50 | after a handler error, later channels change nothing |
| Notifier.RunSucceedsIff | backend/notification/internal/core/notifier/notifier.go:38-54 | success exactly when every handler succeeds, and then every send was made in order |
| Notifier.FirstErrorWins | backend/notification/internal/core/notifier/notifier.go:42-50 | the error returned is the first failing handler's, and the sends are those up to it |
| Notifier.OtherChannelsIgnored | backend/notification/internal/core/notifier/notifier.go:40-51 | a request without EMAIL or SMS channels sends nothing and succeeds |
| Notifier.NothingHandled | backend/notification/internal/core/notifier/notifier.go:58-61 | channels whose handlers did nothing send nothing and succeed |
| Notifier.MissingTextTemplateIgnored | backend/notification/internal/core/notifier/notifier.go:81-110 | a missing text template only drops the alternative body |
| ProductCategory.CreateProductCategory | backend/product/internal/core/service/product_category_service.go:62-84 | a validation failure first; a repository error becomes `InternalError`; success echoes the row's ID and name |
| ProductCategory.UpdateProductCategory | backend/product/internal/core/service/product_category_service.go:86-107 | a validation failure first; a repository error is returned as it is; success echoes the renamed row |
| ProductCategory.UpdateIgnoresBusiness | backend/product/internal/core/service/product_category_service.go:93-96 | the business in the payload makes no difference to the update |
| ProductCategory.PageQuery | backend/product/internal/core/service/product_category_service.go:117-128 | limit 0 becomes 10, page 0 becomes 1, offset = (page-1)·limit |
| ProductCategory.PagesAreConsecutive | backend/product/internal/core/service/product_category_service.go:124-128 | page 1 starts at offset 0 and each page starts where the previous one ends |
| ProductCategory.PagesDisjoint | backend/product/internal/core/service/product_category_service.go:124-128 | a later page starts at least one page after an earlier one |
| ProductCategory.Entries | backend/product/internal/core/service/product_category_service.go:134-139 | one {ID, Name} per row, in order |
| ProductCategory.ListProductCategories | backend/product/internal/core/service/product_category_service.go:109-142 | a validation or query error gives an empty list and the error; otherwise the entries of the page query's rows |
| Broker.NormalizePrefix | backend/broker/main.go:38-41 | starts and ends with "/", and between them is the prefix with every leading and trailing "/" trimmed |
| Broker.NormalizeIdempotent | backend/broker/main.go:38-41 | normalising twice is normalising once |
| Broker.NormalizeIgnoresSlashes | backend/broker/main.go:38-41 | slashes around a prefix make no difference |
| Broker.SlashOnlyPrefixes | backend/broker/main.go:39-40 | "", "/" and "///" all normalise to "//" |
| Broker.BuildRoutes | backend/broker/main.go:63-82 | one route per server in config order when every target parses; otherwise the first failing target's error |
| Broker.Direct | backend/broker/main.go:29-34 | scheme and host from the target; path and query untouched |
| Broker.Handle | backend/broker/main.go:84-92 | the first route whose prefix starts the path, in table order; NotFound exactly when none does |
| Broker.ForwardedPathKept | backend/broker/main.go:29-34 | a forwarded request keeps its path, which starts with "/" |
| ErrorHandler.HandleError | backend/auth/internal/ports/httpd/error_handler.go:14-35 | fiber error: its code and "errors.<code>"; service error: its status and short message; validation errors: 422; anything else: 500 |
| ErrorHandler.ItoaOfThreeDigits | backend/auth/internal/ports/httpd/error_handler.go:20 | a three-digit status is written with its three digits |
| ErrorHandler.KeyFollowsStatus | backend/auth/internal/ports/httpd/error_handler.go:18-33 | for every kind but a service error, the message key is "errors." followed by the status |
| ErrorHandler.UnauthorizedReply | backend/auth/internal/ports/httpd/error_handler.go:18-21 | `ErrUnauthorized` is answered 401 with key "errors.401" |
| AuthAuthn.Ctx.constructor | backend/auth/internal/ports/httpd/authn/authn.go:13-30 | the request's header, cookie and locals, with `Next` not called |
| AuthAuthn.ChosenToken | backend/auth/internal/ports/httpd/authn/authn.go:15-22 | none exactly when header and cookie are both empty; else the non-empty header, or the cookie, with "Bearer " trimmed |
| AuthAuthn.Middleware | backend/auth/internal/ports/httpd/authn/authn.go:13-30 | no token or a failed verification is `ErrUnauthorized` with nothing stored and `Next` not called; otherwise the payload is stored under "auth_user" and `Next` is called |
| AuthAuthn.GetUserFromContext | backend/auth/internal/ports/httpd/authn/authn.go:32-42 | the stored payload exactly when "auth_user" holds one; otherwise the error |
| AuthAuthn.BareBearerHeader | backend/auth/internal/ports/httpd/authn/authn.go:15-22 | the header "Bearer " alone gives the empty token, not the cookie |
| AuthAuthn.BearerCookie | backend/auth/internal/ports/httpd/authn/authn.go:16-22 | "Bearer " is trimmed from a cookie too |
| AuthAuthn.RejectionAnsweredUnauthorized | backend/auth/internal/ports/httpd/authn/authn.go:19-26 | a rejection reaches the client as 401 with key "errors.401" |
| ProductAuthn.Ctx.constructor | backend/product/internal/ports/httpd/authn/authn.go:14-35 | the request's header, cookie and locals, with `Next` not called |
| ProductAuthn.ChosenToken | backend/product/internal/ports/httpd/authn/authn.go:16-25 | the header with "Bearer " trimmed; when that is empty, the raw cookie; none when both are empty |
| ProductAuthn.Middleware | backend/product/internal/ports/httpd/authn/authn.go:14-35 | no token or a failed verification is `ErrUnauthorized` with nothing stored; otherwise the payload under "auth_user" and `Next` called |
| ProductAuthn.GetUserFromContext | backend/product/internal/ports/httpd/authn/authn.go:37-47 | the stored payload exactly when "auth_user" holds one; otherwise the error |
| ProductAuthn.BareBearerHeader | backend/product/internal/ports/httpd/authn/authn.go:16-21 | the header "Bearer " alone falls back to the cookie |
| ProductAuthn.HeaderWithoutPrefix | backend/product/internal/ports/httpd/authn/authn.go:16-17 | a header without the prefix is the token as it is |
| ProductAuthn.ServicesDisagree | backend/product/internal/ports/httpd/authn/authn.go:16-21 | the two middlewares agree whenever the trimmed header is non-empty, and differ on a bare "Bearer " header and on a "Bearer " cookie |

## Left out

- NotificationRepository.Repository.FindTemplate: MongoDB's `FindOne` has no sort and may return any matching template; the model, and `FirstMatchSpec` with it, always picks the first match in insertion order, so it promises a choice the store does not.
- bcrypt: hashing and comparison are the `matches` relation and a `hashed` result; the cost factor is not modelled.
- `crypto/rand`, `uuid.New()` and `time.Now()` are inputs: a byte stream, a drawn number, an `IdSource` and a `now` per call. Go reads the clock several times within one call; the model uses one `now` per call. A byte stream that runs dry fails with an abstract `ShortReadError`; its text is not modelled, and since Go 1.24 `rand.Read` never fails at all.
- BusinessService.Select: the route's `businessID` is modelled as a `Uuid`, which assumes it arrives in the canonical lower-case text of `uuid.UUID.String()`. Go compares that text, so an upper-case, braced or `urn:uuid:` spelling of a business the initiator belongs to gets `BusinessNotFoundErr`; the model cannot represent such an input.
- JSON encoding and decoding, `text/template` parsing and execution, `mime.ExtensionsByType`, `url.Parse` with `fmt.Sprintf("http://%s:%d")`, and the embedded file system are function-valued inputs or maps. `path.Join` is modelled only for elements that are already clean; `path.Clean` is not modelled.
- JWT signing and verification are inputs. The token's 24-hour claim expiry is not modelled. The product JWT payload is a type parameter, because the product `jwtutil` is not part of this model.
- The struct-tag validation (`validation.Validate`) is an input, `shapeErrors`. The exception is the `Industry` field's `required,oneof=…` tag, which is modelled; business creation takes the other fields' errors as two inputs, those of the fields before `Industry` and those after it. The auth `validation` package is not part of this model, so the product `ValidatePassword` stands in for it. The `required` tag on the category page and limit would reject 0, so the defaults may be unreachable in practice. The model applies them as the service body does.
- The SQL text of the auth queries is not part of this model. The query results are the definitions stated at the top of this file.
- Database drivers, connection pools, and driver error values are left out. A failing call is named in `faults`, and a missing row from `FindUserById` is `InternalError`.
- Kafka has no partitions, consumer groups, redelivery or async writer. `OnManage*Event` start the consumer in a goroutine; the model runs the loop sequentially over a sequence of fetch outcomes. A commit's own failure is only logged, so it is not an input.
- The email and SMS providers are the `sendError` input. `notification.EmailData` is modelled by its recipients only.
- Logging, translation of message keys (`translation.Localize`), the JSON response body, cookies, and the result of the downstream `c.Next()` are left out.
- The broker's config file reading, its logging, and the reverse proxying itself are left out. A target that does not parse stops the broker; the model returns that error.
- `Profile` in auth_service.go is not modelled: it is a single lookup that builds a response. `uuid.MustParse` panics on a malformed initiator; the initiator is a `Uuid` in the model, so that panic is left out.
- Go's fixed-width integers do not wrap here: page numbers and offsets are unbounded integers. A negative page or limit reaches the query as it is, and the query function decides.
- Reset and change write outside any transaction. The model states the store after each partial write; the lookup results do not change between the calls, because no other request runs alongside.
- Auth's `InternalError` is `{GeneralErrorCode+1, "internal", ...}` (backend/auth/internal/core/service/errors.go:18). The error handler uses that code, 1001, as the HTTP status, and the model keeps it. The `ServiceError` struct in that file has the fields `Code/Short/Long`, while auth_service.go uses `HttpErrorCode/DevErrorCode`; the model follows auth_service.go.
- The notification repository's `CreateTemplate` assigns the inserted identifier, a `uuid.UUID`, to the string field `Template.ID`. As written this does not type-check, so the model returns the template as inserted.
- A failed text-template lookup in the email handler yields the zero template, whose body is empty. No alternative is then sent, and the error is not returned.
- Register emits no event. Its email-code insert error is overwritten by the next OTP call and never checked. PostgreSQL aborts a transaction after a failed statement, so the phone-code insert then fails and the registration is rolled back; the model states this rather than a commit without the email code. Other PostgreSQL error kinds are not distinguished. In `Create`, both events are written before the commit, so a failed commit leaves them written. The resend cooldown refuses a new code once the pending one is MORE than a minute old (auth_service.go:466). Each of these is kept as written.
- Login puts no business in the token (`businessId` is `None`), although `jwtutil.JwtPayload` in the visible source has no `BusinessID` field; `Select` sets it.
- An empty broker prefix normalises to "//", so its route matches only paths that start with two slashes (`Broker.SlashOnlyPrefixes`).
- The auth middleware trims "Bearer " from the cookie too; the product middleware uses the cookie raw. A bare "Bearer " header falls back to the cookie only in the product service. Both are stated in `ProductAuthn.ServicesDisagree`.
