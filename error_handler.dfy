/** The auth service's HTTP error handler: the dynamic type of the error a
    route returns decides the status and the translation key of the reply.
    The translation of the key into the caller's language and the logging
    are left out. */
module ErrorHandler {
  import opened Common
  import Decimal
  import AuthService
  import Validation

  /** The dynamic types the handler tells apart; `Other` is every other error. */
  datatype Error =
    | Fiber(fiber: FiberError)
    | Service(service: AuthService.ServiceError)
    | ValidationErrors(errors: seq<Validation.ValidationError>)
    | Other(message: string)

  /** The reply: its status, the key its message is translated from, and the
      error it carries (`NewResponse(message, nil, err)`). */
  datatype Reply = Reply(status: int, messageKey: string, error: Error)

  const UnprocessableEntity: int := 422
  const InternalServerError: int := 500
  const ValidationKey: string := "errors.422"
  const InternalKey: string := "errors.500"

  /** The key `fmt.Sprintf("errors.%d", code)` a status is translated from. */
  function StatusKey(code: int): string {
    "errors." + Decimal.IntString(code)
  }

  /** `ErrorHandler`: a fiber error keeps its own status, a service error its
      HTTP code and short message, validation errors are 422 and anything
      else is 500. The reply always carries the error it was given. */
  function HandleError(err: Error): (r: Reply)
    ensures r.error == err
    ensures err.Fiber? ==> r.status == err.fiber.code && r.messageKey == StatusKey(err.fiber.code)
    ensures err.Service? ==> r.status == err.service.httpErrorCode && r.messageKey == err.service.short
    ensures err.ValidationErrors? ==> r.status == 422 && r.messageKey == ValidationKey
    ensures err.Other? ==> r.status == 500 && r.messageKey == InternalKey
  {
    match err
    case Fiber(e) => Reply(e.code, StatusKey(e.code), err)
    case Service(e) => Reply(e.httpErrorCode, e.short, err)
    case ValidationErrors(_) => Reply(UnprocessableEntity, ValidationKey, err)
    case Other(_) => Reply(InternalServerError, InternalKey, err)
  }

  lemma ItoaOfThreeDigits(n: nat)
    requires 100 <= n < 1000
    ensures Decimal.Itoa(n) == [Decimal.DigitChar(n / 100), Decimal.DigitChar(n / 10 % 10), Decimal.DigitChar(n % 10)]
  {
    assert Decimal.Itoa(n / 100) == [Decimal.DigitChar(n / 100)];
    assert Decimal.Itoa(n / 10) == [Decimal.DigitChar(n / 100), Decimal.DigitChar(n / 10 % 10)] by {
      assert n / 10 / 10 == n / 100;
    }
  }

  /** Whatever the error, unless it is a service error, its key is the one
      `errors.<status>` names: the two fixed keys agree with the status they
      are sent with. */
  lemma KeyFollowsStatus(err: Error)
    requires !err.Service?
    ensures HandleError(err).messageKey == StatusKey(HandleError(err).status)
  {
    if err.ValidationErrors? {
      ItoaOfThreeDigits(422);
      assert Decimal.IntString(422) == "422";
    } else if err.Other? {
      ItoaOfThreeDigits(500);
      assert Decimal.IntString(500) == "500";
    }
  }

  /** A request the authentication middleware turns away is answered 401 with
      the key "errors.401". */
  lemma UnauthorizedReply()
    ensures HandleError(Fiber(ErrUnauthorized)).status == 401
    ensures HandleError(Fiber(ErrUnauthorized)).messageKey == "errors.401"
  {
    ItoaOfThreeDigits(401);
    assert Decimal.IntString(401) == "401";
  }
}
