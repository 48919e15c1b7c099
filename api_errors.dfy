/** The API's error values (core/internal/constants/errors.go) with the
    machine-readable codes of core/internal/constants/codes.go. */
module ApiErrors {

  datatype APIError = APIError(Code: string, Message: string, Status: int)

  const CodeInvalidRequest := "INVALID_REQUEST"
  const CodeInternalError := "INTERNAL_ERROR"
  const CodeForbidden := "FORBIDDEN"
  const CodeNotFound := "NOT_FOUND"
  const CodeOrderNotFound := "ORDER_NOT_FOUND"
  const CodeInvalidOrderCode := "INVALID_ORDER_CODE"
  const CodeInvalidCustomerCode := "INVALID_CUSTOMER_CODE"

  /** `WithMessage`: a copy with another message. The receiver is a value, so
      the error it is called on is not changed. */
  function WithMessage(e: APIError, message: string): (r: APIError)
    ensures r.Code == e.Code && r.Status == e.Status && r.Message == message
  {
    e.(Message := message)
  }

  /** Only the last message given counts, so giving the same one twice is the
      same as giving it once, and giving back the original message restores
      the original error. */
  lemma WithMessageLastWins(e: APIError, a: string, b: string)
    ensures WithMessage(WithMessage(e, a), b) == WithMessage(e, b)
    ensures WithMessage(WithMessage(e, a), a) == WithMessage(e, a)
    ensures WithMessage(e, e.Message) == e
  {
  }

  /** The predefined errors. */
  datatype Predefined =
    | ErrInvalidRequestBody | ErrInternalError | ErrNotFound
    | ErrOrderNotFound | ErrInvalidOrderCode | ErrInvalidCustomerCode
    | ErrFailedToCreateOrder | ErrFailedToGetOrder | ErrFailedToGetOrderTotal
    | ErrFailedToListOrders | ErrFailedToCountOrders

  /** The predefined error values. Their message texts are defined outside
      this model and are supplied as `messages`. */
  function ErrorValue(p: Predefined, messages: Predefined -> string): APIError {
    match p
    case ErrInvalidRequestBody => APIError(CodeInvalidRequest, messages(p), 400)
    case ErrInternalError => APIError(CodeInternalError, messages(p), 500)
    case ErrNotFound => APIError(CodeNotFound, messages(p), 404)
    case ErrOrderNotFound => APIError(CodeOrderNotFound, messages(p), 404)
    case ErrInvalidOrderCode => APIError(CodeInvalidOrderCode, messages(p), 400)
    case ErrInvalidCustomerCode => APIError(CodeInvalidCustomerCode, messages(p), 400)
    case ErrFailedToCreateOrder => APIError(CodeInternalError, messages(p), 500)
    case ErrFailedToGetOrder => APIError(CodeInternalError, messages(p), 500)
    case ErrFailedToGetOrderTotal => APIError(CodeInternalError, messages(p), 500)
    case ErrFailedToListOrders => APIError(CodeInternalError, messages(p), 500)
    case ErrFailedToCountOrders => APIError(CodeInternalError, messages(p), 500)
  }

  predicate IsNotFound(p: Predefined) {
    p == ErrNotFound || p == ErrOrderNotFound
  }

  predicate IsInvalidInput(p: Predefined) {
    p == ErrInvalidRequestBody || p == ErrInvalidOrderCode || p == ErrInvalidCustomerCode
  }

  /** Status by kind: not-found errors are 404, invalid-input errors 400,
      every other (a failure) 500, and exactly the failures carry
      INTERNAL_ERROR. The status is never 404 unless the code says not
      found. */
  lemma ErrorTableStatuses(p: Predefined, messages: Predefined -> string)
    ensures var e := ErrorValue(p, messages);
            && (IsNotFound(p) ==> e.Status == 404)
            && (IsInvalidInput(p) ==> e.Status == 400)
            && (!IsNotFound(p) && !IsInvalidInput(p) ==> e.Status == 500 && e.Code == CodeInternalError)
            && (e.Code == CodeInternalError <==> e.Status == 500)
            && (e.Status == 404 ==> e.Code in {CodeNotFound, CodeOrderNotFound})
            && e.Message == messages(p)
  {
  }
}
