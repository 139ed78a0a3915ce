/**
 * The back end's response helpers: the success, paginated and error
 * envelopes, the mapping of a thrown error to a status and message, and the
 * 405 answer. Each helper is a function from its arguments to the status and
 * JSON envelope it sends.
 */
module ApiUtils {
  import opened Wrappers

  /** A JSON-able value as far as JavaScript truthiness is concerned. */
  datatype Details =
    | Undefined
    | Null
    | Bool(b: bool)
    | Num(n: int)
    | NaN
    | Str(s: string)
    | Issues(issues: seq<string>)  // an array: truthy even when empty
    | Composite                    // any other object: always truthy

  /** JavaScript's `if (details)`. */
  predicate Truthy(d: Details) {
    match d
    case Undefined => false
    case Null => false
    case Bool(b) => b
    case Num(n) => n != 0
    case NaN => false
    case Str(s) => s != ""
    case Issues(_) => true
    case Composite => true
  }

  /** The JSON envelope a helper sends. */
  datatype Envelope<T> =
    | Success(data: T)
    | Paginated(items: seq<T>, total: nat, page: int, pageSize: int, totalPages: nat)
    | Failure(error: string, details: Option<Details>)

  datatype ApiResponse<T> = ApiResponse(status: int, envelope: Envelope<T>)

  /** `successResponse`: the data under `success: true`; status 200 unless another is given. */
  function SuccessResponse<T>(data: T, status: Option<int>): (r: ApiResponse<T>)
    ensures r.envelope == Success(data)
    ensures status.None? ==> r.status == 200
    ensures status.Some? ==> r.status == status.value
  {
    ApiResponse(status.GetOr(200), Success(data))
  }

  /** `Math.ceil(total / pageSize)` for a page size the pagination schema has admitted. */
  function TotalPages(total: nat, pageSize: int): (r: nat)
    requires pageSize >= 1
    ensures r == 0 <==> total == 0
    ensures (r - 1) * pageSize < total <= r * pageSize || total == r == 0
  {
    (total + pageSize - 1) / pageSize
  }

  /** Every item has its page: item `i` (from 0) is on page `i / pageSize + 1`, which is never past the last. */
  lemma {:induction false} EveryItemHasAPage(total: nat, pageSize: int, i: nat)
    requires pageSize >= 1 && i < total
    ensures 1 <= i / pageSize + 1 <= TotalPages(total, pageSize)
  {
  }

  /** The last page is never empty: it holds an item. */
  lemma {:induction false} LastPageHoldsAnItem(total: nat, pageSize: int)
    requires pageSize >= 1 && total > 0
    ensures (TotalPages(total, pageSize) - 1) * pageSize < total
  {
  }

  /** `paginatedResponse`: status 200 with the items, the request echoed and the page count. */
  function PaginatedResponse<T>(items: seq<T>, total: nat, page: int, pageSize: int): (r: ApiResponse<T>)
    requires pageSize >= 1
    ensures r.status == 200
    ensures r.envelope.Paginated? && r.envelope.items == items && r.envelope.total == total
    ensures r.envelope.Paginated? && r.envelope.page == page && r.envelope.pageSize == pageSize
    ensures r.envelope.Paginated? && (r.envelope.totalPages == 0 <==> total == 0)
  {
    ApiResponse(200, Paginated(items, total, page, pageSize, TotalPages(total, pageSize)))
  }

  /** `errorResponse`: status 500 unless given; the details key only for truthy details. */
  function ErrorResponse<T>(error: string, status: Option<int>, details: Details): (r: ApiResponse<T>)
    ensures r.envelope.Failure? && r.envelope.error == error
    ensures r.status == if status.Some? then status.value else 500
    ensures r.envelope.Failure? && (r.envelope.details.Some? <==> Truthy(details))
    ensures r.envelope.Failure? && r.envelope.details.Some? ==> r.envelope.details.value == details
  {
    ApiResponse(status.GetOr(500), Failure(error, if Truthy(details) then Some(details) else None))
  }

  /** What a route handler can throw. */
  datatype Thrown =
    | ValidationFailure(issues: seq<string>)  // a ZodError
    | ErrorInstance(message: string)          // an Error
    | OtherValue                              // anything else thrown

  const GenericMessage := "An error occurred"

  /** `handleApiError`; `development` is whether NODE_ENV is "development". */
  function HandleApiError<T>(error: Thrown, development: bool): (r: ApiResponse<T>)
    ensures r.status == 400 <==> error.ValidationFailure?
    ensures r.status == 400 || r.status == 500
    ensures error.ValidationFailure? ==> r.envelope == Failure("Validation error", Some(Issues(error.issues)))
    ensures error.ErrorInstance? && development ==> r.envelope == Failure(error.message, None)
    ensures !error.ValidationFailure? && !(error.ErrorInstance? && development) ==>
      r.envelope == Failure(GenericMessage, None)
  {
    match error
    case ValidationFailure(issues) => ErrorResponse("Validation error", Some(400), Issues(issues))
    case ErrorInstance(message) => ErrorResponse(if development then message else GenericMessage, Some(500), Undefined)
    case OtherValue => ErrorResponse(GenericMessage, Some(500), Undefined)
  }

  /** Outside development no internal message leaves the server: a 500 always says the generic text. */
  lemma {:induction false} ProductionHidesMessages<T>(error: Thrown)
    ensures var r: ApiResponse<T> := HandleApiError(error, false);
      r.status == 500 ==> r.envelope == Failure(GenericMessage, None)
  {
  }

  /** A validation failure reports its issues even when there are none. */
  lemma {:induction false} EmptyIssuesStillReported<T>()
    ensures var r: ApiResponse<T> := HandleApiError(ValidationFailure([]), false);
      r.envelope.Failure? && r.envelope.details == Some(Issues([]))
  {
  }

  /** `methodNotAllowedResponse`. */
  function MethodNotAllowed<T>(): (r: ApiResponse<T>)
    ensures r.status == 405 && r.envelope == Failure("Method not allowed", None)
  {
    ErrorResponse("Method not allowed", Some(405), Undefined)
  }
}
