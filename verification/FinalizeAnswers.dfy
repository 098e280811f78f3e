/** How an enrollment result becomes the answer of a finalize request.

    An absent error, message or detail is the empty string: the code only ever asks
    whether such a value is truthy. */
module FinalizeAnswers {

  const SERVER_INTERNAL := "urn:ietf:params:acme:error:serverInternal"
  const REJECTED_IDENTIFIER := "urn:ietf:params:acme:error:rejectedIdentifier"
  const UNAUTHORIZED := "urn:ietf:params:acme:error:unauthorized"
  const BAD_CSR := "urn:ietf:params:acme:error:badCSR"
  const ORDER_NOT_READY := "urn:ietf:params:acme:error:orderNotReady"
  const NAMES_NOT_ALLOWED := "Either CN or SANs are not allowed by configuration"
  const ENROLLMENT_FAILED := "enrollment failed"
  const DRYRUN_SKIPPED := "Dry run mode - enrollment and certificate issuance skipped"
  const TIMEOUT := "timeout"
  const TIMED_OUT_DETAIL := "Enrollment process timed out"
  const ASYNC_DETAIL := "asynchronous enrollment started"
  const UNEXPECTED_FORMAT := "Unexpected enrollment result format"
  const ACCOUNT_DENIED := "Unauthorized"
  const NOT_FOUND_DETAIL := "order not found"
  const NOT_READY_DETAIL := "Order is not ready"
  const CSR_MISSING := "csr is missing in payload"
  const CSR_REFUSED := "CSR processing failed"
  const CSR_MISMATCH := "CSR validation failed"

  /** What a finalize request answers: status code, problem type and detail. */
  datatype Answer = Answer(code: nat, message: string, detail: string)

  /** The error and detail that a failed enrollment hands to the waiting request. */
  function ClientError(forwardDetails: bool, error: string, pollId: string): (r: (string, string))
    ensures r.1 != ""
    // what the CA said is handed on only with an identifier to poll with, or where it is configured
    ensures pollId == "" && !forwardDetails ==>
              r.1 == "enrollment failed" || r.1 == "CN or SANs are not allowed by configuration"
  {
    if pollId != "" then (error, pollId)
    else if error == NAMES_NOT_ALLOWED then (REJECTED_IDENTIFIER, "CN or SANs are not allowed by configuration")
    else if forwardDetails && error != "" then (SERVER_INTERNAL, error)
    else (SERVER_INTERNAL, ENROLLMENT_FAILED)
  }

  /** Code for an enrollment result, before the finalize request looks at it. */
  function EnrollmentCode(error: string, detail: string): nat {
    if error == REJECTED_IDENTIFIER || detail == DRYRUN_SKIPPED then 401
    else if error == "" then 200
    else if error == SERVER_INTERNAL then 500
    else 400
  }

  /** The answer of the finalize request to an enrollment result. */
  function AnswerTo(error: string, detail: string): Answer {
    var code := EnrollmentCode(error, detail);
    if code == 200 then Answer(200, "", detail)
    else if error == TIMEOUT then Answer(200, TIMEOUT, detail)
    else if error == REJECTED_IDENTIFIER then Answer(401, REJECTED_IDENTIFIER, detail)
    else if detail == DRYRUN_SKIPPED then Answer(code, UNAUTHORIZED, detail)
    else Answer(code, error, if detail == "" then ENROLLMENT_FAILED else detail)
  }

  /** The order is written `valid` by the request itself exactly on this answer. */
  predicate WritesValid(error: string, detail: string) {
    EnrollmentCode(error, detail) == 200 && detail == ""
  }

  /** Why a finalize request is answered as it is. */
  datatype Reply =
    | NotFound
    | NotOwner
    | NotReady
    | AlreadyValid
    | CsrMissing
    | CsrRefused
    | CsrMismatch
    | DryRunOnly
    | Started
    | TimedOut
    | Result(error: string, detail: string)

  function AnswerOf(r: Reply): Answer {
    match r
    case NotFound => Answer(403, ORDER_NOT_READY, NOT_FOUND_DETAIL)
    case NotOwner => Answer(403, UNAUTHORIZED, ACCOUNT_DENIED)
    case NotReady => Answer(403, ORDER_NOT_READY, NOT_READY_DETAIL)
    case AlreadyValid => Answer(200, "", "")
    case CsrMissing => Answer(400, BAD_CSR, CSR_MISSING)
    case CsrRefused => Answer(500, SERVER_INTERNAL, CSR_REFUSED)
    case CsrMismatch => Answer(400, BAD_CSR, CSR_MISMATCH)
    case DryRunOnly => Answer(401, UNAUTHORIZED, DRYRUN_SKIPPED)
    case Started => AnswerTo("", ASYNC_DETAIL)
    case TimedOut => AnswerTo(TIMEOUT, TIMED_OUT_DETAIL)
    case Result(error, detail) => AnswerTo(error, detail)
  }
}
