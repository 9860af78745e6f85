// src/limits/tracker.ts: how a failed send is routed to retry, stall or abort.
module ErrorClass {
  import opened Wrappers
  import opened StatusTracker

  datatype Classification = Transient | SmsLimited | Permanent

  // What a send may throw: anything but a Sendblue error, or a Sendblue error
  // with its HTTP status (0 when no response arrived) and documented code.
  datatype SendError = NetworkError | ApiError(httpStatus: int, errorCode: Option<string>)

  function ClassifyStatusErrorCode(code: Option<string>): Classification {
    match ClassifyErrorCode(code)
    case SmsLimit => SmsLimited
    case RateLimit => Transient
    case Server => Transient
    case StatusUnresolved => Transient
    case _ => Permanent
  }

  function ClassifyError(error: SendError): Classification {
    match error
    case NetworkError => Transient
    case ApiError(httpStatus, code) =>
      var fromCode := ClassifyStatusErrorCode(code);
      if fromCode != Permanent then fromCode
      else if httpStatus == 0 || httpStatus == 429 || 500 <= httpStatus < 600 then Transient
      else Permanent
  }

  const RETRIED := {"4001", "5003", "5509", "5000", "10002"}

  // Which codes are retried, which one stalls the line, and which are final.
  lemma CodeClassExactlyWhen(code: Option<string>)
    ensures ClassifyStatusErrorCode(code) == Transient <==> code.Some? && code.value in RETRIED
    ensures ClassifyStatusErrorCode(code) == SmsLimited <==> code.Some? && code.value == "SMS_LIMIT_REACHED"
    ensures ClassifyStatusErrorCode(code) == Permanent <==>
              code.None? || (code.value !in RETRIED && code.value != "SMS_LIMIT_REACHED")
  {
    hide ClassifyErrorCode;
    CodesDiffer();
    CategoryExactlyWhen(code, RateLimit);
    CategoryExactlyWhen(code, Server);
    CategoryExactlyWhen(code, StatusUnresolved);
    CategoryExactlyWhen(code, SmsLimit);
  }

  // A failed send is judged by its code; where that decides nothing, by whether
  // Sendblue answered at all, asked to slow down or failed itself.
  lemma ErrorClassExactlyWhen(error: SendError)
    ensures ClassifyError(error) == SmsLimited <==> error.ApiError? && error.errorCode.Some? && error.errorCode.value == "SMS_LIMIT_REACHED"
    ensures ClassifyError(error) == Transient <==>
              || error.NetworkError?
              || (error.errorCode.Some? && error.errorCode.value in RETRIED)
              || ((error.errorCode.None? || error.errorCode.value != "SMS_LIMIT_REACHED")
                  && (error.httpStatus == 0 || error.httpStatus == 429 || 500 <= error.httpStatus <= 599))
  {
    hide ClassifyStatusErrorCode;
    CodesDiffer();
    if error.ApiError? { CodeClassExactlyWhen(error.errorCode); }
  }
}
