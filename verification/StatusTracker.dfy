// src/status/tracker.ts: the statuses and the error-code table.
module StatusTracker {
  import opened Wrappers

  datatype Status = REGISTERED | PENDING | DECLINED | QUEUED | ACCEPTED | SENT | DELIVERED | ERROR

  datatype ErrorCategory =
    | Validation | RateLimit | Blacklist | Server | SendFailed | StatusUnresolved | SmsLimit | Unknown

  function ClassifyErrorCode(code: Option<string>): ErrorCategory {
    match code
    case None => Unknown
    case Some(c) =>
      if c == "4000" then Validation
      else if c == "4001" || c == "5003" || c == "5509" then RateLimit
      else if c == "4002" then Blacklist
      else if c == "5000" then Server
      else if c == "10001" then SendFailed
      else if c == "10002" then StatusUnresolved
      else if c == "SMS_LIMIT_REACHED" then SmsLimit
      else Unknown
  }

  // The documented codes of each category; every other code is unknown.
  function CodesOf(category: ErrorCategory): set<string> {
    match category
    case Validation => {"4000"}
    case RateLimit => {"4001", "5003", "5509"}
    case Blacklist => {"4002"}
    case Server => {"5000"}
    case SendFailed => {"10001"}
    case StatusUnresolved => {"10002"}
    case SmsLimit => {"SMS_LIMIT_REACHED"}
    case Unknown => {}
  }

  const DOCUMENTED := {"4000", "4001", "4002", "5000", "5003", "5509", "10001", "10002", "SMS_LIMIT_REACHED"}

  lemma CategoryExactlyWhen(code: Option<string>, category: ErrorCategory)
    ensures category != Unknown ==> (ClassifyErrorCode(code) == category <==> code.Some? && code.value in CodesOf(category))
    ensures ClassifyErrorCode(code) == Unknown <==> code.None? || code.value !in DOCUMENTED
  {
    CodesDiffer();
  }

  // No two codes are the same text.
  lemma CodesDiffer()
    ensures "4000" !in {"4001", "4002", "5000", "5003", "5509", "10001", "10002", "SMS_LIMIT_REACHED"}
    ensures "4001" !in {"4002", "5000", "5003", "5509", "10001", "10002", "SMS_LIMIT_REACHED"}
    ensures "4002" !in {"5000", "5003", "5509", "10001", "10002", "SMS_LIMIT_REACHED"}
    ensures "5000" !in {"5003", "5509", "10001", "10002", "SMS_LIMIT_REACHED"}
    ensures "5003" !in {"5509", "10001", "10002", "SMS_LIMIT_REACHED"}
    ensures "5509" !in {"10001", "10002", "SMS_LIMIT_REACHED"}
    ensures "10001" !in {"10002", "SMS_LIMIT_REACHED"} && "10002" != "SMS_LIMIT_REACHED"
  {
    assert "4000"[3] == '0' && "4001"[3] == '1' && "4002"[3] == '2' && "4000"[0] == "4001"[0] == "4002"[0] == '4';
    assert "5000"[3] == '0' && "5003"[3] == '3' && "5509"[1] == '5' && "5000"[1] == "5003"[1] == '0' && "5000"[0] == '5';
    assert "10001"[4] == '1' && "10002"[4] == '2' && |"10001"| == |"10002"| == 5 && |"SMS_LIMIT_REACHED"| == 17;
  }
}
