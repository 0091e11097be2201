/** The verdict type the transports share. */
module Directory {

  datatype Subject = Subject(directoryId: string, username: string)

  datatype GroupFact = GroupFact(id: string, dn: string, display: string, source: string, depth: int)

  /** The sentinel errors a directory client can return; `Other` is any error that wraps none of them. */
  datatype Error =
    | InvalidCredentials | UserNotFound | AmbiguousUser
    | DirectoryTLS | DirectoryUnavailable | DirectoryReferral
    | AccountDisabled | AccountLocked | PasswordExpired | MustChangePassword
    | Other

  const SUCCESS := "success"
  const FAILURE := "failure"
  const POLICY_REQUIRED := "policy_required"
  const SOURCE_UNAVAILABLE := "source_unavailable"

  const INVALID_CREDENTIALS := "invalid_credentials"
  const DIRECTORY_UNAVAILABLE := "directory_unavailable"

  datatype Result = Result(
    result: string,
    success: bool,
    reason: string,
    subject: Subject,
    attributes: map<string, seq<string>>,
    groupFacts: seq<GroupFact>)
  {
    function Credential(): string {
      if result != "" then result else if success then SUCCESS else FAILURE
    }

    function SafeReason(): string {
      if reason != "" then reason
      else if Credential() == FAILURE then INVALID_CREDENTIALS
      else if Credential() == SOURCE_UNAVAILABLE then DIRECTORY_UNAVAILABLE
      else Credential()
    }
  }

  const NOBODY := Subject("", "")

  function Successful(subject: Subject, attributes: map<string, seq<string>>, facts: seq<GroupFact>): Result {
    Result(SUCCESS, true, "", subject, attributes, facts)
  }

  function Failed(reason: string): Result {
    Result(FAILURE, false, if reason == "" then INVALID_CREDENTIALS else reason, NOBODY, map[], [])
  }

  function PolicyRequired(reason: string): Result {
    Result(POLICY_REQUIRED, false, reason, NOBODY, map[], [])
  }

  /** What a directory call returns: an error or a result. */
  datatype Outcome = Failure(error: Error) | Returned(result: Result) {

    /** The breaker counts these; everything else is a verdict and clears it. */
    predicate IsFault() {
      Failure? || result.Credential() == SOURCE_UNAVAILABLE
    }
  }

  function ErrorCode(e: Error): string {
    match e
    case DirectoryTLS => "directory_tls_error"
    case DirectoryUnavailable => "directory_unavailable"
    case DirectoryReferral => "directory_referral"
    case _ => "directory_error"
  }
}

module Audit {

  datatype EventType = VerifySuccess | VerifyFailure | VerifyError | HmacFailure | ReplayDetected {
    function Name(): string {
      match this
      case VerifySuccess => "directory_password.verify.success"
      case VerifyFailure => "directory_password.verify.failure"
      case VerifyError => "directory_password.verify.error"
      case HmacFailure => "directory_password.hmac.failure"
      case ReplayDetected => "directory_password.replay.detected"
    }
  }

  /** The names by which audit events are known, one for each type. */
  lemma EventNames(a: EventType, b: EventType)
    ensures a.Name() == b.Name() <==> a == b
    ensures VerifySuccess.Name() == "directory_password.verify.success" && VerifyFailure.Name() == "directory_password.verify.failure"
    ensures VerifyError.Name() == "directory_password.verify.error" && HmacFailure.Name() == "directory_password.hmac.failure"
    ensures ReplayDetected.Name() == "directory_password.replay.detected"
  {
    var names := ["directory_password.verify.success", "directory_password.verify.failure", "directory_password.verify.error",
                  "directory_password.hmac.failure", "directory_password.replay.detected"];
    assert |names[0]| == 33 && |names[1]| == 33 && |names[2]| == 31 && |names[3]| == 31 && |names[4]| == 34;
    assert names[0][26] == 's' && names[1][26] == 'f' && names[2][19] == 'v' && names[3][19] == 'h';
  }

  datatype Event = Event(
    eventType: EventType,
    tenantId: string,
    connectorId: string,
    result: string,
    reason: string,
    errorCode: string,
    retryable: bool)
}
