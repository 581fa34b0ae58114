/** worker/src/credential.ts: how long a person's Gateway leg is good for. Times are milliseconds. */
module Credential {
  import opened Wrappers

  const MINUTE := 60_000
  const QUEUE_MINIMUM := 60 * MINUTE
  const CLAIM_MINIMUM := 15 * MINUTE
  const GATEWAY_MARGIN := 10 * MINUTE

  datatype TaskKind = Process | Review | Sync

  datatype Eligibility = NotRequired | Missing | QueueEligible | ClaimEligible | RelayOnly | Expired

  function CredentialEligibility(kind: TaskKind, token: Option<string>, expires: Option<int>, now: int): Eligibility {
    if kind == Sync then NotRequired
    else if token == None || token == Some("") || expires == None then Missing
    else
      var remaining := expires.value - now;
      if remaining >= QUEUE_MINIMUM then QueueEligible
      else if remaining >= CLAIM_MINIMUM then ClaimEligible
      else if remaining > GATEWAY_MARGIN then RelayOnly
      else Expired
  }

  predicate MayClaim(e: Eligibility) {
    e in {QueueEligible, ClaimEligible}
  }

  predicate MayRelay(e: Eligibility) {
    e in {QueueEligible, ClaimEligible, RelayOnly}
  }
}
