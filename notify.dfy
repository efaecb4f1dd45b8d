/** The notify endpoint: an admin-only POST that builds a push-notification
    payload from the request body and hands it to the delivery provider. */
module Notify {
  import opened Provider

  const TITLE_PREFIX: string := "🔥 New Straight Bet — "
  const SUBTITLE: string := "FlareGotLocks just dropped a play"
  const CONTENT_SUFFIX: string := ") — Check it now!"
  const DISPATCH_ERROR: string := "Failed to send notification"

  /** The fields of the POST body; a targeting id is `None` when missing or `null`. */
  datatype NotifyInput = NotifyInput(
    team: string,
    odds: string,
    sport: string,
    experienceId: Option<string>,
    companyId: Option<string>)

  /** The `notificationParams` record; an absent key is `None`. */
  datatype Payload = Payload(
    title: string,
    subtitle: string,
    content: string,
    experienceId: Option<string>,
    companyId: Option<string>)

  /** What `notifications.create` does: it returns a result, or it throws an
      error whose `message` may be missing. */
  datatype DispatchOutcome = Delivered(result: string) | DispatchThrew(message: Option<string>)

  datatype Response =
    | Forbidden                                       // 403 {error: "Admin access required"}
    | Sent(result: string)                            // 200 {success: true, result}
    | DispatchFailure(error: string, details: Option<string>)  // 500 {error, details}
  {
    function Status(): int {
      match this
      case Forbidden => 403
      case Sent(_) => 200
      case DispatchFailure(_, _) => 500
    }
  }

  /** A handled request: the response and the payload handed to the
      provider, if any. */
  datatype Outcome = Outcome(response: Response, dispatched: Option<Payload>)

  /** `checkIsAdmin`: true only for a resolved user whose access level is
      exactly "admin"; any provider error gives false. */
  function CheckIsAdmin(token: TokenOutcome, access: AccessOutcome): (r: bool)
    ensures r <==> ResolvedUser(token).Some? && access == AccessLevel(ADMIN_LEVEL)
    ensures token.TokenThrew? || access.AccessThrew? ==> !r
  {
    match ResolvedUser(token)
    case None => false
    case Some(_) =>
      match access
      case AccessThrew => false
      case AccessLevel(level) => level == ADMIN_LEVEL
  }

  /** The notification content built from the body, with at most one
      targeting key: `experience_id` in preference to `company_id`. */
  function BuildPayload(body: NotifyInput): (p: Payload)
    ensures |p.title| >= |TITLE_PREFIX| && p.title[..|TITLE_PREFIX|] == TITLE_PREFIX
    ensures p.title[|TITLE_PREFIX|..] == body.sport
    ensures p.subtitle == SUBTITLE
    ensures p.content == body.team + " (" + body.odds + CONTENT_SUFFIX
    ensures !(p.experienceId.Some? && p.companyId.Some?)
    ensures Truthy(body.experienceId) ==> p.experienceId == body.experienceId && p.companyId == None
    ensures !Truthy(body.experienceId) && Truthy(body.companyId)
      ==> p.companyId == body.companyId && p.experienceId == None
    ensures !Truthy(body.experienceId) && !Truthy(body.companyId)
      ==> p.experienceId == None && p.companyId == None
  {
    var base := Payload(
      title := TITLE_PREFIX + body.sport,
      subtitle := SUBTITLE,
      content := body.team + " (" + body.odds + CONTENT_SUFFIX,
      experienceId := None,
      companyId := None);
    if Truthy(body.experienceId) then base.(experienceId := body.experienceId)
    else if Truthy(body.companyId) then base.(companyId := body.companyId)
    else base
  }

  /** POST /api/notify. `delivery` is the provider's answer to the payload. */
  function Post(token: TokenOutcome, access: AccessOutcome, body: NotifyInput,
                delivery: DispatchOutcome): (o: Outcome)
    ensures !CheckIsAdmin(token, access) ==> o == Outcome(Forbidden, None)
    ensures CheckIsAdmin(token, access) ==> o.dispatched == Some(BuildPayload(body))
    ensures CheckIsAdmin(token, access) && delivery.Delivered?
      ==> o.response == Sent(delivery.result) && o.response.Status() == 200
    ensures CheckIsAdmin(token, access) && delivery.DispatchThrew?
      ==> o.response == DispatchFailure(DISPATCH_ERROR, delivery.message)
          && o.response.Status() == 500
  {
    if !CheckIsAdmin(token, access) then
      Outcome(Forbidden, None)
    else
      var payload := BuildPayload(body);
      match delivery
      case Delivered(result) => Outcome(Sent(result), Some(payload))
      case DispatchThrew(message) => Outcome(DispatchFailure(DISPATCH_ERROR, message), Some(payload))
  }
}
