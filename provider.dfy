/** The answers of the identity and access provider (the Whop SDK), taken as
    given values instead of network calls, and the JavaScript truthiness rules
    the route handlers apply to them. */
module Provider {

  datatype Option<+T> = None | Some(value: T)

  /** What `verifyUserToken(request.headers)` does: it throws, or it yields a
      user id that may be missing (`undefined`/`null`). */
  datatype TokenOutcome = TokenThrew | TokenVerified(userId: Option<string>)

  /** What `users.checkAccess(COMPANY_ID, {id})` does: it throws, or it yields
      an `access_level` string. */
  datatype AccessOutcome = AccessThrew | AccessLevel(level: string)

  /** What one `access.checkIfUserHasAccessToAccessPass` call does: it throws,
      or it yields `hasAccess`. */
  datatype PassOutcome = PassThrew | PassChecked(hasAccess: bool)

  const ADMIN_LEVEL: string := "admin"

  /** JavaScript truthiness of an optional string: a missing value and the
      empty string are both falsy. */
  predicate Truthy(s: Option<string>) {
    s.Some? && s.value != ""
  }

  /** The user id a request resolves to: present only when the token was
      verified and `userId` is truthy (the `if (!userId)` guards). */
  function ResolvedUser(token: TokenOutcome): Option<string> {
    if token.TokenVerified? && Truthy(token.userId) then token.userId else None
  }
}
