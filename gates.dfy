/** The plays and notify routes each carry their own copy of the admin gate. */
module AdminGates {
  import opened Provider
  import Plays
  import Notify

  /** The two copies of `checkIsAdmin` classify every caller alike; this
      follows from the two functions' postconditions. */
  lemma GatesAgree(token: TokenOutcome, access: AccessOutcome)
    ensures Notify.CheckIsAdmin(token, access) == Plays.CheckIsAdmin(token, access).isAdmin
  {
  }
}
