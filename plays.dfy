/** The plays endpoint: an in-memory, most-recent-first list of betting plays,
    listed in full to premium and admin callers and redacted for everyone
    else, created and updated by admins only. */
module Plays {
  import opened Provider

  /** A betting recommendation as stored and returned by the endpoint.
      `units` is a JavaScript number; `createdAt` is a millisecond clock reading. */
  datatype Play = Play(
    id: string,
    team: string,
    betType: string,
    odds: string,
    matchup: string,
    time: string,
    sport: string,
    result: string,
    postedAt: string,
    units: real,
    createdAt: nat)

  const PENDING: string := "pending"
  const LOCKED_TEAM: string := "🔒 Locked"
  const LOCKED_ODDS: string := "🔒"
  const LOCKED_MATCHUP: string := "🔒 Upgrade to view"
  const ID_PREFIX: string := "play_"
  const ET_SUFFIX: string := " ET"

  /** The JSON responses of the three handlers. */
  datatype Response =
    | Unauthorized                              // 401 {error: "Unauthorized"}
    | Forbidden                                 // 403 {error: "Admin access required"}
    | NotFound                                  // 404 {error: "Play not found"}
    | PlayList(plays: seq<Play>, isAdmin: bool) // 200 {plays, isAdmin}
    | PlaySaved(play: Play)                     // 200 {play, success: true}
  {
    function Status(): int {
      match this
      case Unauthorized => 401
      case Forbidden => 403
      case NotFound => 404
      case _ => 200
    }

    function Error(): Option<string> {
      match this
      case Unauthorized => Some("Unauthorized")
      case Forbidden => Some("Admin access required")
      case NotFound => Some("Play not found")
      case _ => None
    }
  }

  // ---------------------------------------------------------------------------
  // Caller classification

  datatype AdminCheck = AdminCheck(isAdmin: bool, userId: Option<string>)

  /** `checkIsAdmin`: admin only for a resolved user whose access level is
      exactly "admin"; a throwing provider gives `{isAdmin: false, userId: null}`. */
  function CheckIsAdmin(token: TokenOutcome, access: AccessOutcome): (r: AdminCheck)
    ensures r.isAdmin <==> ResolvedUser(token).Some? && access == AccessLevel(ADMIN_LEVEL)
    ensures r.isAdmin ==> r.userId.Some?
    ensures r.userId.Some? <==> ResolvedUser(token).Some? && access.AccessLevel?
    ensures r.userId.Some? ==> r.userId == ResolvedUser(token)
    ensures token.TokenThrew? || access.AccessThrew? ==> r == AdminCheck(false, None)
  {
    match ResolvedUser(token)
    case None => AdminCheck(false, None)
    case Some(u) =>
      match access
      case AccessThrew => AdminCheck(false, None)
      case AccessLevel(level) => AdminCheck(level == ADMIN_LEVEL, Some(u))
  }

  datatype PremiumUser = PremiumUser(userId: string, hasPremiumAccess: bool)

  predicate Grants(o: PassOutcome) {
    o == PassChecked(true)
  }

  /** Some premium tier grants access. */
  predicate AnyGrant(answers: seq<PassOutcome>) {
    exists i :: 0 <= i < |answers| && Grants(answers[i])
  }

  /** The position of the first granting tier, or |answers| when none does. */
  function FirstGrant(answers: seq<PassOutcome>): (k: nat)
    ensures k <= |answers|
    ensures k < |answers| ==> Grants(answers[k])
    ensures forall j :: 0 <= j < k ==> !Grants(answers[j])
  {
    if answers == [] then 0
    else if Grants(answers[0]) then 0
    else 1 + FirstGrant(answers[1..])
  }

  lemma FirstGrantIffAnyGrant(answers: seq<PassOutcome>)
    ensures FirstGrant(answers) < |answers| <==> AnyGrant(answers)
  {
  }

  /** `checkPremiumAccess`. `answers[i]` is what the provider says for the
      i-th entry of PREMIUM_TIERS; `asked` is how many of them were queried. */
  method CheckPremiumAccess(token: TokenOutcome, answers: seq<PassOutcome>)
    returns (user: Option<PremiumUser>, asked: nat)
    ensures user.None? <==> ResolvedUser(token).None?
    ensures user.None? ==> asked == 0
    ensures user.Some? ==> user.value.userId == ResolvedUser(token).value
    ensures user.Some? ==> (user.value.hasPremiumAccess <==> AnyGrant(answers))
    ensures user.Some? ==> asked == if AnyGrant(answers) then FirstGrant(answers) + 1 else |answers|
    ensures user.Some? ==> asked <= |answers| && (user.value.hasPremiumAccess <==> AnyGrant(answers[..asked]))
  {
    FirstGrantIffAnyGrant(answers);
    var resolved := ResolvedUser(token);
    if resolved.None? {
      return None, 0;
    }
    var hasPremiumAccess := false;
    asked := 0;
    while asked < |answers|
      invariant asked <= |answers|
      invariant !hasPremiumAccess
      invariant forall j :: 0 <= j < asked ==> !Grants(answers[j])
    {
      var answer := answers[asked];  // a throwing tier counts as no access
      asked := asked + 1;
      if Grants(answer) {
        hasPremiumAccess := true;
        break;
      }
    }
    if hasPremiumAccess {
      assert answers[..asked][asked - 1] == answers[asked - 1];
    } else {
      assert answers[..asked] == answers;
    }
    user := Some(PremiumUser(resolved.value, hasPremiumAccess));
  }

  // ---------------------------------------------------------------------------
  // The redacted view

  /** One play as a non-privileged caller sees it. */
  function Masked(p: Play): Play {
    p.(team := LOCKED_TEAM, odds := LOCKED_ODDS, matchup := LOCKED_MATCHUP, units := 0.0)
  }

  /** `q` is `p` with the sensitive fields replaced by their sentinels and
      every other field copied. */
  predicate RedactionOf(q: Play, p: Play) {
    && q.id == p.id && q.sport == p.sport && q.postedAt == p.postedAt
    && q.result == p.result && q.betType == p.betType && q.time == p.time
    && q.createdAt == p.createdAt
    && q.team == LOCKED_TEAM && q.odds == LOCKED_ODDS
    && q.matchup == LOCKED_MATCHUP && q.units == 0.0
  }

  /** `plays.filter(p => p.result === "pending")`. */
  function PendingOnly(s: seq<Play>): (r: seq<Play>)
    ensures |r| <= |s|
    ensures forall k :: 0 <= k < |r| ==> r[k].result == PENDING
  {
    if s == [] then []
    else PendingOnly(s[..|s| - 1]) + (if s[|s| - 1].result == PENDING then [s[|s| - 1]] else [])
  }

  /** `.map(p => ({...masked...}))`. */
  function MaskAll(s: seq<Play>): seq<Play> {
    seq(|s|, k requires 0 <= k < |s| => Masked(s[k]))
  }

  /** The list a basic caller receives. */
  function Redacted(s: seq<Play>): (r: seq<Play>)
    ensures forall k :: 0 <= k < |r| ==> r[k].result == PENDING
    ensures forall k :: 0 <= k < |r| ==>
      r[k].team == LOCKED_TEAM && r[k].odds == LOCKED_ODDS
      && r[k].matchup == LOCKED_MATCHUP && r[k].units == 0.0
  {
    MaskAll(PendingOnly(s))
  }

  /** The indices of the pending plays of `s`, ascending: an independent
      description of which plays the redacted view keeps. */
  function PendingIndices(s: seq<Play>): (ix: seq<nat>)
    ensures forall k :: 0 <= k < |ix| ==> ix[k] < |s| && s[ix[k]].result == PENDING
    ensures forall k, l :: 0 <= k < l < |ix| ==> ix[k] < ix[l]
    ensures forall i :: 0 <= i < |s| && s[i].result == PENDING ==> i in ix
  {
    if s == [] then []
    else
      var rest := PendingIndices(s[..|s| - 1]);
      if s[|s| - 1].result == PENDING then rest + [|s| - 1] else rest
  }

  /** The redacted view holds exactly one entry per pending play, in stored
      order, each a redaction of that play. */
  lemma {:induction false} RedactedKeepsPendingInOrder(s: seq<Play>)
    ensures |Redacted(s)| == |PendingIndices(s)|
    ensures forall k :: 0 <= k < |Redacted(s)| ==>
      RedactionOf(Redacted(s)[k], s[PendingIndices(s)[k]])
  {
    PendingOnlyAtPendingIndices(s);
  }

  lemma {:induction false} PendingOnlyAtPendingIndices(s: seq<Play>)
    ensures |PendingOnly(s)| == |PendingIndices(s)|
    ensures forall k :: 0 <= k < |PendingOnly(s)| ==> PendingOnly(s)[k] == s[PendingIndices(s)[k]]
  {
    if s != [] {
      var init := s[..|s| - 1];
      PendingOnlyAtPendingIndices(init);
      forall k | 0 <= k < |PendingIndices(init)|
        ensures PendingIndices(init)[k] < |init| && init[PendingIndices(init)[k]] == s[PendingIndices(init)[k]]
      {
      }
    }
  }

  // ---------------------------------------------------------------------------
  // Creating a play

  /** The fields of a POST body. `units` is missing or `null` when `None`. */
  datatype PlayInput = PlayInput(
    team: string,
    betType: string,
    odds: string,
    matchup: string,
    time: string,
    sport: string,
    units: Option<real>)

  /** The three clock readings POST makes: `Date.now()` for the id, the
      America/New_York `toLocaleString` of `new Date()`, and `Date.now()`
      again for `createdAt`. */
  datatype Clock = Clock(idMillis: nat, localTime: string, createdMillis: nat)

  /** `body.units || 1`: a missing or zero number becomes 1. */
  function DefaultUnits(units: Option<real>): (r: real)
    ensures r != 0.0
    ensures units.Some? && units.value != 0.0 ==> r == units.value
    ensures units.None? || units.value == 0.0 ==> r == 1.0
  {
    match units
    case Some(u) => if u != 0.0 then u else 1.0
    case None => 1.0
  }

  function DigitChar(d: nat): (c: char)
    requires d < 10
  {
    "0123456789"[d]
  }

  predicate IsDigit(c: char) {
    '0' <= c <= '9'
  }

  /** The decimal rendering of a whole number, as `${n}` produces it. */
  function Decimal(n: nat): (s: string)
    ensures |s| > 0
    ensures forall k :: 0 <= k < |s| ==> IsDigit(s[k])
    ensures s[0] == '0' ==> n == 0
    decreases n
  {
    if n < 10 then [DigitChar(n)] else Decimal(n / 10) + [DigitChar(n % 10)]
  }

  /** The number a string of decimal digits denotes. */
  function DigitsValue(s: string): nat
    requires forall k :: 0 <= k < |s| ==> IsDigit(s[k])
  {
    if s == [] then 0
    else
      assert IsDigit(s[|s| - 1]);
      10 * DigitsValue(s[..|s| - 1]) + (s[|s| - 1] as int - '0' as int)
  }

  /** The numeric part of a generated id reads back as the clock value. */
  lemma {:induction false} DecimalRoundTrip(n: nat)
    ensures DigitsValue(Decimal(n)) == n
    decreases n
  {
    var s := Decimal(n);
    if n >= 10 {
      DecimalRoundTrip(n / 10);
      assert s[..|s| - 1] == Decimal(n / 10);
    }
  }

  /** A stored play as POST builds it: a `play_<digits>` id, a posting time
      ending in " ET" and a non-zero number of units. */
  predicate WellFormed(p: Play) {
    && |p.id| > |ID_PREFIX| && p.id[..|ID_PREFIX|] == ID_PREFIX
    && (forall k :: |ID_PREFIX| <= k < |p.id| ==> IsDigit(p.id[k]))
    && |p.postedAt| >= |ET_SUFFIX| && p.postedAt[|p.postedAt| - |ET_SUFFIX|..] == ET_SUFFIX
    && p.units != 0.0
  }

  /** The record POST builds from the body and the clock. */
  function NewPlay(body: PlayInput, clock: Clock): (p: Play)
    ensures WellFormed(p)
    ensures p.result == PENDING
    ensures p.id[|ID_PREFIX|..] == Decimal(clock.idMillis)
    ensures p.postedAt == clock.localTime + ET_SUFFIX
    ensures p.units == DefaultUnits(body.units)
    ensures p.createdAt == clock.createdMillis
    ensures && p.team == body.team && p.betType == body.betType && p.odds == body.odds
            && p.matchup == body.matchup && p.time == body.time && p.sport == body.sport
  {
    Play(
      id := ID_PREFIX + Decimal(clock.idMillis),
      team := body.team,
      betType := body.betType,
      odds := body.odds,
      matchup := body.matchup,
      time := body.time,
      sport := body.sport,
      result := PENDING,
      postedAt := clock.localTime + ET_SUFFIX,
      units := DefaultUnits(body.units),
      createdAt := clock.createdMillis)
  }

  // ---------------------------------------------------------------------------
  // Updating a play

  /** `plays.findIndex(p => p.id === id)`: the first index holding `id`, or -1. */
  function FindIndex(s: seq<Play>, id: string): (k: int)
    ensures -1 <= k < |s|
    ensures k == -1 <==> forall j :: 0 <= j < |s| ==> s[j].id != id
    ensures k >= 0 ==> s[k].id == id && forall j :: 0 <= j < k ==> s[j].id != id
  {
    if s == [] then -1
    else if s[0].id == id then 0
    else
      var k := FindIndex(s[1..], id);
      if k == -1 then -1 else k + 1
  }

  // ---------------------------------------------------------------------------
  // The store

  /** The module-level `plays` array and the three handlers that use it. A
      request's provider answers are given as parameters. */
  class PlayStore {
    var plays: seq<Play>

    /** Every stored play is one POST built; PATCH keeps that so. */
    predicate Valid()
      reads this
    {
      forall k :: 0 <= k < |plays| ==> WellFormed(plays[k])
    }

    constructor ()
      ensures Valid() && plays == []
    {
      plays := [];
    }

    /** GET /api/plays. */
    method List(token: TokenOutcome, access: AccessOutcome, answers: seq<PassOutcome>)
      returns (resp: Response)
      ensures resp.Unauthorized? <==> ResolvedUser(token).None?
      ensures resp.Unauthorized? ==> resp.Status() == 401 && resp.Error() == Some("Unauthorized")
      ensures resp.PlayList? ==> resp.Status() == 200
      ensures ResolvedUser(token).Some? && (AnyGrant(answers) || CheckIsAdmin(token, access).isAdmin)
        ==> resp == PlayList(plays, CheckIsAdmin(token, access).isAdmin)
      ensures ResolvedUser(token).Some? && !AnyGrant(answers) && !CheckIsAdmin(token, access).isAdmin
        ==> resp == PlayList(Redacted(plays), false)
    {
      var user, _ := CheckPremiumAccess(token, answers);
      if user.None? {
        return Unauthorized;
      }
      var admin := CheckIsAdmin(token, access);
      if user.value.hasPremiumAccess || admin.isAdmin {
        resp := PlayList(plays, admin.isAdmin);
      } else {
        resp := PlayList(Redacted(plays), false);
      }
    }

    /** POST /api/plays: an admin's new play goes to the head of the list. */
    method Create(token: TokenOutcome, access: AccessOutcome, body: PlayInput, clock: Clock)
      returns (resp: Response)
      requires Valid()
      modifies this
      ensures Valid()
      ensures !CheckIsAdmin(token, access).isAdmin ==> resp == Forbidden && plays == old(plays)
      ensures resp.Forbidden? ==> resp.Status() == 403 && resp.Error() == Some("Admin access required")
      ensures CheckIsAdmin(token, access).isAdmin ==>
        && resp == PlaySaved(NewPlay(body, clock)) && resp.Status() == 200
        && plays == [NewPlay(body, clock)] + old(plays)
    {
      var admin := CheckIsAdmin(token, access);
      if !admin.isAdmin {
        return Forbidden;
      }
      var newPlay := NewPlay(body, clock);
      plays := [newPlay] + plays;
      resp := PlaySaved(newPlay);
    }

    /** PATCH /api/plays: an admin overwrites the `result` of the first play
        with the given id; any string is accepted. */
    method Update(token: TokenOutcome, access: AccessOutcome, id: string, result: string)
      returns (resp: Response)
      requires Valid()
      modifies this
      ensures Valid()
      ensures !CheckIsAdmin(token, access).isAdmin ==> resp == Forbidden && plays == old(plays)
      ensures resp.Forbidden? ==> resp.Status() == 403 && resp.Error() == Some("Admin access required")
      ensures CheckIsAdmin(token, access).isAdmin && FindIndex(old(plays), id) == -1
        ==> resp == NotFound && plays == old(plays)
      ensures resp.NotFound? ==> resp.Status() == 404 && resp.Error() == Some("Play not found")
      ensures CheckIsAdmin(token, access).isAdmin && FindIndex(old(plays), id) >= 0 ==>
        var k := FindIndex(old(plays), id);
        && |plays| == |old(plays)|
        && plays[k] == old(plays)[k].(result := result)
        && (forall j :: 0 <= j < |plays| && j != k ==> plays[j] == old(plays)[j])
        && resp == PlaySaved(plays[k]) && resp.Status() == 200
    {
      var admin := CheckIsAdmin(token, access);
      if !admin.isAdmin {
        return Forbidden;
      }
      var playIndex := FindIndex(plays, id);
      if playIndex == -1 {
        return NotFound;
      }
      plays := plays[playIndex := plays[playIndex].(result := result)];
      resp := PlaySaved(plays[playIndex]);
    }
  }
}
