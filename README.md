# Straight-bets picks service: access gates, play store and notification payload

A Dafny model of the two route handlers of a sports-betting "picks" service.

- The plays route keeps a process-lifetime, most-recent-first list of plays.
  - GET lists the plays. Premium and admin callers get the full list. Any other caller gets only the pending plays, with team, odds, matchup and units masked. A caller whose identity cannot be resolved gets 401.
  - POST creates a play at the head of the list. It is admin only.
  - PATCH overwrites the `result` of the first play with a given id. It is admin only.
- The notify route is an admin-only POST. It builds a push-notification payload with a fixed title, subtitle and content template and at most one targeting id. It hands the payload to the delivery provider and maps a provider failure to a 500 response.

The identity and access provider (the Whop SDK) is not modelled as code. Each of its calls is an input value of module `Provider`:
- `verifyUserToken` either throws or yields a possibly missing user id;
- `users.checkAccess` either throws or yields an access level;
- each `checkIfUserHasAccessToAccessPass` call either throws or yields `hasAccess`. These come as a sequence indexed by the position of the tier in PREMIUM_TIERS.

The same holds for the notification provider's answer and for the clock readings POST makes.

Layout:
- `provider.dfy` (module `Provider`): the provider answers, an `Option` type, and JavaScript truthiness for optional strings.
- `plays.dfy` (module `Plays`): the `Play` record, the two gates, the redacted view, play construction, `findIndex`, and the class `PlayStore`. The class holds the `plays` list as a `seq` field that `Create` and `Update` reassign.
- `notify.dfy` (module `Notify`): the notify gate, the payload builder and the POST handler, all as pure functions.
- `gates.dfy` (module `AdminGates`): the two copies of `checkIsAdmin` agree.
- `scenarios.dfy` (module `Scenarios`): two client methods that drive a fresh store through create, update and list.

Two points about the code's behaviour:
- `units` is only defaulted when it is missing, `null` or `0`. A negative number is stored as given, so units are non-zero, not necessarily positive.
- Ids are `play_<milliseconds>`. Nothing makes them unique, so the model claims no uniqueness. `Update` only has first-match (`findIndex`) semantics.

## Model

| member | source | states |
|---|---|---|
| `Plays.CheckIsAdmin` | app/api/plays/route.ts:9-24 | admin iff the token resolves to a truthy user id and the access level is exactly "admin"; a user id is reported only when both provider calls succeeded; any throw gives `{isAdmin: false, userId: null}` |
| `Plays.FirstGrant` | app/api/plays/route.ts:33-46 | the position of the first tier whose answer is `hasAccess: true` (or the tier count): every earlier tier did not grant, and the one at that position does |
| `Plays.FirstGrantIffAnyGrant` | app/api/plays/route.ts:33-46 | a first granting tier exists exactly when some tier grants |
| `Plays.CheckPremiumAccess` | app/api/plays/route.ts:26-52 | null exactly when the identity is unresolved (throw, missing or empty user id), and then no tier is queried; otherwise returns the user id, and `hasPremiumAccess` is true iff some tier grants; throwing tiers count as no access and the loop goes on; exactly the tiers up to and including the first granting one are queried (all tiers when none grants), and the verdict is whether one of the queried tiers grants |
| `Plays.PendingOnly` | app/api/plays/route.ts:66-67 | the filtered list is no longer than the input and holds only pending plays |
| `Plays.Redacted` | app/api/plays/route.ts:66-80 | every play of the basic view is pending, has team "🔒 Locked", odds "🔒", matchup "🔒 Upgrade to view" and 0 units |
| `Plays.PendingIndices` | app/api/plays/route.ts:67 | an ascending enumeration of exactly the indices of the pending plays |
| `Plays.PendingOnlyAtPendingIndices` | app/api/plays/route.ts:67 | the k-th element of the filtered list is the play at the k-th pending index, and nothing else is kept |
| `Plays.RedactedKeepsPendingInOrder` | app/api/plays/route.ts:66-80 | the basic view has one entry per pending play, in stored order; each entry copies id, sport, postedAt, result, betType, time and createdAt from its play and masks the rest |
| `Plays.DefaultUnits` | app/api/plays/route.ts:114 | the default for a falsy `body.units`: a missing or zero value becomes 1, any other value is kept, so the result is never 0 |
| `Plays.Decimal` | app/api/plays/route.ts:97 | the rendering of the clock value in the id is a non-empty string of decimal digits with no leading zero |
| `Plays.DecimalRoundTrip` | app/api/plays/route.ts:97 | reading the digits of the id back gives the clock value |
| `Plays.NewPlay` | app/api/plays/route.ts:96-116 | the new play is pending, its id is `play_` followed by the first clock reading, its postedAt is the local time followed by " ET", units follow `DefaultUnits`, createdAt is the last clock reading, and the other fields come from the body |
| `Plays.FindIndex` | app/api/plays/route.ts:135 | -1 exactly when no play has the id; otherwise the index of the first play with that id |
| `Plays.PlayStore.constructor` | app/api/plays/route.ts:7 | the store starts empty |
| `Plays.PlayStore.List` | app/api/plays/route.ts:55-83 | 401 with error "Unauthorized" exactly when the identity is unresolved; a premium or admin caller gets the stored list unchanged, with its own `isAdmin`; any other caller gets `Redacted(plays)` with `isAdmin` false; the store is not changed |
| `Plays.PlayStore.Create` | app/api/plays/route.ts:86-120 | a non-admin gets 403 with error "Admin access required" and the store is unchanged; for an admin the new store is `[NewPlay] + old`, and the response carries that play; every stored play stays well formed (a `play_<digits>` id, an " ET" time and non-zero units) |
| `Plays.PlayStore.Update` | app/api/plays/route.ts:123-142 | a non-admin gets 403 with error "Admin access required" and an unknown id gets 404 with error "Play not found", and in both cases the store is unchanged; otherwise only the `result` of the first play with that id is replaced, by any string; every other field, every other play and the length are unchanged, and the response carries the updated play with status 200 |
| `Notify.CheckIsAdmin` | app/api/notify/route.ts:5-17 | true iff the token resolves to a truthy user id whose access level is exactly "admin"; any provider error gives false |
| `Notify.BuildPayload` | app/api/notify/route.ts:33-43 | title is "🔥 New Straight Bet — " followed by the sport; the subtitle is fixed; content is `team (odds) — Check it now!`; a truthy experienceId is attached alone, else a truthy companyId alone, else neither, so never both |
| `Notify.Post` | app/api/notify/route.ts:20-54 | a non-admin gets 403 and nothing is dispatched; an admin's payload is dispatched; a delivered result gives 200 `{success, result}`; a provider throw gives 500 with "Failed to send notification" and the error's message as details |
| `AdminGates.GatesAgree` | app/api/notify/route.ts:5-17 | the notify gate and the plays gate classify every caller alike |

## Left out

- Provider calls: the Whop SDK calls are given answers, not implementations. This covers token verification, the access-level lookup, access-pass checks and notification creation.
- Repeated token verification: GET verifies the token twice, once in `checkPremiumAccess` and once in `checkIsAdmin`. The model gives both calls the same answer.
- HTTP plumbing: request and response objects, JSON parsing and status transport are left out. A `request.json()` failure is thrown outside any `try`, so it is also left out. Responses are datatypes with a `Status()` function.
- Clock and locale: the three clock readings of POST are inputs. These are `Date.now()` for the id, the America/New_York `toLocaleString` of `new Date()`, and `Date.now()` for `createdAt`. Time-zone formatting is not modelled.
- JavaScript values beyond the modelled types: every body field is a string, and `units` is an optional real number. NaN, `false`, `""` and non-number `units` are not modelled. Undefined text fields (which the templates render as "undefined") and non-string `result`, `experienceId` and `companyId` values are not modelled either.
- Decimal: renders a whole millisecond count. JavaScript's exponent notation for numbers of 10^21 and above is not modelled.
- Id uniqueness: not claimed, because two creates in the same millisecond collide.
- Object aliasing: PATCH mutates a shared object in place. The model replaces one element of the sequence instead. Responses are serialized copies, so the difference is not observable.
- Concurrency: requests sharing the `plays` list are not modelled.
- Logging: `console.error` in the notify handler is not modelled.
