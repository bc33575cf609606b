# go-uma, verified

A Dafny model of the parts of go-uma that hold state, arithmetic or parsing, and proofs about
how they work together. go-uma is a Go library for User-Managed Access 2.0: an authorization
server (AS) registers resources and hands out permission tickets, a client redeems a ticket for
a requesting-party token (RPT), and a resource server (RS) decides on requests by introspecting
the RPT.

Check everything with `dafny verify dfyconfig.toml`.

## What is modelled

- **The ticket protocol.** `DemoServer` is the demo AS as its callers see it one at a time.
  `TicketProtocol` lets any number of calls run at once, one step at a time; `Token` takes its
  ticket in one critical section, draws the RPT unlocked, and stores it in another.
  `TicketInvariants` and `TicketTheorems` hold for every run of that machine: each ticket is in one
  place, tickets are single use, RPTs are permanent, and every RPT goes back to a registration.
- **Atomicity.** `ScenarioServer` and `AtomicProtocol` are the one-lock server of the conformance
  scenario, which flags a redeemed ticket instead of deleting it. `Refinement` and `Histories`
  prove that the two servers have exactly the same concurrent histories, as long as nobody
  introspects an RPT that is drawn but not stored. The RPT is drawn after the step that makes the
  redemption final, so the proof runs backwards and the atomic reply names an id still to be drawn.
  `Renaming` has the same result with a condition on the history alone: there is no lucky guess, that
  is, no string introspected before `Token` returned it turns out in that history to be an RPT. An
  unlucky guess does no harm, because the run can be told again with another id in its place.
  `Guessing` shows that the condition is needed, whether the RPT guessed at is returned or found
  active: a caller who guesses it sees the gap.
- **The challenge.** `Challenge` has the printer of the `WWW-Authenticate: UMA` header and the demo
  client's parser, with the exact result of parsing every printed header whose realm, URL and
  ticket hold no quote.
- **The whole flow.** `ResourceServer` is the RS's decision and its 401. `Session` puts protocol,
  challenge and decision together: an allowed request was paid for (safety), and a client that
  follows its script can always finish it and is allowed in the end, whatever others do short of
  redeeming its ticket (progress).
- **Discovery.** `Discovery` builds the configuration document and compares issuers, `Advertising`
  sets the document against what the AS handler answers, `CacheControl` computes the document's
  lifetime, and `MetadataCache` caches it, for calls one after another and for calls that overlap.
  `CalmCache` proves that calls that do not overlap, though time passes during each, are calls one
  after another.
- **Errors.** `ErrorTransport` takes any tree of wrapped and joined errors from the AS to the client.
- **Retry.** `RetryDoer` is the retry loop over an arbitrary inner doer, and its back-off in 64-bit
  arithmetic.
- **Resource sets.** `ResourceRegistry` follows CRUD from the client's path building through the
  server's dispatch to the registry and back, and proves that it is a plain map.
- `Text` has the functions of Go's `strings` package these use, and `Int64` its 64-bit arithmetic.

### Assumptions

- Ids are non-empty lower-case hexadecimal strings of any length. A step that draws an id draws one
  that nobody has drawn before, and for an RPT one that nobody has presented to introspection before
  either; this is where the model stands in for 128 random bits.
- The resources registered at the AS do not change while tickets are exchanged. A fixed set of them,
  `known`, is a parameter, and covers the one difference between the servers: the scenario AS
  refuses a permission for an unregistered resource, the demo AS does not look.
- Strings are byte strings and case and white space are ASCII. Times and durations are integers of
  nanoseconds; products and doublings of durations wrap around at 64 bits where the source's do.
- Bodies are records rather than JSON text. Replies leave out error descriptions, `token_type`,
  `expires_in` and `IssuedAt`.

### Where the source's comments and its code differ

The model follows the code.

- The first retry waits twice the base delay (client/doer.go:170), not the base (client/doer.go:205).
- A context that ends during back-off makes `Do` return the last attempt's outcome
  (client/doer.go:173-178), not the context's error (client/doer.go:133-135).
- A negative `max-age` gives the fallback lifetime (client/metadata.go:150-151), not zero
  (client/metadata.go:133-134).
- `sameIssuer` ignores every trailing slash (client/metadata.go:128), not one (client/metadata.go:120).
- A lifetime of zero or less disables the cache only for calls that do not overlap. A call that
  captured its time earlier can still be answered from such an entry
  (`MetadataCache.ZeroLifetimeHit`).
- The back-off is capped only while doubling does not overflow. With a maximum above 2^62 - 1 it can
  come out negative (`RetryDoer.CappedExactlyWithoutOverflow` says exactly when).
- "Advertising only the endpoints the AS serves" (server/metadata.go:16-17) fails in two ways. A
  not-implemented error that also carries a typed UMA error is omitted but not answered 501
  (`Advertising.MaskedEndpoint`). And for resource sets the probe asks for an operation the handler
  never asks for, so the document is as good as the convention of server/metadata.go:40-47: the demo
  AS breaks it, and its document omits an endpoint where a POST is answered 201
  (`Advertising.DemoDisagrees`), while an AS that refuses only the unknown operation as invalid is
  advertised though it answers nothing but 501 (`Advertising.HollowIsAdvertised`).

## Model

| member | source | states |
|---|---|---|
| Histories.SameHistories | examples/as-rs-demo/main.go:342-367 | Main result. A history of concurrent calls and replies, on registered resources, is one of the two-lock AS whose callers never introspect a drawn but unstored RPT if and only if it is one of the one-lock AS of the conformance scenario |
| Renaming.SameWithoutLuckyGuess | examples/as-rs-demo/main.go:342-367 | Main result on histories alone. A history on registered resources in which no string introspected before it was returned is reported as an RPT is one of the two-lock AS, under any callers, if and only if it is one of the one-lock AS |
| Renaming.RunRetold | examples/as-rs-demo/main.go:342-385 | Every two-lock run without a lucky guess has the history of one in which nobody introspects an RPT in flight |
| Histories.DemoIsAtomic | examples/as-rs-demo/main.go:331-385 | Every such run of the two-lock AS, however its calls interleave, has the history of some run in which each call takes effect in a single step |
| Histories.Forwards | conformance/scenario_test.go:95-155 | Every run of the one-lock AS is matched by a two-lock run with the same history that ends in a corresponding state |
| Histories.Settle | examples/as-rs-demo/main.go:354-361 | Any run can be continued, unobserved, until no redemption still has its RPT to draw |
| Refinement.BackStep | examples/as-rs-demo/main.go:331-385 | Each step of the two-lock AS, from a related pair of states backwards, is undone by at most one atomic step with the same observation; the atomic redemption falls on the section that deletes the ticket |
| Refinement.BackTake | examples/as-rs-demo/main.go:346-352 | Deleting the ticket is the atomic redemption, whose reply names an RPT not yet drawn |
| Refinement.BackStore | examples/as-rs-demo/main.go:358-361 | Storing the RPT is no atomic step at all |
| Guessing.DemoShows | examples/as-rs-demo/main.go:342-367 | Without that condition the servers differ, in two ways: the two-lock AS can refuse a second redemption, then call the first one's RPT inactive, and then return it or report it active |
| Guessing.ScenarioNeverShows | conformance/scenario_test.go:95-117 | No run of the one-lock AS, whatever resources are registered, shows either history |
| ScenarioServer.SameReplies | conformance/scenario_test.go:99-111 | Deleting a redeemed ticket and flagging it consumed give equal replies to every sequence of calls on registered resources, whatever ids are drawn |
| AtomicProtocol.OnlyRegistered | conformance/scenario_test.go:119-137 | In every run of the one-lock AS each stored ticket and RPT is for a registered resource |
| TicketInvariants.Reachable | examples/as-rs-demo/main.go:331-367 | In every state of every interleaving, tickets, calls in flight, RPTs and pending ids fit together, and the numbers of outstanding tickets, tickets in flight and RPTs add up to that of registered ones |
| TicketInvariants.StepKeeps | examples/as-rs-demo/main.go:331-367 | Every step of every call keeps that invariant |
| TicketTheorems.EachTicketInOnePlace | examples/as-rs-demo/main.go:331-367 | A registered ticket is outstanding, or held by one call, or turned into one RPT, and exactly one of these; registered = outstanding + in flight + RPTs |
| TicketTheorems.TakenOnce | examples/as-rs-demo/main.go:346-352 | No two steps of a run take the same ticket, so none yields two RPTs |
| TicketTheorems.SpentIsInvalidGrant | examples/as-rs-demo/main.go:348-351 | Every redemption attempt after the successful one is answered `invalid_grant` and changes no store |
| TicketTheorems.RPTIsForever | examples/as-rs-demo/main.go:369-385 | Once stored, an RPT introspects as active with the same permissions in every later state |
| TicketTheorems.Provenance | examples/as-rs-demo/main.go:331-367 | Every ticket of every reachable state was registered, then taken, then stored as an RPT, in that order and as far as it has come, with the permissions of the registration throughout |
| TicketTheorems.FateStep | examples/as-rs-demo/main.go:342-367 | A ticket moves only from outstanding to in flight to redeemed, by its own two critical sections |
| DemoServer.DemoAS.ResourceSet | examples/as-rs-demo/main.go:310-329 | Only Create is implemented and stores the body under the new id; every other operation is refused and changes nothing |
| DemoServer.DemoAS.Permission | examples/as-rs-demo/main.go:331-340 | An empty resource id or scope list is rejected; otherwise the ticket is stored with exactly what was asked for |
| DemoServer.DemoAS.Token | examples/as-rs-demo/main.go:342-367 | Alone, a redemption succeeds exactly for an outstanding ticket, removes it, and binds the RPT to what the ticket was registered for; a failed one changes nothing |
| DemoServer.DemoAS.Introspect | examples/as-rs-demo/main.go:369-385 | Active exactly for a stored RPT, with its permissions, and changes nothing |
| ResourceRegistry.ScenarioAS.Token | conformance/scenario_test.go:95-117 | An RPT exactly for an unconsumed ticket, which is flagged, with what the ticket was registered for; otherwise nothing changes |
| ResourceRegistry.ScenarioAS.Permission | conformance/scenario_test.go:119-137 | A ticket exactly for a registered resource and a non-empty scope list, stored unconsumed under the drawn id; otherwise the error that applies, and nothing changes |
| ResourceRegistry.ScenarioAS.Introspect | conformance/scenario_test.go:139-155 | Active exactly for a stored, active RPT |
| Session.AllowIsEarned | examples/as-rs-demo/main.go:411-431 | Safety. Every DecisionAllow for a resource and scopes is preceded by the registration of a ticket for that resource and a superset of those scopes, by the one redemption of that ticket, and by the storing of the RPT with exactly the registered permissions |
| Session.AllowsExactly | examples/as-rs-demo/main.go:425-429 | And every RPT for the resource is allowed any scopes among those granted, not only all of them |
| Session.EndToEnd | examples/as-rs-demo/main.go:411-450 | Progress. From any reachable state and among arbitrary steps of others, refused attempts on its ticket included, that never succeed in redeeming it, a client that asks without a token, redeems the ticket it parses from the 401 and retries with the RPT is never stuck, and the retry is allowed |
| Session.Completes | examples/as-rs-demo/main.go:331-385 | Wherever the interference of others has left a client in its script, its remaining steps can follow, with fresh ids for those it has yet to draw, and its retry is allowed |
| Session.Begins | examples/as-rs-demo/main.go:331-385 | In every reachable state every idle caller has such a session from the start |
| Session.Undisturbed | examples/as-rs-demo/main.go:331-385 | No step of another caller, save redeeming its outstanding ticket, moves a client from its place in the script |
| Challenge.BuildUMAChallenge | uma.go:61-77 | The exact header value; the scope parameter is left out when empty |
| Challenge.HeaderReads | uma.go:61-77 | The format written out, with and without a scope |
| Challenge.HeaderInjective | uma.go:61-77 | Arguments with a quote-free realm, URL and ticket, and any scope list, are determined by the header, with no condition on how values end |
| Challenge.QuotesBreakInjectivity | uma.go:61-77 | With quotes they are not: two different argument lists print the same header |
| Challenge.CutAtQuotes | examples/as-rs-demo/main.go:505-517 | In every header whatever, cut at its quotes, the first-occurrence search returns the segment after the first one that ends in the label |
| Challenge.ThisScheme | examples/as-rs-demo/main.go:491-498 | A header that begins with the UMA scheme gives its three parameters |
| Challenge.OtherScheme | examples/as-rs-demo/main.go:492-494 | A header of another scheme gives nothing |
| Challenge.ParsedHeader | examples/as-rs-demo/main.go:491-517 | What the parser returns for every printed header, including the wrong answers when a value ends in a label |
| Challenge.RoundTrip | examples/as-rs-demo/main.go:491-517 | Ticket, URL and scopes are each read back correctly if and only if no earlier value ends in the label looked for (up to one coincidental value) and, for scopes, they hold no quote |
| ResourceServer.ExtractBearerToken | server/rs.go:180-208 | A token exactly when the header is longer than the scheme and starts with it in any case; then it is the non-empty rest, untouched |
| ResourceServer.ContainsAll | examples/as-rs-demo/main.go:543-554 | True exactly when every wanted scope is had |
| ResourceServer.JoinedWithSpaces | examples/as-rs-demo/main.go:447 | Scopes are joined by one space, and read back by cutting at spaces |
| ResourceServer.WriteTicketResponse | server/rs.go:151-165 | A 401 with the challenge |
| ResourceServer.DemoRS.ProtectedRequest | examples/as-rs-demo/main.go:411-431 | Allowed exactly when the header is a bearer token, in any case, that is a stored RPT for that resource and every wanted scope is among those granted; otherwise one ticket is asked for |
| ResourceServer.DemoRS.AskForTicket | examples/as-rs-demo/main.go:436-450 | Registers exactly the requested resource and scopes, and fails when the AS rejects them |
| ResourceServer.DemoRS.Handle | examples/as-rs-demo/main.go:455-482 | 200 exactly for an entitled request; a 401 whose challenge, parsed by the client, gives the ticket that now waits for that resource and those scopes |
| MetadataCache.MetadataClient.FetchMetadata | client/metadata.go:64-117 | Alone: a fresh entry is returned without asking; an answer becomes a stored and returned document exactly when it has status 200 and decodes and the client is relaxed or the issuer is its own but for slashes at the end; every other answer gives its own error and changes nothing |
| MetadataCache.AcceptedExactly | client/metadata.go:82-109 | The same of one response among overlapping calls, which keeps the time its call began |
| MetadataCache.StoredExactly | client/metadata.go:111-116 | What is stored expires one lifetime after its call began, and is returned |
| MetadataCache.OnlyTrusted | client/metadata.go:64-117 | In strict mode, under any interleaving, every cached and every returned document names the configured issuer |
| MetadataCache.StepKeeps | client/metadata.go:64-117 | Every step keeps: the cache is the last fill with its own lifetime, and no call returns or is about to store an unchecked document |
| MetadataCache.HitIsFresh | client/metadata.go:65-73 | A call is answered from the cache exactly when its captured time is before start + lifetime of the last fill, whose document some step did receive; with a lifetime of zero or less the caller began before the filling call |
| MetadataCache.Origin | client/metadata.go:81-114 | Every fill goes back to a response received with status 200 by a call that began at the recorded time |
| MetadataCache.ErrorsNeverWrite | client/metadata.go:82-114 | In every run, a call that ended in an error, or is still under way, has taken no step since it began that changed the cache |
| MetadataCache.AloneIsFetch | client/metadata.go:64-117 | Uninterrupted, the concurrent machine does what one call does alone |
| MetadataCache.ZeroLifetimeHit | client/metadata.go:65-71 | There is a run in which an entry of lifetime zero is hit |
| MetadataCache.FillsApart | client/metadata.go:65-73 | Without overlap, with a monotone clock and constant lifetime T, the cache holds the last fill and fills are at least T apart |
| MetadataCache.FetchBound | client/metadata.go:65-114 | With T > 0, n fetches that succeed within a time D satisfy (n - 1) T <= D |
| MetadataCache.NeverHits | client/metadata.go:65-73 | With T <= 0 every call that does not overlap fetches |
| CalmCache.CalmIsSequential | client/metadata.go:64-117 | A run of the concurrent machine without overlap, time passing during every fetch, leaves the cache and fills it at the times that its calls would one after another, and their times are in order |
| CalmCache.CalmResult | client/metadata.go:64-117 | Each call of such a run returns what it would have returned alone |
| CalmCache.CalmFetchBound | client/metadata.go:65-114 | In such a run with constant T > 0, n fetches that succeed start at least T apart and span at least (n - 1) T |
| CalmCache.CalmNeverHits | client/metadata.go:65-73 | In such a run with constant T <= 0, every check of the cache misses |
| CacheControl.CacheTTL | client/metadata.go:139-156 | The loop computes the lifetime decided by the first max-age directive, or the fallback |
| CacheControl.DecidedBy | client/metadata.go:143-154 | The first max-age directive decides, whatever surrounds it: its age in nanoseconds, or the fallback when it is no number or negative |
| CacheControl.DecidedByNone | client/metadata.go:140-155 | Without one the fallback is used |
| CacheControl.AtoiExactly | client/metadata.go:149 | The ages that are numbers: a 64-bit integer in decimal, with any leading zeros and a sign |
| CacheControl.UsualDigits | client/metadata.go:149 | The digits of such a number, the most significant first |
| CacheControl.OneMinute | client/metadata.go:139-156 | `public, max-age=60` is one minute |
| Text.SpacesExactly | client/metadata.go:144 | What counts as space around a directive |
| Text.TrimSpaceExactly | client/metadata.go:144 | Trimming takes the spaces at the two ends and nothing else |
| Text.LowersLetters | client/metadata.go:145 | Case is ignored letter by letter |
| Int64.WrapsExactly | client/metadata.go:153 | A 64-bit product is the value in range that differs from the true one by a multiple of 2^64 |
| CacheControl.ExactUpTo | client/metadata.go:153 | A lifetime of n seconds is exact if and only if n <= 9223372036; above, the product wraps |
| CacheControl.RoundTripAge | client/metadata.go:139-156 | Any max-age-free directives, then a printed n in any case and padding, then anything: n seconds are read |
| CacheControl.MalformedAge | client/metadata.go:149-152 | An age that is no number, out of range or negative gives the fallback, though a later directive may be good |
| Discovery.BuildMetadata | server/metadata.go:54-79 | Each endpoint is advertised, as the stripped URL and its path, exactly when no leaf of its probe's error is not-implemented; the UMA grant type exactly with the token endpoint; the other fields are what the options say |
| Discovery.LastOption | metadata.go:101-143 | Each option sets its own field, and the last for a field decides |
| Discovery.UnsetField | server/metadata.go:75-77 | A field no option is for stays empty |
| Discovery.SameIssuerExactly | client/metadata.go:127-129 | Two issuers are the same exactly when they differ only in how many slashes they end in |
| Discovery.Publish | server/metadata.go:54-79 | A document built for u with i slashes passes the mix-up check of a client configured for u with j slashes, for all i and j, and its endpoints do not depend on i |
| Advertising.AdvertisedAndServed | server/metadata.go:54-79 | For every AS that is a function of its requests: the handler answers the zero-value token, permission or introspection request 501 if and only if the document omits the endpoint and the error is untyped; for resource sets, the document and the handler agree if and only if the answer to OpUnknown stands for the answers to the operations the handler issues |
| Advertising.MissingIs501 | server/as.go:444-468 | An answer is sent with 501 if and only if its error tree holds not-implemented and no typed UMA error |
| Advertising.Only501FromAS | server/as.go:246-322 | The token, permission and introspection handlers answer 501 only to a POST that parsed and reached the AS, and exactly when the AS answered it that way |
| Advertising.PlainStatuses | server/as.go:235-322 | Their other statuses: 200, 201 or 200 on success, 405 for another method, 400 or 401 for a body that does not parse |
| Advertising.IssuedExactly | server/as.go:324-396 | Which requests the resource-set handlers can make of the AS, and that OpUnknown is not one of them |
| Advertising.ResourceSet501 | server/as.go:324-396 | A resource-set request is answered 501 if and only if it reaches the AS and is answered that way |
| Advertising.ServesWhatItAnswers | server/as.go:324-396 | Some resource-set request is served if and only if the AS answers some operation the handler issues |
| Advertising.ConventionExactly | server/metadata.go:40-47 | Nothing is served unadvertised if and only if the AS keeps the documented convention about OpUnknown |
| Advertising.HollowIsAdvertised | server/metadata.go:70-72 | An AS that refuses only OpUnknown as invalid is advertised, and answers 501 to every request |
| Advertising.DemoDisagrees | examples/as-rs-demo/main.go:310-329 | In every state the demo AS is not advertised for resource sets, yet answers a POST there 201 |
| Advertising.ServeDemo | examples/as-rs-demo/main.go:310-329 | The running demo AS answers every resource-set request as that function of its state says |
| Advertising.MaskedEndpoint | server/as.go:444-468 | Such a masked endpoint exists: omitted, and not answered 501 |
| Advertising.ProbeDemo | server/metadata.go:59-72 | Probing the demo AS in any state changes none of its maps, and advertises token, permission and introspection but not resource registration |
| ErrorTransport.FindIsFirstLeaf | errors.go:102-111 | However errors are wrapped and joined, the search finds the first matching leaf from the left |
| ErrorTransport.ResponseWriter.WriteError | server/as.go:444-468 | Status and body are those of the classification |
| ErrorTransport.WrittenExactly | server/as.go:444-487 | The classification: the leftmost need-info leaf gives 403 and its body; else the leftmost validation leaf 400 and an invalid_grant envelope; else the leftmost OAuth leaf its envelope, and 401 for invalid_token, 403 for need_info, not_authorized and request_submitted, and 400 for any other code |
| ErrorTransport.WrittenUntyped | server/as.go:463-467 | Without a typed leaf, 501 exactly when a leaf is not-implemented, else 500, and no body |
| ErrorTransport.LeavesOfJoined | errors.go:102-111 | Wrapping changes nothing, and joining puts leaves side by side |
| ErrorTransport.ValidationReads | errors.go:200-208 | The text of a validation error |
| ErrorTransport.ResponseOfChosen | server/as.go:444-487 | The response is decided by one leaf: the first need-info, else the first validation, else the first OAuth error in the tree; without any, 501 or 500 and no body |
| ErrorTransport.Transported | client/token.go:90-102 | What the client gets for every error tree: the same need-info error, the envelope sent, or an opaque error; the status is always 400, 401, 403, 500 or 501 |
| ErrorTransport.Arrives | client/token.go:90-102 | The same by leaves: the error the client gets of the leftmost leaf of the first kind there is |
| ErrorTransport.IsCodeLeaves | errors.go:102-111 | errors.Is with a code's sentinel finds exactly the need-info and OAuth leaves that carry it |
| ErrorTransport.SentinelSeen | errors.go:102-111 | errors.Is with a code's sentinel holds at the client if and only if the envelope sent carries that code |
| ErrorTransport.NothingInvented | client/token.go:90-102 | The client sees no code the AS error did not carry, save invalid_grant for a validation error |
| ErrorTransport.NothingLost | server/as.go:444-468 | The client sees all codes of the AS error if and only if all coded leaves agree and, when there is one, the first need-info leaf has a code, or else a validation leaf goes with invalid_grant, or else the first OAuth leaf has a code |
| ErrorTransport.DenialLost | server/as.go:450-463 | A code that is lost: a validation error joined to a not_authorized error reaches the client as invalid_grant alone |
| RetryDoer.Configure | client/doer.go:85-146 | For every list of options: at least one attempt, positive delays, and for each field the last option that sets it or the default of 3 attempts, 100 ms and 5 s |
| RetryDoer.Doer.Do | client/doer.go:153-227 | For every inner doer and cancellation schedule: between 1 and maxAttempts calls, going on only after an error or a 502, 503 or 504; the last outcome and exactly one of response and error; exactly the responses with these statuses closed; every attempt gets the whole body when GetBody is set; the waits are the back-off of 1, 2, ... |
| RetryDoer.Backoff | client/doer.go:204-217 | The loop computes the doubled delay in 64-bit arithmetic |
| RetryDoer.BackoffIsCapped | client/doer.go:204-217 | While no doubling overflows, the delay before retry i is min(base * 2^i, max), positive, monotone and at most max |
| RetryDoer.BackoffDoubles | client/doer.go:204-217 | With base and maximum of at most 2^62 - 1 each delay is twice the one before, starting from twice the base, or the maximum |
| RetryDoer.BoundsSuffice | client/doer.go:204-217 | Base and maximum of at most 2^62 - 1 rule overflow out |
| RetryDoer.CappedExactlyWithoutOverflow | client/doer.go:204-217 | The formula holds for every retry if and only if no doubling at or below the maximum overflows, and some delay is negative if and only if one does |
| RetryDoer.NegativeDelay | client/doer.go:204-217 | A configuration whose first delay is negative |
| RetryDoer.TotalWait | client/doer.go:153-217 | For every configuration, overflowing ones included, the timers of one request run for at most (maxAttempts - 1) * max together, a negative one counting nothing |
| ResourceRegistry.ScenarioAS.ResourceSet | conformance/scenario_test.go:157-206 | The result and the new registry of each operation; List has no duplicates |
| ResourceRegistry.Delivered | client/resource_set.go:59-69 | An operation on an id of unreserved characters reaches the AS with its own op, id and body if and only if the id is not a dot segment |
| ResourceRegistry.NeverCollide | client/resource_set.go:35-165 | Distinct operations, on any ids of unreserved characters, dot segments included, never become the same request |
| ResourceRegistry.Serve | server/as.go:324-420 | A routed request gets the AS's answer, any other the response of its route, and changes nothing |
| ResourceRegistry.RouteExactly | server/as.go:324-396 | Which method and path reaches the AS as which operation, and 400, 404 or 405 for every other request |
| ResourceRegistry.AnswerExactly | server/as.go:324-396 | The status and body of every answer: 201, 200 or 204, and 400 for a missing record or an invalid description |
| ResourceRegistry.Call | client/resource_set.go:35-199 | One client call through path, dispatch, AS and statuses is the plain map's operation, with its result; records keep their key as id; an empty or dot-segment id fails and changes nothing |
| ResourceRegistry.Understood | client/resource_set.go:174-199 | Whatever the AS did, the statuses and bodies let the client read the map's result |
| ResourceRegistry.Replay | client/resource_set.go:35-199 | Any sequence of client calls on a fresh server: every result is the plain map's, and the registry ends as the plain map does |
| ResourceRegistry.LastTouchDecides | conformance/scenario_test.go:157-206 | What such a sequence leaves under a key is decided by the last call that touched it |
| ResourceRegistry.ReadReturnsLast | client/resource_set.go:59-69 | In such a sequence a Read returns the record of the last Create or Update of its id, under that id, and not_found exactly when there is none or a Delete followed |

## Left out

- Sockets, `http.Client`, `ServeMux` redirects, body size limits and header fields other than `Authorization`, `WWW-Authenticate` and `Cache-Control`: library I/O.
- JSON text, form encoding, percent-encoding and general URL parsing: bodies are records, and ids in resource paths are empty or made of unreserved characters.
- `handleToken`, `handlePermission` and `handleIntrospect` of the AS handler: only their statuses are modelled; of a permission batch only the first entry reaches the AS.
- An AS whose answers change between the probe and a later request: the agreement of document and handler is about functions of the request.
- `Validate` in detail, `Values`, `Parse...Request`, `String`, and the lifting of permission arrays: easy members; `Validate` appears as the guards of the modelled requests.
- `patDoer`, logging and metrics hooks, `main` and its tracing, the lookup of a route's resource: one assignment or one call each.
- Nil receivers, typed nil errors, and an inner doer that returns both a response and an error: callers of these interfaces do not produce them.
- Ticket and RPT expiry, revocation, and whether a permission's scopes are among the resource's: neither server implements them.
- Randomness, PAT acquisition, TLS, signed metadata and claims gathering in a browser: outside the code; freshness of ids is an assumption.
- RetryDoer.Doer.Do: each attempt is taken to read the request body to its end, and a wait is its length, since no clock is modelled.
- A bound on failed metadata fetches: they store nothing, so there may be as many as there are calls.
- Monotone expiry of the metadata cache: it does not hold, as a slow fetch may replace a newer entry by an older one.
- Fairness: that the scheduler runs a call that is not stuck.
- Resource registration concurrent with ticket calls: each side is proved on its own.
- Concurrent `ResourceSet` calls: both servers run each under one lock, so they take effect one at a time.
