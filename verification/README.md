# Wordwarden, modelled in Dafny

Wordwarden checks directory passwords for a cloud login service.  A signed HTTP request (or a message on a
relay connection) asks whether a user name and password are right; the service admits the request, asks an
LDAP directory, and answers with a verdict.  This project models the parts where the answer depends on more
than one function: the admission protocol under concurrency, the LDAP client as a connection state machine,
the group and paging algorithms inside it, the signed canonical request, the metrics store and the version
comparison.  `dafny verify dfyconfig.toml` checks everything.

Conventions: time is in nanoseconds as natural numbers, with 0 for Go's zero time; strings are sequences of
characters that stand for bytes; Go maps are Dafny maps, and loops over them run in an arbitrary order; errors
are datatype values.  Objects that the code updates in place are classes (`Replay.Cache`, `Storm.Breakers`,
`Metrics.Store`, `LdapSession.IdlePool`, the requests, paging controls and connections of `PagedSearch`);
loops are methods with invariants, proved against functions about which the lemmas speak.  Concurrent code is
a step machine whose runs are arbitrary sequences of steps.

## Files

| file | what it covers |
|---|---|
| `Wrappers.dfy`, `Clock.dfy`, `LdapEntry.dfy` | options and results, time, directory attributes |
| `Replay.dfy` | the replay cache and its log of calls, with stale clock readings |
| `Storm.dfy` | the fixed-window breaker over whole traces |
| `Metrics.dfy` | event counters, their cap, and the order they are printed in |
| `Directory.dfy` | verdicts, directory errors and audit events |
| `Admission.dfy`, `AdmissionSafety.dfy`, `AdmissionTheorems.dfy`, `AdmissionStorms.dfy`, `AdmissionVerdicts.dfy`, `AdmissionAnswers.dfy` | HTTP handler and relay client as one step machine, its invariant, its guarantees, and its breakers tied to `Storm.dfy`, and what is answered when |
| `EndToEnd.dfy` | the signature check, the replay check and the body check together |
| `LdapSession.dfy`, `LdapSafety.dfy`, `LdapSteps.dfy`, `LdapRefusals.dfy`, `LdapProgress.dfy`, `LdapTesting.dfy`, `LdapNames.dfy` | LDAP connections: dialled, pooled, re-bound, searched, closed; sound verdicts, deserved refusals, and the whole answer of checks and tests |
| `GroupSearch.dfy`, `GroupFacts.dfy` | the bounded breadth-first search over group membership, and what its facts say |
| `PagedSearch.dfy`, `Referrals.dfy` | the paged search loop and one-hop referrals, with heap-allocated controls |
| `Attributes.dfy` | which attributes are searched for and released |
| `Text.dfy`, `Query.dfy`, `Canonical.dfy`, `Verifier.dfy` | strings and sorting, the query line, the canonical request with its parser, the HMAC verifier |
| `Versions.dfy` | version order and advisory patterns |

## What the proofs found

- A connector's breaker is sharper than a factor of two: `max(1, 2*limit - 2)` records inside one window-long
  span force a block, and one record fewer does not (`Storm.BurstBlocks`, `Storm.EnoughIsLeast`).
- The minute in the at-most-once guarantee is exact: one nanosecond more between the timestamp check and the
  `Remember` body, and the same signed request can be admitted twice (`AdmissionTheorems.LateBodyIsAdmittedAgain`).
- README.md:37, docs/configuration.md:222 and docs/production-hardening.md:34 promise storm protection for HMAC
  failures, while docs/api.md:144 says that they must not block a connector.  In the code no step of a request
  that fails verification touches a breaker (`AdmissionStorms.HmacFailuresAreNotRecorded`).
- In `search_then_bind` mode `TestConnection` binds with the subject id of the entry and `VerifyPassword` with
  its DN; they agree exactly when the entry has no subject value or it is the DN (`LdapNames.BindNames`,
  `LdapNames.TestBindsSubject`).
- Connector, key and request ids are signed after runs of white space in them are collapsed.  The signed form
  determines an identifier exactly when it has no white space inside (`Verifier.SignedFormDetermines`); another
  spelling of a request id is accepted under the same signature and admitted as well
  (`EndToEnd.TwoSpellingsTwoAdmissions`).  The body, which is fixed by its signed hash and must repeat connector and
  request id, still lets at most one request per signature through to the directory (`EndToEnd.OneSignatureOneCall`).
- If groups are enabled with an empty member attribute the client reads an attribute it did not ask for;
  otherwise it never does (`Attributes.ResponseReadsOnlyAsked`).  The configuration defaults fill that name in.

## Model

| member | source | states |
|---|---|---|
| `Replay.Cache.Remember` | internal/ports/httpapi/server.go:807-823 | the eviction loop, in any order, leaves exactly the entries that have not expired at the reading; the key is accepted iff it is not among them |
| `Replay.LogGrows` | internal/ports/httpapi/server.go:807-823 | a later call never changes an earlier acceptance |
| `Replay.EntriesComeFromAcceptances` | internal/ports/httpapi/server.go:815-822 | every entry was put there by an accepted call of that key and expires ttl after its reading |
| `Replay.AcceptanceIsHeld` | internal/ports/httpapi/server.go:811-822 | whatever stale readings other calls used, an accepted key stays until a critical section runs after reading + ttl |
| `Replay.NoSecondAcceptance` | internal/adapters/relay/client.go:726-740 | two acceptances of a key are more than the ttl apart, first reading to second lock |
| `Replay.RejectionIsJustified` | internal/adapters/relay/client.go:726-740 | a rejection has an earlier acceptance of the same key whose expiry the reading has not passed |
| `Replay.CacheIsUnexpiredLog` | internal/ports/httpapi/server.go:807-823 | with non-decreasing readings the map is exactly the unexpired part of the acceptance log |
| `Storm.WithDefaults` | internal/ports/httpapi/storm.go:45-62 | every policy becomes positive in all settings, and a positive one is left alone |
| `Storm.Policy.RuleFor` | internal/ports/httpapi/storm.go:104-115 | each kind of breaker has its own limit, and window and block are the policy's milliseconds in nanoseconds |
| `Storm.Breakers.Blocked` | internal/ports/httpapi/storm.go:64-75 | blocked iff a block is set and lies after the reading |
| `Storm.Breakers.Record` | internal/ports/httpapi/storm.go:77-96 | the window rolls, counts and blocks for the recorded kind and no other |
| `Storm.Breakers.Reset` | internal/ports/httpapi/storm.go:98-102 | forgets one kind and no other |
| `Storm.WindowIsSuffix` | internal/ports/httpapi/storm.go:77-96 | the counted records are the last ones of the trace, all within one window of its start |
| `Storm.BlockIsSetByBurst` | internal/ports/httpapi/storm.go:77-96 | a standing block was set by `limit` records since the last reset inside one window |
| `Storm.BlockedMeansBurst` | internal/adapters/relay/client.go:798-841 | blocked at t implies `limit` records since the last reset within one window that ends less than `block` before t |
| `Storm.CountedRecordsBlock` | internal/ports/httpapi/storm.go:83-95 | a window that opens and then gets `limit` records sets a block with the last of them |
| `Storm.BurstBlocks` | internal/adapters/relay/client.go:806-822 | any max(1, 2*limit - 2) records in one window-long span without a reset set a block, wherever the windows happened to start |
| `Storm.EnoughIsLeast` | internal/ports/httpapi/storm.go:77-96 | one record fewer is not enough: a trace with that many in one span is never blocked |
| `Admission.ConclusionsAgree` | internal/adapters/relay/client.go:451-546 | HTTP and relay turn the same directory outcome into the same verdict, reason, error code, event and breaker update; subject, attributes and groups only with success |
| `AdmissionSafety.LocalIsLawful` | internal/ports/httpapi/server.go:240-536 | every step of every request keeps its own invariant and moves slot, event and cache consistently with its program point |
| `AdmissionSafety.ApplyKeeps` | internal/adapters/relay/client.go:363-547 | the whole-state invariant survives every step: arrival, clock tick, or any request's next step |
| `AdmissionSafety.EveryRunIsSafe` | internal/ports/httpapi/server.go:240-595 | the invariant holds in every state of every interleaving from the start of the process |
| `AdmissionTheorems.SlotAccounting` | internal/ports/httpapi/server.go:767-778 | semaphore fill equals the requests between acquire and return, never above the limit; each exit gives back exactly what was taken |
| `AdmissionTheorems.OneAnswerOneEvent` | internal/ports/httpapi/server.go:240-595 | every finished request got exactly one answer and one audit event, and they agree |
| `AdmissionTheorems.MetricsCountRequests` | internal/ports/httpapi/server.go:590-595 | the HTTP counters sum to the requests that were answered |
| `AdmissionTheorems.AdmissionsAreApart` | internal/adapters/relay/client.go:407-421 | both transports: of two requests with the same replay key the later one is admitted more than the ttl after the clock reading of the earlier one's accepting `Remember` body |
| `AdmissionTheorems.ReplayKeyHasParts` | internal/adapters/relay/client.go:582-584 | a replay key is connector, key id, request id and nonce over HTTP, tenant, connector and request id on the relay, joined by colons; parts without colons are determined by it |
| `AdmissionTheorems.ReadingFollowsCheck` | internal/ports/httpapi/server.go:807-810 | that reading is taken after the timestamp check, which over HTTP was within the skew |
| `AdmissionTheorems.AtMostOnce` | internal/adapters/hmac/verifier.go:93-95 | of all requests with equal connector, key id, request id, nonce and timestamp at most one is admitted, if each `Remember` body runs within ttl - 2*skew of its timestamp check |
| `AdmissionTheorems.LateBodyIsAdmittedAgain` | internal/ports/httpapi/server.go:807-810 | that bound is exact: a run in which a body is one nanosecond later admits the same request twice |
| `AdmissionTheorems.BlockedStep` | internal/ports/httpapi/storm.go:77-96 | a step keeps a block in place up to `block` after a reading, unless a verdict clears it or an older failure is recorded |
| `AdmissionTheorems.OpenStep` | internal/ports/httpapi/server.go:407-484 | while the directory breaker is open no step starts a directory call, and a recorded failure uses up a call that was already past the gate |
| `AdmissionTheorems.OpenBreakerHolds` | internal/adapters/relay/client.go:440-497 | the same over any span through which the breaker is open, however often failures push the block out, with the number of failures bounded by the calls in flight |
| `AdmissionTheorems.BreakerBoundsFailures` | internal/ports/httpapi/server.go:330-350 | after a recorded failure, until the block lapses or a verdict clears it and however often it is pushed out, no call starts and at most limit - 1 further failures are recorded |
| `AdmissionTheorems.TrippedBreakerStands` | internal/ports/httpapi/storm.go:77-96 | the block that a failure sets does stand for its whole time when no verdict clears it and readings are in lock order |
| `Storm.StaysBlocked` | internal/ports/httpapi/storm.go:77-96 | records after a block was set only push it further out |
| `Storm.BurstHolds` | internal/ports/httpapi/storm.go:64-96 | after such a burst the breaker is blocked for at least `block` from its first record |
| `AdmissionStorms.BreakerIsTrace` | internal/ports/httpapi/server.go:780-795 | in every run the state of each breaker is what its own records and resets make of it |
| `AdmissionStorms.TurnedAwayMeansBurst` | internal/ports/httpapi/server.go:293-308 | a request is turned away with a storm code only after `limit` records since the last reset inside one window, the last less than `block` ago |
| `AdmissionStorms.BurstTurnsAway` | internal/ports/httpapi/server.go:293-308 | after a burst every request at the gate is turned away |
| `AdmissionStorms.EveryOffenceIsRecordedOnce` | internal/ports/httpapi/server.go:309-484 | each breaker has recorded every offence of its kind on its connector once, and nothing else: replays, malformed requests, failed directory calls |
| `AdmissionStorms.NotedMeansOffence` | internal/ports/httpapi/server.go:780-795 | nothing reaches a breaker but the offences and verdicts of the requests themselves |
| `AdmissionStorms.HmacFailuresAreNotRecorded` | internal/ports/httpapi/server.go:259-292 | no step of a request that fails verification changes any breaker, in any run |
| `AdmissionStorms.VerdictClearsBreaker` | internal/ports/httpapi/server.go:484-484 | a returned verdict clears its connector's directory breaker and no other |
| `AdmissionVerdicts.VerdictsComeFromTheDirectory` | internal/ports/httpapi/server.go:428-536 | a finished request's answer and event are the conclusion from what the directory returned to it; without that it was refused |
| `AdmissionVerdicts.RateLimitedMeansFull` | internal/ports/httpapi/server.go:767-778 | a request is rate limited exactly when `limit` other requests hold the slots |
| `AdmissionVerdicts.ReplayRefusalIsJustified` | internal/adapters/relay/client.go:407-421 | a request is refused as a replay only if its key was accepted before and has not expired |
| `AdmissionVerdicts.EveryRequestEnds` | internal/ports/httpapi/server.go:240-536 | in every interleaving a request is done after at most fifteen of its own steps |
| `AdmissionVerdicts.CallsComeAfterChecks` | internal/ports/httpapi/server.go:381-406 | a request reaches the directory only after its replay key was accepted and, over HTTP, only with a well-formed body that repeats tenant, connector and request id |
| `AdmissionVerdicts.BodyDecides` | internal/ports/httpapi/server.go:367-406 | in every run a request passes the body check iff its body is well formed and repeats tenant, connector and request id; otherwise it is answered malformed_request or tenant_connector_mismatch |
| `AdmissionAnswers.ConclusionTells` | internal/ports/httpapi/server.go:428-536 | the answer and event to each directory outcome, by the fields of the outcome: codes, verdicts, reasons, and what is released |
| `AdmissionAnswers.AnswersAreRuled` | internal/ports/httpapi/server.go:240-536 | every step of every undecided request in every run gives the answer and event that a table over its fields and the shared state names, and nothing otherwise |
| `AdmissionAnswers.HonestRequestIsAnswered` | internal/ports/httpapi/server.go:240-536 | from any state, a timely verified request with an unused key, a free slot, quiet breakers and a fitting body reaches the directory and is told exactly what the directory says; likewise on the relay |
| `EndToEnd.OneSignatureOneAdmission` | internal/ports/httpapi/server.go:259-330 | two requests that verify under one signature are not both admitted promptly, whatever else differs between them, unless their texts are a collision of the keyed hash or they spell the same identifiers with different white space |
| `EndToEnd.TwoSpellingsTwoAdmissions` | internal/adapters/hmac/verifier.go:250-285 | the second exception is real: any accepted request whose request id has another spelling has a twin under the same signature, and both are admitted in some run |
| `EndToEnd.SpacedRequestIdIsAdmittedTwice` | internal/adapters/hmac/verifier.go:283-285 | for instance one with one space and one with two |
| `EndToEnd.OneSignatureOneCall` | internal/ports/httpapi/server.go:259-428 | at most one request per signature reaches the directory, however its identifiers are spelled, unless the keyed hash collides on the signed texts or secrets, or the body hash does |
| `LdapSession.IdlePool.Get` | internal/adapters/ldap/client.go:428-435 | hands out each parked connection once, the one that has waited longest first, and none only when all are out |
| `LdapSession.IdlePool.Put` | internal/adapters/ldap/client.go:437-444 | takes a connection in exactly when fewer than the capacity are parked and not yet taken, and never loses or reorders one |
| `LdapSafety.PoolIsQueue` | internal/adapters/ldap/client.go:383-404 | in every run of every session the idle list is what was parked and not yet taken, in that order, and never above max_idle |
| `LdapSafety.ReusableIsParkedIfRoom` | internal/adapters/ldap/client.go:396-404 | a connection goes back exactly when it may be reused and there is room, and is closed otherwise |
| `LdapSession.Normalize` | internal/adapters/ldap/client.go:1061-1127 | no failed exchange becomes a missing or ambiguous user, and only result code 49 becomes a credential verdict |
| `LdapSession.CredentialVerdict` | internal/adapters/ldap/client.go:1090-1105 | yields failure or policy_required, never success |
| `LdapSafety.ActIsOrderly` | internal/adapters/ldap/client.go:144-266 | every step acts only on connections its session holds, searches only under the service bind, and parks only service-bound connections |
| `LdapSafety.ConservedAfter` | internal/adapters/ldap/client.go:383-444 | opening, taking, re-binding, parking and closing each keep every connection in exactly one place |
| `LdapSafety.ActIsSound` | internal/adapters/ldap/client.go:42-243 | every step of all lookup modes keeps the evidence for the verdict it leads to |
| `LdapSafety.EveryRunIsSafe` | internal/adapters/ldap/client.go:42-444 | all of this in every state of every interleaving of checks and tests |
| `LdapSafety.SearchesRunAsService` | internal/adapters/ldap/client.go:245-253 | every search of every run, referral and group searches included, goes out on a connection bound as the service account |
| `LdapSafety.ConnectionsAreConserved` | internal/adapters/ldap/client.go:383-444 | each opened connection is held by one session, idle once, or closed; at most max_idle idle, all service-bound; a finished session holds none |
| `LdapSafety.VerdictsAreSound` | internal/adapters/ldap/client.go:144-243 | success means an accepted bind with the non-empty password under the mode's name, with a unique match in the search modes; a refusal means empty password, rejected user name, no or several matches, or code 49 on the user bind |
| `LdapRefusals.RefusalsAreGiven` | internal/adapters/ldap/client.go:144-243 | the converse in every run: an empty password, a rejected user name, a user search with no or several matches, or code 49 on the user bind is answered with the refusal that belongs to it, never with an error |
| `LdapProgress.StepAdvances` | internal/adapters/ldap/client.go:144-243 | whatever the directory replies, each step keeps the check on its way to the answer due and closer to its end, in all lookup modes |
| `LdapProgress.DirectoryDecides` | internal/adapters/ldap/client.go:144-330 | in every interleaving a check ends within thirteen of its own steps with the answer that a function of the directory's replies gives: verdicts, refusals, and the error of each fault |
| `LdapTesting.DirectoryDecidesTest` | internal/adapters/ldap/client.go:42-142 | the same for connection tests, within twelve steps: the password is reported good only when it was tried and accepted |
| `LdapSteps.FaultsByError` | internal/adapters/ldap/client.go:1061-1127 | which fault is reported as which error, both directions, Active Directory codes included |
| `LdapSteps.DialFailureIsReported` | internal/adapters/ldap/client.go:361-381 | a failed dial is a TLS error or an unavailable directory |
| `LdapSteps.PoolServes` | internal/adapters/ldap/client.go:383-394 | whoever finds a connection idle gets it, except tests without certificate checks |
| `LdapSteps.ServiceBindsBind` | internal/adapters/ldap/client.go:245-253 | a service bind makes the connection the service's if accepted and anonymous if refused (section 4 of RFC 4513) |
| `LdapSteps.UserBindBinds` | internal/adapters/ldap/client.go:255-266 | a user bind makes it the user's if accepted and anonymous if refused, and is the bind that was asked for |
| `LdapSteps.ReferralNeedsPolicy` | internal/adapters/ldap/client.go:531-533 | without the policy a referral fails the search with a referral error and ends a group lookup |
| `LdapSteps.ReferralCanFail` | internal/adapters/ldap/client.go:614-650 | every way in which a followed referral fails, with its error |
| `LdapSteps.ReferralIsSettled` | internal/adapters/ldap/client.go:536-542 | its connection is closed; a failure fails the search, a group lookup goes on without |
| `LdapNames.BindNames` | internal/adapters/ldap/client.go:70-90 | in `search_then_bind` mode a check binds with the DN of the entry and a test with its subject id; the two agree iff the entry has no subject value or it is the DN |
| `LdapNames.TestBindsSubject` | internal/adapters/ldap/client.go:79-90 | a run of a test on an entry with another subject value, which binds with that value |
| `GroupSearch.Bfs` | internal/adapters/ldap/client.go:931-968 | exactly the capped reference when no search fails; when one does, exactly the groups listed by the members searched before; the members searched are the user and the groups found, in that order |
| `GroupSearch.Absorb` | internal/adapters/ldap/client.go:948-965 | the inner loop adds the unseen entries in order and stops at the cap |
| `GroupSearch.TruncationHidesNothing` | internal/adapters/ldap/client.go:998-1001 | truncating a search to max_groups loses no group that the cap would not have cut off anyway |
| `GroupSearch.LevelIsShortest` | internal/adapters/ldap/client.go:938-965 | a level of the search is exactly the groups whose shortest distance is its depth |
| `GroupSearch.DeadEnd` | internal/adapters/ldap/client.go:940-942 | once a level is empty nothing lies further out, cycles or not |
| `GroupSearch.UncappedIsExact` | internal/adapters/ldap/client.go:931-968 | distinct groups, nearest first, depth equal to shortest distance, and all groups within max_depth |
| `GroupSearch.LookupIsExact` | internal/adapters/ldap/client.go:931-1002 | the same for whatever came back, cut short or not, and completeness when it stayed below the cap |
| `GroupFacts.FactDescribes` | internal/adapters/ldap/client.go:1016-1043 | a fact's id is the first value of the id attribute or else the DN, its display name the first display value or else the id |
| `GroupFacts.FactsComeFromEntries` | internal/adapters/ldap/client.go:948-955 | every fact of a lookup, cut short or not, describes an entry that the search for the user or for a found group listed |
| `GroupSearch.CapIsPrefix` | internal/adapters/ldap/client.go:938-965 | the result under a smaller cap is a prefix of the result under a larger one |
| `PagedSearch.WithoutPagingControl` | internal/adapters/ldap/client.go:600-612 | keeps the other controls in order |
| `PagedSearch.CookieIsOffered` | internal/adapters/ldap/client.go:588-596 | the loop goes on with a cookie iff the first control of the paging type carries it and it is not empty |
| `PagedSearch.EndsWithoutCookie` | internal/adapters/ldap/client.go:584-595 | no request follows a reply iff it failed, brought no page, or offers no cookie |
| `PagedSearch.CookieIsPassedOn` | internal/adapters/ldap/client.go:596-596 | each request after the first carries the cookie that the reply before offered |
| `PagedSearch.SearchWithPagingLimit` | internal/adapters/ldap/client.go:563-598 | the answer and the exact sequence of requests sent: one paging control each, empty cookie first, then the cookie of the reply before; the request ends up holding a new control |
| `PagedSearch.AnswerIsConcatenation` | internal/adapters/ldap/client.go:570-597 | for every server behaviour the answer is the concatenation of the pages with the last reply's error, or its first max_entries with an error |
| `PagedSearch.PagingRefinesOneSearch` | internal/adapters/ldap/client.go:563-598 | however a list is cut into pages the loop returns the list, or an error with exactly its first max_entries (section 3 of RFC 2696) |
| `PagedSearch.EveryPageIsFetched` | internal/adapters/ldap/client.go:570-597 | a list that fits is fetched with one request a page |
| `PagedSearch.AsksNoMoreThanNeeded` | internal/adapters/ldap/client.go:577-595 | no request follows a reply that ends the exchange or goes over the limit |
| `Referrals.AllowedReferral` | internal/adapters/ldap/client.go:668-702 | a referral is followed iff its scheme fits and some allowlisted URL of that scheme has the same host in any case |
| `Referrals.UsableUrls` | internal/adapters/ldap/client.go:692-697 | the scheme is `ldap` with StartTLS and `ldaps` without, and there must be a host |
| `Referrals.BaseOfPath` | internal/adapters/ldap/client.go:679-685 | the search base is the path without one leading slash, unescaped where possible |
| `Referrals.SearchOnce` | internal/adapters/ldap/client.go:545-561 | paged or plain, the answer and the requests sent |
| `Referrals.TryReferral` | internal/adapters/ldap/client.go:617-645 | one hop: its outcome, and the requests its server sees although the copied request shares control objects with the original |
| `Referrals.FollowReferrals` | internal/adapters/ldap/client.go:614-650 | all hops in order, the first failure ends them, each server sees a fresh exchange, and no existing object is changed |
| `Referrals.ReferralsStartAfresh` | internal/adapters/ldap/client.go:652-666 | every paged referral search starts with exactly one paging control and an empty cookie |
| `Referrals.Search` | internal/adapters/ldap/client.go:524-543 | the whole search: own answer, policy, hops, and the requests on every connection |
| `Referrals.SearchIsOwnThenTargets` | internal/adapters/ldap/client.go:524-543 | it succeeds iff the policy allows it and every target is allowlisted, reachable, bound and refers no further; the entries are its own, then each target's in order |
| `Referrals.PagingIsInvisible` | internal/adapters/ldap/client.go:524-650 | with lists within the limit, servers that page and servers that do not give the same entries, referrals and error |
| `Attributes.RequestedAttributes` | internal/adapters/ldap/client.go:781-804 | the duplicate-free intersection in order of first request |
| `Attributes.OrderedListIsUnique` | internal/adapters/ldap/client.go:781-804 | that description fits one list only |
| `Attributes.SearchAttributes` | internal/adapters/ldap/client.go:806-822 | asks for the permitted names, the subject attribute and, with groups wanted, the member attribute, each once |
| `Attributes.EntryAttributes` | internal/adapters/ldap/client.go:868-884 | the exact map released: no empty values, and the member values under the group name |
| `Attributes.ReleasedIffPermitted` | internal/adapters/ldap/client.go:868-884 | a name can be released iff it was requested and is on the allowlist or is the group attribute with groups on |
| `Attributes.SubjectIsFirstGiven` | internal/adapters/ldap/client.go:841-861 | the subject comes from the first attribute of that name, in any case, with a value: bytes for a binary object id, text otherwise |
| `Attributes.NobodyGivesSubject` | internal/adapters/ldap/client.go:841-861 | and is empty when there is none |
| `Attributes.SubjectReadsOnlyAsked` | internal/adapters/ldap/client.go:841-861 | the subject value does not depend on attributes that were not asked for |
| `Attributes.ResponseReadsOnlyAsked` | internal/adapters/ldap/client.go:806-884 | nor does the response, iff the member attribute has a name, or groups are not wanted, or the empty name is itself requested and allowed |
| `Query.UnescapeEscape` | internal/adapters/hmac/verifier.go:308-308 | percent-encoding can be undone (section 2.1 of RFC 3986) |
| `Query.EscapedBytes` | internal/adapters/hmac/verifier.go:308-308 | blank, unreserved and other bytes are printed as plus sign, themselves, and upper-case percent escapes |
| `Query.CanonicalQuery` | internal/adapters/hmac/verifier.go:293-312 | the loops over a map in any order print the one canonical line |
| `Query.PairsAreRecovered` | internal/adapters/hmac/verifier.go:308-311 | equal lines come from equal key-value pairs in equal order |
| `Query.LineIsRead` | internal/adapters/hmac/verifier.go:293-312 | a reader recovers the pairs, keys in bytewise order and each key's values in bytewise order |
| `Query.LineIsNormalForm` | internal/adapters/hmac/verifier.go:293-312 | two query maps print the same iff they have the same keys and the same multiset of values per key |
| `Text.LeqIsBytewise` | internal/adapters/hmac/verifier.go:301-306 | the order of sorting: a prefix first, otherwise the first byte that differs |
| `Canonical.ParseSignedHeaders` | internal/adapters/hmac/verifier.go:190-207 | the sorted list of the distinct lower-case trimmed names |
| `Canonical.SignedHeadersAreNormalForm` | internal/adapters/hmac/verifier.go:190-207 | strictly increasing, determined by and determining the set of names, and a fixed point of join-then-parse |
| `Canonical.NormalizedIsOneLine` | internal/adapters/hmac/verifier.go:283-285 | a normalised header value has no line feed, whatever came in |
| `Canonical.SignableHeaders` | internal/adapters/hmac/verifier.go:253-281 | which headers can be signed, with which value, and which error the others give |
| `Canonical.CanonicalHeaders` | internal/adapters/hmac/verifier.go:250-281 | one line per signed header, or the error of the first bad one |
| `Canonical.CanonicalRequest` | internal/adapters/hmac/verifier.go:230-248 | prints exactly what the request presents for signing |
| `Canonical.RoundTrip` | internal/adapters/hmac/verifier.go:230-285 | a parser recovers timestamp, nonce, method, path, query line, every header with its value, and body hash |
| `Canonical.EqualTextsCoverTheSame` | internal/adapters/hmac/verifier.go:190-312 | two requests have equal canonical texts iff they present the same of everything |
| `Verifier.ContainsAll` | internal/adapters/hmac/verifier.go:209-228 | true iff every required header is signed |
| `Verifier.RequiredNamesAre` | internal/adapters/hmac/verifier.go:210-217 | the six headers every signature must cover |
| `Verifier.Verify` | internal/adapters/hmac/verifier.go:77-188 | accepts or rejects with the first failing check's error |
| `Verifier.BrokenEnvelope` | internal/adapters/hmac/verifier.go:140-168 | the first header that does not occur once decides the error |
| `Verifier.CompleteEnvelope` | internal/adapters/hmac/verifier.go:170-181 | if all occur once, any blank one is missing, and otherwise each field is its trimmed header |
| `Verifier.KnownKeyIsFound` | internal/adapters/hmac/verifier.go:120-128 | the active key is found, the previous one under another id, and no other |
| `Verifier.IdentifiersAreSigned` | internal/adapters/hmac/verifier.go:177-188 | the identifiers handed on are those that were signed, up to white space |
| `Verifier.SignatureBindsRequest` | internal/adapters/hmac/verifier.go:77-118 | two accepted requests with one signature present the same method, path, query, body hash, signed headers, timestamp and nonce, and the same identifiers up to white space, or their texts are a collision of the keyed hash |
| `Verifier.FieldsSplit` | internal/adapters/hmac/verifier.go:283-285 | white space separates the fields of a header value and nothing else does |
| `Verifier.SignedFormDetermines` | internal/adapters/hmac/verifier.go:283-285 | the signed form of a trimmed identifier determines it iff it has no white space inside |
| `Verifier.RespelledRequestIsAccepted` | internal/adapters/hmac/verifier.go:140-188 | a request accepted with a request id that has another spelling is accepted with that spelling under the same signature |
| `Verifier.SignedRequestIsAccepted` | internal/adapters/hmac/verifier.go:77-188 | a timely request with the required headers, signed with the active or the previous key, is accepted with the identifiers it carries |
| `Verifier.AcceptedIsSignedWithKnownKey` | internal/adapters/hmac/verifier.go:97-108 | whatever is accepted names one of these keys and was signed with its secret |
| `Metrics.Store.Record` | internal/ports/httpapi/server.go:697-718 | the event's counter goes up by one, or the overflow counter when the store is full and the labels are new |
| `Metrics.LabelKeepsPlain` | internal/ports/httpapi/server.go:720-734 | labels of 1 to 128 letters, digits, underscores, hyphens and dots are kept, empty ones replaced, others invalid |
| `Metrics.KeyHasTheEventsLabels` | internal/ports/httpapi/server.go:697-705 | each label comes from its own field of the event |
| `Metrics.Store.Prometheus` | internal/ports/httpapi/server.go:736-761 | lists every counter once with its value, in key order |
| `Metrics.TotalIsEvents` | internal/ports/httpapi/server.go:697-718 | over any trace the counters sum to the number of events |
| `Metrics.CountersAreExact` | internal/ports/httpapi/server.go:697-718 | at most 4097 counters; an admitted one counts exactly the events with its labels; labels are turned away only when the store is full |
| `Metrics.SortKeyIsInjective` | internal/ports/httpapi/server.go:763-765 | different printable keys sort differently |
| `Metrics.SortKeyHasFieldsInOrder` | internal/ports/httpapi/server.go:763-765 | counters are ordered by event type, tenant, connector, result and error code |
| `Metrics.StoredKeysArePrintable` | internal/ports/httpapi/server.go:720-734 | every stored key is printable |
| `Metrics.ListingIsUnique` | internal/ports/httpapi/server.go:736-761 | the printed order does not depend on map iteration |
| `Versions.VersionParts` | internal/app/command.go:614-624 | the numbers of the parts before the first hyphen, 0 where there is none or it overflows |
| `Versions.NumberIsRead` | internal/app/command.go:619-621 | a part is read up to where its number ends, blanks and a plus sign aside; a number that does not fit is 0 |
| `Versions.NoNumberIsZero` | internal/app/command.go:619-621 | a part without a leading number is 0 |
| `Versions.PrintedVersionIsRead` | internal/app/command.go:614-624 | a printed dotted version is read back as its numbers, whatever pre-release suffix follows |
| `Versions.CompareVersions` | internal/app/command.go:588-612 | the sign of the lexicographic order on lists padded with zeros for ever |
| `Versions.Trichotomy` | internal/app/command.go:588-612 | exactly one of less, greater and the same |
| `Versions.AtMostIsTotalPreorder` | internal/app/command.go:588-612 | total, transitive, and mutual exactly for the same version |
| `Versions.SameIsEqualWithoutZeros` | internal/app/command.go:594-611 | the comparison gives 0 iff the part lists agree without trailing zeros |
| `Versions.AdvisoryVersionMatches` | internal/app/command.go:554-582 | wildcard, exact text, operator with bound, or prefix pattern, in that order |
| `Versions.NormalVersion` | internal/app/command.go:584-586 | white space around a version and one leading `v` do not matter |
| `Versions.AdvisoryAffectsVersion` | internal/app/command.go:544-552 | true iff there is a pattern of the advisory that matches |
| `Versions.BoundMatches` | internal/app/command.go:563-577 | an operator pattern asks for a sign of the comparison and nothing else |
| `Versions.BoundsMean` | internal/app/command.go:563-577 | each of the four operators is its own relation of the order |
| `Versions.OppositeBounds` | internal/app/command.go:554-582 | `<v` and `>=v` match complementary sets, and so do `<=v` and `>v` |
| `Versions.BoundsNest` | internal/app/command.go:554-582 | a lower bound matches everything a higher one does, and conversely for upper bounds, for all four operators and bounds in any notation |

## Left out

- TLS, certificates, dialling details and the insecure diagnostic flag's effect on a connection; a dial either gives a connection or fails.
- SHA-256, HMAC, base64 (binary subject values), RFC 3339 parsing, URL parsing and unescaping: functions given from outside. Nothing is assumed of the keyed hash: where two texts could collide the result says so.
- JSON decoding and the JSON and HTTP shape of answers; a body is well formed or not, and carries three identifiers.
- WebSocket traffic, relay authentication, heartbeats, back-off and signal handling.
- User-name preprocessing (Unicode normalisation): a function that gives a name or rejects it.
- Configuration defaults and validation outside the storm policy and the concurrency limit.
- Unicode white space and case in header names, header values, hosts and version strings; the code's functions are modelled on ASCII.
- The difference between monotonic and wall clock; the machine has one clock that does not go back.
- Counters beyond 2^64 in the metrics store; counters are unbounded.
- Injectivity of the replay key for identifiers with colons; the guarantees need only that equal identifiers give equal keys.
- Header connector ids with blanks around them: the admission machine has one connector id where the code compares the raw and the trimmed one.
- Attribute values and group facts inside the results of `LdapSession`; they are the subject of `Attributes` and `GroupSearch`.
- Time limits carried in search requests; a paged search may find the deadline passed before it starts.
- Servers that hand out cookies for ever: a connection's replies are a finite list of any length, after which it is closed.
- `TestConnection`'s report beyond the password outcome and the error.
- Diagnostics bundle, doctor report, instance id, secrets resolution, deployment files.
- LdapProgress.DirectoryDecides: for a directory that can be dialled and sends no referrals; failed dials and referrals are in `LdapSteps`, step by step.
- The two group strategies other than the breadth-first search, which make one search or none.
- Versions.OppositeBounds: for bounds that do not start with `=` and current versions that do not start with `<` or `>`, which includes all that start with a digit; `<` followed by `=v` is the operator `<=`.
- GroupSearch.Bfs: assumes that one search lists an entry once.
- EndToEnd.OneSignatureOneCall: for key sets that do not configure one secret under two spellings of one key id, which the configuration does not check.
