# Verified models of the brokerops core

BrokerOps runs a brokerage's back office: it drafts and sends messages to clients, tracks
escrow deadlines, and keeps every tenant's data apart. This project models the parts of it
where a mistake would be hard to see by reading one function, and proves what they promise
over whole runs, with Dafny 4.11. `dafny verify dfyconfig.toml` checks all of it.

## What is modelled

**The browser session** (`AuthSession.dfy`). The module variables of `frontend/src/auth.ts`
as a class, one method per stretch of code between two awaits; and a machine in which any
number of requests and refreshes, suspended at those awaits, interleave with logins and
sign-outs. Each token carries the generation it was issued for as a history annotation.

**The outbound write seam** (`Messages.dfy`, `OutboundPort.dfy`). Claim the key, call the
provider, write the ledger, complete the key: as a class with three stores, and as a machine
in which any number of callers interleave and may crash at each await, with the in-memory or
the SQL claim. The provider is an append-only log that accepts messages under fresh,
non-empty ids and may also accept and still fail the caller, as may the call that completes a
key. The SHA-256 key is taken to be injective in (run, tool, semantic arguments).

**The message lifecycle** (`MessageSend.dfy`, `MessageLifecycle.dfy`, `LifecycleRuns.dfy`).
`MessageSendService`, the message store, the delivery webhook and the retry route as classes and
methods; and a machine in which one send operation at a time (the assumption the source states for
node replays) runs over that seam, may crash anywhere, and delivery callbacks are looked up and
applied at any moment, the lookup and the update being two separate steps, as in the webhook. The
sequential methods are proved to be runs of the machine.

**The tool seam** (`Reachability.dfy`, `TypeShapes.dfy`, `TenantWalk.dfy`,
`TenantSurface.dfy`, `Roles.dfy`, `EgressScrub.dfy`). The runtime tenant walker over object
graphs with sharing and cycles, the static detectors over recursive type tables, the exact
condition under which the two agree, the argument guard, and the egress scrub. The
secret patterns are one abstract function on text. The theorems that need it assume that it
leaves the empty text and the two redaction markers alone and never produces empty text
(`LeavesMarkers`); only `ScrubTwice` also assumes that it is idempotent.

**The tenant-confined stores** (`ScopedStores.dfy`, `Listings.dfy`, `StoreSecrecy.dfy`). The scoped
wrappers over the in-memory message, feedback, document and transaction stores, with their ledger of
denied attempts; the order in which listings show rows; and what a tenant can learn through them.
The route that opens a transaction, over those stores and the guard around them, as a method and as
a machine in which any number of requests of any tenants interleave (`StoredTerms.dfy`,
`OpenRoute.dfy`).

**Self-contained algorithms.** Session tokens, refresh chains and magic links
(`SessionTokens.dfy`), the chunked secret scan (`SecretScan.dfy`), a freshly opened transaction
and its timeline (`OpenTransaction.dfy`), and the deadline queue (`DeadlineQueue.dfy`).

## Where the code falls short of a stated promise

Each of these has a lemma with a concrete run or input, and one that says exactly when the
promise holds, as an if-and-only-if.

- A replayed request may carry another session's token. The comment at
  `frontend/src/auth.ts:233-236` says an old request is never run under a new session's
  credentials, but nothing is re-checked between the refresh settling and the second send
  (`frontend/src/auth.ts:240-241`): `ReplayCanCrossSessions`, `ReplayStaysInSession`. In a browser
  only a login made by a promise reaction already queued there can fall into that window.
- The delivery webhook looks a row up and advances it in two awaits. If a `failed` callback
  and a same-run replay fall between them, a late success marks a row that no longer holds a
  provider id (`StaleCallbackLosesTheId`; exactly the sent rows that hold one are backed,
  `SentRowsAreBacked`), and the replay's own save may then overwrite the DELIVERED row
  (`DeliveredCanRegress`; a row is kept over every run exactly when no send of it is past its
  status check, `TerminalForever`). If a retry sends the row again in between, the late success
  marks it DELIVERED under an id it was never reported for (`DeliveryOfAnotherSend`); exactly when
  applying a callback does so is `ApplyKeepsReportIff`.
- A list of strings under a model field named `…_tenant_id` is extracted at run time and is
  invisible to the static detector, although `accepts_tenant_bearing_param` is documented as
  the same surface: `UnconventionalFieldDiverges`. The two agree on a parameter exactly when it
  is flagged anyway or no such field is reachable from its annotation: `CoveredIff`.
- A lookup by provider id tells a tenant whether another tenant's row holds that id, by the
  ledger line it causes, and may hide the tenant's own row behind it: `ProviderIdLeaks`,
  `ProviderIdHidesOwnRow`; exactly when, `LookupLeaksIff`.
- The message listing is cut to its limit before other tenants' rows are dropped
  (`api/src/brokerops_api/db.py:729-743`, `core/src/brokerops_core/services/scoped_stores.py:244-252`),
  so how many of its own rows a tenant is shown tells it when other tenants' messages were created,
  and a page may come back empty that should hold its newest message: `ListLimitLeaks`; exactly
  when, `ListLeaksIff` and `ShownIff`.
- These two are all a run of its calls can tell a tenant about other tenants' contents: for a given
  run `RunDoesNotLeak`, and over all runs `SecretIff`.
- The re-read after a lost create is expected to find the winner, and does not when another
  tenant holds the listing's id: `ForeignWinnerIsHidden`, `LostFindsWinnerIff`.
- An identical repeat of an open is expected to be a replay, and different terms a conflict, but the
  stored terms reach the comparison scrubbed (`api/src/brokerops_api/main.py:169-172`), so a party
  named by secret-shaped text gets a 201 and then a 409, and asking for the redacted name a 200:
  `SecretShapedParty`; exactly when, `RepeatIsReplayedIff` and `ScrubbedReadDecidesIff`.
- An operator taken off the allowlist is to lose access within one access lifetime, counted in the
  model from the check a token rests on. The token is issued by a later reading of the clock than
  that check, so it may be accepted longer: `CheckCanBeOld`, `CheckIsRecentIff`.
- The chunked scan keeps 128 bytes, so it may miss an occurrence of 130 or more:
  `LongOccurrenceMissed`, `ReportedIff`.

## Model

| member | source | states |
|---|---|---|
| `AuthSession.AuthModule.SetToken` | frontend/src/auth.ts:29-33 | the variable and its stored copy change together; an empty token is stored as none |
| `AuthSession.AuthModule.SetRefreshToken` | frontend/src/auth.ts:35-39 | the same for the refresh token |
| `AuthSession.AuthModule.SetSession` | frontend/src/auth.ts:44-48 | a login replaces both credentials, starts a new generation, and leaves the in-flight entry alone |
| `AuthSession.AuthModule.ClearSession` | frontend/src/auth.ts:50-59 | a sign-out empties both credentials and starts a new generation |
| `AuthSession.AuthModule.SetAccessOnlySession` | frontend/src/auth.ts:64-69 | a Google login leaves no refresh token and starts a new generation |
| `AuthSession.AuthModule.RefreshSession` | frontend/src/auth.ts:170-178 | callers of one generation share one refresh; without a refresh token the answer is already false |
| `AuthSession.AuthModule.ClearOwnEntry` | frontend/src/auth.ts:198-203 | only the finishing refresh's own generation is cleared from the in-flight entry |
| `AuthSession.AuthModule.OnRefreshAnswer` | frontend/src/auth.ts:180-190 | an answer for an ended session, or a refusal, settles false and installs nothing |
| `AuthSession.AuthModule.OnRefreshBody` | frontend/src/auth.ts:191-195 | the new token is installed only if the session is still the one the refresh began under |
| `AuthSession.AuthModule.Finish` | frontend/src/auth.ts:243-249 | a final 401 tears down, and reports, only the session the request acted for |
| `AuthSession.InvStep` | frontend/src/auth.ts:170-250 | every step of every interleaving keeps the session invariant, and generations never go back |
| `AuthSession.InvRun` | frontend/src/auth.ts:170-250 | so does every run |
| `AuthSession.SessionIsolation` | frontend/src/auth.ts:18-23 | after any run from a page load the stored access and refresh tokens belong to the current session, and at most one refresh is live per generation |
| `AuthSession.StaleRefreshDiscarded` | frontend/src/auth.ts:185-203 | a refresh begun under an ended session changes no credential and never removes another generation's in-flight entry |
| `AuthSession.NeverResurrected` | frontend/src/auth.ts:20-22 | over every run without a login a signed-out browser stays signed out, in memory and in storage |
| `AuthSession.HandlerOncePerSession` | frontend/src/auth.ts:243-248 | over a whole run the unauthorized handler fires at most once per generation, however many 401s arrive together |
| `AuthSession.BearerOwner` | frontend/src/auth.ts:219-241 | whose token a request carries: its own session's on the first send; on the replay its own exactly if the generation had not moved |
| `AuthSession.ReplayStaysInSession` | frontend/src/auth.ts:240-241 | at the resumption, the replay stays in its session if and only if the generation is unchanged |
| `AuthSession.ReplayCanCrossSessions` | frontend/src/auth.ts:233-241 | a run in which session 1's request is replayed under session 2's token |
| `AuthSession.RefreshServesItsWaiters` | frontend/src/auth.ts:191-195 | a refresh of the current session installs its token without ending the session, and each request waiting on it is replayed under that token |
| `AuthSession.IncurableBurst` | frontend/src/auth.ts:240-248 | of two requests whose 401 nothing can cure, the first to resume ends the session and fires the handler and the other ends quietly |
| `AuthSession.SessionsBegin` | frontend/src/auth.ts:29-69 | a login installs exactly what it is given, a Google login no refresh token, a sign-out nothing; each in a new generation, with its stored copies, and touching no call under way |
| `AuthSession.OtherAnswersKeepTheSession` | frontend/src/auth.ts:240-249 | no answer but a 401, to the first send or the replay, ends a session or fires the handler |
| `AuthSession.SecondUnauthorized` | frontend/src/auth.ts:243-248 | a 401 to the replay signs out and fires the handler exactly when the session is still the one the request began under |
| `AuthSession.FirstUnauthorized` | frontend/src/auth.ts:234-240 | a first 401 is surfaced if the session has ended, and else waits on the refresh under way, starts one, or goes on without a refresh token |
| `AuthSession.RefreshGoesOn` | frontend/src/auth.ts:179-205 | refused, stale or thrown, a refresh settles false and installs nothing; of its own session it awaits the body and installs its token; either way it clears only its own generation's entry |
| `AuthSession.WaiterResumes` | frontend/src/auth.ts:240-248 | a waiting request is sent again, under the token of the moment, if its refresh settled true, and else ends with its 401 |
| `AuthSession.RequestIsSent` | frontend/src/auth.ts:219-233 | a request carries the token of the moment if it is not empty; when its fetch throws nothing else changes |
| `AuthSession.RefreshIsCalled` | frontend/src/auth.ts:170-178 | a refresh called from outside starts under the same conditions |
| `AuthSession.StrayAnswersAreIgnored` | frontend/src/auth.ts:170-250 | an answer reaches only the call that awaits it |
| `OutboundPort.WriteSeam.Begin` | api/src/brokerops_api/db.py:931-937 | the first claim of a key owns it; a later one learns whether it is pending or completed, and with which result |
| `OutboundPort.WriteSeam.SendRecorded` | core/src/brokerops_core/services/audit.py:294-310 | the provider is called once, and its success or failure is recorded after it unless the ledger itself raises |
| `OutboundPort.WriteSeam.Send` | core/src/brokerops_core/services/idempotency.py:240-247 | a completed key answers without a call, a pending one raises, a new one is called, recorded and completed, even if the completing call then fails its caller; outside a run nothing is deduplicated |
| `OutboundPort.WriteSeam.GuardedSend` | core/src/brokerops_core/services/tool_authz.py:179-200 | a call denied by the tenant guard leaves the key store and the provider log untouched and adds one security record; one let through answers with the scrubbed id, while the key and the ledger keep the id |
| `OutboundPort.InvStep` | core/src/brokerops_core/services/idempotency.py:91-109 | every step of any number of callers, crashes included, keeps the relation between keys, calls and records |
| `OutboundPort.AtMostOnce` | core/src/brokerops_core/services/idempotency.py:91-109 | over any run the provider is called at most once per (run, tool, arguments), and no key has two ledger records |
| `OutboundPort.SameResult` | core/src/brokerops_core/services/idempotency.py:240-247 | all callers of a key that return normally return the same id: that of its single call and its single SUCCESS record |
| `OutboundPort.CompletedIsFinal` | api/src/brokerops_api/db.py:913-923 | over every run a completed result never changes |
| `OutboundPort.WriteAhead` | core/src/brokerops_core/services/audit.py:304-310 | once a key reads as completed, exactly one call and one SUCCESS record naming the stored result are already there |
| `OutboundPort.UnkeyedReturn` | core/src/brokerops_core/services/idempotency.py:94-100 | outside a run a normal return still answers a provider call that carried exactly its message |
| `OutboundPort.AbandonedIsFrozen` | core/src/brokerops_core/services/idempotency.py:56-61 | once no caller holds a key, no replay on any schedule adds a call or a record for it, or changes its state |
| `OutboundPort.SqlClaimRefinesAtomic` | api/src/brokerops_api/db.py:890-911 | insert-then-read either is the atomic claim, or acts as the atomic claim made at the moment of its read |
| `OutboundPort.SendIsARun` | core/src/brokerops_core/services/idempotency.py:240-247 | the sequential send is one of the interleaved runs, so the theorems speak about it |
| `MessageSend.MessageStore.SaveMessage` | api/src/brokerops_api/db.py:715-716 | a save replaces exactly its own row |
| `MessageSend.MessageStore.GetByProviderId` | api/src/brokerops_api/db.py:721-727 | some row with that non-empty provider id, and nothing only if there is none; the empty id never matches |
| `MessageSend.MessageStore.AdvanceMessageStatus` | api/src/brokerops_api/db.py:745-756 | only a strictly higher rank is written, and only to the status |
| `MessageSend.DeliveryWebhook` | api/src/brokerops_api/routes/webhooks.py:110-128 | a callback is ignored exactly when its status maps to nothing or no row holds its id; otherwise it advances a row holding that id |
| `MessageSend.MessageSendService.ShipRow` | core/src/brokerops_core/services/message_send.py:249-268 | a send ends as SENT under the returned id, or as FAILED with the exception re-raised |
| `MessageSend.MessageSendService.SendDirect` | core/src/brokerops_core/services/message_send.py:207-268 | the scrubbed row is saved under its own dedupe key before the send; an already sent row is returned untouched |
| `MessageSend.MessageSendService.SendApproved` | core/src/brokerops_core/services/message_send.py:318-374 | only PENDING_APPROVAL and FAILED rows are sent, with exactly the edited and scrubbed text the row then shows; a blank edit is refused |
| `MessageSend.MessageSendService.MarkRejected` | core/src/brokerops_core/services/message_send.py:376-390 | only a pending row becomes REJECTED, and nothing is sent |
| `MessageSend.MessageSendService.DraftForApproval` | core/src/brokerops_core/services/message_send.py:274-316 | the first draft of a context within a run is kept, whatever the backend would write on a replay |
| `MessageSend.MessageSendService.RetryFailed` | api/src/brokerops_api/routes/messages.py:110-166 | a row that is not FAILED is refused with no effect; a FAILED one is re-sent unedited under a fresh run |
| `MessageSend.EditIsSent` | core/src/brokerops_core/services/message_send.py:346-374 | for a pending or failed row and a non-blank edit, the row and the one new provider call, if any, carry the edited subject and body, or the row's own where there is no edit, every text field scrubbed; the row ends SENT or FAILED |
| `MessageSend.ApprovalIsRefused` | core/src/brokerops_core/services/message_send.py:335-349 | a blank edit, an unknown row and a row in any other status are refused without effect |
| `MessageSend.DirectIsSent` | core/src/brokerops_core/services/message_send.py:207-268 | a direct send stores and sends the rendered text, scrubbed, without a subject on a channel that has none, inside a run under the key of exactly that text |
| `MessageSend.ShipEnds` | core/src/brokerops_core/services/message_send.py:249-268 | a send changes its own row only, calls the provider at most once with the row's content, and leaves SENT under the answered id or FAILED and raised |
| `MessageSend.DraftIdentity` | core/src/brokerops_core/services/message_send.py:69-80 | a draft's identity is its run and context, never what the backend wrote |
| `MessageSend.RejectionIsFinal` | core/src/brokerops_core/services/message_send.py:376-390 | a rejection changes a pending row's status and nothing else |
| `MessageSend.DirectReplay` | core/src/brokerops_core/services/message_send.py:235-268 | a same-run replay after the key was claimed never touches the seam: the row stays sent, recovers the original id as SENT, or ends FAILED, decided by the key |
| `LifecycleRuns.CrashThenReplay` | core/src/brokerops_core/services/message_send.py:235-268 | the same after a crash at any cut of any run; when SENT, the one call that was made carried exactly the row's content and id |
| `MessageSend.SqlAdvanceAgrees` | api/src/brokerops_api/db.py:687-708 | the conditional UPDATE and the in-memory rank check move every row alike |
| `MessageSend.CallbacksReachMaximum` | core/src/brokerops_core/models/message.py:44-58 | any batch of callbacks ends at the highest rank of the row and the batch, and touches only that row's status |
| `MessageSend.CallbackOrderIsIrrelevant` | api/src/brokerops_api/routes/webhooks.py:120-126 | two batches with the same statuses, in any order and repetition, reach the same rank |
| `MessageLifecycle.WorldInvStep` | core/src/brokerops_core/services/message_send.py:207-390 | every step of an operation, the port, a crash or any of the callbacks in flight keeps the row invariant |
| `MessageLifecycle.WorldInvRun` | core/src/brokerops_core/services/message_send.py:207-390 | so does every run |
| `MessageLifecycle.OperationsBegin` | core/src/brokerops_core/services/message_send.py:335-345 | an operation begins only if none is suspended, an approval only with a non-blank edit |
| `MessageLifecycle.CrashEndsTheOperation` | core/src/brokerops_core/services/message_send.py:248-268 | a crash ends the suspended operation and its port task and touches nothing else |
| `MessageLifecycle.SentRowsAreBacked` | core/src/brokerops_core/services/message_send.py:62-68 | over every run a SENT or DELIVERED row is backed, by a completed key and the single call with exactly its content, or outside a run by such a call, if and only if it holds a provider id; for a direct send that key is the row id |
| `MessageLifecycle.ApplyKeepsBackingIff` | api/src/brokerops_api/routes/webhooks.py:115-126 | applying a callback leaves a sent row without a provider id if and only if it reports success to a row without one |
| `MessageLifecycle.OthersKeepBacking` | core/src/brokerops_core/services/message_send.py:248-268 | no other step ever does |
| `MessageLifecycle.TerminalStep` | core/src/brokerops_core/services/message_send.py:240-247 | a REJECTED or DELIVERED row that no send is past checking is left alone by every step, and no send gets past checking it |
| `MessageLifecycle.TerminalForever` | core/src/brokerops_core/services/message_send.py:330-336 | a REJECTED or DELIVERED row is kept as it is over every run if and only if no send of it is past its status check |
| `MessageLifecycle.RejectedForever` | core/src/brokerops_core/services/message_send.py:335-345 | a rejected row never changes again, with no condition |
| `MessageLifecycle.SentStep` | core/src/brokerops_core/services/message_send.py:332-345 | with no send past its check, SENT leaves only to DELIVERED or FAILED, only the status changes, and no send gets past its check |
| `MessageLifecycle.PortRespectsTheGate` | core/src/brokerops_core/services/message_send.py:318-345 | no port call is ever in progress for a rejected row or an unapproved draft, made inside a run or outside one; drafted, pending and rejected rows hold no provider id |
| `MessageLifecycle.DecidedByApproval` | core/src/brokerops_core/services/message_send.py:318-336 | an approved row has an approval event for that very row in its history |
| `LifecycleRuns.DirectIsARun` | core/src/brokerops_core/services/message_send.py:207-268 | the sequential direct send is one of the interleaved runs |
| `LifecycleRuns.ApprovedIsARun` | core/src/brokerops_core/services/message_send.py:318-374 | so is the approved send |
| `LifecycleRuns.RetryIsARun` | api/src/brokerops_api/routes/messages.py:110-166 | so is the retry: FAILED rows only |
| `LifecycleRuns.RejectIsARun` | core/src/brokerops_core/services/message_send.py:376-390 | so is the rejection |
| `LifecycleRuns.DraftIsARun` | core/src/brokerops_core/services/message_send.py:287-316 | so is the drafting of a row for approval, the first draft being kept |
| `LifecycleRuns.StaleCallbackLosesTheId` | api/src/brokerops_api/routes/webhooks.py:115-126 | a run that ends with a DELIVERED row without a provider id |
| `LifecycleRuns.DeliveredCanRegress` | core/src/brokerops_core/services/message_send.py:248-254 | its continuation in which that DELIVERED row becomes FAILED |
| `MessageLifecycle.ApplyKeepsReportIff` | api/src/brokerops_api/routes/webhooks.py:115-126 | applying a callback leaves every DELIVERED row reported delivered for the id it holds if and only if it does not report a delivery to a row that meanwhile holds another id |
| `MessageLifecycle.OthersKeepReport` | core/src/brokerops_core/services/message_send.py:248-268 | no other step makes a row DELIVERED or changes the id of one that is |
| `MessageLifecycle.ReportedRun` | api/src/brokerops_api/routes/webhooks.py:115-126 | over a run in which no such callback is applied, every DELIVERED row was reported delivered for the id it holds |
| `LifecycleRuns.DeliveryOfAnotherSend` | api/src/brokerops_api/routes/webhooks.py:115-126 | a run that ends with a row DELIVERED under the id "p2" by a callback that reported on "p" |
| `TypeShapes.AnnotationNestsTenant` | core/src/brokerops_core/services/tool_authz.py:243-267 | the recursion over one shared visited set computes the detector's walk and terminates on recursive models |
| `TypeShapes.ResponseExposes` | api/src/brokerops_api/routes/_egress.py:68-89 | the early-returning loop over a shared visited set computes the detector's walk and terminates on recursive models |
| `TypeShapes.NestsTenantWalk` | core/src/brokerops_core/services/tool_authz.py:243-267 | from any visited set, a yes cannot be avoided by any closed set of models, and a no has ruled out all it visited |
| `TypeShapes.NestsTenantIffReachable` | core/src/brokerops_core/services/tool_authz.py:243-267 | the static tenant detector says yes exactly when a model with a tenant_id field is reachable from the annotation outside mappings |
| `TypeShapes.ExposesWalk` | api/src/brokerops_api/routes/_egress.py:68-89 | the same two facts for the restricted-content walk, through mappings too |
| `TypeShapes.ExposesIffReachable` | api/src/brokerops_api/routes/_egress.py:68-89 | the response detector says yes exactly when a Pii-marked field is reachable in the type graph |
| `TenantWalk.TenantValues` | core/src/brokerops_core/services/tool_authz.py:84-135 | the loops over one shared visited set compute the walk, and terminate on every finite graph |
| `TenantWalk.WalkIsWalked` | core/src/brokerops_core/services/tool_authz.py:104-132 | from any visited set, a walk visits only what every closed set around its start holds, closes over it, and reports each new tenant-bearing model |
| `TenantWalk.TenantValuesExact` | core/src/brokerops_core/services/tool_authz.py:84-135 | exactly the tenant ids of the models reachable through fields, lists and tuples are returned, on any graph with sharing and cycles; that none is missed holds with no condition |
| `TenantWalk.ClearedFindsNothing` | core/src/brokerops_core/services/tool_authz.py:270-278 | a value of an annotation the static detector clears, with no blind field in reach, yields no tenant id |
| `TenantWalk.RuntimeImpliesStatic` | core/src/brokerops_core/services/tool_authz.py:281-297 | if extraction finds any tenant id in a well-typed value, the static detector flags the parameter, for recursive models, nested unions, lists and mappings, unless a tenant-named field that lists strings is reachable |
| `TenantSurface.BlindFieldIsSeen` | core/src/brokerops_core/services/tool_authz.py:84-135 | such a field is always seen at run time: some well-typed value of any annotation that reaches it yields a tenant id |
| `TenantSurface.CoveredIff` | core/src/brokerops_core/services/tool_authz.py:281-289 | the static gate covers all that the runtime accepts for a parameter if and only if it flags it or no such field is reachable |
| `TenantSurface.FlaggedIff` | core/src/brokerops_core/services/tool_authz.py:281-297 | the static gate flags a parameter exactly for a tenant name, a reachable model with a tenant_id field, or a mapping anywhere in its annotation |
| `TenantSurface.MappingIff` | core/src/brokerops_core/services/tool_authz.py:231-240 | an annotation counts as a mapping exactly if it is or wraps one, at any depth |
| `TenantWalk.FlatModelYieldsItsTenant` | core/src/brokerops_core/services/tool_authz.py:110-122 | a model without nested models, as a message is, commits a call to exactly its own stamp |
| `TenantWalk.UnconventionalFieldDiverges` | core/src/brokerops_core/services/tool_authz.py:78-81 | the simplest such field: a typed value found at run time and missed statically |
| `TenantWalk.AuthorizeCall` | core/src/brokerops_core/services/tool_authz.py:179-200 | a call is let through exactly when every extracted id passes; then every model reachable from its arguments belongs to the bound tenant; a refusal names an extracted foreign id and leaves one record of it |
| `TenantWalk.MappingYieldsItsEntry` | core/src/brokerops_core/services/tool_authz.py:123-127 | a mapping argument yields exactly the string it holds under tenant_id |
| `TenantWalk.MappingInModelYieldsNothing` | core/src/brokerops_core/services/tool_authz.py:110-127 | a mapping inside a model yields nothing |
| `TenantWalk.MappingInListYieldsItsEntry` | core/src/brokerops_core/services/tool_authz.py:123-132 | a mapping among the items of an argument list yields its entry |
| `TenantWalk.MappingIsEnforced` | core/src/brokerops_core/services/tool_authz.py:179-200 | a call is let through over a mapping that holds a tenant id exactly if a tenant is bound and it names that one or is empty |
| `TenantWalk.StampIsExtracted` | core/src/brokerops_core/services/tool_authz.py:110-114 | a model that declares a tenant_id field, wherever among its fields, yields the string it holds there, or the empty id |
| `TenantWalk.TenantNameIff` | core/src/brokerops_core/services/tool_authz.py:78-81 | exactly which parameter names are tenant names |
| `TenantWalk.TextYieldsUnderTenantNames` | core/src/brokerops_core/services/tool_authz.py:133-135 | a string is extracted exactly under a tenant name, any other value never |
| `TenantWalk.EnforceIff` | core/src/brokerops_core/services/tenancy.py:107-119 | an id passes exactly if a tenant is bound and it is that one's or empty |
| `EgressScrub.ScrubPayload` | core/src/brokerops_core/services/egress.py:146-175 | the recursion with its shared findings list computes the specified payload and findings, in order |
| `EgressScrub.ScrubModel` | core/src/brokerops_core/services/egress.py:179-203 | so does the loop over a model's fields |
| `EgressScrub.ScrubField` | core/src/brokerops_core/services/egress.py:181-200 | a secret name comes before a role marker, and a marker before recursion |
| `EgressScrub.ScrubMapping` | core/src/brokerops_core/services/egress.py:204-219 | so does the loop over a mapping |
| `EgressScrub.ScrubItem` | core/src/brokerops_core/services/egress.py:207-218 | a secret key redacts its value whole; any other value is scrubbed |
| `EgressScrub.SecretKeyIff` | core/src/brokerops_core/services/audit.py:40-63 | a name looks like a secret's exactly if some hint stands somewhere in it, in whatever case |
| `EgressScrub.LowerIsAscii` | core/src/brokerops_core/services/audit.py:62-62 | lower-casing turns the ASCII capitals into their small letters and nothing else |
| `EgressScrub.NameDecides` | core/src/brokerops_core/services/egress.py:183-188 | a text value under such a name is redacted whole, as a field and as a key; under any other it is scrubbed |
| `EgressScrub.AccessTokenIsSecret` | core/src/brokerops_core/services/audit.py:40-63 | `access_token` is such a name |
| `EgressScrub.ApiKeyIsSecret` | core/src/brokerops_core/services/audit.py:40-63 | `API_KEY` is such a name |
| `EgressScrub.EmailIsNotSecret` | core/src/brokerops_core/services/audit.py:40-63 | `email` is not |
| `EgressScrub.MarkedFieldIsRedacted` | core/src/brokerops_core/services/egress.py:189-195 | below its minimum role a marked field becomes the marker if it is text and null otherwise; from that role on it is scrubbed like any other |
| `Roles.RolesAreOrdered` | core/src/brokerops_core/models/role.py:1-35 | an admin may what an operator may, and an operator what a viewer may, and not the other way round |
| `EgressScrub.ScrubSequence` | core/src/brokerops_core/services/egress.py:220-227 | so does the loop over a list or tuple |
| `EgressScrub.UnchangedIffNoFinding` | core/src/brokerops_core/services/egress.py:155-159 | the output equals the input if and only if no finding was recorded |
| `EgressScrub.ScrubIsClean` | core/src/brokerops_core/services/egress.py:178-227 | at every depth nothing above the recipient's role and nothing secret-named is left, and constructors, keys and lengths are kept elsewhere |
| `EgressScrub.ScrubTwice` | core/src/brokerops_core/services/egress.py:146-227 | scrubbing for a higher role and then a lower one equals scrubbing for the lower one |
| `EgressScrub.HiddenIffNotShown` | core/src/brokerops_core/services/egress.py:178-227 | at every position the output shows what the input has there if and only if no rule hides the position; a hidden one is gone or a redaction |
| `EgressScrub.HiddenFromLowerRoles` | core/src/brokerops_core/services/egress.py:189-195 | a position hidden from a role is hidden from every lower one |
| `EgressScrub.RedactedForLowerRoles` | core/src/brokerops_core/services/egress.py:146-159 | what scrubbing keeps from a role, scrubbing keeps from every lower one, position by position |
| `EgressScrub.FindingsMeanHidden` | core/src/brokerops_core/services/egress.py:146-227 | there is a finding exactly when some position is redacted |
| `EgressScrub.UnexposedMeansNoPii` | api/src/brokerops_api/routes/_egress.py:68-76 | when the response detector says no, scrubbing any well-typed value for any role records no PII finding |
| `ScopedStores.ScopedStores.RecordCrossTenantAttempt` | core/src/brokerops_core/services/tenancy.py:122-146 | one ledger line naming the attempted and the bound tenant |
| `ScopedStores.ScopedStores.SaveRow` | core/src/brokerops_core/services/scoped_stores.py:212-224 | a save is denied for a foreign claim or a foreign target row, and otherwise stamped with the bound tenant; documents are never overwritten |
| `ScopedStores.ScopedStores.GetRow` | core/src/brokerops_core/services/scoped_stores.py:226-232 | another tenant's row reads as absent, and the attempt is recorded |
| `ScopedStores.ScopedStores.ListRows` | core/src/brokerops_core/services/scoped_stores.py:187-190 | the selected rows in the listing's order, without other tenants' |
| `ScopedStores.ScopedStores.ListMessageRows` | core/src/brokerops_core/services/scoped_stores.py:244-252 | the messages that match both filters, newest first, cut to the limit, and only then without other tenants' |
| `ScopedStores.ScopedStores.GetMessageByProviderId` | core/src/brokerops_core/services/scoped_stores.py:234-242 | the webhook lookup takes the first row in insertion order; another tenant's resolves to nothing and is recorded |
| `ScopedStores.ScopedStores.AdvanceMessageStatus` | core/src/brokerops_core/services/scoped_stores.py:254-267 | a foreign row is never advanced; an owned one only forward |
| `ScopedStores.ScopedStores.CreateTransactionRows` | core/src/brokerops_core/services/scoped_stores.py:79-91 | the first foreign claim in the batch denies all of it; an existing id changes nothing; else all rows are stamped and stored |
| `ScopedStores.ScopedStores.SetEscalationLevel` | core/src/brokerops_core/services/scoped_stores.py:119-128 | a foreign milestone is denied and recorded, a missing one is an error, and an owned one changes only its level |
| `ScopedStores.EscalationSetsTheLevel` | core/src/brokerops_core/services/scoped_stores.py:119-128 | an owned milestone gets exactly the level set; a foreign or missing one changes nothing |
| `ScopedStores.ScopedStores.ClearRows` | api/src/brokerops_api/db.py:483-489 | clearing removes the tenant's own and unstamped rows and no others |
| `ScopedStores.TimelineIsNew` | core/src/brokerops_core/services/milestone_schedule.py:79-85 | a new transaction's timeline never lands on a stored milestone, of whatever tenant |
| `ScopedStores.CallIsRecorded` | core/src/brokerops_core/services/scoped_stores.py:269-272 | a call that names another tenant adds exactly one security record and has no other effect; no other call writes to the ledger |
| `ScopedStores.CallConfines` | core/src/brokerops_core/services/scoped_stores.py:72-313 | one call changes, creates, removes and returns no row stamped with another tenant |
| `ScopedStores.RunConfines` | core/src/brokerops_core/services/scoped_stores.py:72-313 | so does every sequence of calls, as long as timelines derive their ids from their transaction |
| `Listings.ListingOrder` | api/src/brokerops_api/db.py:464-464 | messages are listed newest first, documents oldest first, milestones by due date, and the rest in order of arrival |
| `Listings.ListingIsAsked` | api/src/brokerops_api/db.py:729-743 | a message listing shows only rows of the contact and transaction asked for, and all of the tenant's if its limit allows |
| `Listings.OwnedOnlySort` | core/src/brokerops_core/services/scoped_stores.py:244-252 | dropping other tenants' rows after sorting leaves the tenant's own in the order they have on their own |
| `Listings.SortPlace` | api/src/brokerops_api/db.py:741-743 | the sort puts a matching row at exactly one place: behind the newer ones, and those as new that arrived before it |
| `Listings.ShownIff` | api/src/brokerops_api/db.py:729-743 | a listing shows one of the tenant's rows if and only if fewer matching rows than its limit, of whatever tenants, are ahead of it |
| `Listings.ShownIsPrefix` | core/src/brokerops_core/services/scoped_stores.py:244-252 | what is shown is the beginning of the tenant's own matching rows |
| `StoreSecrecy.FoundIsExact` | api/src/brokerops_api/db.py:721-727 | the lookup returns a row holding the id, and none only if there is none |
| `StoreSecrecy.ViewIsWhatTheCallAdds` | core/src/brokerops_core/services/scoped_stores.py:72-313 | what a call shows is its result and the ledger lines it appends, whatever the ledger held |
| `StoreSecrecy.CallDoesNotLeak` | core/src/brokerops_core/services/scoped_stores.py:72-313 | from stores that differ only in foreign contents, every call but the provider-id lookup and the message listing returns the same result and records the same lines |
| `StoreSecrecy.LookupLeaksIff` | core/src/brokerops_core/services/scoped_stores.py:234-242 | that lookup shows the same if and only if it picks the same row, or rows of the same other tenant |
| `StoreSecrecy.ListLeaksIff` | core/src/brokerops_core/services/scoped_stores.py:244-252 | the listing shows the same if and only if as many own rows are among the first `limit` matching ones |
| `StoreSecrecy.ProviderIdLeaks` | core/src/brokerops_core/services/scoped_stores.py:234-242 | two stores that differ in a foreign row's provider id, told apart by the ledger line |
| `StoreSecrecy.ProviderIdHidesOwnRow` | api/src/brokerops_api/db.py:721-727 | two such stores told apart by the answer: a tenant's own row hidden behind a foreign one |
| `StoreSecrecy.ListLimitLeaks` | api/src/brokerops_api/db.py:729-743 | two stores that differ in the time of a foreign message, told apart by a listing with limit 1: empty, or the tenant's own newest message |
| `StoreSecrecy.RunDoesNotLeak` | core/src/brokerops_core/services/scoped_stores.py:72-313 | everything a tenant gets back over a run, and every line it causes, is the same for two such stores if and only if its provider-id lookups and its message listings agree |
| `StoreSecrecy.SecretIff` | core/src/brokerops_core/services/scoped_stores.py:72-313 | no run of a tenant's calls tells two such stores apart if and only if, for every provider id, their first foreign rows holding it are the same, or of one tenant with none of the caller's own rows between them, and for every filter and time they have as many foreign messages that are that new or newer, and as many of that very time that arrived before any of the caller's own |
| `SessionTokens.MagicTokenStore.Create` | api/src/brokerops_api/db.py:948-949 | a link is stored under its hash and nothing is un-consumed |
| `SessionTokens.MagicTokenStore.Consume` | api/src/brokerops_api/db.py:951-956 | a link is handed out at most once, expired or not |
| `SessionTokens.Redeem` | core/src/brokerops_core/services/magic_link.py:62-83 | a pair is minted only for an unused, unexpired link of an allowed address, each token by its own reading of the clock; the link is spent either way |
| `SessionTokens.RedeemIff` | core/src/brokerops_core/services/magic_link.py:62-83 | a pair exactly if the link was stored, not yet used, not past its expiry and of an allowed address; which tokens it holds; and that the link is spent |
| `SessionTokens.LinkIsRequested` | core/src/brokerops_core/services/magic_link.py:45-53 | a link is stored for an allowed address only, for 15 minutes, under a hash not seen before |
| `SessionTokens.LinkIsClaimed` | api/src/brokerops_api/db.py:951-956 | a redemption holds a link only if it claimed it first |
| `SessionTokens.TokensAreIssued` | api/src/brokerops_api/auth/session.py:126-183 | what a redemption and a refresh issue, with the clock readings and the check they rest on, and that they issue nothing otherwise |
| `SessionTokens.RefreshIff` | api/src/brokerops_api/auth/session.py:161-183 | a refresh yields a token exactly for an unexpired refresh token of an allowed address, with its role of the moment, expiring with the refresh token at the latest |
| `SessionTokens.BearerIff` | api/src/brokerops_api/auth/session.py:126-135 | a bearer is accepted exactly if it is an access token before its expiry |
| `SessionTokens.EncodeBound` | api/src/brokerops_api/auth/session.py:58-64 | a token never outlives its lifetime or the upstream deadline, rounded down to seconds |
| `SessionTokens.InvRun` | api/src/brokerops_api/auth/session.py:161-183 | over every run each token is bounded by its issue, which an allowlist check precedes, and by its login |
| `SessionTokens.BearerIsRecent` | api/src/brokerops_api/auth/session.py:126-183 | an accepted bearer was issued under one access lifetime ago by a call that had passed an allowlist check with its very role, and if refreshed rests on a login under one refresh lifetime ago; expiry as in section 4.1.4 of RFC 7519 |
| `SessionTokens.CheckIsRecentIff` | api/src/brokerops_api/auth/session.py:137-143 | an access token is never accepted a whole access lifetime after its allowlist check if and only if it expires by then, as one issued at the very reading of the clock its check was made at does |
| `SessionTokens.CheckCanBeOld` | core/src/brokerops_core/services/magic_link.py:66-83 | a redemption a second after its check, under lifetimes of a second, gives a bearer accepted a whole lifetime after that check |
| `SessionTokens.LinkIsSingleUse` | core/src/brokerops_core/services/magic_link.py:66-68 | over every run each link yields at most one credential pair |
| `SessionTokens.LinkIsFresh` | core/src/brokerops_core/services/magic_link.py:69-70 | over every run a link yields its pair at most 15 minutes after it was asked for |
| `SessionTokens.RevocationTakesEffect` | api/src/brokerops_api/auth/session.py:141-143 | one access lifetime after an address leaves the allowlist no bearer for it is accepted, whatever was issued before |
| `SecretScan.ScanStream` | scripts/offboard_client.py:544-561 | a rule is reported exactly when some window holds an occurrence, and at most once |
| `SecretScan.ScanWindow` | scripts/offboard_client.py:554-559 | every rule not yet found is searched for, and a found one is not reported again |
| `SecretScan.DeliveredIff` | scripts/offboard_client.py:551-553 | what is scanned is the reads up to the first empty one |
| `SecretScan.ReportedOccurs` | scripts/offboard_client.py:553-560 | every report is a true occurrence in the stream |
| `SecretScan.ShortOccurrenceReported` | scripts/offboard_client.py:531-532 | every occurrence of at most 129 bytes is reported, whatever the read sizes |
| `SecretScan.ReportedIff` | scripts/offboard_client.py:544-561 | exactly the rules with an occurrence that begins at most 128 bytes before the read completing it are reported |
| `SecretScan.ChunkedRefinesWhole` | scripts/offboard_client.py:536-541 | for rules whose words are short enough the chunked scan and the whole-buffer scan report the same |
| `SecretScan.LongOccurrenceMissed` | scripts/offboard_client.py:560-560 | the bound is tight: a word of 130 bytes split before its last byte is missed |
| `OpenTransaction.MilestoneIdInjective` | core/src/brokerops_core/services/milestone_schedule.py:79-85 | a milestone id determines its transaction and its position, for transaction ids of any form |
| `OpenTransaction.MilestoneIdFits` | core/src/brokerops_core/services/transaction_open.py:20-29 | a milestone id fits the 36-character column if and only if its index has at most nine digits |
| `OpenTransaction.GenerateShape` | core/src/brokerops_core/services/milestone_schedule.py:88-108 | generation succeeds exactly when every step has a due date, and then yields one milestone per step, numbered from one |
| `OpenTransaction.BuildOpenSpec` | core/src/brokerops_core/services/transaction_open.py:32-73 | exactly which terms are accepted; then every milestone is due inside the contract-to-close window and ids are pairwise distinct |
| `OpenTransaction.DueDateIff` | core/src/brokerops_core/services/milestone_schedule.py:68-76 | a step is due its days after the contract, or before the closing, which it then needs |
| `OpenTransaction.ScheduledIs` | core/src/brokerops_core/services/milestone_schedule.py:88-108 | what the milestone of a step carries |
| `OpenTransaction.ShippedTimelineIff` | core/src/brokerops_core/services/transaction_open.py:32-73 | with the shipped timeline an opening is accepted exactly for a key of at most 36 characters and a closing at least 21 days after the contract; then when its five milestones are due, with their kinds, titles and owners |
| `StoredTerms.TermsAreScrubbed` | core/src/brokerops_core/services/egress.py:239-268 | what the guard lets through of a stored transaction is the egress scrub of its model for an operator, field by field |
| `OpenRoute.OpenForListing` | api/src/brokerops_api/routes/transactions.py:122-157 | rejected terms touch no store; otherwise the open reads, creates and re-reads through the guarded, tenant-confined store, and answers 201, 200, 409 or lets the exception through |
| `OpenRoute.CreateStores` | api/src/brokerops_api/db.py:474-481 | a create is refused exactly when the id is taken, by whatever tenant |
| `OpenRoute.CreatedIsStored` | api/src/brokerops_api/routes/transactions.py:138-157 | a 201 leaves the transaction and its whole timeline stored under the requester's tenant |
| `OpenRoute.DeskStep` | api/src/brokerops_api/routes/transactions.py:145-157 | every step of any number of opens by any tenants keeps the answers consistent with the stored rows, and a stored row never changes |
| `OpenRoute.OpenRace` | api/src/brokerops_api/routes/transactions.py:95-157 | under any interleaving one create wins per listing and its 201 shows the stored terms; any other answer is a 409 exactly if the stored terms, scrubbed, are not those requested, and else a 200 that shows them; nothing is answered over another tenant's row |
| `OpenRoute.HeldListingAnswers` | api/src/brokerops_api/routes/transactions.py:95-119 | an open of a listing already held is a 200 that shows the stored terms, scrubbed, exactly if both dates and the scrubbed parties are those requested, else a 409; nothing is stored |
| `OpenRoute.RowsHandedOver` | api/src/brokerops_api/routes/transactions.py:145-150 | a create hands over an active transaction with its terms and its milestones, none of them escalated |
| `OpenRoute.RequestsComeAndGo` | api/src/brokerops_api/routes/transactions.py:122-157 | a request may end in an exception at any moment before its answer, with nothing else changed |
| `OpenRoute.RepeatIsReplayedIff` | api/src/brokerops_api/routes/transactions.py:129-149 | an identical repeat of an open is a 200 if and only if the scrub leaves the requested parties as they are, and a 409 otherwise |
| `OpenRoute.ScrubbedReadDecidesIff` | api/src/brokerops_api/routes/transactions.py:95-100 | the comparison with a scrubbed read is right for every request if and only if the scrub leaves the stored parties as they are |
| `OpenRoute.SecretShapedParty` | core/src/brokerops_core/services/egress.py:239-268 | a party named "sk-0123456789abcdef0" gets a 201, then a 409 to the same request, and a 200 to one for the redacted name |
| `OpenRoute.LostFindsWinnerIff` | api/src/brokerops_api/routes/transactions.py:151-156 | the re-read after a lost create finds the winner if and only if the stored row is not another tenant's; otherwise the exception goes through and one attempt is recorded |
| `OpenRoute.ForeignWinnerIsHidden` | core/src/brokerops_core/services/scoped_stores.py:93-99 | tenant B's open of a listing tenant A holds ends in the exception |
| `OpenRoute.OpenIsARun` | api/src/brokerops_api/routes/transactions.py:145-157 | the undisturbed open is one of the interleaved runs |
| `DeadlineQueue.QueueSpec` | core/src/brokerops_core/services/milestone_engine.py:113-138 | the queue is the one urgency-sorted arrangement of exactly the pending milestones that are not on track |
| `DeadlineQueue.QueueIgnoresInputOrder` | core/src/brokerops_core/services/milestone_engine.py:101-110 | the queue does not depend on the order the milestones arrive in |
| `DeadlineQueue.QueueMatchesWorst` | core/src/brokerops_core/services/milestone_engine.py:65-70 | the queue is empty exactly when the worst class is on track, and otherwise its head has that class |
| `DeadlineQueue.AssessIff` | core/src/brokerops_core/services/milestone_engine.py:46-62 | the class of a milestone: blocked if it has a reason, else overdue, due within three days, or on track |
| `DeadlineQueue.WorstIff` | core/src/brokerops_core/services/milestone_engine.py:65-70 | the worst class is the first present of the severity order |
| `DeadlineQueue.UrgencyIff` | core/src/brokerops_core/services/milestone_engine.py:101-110 | the urgency order key by key: class, days, transaction id, milestone id |
| `DeadlineQueue.LexBelowIff` | core/src/brokerops_core/services/milestone_engine.py:101-110 | ids are compared by their first difference |
| `DeadlineQueue.SortedIsUnique` | core/src/brokerops_core/services/milestone_engine.py:101-110 | items with distinct ids have a single urgency-sorted arrangement |

## Left out

Weaker than the source, or resting on an assumption:

- WorldInvStep: one send operation at a time per store; two truly concurrent `send_approved` calls on one row may overwrite each other.
- WorldInvRun: the same.
- GetByProviderId: any matching row, which covers the SQL store, whose order is not fixed; the insertion order of the in-memory store is modelled in `ScopedStores`.
- GuardedSend: compares the one stamp a message carries, which is all the walk extracts from it (`FlatModelYieldsItsTenant`).
- ShipRow: the row keeps the id the seam answers; the guard around the seam scrubs it on its way out (`GuardedSend`), so ids shaped like secrets are outside the lifecycle.
- CallIsRecorded: creating a transaction under an id another tenant already holds raises "already exists" and records nothing, as in the source.
- RuntimeImpliesStatic: values inhabit their annotation exactly: no `Any`, no subclasses, no bare `list` or `tuple` annotation holding models; an enumeration of strings counts as `str`.
- CoveredIff: the same typing; a class's fields have different names and a union has an arm, as Python guarantees. `tuple[X, ...]` is a list of `X`, and a tuple of fixed length has its length.
- TenantValuesExact: that nothing else is found assumes no mapping outside a model and no string under a tenant name; that no id is missed needs no assumption.
- ScrubIsClean: assumes the secret patterns leave the empty text and the markers alone; the patterns themselves are not modelled.
- ScrubTwice: assumes an idempotent text scrub, which the concrete patterns do not guarantee.
- ScrubPayload: works on values, so object identity of an unchanged copy and payloads that contain themselves are outside it.
- FindingsMeanHidden: relates whether there is a finding at all; position by position the redactions are in `HiddenIffNotShown`.
- SecretIff: over all calls the wrappers accept, whatever the arguments; the listing route only passes limits between 1 and 1000. Ids, stamps and the order of arrival of other tenants' rows are the same in both stores.
- TermsAreScrubbed: takes the models' field names as given, none of which contains a secret hint.
- BearerIsRecent: bounds the issue; for the allowlist check before it, the exact condition is `CheckIsRecentIff`.
- OpenForListing: the answer is the transaction; the milestone and document views beside it are left out.
- OpenRace: transactions are not deleted during the race (the demo reset deletes them).
- ScanStream: rules are plain byte-string languages without look-around.
- MilestoneIdFits: the 16 digits taken from the listing's hash are an abstract function of the listing key.

Not modelled:

- Template rendering, drafting backends, and the error raised when no SMS provider is wired; the message content is what they produce.
- A second scrub over a stored row's own id, provider id and tenant stamp; only the content fields are scrubbed in the model.
- Row timestamps and the tenant stamp of message rows inside the lifecycle (the stores' module covers both).
- Retrying across runs may send again what a provider already accepted; the source documents this, and at-most-once is per run.
- The other port wrappers (CRM, files, voice): the same seam with other argument types.
- `filter_tool_response` as one call: its scan is `AuthorizeCall` on the single argument `result`, and its redaction is `ScrubPayload`; wrapping ports in place, and its idempotence, are left out.
- Nesting of `tenant_scope` and `audit_scope`, and the redaction of ledger arguments.
- The scoped approval repository; `save_call_record` keys rows by the call id, which the model calls the row id.
- The SQL stores, except the idempotency claim and the conditional status update; row-level security and migrations.
- JWT and webhook signatures, SHA-256, and the Twilio request itself.
- The redirect stash and page reloads of the browser module; a fresh page starts at generation 0 with what storage held.
- Case folding of names outside ASCII, and date overflow.
- The workflow engine, cron jobs, HTTP adapters, the user interface, infrastructure, and the feedback extractor: no claim here depends on them.
