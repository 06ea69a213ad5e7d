# Verification of the crux router

A Dafny model of the stateful core of the service, with proofs over every run. Asynchronous
handlers are modelled segment by segment: a segment is the code between two `await`s, which Node
runs without interruption, and any other segment may run in between.

- **Routing** (`Router*.dfy`, `WorkerSelection.dfy`). `RouterModel` is a transition system of any
  number of `routeEvent` calls, workers popping queues and administrators installing definitions;
  one step lets Redis execute a call's outstanding command and runs the call to its next `await`.
  `RouterCalls`, `RouterInvariants`, `RouterRecords`, `RouterHashes` and `RouterReachable` build the
  invariant of every reachable state, `RouterTheorems` states the results. `RouterAgreement`,
  `RouterHarmless` and `RouterOrphans` say exactly when two properties fail, by constructing
  continuations of any reachable state with the steps of `RouterRuns`. `RouterService` is `routeEvent` as imperative code
  that changes the parsed step list in place; module `RouteEvent` proves that whatever others do at
  each `await`, its whole effect is a run of that system (`RunAppend` joins it to the run before), so
  the theorems hold of it. `RouterSegments` spells out the system's steps for these proofs, and
  `RouterOutcomes` says what each does to every key and field, with the keys written out.
- **Gateway** (`RateLimiter.dfy`, `SharedLimiter.dfy`, `ConnectionLifecycle.dfy`,
  `SubscribeChain.dfy`, `WSGateway.dfy`). The limiter, the connection and authentication races and
  the subscribe retries as transition systems, and the gateway class whose methods (segments of its
  handlers) perform exactly their steps. The object carries the history of its steps, and `Valid()`
  says that its fields are what that run of each system leads to, so the theorems hold of the object.
- **Tokens** (`TokenRevocation.dfy`), **subscriptions** (`Subscriptions.dfy`), **Kafka**
  (`KafkaRetry.dfy`), **backoff** (`Backoff.dfy`): specification functions with their laws, and
  classes whose methods are proved against them.

Transition functions are total: a label that does not apply changes nothing, so "every trace" is
every run. Three flags of the router state record what the environment did: `collided` is raised when
a generated uuid is not fresh, `stray` when an installed template presets a step id outside
`step_instance:`, `reused` when one presets an id that was generated before. In the table "fresh
uuids" means a run that did not raise the first, "prefixed ids" one that did not raise the second,
and a "clean" run raised none of the three. A theorem that needs no such thing mentions none.

Behaviour of the code that its comments and samples do not suggest, and that is proved here:

- `current_step` is read from the template before missing ids are generated; it is "" when the
  first step's id was generated, although the sample instance shows an id
  (`RouterTheorems.CurrentStepIsPreset`).
- A step id preset in a template is shared by all calls on it, and any later template may carry the
  id too, so a later call can overwrite the step hash of an earlier one. In clean runs (fresh uuids,
  prefixed ids, and no template presetting an id that was generated before) the record of a completed call and the hash
  of a routed step agree in every clean continuation iff the template carried no id for that step
  (`AgreesForGoodIff`). A generated id is no safer once a template presets it: `AnyIdCanSeparate`
  separates record and hash of any routed step of any reachable state with fresh uuids and prefixed
  ids, raising `reused` at most when the id was generated.
- A call that throws after a push leaves an item whose instance record is never written. With fresh
  uuids, a document can cause that, among otherwise harmless ones, iff it is harmful (`OrphansIff`):
  text that `JSON.parse` refuses, or `null`; or a template with a step that presets the key of
  another definition or of a worker's queue as its id, when it and all steps before it have a
  definition; or a template with a step that can be pushed and a later one that throws, because it
  has no definition or presets the key of its own template or definition as its id, when all steps
  before that one have a definition. While only other documents were installed no call throws after
  a push, whatever ids they preset (`NoOrphans`).
- An id whose validation succeeds after its socket disconnected stays authenticated for ever
  (and connected, when it was the connection's validation); those are the only stale ids
  (`StaleForEver`; `StaleConnectionExists` and `StaleAuthenticationExists` give the runs). The
  reported anonymous count can be negative (`AnonymousCount` says when and by how much).
- The gateway's subscription to worker responses is dropped as soon as a disconnect leaves
  `connectedClients` empty, even while other sockets are open and still validating their tokens, and
  it is never made again, whoever connects later (`SubscribeChain.NeverResubscribed`;
  `SubscriptionIsDropped` gives such a run, `SubscribedIff` reads the flag off any run).
- The comment on `revokeToken` speaks of "some buffer": a revocation tolerates 10000 ms between
  verifying a token and reading its key, plus the time from the full second its TTL was computed
  from to the write of the key, and no more (`MarginIsExact`). An explicit expiry shorter than the
  token's life, or a token without `exp`, comes back (`RejectedForGoodIff`).
- Subscribing twice to a channel leaves both callbacks listening, while the service remembers only
  the last and rebinds only that one after a reconnect (`QuiescentAgreement`).
- When a resubscription throws, the health check leaves the subscriber open and partly subscribed,
  and later checks do nothing for an open subscriber (`CheckConnections`). The missed channels stay
  without the connection, though the service lists them, until a command about them is carried out
  or the connection is lost (`UnacknowledgedReplay`).
- `eachMessage` swallows every exception, so a message announced for a retry is not delivered again:
  with message ids of their own no delivery is ever dead-lettered (`DistinctNeverDeadLetters`).

## Model

| member | source | states |
|---|---|---|
| WorkerSelection.SelectIsChosen | src/router/router.service.ts:415-417 | the fold returns the worker at one uniquely determined place: the leftmost minimum of the suffix after the last worker without a thread count, or that worker itself when the suffix is empty |
| WorkerSelection.SelectLeastLoaded | src/router/router.service.ts:414-417 | when every count is a number, the leftmost worker of minimum load |
| RouterCalls.KeysNeverCollide | src/router/router.service.ts:355-440 | for all names, uuids and worker instances the four kinds of Redis key are different strings |
| RouterOutcomes.KeysAreInjective | src/router/router.service.ts:355-440 | and different names, uuids or worker instances have different keys of the same kind |
| RouterOutcomes.FetchOutcome | src/router/router.service.ts:355-383 | from any state: what is stored under "workflow:" and the event decides whether the call throws, and which error, or becomes an instance of that template with the uuids and the time supplied; nothing else changes |
| RouterOutcomes.LookupOutcome | src/router/router.service.ts:386-429 | from any state: what is stored under the first given of `workflow_key`, `type` and `class` decides whether the call throws, passes over the step or goes on with the list found; the step has its own or the generated id |
| RouterOutcomes.SaveStepOutcome | src/router/router.service.ts:432-437 | from any state: the step's three fields are written over the hash under its id, or the call throws on another type |
| RouterOutcomes.PushOutcome | src/router/router.service.ts:440-446 | from any state: the item goes to the head of the chosen worker's own queue and the loop moves on, or the call throws on another type |
| RouterOutcomes.SaveInstanceOutcome | src/router/router.service.ts:449-465 | from any state: the record's three fields are written under the instance id and the call is over, or it throws on another type |
| RouterOutcomes.PopOutcome | src/redis/redis.service.ts:191-198 | a worker takes the item at the tail of the queue, and an emptied list disappears |
| RouterCalls.NextKeepsCalls | src/router/router.service.ts:364-454 | at every await of every call: steps handled so far have an id, the template's definition and metadata and the chosen worker in their data; later steps are still the template's; data and metadata are the instantiated ones |
| RouterInvariants.NextKeepsFifo | src/redis/redis.service.ts:182-198 | every step keeps popped items plus the list read from its tail equal to the items pushed, per queue |
| RouterInvariants.NextKeepsInstalled | src/router/router.service.ts:356-404 | templates and worker lists in use were installed under the keys the code builds |
| RouterInvariants.NextKeepsFresh | src/router/router.service.ts:367-389 | with fresh uuids all instance ids and generated step ids in the system stay pairwise different |
| RouterRecords.NextKeepsOrdered | src/router/router.service.ts:386-446 | with fresh uuids every step keeps each instance's items in each queue equal to its routed steps in template order |
| RouterHashes.NextKeepsHashes | src/router/router.service.ts:432-445 | with prefixed ids every step keeps: each step hash is the one its last writer wrote, each queued item names one, no command meets a wrong type |
| RouterReachable.NextKeepsInv | src/router/router.service.ts:351-467 | the whole invariant survives every step of any call, worker or administrator |
| RouterReachable.ReachableInv | src/router/router.service.ts:351-467 | the invariant holds after every trace |
| RouterTheorems.QueueIsFifo | src/redis/redis.service.ts:182-198 | over every run, nothing is lost, duplicated or reordered between a queue and its workers |
| RouterTheorems.InstanceItemsInOrder | src/router/router.service.ts:386-446 | with fresh uuids, for each queue and instance, items popped then items left tail to head are the call's routed steps so far, in template order |
| RouterTheorems.ItemsAreRoutedSteps | src/router/router.service.ts:440-445 | an item is in that list iff some step among the first n has its id and a chosen worker whose own queue this is |
| RouterTheorems.ItemsAreReferenced | src/router/router.service.ts:432-454 | with fresh uuids and prefixed ids, every item ever queued names a stored step hash with its three fields and belongs to a call; its instance record is stored iff that call completed |
| RouterTheorems.CompletedSteps | src/router/router.service.ts:386-429 | a completed call kept the template's length, order, definitions and metadata, every step had a definition and got an id, and a listed worker is noted on exactly the steps that found one |
| RouterTheorems.SeenWasStored | src/router/router.service.ts:386-408 | the worker list each step was routed by is what was stored, at the moment of its lookup, under the first given of `workflow_key`, `type` and `class`, so a step is skipped iff there was none then; a step without an id got the uuid supplied then |
| RouterTheorems.InstantiatedFrom | src/router/router.service.ts:351-379 | over every run: an instance's event and payload are those its call was started with, its template what was stored under the event's key at one later segment, its ids and start time the uuids and time supplied to that segment |
| RouterTheorems.CompletedRecord | src/router/router.service.ts:371-383 | with fresh uuids and prefixed ids, the stored record is the final template with the instantiated data and metadata, and all routed steps were pushed |
| RouterTheorems.HashIsLastWriters | src/router/router.service.ts:424-437 | with prefixed ids, the hash of a written step is, in all three fields, the step of the last call that wrote its id |
| RouterTheorems.GeneratedStepsAgree | src/router/router.service.ts:386-454 | in a clean run, for a generated id that no template presets later, the hash has the record's definition, data and metadata, and the item is in the queue "worker_instance:" + worker_instance_id + ":queue" |
| RouterTheorems.KeysKeepTheirType | src/router/router.service.ts:355-450 | with prefixed ids, every Redis key keeps the value type of its namespace and no call fails on a wrong type |
| RouterTheorems.RoutingKeepsDefinitions | src/router/router.service.ts:394-395 | with prefixed ids, no segment of any call changes a definition key |
| RouterTheorems.RecordContents | src/router/router.service.ts:371-383 | a running or completed call's data and metadata are the template's, except payload, ids, times, status and current step, which are this call's |
| RouterTheorems.RoutedStepData | src/router/router.service.ts:414-429 | a routed step's data is the template's plus instance and id of the one chosen worker of the list it found; a skipped step's data is the template's |
| RouterTheorems.CurrentStepIsPreset | src/router/router.service.ts:377-389 | current_step names the first step iff its id was preset, else it is "" |
| RouterAgreement.AgreesForGoodIff | src/router/router.service.ts:388-454 | in a clean run, record and hash of a routed step agree at the end of every clean continuation iff the template carried no id for the step |
| RouterAgreement.AnyIdCanSeparate | src/router/router.service.ts:388-437 | from every reachable state with fresh uuids and prefixed ids, a template presetting the id of a routed step of a completed call leads to a record that disagrees with the hash |
| RouterAgreement.SharedIdSeparatesRecord | src/router/router.service.ts:388-389 | such records exist: a clean run to a completed call whose record agrees, and a clean continuation after which it does not |
| RouterHarmless.RunsAreTidy | src/router/router.service.ts:386-446 | while only harmless documents were installed, whatever ids they preset: definition keys keep text, only queue keys hold lists, no hash takes either kind of key, and a call throws only before its first push |
| RouterHarmless.NoOrphans | src/router/router.service.ts:386-446 | over every run with fresh uuids in which only harmless documents were installed, no call throws after a push |
| RouterOrphans.HarmfulCanOrphan | src/router/router.service.ts:386-446 | any harmful document, installed in any reachable state with fresh uuids where the keys its misplaced steps take are free, has a continuation in which a call throws after its push and its instance record is missing |
| RouterOrphans.OrphansIff | src/router/router.service.ts:386-441 | for every document and name: with fresh uuids it can leave an orphan among otherwise harmless documents iff it is harmful under that name |
| RouterService.World.Suspend | src/router/router.service.ts:356-449 | an await runs arbitrary steps of others and keeps the call's frame |
| RouterService.RouteCall.Instantiation | src/router/router.service.ts:356-383 | the segment after the template arrives is one step of the system, on the call's own fields |
| RouterService.RouteCall.Selection | src/router/router.service.ts:386-429 | the segment after a definition arrives, with its two `continue`s and exceptions, is one step of the system |
| RouterService.RouteCall.SaveHash | src/router/router.service.ts:432-437 | the step hash write is one step of the system |
| RouterService.RouteCall.Enqueue | src/router/router.service.ts:440-446 | the push and the move to the next step are one step of the system |
| RouterService.RouteCall.Finish | src/router/router.service.ts:448-465 | the record write and return are one step of the system |
| RouteEvent.Route | src/router/router.service.ts:351-467 | the imperative call, under any interference at its awaits, is a run of the system and returns or throws as its call ended |
| RateLimiter.StoredWindow | src/sources/websocket/websocket.gateway.ts:195-206 | the stored count is the number of events accepted since the window's opening, computed from the times alone |
| RateLimiter.RejectedIff | src/sources/websocket/websocket.gateway.ts:195-202 | an event is rejected iff exactly 50 events were accepted since the opening and the clock is at most 60000 ms past it |
| RateLimiter.FirstFiftyAccepted | src/sources/websocket/websocket.gateway.ts:195-206 | the events accepted in a window are its first 50 |
| RateLimiter.OpeningsApart | src/sources/websocket/websocket.gateway.ts:195-198 | windows open at least 60001 ms apart, whatever the clock does |
| RateLimiter.PassedAtMost | src/sources/websocket/websocket.gateway.ts:27-29 | with a clock that never goes back, a closed interval of length d lets through at most Cap(d) events: at most 99 in a minute, and at most 50 * ((d + 60000) / 60001 + 1) |
| RateLimiter.CapIsReached | src/sources/websocket/websocket.gateway.ts:191-206 | for every interval some run reaches Cap(d), so the bound is the least one |
| SharedLimiter.VerdictIsPrivate | src/sources/websocket/websocket.gateway.ts:180-206 | in any interleaving each authenticated event gets the verdict of a private limiter on that client's authenticated events; unauthenticated events change nothing |
| SharedLimiter.ClientPassesAtMost | src/sources/websocket/websocket.gateway.ts:191-206 | the interval bound holds per client on the shared map |
| ConnectionLifecycle.ReachableInv | src/sources/websocket/websocket.gateway.ts:76-170 | after every interleaving the two sets are exactly the validated live sockets plus the late ones |
| ConnectionLifecycle.StaleIdsAreLateValidations | src/sources/websocket/websocket.gateway.ts:95-118 | an id held without a live socket is exactly one whose validation succeeded after it disconnected; authenticated ids are connected, validating or overlapped |
| ConnectionLifecycle.LiveSocketsAuthenticate | src/sources/websocket/websocket.gateway.ts:84-112 | every live socket past its connection validation and grace period is authenticated; the live connected sockets are exactly those not validating |
| ConnectionLifecycle.AnonymousCount | src/sources/websocket/websocket.controller.ts:199-209 | the reported anonymous count is the unauthenticated sockets in grace, minus early, minus stale authentications |
| ConnectionLifecycle.AuthenticatedAreConnectedIff | src/sources/websocket/websocket.controller.ts:201-209 | exactly when authenticated ids are all connected, and the count is then not negative |
| ConnectionLifecycle.AnonymousNotNegative | src/sources/websocket/websocket.controller.ts:209 | no overlap and nothing validating: the count is not negative |
| ConnectionLifecycle.AnonymousCanBeNegative | src/sources/websocket/websocket.gateway.ts:142-148 | authenticating during the handshake validation makes the count -1 |
| ConnectionLifecycle.StaleForEver | src/sources/websocket/websocket.gateway.ts:97-112 | from every reachable state, an id validated after its socket was gone stays authenticated without a socket in every continuation, and connected after a connection validation |
| ConnectionLifecycle.StaleConnectionExists | src/sources/websocket/websocket.gateway.ts:97-118 | for any id a disconnect during the handshake validation makes it such an id |
| ConnectionLifecycle.StaleAuthenticationExists | src/sources/websocket/websocket.gateway.ts:116-148 | and so does a disconnect during an explicit authentication |
| ConnectionLifecycle.GateNeedsValidation | src/sources/websocket/websocket.gateway.ts:180-188 | an id past the authentication gate had a successful validation with no disconnect since |
| ConnectionLifecycle.Effects | src/sources/websocket/websocket.gateway.ts:76-148 | every segment's effect on every socket: who joins and leaves either set, goes live, and has a validation, authentication or grace timer pending |
| ConnectionLifecycle.AuthenticatedIff | src/sources/websocket/websocket.gateway.ts:84-188 | over every run: an id passes the authentication gate iff a validation of it succeeded, at the handshake or by `authenticate`, and its connection did not end since |
| ConnectionLifecycle.ConnectedIff | src/sources/websocket/websocket.gateway.ts:112-118 | over every run: an id is connected iff it joined, at once without a token or by its validation, and its connection did not end since |
| ConnectionLifecycle.GateOpens | src/sources/websocket/websocket.gateway.ts:86-148 | a client without a handshake token that authenticates in time is let in and kept by its grace timer |
| SubscribeChain.ChainIsBounded | src/sources/websocket/websocket.gateway.ts:42-74 | at most 11 chain steps and 6 attempts, one pending at a time; total wait exactly 1000 * (2^n - 1) ms after n retries; the flag rises and falls at most once |
| SubscribeChain.ChainSteps | src/sources/websocket/websocket.gateway.ts:37-74 | what each event does to the chain: a refused attempt is followed by another 2^r seconds later, five times |
| SubscribeChain.GivesUpAfterSix | src/sources/websocket/websocket.gateway.ts:65-73 | the chain ends only with an acknowledgement or after exactly six attempts and 31 s of waiting |
| SubscribeChain.SubscribedIff | src/sources/websocket/websocket.gateway.ts:37-74 | the flag is up iff a pending attempt was acknowledged and no disconnect left no client since; it has fallen iff one did |
| SubscribeChain.NeverResubscribed | src/sources/websocket/websocket.gateway.ts:121-126 | once the flag has fallen it stays down in every continuation |
| SubscribeChain.SubscriptionIsDropped | src/sources/websocket/websocket.gateway.ts:121-126 | a run in which it falls |
| WSGateway.Gateway.HandleConnection | src/sources/websocket/websocket.gateway.ts:76-114 | first segment: the object's run grows by the connect step, validating iff a token was given |
| WSGateway.Gateway.ConnectionValidated | src/sources/websocket/websocket.gateway.ts:97-113 | the resumption grows the run by the validated step, disconnecting on failure |
| WSGateway.Gateway.GraceOver | src/sources/websocket/websocket.gateway.ts:88-93 | the timer grows the run by its step, and closes the socket iff it is open and not authenticated |
| WSGateway.Gateway.HandleDisconnect | src/sources/websocket/websocket.gateway.ts:116-127 | both sets forget the client; unsubscribes iff none is connected and the flag was up |
| WSGateway.Gateway.SocketClosed | src/sources/websocket/websocket.gateway.ts:116-127 | a socket going away by itself grows the run by the drop step |
| WSGateway.Gateway.HandleAuthenticate | src/sources/websocket/websocket.gateway.ts:132-142 | first segment: the run grows by a validation starting iff a token was given |
| WSGateway.Gateway.AuthenticateValidated | src/sources/websocket/websocket.gateway.ts:142-169 | the resumption grows the run by the authenticated step; a success adds exactly this client, a failure changes neither set |
| WSGateway.Gateway.Admission | src/sources/websocket/websocket.gateway.ts:180-206 | gate and limiter, counting entries up in place, act on the map as the shared limiter's step does |
| WSGateway.Gateway.HandleEvent | src/sources/websocket/websocket.gateway.ts:174-206 | an event past the gate follows a successful validation of its client with no disconnect since, and gets the verdict of a limiter of this client's own over all events handled so far |
| WSGateway.Gateway.WithinCap | src/sources/websocket/websocket.gateway.ts:191-206 | what one client got through in an interval stays within the bound, over everything the object handled |
| WSGateway.Gateway.SubscribeRefused | src/sources/websocket/websocket.gateway.ts:65-72 | schedules the next attempt after 2^retry seconds, or gives up after five retries; the total wait is 1000 * (2^n - 1) ms, at most 31000 |
| WSGateway.Gateway.RetryTimer | src/sources/websocket/websocket.gateway.ts:37-70 | the timer starts an attempt iff the flag is down, and there are never more than six |
| WSGateway.Gateway.Connections | src/sources/websocket/websocket.controller.ts:199-212 | the reported difference is the unauthenticated sockets in grace, minus the early and the stale authentications; not negative without an overlap and a pending validation |
| TokenRevocation.RevokedStaysRejected | src/sources/websocket/client-auth.service.ts:22-67 | after a revocation without explicit expiry the token is rejected at every later millisecond, across any such later revocations, with up to 10 s between verify and read |
| TokenRevocation.AcceptedIff | src/sources/websocket/client-auth.service.ts:22-39 | at every pair of instants: a token is accepted iff it is before `exp` and no key for it is read; a failed read counts as none |
| TokenRevocation.RevocationIs | src/sources/websocket/client-auth.service.ts:55-67 | what one revocation does to every key, for every expiry, `exp` and clock |
| TokenRevocation.RevocationProtects | src/sources/websocket/client-auth.service.ts:59-67 | the key outlives the token by ten seconds or the token has expired; a negative TTL only for an expired token |
| TokenRevocation.RejectedForGoodIff | src/sources/websocket/client-auth.service.ts:55-67 | for any expiry and any keys before: rejected for good iff the token is over, or the key written, or left by an earlier revocation when the TTL is negative, outlasts it |
| TokenRevocation.NoExpComesBack | src/sources/websocket/client-auth.service.ts:61 | a token without `exp` is accepted again after 3600 s |
| TokenRevocation.MarginIsExact | src/sources/websocket/client-auth.service.ts:25-67 | for a token revoked while valid, a delayed read can accept it iff the delay exceeds 10000 ms by more than the time from the TTL's full second to the write |
| TokenRevocation.RedisService.Set | src/redis/redis.service.ts:111-121 | a TTL of 0 gives a persistent key, a negative one changes nothing |
| TokenRevocation.ClientAuthService.RevokeToken | src/sources/websocket/client-auth.service.ts:55-72 | writes the key with the computed TTL, as the revocation step does |
| TokenRevocation.ClientAuthService.ValidateToken | src/sources/websocket/client-auth.service.ts:22-39 | accepts iff the token is signed, before `exp`, and no key for it was read |
| Subscriptions.UnacknowledgedReplay | src/redis/redis.service.ts:62-85 | after every segment of overlapping calls, over lost and new connections: set and map have the same channels, and replaying the unacknowledged commands on them gives the channels of an open connection, with the last listener of each, except those the last reconnect missed and no command touched since |
| Subscriptions.Effects | src/redis/redis.service.ts:62-81 | every segment's effect on every channel: which command is issued, what the connection and the service make of it, and what a connect or close leaves |
| Subscriptions.QuiescentAgreement | src/redis/redis.service.ts:62-85 | at quiescence on an open connection: channels agree but for the missed ones, and are those last subscribed, or active at the connect and untouched; listening are all callbacks since the last unsubscription, of which the service knows the last |
| Subscriptions.ReplayIsLast | src/redis/redis.service.ts:69-81 | replaying commands binds a channel as its last command says, and leaves it as it was without one |
| Subscriptions.HeardAgrees | src/redis/redis.service.ts:62-81 | given the same commands, a connection with some channels bound again and the service have the same channels but for the unbound ones without a command, and the service's callback is the listener added last |
| Subscriptions.Resubscribe | src/redis/redis.service.ts:256-262 | the loop binds every active channel to its last callback, or exactly those before the exception |
| Subscriptions.RedisService.SubscribeAcked | src/redis/redis.service.ts:69-70 | the resumption of `subscribe` keeps set, map and connection consistent |
| Subscriptions.RedisService.UnsubscribeAcked | src/redis/redis.service.ts:80-81 | the resumption of `unsubscribe` likewise |
| Subscriptions.RedisService.CheckConnections | src/redis/redis.service.ts:244-268 | a check that reconnects leaves the new connection with every active channel bound to its last callback alone, or, exactly when a resubscription threw, with those before it; an open subscriber is left alone |
| Subscriptions.RedisService.ConnectionLost | src/redis/redis.service.ts:250-251 | a lost connection loses its channels and everything in flight, and the service's bookkeeping stays |
| Subscriptions.RedisService.ReconnectStrategy | src/redis/redis.service.ts:22-28 | counts the attempt and returns the capped delay |
| KafkaRetry.FailuresAccounted | src/sources/kafka/kafka.service.ts:62-143 | failures = 4 * dead letters + failed sends + current counter + counts cleared by successes, per id, over any deliveries |
| KafkaRetry.DeliveryIs | src/sources/kafka/kafka.service.ts:62-143 | what one delivery does to every id's counter, and its outcome: a success removes the counter, the fourth failure is dead-lettered, other ids are untouched |
| KafkaRetry.CounterIs | src/sources/kafka/kafka.service.ts:66-139 | the counter is the tally of the id's failures since its last success and of nothing else |
| KafkaRetry.CounterIsRemainder | src/sources/kafka/kafka.service.ts:66-139 | while no dead-letter send fails it is their number modulo 4 |
| KafkaRetry.CountersInRange | src/sources/kafka/kafka.service.ts:67-101 | stored counters lie in 1..3 |
| KafkaRetry.DeadLettersSayFour | src/sources/kafka/kafka.service.ts:76-80 | every dead-letter record says four attempts |
| KafkaRetry.EveryFourthFailure | src/sources/kafka/kafka.service.ts:69-101 | without successes and failed sends exactly every fourth failure is dead-lettered |
| KafkaRetry.DistinctNeverDeadLetters | src/sources/kafka/kafka.service.ts:62-143 | a delivery whose id was not delivered before is never dead-lettered; if it fails, it is announced as the first of three retries |
| KafkaRetry.KafkaService.HandleFailedMessage | src/sources/kafka/kafka.service.ts:62-107 | counter and record are those of the failure step |
| KafkaRetry.KafkaService.EachMessage | src/sources/kafka/kafka.service.ts:120-144 | the handler's effect on counters and dead letters case by case; the counters equal the replay of all deliveries |
| KafkaRetry.KafkaService.ConnectFailed | src/sources/kafka/kafka.service.ts:47-57 | the next attempt comes after the capped delay |
| Backoff.DelayShape | src/redis/redis.service.ts:25 | the delay is monotone, within [1000, 30000], and 30000 exactly from retry 5 on |
| Backoff.TotalDelayClosed | src/sources/kafka/kafka.service.ts:53-55 | the first n delays sum to 1000 * (2^n - 1) up to n = 5, and to 31000 + 30000 * (n - 5) beyond |

## Left out

- The commented-out versions of `routeEvent` and of the thread count increment are not live code; no load balancing is claimed.
- JWT signatures, uuid generation and JSON text: signatures are a flag, uuids are arbitrary strings with a freshness flag, encoding is taken as a constructor.
- The activity log pushes around `routeEvent`: they touch only their own list.
- A generated step id is recorded as used when its lookup is answered rather than when it is sent; the code in between is local to the call.
- A step without a definition throws in the segment before its lookup, without an `await`; the model lets others run in between, which changes nothing the call reads.
- Field details of documents: string-valued or `null` `threads` (`null` compares as 0 there, not as missing), a `worker_id` inside a worker's details, a missing `instance_id`, and the key order of the worker object; the worker list is a given sequence.
- Redis is a sequential store without failures in the router; a failing command there would throw from `routeEvent` like the modelled errors. Redis outages are modelled for token revocation only.
- The deadline of an expiring key is taken as exclusive; one clock serves the application and Redis.
- Messages are handled while their socket is live, socket ids are not reused, and disconnecting an open socket runs the disconnect handler at once, as Socket.IO does.
- Routing of the payload, user data and tokens from a message, rooms, broadcasts, REST controllers and logging: one-branch plumbing.
- Subscriber connections are FIFO and lose commands only when they close; a health check's reconnect and its resubscriptions are taken as one step.
- Redis client internals: a connection adds a listener for every subscription carried out and starts without listeners; that the client answers a repeated subscription without a command, or restores listeners itself, is not modelled.
- `onModuleDestroy`, the initial `connectClients` loop, metrics, and the NestJS wiring.
- Kafka delivery, offsets and redelivery: any sequence of deliveries is covered.
