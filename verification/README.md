# MCP connector: verified model

The MCP connector lets an AI client work in Odoo. It has two halves. A sidecar server authenticates
the client, queues its operations, calls Odoo through a circuit breaker and forwards change events. An
Odoo module enforces policies and quotas, and lets a client change records only through plans that are
previewed, approved and then executed. This project models the state machines of both halves in Dafny
and proves what they promise over all inputs, runs and interleavings.

`dafny verify dfyconfig.toml` checks everything.

## The files

| files | subject |
|---|---|
| `OperationQueue.dfy`, `QueueProtocol.dfy`, `QueueProgress.dfy` | the bounded FIFO slot allocator, any interleaving of its tasks, and how every key is freed |
| `CircuitBreaker.dfy`, `CircuitProtocol.dfy` | the breaker, and any history of requests that use each permit once |
| `RequestLoop.dfy`, `RequestProtocol.dfy`, `CircuitHealth.dfy` | the retry loop, any number of such loops sharing one breaker, and what Odoo's replies do to it |
| `Policies.dfy`, `FieldAllowlist.dfy` | policy lookup, its listing and its enforcement, and the fields a policy opens |
| `Records.dfy`, `Paging.dfy` | searches and paging |
| `Actions.dfy`, `ActionForms.dfy` | the seven change actions: normal forms and execution, and how they follow the payload |
| `Approvals.dfy`, `ApprovalService.dfy`, `Previews.dfy` | the approval workflow: what it leaves behind, the operations with their savepoints, and requests in the client's words |
| `ApprovalSteps.dfy`, `ApprovalDecisions.dfy`, `ApprovalRuns.dfy`, `Announcements.dfy` | transactions as atomic steps, managers' decisions, invariants of runs, and what is announced |
| `ApprovalAuthority.dfy`, `ApprovalGuarantees.dfy`, `ApprovalProgress.dfy` | on whose authority plans run, what never happens, and how a plan gets to its effect |
| `VersionStream.dfy`, `EventBridge.dfy`, `EventProtocol.dfy`, `EventsEndToEnd.dfy`, `Uris.dfy` | event versions, watchers and subscriptions, and the way from a commit to a listener |
| `Quota.dfy`, `QuotaWindows.dfy` | request quotas over the audit log, and what they bound |
| `IdentityCache.dfy` | the cache of verified API keys |
| `Json.dfy`, `Wrappers.dfy` | JSON values; Option, Result and a little about sequences |

Components that change state are classes with the source's fields. Each method is proved against a
function of the old state, and the theorems are proved of machines that take those functions as steps:
one step for each stretch of code between two suspension points, or for each database transaction.

## Conventions

- Odoo is behind oracles: access rights answer yes or no, models describe their fields, a write to the
  database gives any new store or fails after any change to it, and the bus takes or refuses each
  version. Oracles may differ from one request to the next, so policies, rights and data may change at
  any time.
- The database runs one transaction at a time. Savepoints and transactions are modelled; concurrent
  transactions and row locks are not.
- Canonical JSON and SHA-256 are taken as injective, and new request identifiers as never used before.
- Clocks do not go back within a component. Settings keep the bounds that the source validates
  (at least one attempt, a threshold of at least one, a positive time to live of plans).
- `issued`, `grants` and `journal` in `Approvals.Db`, and `heard`, `told`, `sent`, `calls`, `grants`, `line`
  and the like elsewhere, are history: they record a run and influence nothing.

## Where code and documents differ

The model follows the code.

- The design document of the server speaks of a semaphore for each subject with a bounded wait; the
  code has a FIFO queue.
- It has a watcher ensured after each identity verification; the code ensures
  one only when a subscription begins.
- The states `failed` and `executing` exist, but no transaction that commits leaves a plan in either:
  the error that follows `failed` rolls it back (`ApprovalGuarantees.FailureIsNotDurable`).
- An expiry found while approving is rolled back as well (`ApprovalGuarantees.LateApprovalIsNotDurable`).
- `rate_limit_per_minute` and `daily_quota` read as bounds on any minute and any UTC day. The check counts
  audit rows, which carry the start of their transaction, so one request more can be dispatched
  (`QuotaWindows.TwoWithinHalfAMinute`); `QuotaWindows.QuotasHold` says exactly when, and
  `QuotaWindows.PromptRunsKeepTheLimits` what rules it out.
- The offset limit keeps a client from paging through very large results
  (`Paging.OffsetLimitCutsOff`); `Paging.FetchCollects` says exactly when it does.
- A client may choose an order in which records tie, and then paging can miss some
  (`Paging.TiesLoseRecords`); `Paging.CompleteExactlyWhenDecisive` says exactly when it cannot.
- Approval and execution are tested against the expiry before they are stamped, so `approved_at` and
  `executed_at` may be later than `expires_at`; the theorems speak of the tests.

## Model

| member | source | states |
|---|---|---|
| `OperationQueues.OperationQueue.Enter` | addons/connect_mcp/deploy/connect_mcp_server/src/connect_mcp_server/concurrency.py:38-56 | the locked head of `acquire`: refuses exactly when the key is busy and its deque is full, joins the end of the deque when it is only busy, takes the slot when it is free; the new registry is exactly that |
| `OperationQueues.OperationQueue.PopPending` | addons/connect_mcp/deploy/connect_mcp_server/src/connect_mcp_server/concurrency.py:104-108 | the `popleft` loop drops exactly the finished waiters at the front and yields the first pending one, or none when all were finished |
| `OperationQueues.OperationQueue.ReleaseLocked` | addons/connect_mcp/deploy/connect_mcp_server/src/connect_mcp_server/concurrency.py:103-110 | either the first pending waiter is granted, or the entry is retired and its key leaves the registry |
| `OperationQueues.OperationQueue.DiscardWaiter` | addons/connect_mcp/deploy/connect_mcp_server/src/connect_mcp_server/concurrency.py:83-97 | a waiter still queued is removed; one that was granted meanwhile passes the slot on; a cancelled one that a release skipped changes nothing |
| `OperationQueues.OperationQueue.Release` | addons/connect_mcp/deploy/connect_mcp_server/src/connect_mcp_server/concurrency.py:99-101 | the slot goes on as in `_release_locked` |
| `OperationQueues.KeysShared` | addons/connect_mcp/deploy/connect_mcp_server/src/connect_mcp_server/concurrency.py:37 | two subjects share a deque if and only if they are one or the scope is global |
| `QueueProtocol.StepsAreTheMethods` | addons/connect_mcp/deploy/connect_mcp_server/src/connect_mcp_server/concurrency.py:36-110 | every step of the interleaving changes the registry exactly as the method for that locked section does |
| `QueueProtocol.StepKeeps` | addons/connect_mcp/deploy/connect_mcp_server/src/connect_mcp_server/concurrency.py:36-110 | each arrival, grant, resumption, timeout, cancellation, discard and release keeps the whole invariant |
| `QueueProtocol.RunKeeps` | addons/connect_mcp/deploy/connect_mcp_server/src/connect_mcp_server/concurrency.py:36-110 | the invariant after any interleaving of any number of tasks |
| `QueueProtocol.SlotSafety` | addons/connect_mcp/deploy/connect_mcp_server/src/connect_mcp_server/concurrency.py:36-110 | in every reachable state each registered key is active and has exactly one slot owner, nobody owns a slot through another entry than the registered one, waiters never exceed the maximum, and nothing is registered once all tasks have finished |
| `QueueProtocol.FirstComeFirstServed` | addons/connect_mcp/deploy/connect_mcp_server/src/connect_mcp_server/concurrency.py:54-56 | slots of a key are given in order of arrival: whoever was granted, every earlier arrival on that key had been granted or had given up |
| `QueueProtocol.ArrivalsAreToldExactly` | addons/connect_mcp/deploy/connect_mcp_server/src/connect_mcp_server/concurrency.py:38-56 | in every reachable state an arrival takes the slot if and only if its key has no owner, is refused if and only if the maximum of tasks is queued behind the owner, and joins the queue otherwise |
| `QueueProtocol.HopefulQueued` | addons/connect_mcp/deploy/connect_mcp_server/src/connect_mcp_server/concurrency.py:60-65 | a task that still waits stands in the registered deque of its key behind a live owner: no wake-up is lost |
| `QueueProgress.OwnerProgress` | addons/connect_mcp/deploy/connect_mcp_server/src/connect_mcp_server/concurrency.py:103-110 | an owner's next step strictly lowers the key's load (owner plus waiters) |
| `QueueProgress.OnlyArrivalsDelay` | addons/connect_mcp/deploy/connect_mcp_server/src/connect_mcp_server/concurrency.py:36-110 | no step but an arrival ever raises a key's load |
| `QueueProgress.DrainServesAll` | addons/connect_mcp/deploy/connect_mcp_server/src/connect_mcp_server/concurrency.py:103-110 | the owners of a key, acting alone, always can free it: there is such a schedule within its load, in which every task that was waiting is granted the slot |
| `QueueProgress.AnyScheduleServesAll` | addons/connect_mcp/deploy/connect_mcp_server/src/connect_mcp_server/concurrency.py:36-110 | in any schedule without arrivals under a key in which its owners get as many turns as its load, whatever all other tasks do: the key is free, nobody owns or awaits its slot, every task that was waiting has been granted it or has given up, and all that were ever granted it have been served or have left |
| `QueueProgress.TurnsFree` | addons/connect_mcp/deploy/connect_mcp_server/src/connect_mcp_server/concurrency.py:103-110 | without arrivals under a key, the turns of its owners plus its final load never exceed its first load, whatever the other tasks do |
| `QueueProtocol.QuietQueueIsEmpty` | addons/connect_mcp/deploy/connect_mcp_server/src/connect_mcp_server/concurrency.py:109-110 | when no task is queued or holding, no key is registered |
| `CircuitProtocol.StatusTells` | addons/connect_mcp/deploy/connect_mcp_server/src/connect_mcp_server/client.py:49-55 | what the state property tells of a shared breaker, in terms of its history: closed if and only if it never opened or closed since, half-open if and only if some request holds an unresolved probe, open if and only if it opened and no permit issued since is out |
| `CircuitBreakers.CircuitBreaker.Acquire` | addons/connect_mcp/deploy/connect_mcp_server/src/connect_mcp_server/client.py:57-66 | issues an ordinary permit when closed, the one probe when open and due, and refuses otherwise; the new state is stated outright |
| `CircuitBreakers.CircuitBreaker.RecordSuccess` | addons/connect_mcp/deploy/connect_mcp_server/src/connect_mcp_server/client.py:68-76 | the new state after a success; a permit of another generation changes nothing |
| `CircuitBreakers.CircuitBreaker.RecordFailure` | addons/connect_mcp/deploy/connect_mcp_server/src/connect_mcp_server/client.py:78-86 | the new state after a failure; a permit of another generation changes nothing |
| `CircuitBreakers.CircuitBreaker.Release` | addons/connect_mcp/deploy/connect_mcp_server/src/connect_mcp_server/client.py:88-92 | gives an unresolved current probe back and changes nothing else |
| `CircuitProtocol.EventKeeps` | addons/connect_mcp/deploy/connect_mcp_server/src/connect_mcp_server/client.py:57-92 | with single-use permits, each acquisition and each result keeps the invariant: at most one unresolved probe and one exactly when `_probe_in_flight`; `_generation` is the number of openings and closings, and the current permits are those issued since the last; the count is the run of failures among reports on those; no permit within `reset_seconds` of an opening |
| `CircuitProtocol.FromTheStart` | addons/connect_mcp/deploy/connect_mcp_server/src/connect_mcp_server/client.py:57-92 | that invariant after any history of any number of requests sharing the breaker |
| `CircuitProtocol.OnlyTheProbeTurns` | addons/connect_mcp/deploy/connect_mcp_server/src/connect_mcp_server/client.py:68-86 | an open circuit closes if and only if its one unresolved probe reports success, and opens anew, for a whole interval, if and only if that probe reports failure |
| `CircuitProtocol.OpensAtTheThreshold` | addons/connect_mcp/deploy/connect_mcp_server/src/connect_mcp_server/client.py:78-86 | a closed circuit opens if and only if the report is the threshold-th failure in a row among the reports on permits issued since it last opened or closed, whatever is interleaved |
| `CircuitProtocol.RefusedExactlyWhen` | addons/connect_mcp/deploy/connect_mcp_server/src/connect_mcp_server/client.py:57-66 | a request is refused if and only if the circuit has opened and not closed since, and its interval is running or another request's probe is unresolved; it gets a probe if and only if it is open |
| `CircuitProtocol.CountsExactlyWhenCurrent` | addons/connect_mcp/deploy/connect_mcp_server/src/connect_mcp_server/client.py:68-92 | a success or failure counts if and only if the circuit has neither opened nor closed since its permit was issued; one that does not count changes neither the breaker nor the run of failures |
| `RequestLoop.OdooControlClient.Attempt` | addons/connect_mcp/deploy/connect_mcp_server/src/connect_mcp_server/client.py:185-246 | one attempt disposes of its permit exactly once, on every way out of the try statement, with the verdict that fits its reply |
| `RequestLoop.VerdictFits` | addons/connect_mcp/deploy/connect_mcp_server/src/connect_mcp_server/client.py:195-246 | a permit is judged a failure if and only if there was a transport error or a response within the size with status 502, 503 or 504, unresolved if and only if the attempt was interrupted, and a success otherwise |
| `RequestLoop.OdooControlClient.RequestJson` | addons/connect_mcp/deploy/connect_mcp_server/src/connect_mcp_server/client.py:166-252 | the retry loop computes the answer, the number of requests and the breaker calls of the recursive specification |
| `RequestLoop.LoopAnswers` | addons/connect_mcp/deploy/connect_mcp_server/src/connect_mcp_server/client.py:176-252 | each permit is judged by its own reply; the loop goes round again if and only if Odoo was unavailable and it may and is not cancelled; each kind of answer is given if and only if the last reply is of its kind, unless the breaker refused the next attempt |
| `RequestLoop.LoopDischarges` | addons/connect_mcp/deploy/connect_mcp_server/src/connect_mcp_server/client.py:176-252 | on every exit each permit was disposed of exactly once by the same permit; at most `attempts` requests are sent and at most one when unsafe; the loop falls through only with no attempts |
| `RequestLoop.OdooControlClient.Execute` | addons/connect_mcp/deploy/connect_mcp_server/src/connect_mcp_server/client.py:147-164 | the loop runs as safe if and only if the operation is in SAFE_OPERATIONS, so previews and executions are sent at most once; its answer and verdicts fit the replies; whatever happens, every permit acquired is disposed of before it returns |
| `RequestProtocol.AlwaysObliging` | addons/connect_mcp/deploy/connect_mcp_server/src/connect_mcp_server/client.py:178-246 | every step of every concurrent request meets the breaker's rely condition: it reports only a permit that is still pending |
| `RequestProtocol.StepKeeps` | addons/connect_mcp/deploy/connect_mcp_server/src/connect_mcp_server/client.py:166-252 | over interleaved requests the unresolved permits are exactly those of the requests now in flight |
| `RequestProtocol.NoProbeLeaks` | addons/connect_mcp/deploy/connect_mcp_server/src/connect_mcp_server/client.py:244-246 | in every run, `_probe_in_flight` means that some unfinished request holds the probe; when all are finished none is in flight |
| `RequestProtocol.AloneIsTheLoop` | addons/connect_mcp/deploy/connect_mcp_server/src/connect_mcp_server/client.py:166-252 | a request left alone in the interleaved model runs exactly the loop |
| `CircuitHealth.HealthyFleetsStayClosed` | addons/connect_mcp/deploy/connect_mcp_server/src/connect_mcp_server/client.py:166-252 | as long as no request learns that Odoo is unavailable, a closed breaker stays closed, whatever else Odoo answers and however many requests are interleaved or interrupted |
| `CircuitHealth.FailuresAddUp` | addons/connect_mcp/deploy/connect_mcp_server/src/connect_mcp_server/client.py:78-86 | while the breaker is closed and Odoo answers nobody, each failure read under a current permit lengthens the run by one, and it stays below the threshold |
| `CircuitHealth.FailuresOpenTheBreaker` | addons/connect_mcp/deploy/connect_mcp_server/src/connect_mcp_server/client.py:78-86 | once as many such failures as the threshold have been read, and for as long as Odoo answers nobody, the breaker is not closed |
| `Policies.FindPolicy` | addons/connect_mcp/models/profile.py:212-227 | an active policy of that model if there is one, none only if there is none |
| `Policies.RecordLimit` | addons/connect_mcp/models/profile.py:87-88 | the smaller of the profile's cap and a nonzero cap of the policy |
| `Policies.AdmittedExactly` | addons/connect_mcp/models/service.py:869-881 | a request passes with a policy if and only if the name is proper, the model installed, the right granted in Odoo, and either the model's first active policy has the operation's own flag, or there is none, the model is ordinary and the profile opens the operation to every model; the error tells which of these failed |
| `Policies.DeniedExactly` | addons/connect_mcp/models/profile.py:212-234 | policy_denied if and only if no policy permits the operation or the name is malformed |
| `Policies.OpenIsAdmitted` | addons/connect_mcp/models/service.py:871-887 | on an installed, well-named model the listing's test and enforcement are one |
| `Policies.OperationsOn` | addons/connect_mcp/models/service.py:236-253 | the inner loop of `models.list`: exactly the open operations in their fixed order, with the limit of the first one |
| `Policies.ModelsList` | addons/connect_mcp/models/service.py:226-261 | an operation is advertised on a model if and only if enforcement admits it; it fails as a whole exactly when an installed candidate has a malformed name |
| `Policies.AdmittedIsCandidate` | addons/connect_mcp/models/profile.py:237-243 | whatever enforcement admits is among the models the listing looks at |
| `Records.FoundInOrder` | addons/connect_mcp/models/service.py:294-314 | a search finds exactly the rows that the domain admits, each once and in order of the table |
| `Paging.PageIs` | addons/connect_mcp/models/service.py:294-314 | whatever sequence of matches the database answers from, one page is its next limit-many records, none beyond the end, and says rightly whether any remain; it is refused exactly beyond the offset limit |
| `Paging.LimitExactly` | addons/connect_mcp/models/service.py:968-970 | the limit is the smallest of the request's, the policy's and the profile's, and the request's must be a positive integer if given |
| `Paging.OffsetExactly` | addons/connect_mcp/models/service.py:973-978 | an offset is an integer from 0 to 100000, or one of the values that Python finds in (None, False) |
| `Paging.FetchCollects` | addons/connect_mcp/models/service.py:968-978 | in an order in which no two matches tie, each page answered by a search of its own: paging by `returned` from any offset succeeds if and only if the last page, offset + (remaining - 1) / limit * limit, starts at or below 100000, and then yields every remaining record once and in order |
| `Paging.PagingIsComplete` | addons/connect_mcp/models/service.py:294-314 | in such an order a table is paged completely, each record of the client's and the forced domain once and in order, if and only if (matches - 1) / limit * limit is at most 100000, so at every requested limit when there are at most 100001 |
| `Paging.OffsetLimitCutsOff` | addons/connect_mcp/models/service.py:973-978 | no larger table can be paged one by one, in any order |
| `Paging.TiesLoseRecords` | addons/connect_mcp/models/service.py:301-304 | if two of at most 100001 matches tie, the database may order the searches so that a client which pages one by one gets one record twice and another never, without an error |
| `Paging.CompleteExactlyWhenDecisive` | addons/connect_mcp/models/service.py:301-304 | so paging up to 100001 matches one by one is complete, whatever the database does with ties, if and only if no two matches tie |
| `FieldAllowlist.AllowedExactly` | addons/connect_mcp/models/profile.py:410-437 | for both kinds of policy and every operation, a field is allowed if and only if it is described and, by itself, open: not sensitive, binary, magic or read-only through the fallback; configured, and binary only where allowed, through an explicit policy |
| `FieldAllowlist.SensitiveInAnyCase` | addons/connect_mcp/models/profile.py:11-14 | a name that contains a sensitive word in any case is sensitive, wherever the word stands |
| `FieldAllowlist.SensitiveExactly` | addons/connect_mcp/models/profile.py:11-14 | a name is sensitive if and only if some part of it is a spelling of a listed word, or of `api` and `key` with one character between |
| `Actions.ParseIdsExactly` | addons/connect_mcp/models/service.py:998-1012 | exactly the lists of distinct positive ids within the bounds are accepted, as they are, and a missing list where it may be empty |
| `Actions.AcceptedExactly` | addons/connect_mcp/models/service.py:947-966 | values are accepted if and only if they are not empty and each field may be written: allowed by the policy, not magic, known, accessible and not read-only |
| `Actions.NormalFormKeys` | addons/connect_mcp/models/service.py:563-780 | the normal form of each action has exactly the keys of that action |
| `ActionForms.NormalFormSaysTheSame` | addons/connect_mcp/models/service.py:563-780 | the normal form of each action carries the payload's value at each key, up to the stated defaults, truncations and the order of ids, and the plan has its action's risk and its payload's size |
| `Actions.SameFormSameAction` | addons/connect_mcp/models/service.py:563-780 | equal normal forms come from the same action, even under different policies and data |
| `Actions.FoundIsAsked` | addons/connect_mcp/models/service.py:906-919 | the records found are the asked-for set, each once, all inside the forced domain and open to the user for the operation |
| `Actions.PreparedAgain` | addons/connect_mcp/models/service.py:547-780 | for all seven actions, preparing a normal form under the same policy and data yields it again |
| `Actions.ApprovedIsExecuted` | addons/connect_mcp/models/service.py:783-785 | executing the approved normal form is executing the request it came from, under unchanged policy and data |
| `Actions.RecordsFoundExactly` | addons/connect_mcp/models/service.py:906-919 | over a table with unique ids, records are found if and only if each of them is inside the forced domain and open to the user |
| `Actions.PlannedExactly` | addons/connect_mcp/models/service.py:563-780 | for all seven actions, a request becomes a plan if and only if the policy of that moment permits it (admission, fields that may be written, the limits on batches, bodies, names, types, sizes and methods) and the records it names are found |
| `Actions.ExecutedWithinPolicy` | addons/connect_mcp/models/service.py:783-785 | whatever is executed is permitted by the policy at execution |
| `Actions.ExecutedFields` | addons/connect_mcp/models/profile.py:93-117 | an executed create or update named no sensitive, binary, magic or read-only field through the fallback, and only configured write fields, binary ones only with `allow_binary_write`, through an explicit policy |
| `Actions.OnlyThePostconditionComesLate` | addons/connect_mcp/models/service.py:783-855 | an execution that fails and leaves another store had passed every check before its write, and failed in the database or, as a create or an update, in the domain postcondition, which is false of the records it wrote |
| `Actions.KeptExactly` | addons/connect_mcp/models/service.py:922-931 | that postcondition holds if and only if each record by itself is inside the forced domain |
| `Actions.PostconditionFailsAfterTheWrite` | addons/connect_mcp/models/service.py:787-790 | that does happen: under a concrete policy, a concrete create is refused for its forced domain after its record is in the store |
| `Actions.ExecuteConfined` | addons/connect_mcp/models/service.py:783-855 | a successful action handed Odoo exactly what its payload names: updates and deletes exactly the id set, inside the forced domain and open to the user beforehand; creates and updates inside it afterwards; writes carry exactly the payload values; single-record actions hit their one record, which the user may write |
| `ActionForms.SucceedsExactly` | addons/connect_mcp/models/service.py:783-855 | an execution succeeds if and only if its payload may be planned, an activity's user is properly named, and Odoo accepts the write and leaves the written records of creates and updates inside the forced domain |
| `Actions.UpdateConfined` | addons/connect_mcp/models/service.py:793-798 | that, for updates, under any policy, data and access rights |
| `Actions.DeleteConfined` | addons/connect_mcp/models/service.py:799-804 | that, for deletes |
| `Actions.CreateConfined` | addons/connect_mcp/models/service.py:787-791 | that, for creates |
| `Actions.TargetConfined` | addons/connect_mcp/models/service.py:805-841 | that, for messages, activities and attachments, with write access to their record |
| `Actions.MethodConfined` | addons/connect_mcp/models/service.py:842-854 | method calls run once, on the normal form, over records found inside the forced domain beforehand and open to the user |
| `ApprovalService.ConnectMcpService.PublishResourceUpdate` | addons/connect_mcp/models/access.py:103-127 | raises the version and puts one notice with it on the bus, or fails after raising it |
| `ApprovalService.ConnectMcpService.SystemWrite` | addons/connect_mcp/models/approval.py:118-127 | writes every row, then publishes each in order until one publication fails |
| `ApprovalService.ConnectMcpService.PublishExecutionUpdates` | addons/connect_mcp/models/service.py:529-543 | publishes one record resource for each positive id, in order |
| `ApprovalService.ConnectMcpService.OpChangePreview` | addons/connect_mcp/models/service.py:425-484 | a taken key repeats its plan or conflicts; a free one gets a new plan |
| `Previews.PlansExactly` | addons/connect_mcp/models/service.py:425-450 | a request becomes a plan if and only if it asks for one of the seven actions by its name, with a key of 8 to 128 characters and a payload that this action accepts |
| `Previews.UnknownActionsAreRefused` | addons/connect_mcp/models/service.py:547-561 | a request that asks for no known action becomes no plan |
| `Previews.PreviewedAsAsked` | addons/connect_mcp/models/service.py:458-484 | the one plan that a preview adds is of the action asked for by name, says what the payload says, has the request's key and access, expires when the time to live has passed, and is what the client is shown |
| `Previews.FoundByItsAccess` | addons/connect_mcp/models/service.py:486-527 | a client reaches exactly the plans of its own access |
| `Previews.DoneAsAsked` | addons/connect_mcp/models/service.py:783-855 | an execution has Odoo do what the action's wire name says: `record.update` ends in one write of the payload's values to exactly the payload's ids, `record.delete` in one unlink of them, `record.create` in one create of its items, the others in one call with the payload's values |
| `ApprovalService.ConnectMcpService.OpChangeStatus` | addons/connect_mcp/models/service.py:486-491 | an overdue live plan is expired before it is shown |
| `ApprovalService.ConnectMcpService.RunAction` | addons/connect_mcp/models/service.py:510-523 | the try block: a failing action leaves the store to the inner savepoint, a successful one is recorded and announced |
| `ApprovalService.ConnectMcpService.RecordFailure` | addons/connect_mcp/models/service.py:524-526 | the failure is written, and raised unless writing it raises another |
| `ApprovalService.ConnectMcpService.OpChangeExecute` | addons/connect_mcp/models/service.py:493-527 | the whole of an execution, with everything it leaves behind before the outer savepoint |
| `ApprovalService.ConnectMcpService.ExecuteRequest` | addons/connect_mcp/models/service.py:81-82 | an operation that raises leaves the database as it was |
| `ApprovalService.ConnectMcpService.ActionApprove` | addons/connect_mcp/models/approval.py:85-101 | managers only; record after record until one fails |
| `ApprovalService.ConnectMcpService.ActionReject` | addons/connect_mcp/models/approval.py:103-116 | managers only; record after record until one fails |
| `ApprovalService.ConnectMcpService.GcApprovals` | addons/connect_mcp/models/approval.py:177-198 | overdue plans are expired and announced, then old finished ones are removed |
| `ApprovalSteps.PublishAllIs` | addons/connect_mcp/models/access.py:103-127 | a list of publications succeeds if and only if the bus takes as many versions, and they are then consecutive and in order |
| `Announcements.DecisionsAreAnnounced` | addons/connect_mcp/models/approval.py:118-127 | a decision or a cleanup that goes through announces exactly the plans that it decides on or expires, in order, each to its own access |
| `Announcements.DecimalIsANumeral` | addons/connect_mcp/models/service.py:529-543 | ids are written as decimal numerals without leading zeros |
| `Announcements.PlanUrisDiffer` | addons/connect_mcp/models/approval.py:118-127 | different plans have different uris |
| `Announcements.RecordUrisDiffer` | addons/connect_mcp/models/service.py:529-543 | different records have different uris |
| `Announcements.PlansAreNotRecords` | addons/connect_mcp/models/service.py:529-543 | no plan's uri is a record's |
| `ApprovalSteps.ExecutionIsAtomic` | addons/connect_mcp/models/service.py:493-527 | nested savepoints, the executing and failed states and all publications refine one step: nothing, an expiry, or one commit; every error leaves the database as it was |
| `ApprovalSteps.ExecutesExactlyWhen` | addons/connect_mcp/models/service.py:502-523 | an approved, intact plan that is in time is executed if and only if its action succeeds and the bus takes every announcement; these are the plan twice and each record once |
| `ApprovalRuns.CommitKeeps` | addons/connect_mcp/models/service.py:512-523 | a commit keeps every invariant: its plan had had no effect before |
| `ApprovalRuns.InsertKeeps` | addons/connect_mcp/models/service.py:459-484 | a new plan has its key and identifier to itself, keeps every invariant, and is approved at once if and only if its profile opts in to that and it is a low-risk message or activity; otherwise it is pending |
| `ApprovalRuns.ApproveKeeps` | addons/connect_mcp/models/approval.py:88-101 | an approval of any selection keeps every invariant and has no business effect |
| `ApprovalRuns.CollectKeeps` | addons/connect_mcp/models/approval.py:177-198 | a cleanup keeps every invariant and forgets no effect |
| `ApprovalRuns.StepKeeps` | addons/connect_mcp/models/service.py:81-82 | every transaction keeps every invariant, moves plans only lawfully, and touches business records only by executing one plan |
| `ApprovalRuns.RunKeeps` | addons/connect_mcp/models/service.py:425-527 | the invariants, and the lawful relation between the first and the last database, over any run of requests, decisions, cleanups and outside edits |
| `ApprovalGuarantees.EveryRunIsSafe` | addons/connect_mcp/models/service.py:493-527 | no plan ever has two effects, and each effect came after one transaction of the run approved the plan: a manager's decision on the pending plan, or a preview under a profile that opted in; one on file has had its effect if and only if it is executed, and then both happened before it expired; none is on file as failed or executing |
| `ApprovalGuarantees.FailuresLeaveNoTrace` | addons/connect_mcp/models/service.py:81-82 | the transactions that fail can be left out of any run: the rest is still possible, even from an earlier moment, and ends in the same database |
| `ApprovalAuthority.OnlyManagersDecide` | addons/connect_mcp/models/approval.py:85-116 | a decision that changes anything was a manager's |
| `ApprovalAuthority.StepAuthority` | addons/connect_mcp/models/approval.py:85-101 | no transaction gives a grant or changes an approver but a manager's approval of a pending plan that is in time, and a preview under a profile that opted in |
| `ApprovalAuthority.EveryGrantIsAuthorized` | addons/connect_mcp/models/service.py:458-482 | between any two moments, each new grant was given by one such transaction of the run |
| `ApprovalAuthority.ApprovedByAManager` | addons/connect_mcp/models/approval.py:85-101 | whoever a plan names as its approver, and did not name before, is a manager whose decision in the run had that plan in its selection; the reading of its clock is the one on record and was before the expiry |
| `ApprovalAuthority.ApprovedByTheProfile` | addons/connect_mcp/models/service.py:458-482 | a plan made in the run and approved without a manager was made by a preview under a profile that opted in, as a low-risk message or activity |
| `ApprovalGuarantees.NoWayBack` | addons/connect_mcp/models/approval.py:52-66 | a plan never returns to pending, executed and expired rows never change, a rejected one can only expire, and action, payload, hash, key and expiry never change |
| `ApprovalGuarantees.DeadPlansNeverRun` | addons/connect_mcp/models/service.py:499-503 | a rejected or expired plan has no effect in any future, not even after the cleanup has forgotten it |
| `ApprovalGuarantees.ExecutedOnlyOnce` | addons/connect_mcp/models/service.py:497-498 | once a request has executed a plan, no later one does |
| `ApprovalGuarantees.StoreChangesAreConfined` | addons/connect_mcp/models/service.py:510-515 | the connector changes business records only when a request executes one approved plan in time, within the policy of that moment, and the change is confined to that plan's payload |
| `ApprovalGuarantees.CommittedFieldsAreOpen` | addons/connect_mcp/models/service.py:947-966 | no committed create or update, in any run, names a field that the policy of that moment does not open |
| `ApprovalGuarantees.PreviewIsIdempotent` | addons/connect_mcp/models/service.py:437-457 | one key of one access denotes at most one plan: a preview repeats it, or conflicts and changes nothing; a free key gets exactly one new row |
| `ApprovalGuarantees.RepeatedPreview` | addons/connect_mcp/models/service.py:444-457 | after any run, while the plan is on file: an equal normal form returns it, adds no row and asks for the same action; any other conflicts |
| `ApprovalProgress.PlansWait` | addons/connect_mcp/models/service.py:486-503 | a pending or approved plan stays as it is, whatever happens, until a manager decides on it, a request asks for its execution, or something finds it past its expiry |
| `ApprovalProgress.ApprovedPlansRun` | addons/connect_mcp/models/service.py:493-527 | whatever happened since its preview: a plan that stands approved, by a manager or by its profile, does when it is executed, in time, under the data and policy of the preview and with a willing bus, exactly what the action that the client asked for by name does with the payload it gave, once, or fails as that would and changes nothing |
| `ApprovalProgress.PlansRunThrough` | addons/connect_mcp/models/service.py:425-527 | a previewed plan that a manager then approves, in any selection, and the client then has executed, in time, does just that, with any number of other requests, decisions on other plans, cleanups and outside edits before and after the approval |
| `ApprovalGuarantees.FailureIsNotDurable` | addons/connect_mcp/models/service.py:524-526 | a failing action is recorded as failed inside its request, but the error it raises takes that back: the plan stays approved |
| `ApprovalGuarantees.LateApprovalIsNotDurable` | addons/connect_mcp/models/approval.py:92-94 | a late approval writes expired and raises, and its transaction takes that back |
| `ApprovalGuarantees.AnswersAreTrue` | addons/connect_mcp/models/service.py:486-503 | a status or an execution that answers shows the row on file, never an overdue plan as live, and an approved plan only as executed or expired |
| `ApprovalDecisions.ApprovalTakesAll` | addons/connect_mcp/models/approval.py:88-101 | an approval that succeeds found every plan of the selection pending, in time and named once, approved each of them and touched no other; with a willing bus it succeeds whenever that is so |
| `ApprovalDecisions.RejectionTakesAll` | addons/connect_mcp/models/approval.py:106-116 | the same of a rejection, for pending and approved plans |
| `ApprovalGuarantees.CleanupSparesLivePlans` | addons/connect_mcp/models/approval.py:177-198 | a cleanup expires only live plans that are overdue, forgets only plans past their retention of at least a day that are over or overdue, and changes nothing else |
| `ApprovalGuarantees.CleanupIsThorough` | addons/connect_mcp/models/approval.py:177-198 | below its search limits a cleanup leaves no overdue plan live and no finished one past its retention |
| `EventBridges.SubscriptionPublisher.Publish` | addons/connect_mcp/deploy/connect_mcp_server/src/connect_mcp_server/subscriptions.py:61-65 | the uri goes out on the subject's bus, which is created if there is none |
| `EventBridges.SubscriptionPublisher.Handler` | addons/connect_mcp/deploy/connect_mcp_server/src/connect_mcp_server/subscriptions.py:67-72 | one handler a subject, on that subject's bus |
| `EventBridges.SubscriptionPublisher.RemoveSubject` | addons/connect_mcp/deploy/connect_mcp_server/src/connect_mcp_server/subscriptions.py:74-78 | the subject's handler and bus go, and nobody else's |
| `EventBridges.SubscriptionPublisher.Close` | addons/connect_mcp/deploy/connect_mcp_server/src/connect_mcp_server/subscriptions.py:80-84 | all handlers and buses go |
| `EventBridges.OdooEventBridge.EnsureWatcher` | addons/connect_mcp/deploy/connect_mcp_server/src/connect_mcp_server/subscriptions.py:139-152 | a task is started if and only if the bridge is open, events are on and no registered one is unfinished |
| `EventBridges.OdooEventBridge.Subscribe` | addons/connect_mcp/deploy/connect_mcp_server/src/connect_mcp_server/subscriptions.py:115-124 | the count rises and a watcher is ensured, in one step; nothing is counted when closed, off or without a subject |
| `EventBridges.OdooEventBridge.Unsubscribe` | addons/connect_mcp/deploy/connect_mcp_server/src/connect_mcp_server/subscriptions.py:125-137 | the count falls; the last one removes the subject's count, watcher, versions, handler and bus and cancels its task |
| `EventBridges.OdooEventBridge.WatcherDone` | addons/connect_mcp/deploy/connect_mcp_server/src/connect_mcp_server/subscriptions.py:154-156 | only the task that is registered is removed |
| `EventBridges.OdooEventBridge.HandleMessage` | addons/connect_mcp/deploy/connect_mcp_server/src/connect_mcp_server/subscriptions.py:244-268 | one message that is not interrupted delivers exactly its well-formed updates, in order: versions and publications are those of the specification |
| `EventProtocol.MessageIsItsElements` | addons/connect_mcp/deploy/connect_mcp_server/src/connect_mcp_server/subscriptions.py:251-268 | such a message is its elements received one by one, the steps between which everything else may happen |
| `EventBridges.OdooEventBridge.CloseBegin` | addons/connect_mcp/deploy/connect_mcp_server/src/connect_mcp_server/subscriptions.py:291-295 | the bridge closes and every registered task is told to stop |
| `EventBridges.OdooEventBridge.CloseEnd` | addons/connect_mcp/deploy/connect_mcp_server/src/connect_mcp_server/subscriptions.py:298-301 | every map is emptied |
| `VersionStream.EncodedUpdateParses` | addons/connect_mcp/deploy/connect_mcp_server/src/connect_mcp_server/subscriptions.py:251-263 | what Odoo sends is parsed as what was meant, if and only if it is about an odoo:// resource |
| `VersionStream.ParsedExactly` | addons/connect_mcp/deploy/connect_mcp_server/src/connect_mcp_server/subscriptions.py:251-263 | a notification is taken for an update if and only if it is a resource update about an odoo:// uri with an integer version |
| `VersionStream.PublishedAreMaxima` | addons/connect_mcp/deploy/connect_mcp_server/src/connect_mcp_server/subscriptions.py:264-268 | for any delivery, the versions published for a resource are exactly the strict running maxima above what was remembered |
| `VersionStream.ReplaysPublishOnce` | addons/connect_mcp/deploy/connect_mcp_server/src/connect_mcp_server/subscriptions.py:244-268 | replays without gaps of a stream with increasing versions publish each covered event exactly once and in order |
| `VersionStream.OtherSubjectsKept` | addons/connect_mcp/deploy/connect_mcp_server/src/connect_mcp_server/subscriptions.py:264-267 | a delivery for one subject leaves every other subject's versions alone |
| `EventProtocol.StepKeeps` | addons/connect_mcp/deploy/connect_mcp_server/src/connect_mcp_server/subscriptions.py:115-158 | every subscription, unsubscription, task end, late callback, message and closing step keeps the invariant |
| `EventProtocol.EveryRunIsSafe` | addons/connect_mcp/deploy/connect_mcp_server/src/connect_mcp_server/subscriptions.py:115-158 | until closing, reference counts are the numbers of live subscriptions, a registered watcher has at least one, and no subject has two uncancelled running watchers; from closing on none runs |
| `EventProtocol.ClosedForGood` | addons/connect_mcp/deploy/connect_mcp_server/src/connect_mcp_server/subscriptions.py:291-301 | once closing is done every map is empty, and nothing that still comes late fills the counts, watchers or versions again |
| `EventProtocol.SubscribersAreWatched` | addons/connect_mcp/deploy/connect_mcp_server/src/connect_mcp_server/subscriptions.py:139-152 | after a subscription the subject has a running registered watcher, the one it had if there was one |
| `EventProtocol.LateCallbacksAreHarmless` | addons/connect_mcp/deploy/connect_mcp_server/src/connect_mcp_server/subscriptions.py:154-156 | a late completion callback never evicts a running watcher |
| `EventProtocol.LastOneOut` | addons/connect_mcp/deploy/connect_mcp_server/src/connect_mcp_server/subscriptions.py:125-137 | the last unsubscription clears all of its subject's state, stops its watcher and touches no other subject |
| `EventProtocol.ListenersGetTheMaxima` | addons/connect_mcp/deploy/connect_mcp_server/src/connect_mcp_server/subscriptions.py:57-72 | over any interleaving, a subject's listeners' bus carried exactly the strict running maxima of what was heard since its first live subscription |
| `EventProtocol.ListenersGetTheStream` | addons/connect_mcp/deploy/connect_mcp_server/src/connect_mcp_server/subscriptions.py:244-268 | over any interleaving, gap-free replays reach the listeners once each and in order |
| `EventsEndToEnd.CommittedStreamIsSound` | addons/connect_mcp/models/access.py:103-127 | after any run of transactions each access's committed events are numbered 1, 2, 3, ... and parse as what was meant |
| `EventsEndToEnd.ListenersSeeWhatWasCommitted` | addons/connect_mcp/deploy/connect_mcp_server/src/connect_mcp_server/subscriptions.py:244-268 | from commit to listener: from whatever place of the access's history a subject listens, as far as its connections covered the events committed from there on, the listeners got each exactly once, in order of commit |
| `Quotas.Connector.CheckQuota` | addons/connect_mcp/models/access.py:74-91 | the minute limit first, then a nonzero daily quota, over the audit rows |
| `Quotas.Connector.ExecuteRequest` | addons/connect_mcp/models/service.py:73-82 | a request is dispatched if and only if no quota error stands, and leaves one audit row and one use either way |
| `Quotas.Connector.Audit` | addons/connect_mcp/models/service.py:144-159 | one row is appended |
| `Quotas.Connector.RecordUse` | addons/connect_mcp/models/access.py:93-101 | one use, and one failure unless it succeeded |
| `Quotas.Connector.GcAuditLogs` | addons/connect_mcp/models/audit.py:58-67 | exactly the rows found are removed |
| `QuotaRuns.WithoutKeepsCounts` | addons/connect_mcp/models/audit.py:65-67 | removing rows older than a moment changes no count from that moment on |
| `QuotaRuns.CheckIsExact` | addons/connect_mcp/models/access.py:74-91 | the check over the cleaned log admits a request if and only if a check over the whole history would |
| `QuotaRuns.RefusalsSayWhy` | addons/connect_mcp/models/access.py:74-91 | a refusal names the minute limit whenever the last minute of the whole history reaches it, and the daily quota whenever only that is used up |
| `QuotaRuns.CleanupSparesRecentRows` | addons/connect_mcp/models/audit.py:58-67 | no row within its retention is removed |
| `QuotaRuns.EventKeeps` | addons/connect_mcp/models/access.py:74-101 | that agreement, and the counters of uses, are kept by every request and every cleanup |
| `QuotaWindows.QuotasHold` | addons/connect_mcp/models/access.py:74-91 | in any trailing minute, and on any UTC day: the requests that begin and are checked in it stay within the limit; those checked in it exceed the limit if and only if these reach it and one more began before, and never by more than that one |
| `QuotaWindows.PromptRunsKeepTheLimits` | addons/connect_mcp/models/access.py:76-88 | the requests dispatched in any trailing minute stay within the limit if each was checked in the second in which its transaction began, and those of a UTC day if each was checked on the day on which it began |
| `QuotaWindows.MinuteOverrun` | addons/connect_mcp/models/access.py:77-83 | one request that was not is enough: at every limit there is a run that dispatches one too many within a minute |
| `QuotaWindows.DayOverrun` | addons/connect_mcp/models/access.py:84-90 | one request across midnight is enough: at every quota there is a run that dispatches one too many on a day |
| `QuotaWindows.TwoWithinHalfAMinute` | addons/connect_mcp/models/access.py:77-83 | two requests dispatched 31 seconds apart under a limit of one a minute |
| `IdentityCache.OdooApiKeyVerifier.Begin` | addons/connect_mcp/deploy/connect_mcp_server/src/connect_mcp_server/auth.py:58-71 | everything expired is pruned, then the token is looked up |
| `IdentityCache.OdooApiKeyVerifier.Finish` | addons/connect_mcp/deploy/connect_mcp_server/src/connect_mcp_server/auth.py:81-123 | the verdict on a response, and what is remembered of it |
| `IdentityProtocol.BeginKeeps` | addons/connect_mcp/deploy/connect_mcp_server/src/connect_mcp_server/auth.py:58-71 | a lookup keeps every cache entry backed by a confirmation |
| `IdentityProtocol.FinishKeeps` | addons/connect_mcp/deploy/connect_mcp_server/src/connect_mcp_server/auth.py:81-123 | a response keeps every cache entry backed by a confirmation |
| `IdentityProtocol.JudgedExactly` | addons/connect_mcp/deploy/connect_mcp_server/src/connect_mcp_server/auth.py:81-112 | a response admits its token as an identity if and only if its body has `ok` true and a `data` object that gives that identity's database, user, profile and login; a broken response raises |
| `IdentityProtocol.OnlyConfirmationsAdmit` | addons/connect_mcp/deploy/connect_mcp_server/src/connect_mcp_server/auth.py:81-123 | a response that is no such confirmation admits nobody and leaves the cache as it was |
| `IdentityProtocol.CacheAgreesWithOdoo` | addons/connect_mcp/deploy/connect_mcp_server/src/connect_mcp_server/auth.py:58-123 | in every interleaving, whoever is admitted is whom a response of Odoo to that very token confirmed, then or less than the time to live before; with a time to live of zero nothing is cached |
| `IdentityProtocol.RevocationTakesEffect` | addons/connect_mcp/deploy/connect_mcp_server/src/connect_mcp_server/auth.py:58-71 | a token that no response confirms any more is admitted for less than the time to live after the last that did |
| `IdentityProtocol.ConfirmedOnceIsEnough` | addons/connect_mcp/deploy/connect_mcp_server/src/connect_mcp_server/auth.py:65-71 | once confirmed, a token is admitted without asking again until the time to live has passed, whatever comes between |
| `IdentityProtocol.ConfirmationAnswers` | addons/connect_mcp/deploy/connect_mcp_server/src/connect_mcp_server/auth.py:113-120 | a confirmation is remembered as it was given, for the whole time to live |

## Left out

- HTTP, TLS, WebSocket and ticket handling: a reply is an input, and a connection is the list of messages it delivers.
- Closing a response that was fully read is taken never to fail.
- Queue timeouts, task cancellation and disconnects are one abandonment step that may come at any time; `timeout_seconds` itself is not modelled.
- Waiting for the registry lock and for the breaker's lock: their sections hold no suspension point and are atomic.
- What the client makes of an envelope once it has one (`_unwrap`, the fields of `_api_error`).
- Retry delays and their jitter, logging, user-facing messages, audit summaries, durations.
- JSON text, base64, digests and UUIDs.
- The ORM, record rules, PostgreSQL locking: domains are predicates over records.
- The parsing of `order`: an order is any comparison of records, and paging assumes nothing of how the database arranges ties.
- Reads other than `records.search` and `models.list`: they change nothing and repeat the same checks.
- The codes that `_write_values` raises for its several field checks are one, `field_denied`: which of them comes first depends on the order of the client's object.
- What chatter, activities, attachments and called methods do inside Odoo: each is one abstract effect.
- Actions.MethodConfined: says nothing about records after a method call, because the code checks no postcondition there.
- EventProtocol.ListenersGetTheStream: that reconnections leave no gap is an assumption about Odoo's bus, which drops old messages.
- EventsEndToEnd.ListenersSeeWhatWasCommitted: the same, and that no connection goes back before the place where the subject began to listen.
- EventBridges.OdooEventBridge.HandleMessage: one uninterrupted message; its interruptions are in EventProtocol, whose steps are its elements.
- The refusal of writes to approval and audit rows outside the workflow, and of explicit policies on blocked models: single guards.
- Manual changes to approval rows by direct SQL: the integrity check of an execution is modelled, but no step makes it fail.
- Users, company selection, event channels and event tickets.
- Tool registration, schemas, views, settings and environment parsing.
