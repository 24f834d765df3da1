# LocalRouter: a verified model

LocalRouter is a priority router for language-model providers. It resolves a model name to a sorted
list of (provider, model) entries and tries them in order, under request-rate windows, concurrency
caps, provider blocks, per-model cooldowns and health checks; models can be discovered at run time and
the configuration can be reloaded. This project models those parts and proves what they promise
together.

| module | models |
|---|---|
| `Prelude`, `Entries` | times, identifiers, registry entries, their canonical order, order-preserving selection |
| `Windows`, `Limits`, `LimitProofs` | request windows, cooldowns and concurrency caps (internal/limits/tracker.go) |
| `States` | BLOCKED over EXHAUSTED over UNHEALTHY over AVAILABLE (internal/state/manager.go) |
| `Health` | health hysteresis and backoff (internal/health/monitor.go) |
| `Configs` | priority filling, schema normalisation, validation (internal/config/config.go) |
| `Registries`, `RegistryProofs` | the registry, wildcard providers, discovery (internal/registry/registry.go) |
| `Routing`, `RoutingProofs`, `Completeness`, `SoftFailover` | one request at a time, as functions, and what holds of it |
| `Routers` | the router object, its methods tied to those functions (internal/router/router.go) |
| `Processes`, `SoloRuns`, `Conservation`, `Reloads`, `Bookkeeping`, `Penalties`, `Histories`, `Cooldowns`, `Rates` | any number of requests at once, as a step machine, and what holds of all its runs |

## How to read it

* The clock, health flags and provider replies are an environment `Env` that answers the n-th question
  asked; nothing is assumed of it unless a lemma says so (`FrozenAt`: one instant; `Monotone`: the clock
  does not run backwards). The zero time is `None`. Boundary comparisons are the code's own: a window
  is reset and a cooldown ends only strictly after its time, while a block or an exhaustion holds only
  strictly before its time.
* Classes (`Tracker`, `Manager`, `Monitor`, `Config`, `Registry`, `Router`) are updated in place as in the program. Each
  of their methods is tied to a function on immutable views; the lemmas are about those functions.
  `Tracker` carries a ghost log of its Record calls and the windows it started from.
* In `Processes` each step is one atomic access: every check of a selection (the clock and the state of a
  provider, a cooldown, a Record call of either tracker, SetExhausted, the event counter) is a step of its
  own, the load and the compare-and-swap of a concurrency counter are separate, and so are the updates of
  the gauge, of each metric, of a cooldown and of a block. Two requests interleave anywhere, also inside
  their selections. A selection goes by the provider map and the model tracker that were in place when it
  began (`retired` keeps the trackers of earlier configurations); a request begins with an arbitrary resolved
  list, and a stream's forwarder is a process of its own. `held`, `mheld`, `raised`, `marks`, `tally`,
  `steps`, `base`, `history` and `calls` are there for the proofs; no step depends on them.
  `SoloRuns.RunsAlone` shows that a process that runs alone does exactly what the functions in `Routing` say.
* A visit of an entry uses up four positions of the environment, also when an early check refuses the entry;
  no claim depends on which positions are used.
* Sorting is specified as "a sorted permutation"; where the order could be ambiguous the lemmas ask for
  distinct (priority, provider, model) keys.
* A model key is `provider + "/" + model`. Keys of different providers can collide when a provider id
  contains a slash. `Completeness.CompletenessExact` says what that costs: failover is complete on a list of
  candidates iff no two providers on it share a key.
* A reload can make the router return a provider slot to a counter from which it was not taken.
  `Reloads.ReloadExact` says which reloads do no harm, `Reloads.ReloadReached` gives a run with one that does.

Where the code and its comments differ the model follows the code: `fillPriorities` is described as
assigning sequential priorities, but its counter also moves on past models that have one, so gaps remain;
`RestoreActiveRequests` is described as resetting a count above the cap to 0, but it leaves the counter as it is;
`SetDiscoveredModels` is described as starting above the greatest priority, but a wildcard provider's
models start at the provider's own priority.

## Model

The main results come first in each group; lemmas that only serve a proof have no row.

| member | source | states |
|---|---|---|
| Conservation.SlotsConserved | internal/limits/tracker.go:34-61 | In every run of any number of concurrent requests and reloads, with loads and swaps interleaved freely, each counter stays between 0 and its cap; a model counter equals its restored value plus its holders, and so does a provider counter of any generation if no reload has parted a process from it; in those cases a Release never meets the clamp at zero |
| Conservation.GaugeConserved | internal/router/router.go:159-186 | In every run the gauge of a provider is its starting value plus the processes inside the gauge; without reload it agrees with the provider counter at every step up to processes standing between the two updates |
| Conservation.RestoredShare | internal/limits/tracker.go:187-196 | A restored in-flight count is never given back: over all runs at most cap minus restored count requests hold a slot at once (provider counters: as long as no reload parts a process from one) |
| Conservation.NeverClamped | internal/limits/tracker.go:51-61 | A process about to return a slot still holds it, so its counter is positive |
| Conservation.SlotStep | internal/limits/tracker.go:34-61 | One atomic step moves a counter by exactly the change in the number of slots its process holds in it |
| Conservation.RefusedOnlyFull | internal/limits/tracker.go:34-61 | However requests interleave, a slot is refused only by a load that finds the counter at its cap; a compare-and-swap that comes too late changes nothing and tries again |
| Conservation.RunAccountable | internal/router/router.go:159-186 | Counter bounds, the per-process discipline of taking and returning, and active = base + holders are kept by every step of every run, reloads included; for provider counters as long as each reload finds no process that it would part from its counter |
| Conservation.ReloadAccountable | internal/router/router.go:63-72 | A reload keeps the model half of slot conservation, because the model tracker is captured with the slot, and the provider half if it exposes no process |
| Reloads.ReloadExact | internal/router/router.go:178-184 | From any accountable state: a reload leaves the provider counters of all generations right in every continuation without another reload, for every new setup, tracker and environment, iff no process holds, or can still get, a slot of a provider that has a counter before or after it and has yet to look up the counter to return it to |
| Reloads.ReloadReached | internal/router/router.go:63-72 | A run from the start of the program, with one request and one reload, that ends with a wrong provider counter, whatever the new caps |
| Reloads.ExposedBreaks | internal/router/router.go:178-184 | For each process that a reload exposes, a schedule after the reload that makes a provider counter differ from its holders |
| Reloads.MisledBreaks | internal/router/router.go:178-184 | A process that holds a slot of an earlier generation, or will return one it does not hold, comes to its return and makes that counter wrong |
| SoloRuns.RunsAlone | internal/router/router.go:188-389 | From any state of the whole system, a request that has just begun can run alone to its end, and then has made the attempts and left the gate, slots and metrics that the sequential function Serve gives |
| SoloRuns.TryAlone | internal/router/router.go:202-261 | The fine-grained steps of one attempt, from captured trackers to final bookkeeping, amount to the sequential attempt |
| SoloRuns.ScanAlone | internal/router/router.go:104-137 | The single checks of a selection, run without interruption, pick what the sequential selection picks and leave the same trackers, states and clock position |
| Bookkeeping.ListsExact | internal/router/router.go:188-268 | With any number of requests at once, any clock and reloads: every request works on exactly the entries of its resolved list that none of its own iterations ruled out, in order: after a 429 or 413 on an entry that is not remote the pair is out, after any other failure or a full slot the provider; and it makes at most one attempt per entry |
| Bookkeeping.BooksBalanced | internal/router/router.go:188-268 | At every moment of every run: Requests + NoCapacity grow by the finished calls (plus those that have yet to count their source), Requests splits into local and remote, Failures grows by the failed attempts, and block events by the failed attempts on remote entries that were not empty streams |
| Bookkeeping.BooksAtRest | internal/router/router.go:188-268 | When no call is running (streams may still be draining), Requests = LocalRequests + RemoteRequests, one of Requests and NoCapacity per call, Failures = failed attempts, block events = failed attempts on remote entries, empty streams aside |
| Bookkeeping.RunBooks | internal/router/router.go:218-266 | Every step of every run keeps each metric equal to its start plus the tallies of all processes, and each process consistent with its own record |
| Penalties.PenaltiesEarned | internal/router/router.go:218-250 | Over whole runs: the history has exactly one block of a provider for each failed call on a remote entry of it that was not an empty stream (reloads included), and, on one configuration with a model tracker, exactly one cooldown of a model for each call of it that a node that is not remote answered with 429 or 413 |
| Penalties.BlockLengths | internal/router/router.go:139-143 | Over whole runs on one configuration every block lasts for the configured recovery window of its provider |
| Histories.BlocksRespected | internal/state/manager.go:59-89 | Over whole runs on one configuration with a clock that does not run back, however the checks of the requests interleave: every call rests on a passed state check of its own provider, and no block of that provider set before the check, at t for d, was still running at the reading the check made |
| Histories.CallsLawful | internal/state/manager.go:59-77 | Over whole runs, reloads included, at any clock: every call rests on a check of its own provider that found it healthy, not blocked and not exhausted by what was set (or restored) before; and the provider state is at any moment what the blocks and exhaustions so far make of it |
| Histories.LatestBlockHolds | internal/state/manager.go:59-89 | Over whole runs, reloads included, at any clock: a provider is BLOCKED exactly until the expiry of its latest block, and the check behind every call was made at or after the expiry of the latest block before it |
| Histories.RunVouched | internal/router/router.go:104-137 | In every run, reloads included, every entry on its way to a call, and every call, has passed the checks of its own provider's state and of its own model key |
| Histories.ProbeNotes | internal/router/router.go:104-135 | A single check of a selection changes the provider state only by marking a provider exhausted, and lets a provider pass only if it is healthy and neither blocked nor exhausted at the reading it made |
| Histories.KeepsToItsTracker | internal/router/router.go:104-108 | A selection begun before a reload asks and changes the model tracker of then, leaves the present one alone, and passes only providers known then |
| Histories.RunRetains | internal/router/router.go:63-72 | In every run, reloads included, the model tracker that a selection noted is there as long as the selection lasts |
| Histories.ReloadRetires | internal/router/router.go:63-72 | A reload keeps every tracker of an earlier generation, and the one it replaces, as they are |
| Cooldowns.CooldownsRespected | internal/limits/tracker.go:291-310 | Over whole runs on one configuration, however the checks interleave and although expired cooldowns are deleted on the way: every call rests on a check of its own model key made strictly after the end of the latest cooldown that any request had set for the key |
| Cooldowns.CooldownKept | internal/limits/tracker.go:291-295 | Of two cooldowns set in a row the first is kept up to its end iff the second does not end before it |
| Cooldowns.ProbeThaws | internal/router/router.go:119-123 | A check of a selection deletes only cooldowns that are over and passes no key that is cooling down |
| Rates.RouterRate | internal/limits/tracker.go:203-246 | Whole-router rate bound, for Record calls of any number of requests interleaved one by one: at most (k+1)*R admissions, and at most as many calls, of a provider within any closed interval of k windows, for each of its windows; the same for a model of a provider; every call rests on an admitted Record call of its own |
| Rates.RouterAdmits | internal/limits/tracker.go:203-246 | The other side of the rate bound, in every run from fresh trackers: a selection that comes to the windows of a model or provider passes them if fewer calls than each limit allows have been recorded there within the last window length |
| Rates.RunMetered | internal/router/router.go:118-134 | In every run both trackers' logs stay correct and ordered, and every entry past its Record call and every call owns a distinct admitted Record call on its own provider and model key |
| Rates.ProbeMetered | internal/router/router.go:118-134 | A check of a selection only appends to the trackers' logs, and the entry it lets pass gets the last, admitted Record call as its own |
| RoutingProofs.ServeFaithful | internal/router/router.go:188-268 | For any clock, health and replies, the list at each loop head is the resolved list, in order, minus the providers of earlier iterations that were full or failed, and minus only the pair where the failure was a 429 or 413 on an entry that is not remote |
| RoutingProofs.NextList | internal/router/router.go:439-458 | From one iteration to the next exactly those entries stay, in order and as often: after a 429 or 413 on an entry that is not remote all but the tried pair, otherwise all but the tried provider |
| RoutingProofs.ServeHonest | internal/router/router.go:188-268 | Each iteration has the reply its provider gave to that model; the request succeeds iff its last iteration was answered, with that entry; ModelNotFound iff nothing is listed |
| RoutingProofs.VisitWrites | internal/router/router.go:109-135 | What selection records for an entry, at any clock: nothing if its provider is unknown, unhealthy, blocked or exhausted; no Record for a cooling model; one on the model key otherwise, and one on the provider only if that is admitted; a refusal there marks the provider exhausted until the reported reset and counts one event |
| RoutingProofs.FaithfulShrinks | internal/router/router.go:197-250 | The candidate list strictly shrinks from one iteration to the next |
| RoutingProofs.NoRetry | internal/router/router.go:271-389 | At most one iteration per resolved entry, no pair twice, no provider again after a hard failure or a full slot |
| RoutingProofs.AttemptsInOrder | internal/router/router.go:197-250 | At one instant with no other request, the attempted entries occur at strictly increasing positions of the resolved list |
| RoutingProofs.AttemptsSorted | internal/registry/registry.go:144-152 | Hence attempts come in canonical order when the resolved list is sorted |
| RoutingProofs.VisitBars | internal/router/router.go:109-135 | Selection passes over an entry iff its provider is unknown, unhealthy, blocked or exhausted, its model is cooling down, or its model or provider windows are spent |
| RoutingProofs.BarringStays | internal/router/router.go:104-137 | At one instant every reason to pass over an entry outlasts the visit of any other entry |
| RoutingProofs.SpentStays | internal/limits/tracker.go:203-246 | A refused counter stays refused at the same instant whatever else is recorded |
| Completeness.CompletenessExact | internal/router/router.go:188-268 | For every list of candidates: no model key is shared by two of its providers iff, in every state, setup, environment and kind of request at one instant, a request succeeds whenever some listed entry is not barred and its provider never errs and has free slots |
| Completeness.FailoverComplete | internal/router/router.go:188-268 | The "only if" half by itself: without shared keys such a request succeeds whatever all other providers do |
| Completeness.SlashFreeComplete | internal/router/router.go:120 | In particular with slash-free provider ids |
| SoftFailover.SoftFailoverExact | internal/router/router.go:218-250 | Failover among the models of one local provider, on a list without shared keys: a model that answers is reached, whatever other providers do and whichever other models of its provider are refused with 429 or 413, iff the provider's own windows admit one call more than it has selectable models listed before |
| SoftFailover.UnlimitedServes | internal/router/router.go:225-237 | In particular it is always reached if the provider has no request limit |
| Completeness.FailureWrites | internal/router/router.go:218-250 | What a failed call writes, with literal numbers: a block until reading + recovery window and one block event iff the entry is remote and the failure is not an empty stream; a cooldown iff it is a 429 or 413 and the entry is not remote, for the parsed duration (a second at least) or the recovery window or a minute; one failure; nothing else |
| Completeness.SlashCollision | internal/router/router.go:120 | A failing instance by cooldown: a model-level error of provider "a/b" bars model "b/c" of provider "a" |
| Completeness.KeyInjective | internal/router/router.go:120 | Model keys of slash-free provider ids are injective, so that they are never shared |
| Completeness.ServeBooked | internal/router/router.go:188-268 | Per request: exactly one of Requests and NoCapacity grows, by one; source counts follow the served entry; Failures grows by the failed calls, block events by those on remote entries that were not empty streams; rejections are the full iterations, per provider |
| Completeness.ServeUse | internal/router/router.go:159-186 | Whatever happened on the way, a finished request holds no slot and is out of the gauge; a successful stream holds exactly the slots of its entry |
| Completeness.TakenReleased | internal/limits/tracker.go:34-61 | Releasing undoes acquiring |
| LimitProofs.AdmissionLaw | internal/limits/tracker.go:203-246 | For every tracker that starts fresh and is used in any way at times in order: a call is admitted if fewer calls of its id than each limit allows, refused ones included, were made within the last window length; and a reported reset is one configured window length after this call or an earlier one of the id |
| LimitProofs.RecordExact | internal/limits/tracker.go:203-246 | Record, exactly: a call is refused iff it is more than the limit allows since the call that opened one of its windows, and the reported reset is the earliest end of such a window |
| LimitProofs.RateBound | internal/limits/tracker.go:203-246 | Per window of a tracker: at most (k+1)*R admitted calls in any closed interval of length k*W, from any starting window |
| LimitProofs.WindowRateExact | internal/limits/tracker.go:203-246 | That bound holds in all states and for all calls iff W is not negative or R allows nothing |
| LimitProofs.NegativeWindow | internal/limits/tracker.go:218-225 | A window of negative length admits any number of calls at one instant |
| LimitProofs.RecordAccounted | internal/limits/tracker.go:203-246 | Every Record keeps the tracker equal to independent single-window counters, and its answers equal to their "or" |
| LimitProofs.RecordAnswers | internal/limits/tracker.go:215-245 | A Record is refused iff one of the independent counters refuses it |
| LimitProofs.ExhaustionSticky | internal/limits/tracker.go:203-246 | After a Record reports reset r, every Record of that id up to and including r is refused, in any run |
| LimitProofs.ExhaustionTight | internal/limits/tracker.go:229-234 | The reported reset is the least among the exhausted windows, and it lies in the past iff an exhausted window of negative length was opened by this very call |
| LimitProofs.RestartExact | internal/limits/tracker.go:165-183 | With positive window lengths: a fresh tracker restored at t gives the answers of the one never stopped to all sequences of Record calls from t on iff no saved window resets exactly at t |
| LimitProofs.RestartEquivalent | internal/limits/tracker.go:165-183 | A fresh tracker restored at t answers every sequence of Record calls after t exactly as the one never stopped |
| LimitProofs.ReachedRestart | internal/limits/tracker.go:165-183 | So does it for every tracker that any sequence of Record calls and cooldowns leads to |
| LimitProofs.RestartBoundary | internal/limits/tracker.go:178-181 | The smallest instance of a window that resets exactly at t: the two answers differ |
| LimitProofs.SimulatedCall | internal/limits/tracker.go:203-246 | One call after t gets the same answer from both trackers and keeps them alike |
| Windows.EarliestIsLeast | internal/limits/tracker.go:229-234 | The running minimum is the least reset of the exhausted windows, and exists iff one is exhausted |
| Windows.RecordRefusesSpent | internal/limits/tracker.go:203-246 | A Record is refused iff some window would be over its limit |
| Limits.ConcurrencyTracker.TryAcquire | internal/limits/tracker.go:34-48 | Succeeds iff uncapped or below the cap, and then counts one more |
| Limits.ConcurrencyTracker.Release | internal/limits/tracker.go:51-61 | Counts one less, never below zero |
| Limits.Tracker.SetConcurrencyLimits | internal/limits/tracker.go:101-109 | One fresh counter at zero for each positive cap, none for the others |
| Limits.Tracker.TryAcquireConcurrency | internal/limits/tracker.go:113-119 | Takes a slot of the id iff there is no cap or room below it; all other counters unchanged |
| Limits.Tracker.ReleaseConcurrency | internal/limits/tracker.go:122-127 | Returns a slot of the id; all other counters unchanged |
| Limits.Tracker.RestoreActiveRequests | internal/limits/tracker.go:187-196 | Restores a count that is within the cap, otherwise changes nothing |
| Limits.Tracker.EnsureWindows | internal/limits/tracker.go:314-321 | Pads the window list of an id to its configured length |
| Limits.Tracker.Record | internal/limits/tracker.go:203-246 | The in-place loop computes the answer, the new windows and the log of the specification Record, of which LimitProofs.RecordExact and AdmissionLaw say what it admits and when a window reopens |
| Limits.Tracker.RestoreWindows | internal/limits/tracker.go:165-183 | Puts back exactly the saved windows that are still open |
| Limits.Tracker.WindowStates | internal/limits/tracker.go:273-281 | Snapshot of the windows of an id, none if unknown |
| Limits.Tracker.Block | internal/limits/tracker.go:291-295 | Sets the cooldown of a key |
| Limits.Tracker.IsBlocked | internal/limits/tracker.go:298-310 | True iff the key has an expiry that is not before now; forgets a cooldown that is over and no other |
| States.Manager.GetState | internal/state/manager.go:59-77 | Blocked iff now is before the block; Exhausted iff not blocked and now is before the exhaustion; Available iff ready and neither lies after now; Unhealthy otherwise |
| States.Manager.Block | internal/state/manager.go:79-89 | Overwrites the expiry with now + d, even by an earlier one |
| States.Manager.BlockUntil | internal/state/manager.go:92-96 | Overwrites the expiry with an absolute time |
| States.Manager.SetExhausted | internal/state/manager.go:98-107 | Overwrites the exhaustion expiry |
| States.Manager.RestoreFrom | cmd/localrouter/main.go:84-93 | Puts back, for each saved id, the times that still lie ahead |
| States.RestartState | internal/state/manager.go:59-77 | A manager restored at t reports what the saved one would, for every id and every time from t on, for equal health |
| Health.Monitor.AddNode | internal/health/monitor.go:62-73 | Registers an unknown node as UNAVAILABLE with all runs at zero, leaves a known one alone |
| Health.Monitor.RemoveNode | internal/health/monitor.go:75-83 | Forgets worker and status |
| Health.Monitor.SetReady | internal/health/monitor.go:111-123 | Forces a known node READY with cleared runs |
| Health.Monitor.Book | internal/health/monitor.go:143-173 | One check moves one node's status as the transition function says, and no other |
| Health.Monitor.RunNode | internal/health/monitor.go:125-178 | The worker loop, with SetReady calls from outside in between, leaves the status after all rounds and waits backoff plus jitter before each check |
| Health.RoundsAreEvents | internal/health/monitor.go:111-178 | The rounds of the worker are a sequence of checks and SetReady calls, so that the hysteresis bound holds of them |
| Health.BackoffClosedForm | internal/health/monitor.go:126-155 | After m failed checks in a row the backoff is base * 2^m capped at five minutes, and the base again after a success |
| Health.WaitBounds | internal/health/monitor.go:130-135 | Every wait lies between the backoff and five quarters of it, for a base within the cap |
| Health.AlwaysSound | internal/health/monitor.go:143-172 | Failure and success runs are never both positive; READY implies fewer than three failures and three breaches |
| Health.StateExact | internal/health/monitor.go:111-175 | The state of a node after any events, exactly: READY by SetReady; UNAVAILABLE from the third failed check in a row on; DEGRADED from the third slow check in a row on; READY by a good check after a passed one that did not degrade; otherwise as before |
| Health.ThirdStrike | internal/health/monitor.go:143-173 | A READY node outlasts two failed, or two slow, checks in a row, and not the third |
| Health.HysteresisBound | internal/health/monitor.go:111-175 | Over any n checks and k SetReady calls, 5 * departures from READY <= n + 2k |
| Health.HysteresisTight | internal/health/monitor.go:143-172 | The bound is attained for every number of departures |
| Configs.Config.MaxPriority | internal/config/config.go:376-384 | Greatest configured priority, at least 0 |
| Configs.Config.FillModels | internal/config/config.go:390-397 | Fills one provider from a running counter that moves past every model |
| Configs.Config.FillPriorities | internal/config/config.go:375-399 | The two in-place loops compute the filled configuration |
| Configs.FilledPositive | internal/config/config.go:389-398 | Positive priorities are unchanged, all priorities become positive |
| Configs.FilledIncreasing | internal/config/config.go:386-398 | Filled priorities lie above every configured one and increase in configuration order |
| Configs.FilledExact | internal/config/config.go:375-399 | A missing priority becomes the greatest configured one (or 0) plus one plus the number of models before it in configuration order; everything else stays |
| Configs.Config.NormaliseNewSchema | internal/config/config.go:251-276 | Appends the local nodes, then the remote providers, each with its own id, type, endpoint, timeout and key, marked so, without models |
| Configs.Config.CheckIDs | internal/config/config.go:408-418 | Accepts iff ids are non-empty and unique |
| Configs.Config.Validate | internal/config/config.go:402-481 | Returns exactly the first violated rule in the order of the rules (version, ids, type, endpoint, priorities, limits, default model), and none iff the configuration meets them all |
| Configs.ProblemKinds | internal/config/config.go:402-481 | A wrong version is reported before all else, ids before any provider's rule, and a missing default model only if all other rules are met |
| Configs.Config.CheckProvider | internal/config/config.go:421-457 | The first violated rule of one provider: a type outside the six known ones, a missing endpoint for the three that need one, a priority that is not positive, or its limits |
| Configs.Config.CheckLimits | internal/config/config.go:438-456 | Positive requests, a window and non-negative caps, in the order of the entries, then of the models |
| Configs.FilledAcceptable | internal/config/config.go:375-481 | A filled configuration is accepted iff it meets the rules other than positive priorities |
| Entries.EntryLessTotal | internal/registry/registry.go:144-152 | The canonical order is total up to equal keys and asymmetric |
| Entries.SortedTies | internal/registry/registry.go:144-152 | In a sorted list priorities do not fall, provider ids break ties, and model ids break the rest |
| Prelude.StringLessExact | internal/registry/registry.go:144-152 | The lesser string ends first, or has the lesser character at the first difference |
| Entries.SortedUnique | internal/registry/registry.go:109-112 | A list with distinct keys has exactly one sorted permutation |
| Entries.SortEntries | internal/registry/registry.go:351-353 | A sorted permutation |
| Registries.Registry.Collect | internal/registry/registry.go:67-107 | Explicit entries and wildcard providers in configuration order |
| Registries.Registry.CollectModels | internal/registry/registry.go:90-105 | The explicit entries of one provider |
| Registries.Registry.constructor | internal/registry/registry.go:58-141 | A registry built from unique ids is sorted, complete and consistently indexed |
| RegistryProofs.BuildExact | internal/registry/registry.go:58-141 | Its list has an entry for each model of each provider that is not skipped, with the model's own settings, and no other; its wildcards are the providers without models, ranked behind everything before them; the counts agree |
| Registries.IndexEntries | internal/registry/registry.go:356-361 | Both indexes are the order-preserving filters of the list, for every key |
| Registries.Registry.GlobalList | internal/registry/registry.go:156-162 | Returns the list, sorted, with exactly the entries that configuration and discoveries account for |
| Registries.Registry.ForProviderID | internal/registry/registry.go:236-246 | The entries of the provider, all of them, in canonical order |
| Registries.Registry.ForModel | internal/registry/registry.go:167-205 | Sorted, with exactly the explicit entries of the model and, for each wildcard provider that is not explicit for it, one entry of the provider's priority and remoteness without settings |
| Registries.Registry.SetDiscoveredModels | internal/registry/registry.go:264-364 | Keeps the registry valid and changes exactly the discovery of that provider; a provider without wildcard record or configured entry changes nothing |
| Registries.Registry.FindBasis | internal/registry/registry.go:268-303 | None iff the provider has neither a wildcard record nor a configured entry; the record's priority and remoteness if it has one; otherwise the remoteness of its configured entries and a priority above every configured one |
| RegistryProofs.DiscoveryExact | internal/registry/registry.go:264-364 | The discovered entries of a provider are one for each model last reported and not configured for it, in the order reported with consecutive priorities, remote and starting as its wildcard record says, or remote as its configured entries and starting right above every configured one; nothing else is discovered |
| Registries.Registry.MaxConfigured | internal/registry/registry.go:286-291 | The greatest priority of the configured entries, at least 0, whatever was discovered |
| Registries.Registry.CollectConfigModels | internal/registry/registry.go:305-311 | The configured models of a provider |
| Registries.Registry.DropFound | internal/registry/registry.go:313-321 | Everything but the provider's earlier discoveries, order kept |
| Registries.MakeEntries | internal/registry/registry.go:332-347 | Consecutive priorities from the base on, configured models skipped |
| RegistryProofs.RunDiscoveries | cmd/localrouter/main.go:317-339 | A run of discoveries on a registry leaves the view that the discoveries determine |
| RegistryProofs.DescribedOnce | internal/registry/registry.go:349-361 | The view determines the sorted list, given distinct configured keys |
| RegistryProofs.Confluence | internal/registry/registry.go:264-364 | Discoveries on distinct providers give the same contents in every order |
| RegistryProofs.SameView | internal/registry/registry.go:355-363 | Registries with the same view agree in list, indexes, wildcards and injected set |
| RegistryProofs.LastWriteWins | internal/registry/registry.go:313-321 | Discovering A and then B for a provider is discovering B |
| RegistryProofs.ConfigurationPreserved | internal/registry/registry.go:313-347 | No run of discoveries changes the subsequence of configured entries, nor shadows one |
| RegistryProofs.NotShadowed | internal/registry/registry.go:305-337 | A discovered entry never repeats a configured model of its provider |
| RegistryProofs.FilledRoutingOrder | internal/config/config.go:375-399 | In the global list, filled models follow all explicit ones, in configuration order |
| RegistryProofs.NewSchemaOrder | internal/config/config.go:251-276 | For a new-schema configuration before discovery, every model lists all locals before all remotes, in configuration order |
| Routers.Collector.AddConcurrentActive | internal/metrics/metrics.go:97-103 | Moves the gauge of one provider |
| Routers.Collector.RecordConcurrencyRejected | internal/metrics/metrics.go:106-112 | Counts a rejection of one provider |
| Routers.Router.Update | internal/router/router.go:63-72 | Replaces configuration, registry and trackers; state, metrics and clock stay |
| Routers.Router.Resolve | internal/router/router.go:85-102 | Default model, "auto" and named models resolve to the global list or the model's list |
| Routers.Router.AdmitModel | internal/router/router.go:119-127 | Cooldown first, then the model's windows; a cooling model is not recorded |
| Routers.Router.AdmitProvider | internal/router/router.go:128-133 | A refusal by the provider's windows marks it exhausted until the reported reset |
| Routers.Router.Admit | internal/router/router.go:109-135 | One candidate's turn of the selection loop is the specification Visit |
| Routers.Router.SelectProvider | internal/router/router.go:104-137 | The loop picks the first candidate that passes every check, with the effects of all refusals before it |
| Routers.Router.Select | internal/router/router.go:104-137 | Selection changes nothing but trackers, states and clock position of the whole router |
| Routers.Router.TakeProvider | internal/router/router.go:164-168 | Takes a provider slot and raises the gauge, or counts the rejection |
| Routers.Router.ReturnProvider | internal/router/router.go:171-180 | Gives a provider slot back and lowers the gauge; nothing else changes |
| Routers.Router.ReturnModel | internal/router/router.go:181-183 | Gives a model slot back to the captured tracker, leaving the provider slots alone |
| Routers.Router.BackOut | internal/router/router.go:171-176 | Gives the provider slot back, lowers the gauge, counts the rejection |
| Routers.Router.AcquireConcurrency | internal/router/router.go:159-186 | Both slots or none, with the metrics of either outcome |
| Routers.Router.Release | internal/router/router.go:178-184 | Returns the provider slot to the tracker of now and the model slot to the captured one; without reload exactly undoes the acquisition |
| Routers.Router.CoolDown | internal/router/router.go:225-237 | Cools the model down for the parsed duration, a second at least, or the recovery window, or a minute |
| Routers.Router.BlockProvider | internal/router/router.go:239-246 | Blocks the provider until now plus its configured recovery window and counts the event |
| Routers.Router.HandleFailure | internal/router/router.go:218-250 | On the objects themselves: which entries stay in the list, when the provider is blocked and until when, when the model is cooled down and for how long, which counters move; for a 429 or 413 on an entry that is not remote and for all other failures |
| Routers.Router.CountSuccess | internal/router/router.go:256-261 | Counts the request and its source |
| Routers.Router.Conclude | internal/router/router.go:216-263 | What follows from the reply: the slots go back unless a stream is to use them, and the outcome is booked |
| Routers.Router.TryCandidate | internal/router/router.go:204-263 | An attempt on the selected entry is the specification Try |
| Routers.Router.Attempt | internal/router/router.go:197-263 | One loop iteration is the specification Turn |
| Routers.Router.Route | internal/router/router.go:188-268 | The completion loop gives the result, final state and iterations of Serve on its candidates |
| Routers.Router.Stream | internal/router/router.go:271-389 | The streaming loop does so too, and a success returns a lease on exactly the slots it still holds |
| Routers.Router.FilterProvider | internal/router/router.go:439-447 | Drops the provider's entries, order kept |
| Routers.Router.FilterEntry | internal/router/router.go:449-458 | Drops the pair's entries, order kept |

## Left out

- Conservation.SlotsConserved: the provider half ends with a reload that parts a process from its provider counter, because a release looks the provider's tracker up when it runs; Reloads.ReloadExact says exactly which reloads do. Model counters are claimed through all reloads.
- Reloads.ReloadExact: one reload at a time, followed by runs without another; several harmless ones in a row are covered by Conservation.SlotsConserved.
- Histories.BlocksRespected: runs without reload (Histories.LatestBlockHolds is the half that needs none of that); a block set between the check of a request and its call does not stop the call, in the program as in the model; a block set by the start-up probe is not an event of these runs.
- Cooldowns.CooldownsRespected: the latest cooldown only, because a later one overwrites an earlier, longer one (Cooldowns.CooldownKept); runs without reload.
- Rates.RouterRate: one tracker, that is runs without reload; the interval is that of the Record times.
- A new cooldown reads the clock and is written in one step, to the model tracker of that step; the program reads the clock, and looks the tracker up, just before it writes.
- Completeness.FailoverComplete: one instant, no other request, no key shared by two listed providers; Completeness.CompletenessExact shows that the last is necessary.
- RoutingProofs.AttemptsInOrder: one instant, no other request.
- SoftFailover.SoftFailoverExact: one instant, no other request; that a model which answers is always reached is false, as the attempts on its provider's other models use up the provider's windows, and the stated condition is exact.
- Penalties.PenaltiesEarned: for cooldowns, runs without reload, as keys are not told apart by configuration.
- Rates.RouterAdmits: fresh trackers and runs without reload.
- Health.Monitor.RunNode: one live worker per node; a check that finishes after RemoveNode is not modelled.
- Routers.Router.Stream: the forwarder is the lease it returns; that the consumer keeps receiving, without which the slots are never released, is not claimed.
- Configs.Config.Validate: not the trimming of the default model's name. A limit's window is only checked to be present, so windows of negative length pass; this is why the rate bound states when it needs W >= 0.
- Registries.Registry.constructor: unique provider ids, as validation guarantees before a registry is built.
- Local-first order after discovery: a discovered entry's priority is its base plus its position, so a remote entry can precede a local one.
- Sorting: specified as a sorted permutation, not as the library's algorithm; the order among equal (priority, provider, model) keys stays open.
- The order lists of the registry (provider ids, local ids, remote ids, ids of wildcard providers): they do not affect routing.
- The recovery window's one-hour default, and the start-up probes' blocks: recovery windows are an arbitrary map.
- Parsing "retry in" durations from an error text: an arbitrary optional duration, used as the code uses it.
- Request parameters overlaid from the entry, adapters, HTTP, JSON, event streams, the server handlers: a provider call is an arbitrary reply.
- YAML, environment expansion, the file watcher, network discovery of nodes, config writing.
- LimitProofs.RestartExact: positive window lengths; LimitProofs.RestartEquivalent has no such condition.
- LimitProofs.RestartEquivalent: one tracker and its saved windows; the program saves the provider windows only, so per-model windows and cooldowns start afresh after a restart.
- Save hooks and state files: a snapshot is taken to be exact and current.
- Report states, latency and check counters, logs, request ids: display only.
- Integer widths: counters and nanosecond times are unbounded integers.
