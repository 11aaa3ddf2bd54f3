# A verified model of the deterministic agent system

This project models the parts of the system whose correctness is not visible from reading one
function: the hash-chained execution journal and its replay engine, the deterministic plan runtime
with its linked trace, the planners that produce plans, and the services that keep state between
requests. It proves what those parts promise over all inputs, all histories and all interleavings.

`dafny verify dfyconfig.toml` checks everything.

## How the model is organised

| modules | what they hold |
|---|---|
| `Common`, `Sorting`, `JsStrings`, `Records`, `Loops` | option and result types, a stable sort and its uniqueness, JavaScript strings and records, loops that stop at the first error |
| `Json`, `JsonParser` | JSON values, the two printers of the source, and a parser that witnesses that printing is unambiguous |
| `JournalHash`, `InMemoryJournal`, `PostgresJournal`, `JournalContents`, `ReplayEngine`, `ReplayContents`, `PostgresReplay` | events and their chain, the two journals and what they record, replay with prefixes and overrides and what it returns, over either journal |
| `PlanTypes`, `CanonicalPlan`, `PlanIdempotence`, `PlanPermutation`, `CanonicalContents`, `Policies` | plans, canonicalization and what it keeps of its input, the static policy check |
| `StepDependencies`, `DependencyContents`, `StepBinding`, `MockAdapter`, `StepEffects`, `ReferenceContents`, `DependencySoundness` | references between steps, their static check and what it returns, the step interpreter with the effect of every step and the value of every reference, and soundness of one for the other |
| `StepLoop`, `TraceChain`, `StateViews`, `Executor`, `TraceCommitment`, `ExecutorAsync`, `ExecutionContents`, `ReplayVerification` | the two executors, the trace they link, what its hashes commit to, what a response says, re-verification |
| `PlannerContract`, `PlanVerifier`, `IssueContents`, `PlannerBridge`, `BridgeContents`, `CapabilityRules`, `CapabilityPipeline`, `CapabilityContents`, `CapabilityRuns`, `CapabilityAnswers`, `LlmPlanCache`, `CachedPlanRuns` | the plan producers, what their checks report and their plans hold, and what becomes of the plans when they are run |
| `RateLimit`, `RunRegistry`, `RunExecution`, `RunContents`, `WhatsAppWebhook`, `WhatsAppReplies`, `WhatsAppHandoffs`, `WhatsAppJournal` | the stateful services |

Loops and objects of the source are methods and classes, each proved equal to a function of its
inputs or of the old state; the properties are lemmas about those functions. The `...Contents`
modules, `StepEffects`, `StateViews` and `WhatsAppReplies` say what those functions return in other
words than theirs: as relations between the fields of what goes in and of what comes out.

## Conventions

- A JSON object is the sequence of its entries in enumeration order, with distinct keys. `Same` is
  equality up to the order in which objects list their keys. Numbers are integers.
- A `char` stands for one code unit, which is right for texts of the basic plane; see "Left out" for
  the others. Strings compare character by character.
- SHA-256, the FNV hash, Unicode normalization, `JSON.parse`, the tools, the browser, the model and
  the agent behind the webhook are function parameters, so every theorem holds for each of them.
  Normalization is only assumed to be idempotent, alone and after trimming, never to blank a text that
  is not blank, and to leave alone the empty text, ASCII tails and ASCII heads that end in a colon
  (`NfcLaws`). Freedom from collisions is a hypothesis only where a theorem needs it, and only about
  the texts that are actually hashed (`CollisionFree`).
- A function of the source that throws returns `None` or `Err` here; `Thrown` is an outcome of the
  asynchronous executor.
- Postgres is a table that accepts or refuses one row at a time under its two uniqueness constraints
  and the range of INTEGER; JSONB may return the keys of an object in any order.

## Where the code does less than one might expect

Each of these is proved, with the exact condition where there is one.

- The dependency check trims the key of a reference and the interpreter does not. Canonicalization
  trims a reference as a whole, so a space at its end does no harm; a space inside it, before the first
  dot or after the prefix, is accepted by the check and then the key is not found
  (`Executor.UntrimmedKeyFails`, a canonical plan with the reference `k .x`). Which references are like
  that is `DependencySoundness.CanonicalKeyCleanIff`, and that exactly they break an accepted plan is
  `DependencySoundness.StaticCheckIsExact` and `Executor.ExecutedReferences`.
- A reference built from a key that contains a dot reads back as a shorter key
  (`StepBinding.MadeRefReadsBack`).
- In mock mode without a sandbox factory the asynchronous executor throws from its `finally` block,
  whatever the plan did (`ExecutorAsync.MockModeNeedsFactory`; a one-step plan in `NoFactoryExample`).
- The trace binds every field of a step except the tool fields; only the plan hash binds those
  (`TraceChain.StepViewBinds`, `TraceChain.PlanHashBinds`).
- Re-verification of a recorded run compares the length of the trace and never its entries
  (`ReplayVerification.TraceContentsUnchecked`).
- Bridged plans keep the order of their steps up to 9999 steps and lose it beyond
  (`PlannerBridge.OrderKeptIff`).
- A cached plan comes back with its object keys sorted, so an answer from the cache is the plan that
  was built exactly when the keys of that plan were sorted already
  (`LlmPlanCache.MockAgreesWithUncached`); running it makes no difference
  (`CachedPlanRuns.CachedMockPlanRunsAlike`).
- The asynchronous execute handler restores a run that was cancelled while it waited, and then ends
  it differently (`RunExecution.AsyncAbsorbsIff`; a history in which a cancelled run ends completed in
  `CancellationIsLostAtOnce`).
- Two customers can share a handoff id, and then the later record replaces the earlier. For messages
  as they are normalized they can exactly when the id of one, followed by a colon, starts the id of the
  other, and the other does not go on with a space (`WhatsAppHandoffs.CustomersShareIff`); a set of
  customers is safe in every run exactly when no two of them are like that (`SafeCustomersIff`).
- Over a journal that keeps event ids unique, a redelivered message ends the handler before it is
  recognised as a duplicate. A batch reaches its end exactly when no (customer, message) pair comes
  twice and the journal has no event of any of them (`WhatsAppJournal.ReachesEndIff`); a batch
  delivered again stops at its first message (`RedeliveryStopsAtOnce`).
- The rate limiter admits at most one request less than twice its limit in an interval as long as
  its window, and that bound is reached (`RateLimit.IntervalBound`, `IntervalBoundIsReached`).

## Model

| member | source | states |
|---|---|---|
| JournalHash.VerifyChain | src/journal/hash.ts:83-120 | the loop answers yes exactly for the chains numbered from 1 whose events each carry the previous hash and their own content hash |
| JournalHash.ChainOfPrefix | src/journal/hash.ts:83-120 | every prefix of a verifying chain verifies |
| JournalHash.ChainExtends | src/journal/hash.ts:91-117 | a verifying chain stays one exactly under an event with the next number, the last hash and its own content hash |
| JournalHash.SameContent | src/journal/hash.ts:68-81 | the hashed record is equal exactly for events equal in every field but their own hash, up to key order, with absent metadata and null identified |
| JournalHash.SameEventSameHash | src/journal/hash.ts:68-81 | an event whose objects come back with their keys reordered hashes the same |
| JournalHash.TamperEvident | src/journal/hash.ts:68-120 | two chains that verify and end in the same hash, without a collision among their own texts, have the same length and the same events |
| Json.CanonicalIsSorted | src/journal/hash.ts:29-62 | the canonical text of a value is the ordinary text of the value with the keys of every object sorted |
| JsonParser.ParseOfStringify | src/agent/trace-chain.ts:70-78 | ordinary printing loses nothing: a parser reads back the value, keys in the same order |
| JsonParser.ParseOfCanonical | src/journal/hash.ts:29-62 | the parser reads back from the canonical text the value with its keys sorted |
| JsonParser.CanonicalUnambiguous | src/journal/hash.ts:29-62 | the canonical texts of two values are equal exactly when the values are equal up to key order |
| InMemoryJournal.InMemoryExecutionJournal.AppendEvent | src/journal/in-memory-execution-journal.ts:48-87 | input with a blank id, session or timestamp is refused and changes nothing; otherwise one event is added to its session and returned, with the trimmed texts and the type, payload and metadata of the input, numbered and linked after the last, and the journal stays valid |
| InMemoryJournal.InMemoryExecutionJournal.GetSessionJournal | src/journal/in-memory-execution-journal.ts:96-111 | the integrity check of a journal built by appends never fails |
| InMemoryJournal.NextEventExtends | src/journal/in-memory-execution-journal.ts:57-84 | the event an append builds extends a verifying chain to a verifying chain |
| InMemoryJournal.AppendedIs | src/journal/in-memory-execution-journal.ts:49-81 | the event an append makes is exactly the one with those fields in the next place of the chain |
| PostgresJournal.EveryInterleavingIsAChain | src/journal/postgres-execution-journal.ts:186-259 | after any interleaving of the reads and inserts of any number of appends, each session loads as a verifying chain, equal up to key order to what an in-memory journal builds from the committed inputs in commit order |
| PostgresJournal.InsertOutcome | src/journal/postgres-execution-journal.ts:193-246 | in any reachable state an insert is accepted exactly when its session has not grown since its read, its event id is new and the number fits; then it commits the in-memory event, otherwise nothing changes |
| PostgresJournal.InsertAcceptedIff | src/journal/postgres-execution-journal.ts:61-73 | the two uniqueness constraints accept the insert of a reader of the first n events exactly when there are no more and the event id is new in the session |
| PostgresJournal.AcceptedIsInMemoryAppend | src/journal/postgres-execution-journal.ts:205-258 | the event of an accepted insert is the one the in-memory journal would append |
| PostgresJournal.LoadIsRows | src/journal/postgres-execution-journal.ts:127-151 | loading a session in sequence order gives its rows in commit order, and the latest row is the last of its chain |
| PostgresJournal.SameChainValid | src/journal/postgres-execution-journal.ts:110-125 | a chain read back from JSONB with keys reordered still verifies |
| PostgresJournal.ContentHashIsLawful | src/journal/hash.ts:68-81 | the content hash meets what the protocol needs, whatever order JSONB gives the keys |
| PostgresJournal.TableOnlyGrows | src/journal/postgres-execution-journal.ts:220-246 | more steps of any append only extend the table |
| JournalContents.RowsRecordInputs | src/journal/postgres-execution-journal.ts:186-259 | after any interleaving the rows of a session are as many as the inputs committed to it, and the i-th row has the number i + 1 and the trimmed texts, type, payload and metadata of the i-th, objects up to key order |
| JournalContents.RowsRecordCalls | src/journal/postgres-execution-journal.ts:186-259 | every row records, in those fields, the input of some call that was made |
| JournalContents.AcceptedInsertRecords | src/journal/postgres-execution-journal.ts:205-258 | an accepted insert returns the event that records the caller's input in the next place of its session, and adds one row that records it |
| JournalContents.RefusedInsertTells | src/journal/postgres-execution-journal.ts:61-73 | a refused insert says why: its number is out of range, else the session has grown since it was read, else the session has the event id already |
| ReplayEngine.ReplayUntilIsReplayOfPrefix | src/replay/journal-replay-engine.ts:258-335 | replaying up to event n equals, hash included, replaying a journal that holds only the first n events |
| ReplayEngine.ReplayUntilLastIsFullReplay | src/replay/journal-replay-engine.ts:258-352 | replaying up to the last event equals a full replay, hash included |
| ReplayEngine.ReplayUntilUnknown | src/replay/journal-replay-engine.ts:285-310 | a sequence the journal does not have is refused |
| ReplayEngine.IndexOverrides | src/replay/journal-replay-engine.ts:124-147 | the loop over the overrides builds the index or reports the first malformed or repeated override |
| ReplayEngine.IndexOkIff | src/replay/journal-replay-engine.ts:106-147 | the index exists exactly when each override names one target and no target repeats, and then holds each override under its own key |
| ReplayEngine.ApplyOverrides | src/replay/journal-replay-engine.ts:149-204 | the loops that patch events and look for unmatched overrides compute the specified events and record, or refuse |
| ReplayEngine.ApplyOkIff | src/replay/journal-replay-engine.ts:149-204 | a replay with overrides is refused unless every override is well formed, unique and names an event |
| ReplayContents.OverridesChangeOnlyNamedEvents | src/replay/journal-replay-engine.ts:162-190 | each event keeps its place and every field but two: the payload and metadata are those its deciding override gives, by sequence or else by event id, and its own when the override gives none or no override decides |
| ReplayContents.AppliedListsDecided | src/replay/journal-replay-engine.ts:162-180 | the applied record lists exactly the decided events, in order, each with its number and id and which of payload and metadata was given |
| ReplayContents.ReplayIsOfItsEvents | src/replay/journal-replay-engine.ts:206-352 | a successful replay of a verified journal returns the events up to the requested one as their overrides say, reports exactly the decided ones, and its final state names the session, counts the events and describes the last of them |
| ReplayContents.ReplayOkIff | src/replay/journal-replay-engine.ts:258-352 | a blank session, a failed integrity check, a bound that is no positive integer and an unknown bound each get their own error, and any other replay succeeds exactly when its overrides are well formed, name no target twice and each name an event up to the bound |
| ReplayEngine.ReduceReplayState | src/replay/journal-replay-engine.ts:206-229 | the loop computes the specified final state |
| ReplayEngine.ReplayCountsEveryEvent | src/replay/journal-replay-engine.ts:206-229 | the counter of each type is the number of replayed events of that type, and the counters sum to the number of events |
| ReplayEngine.ReplayHashCommits | src/replay/journal-replay-engine.ts:231-256 | equal replay hashes without a collision mean the same session, bound, events, applied overrides and final state, its counters up to their order |
| ReplayEngine.EqualHashesEqualReplays | src/replay/journal-replay-engine.ts:231-335 | so two successful replays, of whatever journals, bounds and overrides, with one hash are the same replay |
| PostgresReplay.SameChainReplays | src/replay/journal-replay-engine.ts:258-335 | chains that differ in the key order of their objects only replay alike, hash included, with any bound and any overrides |
| PostgresReplay.InterleavingReplaysAlike | src/journal/postgres-execution-journal.ts:186-259 | after any interleaving of appends a session of the table replays, with any bound and any overrides, to the hash of the in-memory journal of the committed inputs |
| CanonicalPlan.CanonicalizePlan | src/agent/canonical-plan.ts:317-351 | the loops of canonicalization compute the canonical plan, or throw, as specified |
| CanonicalPlan.IdsDecide | src/agent/canonical-plan.ts:265-315 | steps tie only when their ids are equal; otherwise their ids decide, whatever else the comparison looks at |
| CanonicalContents.CanonValueIff | src/agent/canonical-plan.ts:56-94 | an input is accepted, and becomes w, exactly when w is the same value but for normalized texts, sorted keys and trimmed references that are texts and not blank |
| CanonicalContents.NormalOnlySorts | src/agent/canonical-plan.ts:56-94 | of an input whose texts and references are normal already only the keys are sorted |
| CanonicalContents.NormStepIff | src/agent/canonical-plan.ts:165-263 | a raw step is accepted, and becomes s, exactly when it has the fields of the kind of s and no others than that kind allows, each of which s carries normalized and in its bounds |
| CanonicalContents.CanonicalizeIff | src/agent/canonical-plan.ts:317-351 | a raw plan is accepted, and becomes p, exactly when it has its three fields only, p carries its id, and the steps of p, in strict order of their ids, are as many as the raw steps and each is one of them normalized, with none left out |
| PlanPermutation.CanonOfSame | src/agent/canonical-plan.ts:56-94 | inputs equal up to key order canonicalize to the same value, or both are refused |
| PlanPermutation.SortedStepsAgree | src/agent/canonical-plan.ts:328-347 | any two arrangements of the same steps both have distinct ids and sort alike, or neither has |
| PlanPermutation.CanonicalizeOfSamePlan | src/agent/canonical-plan.ts:317-351 | canonicalization does not depend on the order of the steps or of any object's keys: both fail, or the same plan |
| PlanIdempotence.CanonTwice | src/agent/canonical-plan.ts:56-94 | a canonicalized input is a fixed point of input canonicalization |
| PlanIdempotence.CanonicalizeIsCanon | src/agent/canonical-plan.ts:165-351 | every plan that comes out has normalized texts of bounded length, safe integers, canonical inputs, ordered steps and distinct ids |
| PlanIdempotence.CanonPlanIsFixed | src/agent/canonical-plan.ts:317-351 | a plan in that form, written out and canonicalized, is itself |
| PlanIdempotence.CanonicalizeIdempotent | src/agent/canonical-plan.ts:317-351 | canonicalizing twice is canonicalizing once |
| PlanTypes.PlanFieldsInjective | src/agent/canonical-plan.ts:353-356 | the record a plan is written as determines the plan, the kind of every step included |
| Policies.ValidatePlan | src/agent/policies.ts:224-265 | the loops report the specified issue codes in the specified order, or throw |
| Policies.AcceptedIff | src/agent/policies.ts:59-265 | no issue is reported exactly for plans whose header, step fields and distinct ids meet the declarative rule |
| Policies.AcceptsOfSamePlan | src/agent/policies.ts:59-265 | acceptance does not depend on step order or key order |
| Policies.CanonicalFormAccepted | src/agent/policies.ts:59-265 | the canonical form of an accepted plan is accepted |
| Policies.LoopsOfAccepted | src/agent/policies.ts:59-222 | in the canonical form of an accepted plan every loop step may run at least once |
| IssueContents.StepAcceptedIff | src/agent/policies.ts:59-222 | kind by kind, exactly which fields a step must have to be accepted; a step of an unknown kind needs an id only |
| StepDependencies.CollectProducedOutputKeys | src/agent-run/step-dependencies.ts:126-165 | the loop skips steps with a blank output key and builds the table of the others, or returns an error when a key repeats, as specified |
| StepDependencies.ProducedTable | src/agent-run/step-dependencies.ts:126-165 | the table exists exactly when the output keys that are not blank are distinct once trimmed, and holds exactly those, each with the step that produces it |
| StepDependencies.AnalyzeStepDependencies | src/agent-run/step-dependencies.ts:167-239 | the loops compute the specified edges or the first error |
| StepDependencies.AnalyzeOkIff | src/agent-run/step-dependencies.ts:167-251 | the check accepts exactly the lists in which no trimmed output key repeats and every reference, at any depth, names the trimmed output key of an earlier step |
| DependencyContents.EdgesJoinReferences | src/agent-run/step-dependencies.ts:167-239 | an accepted list gets one edge for each of its references, in the order they are written, from its step to the earlier step that produces its key, with the ids and indexes of both |
| DependencyContents.AnalysisErrors | src/agent-run/step-dependencies.ts:126-239 | the error is the repeated key exactly when an output key repeats, and otherwise that of the first reference without an earlier producer: out of order when a step produces its key at all, not found when none does |
| StepBinding.MadeRefReadsBack | src/agent-run/step-dependencies.ts:253-264 | a made reference reads back as the trimmed key and path exactly when the key has no dot |
| StepBinding.BindNeverThrows | src/agent-run/step-dependencies.ts:266-279 | binding never throws: a key is only referred to when a step produces it |
| DependencyContents.BindGives | src/agent-run/step-dependencies.ts:253-279 | binding gives the reference to the key with its trimmed path exactly when the steps are accepted and one of them produces the key, and the fallback otherwise |
| StepBinding.ProducedIff | src/agent-run/step-dependencies.ts:266-279 | after an accepted check, a key is known exactly when some step's trimmed output key is that key |
| StepBinding.AppendKeepsDependencies | src/agent-run/step-dependencies.ts:167-239 | a step that refers only to produced keys and produces a new one can be appended to an accepted list |
| StepBinding.BoundStepIsAccepted | src/agent-run/step-dependencies.ts:266-279 | a step bound to a produced key without dots keeps the list accepted, whatever its input is called and wherever the path leads |
| StepBinding.ValidateRequiredDerivedInputs | src/agent-run/step-dependencies.ts:290-361 | no error exactly when every rule is obeyed by every step; otherwise the error of the first step and rule that fail |
| StepBinding.BoundInputObeys | src/agent-run/step-dependencies.ts:266-361 | an input bound by the rule's own reference obeys the rule |
| MockAdapter.RunToolLoop | src/agent/mock-adapter.ts:242-263 | the loop with its hash test computes the specified state |
| StepEffects.StepEffect | src/agent/mock-adapter.ts:175-266 | every step that does not throw has exactly the effect of its kind, keys, places and log lines that are not its own untouched: a counter raised by its delta, a value stored, a line logged, the tool's printed answer stored with one line, or with one or two for a loop; only tool steps throw, for their references or their tool |
| StepEffects.CountersAdd | src/agent/mock-adapter.ts:187-193 | along any run a counter is the sum of the deltas of its increments so far, and exists exactly when there was one |
| StepEffects.SetUntilRewritten | src/agent/mock-adapter.ts:182-185 | the value of a set step is what is found under its key until another step writes that key |
| ReferenceContents.PathReadsIff | src/agent/mock-adapter.ts:88-118 | a path of keys and item numbers written with dots reads exactly the value they lead to, array items included |
| ReferenceContents.MadeReference | src/agent/mock-adapter.ts:120-160 | a reference made of a key and a path stands for the stored text, or for what the path leads to in its parsed text |
| ReferenceContents.ResolveIff | src/agent/mock-adapter.ts:120-171 | an input resolves, and becomes w, exactly when w is the input with every reference, at any depth, replaced by what it stands for |
| DependencySoundness.StepKeys | src/agent/mock-adapter.ts:175-266 | a step keeps every key of the state and adds at most the key it writes; a tool call always stores under its output key |
| DependencySoundness.StepMisses | src/agent/mock-adapter.ts:120-240 | a step misses a state key only when a key its own input refers to is absent, and succeeds only when all of them are there |
| MockAdapter.LoopStops | src/agent/mock-adapter.ts:242-263 | for any positive bound and any core hash, colliding or not, the loop ends in its second iteration at the latest |
| MockAdapter.LoopLikeCall | src/agent/mock-adapter.ts:231-263 | a loop fails exactly when one call does, leaves the values and counters of one call, and logs one or two lines |
| DependencySoundness.StaticCheckIsSound | src/agent-run/step-dependencies.ts:167-251 | an accepted list of trimmed keys, run in order by the interpreter, never misses the state key of a reference at any depth |
| DependencySoundness.StaticCheckIsExact | src/agent/mock-adapter.ts:120-171 | in an accepted plan a run misses a key only at a step with an unclean reference, and no run gets past such a step |
| DependencySoundness.MissingKeyIsUnclean | src/agent/mock-adapter.ts:120-171 | from any state that holds the outputs so far, the step at which a key is missed has an unclean reference of its own |
| DependencySoundness.UncleanNeverPasses | src/agent/mock-adapter.ts:120-171 | no run gets past a step with a blank or untrimmed reference key |
| DependencySoundness.UntrimmedKeyIsAccepted | src/agent-run/step-dependencies.ts:69-94 | two steps with a space between the key of a reference and its path are accepted, and the interpreter fails at the second |
| DependencySoundness.CanonicalKeyCleanIff | src/agent/canonical-plan.ts:56-94 | a reference trimmed as a whole has an unclean key exactly when nothing or a space follows the prefix, or nothing or a space precedes the first dot |
| Executor.UntrimmedKeyFails | src/agent/executor.ts:30-180 | such a plan is canonical, passes the dependency check, and its execution fails at its second step whenever its tool answers |
| DependencySoundness.StoredUntilRewritten | src/agent/mock-adapter.ts:231-240 | the printed output of a tool call is what is found under its key until another step writes that key |
| DependencySoundness.ReferenceReadsOutput | src/agent/mock-adapter.ts:88-171 | a reference with a path into an earlier call's key resolves to what that path holds in the call's own output |
| Executor.RunSteps | src/agent/executor.ts:78-120 | the loop that applies, links and records computes the specified state, trace and last link, or stops at the first failing step |
| StepLoop.TraceOfRun | src/agent/executor.ts:85-120 | the trace has one entry per step, each made from the states around its step and the link before it |
| TraceChain.StepViewBinds | src/agent/trace-chain.ts:32-56 | equal step views mean equal steps, except that tool steps need only share id and kind |
| StateViews.StateViewBinds | src/agent/trace-chain.ts:6-30 | two state views are equal exactly when the states have the same value keys, the same normalized values and log lines, and the same safe-integer counters key by key |
| StateViews.RunStatesDistinct | src/agent/mock-adapter.ts:175-266 | every state a run passes through has no key twice |
| TraceChain.LinkHashBinds | src/agent/trace-chain.ts:58-79 | equal link hashes without a collision mean equal index, link, step view and state views |
| TraceChain.ExecutionHashBinds | src/agent/trace-chain.ts:81-96 | equal execution hashes without a collision mean equal plan hash, final link and final state view |
| TraceChain.PlanHashOfCanonical | src/agent/plan-hash.ts:5-7 | hashing a canonical plan does not throw and hashes the plan's own text |
| TraceChain.PlanHashBinds | src/agent/plan-hash.ts:5-7 | equal plan hashes without a collision mean equal canonical plans, tool fields included |
| Executor.ExecuteDeterministicPlan | src/agent/executor.ts:30-180 | the executor with its gates computes the specified outcome |
| Executor.SucceedsIff | src/agent/executor.ts:30-180 | it succeeds exactly for plans that pass the policies, canonicalize, fit the bound and run to the end |
| Executor.RunOfSteps | src/agent/executor.ts:78-120 | the loop ends where the bare interpreter does: same state, or same step and error |
| Executor.ExecuteOfSamePlan | src/agent/executor.ts:30-180 | a plan with its steps or keys in another order has the same outcome: hashes, trace and final state |
| Executor.ExecuteOfCanonicalForm | src/agent/executor.ts:30-180 | executing the canonical form of a plan gives what executing the plan gives |
| Executor.ExecutedReferences | src/agent/executor.ts:78-120 | of a canonical plan that passes the dependency check, execution misses a state value only through an unclean reference, and completes only without one |
| TraceCommitment.ChainsAgree | src/agent/trace-chain.ts:58-79 | the hash of the last link of a chain that starts at the zero link determines all links and their number |
| TraceCommitment.FinalLinkCommits | src/agent/executor.ts:85-159 | two completed runs with equal final links, without a collision among their own payloads, made the same links |
| TraceCommitment.FinalLinkCommitsViews | src/agent/trace-chain.ts:6-79 | then before every step and at the end both runs have the same values and log lines up to normalization and the same safe counters, and at every step the same step view |
| TraceCommitment.FinalLinkCommitsSteps | src/agent/trace-chain.ts:32-79 | and if the plans are canonical the same steps, but for the fields of tool steps |
| TraceCommitment.ExecutionHashCommits | src/agent/trace-chain.ts:6-96 | equal execution hashes force equal canonical plans and final links, and final states with the same values and log lines up to normalization and the same safe counters |
| TraceCommitment.ResponseHashes | src/agent/executor.ts:122-159 | the hashes in a successful response are those of the canonical plan and of its run |
| ExecutionContents.ResponseReportsRun | src/agent/executor.ts:85-179 | a successful response has the id and step count of the canonical plan, the final state of its run, and one trace entry per step with its index, id, kind, the hashes of the states around it, the link hash before it and its own |
| ExecutionContents.ResponseCountersAdd | src/agent/executor.ts:85-179 | in a successful response every counter is the sum of the increments of the plan |
| ExecutionContents.ExecuteOutcome | src/agent/executor.ts:17-180 | every execution ends at the first gate that fails, with its code, or at the step that throws, with the code of its error, or in the state the run ends in |
| ExecutionContents.ReferenceFailureCode | src/agent/executor.ts:17-22 | a reference that does not resolve is reported as a failed tool, whatever is wrong with it |
| ExecutorAsync.ExecuteDeterministicPlanAsync | src/agent/executor-async.ts:125-322 | the asynchronous executor with its sessions computes the specified outcome and open sessions |
| ExecutorAsync.AsyncAgrees | src/agent/executor-async.ts:125-322 | in mock mode with a factory and in local mode without sandbox steps it agrees with the synchronous executor: same success, identical result, same failures up to two recoded error codes |
| ExecutorAsync.MockModeNeedsFactory | src/agent/executor-async.ts:304-321 | in mock mode agreement on plans that pass the gates holds exactly when a factory is given; without one the executor throws |
| ExecutorAsync.NoFactoryExample | src/agent/executor-async.ts:304-321 | a plan of one log step that the synchronous executor completes and the asynchronous one, without a factory, throws on |
| ExecutorAsync.LocalRunLikeMock | src/agent/executor-async.ts:27-83 | against a browser that extracts by every canonical selector what the mock does, local mode agrees with the mock run, sandbox steps included |
| ExecutorAsync.SomeBrowserIsLikeMock | src/agent/executor-async.ts:27-83 | whatever the normalization, a browser that echoes the selector is such a browser |
| ExecutorAsync.SessionSeesItsSteps | src/agent/executor-async.ts:27-83 | in local mode each session is asked exactly its own steps, in plan order |
| ExecutionContents.LocalStepEffect | src/agent/executor-async.ts:27-83 | a sandbox step in local mode asks its session alone, and if it answers logs its line, an extract also storing the normalized answer; an error becomes the step's |
| ReplayVerification.RecordedRunVerifies | src/agent/replay.ts:27-75 | every recorded successful run is verified |
| ReplayVerification.AcceptanceIsAgreement | src/agent/replay.ts:27-75 | a record is verified exactly when a fresh run succeeds with its hashes, final state, schema version and trace length |
| ReplayVerification.TraceContentsUnchecked | src/agent/replay.ts:57-62 | replacing all entries of a recorded trace goes unnoticed |
| ReplayVerification.BoundDoesNotMatter | src/agent/replay.ts:27-42 | a bound the plan fits in does not change its execution |
| ReplayVerification.StableJsonCompares | src/agent/replay.ts:23-25 | comparing the printed states is comparing the states |
| PlannerContract.ValidatePlannerPromptOutput | src/prompts/planner/planner-contract.ts:197-318 | the early-return checks report the first fault as specified |
| PlannerContract.ContractAcceptsIff | src/prompts/planner/planner-contract.ts:197-318 | no fault exactly for outputs that conform to the declarative contract: known keys, numbered steps within the bound, allowed tools, backward dependencies |
| PlanVerifier.ValidateParameterSchema | src/planner/plan-verifier.ts:125-208 | the recursive check reports the specified issues |
| PlanVerifier.SchemaIff | src/planner/plan-verifier.ts:100-208 | no issue exactly for values that conform recursively: type, enum, required keys, declared properties, no others |
| PlanVerifier.ToolMapHolds | src/planner/plan-verifier.ts:210-226 | the map holds exactly the trimmed non-blank names, each with the last tool of that name |
| PlanVerifier.DependenciesIff | src/planner/plan-verifier.ts:228-264 | no issue exactly for distinct dependencies on earlier steps |
| PlanVerifier.VerifyDeterministicPlan | src/planner/plan-verifier.ts:266-358 | the loops collect the specified issues |
| PlanVerifier.VerifierAcceptsIff | src/planner/plan-verifier.ts:266-358 | accepted exactly when the output meets the declarative specification of a verified plan |
| IssueContents.StepReports | src/planner/plan-verifier.ts:302-344 | of a step the undeclared tool is reported alone; else dependency issues exactly when the dependencies are not distinct numbers of earlier steps, and parameter issues exactly when the parameters do not conform |
| IssueContents.RefusalsTell | src/planner/plan-verifier.ts:266-358 | output that conforms to the contract is refused for exactly the clarification it asks for, where that matters, and the issues of its steps |
| PlanVerifier.AcceptedToolsAreExact | src/planner/plan-verifier.ts:302-320 | accepted steps name declared tools exactly, without the trimming the contract allows |
| PlannerBridge.PaddedLess | src/agent-run/llm-live-planner-bridge.ts:31-33 | padded numbers up to 9999 compare as texts the way they compare as numbers |
| PlannerBridge.NormalizedId | src/agent-run/llm-live-planner-bridge.ts:31-37 | normalizing a step id leaves the padded number alone |
| PlannerBridge.BridgeSucceedsIff | src/agent-run/llm-live-planner-bridge.ts:43-71 | for any number of numbered steps the bridge succeeds exactly when there are steps and each can be built: ids never clash |
| PlannerBridge.OrderKeptIff | src/agent-run/llm-live-planner-bridge.ts:31-71 | canonical sorting keeps the order of the steps exactly up to 9999 of them |
| PlannerBridge.LaterIsFirst | src/agent-run/llm-live-planner-bridge.ts:31-33 | beyond that, step 10000 sorts before step 9999 |
| BridgeContents.BridgeHoldsSteps | src/agent-run/llm-live-planner-bridge.ts:35-71 | the steps of a bridged plan are the planner's steps, each once: the call of its tool on its parameters in canonical form, with its number in the id and in the output key |
| BridgeContents.OutputKeysDistinct | src/agent-run/llm-live-planner-bridge.ts:39-71 | no two steps of a bridged plan write the same key |
| PlannerBridge.VerifiedDependenciesFirst | src/agent-run/llm-live-planner-bridge.ts:43-71 | in the plan bridged from verified output every dependency runs before its dependent |
| PlannerBridge.TextPlansAreShort | src/agent-run/llm-live-planner-contract.ts:60-105 | a plan from text has at most eight steps whatever bound is asked for, in order, dependencies first |
| CapabilityRules.InsertRequiredCapabilities | src/agent-run/capability-dependency-rules.ts:22-96 | the pushes compute the closed, ordered list and what was inserted; lists with math.add or echo only lose repeats |
| CapabilityRules.PushedIs | src/agent-run/capability-dependency-rules.ts:36-92 | what is pushed is in the fixed order and closed under the predecessors of select and merge |
| CapabilityContents.InsertedIs | src/agent-run/capability-preconditions.ts:23-50 | what is reported as inserted is exactly what the normalized list has and the requested one has not |
| CapabilityRules.NormalizeIdempotent | src/agent-run/capability-preconditions.ts:23-50 | normalizing twice is normalizing once, and the second time nothing is inserted |
| CapabilityRules.CheckNormalizedIff | src/agent-run/capability-preconditions.ts:56-108 | a normalized list passes the checks exactly when it has math.add, or is not empty and has echo only alone |
| CapabilityRules.ValidAfterNormalizeIff | src/agent-run/capability-preconditions.ts:23-108 | after normalization the check refuses exactly the lists that lack math.add and are empty or mix echo with another capability |
| CapabilityPipeline.BuildCapabilitySynthPlan | src/agent-run/capability-pipeline.ts:136-374 | the builder, pushing steps and moving its references, computes the specified plan or error |
| CapabilityPipeline.SynthFailsIff | src/agent-run/capability-pipeline.ts:136-374 | the builder fails exactly on the lists that cannot be planned |
| CapabilityContents.SynthErrorTells | src/agent-run/capability-pipeline.ts:142-156 | a list is only ever refused for being empty, or else for mixing echo with something else |
| CapabilityPipeline.SynthPassesChecks | src/agent-run/capability-pipeline.ts:96-121 | whatever the capabilities, the dependency check and every derived-input rule pass |
| CapabilityContents.BuiltPlanTells | src/agent-run/capability-pipeline.ts:136-374 | a built plan sets the goal and the intent, calls the tool of every planned capability and no other, each on the input it stands for, with the order id and product name of the goal or their defaults and the references of its predecessors, and ends by logging done |
| CapabilityPipeline.SortedEdgesPointBackward | src/agent-run/capability-pipeline.ts:165-374 | ids are distinct, and after canonical sorting every reference points back to the one step that produces its key, although step z was pushed out of sequence |
| CapabilityRuns.CanonicalEdgesPointBackward | src/agent-run/capability-pipeline.ts:136-374 | in the canonical form of a built plan every reference points back to the one step that produces its key and is written as it is looked up |
| CapabilityRuns.BuiltPlansMissNothing | src/agent-run/capability-pipeline.ts:136-374 | executing a built plan, whatever the tools answer, never misses the state key of a reference |
| CapabilityAnswers.BuiltPlansFailOnlyInTools | src/agent-run/capability-pipeline.ts:136-374 | when normalize answers with a text and extract and select with a value, no reference of a built plan fails in any way, and its execution stops only where a tool throws |
| LlmPlanCache.LlmLivePlanner.Answer | src/agent-run/planner-llm-live.ts:428-486 | one call of either entry point answers and writes the cache as specified |
| LlmPlanCache.CallAnswers | src/agent-run/planner-llm-live.ts:428-486 | a cached plan answers unless plan text is given; otherwise the plan is made by the mock, from the text or, in the asynchronous call only, by the model, answered as made and saved to be loaded back, other entries untouched |
| LlmPlanCache.KeyTextIff | src/agent-run/planner-llm-live.ts:28-46 | two requests have one key text exactly when they agree in provider, model, temperature, token limit, goal, demo, last error, plan text and, up to key order, history |
| LlmPlanCache.KeyTextTells | src/agent-run/planner-llm-live.ts:28-46 | equal key texts mean the same provider, goal and plan text |
| LlmPlanCache.LoadOfSave | src/agent-run/llm-live-cache.ts:18-46 | what is saved under a key is loaded back, with the keys of objects sorted |
| LlmPlanCache.CachedIsBuilt | src/agent-run/planner-llm-live.ts:428-486 | in every reachable cache, the entry of a request was built by an earlier call of the same provider, goal and plan text |
| LlmPlanCache.MockAgreesWithUncached | src/agent-run/planner-llm-live.ts:428-486 | over any history a mock request gets, on a miss, the plan of the builder without a cache, and on a hit that plan with its keys sorted; it fails exactly when the builder fails |
| CachedPlanRuns.CachedMockPlanRunsAlike | src/agent-run/planner-llm-live.ts:428-486 | either way executing the answer gives the hashes, trace and final state of executing the builder's plan |
| LlmPlanCache.PlanTextIsAlwaysUsed | src/agent-run/planner-llm-live.ts:428-486 | a request with plan text is answered with the very plan of its own text whatever is cached |
| LlmPlanCache.CachedModelAnswer | src/agent-run/planner-llm-live.ts:428-486 | a cached answer to a request without plan text was made by a model, never from plan text |
| LlmPlanCache.FirstModelPlanIsKept | src/agent-run/planner-llm-live.ts:428-486 | once answered, every later request with the same key gets that first plan with its keys sorted |
| RateLimit.RateLimiter.Enforce | src/http/handlers/rate-limit.ts:68-106 | one request updates its bucket and is admitted or denied as specified |
| RateLimit.IntervalBound | src/http/handlers/rate-limit.ts:68-106 | over any history with a non-decreasing clock, a key gets at most one less than twice the limit in any half-open interval as long as the window |
| RateLimit.IntervalBoundIsReached | src/http/handlers/rate-limit.ts:68-106 | a history that reaches that bound |
| RateLimit.WindowBound | src/http/handlers/rate-limit.ts:77-106 | from a request that opens a window, at most the limit is admitted until the window ends |
| RateLimit.DeniedOnlyWhenFull | src/http/handlers/rate-limit.ts:77-106 | a request is denied only in a window, opened by an admitted request of its key, that has admitted the limit already |
| RateLimit.OwnHistoryDecides | src/http/handlers/rate-limit.ts:77-106 | the decision about a request is the one it gets when only the requests of its own key are made |
| RateLimit.RetryAfterOutlasts | src/http/handlers/rate-limit.ts:91-103 | waiting the advertised time outlasts the denying window with less than a second to spare, and the key is admitted again |
| RunRegistry.RunIdInjective | src/http/runs/registry.ts:42-58 | no two counter values give the same run id, padded or not |
| RunRegistry.AgentRunRegistry.CreateRun | src/http/runs/registry.ts:42-58 | adds one created run under the next id and changes nothing else |
| RunRegistry.AgentRunRegistry.StartRun | src/http/runs/registry.ts:81-83 | moves a created run to running, otherwise refuses without change |
| RunRegistry.AgentRunRegistry.CompleteRun | src/http/runs/registry.ts:85-101 | completes a running run, otherwise refuses without change |
| RunRegistry.AgentRunRegistry.FailRun | src/http/runs/registry.ts:103-119 | fails a running run with code and message, otherwise refuses without change |
| RunRegistry.AgentRunRegistry.CancelRun | src/http/runs/registry.ts:121-148 | cancels a created or running run, otherwise refuses without change |
| RunRegistry.IdsAreNeverReused | src/http/runs/registry.ts:42-58 | over any history the id handed out next is not in use, and every id handed out before still is |
| RunRegistry.RunsOnlyMoveForward | src/http/runs/registry.ts:17-27 | from any reachable registry over any further history every run stays and its status only moves forward |
| RunRegistry.TerminalIsForever | src/http/runs/registry.ts:13-27 | a terminal run never changes again in any field |
| RunContents.EveryRunIsAccounted | src/http/runs/registry.ts:42-148 | over any history every field of every run comes from a call: agent and input from its creation, an output only from the call that completed it, an error only from the one that failed or cancelled it |
| RunExecution.InjectedFailsReads | src/enterprise/agent-executor.ts:33-39 | the number of faults in a trace id is read, with or without a suffix |
| RunExecution.ExecuteWithFixpoint | src/enterprise/agent-executor.ts:41-121 | the retry loop computes the specified outcome and, restoring before each retry, leaves the registry as it was |
| RunExecution.FixpointIs | src/enterprise/agent-executor.ts:41-121 | k injected faults below the limit cost k backoffs of min(cap, base times 2 to the i) and then iteration k+1 ends as the executor's result says; at the limit, or when the executor keeps failing with a retryable code, the loop gives up |
| RunExecution.HandleExecuteRun | src/http/handlers/run-execute.ts:116-176 | the handler changes the registry and answers as specified |
| RunExecution.SyncAlwaysEnds | src/http/handlers/run-execute.ts:116-176 | a created run ends completed when fewer faults than iterations are injected and the executor succeeds, else failed; no other run changes |
| RunContents.SyncRecords | src/http/handlers/run-execute.ts:116-176 | the record ends with the execution, the number of iterations and the backoffs of its retries, or with the error that ended it, and no other record changes |
| RunExecution.SyncRefuses | src/http/handlers/run-execute.ts:116-133 | an unknown or already started run is refused with 404 or 409 and left alone |
| RunExecution.HandleExecuteRunAsync | src/http/handlers/run-execute.ts:178-263 | the asynchronous handler, with others using the registry during each await, leaves the registry and answers as specified |
| RunExecution.AsyncAlwaysEnds | src/http/handlers/run-execute.ts:178-263 | whatever others do during the awaits, a created run ends completed or failed in the response and in the registry |
| RunExecution.AsyncAbsorbsIff | src/http/handlers/run-execute.ts:199-255 | ended runs stay as they are throughout exactly when nobody ends the run during an await |
| RunExecution.CancellationIsLost | src/http/handlers/run-execute.ts:199-255 | a run cancelled during the first await, with an executor that succeeds, ends completed in a 200 response |
| RunExecution.CancellationIsLostAtOnce | src/http/handlers/run-execute.ts:199-255 | the same for the first run of a new registry |
| WhatsAppWebhook.HandleMessages | src/http/handlers/whatsapp-webhook-async.ts:253-517 | the loop over a batch leaves the store, sends, journals and answers as specified |
| WhatsAppWebhook.BatchesConcatenate | src/http/handlers/whatsapp-webhook-async.ts:253-517 | two batches one after the other are the messages of both in order |
| WhatsAppWebhook.AnsweredAtMostOnce | src/http/handlers/whatsapp-webhook-async.ts:271-322 | a delivery is reported as duplicate exactly when its message id was processed before, repeats within a batch included, so at most one delivery of an id is answered |
| WhatsAppWebhook.RedeliveryIsHarmless | src/http/handlers/whatsapp-webhook-async.ts:271-322 | store, sent replies and handoffs are those of the first deliveries alone |
| WhatsAppWebhook.EveryDeliveryIsJournaled | src/http/handlers/whatsapp-webhook-async.ts:253-517 | every delivery, duplicate or not, journals exactly one received and one processed event, in order |
| WhatsAppReplies.RepliesAreSent | src/http/handlers/whatsapp-webhook-async.ts:331-378 | one reply is sent for each first delivery, in order, to the customer who wrote, with the trimmed text of the agent's answer, and none when sending is off |
| WhatsAppReplies.ResultsTell | src/http/handlers/whatsapp-webhook-async.ts:273-517 | the response says of each message whether it was a repeat and, if not, the agent's answer, the session after it and what became of the reply |
| WhatsAppReplies.TranscriptIsKept | src/http/handlers/whatsapp-webhook-async.ts:380-455 | the conversation kept of a customer grows by what that customer wrote, what was answered and the handoffs asked for, first deliveries only and in order |
| WhatsAppReplies.AnswerKeeps | src/http/handlers/whatsapp-webhook-async.ts:404-443 | an answered message leaves its answer as the customer's evidence and a handoff exactly when the agent asks for one, and touches no other customer's |
| WhatsAppReplies.ReceivedTells | src/http/handlers/whatsapp-webhook-async.ts:256-270 | the received event is filed under customer, message and time and holds the text |
| WhatsAppReplies.ProcessedTells | src/http/handlers/whatsapp-webhook-async.ts:286-307 | the processed event says whether the message was a repeat, what became of the reply, and the answer's fields or null |
| WhatsAppReplies.HandoffTells | src/http/handlers/whatsapp-webhook-async.ts:461-481 | the handoff event holds the handoff's id, the answer's fields, and why and where the customer was handed over |
| WhatsAppHandoffs.OneHandoffPerMessage | src/http/handlers/whatsapp-webhook-async.ts:420-482 | for any customers a message opens at most one handoff, and of the handoffs under one id the store holds the last |
| WhatsAppHandoffs.HandoffKeptIff | src/http/handlers/whatsapp-webhook-async.ts:427-443 | a handoff is still in the store exactly when no later one was opened under its id |
| WhatsAppHandoffs.LaterHandoffReplaces | src/channels/whatsapp/store.ts:228-231 | of two messages that share a handoff id and both ask for a human only the later record is left |
| WhatsAppHandoffs.HandoffsAreKept | src/http/handlers/whatsapp-webhook-async.ts:420-482 | while no two customers can share a handoff id, no handoff of a normalized message replaces another |
| WhatsAppHandoffs.SafeCustomersIff | src/http/handlers/whatsapp-webhook-async.ts:427-443 | those are exactly the sets of customers for which every run of normalized messages with every agent keeps every handoff |
| WhatsAppHandoffs.HandoffIdSharedIff | src/http/handlers/whatsapp-webhook-async.ts:427-427 | two pairs share a handoff id exactly when they are the same, or one customer id goes on from the other after a colon and the other message id makes up for the rest |
| WhatsAppHandoffs.CustomersShareIff | src/http/handlers/whatsapp-webhook-async.ts:427-427 | normalized messages of two customers can share a handoff id exactly when both ids are trimmed and not empty and one, followed by a colon, starts the other, which does not go on with a space |
| WhatsAppHandoffs.HandoffIdTellsApart | src/http/handlers/whatsapp-webhook-async.ts:427-427 | in particular the handoff id determines customer and message when customer ids have no colon |
| WhatsAppHandoffs.HandoffIdsCanCollide | src/http/handlers/whatsapp-webhook-async.ts:427-427 | two normalized messages that share a handoff id, and an agent with which the record of the first is lost |
| WhatsAppWebhook.SessionIsConversation | src/http/handlers/whatsapp-webhook-async.ts:324-404 | the stored session of every customer is what the agent makes of that customer's own first deliveries, in order |
| WhatsAppJournal.HandleOnTable | src/http/handlers/whatsapp-webhook-async.ts:253-517 | the loop over a journal that can refuse leaves store, table and answers as specified, and ends at the first append that throws |
| WhatsAppJournal.AppendIff | src/journal/postgres-execution-journal.ts:186-246 | on a numbered table with room an append of the handler throws exactly when the table has its event already, and otherwise adds that event alone |
| WhatsAppJournal.AppendRecords | src/http/handlers/whatsapp-webhook-async.ts:128-144 | the row an accepted append adds records the call, its texts trimmed and its objects up to key order, under the request's id |
| WhatsAppJournal.ReachesEndIff | src/http/handlers/whatsapp-webhook-async.ts:253-271 | the handler reaches the end of a batch exactly when no (customer, message) pair comes twice and the table has no event of any of them |
| WhatsAppJournal.EndIsHandled | src/http/handlers/whatsapp-webhook-async.ts:253-517 | a batch that reaches its end is handled as by a journal that cannot refuse |
| WhatsAppJournal.StopsAtFirstRepeat | src/http/handlers/whatsapp-webhook-async.ts:256-271 | at the first repeat the handler stops before it looks for a duplicate: store, sends, handoffs, results and table are those of the messages before it |
| WhatsAppJournal.RedeliveryStopsAtOnce | src/http/handlers/whatsapp-webhook-async.ts:256-271 | a batch delivered again stops at its first message and changes nothing |
| WhatsAppJournal.RepeatInBatchStops | src/http/handlers/whatsapp-webhook-async.ts:256-271 | one message twice in one batch on an empty table: the first is answered and the second ends the run |
| WhatsAppJournal.ServedIsSound | src/http/handlers/whatsapp-webhook-async.ts:253-517 | after any batches, stopped ones included, the table is numbered session by session and holds no event of a message without its received event |
| WhatsAppJournal.ReachableIsNumbered | src/journal/postgres-execution-journal.ts:186-246 | so is, numbered, every table that interleaved appends can reach |

## Left out

- Numbers are integers: IEEE rounding, fractions, -0 and NaN are not modelled, and counter sums are not bounded by the safe range.
- Texts outside the basic plane: a character here is one Unicode scalar value and in JavaScript two code units, so lengths, length limits and the order of such texts differ from the program's.
- Lone surrogates and the printing of code units beyond the escapes of `JSON.stringify` for control characters, quote and backslash.
- Prototype keys, getters, keys that look like integers (which JavaScript enumerates first) and the difference between an absent field and one set to undefined.
- SHA-256, the FNV arithmetic and the tables of Unicode normalization, which are parameters.
- `JSON.parse` beyond the texts the system itself printed; elsewhere it is a parameter.
- The Postgres and SQLite drivers, connection errors and migrations; a query is atomic and either succeeds or is refused by a constraint.
- Wall clocks and the timestamps of run records; the clock of the rate limiter is an argument.
- The wording of error messages: issues and failures are modelled by their codes, and by the exact step where that is part of the property.
- HTTP routing, headers, signatures, tokens, environment parsing, metrics and logging.
- The bodies of tools, the browser sandbox, the model adapters and the customer-service agent, which are parameters.
- The metadata of synthesized plans and the extraction of entities from a goal, which are parameters of the capability builder.
- The `converged` flag and the prompt rendering of the planner contract.
- The webhook without a store, a store or sender that throws, and a journal that fails for another reason than its constraints.
- WhatsAppJournal.ReachesEndIff: one handler at a time; other appends to the same session between its read and its insert are the subject of `PostgresJournal` alone.
- A `steps` value that is neither an array nor absent: `ValidatePlan` treats it as an empty list.
- PostgresJournal.EveryInterleavingIsAChain: states the protocol as steps of a table and of pending appends; the asynchronous methods themselves are not Dafny methods, because Dafny has no interleaving of them.
- ReplayEngine.ReplayUntilIsReplayOfPrefix: journals of at most 9007199254740991 events, the largest bound the engine itself accepts as a sequence.
- PlannerBridge.VerifiedDependenciesFirst: stated up to 9999 steps, where `OrderKeptIff` shows order to end.
- LlmPlanCache.FirstModelPlanIsKept: sequential calls only; two concurrent calls that both miss the cache may each write it.
