# Stale-State Firewall: a verified model

The Stale-State Firewall authorizes actions that agents take on a world that changes under them. An
action declares the state it was decided on; the firewall fetches current state, classifies how stale
the declaration is, evaluates preconditions, decides, and hands the executor an authorization bound to
the exact state it was granted on. This project models that protocol and its supporting engines in Dafny
and proves what they promise.

`dafny verify dfyconfig.toml` checks everything. Times are integer milliseconds, strings are sequences of
UTF-16 code units, objects are finite maps from text to values.

## How the model is laid out

- `Protocol` is the execution protocol as a transition system. Every `await` of `executeAction`,
  `executeConditionally` and `executeApprovedAction` ends an atomic step; any number of calls interleave
  with each other, with outside changes to the provider, with operators resolving escalations, and with an
  arbitrary clock. A schedule (a sequence of steps) determines a world: `After(ctx, schedule)`. A step is a
  *plan* (what it reads and where it branches) followed by its *writes*. Executors are honest: they forward
  the authorized version and leave the comparison to the provider. They may still refuse, crash before or
  after the effect, or outlive the deadline.
- `History` is the protocol seen from outside: the sequence of events, the rules each event obeys, and
  what the rules imply. `ProtocolClaims` proves that every schedule obeys the rules and that the store
  agrees with the history; `ProtocolEffects`, `ProtocolGrants` and `ProtocolApproval` prove three further
  invariants of every schedule; `ProtocolSafety`, `ProtocolReports`, `ProtocolEscalations` and
  `ProtocolExamples` state what follows. `ProtocolSolo` goes the other way: a call that nothing interrupts
  computes the sequential algorithm, so that nothing the invariants allow is left undone.
- The engines are `FreshnessEngine`, `Preconditions`, `DecisionEngine`, `Policies`, `Config`,
  `Dependencies`, `Glob`, `Durations`; canonical JSON and what rests on it are `Json`, `Hashing`, `Audit`,
  `Redaction`, `Approval`; the mutable parts are the classes `Provider.InMemoryProvider`,
  `Store.MemoryStore` and `Sdk.Firewall`, whose methods are proved against the functions the protocol
  uses. `Text`, `Wrappers` and `Domain` hold the vocabulary.

The hash is an arbitrary function. No hash into 64 hexadecimal digits is injective, so no statement assumes
it: where two hashes must differ, the statement says that otherwise two named texts collide.

## What turned out false, and what holds instead

- **At most one execution per action id** (the header of `execute-action.ts` promises exactly one
  authorization and one attempt) fails under overlap: the consumed-authorization guard reads at line 112, the
  claim comes at line 337 and admits a consumed slot. `ProtocolExamples.OverlappingCallsCanBothStart` gives
  the schedule: the second call looks while the first executes and claims right after it consumed. Two calls
  that never overlap each other can both start too, when a third overlaps both
  (`ProtocolExamples.SeparateCallsCanBothStart`); on an ALLOW path nothing is awaited between the look and the
  claim but line 112 itself, so that schedule takes a store whose read returns late. At most one holds if
  and only if no call that started had looked at a spent authorization or had another call consume between
  its look and its claim (`History.SecondStart`, `History.AtMostOneStartExactly`); for calls that do not
  overlap that leaves only permitted retries (`History.AtMostOneStart`). What holds in every interleaving is
  mutual exclusion of live claims.
- **A start never happens under a pending or rejected escalation** fails under overlap too:
  `ProtocolEscalations.StartsWhileHeld` gives the schedule, two calls in lock-step; `History.StartWhileHeld` the
  exact condition: after the call's own guard, the last write to the escalation was a hold by another call or a
  rejection.
- **A resolution is final** holds, short of another hold, exactly when no other operator had read the
  escalation pending and not yet written (`ProtocolEscalations.ResolutionIsFinalExactly`). One that does not
  stand: two operators read the same hold pending, and the first approves
  (`ProtocolEscalations.ResolutionCanBeOverwritten`).
- **Resubmitting the first recorded intent under an approval always passes** fails when the approval was given
  to a later submission under the same id: the decision compared is the escalated one, the arguments
  compared are the first recorded ones. `ProtocolEscalations.FirstIntentIsRefused` gives the schedule,
  `Approval.FirstIntentPassesExactly` and `Approval.EscalatedIntentPassesExactly` the exact conditions.
- **A failed precondition is never allowed** fails on stale and unknown evidence, where the decision does not
  look at preconditions: `DecisionEngine.FailedPreconditionAllowed` gives the input (critical risk, STRICT
  mode), `DecisionEngine.BrokenAllowedExactly` the exact condition. **Approval still blocks proven change and
  failed preconditions** (the comment at lines 192-193 of `execute-action.ts`) fails exactly when the
  configuration escalates such evidence (`DecisionEngine.BrokenEscalatesExactly`,
  `ProtocolSafety.BrokenEvidenceGoesOnExactly`). A clean report admits such a configuration:
  `DecisionEngine.FailedPreconditionEscalated` gives the evidence, and
  `ProtocolSafety.ApprovalCanPassFailedPrecondition` an approved call that goes on to the claim with a failed
  precondition on fresh state.
- **Every difference above the redaction depth cap stays visible** fails for dates, each of which redacts to
  an empty object (`Redaction.DatesLookAlike`); `Redaction.RedactionHidesExactly` says exactly what is hidden.
- **A configuration with a clean report loads** fails for a zero time-to-live and for a deadline beyond the
  platform timer (`Config.CleanConfigMayNotLoad`, exact condition in `Config.CleanConfigLoadsExactly`).
- **Canonical JSON separates values** holds exactly up to what a JSON value denotes: undefined items and null,
  dates and their text, non-finite numbers and their tag are told apart by no parser (`Json.AliasedValues`).
- **The audit chain detects every alteration** holds of bodies and their order, not of record numbers, which
  are not hashed (`Audit.VerificationIgnoresNumbers`).
- **The conditional fetch agrees with the full fetch** except exactly where the full fetch would report drift
  by the provider's own clock (`Dependencies.ConditionalRefinesFull`); `Dependencies.ConditionalCanDisagree`
  gives a resource that is FRESH when affirmed and INVALID when fetched.
- The comment above `classifyByAge` puts the boundary `age = max age` in AGING; the code puts it in STALE,
  and the model follows the code.
- The message of `validatePolicyConfig` for a policy's `on_stale: allow` speaks of acknowledging it; the code
  refuses it in a named policy whatever is acknowledged, and so does the model.

## Model

| member | source | states |
|---|---|---|
| ProtocolClaims.EveryScheduleIsLawful | src/application/execute-action.ts:63-532 | every schedule of any number of calls leaves a history in which each event obeys the protocol's rules, and authorizations, escalations and call states agree with it |
| ProtocolClaims.PlanFits | src/application/execute-action.ts:63-436 | every planned step keeps a call's program counter, its executor's progress and its phase in the history together, and has read what entitles it to its write |
| ProtocolSafety.OneHolder | src/application/execute-action.ts:327-348 | in every schedule a stored authorization is live exactly while a call has claimed its id and not consumed it, blocked or not, and names that call, so there is at most one |
| ProtocolSafety.NothingStartsUndecided | src/application/execute-action.ts:189-322 | in every schedule a call past its decision has an existing policy and, outside OBSERVE, rests on ALLOW or on an approved ESCALATE; without approval a policy that requires a condition never goes on without one |
| ProtocolSafety.BrokenEvidenceGoesOnExactly | src/application/execute-action.ts:189-217 | a call whose verdicts tell of proven change or a failed precondition goes on exactly when they are stale or unknown and the configuration allows that, or the call is approved and the configuration escalates them |
| ProtocolSafety.ApprovalBlocksBrokenEvidence | src/application/execute-action.ts:189-217 | in every schedule, where uncertainty is not allowed and broken evidence not escalated, a decided call, approved or not, rests on verdicts without INVALID and without a failed precondition |
| ProtocolSafety.ApprovalCanPassFailedPrecondition | src/application/execute-action.ts:189-217 | under a loaded configuration with a clean report, an approved call whose fetched state is fresh and fails its precondition goes on to the claim, whatever the world |
| ProtocolGrants.EveryScheduleBinds | src/application/execute-action.ts:230-240 | in every schedule a live authorization carries the fingerprint and the expected state of exactly what its holder fetched at validation |
| ProtocolGrants.HolderKeepsFetches | src/application/execute-action.ts:350-436 | the holder of a live authorization neither changes what it was authorized on nor claims again |
| History.MutualExclusion | src/storage/memory/memory-store.ts:142-151 | two runs that own the same action id are the same run, in every lawful history |
| History.HolderExactly | src/storage/memory/memory-store.ts:142-165 | the slot names a run exactly when that run has claimed and not yet consumed |
| History.OwnsExactly | src/storage/memory/memory-store.ts:142-165 | a run owns an id exactly when it claimed it and did not consume it |
| History.ClaimsAlternate | src/storage/memory/memory-store.ts:142-165 | between two claims on an id the first claimer consumed |
| History.StartsBelongToHolder | src/application/execute-action.ts:337-367 | every executor start is preceded by its own run's claim, with no claim or consumption on the id in between |
| History.StartsOnce | src/application/execute-action.ts:443-448 | no run starts its executor twice, so the re-decision after a refused condition never starts it |
| History.SecondStart | src/application/execute-action.ts:111-133 | a start has an earlier start under its id if and only if its call looked at a spent authorization, which only a permitted retry passes, or another call consumed between its look and its claim |
| History.AtMostOneStartExactly | src/application/execute-action.ts:111-348 | the executor starts at most once under an id if and only if no call that started had such a look or such a consumption |
| History.LookAndClaim | src/application/execute-action.ts:112-337 | every start has exactly one look and one claim of its own call before it |
| History.AtMostOneStart | src/application/execute-action.ts:9-12 | if calls on an id do not overlap and none is a permitted retry, the executor starts at most once under the id |
| ProtocolExamples.OverlappingCallsCanBothStart | src/application/execute-action.ts:112-367 | a schedule in which two overlapping calls both start under one id, neither a retry: the second looks before the first consumes and claims after |
| ProtocolExamples.SeparateCallsCanBothStart | src/application/execute-action.ts:112-337 | a schedule in which two calls that never overlap each other both start under one id, neither a retry, because a third call overlaps both |
| ProtocolExamples.PlainExists | src/engine/decision-engine.ts:118-186 | there is an ENFORCE context with a call that is allowed, one that is held and one that is denied on the same id, to which the schedules apply |
| History.StartWhileHeld | src/application/execute-action.ts:72-85 | an executor starts under a pending or rejected escalation if and only if, after its own guard read it, the last write to the escalation was a hold by another call or a rejection |
| ProtocolEscalations.StartsWhileHeld | src/application/execute-action.ts:72-216 | a schedule in which two calls pass the guard together, one claims, the other is held, and the first starts while the escalation is pending |
| History.NeverStartsWhileHeld | src/application/execute-action.ts:72-85 | without overlap nothing starts under a pending or rejected escalation |
| History.FrozenForGood | src/application/execute-action.ts:384-436 | after a re-check block nothing is ever claimed, started or consumed under the id |
| ProtocolSafety.BlockedRecheckFreezes | src/application/execute-action.ts:384-436 | a call whose re-check blocks leaves its authorization live and its own in every continuation, with no claim, start or consumption on the id ever after |
| ProtocolSafety.StartedAndEndedConsumed | src/application/execute-action.ts:469-510 | a call that started its executor and has ended consumed its authorization after the start |
| ProtocolSafety.ReportsAreTruthful | src/application/execute-action.ts:664-947 | a satisfied report means exactly one mutation applied by the provider, failed and unavailable mean none, unknown at most one, now and in every continuation, and the authorization is consumed |
| ProtocolReports.ReportsAreEarned | src/application/execute-action.ts:664-947 | in every schedule an unknown outcome is reported only after the deadline or a crash, an unavailable condition only after the executor declined, not attempted exactly without a condition; a conditional call none of these befell reports satisfied exactly when its mutation was applied once and failed exactly when not |
| ProtocolReports.AnswersAreReported | src/application/execute-action.ts:664-947 | in every schedule a call in flight reports its executor's answer at its very next step, each answer its own report, and stays in flight without one |
| ProtocolReports.InterruptionsAreReported | src/application/execute-action.ts:664-947 | in every schedule the deadline, a crash with or without an effect, and a refusal to try are reported as what they are |
| ProtocolSolo.CallAlone | src/application/execute-action.ts:63-532 | in every state of the store, the provider and other calls, a call that nothing on its id hinders and no step of another interrupts fetches what the evaluation loop fetches, records the decision on that, and is held, stops, or claims and executes, with the exact events, records, authorization and provider state each leaves |
| ProtocolSolo.EvaluatesAlone | src/engine/dependency-evaluator.ts:71-149 | the interleaved fetching, left alone, ends with exactly the fetches of the loop at the clock it began |
| ProtocolSolo.ActsExactly | src/application/execute-action.ts:350-367 | on the state it was validated on, the executor's mutation is applied, with its changes and nothing else, exactly if the target was fetched under a reference to the same resource |
| ProtocolSolo.RechecksAlone | src/application/execute-action.ts:370-436 | left alone, the re-check blocks exactly where nothing could be fetched, and otherwise lets the execution start |
| ProtocolSolo.RedecidesAlone | src/application/execute-action.ts:735-870 | a failed condition ends in the record of a new decision on current state, and no second start |
| ProtocolSolo.ApprovedEntersAlone | src/application/execute-action.ts:535-611 | an approved call left alone gets to its validation exactly if the escalation is approved, the call is bound to the recorded decision and no live authorization exists; else it stops having written nothing |
| ProtocolEffects.EveryScheduleKeepsEffects | src/providers/memory/in-memory-provider.ts:82-168 | in every schedule versions stay unique, each resource's log stays a chain, every applied mutation is logged and was the first at its version, and every fetched snapshot tells the contents its version stands for |
| ProtocolSafety.VersionsSwapOnce | src/providers/memory/in-memory-provider.ts:82-111 | of any number of compare-and-swaps of one resource at one expected version, by any calls under any ids, at most one succeeds |
| ProtocolSafety.AppliedToTheAuthorizedState | src/application/execute-action.ts:350-367 | whenever the provider applies a call's mutation, the resource has at that instant exactly the version and contents the call fetched at validation, and is left with those contents under the executor's changes, a step the log has |
| ProtocolSafety.ContentsFollowTheLog | src/providers/memory/in-memory-provider.ts:82-168 | in every schedule a resource's contents are those it was registered with under the logged changes in order |
| ProtocolSafety.SatisfiedMeansPreconditionsHeld | src/application/execute-action.ts:895-914 | a satisfied call in ENFORCE or STRICT mode without approval had one effect, the executor's changes, and every precondition that the policy or the intent demands of the target held of its contents at that instant |
| ProtocolSafety.CleanConfigProtectsEffects | src/application/validate-action.ts:45-62 | the same from a configuration with a clean report and no acknowledgement, for every policy and every call |
| ProtocolSafety.CleanConfigAllowsSoundly | src/config/validation.ts:631-652 | from a clean configuration an initial ALLOW rests on declared dependencies, all fetched from a supporting provider, none differing from what was declared, each fresh, or aging outside STRICT mode, by the strategy of its rule, all preconditions demanded by policy and intent holding |
| ProtocolSafety.RecheckedStartFoundTheSame | src/application/execute-action.ts:370-436 | an unconditional start under the re-check means nothing was declared, or the re-check found the same non-empty entries in the same order, or the hash collides on the two named texts |
| ProtocolSafety.RecheckFetchedEverything | src/application/execute-action.ts:384-412 | where validation fetched everything, a start means the re-check fetched every dependency again with the same version and content hash, so a provider failing in between blocks |
| ProtocolSafety.DefaultConfigRechecks | src/engine/resolved-policy.ts:146-152 | from a configuration in which no policy turns the re-check off, every execution without a condition found again what it was validated on |
| ProtocolApproval.ApprovedCallsAreBound | src/application/execute-action.ts:535-611 | in every schedule a call past the binding of its approval found the escalation approved, and names what a held call of its id had named, under arguments alike to the first submitted |
| ProtocolApproval.NothingSensitiveStored | src/application/validate-action.ts:90 | in every schedule the stored intents show nothing under a sensitive key, however deep |
| Approval.BindsExactly | src/application/execute-action.ts:574-588 | the binding passes exactly when tool, operation and target match the escalated submission, the dependency references match as a multiset, and the arguments are alike to the first recorded ones |
| Approval.BindsUnrecordedExactly | src/application/execute-action.ts:574-588 | where no intent is recorded, the arguments bound to are those of an empty object |
| Approval.StoredIntent | src/application/validate-action.ts:90 | what is stored of an intent is the intent with nothing under a sensitive key of its arguments |
| Approval.FirstIntentPassesExactly | src/application/execute-action.ts:568-588 | resubmitting the first intent passes exactly when it names what was escalated |
| Approval.FirstIntentCanBeRefused | src/storage/memory/memory-store.ts:51-59 | a first intent that is refused when resubmitted unchanged |
| ProtocolEscalations.FirstIntentIsRefused | src/application/execute-action.ts:541-603 | a schedule in which a first submission is denied, a second one held and approved, and the first intent resubmitted under the approval reads both records and is refused |
| Approval.EscalatedIntentPassesExactly | src/application/execute-action.ts:568-588 | resubmitting the escalated intent passes exactly when its arguments are alike to the first ones; the escalated action under the first arguments always passes |
| Redaction.RedactDeep | src/redaction/redact.ts:27-48 | the recursion, object by object and key by key, computes the redaction function |
| Redaction.RedactionIsIdempotent | src/redaction/redact.ts:27-48 | redacting twice is redacting once, at every depth |
| Redaction.RedactionCovers | src/redaction/redact.ts:27-48 | every member under a sensitive key of a redacted value is the mark |
| Redaction.RedactionKeeps | src/redaction/redact.ts:27-48 | a value of at most twenty-five nested containers without dates and sensitive keys is left as it is |
| Redaction.RedactionCaps | src/redaction/redact.ts:20-33 | a container inside twenty-five others is replaced by the mark, whatever it holds |
| Redaction.RedactionHidesExactly | src/redaction/redact.ts:27-48 | two values redact to the same JSON value exactly when they differ at most under sensitive keys, below the cap, in dates, and in what JSON does not show |
| Redaction.RedactedFormsAgree | src/application/execute-action.ts:575-577 | redacted canonical forms are equal exactly for such values |
| Redaction.DatesLookAlike | src/redaction/redact.ts:36-46 | any two dates have the same redacted canonical form, though different ones are told apart unredacted; two instants that differ are named |
| Json.ParseOfCanonical | src/engine/hashing.ts:9-45 | a parser after RFC 8259 reads back from canonical JSON exactly the value it denotes, whatever follows |
| Json.CanonicalJsonInjective | src/engine/hashing.ts:9-45 | two values have the same canonical form exactly when they denote the same JSON value with unordered members |
| Json.StructuralEquality | src/engine/preconditions.ts:40-42 | on plain values structural equality is equality |
| Json.AliasedValues | src/engine/hashing.ts:14-36 | values outside the plain ones that share a canonical form: undefined and null, absent and undefined members, non-finite numbers and their tag, dates and their text |
| Json.ObjectPrints | src/engine/hashing.ts:37-42 | an object prints its members that are not undefined, each name, colon and value, by increasing name with commas between |
| Json.ArrayPrints | src/engine/hashing.ts:31-33 | an array prints its items in order with commas between |
| Json.PlainTextPrints | src/engine/hashing.ts:25-27 | text without quotation marks, backslashes, control units and surrogates prints as itself between quotation marks |
| Json.HexEscapePrints | src/engine/hashing.ts:25-27 | a control unit without a letter of its own and a lone surrogate print as four lower-case hexadecimal digits |
| Text.LeExactly | src/engine/hashing.ts:39 | the order keys are sorted by: a prefix first, else the smaller unit at the first difference |
| Hashing.ContentHashSeparates | src/engine/hashing.ts:47-53 | equal content hashes mean equal contents or a collision in hand |
| Hashing.FingerprintSeparates | src/application/validate-action.ts:243-251 | equal state fingerprints mean the same entries in the same order or a collision in hand |
| Hashing.FingerprintTells | src/application/validate-action.ts:243-251 | the fingerprint hashes the list of entries, each with its reference, version and content hash |
| Audit.Verify | src/audit/audit-engine.ts:45-69 | the chain walk accepts exactly the ledgers in which every link holds and stops at the first that does not |
| Audit.ProducedVerifies | src/audit/audit-engine.ts:36-43 | every ledger produced by appends verifies and is numbered from one |
| Audit.NextRecordTells | src/audit/audit-engine.ts:80-95 | an appended record is numbered next, refers to the last record or to sixty-four zeros, and hashes that, a bar and the five members of its body |
| Audit.VerifiedPrefix | src/audit/audit-engine.ts:45-69 | a prefix of links that hold is itself a verified ledger |
| Audit.LastHashCommits | src/audit/audit-engine.ts:80-95 | two verified ledgers with the same last hash record the same events in the same order, with equal ids, types, times, schema versions and payloads, or texts hashed along them break the hash |
| Audit.BodyFields | src/audit/audit-engine.ts:80-95 | equal serialized bodies mean equal event id, type, time and schema version and a payload that says the same |
| Audit.TamperingDetected | src/audit/audit-engine.ts:45-95 | altering a body, or dropping, adding or reordering records, under the same last hash does not verify, unless the hash is broken |
| Audit.VerificationIgnoresNumbers | src/audit/audit-engine.ts:45-69 | record numbers are not hashed: a ledger verifies exactly when it does under any other numbers |
| Provider.AdvanceHolds | src/providers/memory/in-memory-provider.ts:93-110 | mutation and compare-and-swap keep the version invariant and assign a version never assigned before |
| Provider.SwapsExactly | src/providers/memory/in-memory-provider.ts:82-111 | the compare-and-swap executes exactly at the expected version and then gives the changed members their values, leaves every other member and resource as it was and logs these changes; else it changes nothing and tells the version it saw |
| Provider.MutatesExactly | src/providers/memory/in-memory-provider.ts:149-168 | an outside mutation does the same to every known resource and is refused for an unknown one |
| Provider.PutsExactly | src/providers/memory/in-memory-provider.ts:128-146 | registering sets the contents of one resource, takes a pinned version, else keeps an existing one or assigns the next, and touches nothing else |
| Provider.FetchTells | src/providers/memory/in-memory-provider.ts:178-201 | a full fetch tells the resource as it is, stamped with the provider's time where it has one, and is lost exactly for an unknown resource |
| Provider.AffirmationTells | src/providers/memory/in-memory-provider.ts:203-232 | a conditional fetch affirms exactly the declared version of a resource that supports it |
| Provider.ContentsAreReplayed | src/providers/memory/in-memory-provider.ts:149-168 | under the version invariant a resource's contents are those of its oldest known version under the logged changes in order |
| Provider.PutNewHolds | src/providers/memory/in-memory-provider.ts:128-146 | so does registering a new resource without pinning a version |
| Provider.LeftBehindForGood | src/providers/memory/in-memory-provider.ts:149-168 | no two log entries of a resource start from the same version, and none from the current one |
| Provider.PutOnExistingExactly | src/providers/memory/in-memory-provider.ts:113-146 | replacing an existing resource without pinning its version keeps the invariant exactly when it keeps the contents |
| Provider.PutOnExistingHidesChange | src/providers/memory/in-memory-provider.ts:116-120 | such a replacement goes unnoticed by a compare-and-swap held at the old version |
| Provider.InMemoryProvider.RunConditional | src/providers/memory/in-memory-provider.ts:82-111 | the in-place compare-and-swap is the specified one on the whole state; executed, it leaves the resource under the changes, its log one entry longer and all else as it was |
| Provider.InMemoryProvider.RunMutate | src/providers/memory/in-memory-provider.ts:149-168 | the in-place mutation is the specified one, refused for an unknown resource, and else leaves the resource under the changes and all else as it was |
| Provider.InMemoryProvider.RunPut | src/providers/memory/in-memory-provider.ts:128-146 | the in-place registration is the specified one |
| Store.MemoryStore.ClaimAuthorization | src/storage/memory/memory-store.ts:142-151 | the claim is refused exactly while a live authorization exists, and then changes nothing |
| Store.MemoryStore.ConsumeAuthorization | src/storage/memory/memory-store.ts:159-165 | consuming marks the stored authorization and nothing else |
| Store.MemoryStore.SaveDecision | src/storage/memory/memory-store.ts:67-76 | a repeated id is refused; otherwise the record is saved last and both indexes keep agreeing with what was saved |
| Store.MemoryStore.GetLatestDecision | src/storage/memory/memory-store.ts:84-91 | the last decision saved for the action |
| Store.MemoryStore.ListDecisions | src/storage/memory/memory-store.ts:93-99 | exactly the action's decisions, in save order |
| Store.IndexGrows | src/storage/memory/memory-store.ts:67-76 | saving a decision keeps both indexes agreeing with the save order, without duplicates |
| Store.MemoryStore.AppendAudit | src/storage/memory/memory-store.ts:201-229 | appending continues a produced ledger as one |
| Store.PagingIsComplete | src/storage/memory/memory-store.ts:237-244 | paging by the oldest number seen yields every record exactly once, newest first, exactly when the limit is not negative or there is nothing to page |
| Sdk.Firewall.ResolveEscalation | src/sdk/firewall.ts:227-249 | taken without interruption, only a pending escalation is resolved, each refusal says why, and nothing else is written |
| Sdk.ResolutionIsFinal | src/sdk/firewall.ts:232-238 | an operator who reads the escalation after its resolution is refused, and other escalations stand |
| ProtocolEscalations.ResolutionIsFinalExactly | src/sdk/firewall.ts:232-241 | in every schedule a resolution stands, short of another hold, if and only if no other operator had read the escalation pending and not yet written |
| ProtocolEscalations.SoleResolutionStands | src/sdk/firewall.ts:232-241 | in every schedule, a pending escalation nobody else has read is resolved as the operator says, and that stands short of another hold |
| ProtocolEscalations.ResolutionCanBeOverwritten | src/sdk/firewall.ts:232-241 | a schedule after which an escalation is approved while another operator who read it pending has yet to write, so that the approval does not stand |
| DecisionEngine.AllowedExactly | src/engine/decision-engine.ts:118-186 | under outcomes that never allow uncertainty, a decision is ALLOW exactly when the evidence is sound for the mode and what the policy, else the defaults, set for its worst class, else the built-in outcome for the risk, is to allow |
| DecisionEngine.InvalidDecided | src/engine/decision-engine.ts:150-172 | proven change, or a failed precondition on evidence of at most age, gets what policy, else defaults, set for invalid state, else DENY; an ALLOW there becomes REVALIDATE |
| DecisionEngine.UnknownDecided | src/engine/decision-engine.ts:128-172 | missing evidence gets what is set for unknown state, else REVALIDATE; never allowed to a critical action or in STRICT mode, and revalidated only once |
| DecisionEngine.StaleDecided | src/engine/decision-engine.ts:118-172 | stale evidence gets what is set for it, else REVALIDATE |
| DecisionEngine.AgingDecided | src/engine/decision-engine.ts:70-83 | aging evidence gets what is set for it, else REVALIDATE for high and critical risk and ALLOW for less or none stated; in STRICT mode an ALLOW becomes REVALIDATE |
| DecisionEngine.FreshDecided | src/engine/decision-engine.ts:50-68 | fresh evidence without failures gets what is set for it, else ALLOW |
| DecisionEngine.HardFloor | src/engine/decision-engine.ts:86-99 | under any configuration proven change is never allowed, nor a failed precondition on fresh or aging evidence, nor unknown state for a critical action or in STRICT mode |
| DecisionEngine.BrokenAllowedExactly | src/engine/decision-engine.ts:150-186 | proven change or a failed precondition is allowed if and only if the evidence is stale or unknown, the outcome configured for that is to allow, and the floor and STRICT mode let it stand |
| DecisionEngine.BrokenEscalatesExactly | src/engine/decision-engine.ts:150-186 | it escalates if and only if that is the outcome configured for its basis |
| DecisionEngine.FailedPreconditionEscalated | src/engine/decision-engine.ts:153-163 | fresh evidence with a failed precondition that escalates, for a critical action in STRICT mode, where the outcome for invalid state is to escalate |
| DecisionEngine.FailedPreconditionAllowed | src/engine/decision-engine.ts:153-163 | a stale verdict with a failed precondition that is allowed to a critical action in STRICT mode |
| DecisionEngine.UnguardedAllows | src/engine/decision-engine.ts:50-60 | without the guard on outcomes some unsound evidence is allowed |
| DecisionEngine.BasisIsWorst | src/engine/decision-engine.ts:118-186 | the basis of a decision is the worst class among the verdicts, and one of them |
| DecisionEngine.RevalidationSettles | src/engine/decision-engine.ts:118-186 | a revalidated decision on unknown state never asks to revalidate again |
| Dependencies.EvaluateDependencies | src/engine/dependency-evaluator.ts:56-149 | the evaluation loop, asking the providers in order for each dependency, computes the specified verdicts and snapshots |
| Dependencies.FindProvider | src/engine/dependency-evaluator.ts:78-84 | the search stops at the first provider that supports the reference |
| Dependencies.AllowIsSound | src/engine/dependency-evaluator.ts:56-149 | an initial ALLOW establishes good evidence for every dependency |
| Dependencies.InitialAllowHolds | src/engine/dependency-evaluator.ts:34-45 | after an initial ALLOW every precondition routed to a reference holds on the snapshot that stands for it |
| Dependencies.RevalidatedAllowHolds | src/application/revalidate-action.ts:30-75 | so it does after an ALLOW reached by revalidation |
| Dependencies.UnroutedIsIgnored | src/engine/dependency-evaluator.ts:34-45 | a precondition whose pattern fits no dependency changes no verdict |
| Dependencies.RoutedExactly | src/engine/dependency-evaluator.ts:34-45 | what is routed to a dependency is what the policy or the intent demands of it: without a pattern of the first dependency, else of those whose printed reference the pattern matches |
| Dependencies.FetchesExactly | src/engine/dependency-evaluator.ts:157-174 | a dependency is fetched exactly from a provider of its source that has it, as it is there, and affirmed instead exactly where no metadata is wanted and the declared version is current |
| Dependencies.VerdictTells | src/engine/dependency-evaluator.ts:118-145 | a verdict tells the class its rule's strategy says, both versions and hashes and whether each demanded precondition holds on what was fetched; without a fetch it is unknown and judged on nothing |
| Dependencies.RevalidationTells | src/application/revalidate-action.ts:36-73 | revalidation judges what was fetched as if declared when fetched, under the demanded preconditions, and leaves the verdict on what was not |
| Dependencies.ConditionalRefinesFull | src/engine/dependency-evaluator.ts:157-174 | the conditional fetch gives the same fingerprint entry, and the same class exactly unless the full fetch reports drift by the provider's clock |
| Dependencies.ConditionalAgreesWithoutServerTime | src/engine/dependency-evaluator.ts:157-174 | without a server timestamp both give the same class under every strategy |
| Dependencies.ConditionalCanDisagree | src/engine/dependency-evaluator.ts:157-174 | a resource stamped by the provider after the claimed observation, FRESH by the conditional fetch and INVALID by the full one |
| FreshnessEngine.SeverityGrowsWithTime | src/engine/freshness.ts:52-160 | once an observation is not from the future its class never improves with time, under all five strategies |
| FreshnessEngine.ClassMeansExactly | src/engine/freshness.ts:138-327 | the class of an undrifted dependency is the one its strategy says and no other: age against limit and threshold, versions or hashes present, preconditions passed, or the worst that an enabled component says |
| FreshnessEngine.DriftComesFirst | src/engine/freshness.ts:75-136 | whatever the strategy, an observation ahead of the clock is unknown, and otherwise a proven difference or a later provider time is invalid |
| FreshnessEngine.TtlWindow | src/engine/freshness.ts:162-190 | under a time-to-live without drift the class is FRESH or AGING exactly inside the window widened by the skew on both sides |
| FreshnessEngine.TtlOutsideWindow | src/engine/staleness.ts:54-88 | outside the window the class says on which side |
| FreshnessEngine.FutureObservationImproves | src/engine/staleness.ts:54-78 | before that moment time can improve a verdict |
| FreshnessEngine.EvaluateHybrid | src/engine/freshness.ts:279-327 | the hybrid loop returns the worst of its components and never folds an empty list |
| FreshnessEngine.FoldWorst | src/engine/freshness.ts:313-318 | the fold over the component results returns the worst class of a non-empty list |
| Policies.ResolvePolicy | src/engine/policy-resolver.ts:83-135 | the best-so-far loop computes the specified policy and risk |
| Policies.MatchingFindsWinner | src/engine/policy-resolver.ts:83-135 | the loop finds the earliest declared among the most specific matching policies, and none only when none matches |
| Policies.MatchesExactly | src/engine/policy-resolver.ts:37-45 | a policy matches an intent that meets all its demands, the risk demanded being a floor |
| Policies.SpecificityExactly | src/engine/policy-resolver.ts:47-55 | each demand makes a policy more specific by one, that on the operation by two |
| Policies.DeriveRiskExactly | src/engine/policy-resolver.ts:58-74 | the base risk is the stated one, else that of the first rule fitting the operation, else the fallback, else medium |
| Policies.ResolutionExactly | src/engine/policy-resolver.ts:83-166 | the policy is the first of the name given, else the winner, else one made of the defaults, with the base risk raised by its declared one |
| Policies.FreshnessForExactly | src/engine/policy-resolver.ts:168-180 | the first rule fitting a dependency sets its freshness, else the policy does |
| Policies.LosersDoNotMatter | src/engine/policy-resolver.ts:37-55 | removing a losing policy leaves the winner the winner |
| Policies.RiskNeverLowered | src/engine/policy-resolver.ts:58-81 | the final risk is never below the intent's nor the chosen policy's |
| Config.ValidateConfig | src/config/validation.ts:581-652 | the checks pushed one by one make up the specified report |
| Config.ReportTellsExactly | src/config/validation.ts:178-652 | the report names a violation exactly where the file has it: a duration or threshold that is none, a limit and a strategy that do not go together, an outcome that allows what must not be, a required condition that is waived |
| Config.CleanReportExactly | src/config/validation.ts:178-652 | the report is empty exactly if nothing is wrong with any section |
| Config.LoadedSaysExactly | src/config/loader.ts:100-153 | what is loaded is, policy by policy in order, what the file says, with the documented defaults for what it leaves unsaid |
| Config.CleanConfigIsGuarded | src/config/validation.ts:289-308 | with a clean report and no acknowledgement no policy an intent can be given allows unknown or stale state |
| Config.CleanConfigLoadsExactly | src/config/loader.ts:100-153 | a configuration with a clean report resolves exactly when it has no zero time-to-live and no deadline beyond the timer |
| Config.CleanConfigMayNotLoad | src/engine/resolved-policy.ts:75-129 | a configuration with a clean report that the loader refuses |
| Preconditions.ResolvePath | src/engine/preconditions.ts:24-38 | the walk along a dotted path finds what the recursive reading finds, own properties only |
| Preconditions.PassedMeansHold | src/engine/preconditions.ts:155-165 | all results passed exactly when every precondition holds |
| Preconditions.PresentFieldHolds | src/engine/preconditions.ts:76-145 | what each of the eleven operators demands of the value its path leads to |
| Preconditions.AbsentFieldHolds | src/engine/preconditions.ts:54-74 | on a path that leads nowhere only the demand for absence holds |
| Preconditions.ResolveExactly | src/engine/preconditions.ts:24-38 | a path finds a value exactly when taking one own member after another leads to it, array items and lengths included |
| Preconditions.SplitOfDotted | src/engine/preconditions.ts:25 | a path splits into exactly the segments that dots join to it |
| Glob.GlobToRegex | src/engine/glob.ts:14-26 | the policy layer's compiler emits the specified pattern |
| Glob.SyntaxExactly | src/engine/glob.ts:14-26 | exactly the fourteen syntax characters are escaped |
| Glob.CompilersAgree | src/engine/dependency-evaluator.ts:47-54 | the evaluator's compiler emits the same pattern for every glob |
| Glob.CompilationPreservesMeaning | src/engine/glob.ts:9-26 | the emitted pattern parses, and accepts a value exactly when the glob matches it |
| Durations.DurationRoundTrip | src/engine/duration.ts:14-48 | parsing a printed duration gives it back for every safe non-negative integer |
| Durations.WrittenExactly | src/engine/duration.ts:24-39 | a text is a duration exactly when it is digits and one of five units between blanks, and then the number times the unit |
| Durations.FormatsExactly | src/engine/duration.ts:42-48 | a duration prints in the largest unit that is not longer and divides it |
| Text.SortComparesMultisets | src/application/execute-action.ts:579-586 | two lists are equal when sorted exactly when they are equal as multisets |
| Text.SortOfListing | src/engine/hashing.ts:39-40 | sorting any listing of an object's keys gives the sorted keys the serializer uses |

## Left out

- The HTTP and GitHub providers, timeouts, headers and environment tokens: network input and output behind the provider contract, which the in-memory provider stands for.
- More than one provider inside the protocol: its calls are served by one in-memory provider.
- The SQLite store: decided by SQL and `node:sqlite`; the in-memory store is the store.
- The command line, output rendering, logger, event bus, metrics, recovery guidance and reason texts: no effect on control flow.
- The regular-expression engine behind `matches`, the order of numbers, `isSensitiveKey`, SHA-256 and random identifiers: parameters of the model or fresh numbers.
- The snapshot and execution tables of the store and its `init`/`close` flag: nothing in the protocol reads them back.
- Appending to the audit ledger inside the protocol: the ledger is modelled on its own; no step of the protocol reads it.
- The redaction of audit payloads before they are appended: bodies are taken as already redacted.
- The dry run `check`: validation without the steps after it, under an id of its own.
- Dishonest executors: the code trusts the executor's report; an executor without conditional execution may change the provider only as an outside actor would.
- OBSERVE mode beyond the rewriting of decisions to ALLOW: the re-check still blocks there, and no statement claims otherwise.
- `put` on an existing resource inside the protocol: the provider lemmas say exactly when it keeps the version invariant the effect theorems rest on.
- `setMutationClock` inside the protocol: it sets the timestamp of later log entries only.
- Schema checks of the configuration file (unknown keys, types, storage, providers, policy tests) and YAML reading: easy members that ALLOW soundness does not need.
- `normalizeIntent`: intents are taken as already normalized; what it refuses never reaches the protocol.
- Timestamps that do not parse are absent ones; the insertion order of object members and the key `__proto__` are not modelled; functions, symbols and big integers as values are not modelled.
- Durations.DurationRoundTrip: numbers are exact integers; texts of more digits than a safe integer has are not rounded as the runtime would.
- FreshnessEngine.SeverityGrowsWithTime: the aging threshold is compared with real arithmetic where the code multiplies doubles.
- Sdk.Firewall.ResolveEscalation: taken in one piece; the protocol cuts it between its read and its write.
- Config.ValidateConfig: duplicate policy names, identical matchers and the shape checks among its lines are not in the report.
