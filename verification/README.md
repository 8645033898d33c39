# Worker/Reviewer orchestration: a verified model

The repository drives agents through a Worker -> Reviewer workflow, keeps an append-only ledger of
the decisions they declare, asks a human the questions those decisions leave open, and scores final
reviews. This project models the five components that carry its guarantees and proves them.

- **The workflow** (`PhaseRun`, `Phases`, `Workflow`, and the object that runs it, `Harness`): one
  phase's bounded Worker/Reviewer loop, the phase gates, the Final Review attempts, the corrections
  and downstream revalidations each failed attempt demands, three risk levels, two iteration
  budgets, the guard that reads the ledger before every round, and the ledger itself. What agents
  answer is a scenario: every theorem quantifies over all scenarios.
  `PhaseRunOutcomes`, `PhaseRunRecords`, `WorkflowScripts`, `WorkflowEnds` and `WorkflowCharges` say what
  every run yields in terms of the answers and of its dispatches alone; `PhaseRunFacts`, `PhaseRunCompletion`,
  `PhaseRunTraces`, `PhaseRunRisk`, `RunTerminals`, `WorkflowFacts`, `WorkflowOrder`, `WorkflowRecords`,
  `WorkflowCorrections`, `WorkflowRisk` and `WorkflowTerminals` what every run keeps; `Stamping` and
  `RunLedger` connect the runs to the gate and to the decision contract, `RunWitnesses` holds runs at
  which an expectation fails.
- **The decision gate** (`Gate`, `GateLedger`, `Admission`): reading a declaration, recomputing what is
  open, admission, the one verification exception, and naming a terminal.
- **The decision contract** (`Policy`, `PolicyAgreement`, `ShippedContract`, `ShippedStates`, `ShippedReasons`,
  `ShippedResolutions`, `Classifier`, `ClassifierFacts`): which states a set of facts permits, which records are valid, and which defects
  may be asked again.
- **Clarification** (`Lineage`, `Clarification`, `ClarificationRuns`, `ClarificationAnswers`,
  `ApprovalPorts`, `DependencyGraph`, `Publication`, `Promotion`, `LedgerKeys`, `SourceKeys`): deriving an
  item's effective decision from its history, ingesting answers, publishing dependent questions in
  order, and ledger keys as strings.
- **Scoring** (`Matching`, `MatchingFacts`, `Scoring`): the greedy match between findings and the answer
  key, and the rates computed from it.

`Vocabulary` holds the JSON values and field names they share, `Sequences` facts about sequences
without repetitions. Code that works by updating state is a class or a method with loops, proved
equal to a specification function; the theorems are about those functions. The decision contract is
an arbitrary value (`Policy.Contract`); the gate and the runs see it through `Gate.Judge`, so their
theorems hold for every judge, and `Gate.JudgeOf` is the real one.

Some things a caller might expect do not hold of the code. Each is stated as a lemma, together with
the exact condition under which it does hold:

- Replaying a decision that is no longer the head, or cancelling a cancelled item again under a new
  submission, makes the item unreadable for good
  (`ClarificationRuns.OldReplayBreaksTheItem`, `SecondCancelBreaksTheItem`, `ReadableIffNeverBroken`).
- A record accepted without a `reason_code` key is published and then refused by every later guard
  (`RunWitnesses.MissingCodeStopsTheRun`, `RunLedger.GuardIffAllCarry`,
  `WorkflowFacts.GuardsRefuseMissingCodesOnly`).
- A run that ended BLOCKED can leave a ledger the gate admits as having nothing open: exactly when no
  agent's blocking record set `open_decision_item` (`RunWitnesses.UndeclaredBlockIsAdmitted`,
  `WorkflowTerminals.WorkflowNamesItsTerminal`).
- Once two Reviewer records are bound to one producer, their keys can sort differently as numbers and
  as strings, and the item that names them is then rejected (`SourceKeys.NineAndTenDisagree`,
  `DerivedPassIff`).
- Three of the eleven reason codes the shipped contract gives for asking can never be declared by an
  agent: `missing_user_intent`, `unclassifiable_decision` and `authority_reserved_to_user` rest on facts
  outside the closed set of fields the gate reads (`ShippedReasons.DeclarableReasons`).
- The form sweep looks for every `citations` element under `citations`, the evaluator under the
  element's own name (`Classifier.CleanSweepCanBeInvalid`, `CleanSweepIsValidIff`). And the live
  ingress, described as making the classifier's own judgement, makes a milder one of a record that is
  both malformed and another dispatch's (`Classifier.ForeignAndMalformed`, `IngressAgreesExceptOnBoth`).

## Model

| member | source | states |
|---|---|---|
| WorkflowOrder.GatesEndInCanonicalOrder | scripts/e2e_harness.py:2093-2454 | At HIGH, with the requested canonical phases in canonical order, every Final Review opens on gates whose last runs are in canonical order, whatever was corrected in whatever attempts, and a run that completes ends so |
| WorkflowOrder.RepairRestoresOrder | scripts/e2e_harness.py:2403-2454 | Running the corrected phases and then everything downstream of the earliest one turns any ordered history of gate runs into an ordered one |
| WorkflowOrder.EveryAttemptIsRepaired | scripts/e2e_harness.py:2403-2430 | When a run completes, the revalidations of each attempt are exactly the downstream set of the phases that attempt corrected, at HIGH; none below |
| Phases.DownstreamIs | scripts/e2e_harness.py:506-525 | The downstream set holds exactly the requested phases that come after some corrected one, once each, in the canonical order, which is written out |
| Phases.LoweringIsNearest | scripts/e2e_harness.py:483-503 | A phase is lowered to the nearest requested phase before it, never lifted; there is no owner exactly when neither it nor any phase before it is requested |
| WorkflowRecords.RouteIsExact | scripts/e2e_harness.py:2291-2310 | A failed review is routed exactly when every blocking finding has an owner, and then each blocking finding goes to its owner and nothing else is routed |
| WorkflowOrder.ResponsibleIs | scripts/e2e_harness.py:2311-2311 | The phases to correct are exactly the requested owners, each once, in the order they were requested |
| WorkflowFacts.DecisionSafety | scripts/e2e_harness.py:2221-2269 | Once any filed record blocks, the run ends BLOCKED or ERROR and at most one dispatch follows: the very next one, the Reviewer of that same round, and only when the record is a Worker's and the level is above LOW; a run that completes holds no blocking record and passed its last Final Review |
| WorkflowFacts.BudgetsHold | scripts/e2e_harness.py:2038-2055 | In every run no phase is charged beyond the maximum nor for anything but its own rounds, decision blocks charge nothing, every correction and revalidation got exactly the budget left and at least one iteration, and attempts stay within the maximum; what a round charges is fixed by `WorkflowCharges.ChargesAreTheLog` |
| WorkflowCharges.ChargesAreTheLog | scripts/e2e_harness.py:2038-2055 | In every run each phase is charged exactly for the agents the dispatch log shows were sent to it, its Reviewers above LOW and its Workers at LOW, in all its rounds that ran to their end; a last round that did not complete is charged for those that answered, one that a decision blocked for nothing |
| WorkflowCharges.NoPhaseBeyondTheMaximum | scripts/e2e_harness.py:2038-2055 | In a completed run no phase was sent more Reviewers, or at LOW more Workers, than the maximum, whatever was corrected and revalidated |
| WorkflowEnds.EveryEndIsExplained | scripts/e2e_harness.py:2061-2454 | Every run ends with the status, reason and block that what happened last calls for: what the Final Reviewer answered, how the last round ended, what the guard read in the ledger, which answer the scenario lacks or which budget is spent |
| WorkflowScripts.EveryRoundRanItsOwn | scripts/e2e_harness.py:2093-2454 | Every round of every run was run on the answers due to it: a phase's gate its own with the whole budget, a correction and a revalidation those for their phase after their attempt |
| WorkflowScripts.CompletedRoundsWereEarned | scripts/e2e_harness.py:2093-2454 | Above LOW every completed round of a run, be it a gate, a correction or a revalidation, had its own Workers work, its own last review pass and its earlier ones fail, within its budget |
| WorkflowEnds.ReviewIsPublished | scripts/e2e_harness.py:2186-2269 | A Final Review's declaration is published, field by field, exactly when it can be read and verifies nothing, before its verdict or its state is looked at |
| WorkflowFacts.GuardsRefuseMissingCodesOnly | scripts/e2e_harness.py:2061-2090 | At all four sites of every run over a fresh ledger, a guard refuses exactly when some agent's record lacks its reason code; with every code written no guard refuses |
| WorkflowFacts.WorkflowKeeps | scripts/e2e_harness.py:1942-2454 | However a run ends: blocking records stop it, budgets are respected, attempts stay within the maximum, and under a steady judge every guard it consulted refused exactly the ledgers with a missing reason code |
| RunLedger.GuardIffAllCarry | scripts/decision_gate.py:932-1082 | On the ledger of a run none of whose records blocks, admission succeeds exactly when every agent record carries a reason code, and otherwise refuses it as malformed |
| RunLedger.EntryIsGood | scripts/e2e_harness.py:2021-2028 | The run-entry record is valid under every contract that lets a record with nothing open be CLEAR and asks of it no evidence the entry lacks |
| RunLedger.ContractsMeetTheRuns | scripts/e2e_harness.py:996-1052 | Such a contract, reading no field the harness writes, meets every assumption the run theorems make of a judge |
| ShippedContract.ShippedMeetsTheRuns | orca-worker-reviewer-loop/SKILL.md:230-308 | The contract as shipped is one of them |
| ShippedContract.ShippedAgrees | orca-worker-reviewer-loop/SKILL.md:230-308 | The contract as shipped meets every assumption of the agreement theorems |
| Stamping.ContractsAreSteady | scripts/e2e_harness.py:996-1052 | Under every contract that reads no stamped field, an accepted record stays valid once stamped exactly when it carries a reason code, and justifies the same transitions |
| PhaseRunFacts.StampingKeeps | scripts/e2e_harness.py:1018-1052 | Stamping sets the thirteen harness-owned fields, keeps every other field the agent wrote and adds only the four defaults |
| PhaseRunRecords.LedgerIsWhatWasDeclared | scripts/e2e_harness.py:996-1068 | Every record a phase run adds is the accepted declaration of the agent whose turn it was, in the order of the turns: its own fields, the thirteen the harness writes with their values, and the four it fills in when left out |
| WorkflowRecords.RowsNumberEveryCharge | scripts/e2e_harness.py:2343-2347 | In every run the correction and revalidation rows number, once each, exactly the iterations charged beyond a phase's initial gate, which `WorkflowCharges.ChargesAreTheLog` reads off the dispatches |
| WorkflowRecords.EveryCorrectionWasAnswered | scripts/e2e_harness.py:1874-1905 | Every row of the correction table is an answer the first Worker of that very correction gave; the placeholder for an unaccounted finding is never used |
| WorkflowCorrections.EveryFindingWasCorrected | scripts/e2e_harness.py:2311-2360 | Every completed correction left a row for each finding its attempt routed to its phase, unless the run ended on that correction because its Worker answered other findings; no blocking finding of an attempt followed by another is missing from the table |
| WorkflowRecords.RunInduction | scripts/e2e_harness.py:1942-2454 | Whatever holds when a run opens and is kept by each of its steps holds however it ends |
| WorkflowRisk.HighCompletesAtMedium | scripts/e2e_harness.py:2403-2430 | A scenario that completes at HIGH completes at MEDIUM after the same phase gates and corrections with the same results, the same attempts, verdict and correction table; HIGH costs exactly its revalidations more |
| WorkflowRisk.HighCostsItsRevalidations | scripts/e2e_harness.py:2403-2430 | Dispatches at MEDIUM are at most those at HIGH, and equal exactly when every downstream set was empty |
| WorkflowRisk.LowCostsLessThanMedium | scripts/e2e_harness.py:1376-1389 | A scenario with at least one phase that completes at both levels costs strictly fewer dispatches at LOW |
| PhaseRunRisk.CompletedRunsAgree | scripts/e2e_harness.py:1115-1698 | A completed phase run yields the same result at MEDIUM as at HIGH, over any ledger and under every larger budget |
| PhaseRunTraces.LargerBudgetChangesNothing | scripts/e2e_harness.py:1121-1121 | A run that ends for any reason but its budget ends the same way under every larger budget |
| PhaseRunTraces.FindingsAreConserved | scripts/e2e_harness.py:1362-1374 | At COMPLETED every finding was resolved exactly once after each time it was raised, in the next iteration; at ESCALATED only those the last review raised are unresolved |
| PhaseRunRecords.TracesAreWhatWasSaid | scripts/e2e_harness.py:1362-1374 | When a phase completes or runs out of budget its traces hold exactly what its reviews raised and its Workers answered: every finding from its first review, each later one, and each answer with its text |
| PhaseRunCompletion.PhaseCompletesIff | scripts/e2e_harness.py:1115-1698 | Above LOW a phase completes exactly when, for some n within its budget, the first n Workers worked and declared nothing blocking, the first n - 1 reviews failed with findings the next Worker resolved exactly, and the n-th review passed; it then completes in iteration n |
| PhaseRunCompletion.LowCompletesIff | scripts/e2e_harness.py:1331-1389 | At LOW a phase completes exactly when there is budget for one iteration, its Worker worked and declared nothing blocking, and, for an implementation, a bugfix or a refactoring, it reported its unit tests passing |
| PhaseRunCompletion.LowSafetyFloor | scripts/e2e_harness.py:1341-1362 | At LOW work on an implementation, a bugfix or a refactoring that is otherwise complete is stopped as blocked when its Worker reports its unit tests blocked, and as lacking evidence when it reports nothing |
| PhaseRunOutcomes.PhaseEndsAs | scripts/e2e_harness.py:1115-1698 | A phase run that reaches iteration n and does not go round again ends with the status, reason and block that each possible answer of that iteration calls for, the decision axis before the quality axis, a verification by the table of what it settles |
| PhaseRunOutcomes.PhaseEscalates | scripts/e2e_harness.py:1688-1698 | A phase run all of whose rounds asked for another ends ESCALATED in its last iteration |
| PhaseRunOutcomes.EveryRunEnds | scripts/e2e_harness.py:1115-1698 | Every phase run is one of these two, for some n |
| PhaseRunFacts.RunKeeps | scripts/e2e_harness.py:1115-1698 | Every phase run extends its ledger only by records of this phase and of its own iterations, completes on a head that binds its last iteration, uses one dispatch per attempt and stops at the first blocking record |
| RunTerminals.RunNamesItsTerminal | scripts/decision_gate.py:1085-1206 | For every phase run that ends on a decision, the ledger it leaves is refused as disagreeing and reclassified as the very reason the run reported; when no agent declared its item open, nothing is refused |
| WorkflowTerminals.WorkflowNamesItsTerminal | scripts/decision_gate.py:1085-1206 | The same of every whole run, whichever agent raised the decision: in a gate, a correction, a revalidation or a Final Review |
| RunWitnesses.MissingCodeStopsTheRun | scripts/e2e_harness.py:2061-2090 | Under the shipped contract a Worker that declares CLEAR without a reason code is accepted and its run is then refused as malformed; with the code written as null the run goes on |
| RunWitnesses.UndeclaredBlockIsAdmitted | scripts/decision_gate.py:932-1082 | Under the shipped contract a run blocked by a Worker that needs input leaves a ledger the gate admits exactly when the record did not set its open item |
| GateLedger.BlockIsNamedAtTheTerminal | scripts/decision_gate.py:1085-1160 | A ledger of non-blocking records ended by one open block is refused as disagreeing and named by that block's state and reason code |
| GateLedger.VerificationIsNamedAtTheTerminal | scripts/decision_gate.py:1160-1206 | With the bound verification appended the terminal names the verification's own state and code when it blocks, the Worker's when it validly downgrades it, and a rejected downgrade otherwise |
| GateLedger.ConfirmationEqualsLow | scripts/decision_gate.py:1264-1301 | A confirming verification yields the reason LOW yields |
| GateLedger.VerificationSettles | scripts/decision_gate.py:1264-1301 | What a verification settles, its reason, state and code, for each pair of states |
| Admission.TerminalIsNamedIff | scripts/decision_gate.py:1085-1206 | A refused terminal ledger names a block exactly when it was refused as disagreeing, declares open nothing that is not, and ends in the one open block or in the bound verification of it; which block, and otherwise the refusal stands |
| Admission.OnlyItsReviewerPasses | scripts/decision_gate.py:870-929 | Of a ledger ended by one open Worker block exactly one dispatch is admitted: a Reviewer of that round of this run, verifying that record, if none has; every other is refused as disagreeing |
| Admission.ReadingIs | scripts/decision_gate.py:719-790 | Which bodies are read as which declaration, and which are refused as missing, as disagreeing and as malformed |
| Admission.RecordDefectIs | scripts/decision_gate.py:643-716 | Which ledger records pass, are of an unsupported schema or are malformed, by their fields |
| GateLedger.OpenItemsIsAFold | scripts/decision_gate.py:793-834 | Recomputing the open items of a gapless ledger from scratch equals folding over its appends |
| GateLedger.OnlyAResolutionCloses | scripts/decision_gate.py:793-834 | An open item is closed by exactly the later non-blocking, non-verifying records of its run and phase whose transition the contract permits |
| ShippedResolutions.OnlyAUserDecisionCloses | scripts/decision_gate.py:793-834 | Under the shipped contract an open item is closed by exactly the next record of its run and phase that declares CLEAR with a user decision on record and verifies nothing |
| ShippedResolutions.ShippedMoves | scripts/decision_policy.py:1311-1340 | Which moves of an item from one state to another the shipped contract allows, by what the record shows |
| GateLedger.OpenItemsByKey | scripts/decision_gate.py:793-834 | A key is open exactly when the last record that opened it is closed by no record |
| GateLedger.ComputeOpenItems | scripts/decision_gate.py:793-834 | The dictionary-and-search loops compute the open items |
| GateLedger.VerifiedItemAdmitsNothing | scripts/decision_gate.py:870-929 | While an item is open and some record already verifies it, no dispatch whatever is admitted, in whatever order the ledger lists its records |
| GateLedger.AdmissionIff | scripts/decision_gate.py:932-1082 | Admission certifies exactly, of a ledger listed in any order: sorted, it is valid and gapless, was opened for this run, its head is the round just settled, and either nothing is open or one Worker block of this run that no record verifies and whose own Reviewer, of its phase and iteration and verifying its key, is the dispatch |
| Admission.RefusalsAre | scripts/decision_gate.py:932-1082 | What each refusal certifies and in which order the checks are made: nothing there, not opened by this run, the first faulty record's fault, a gap, another head than the round just settled, a declaration that disagrees, an open block |
| PolicyAgreement.AcceptedStateIsPermitted | scripts/decision_policy.py:1200-1308 | Every accepted CLEAR record with declared grounds, every accepted assumption, and every accepted pause resting on a clause claims a state the evaluator permits, which cannot raise on it |
| PolicyAgreement.ClearIsAcceptedIff | scripts/decision_policy.py:1200-1308 | With no reason code and no evidence asked of CLEAR, as shipped, a CLEAR record is accepted exactly when it names no reason code and the evaluator does not raise on it and permits CLEAR, or the record declares no grounds at all |
| PolicyAgreement.AssumptionIsAcceptedIffPermitted | scripts/decision_policy.py:1240-1300 | Under the shipped entry conditions, whether or not a reason code is required of it, an assumption presented with its evidence is accepted exactly when the evaluator permits it and its own policy source supports it; when that is, `ShippedStates.ShippedPermits` says |
| PolicyAgreement.HighImpactIsNeverAutomatic | scripts/decision_policy.py:844-940 | Without a user decision, a high-impact item with no determining source, or reserved authority whatever source is cited, permits only the blocking states |
| PolicyAgreement.UserDecisionClears | scripts/decision_policy.py:844-940 | With a user decision CLEAR is permitted and CONFLICT is not |
| ShippedStates.ShippedPermits | scripts/decision_policy.py:844-1023 | Under the shipped contract, for all facts: the evaluator raises exactly on a value the contract does not know, and otherwise permits CLEAR, ASSUMPTION_ALLOWED, NEEDS_INPUT and CONFLICT each exactly on the field values written out for it |
| ShippedStates.ClearIff | scripts/decision_policy.py:1200-1308 | Which CLEAR records the shipped contract accepts, by their fields |
| ShippedStates.AssumptionIff | scripts/decision_policy.py:1200-1308 | Which ASSUMPTION_ALLOWED records it accepts: reversible in the run, within scope, without impact or reserved authority, supported by their own source, with their evidence and one of four reason codes |
| ShippedStates.AskingIff | scripts/decision_policy.py:1200-1308 | Which NEEDS_INPUT records it accepts: the reason code, the boundary element it names and the fact it stands for, code by code, and that nothing on record settles it |
| ShippedStates.ContradictionIff | scripts/decision_policy.py:1200-1308 | Which CONFLICT records it accepts: two written citations, why they cannot both hold, the clause of the reason code and no user decision |
| ShippedReasons.DeclarableReasons | scripts/decision_gate.py:581-609 | Of the eleven shipped reasons to ask the validator accepts a pause on each; from an agent the gate, which reads a closed set of fields, accepts exactly the eight that rest on no fact outside it |
| PolicyAgreement.ForbiddenBy | scripts/decision_policy.py:545-565 | What forbids an assumption under any contract, and that nothing else does |
| Classifier.CleanIffParsed | scripts/decision_contract.py:872-970 | The classifier finds no defect exactly when the gate's reader accepts the same body with a non-blocking state, the record is this dispatch's, and the sweeps are clean |
| Classifier.OneKindAtATime | scripts/decision_contract.py:872-970 | Every classification is of a single kind, and a legible record that claims to be another dispatch's is LIFECYCLE whatever else is wrong with it |
| ClassifierFacts.ReadableIs | scripts/decision_contract.py:872-970 | What a readable declaration is classified as: all its foreign claims, else all its malformed values, else the judgement of it or the block it declares |
| ClassifierFacts.UnreadableIs | scripts/decision_contract.py:872-970 | What a declaration that cannot be read is classified as, by its lines and its records |
| ClassifierFacts.ForeignIff | scripts/decision_contract.py:703-834 | Which claims make a record another dispatch's: its writer, its run, its phase, its iteration, each reported at its place |
| ClassifierFacts.MalformedIff | scripts/decision_gate.py:388-489 | Which values are malformed, field by field, each reported at its place |
| Classifier.CleanSweepIsValidIff | scripts/decision_gate.py:388-489 | After a clean form sweep the evaluator's fact check passes exactly when every `citations` element named in the record carries a list |
| Classifier.CleanSweepIsValid | scripts/decision_policy.py:744-811 | So it passes under every contract that names such elements `citations` or outside the closed set |
| Classifier.CleanSweepCanBeInvalid | scripts/decision_gate.py:441-462 | A contract and a record for which the sweep is clean and the evaluator raises |
| Classifier.IngressAgreesExceptOnBoth | scripts/decision_contract.py:837-869 | The ingress passes exactly what is clean in mechanics, binding and identity; it calls FORM what the classifier calls LIFECYCLE exactly when a record is both malformed and foreign |
| Classifier.ForeignAndMalformed | scripts/decision_contract.py:837-869 | Such a record: another run's, without a schema version |
| Classifier.CollectFormDefects | scripts/decision_gate.py:388-489 | The sweep's loops collect exactly the form defects |
| Classifier.MechanicsFormDefects | scripts/decision_contract.py:617-663 | The loop collects exactly the mechanics fields outside their domains |
| Classifier.BindingDomainDefects | scripts/decision_contract.py:666-700 | Exactly the binding fields that are absent or out of range |
| Classifier.IdentityOf | scripts/decision_contract.py:703-781 | Exactly the identity defects: another dispatch's triple, run, phase or iteration, or a triple that is no identity |
| Classifier.BindingIdentityDefects | scripts/decision_contract.py:784-834 | Exactly the well-formed values that name another run, phase or iteration |
| Classifier.ClassifyGate | scripts/decision_contract.py:872-970 | Identity first and alone, then every form defect, then the judgement |
| Lineage.DeriveIff | scripts/clarification_protocol.py:1203-1277 | With sound bindings the derivation succeeds exactly on the legal histories of an item, and returns the status that history ends in |
| Lineage.WalkIsHistory | scripts/clarification_protocol.py:1262-1277 | A walk that succeeds reads a legal history and stands where it ends |
| ClarificationAnswers.FaultIs | scripts/clarification_protocol.py:1236-1277 | Which fault a history that is not legal is reported as: invalid, an orphan or a fork |
| ClarificationAnswers.MisboundIsUnreadable | scripts/clarification_protocol.py:1203-1240 | An item cannot be read while an event of its own is not borne out by its response, and is derived otherwise |
| ClarificationAnswers.IngestAnswers | scripts/clarification_protocol.py:990-1089 | What every call answers and what it leaves of each artifact, by the status its item was read with |
| Clarification.IngestRefines | scripts/clarification_protocol.py:990-1089 | Every call, whatever it is, moves its item exactly as the abstract machine says, leaves every other item as it was, and keeps the artifacts well-formed |
| ClarificationRuns.ReadableIffNeverBroken | scripts/clarification_protocol.py:990-1089 | Over any sequence of published requests and calls an item can be read at the end exactly when no call broke it on the way |
| ClarificationRuns.BreaksIff | scripts/clarification_protocol.py:1062-1085 | Ingesting a call makes a readable item unreadable exactly when the call replays a decision that is neither head nor anchor, or cancels, under a new submission, an item already cancelled |
| ClarificationRuns.CancelledEmptyIsFinal | scripts/clarification_protocol.py:1018-1021 | Cancelling an item before its first decision is final: whatever is published and answered afterwards, no decision on it is ever recorded, every current one is refused and changes nothing, and the item stays cancelled until some cancellation under a new submission makes it unreadable |
| ClarificationRuns.ReplayIsExact | scripts/clarification_protocol.py:1037-1085 | Repeating a call changes nothing, except that an unclear answer to the last allowed revision appends one more note, and nothing else |
| ClarificationRuns.OldReplayBreaksTheItem | scripts/clarification_protocol.py:1070-1074 | Answering twice and replaying the first answer makes the item unreadable; replaying the second does not |
| ClarificationRuns.SecondCancelBreaksTheItem | scripts/clarification_protocol.py:1076-1085 | Cancelling twice under two submissions makes the item unreadable; replaying one does not |
| ApprovalPorts.DeriveByLoops | scripts/clarification_protocol.py:1236-1277 | The dictionaries and loops compute the derivation |
| ApprovalPorts.ApprovalPort.LineageState | scripts/clarification_protocol.py:1203-1277 | Collecting an item's decisions and events and deriving yields its state, or an error when a binding is unsound |
| ApprovalPorts.ApprovalPort.IngestOne | scripts/clarification_protocol.py:990-1089 | Ingesting updates the artifacts as specified, step by step |
| ApprovalPorts.ApprovalPort.AppendEvent | scripts/clarification_protocol.py:1181-1191 | The log grows by exactly one event |
| DependencyGraph.FindAncestors | scripts/clarification_protocol.py:193-199 | The worklist finds exactly the items reachable by dependencies, on cyclic graphs too |
| DependencyGraph.CycleSearch.Search | scripts/clarification_protocol.py:840-847 | The depth-first search with its visiting and visited sets meets a cycle exactly when the closed graph has one |
| Promotion.BatchesPartitionReady | scripts/clarification_protocol.py:205-222 | The batches partition exactly the ready unpublished items into antichains of one to three |
| Promotion.PublicationBatches | scripts/clarification_protocol.py:170-222 | Closures by worklist and repeated first-fit passes compute those batches |
| Publication.PublishesIff | scripts/clarification_protocol.py:761-853 | The checks, made in their order on the sorted bundle, accept exactly one to three distinct, mutually independent questions, known in no other form, whose predecessors are all answered and whose dependencies with the known ones form an acyclic graph of known items, in whatever order they are given |
| Publication.RefusalsSay | scripts/clarification_protocol.py:761-853 | What each refusal says of the bundle, and in which order the checks are made |
| Publication.CyclesNeverForm | scripts/clarification_protocol.py:833-847 | On what publishing has left, the two cycle checks never fire: the bundle and its predecessors decide alone |
| Publication.QuestionsWaitForPredecessors | scripts/clarification_protocol.py:761-853 | Over any history of bundles offered and decisions made or withdrawn, the known dependencies stay closed and acyclic, and every known item was published once, in the form it still has, when all its predecessors were published and effective |
| Publication.FindBundleDefect | scripts/clarification_protocol.py:769-773 | The loop reports the first item's independence or dependency defect |
| Publication.MergeKnown | scripts/clarification_protocol.py:823-832 | The loop merges the bundle, or finds an item known in another form |
| Publication.CheckEdges | scripts/clarification_protocol.py:834-839 | The loops find an unknown dependency or an item that depends on itself, if there is one |
| Publication.MissesPredecessor | scripts/clarification_protocol.py:848-853 | The loops find a predecessor outside the bundle that is not effective, if there is one |
| Promotion.BatchPasses | scripts/clarification_protocol.py:761-801 | For an acyclic source set every batch of ready items passes every bundle and graph check |
| Promotion.PromotePublishesReady | scripts/clarification_protocol.py:718-741 | Promotion publishes exactly the items all of whose predecessors are effective, each once, and never fails |
| Promotion.RoundsReachChains | scripts/clarification_protocol.py:708-741 | After n rounds of promoting and answering, the published items are exactly those whose longest dependency chain has at most n items |
| Promotion.PromotionIsLive | scripts/clarification_protocol.py:708-741 | Every item is published within as many rounds as there are items |
| Promotion.PromotionPort.PublishItems | scripts/clarification_protocol.py:761-853 | The checks in order, by loops and search: a bundle is merged into what is known exactly when it is publishable, and otherwise changes nothing and is refused for a defect it has |
| Promotion.PromotionStopsCleanly | scripts/clarification_protocol.py:718-741 | A refused promotion leaves published exactly the batches before the refused one, and touches nothing already published |
| Promotion.PromotionPort.PromoteReady | scripts/clarification_protocol.py:718-741 | The loop over batches publishes what promotion specifies, and reports a defect exactly when a batch is refused |
| LedgerKeys.ParseOfPrint | scripts/clarification_protocol.py:415-419 | A printed key of a B2 or B3 record reads back as its parts |
| LedgerKeys.PrintOfParse | scripts/clarification_protocol.py:415-419 | Every key that parses is the printed form of what it yields |
| LedgerKeys.KeysAreInjective | scripts/clarification_protocol.py:293-295 | Keys are injective, and both readers recover phase, iteration and sequence from them |
| LedgerKeys.KeyReadsIff | scripts/clarification_protocol.py:415-419 | Which strings read as keys, character by character |
| LedgerKeys.OrdersAgreeIff | scripts/clarification_protocol.py:258-295 | Two sequence numbers are in the same order as strings exactly when the smaller is at most what the larger's leading digits spell |
| SourceKeys.DeriveSourceKeys | scripts/clarification_protocol.py:258-290 | The producer's key and those of the Reviewer records validly bound to it, sorted by number, or why there are none: no published open decision, a Reviewer's key, or folded judgements that disagree |
| SourceKeys.DerivationIs | scripts/clarification_protocol.py:258-290 | What is derived for the record last filed under a key: not open, folded judgements that disagree in state or in code, or its key and theirs |
| SourceKeys.DerivedPassIff | scripts/clarification_protocol.py:440-447 | The derived keys pass the string-order check made of every item exactly when the producer's comes first and consecutive Reviewer sequences agree in both orders |
| SourceKeys.OneFoldedPasses | scripts/clarification_protocol.py:258-290 | With at most one Reviewer record bound to the producer, filed after it, the derived keys always pass |
| SourceKeys.NineAndTenDisagree | scripts/clarification_protocol.py:440-447 | From a Worker's block at sequence 8 and two bound Reviewers' at 9 and 10 three keys are derived that never pass |
| Matching.MatchedIsStable | scripts/final_review_eval.py:726-831 | The matching is one-to-one and every candidate pair left out clashes with a preferred one taken |
| Matching.StableIsUnique | scripts/final_review_eval.py:800-817 | A set of candidate pairs has at most one such choice |
| Matching.MatchedIgnoresOrder | scripts/final_review_eval.py:726-831 | The matching does not depend on the order of findings or key entries |
| Matching.MatchedIsHalfOptimal | scripts/final_review_eval.py:726-831 | No one-to-one assignment of the candidate pairs is more than twice as large |
| Matching.MatchFindings | scripts/final_review_eval.py:726-831 | Collecting, disambiguating, sorting and assigning by loops computes the matching and the leftovers with their reasons |
| MatchingFacts.MatchedIsExact | scripts/final_review_eval.py:726-831 | The match takes pairs of eligible findings and entries only, none twice, and leaves out no eligible pair but for one it prefers: more claims, then the symbol, then the nearer line, then identifiers; eligible is written out on texts, files and lines |
| MatchingFacts.LeftoversAre | scripts/final_review_eval.py:818-830 | Which findings are left over and why |
| Scoring.FindingsAreConserved | scripts/final_review_eval.py:893-930 | Every finding is matched once or left over once |
| Scoring.Score | scripts/final_review_eval.py:956-1123 | The counters count exactly the unmatched findings judged true, judged false, attested in a closed world, and the rest; rates are computed exactly when there is a finding and the rest is empty, and then add up to one, so the consistency assertion never fails |
| Scoring.ClassifyUnmatched | scripts/final_review_eval.py:893-930 | One pass gives each leftover its class, a verdict always first and an attestation only in a closed world and for what was compared with the whole key, and counts the classes |
| Scoring.OpenWorldAttestsNothing | scripts/final_review_eval.py:893-930 | Without a signed attestation no unmatched finding counts against the report unjudged |
| Harness.E2EHarness.Run | scripts/e2e_harness.py:1115-1698 | The loop over iterations, with its early returns, does what the specification of a phase run says |
| Harness.E2EHarness.RunWorker | scripts/e2e_harness.py:1120-1389 | The Worker's half: the decision axis before the quality axis |
| Harness.E2EHarness.RunReviewer | scripts/e2e_harness.py:1391-1686 | The Reviewer's half: verification or normal mode, filed before its verdict is read |
| Harness.E2EHarness.AppendDecisionRecord | scripts/e2e_harness.py:996-1068 | One stamped record is appended under the next sequence number, and its key returned |
| Harness.E2EHarness.B1 | scripts/e2e_harness.py:2061-2090 | The guard reads the ledger, changes nothing but its own log and refuses exactly when admission does |
| Harness.E2EHarness.RunCorrectionRound | scripts/e2e_harness.py:1874-1905 | A correction round is a phase run plus the resolution bridge and its two exemptions |
| Harness.E2EHarness.RouteFindings | scripts/e2e_harness.py:2291-2310 | The loop routes the findings as specified |
| Harness.E2EHarness.RunWorkflow | scripts/e2e_harness.py:1942-2454 | The whole run, with its nested loops and early returns, does what the specification says, so every theorem above holds of it |

## Left out

- Subprocesses, agents, sessions, task-spec rendering, logging, audit files, protected-artifact hashing and the live runtime: an agent's answer is a value of the scenario, with its exit code, malformed output and artifact modification as cases of it.
- Resolving the risk level and the session policy of a scenario, with their three error exits, and publishing clarifications when a run ends BLOCKED: they do not affect the transitions.
- `open_decision_ledger`, `append_decision_ledger_record` and `read_decision_ledger` are not part of this model: a run opens with one run-entry record and appends under the next sequence number.
- Regular expressions over Markdown bodies: a body is its declaration values and its parsed fences; an output is its parsed fields. Whether a finding may be blocking without a quality attribute is part of malformed output.
- Case folding and whitespace: the dispatch's phase is compared by an arbitrary predicate, and strings the components compare against are tokens.
- `parse_decision_policy`: what it establishes is assumed where a theorem needs it (`Policy.WellFormed`), as are the shipped entry conditions (`PolicyAgreement.ShippedShape`); the contract it yields today is written out in `ShippedContract`.
- Corner cases of Python values no JSON producer of the repository writes: unhashable or mixed-type enum members, integers compared with booleans, sequences that are not integers while sorting a malformed ledger, and citations that are neither a list nor empty.
- Messages, expected sets and echoed values of defects: a defect is its code, kind and place.
- The repair budget and `routing.route`, which act on the kinds the classifier returns, are not part of this model.
- On-disk form of clarification artifacts, fsync, mode bits, digests of raw bytes, timestamps, sensitivity and redaction: artifacts are maps and an event log in memory, identifiers are what they name, so collisions do not occur.
- Damaged or hand-edited artifacts on disk: the theorems about histories start from an empty tree. They are stated of every call, although the code only ingests for requests it has read back from the tree.
- A whole-request cancellation fans out to single ones, and a stale revision's missing item is refused before anything is read; both are left out, as is the dependency recheck inside a reclarification and expanding an item's scope.
- Of a question's immutable fields the model keeps its identifier, dependencies and independence; of a source record what binding, folding and sorting read.
- `terminal_block_sources` and the schema checks of `_validate_item` other than the order of its keys.
- Fixtures, leak scanning, report parsing, evidence grounding and reproducibility in `final_review_eval.py`; rates are exact reals, not rounded floats.
- Matching.MatchFindings: does not model the final sort of the reported rows, which only orders the report.
- Clarification.IngestRefines: does not model a filesystem that fails between two writes of one ingest.
- Promotion.RoundsReachChains: every published item is answered before the next round, as the promise of liveness assumes; items withdrawn or never answered stay published and block their dependents.
- WorkflowOrder.GatesEndInCanonicalOrder: assumes the requested canonical phases are listed in canonical order; the code promises nothing otherwise.
