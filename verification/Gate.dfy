/** The decision gate: parsing an agent's declaration, and judging whether an append-only ledger
    admits the next dispatch (scripts/decision_gate.py). */
module Gate {
  import opened Vocabulary
  import opened Policy

  /** What the gate asks of the contract it evaluates against: whether it accepts an agent's record,
      what is wrong with a ledger record, and which transitions of one item a record justifies.
      The gate's own guarantees hold for every such judge; `JudgeOf` is the real one. */
  datatype Judge = Judge(
    accepts: Record -> bool,
    defect: Record -> Option<Reason>,
    resolves: (State, State, Record) -> bool)

  function JudgeOf(c: Contract): Judge {
    Judge(r => HasClosedFields(r) && ValidRecord(c, r),
          r => RecordDefect(c, r),
          (source, target, r) => ValidTransition(c, source, target, r))
  }

  datatype Reason =
    | InputMissing | InputMalformed | InputUnbound
    | LedgerInconsistent | LedgerSchemaUnsupported
    | DeclarationDisagrees | SummaryDisagrees | DowngradeRejected
    | Blocked(state: State, code: Json)

  /** An agent's result body: its declaration lines and its fenced records, in order. */
  datatype Body = Body(declarations: seq<Text>, fences: seq<Fence>)

  datatype Fence = Unparseable(text: string) | Parsed(value: Json)

  datatype GateResult = GateResult(declared: State, record: Record)

  /** The round a boundary expects the ledger's head to bind. */
  datatype Settled = Settled(run: Json, phase: Json, iteration: Json)

  /** The one dispatch an open blocking head may admit. */
  datatype VerificationDispatch = VerificationDispatch(role: Text, phase: Json, iteration: Json, verifies: Json)

  /** The thirteen required fields and the six ledger-mechanics fields are all present. */
  predicate HasRequiredFields(r: Record) {
    && Run in r && Field.Phase in r && Iteration in r && Field.State in r && ReasonCode in r
    && Evidence in r && Assumption in r && OpenItem in r && ResponsiblePhase in r && Role in r
    && Verdict in r && SourceBinding in r && RecordedAt in r
    && LedgerSchemaVersion in r && Boundary in r && Sequence in r && Source in r
    && PriorOpenDecisionItems in r && Verifies in r
  }

  const VERIFIES: set<Field> := { Run, Field.Phase, Iteration, WorkerRecordKey }

  const IDENTITIES: set<(Json, Json, Json)> := {
    (Str(B1), Str(RunEntry), Str(Coordinator)),
    (Str(B2), Str(Worker), Str(Worker)),
    (Str(B3), Str(Reviewer), Str(Reviewer)) }

  predicate IsClosedField(f: Field) {
    match f
    case ExplicitUserAuthority => false
    case ExplicitRequirementConflict => false
    case ConflictClause => false
    case UserIntentAbsent => false
    case Unclassifiable => false
    case PolicySourceRole => false
    case WorkerRecordKey => false
    case Kind => false
    case Locator => false
    case Other(_) => false
    case _ => true
  }

  predicate HasClosedFields(r: Record) {
    forall f :: f in r ==> IsClosedField(f)
  }

  function KeyOf(r: Record): Json {
    Json.Key(LedgerKey(Get(r, Run), Get(r, Field.Phase), Get(r, Iteration), Get(r, Boundary), Get(r, Sequence)))
  }

  predicate IsBlocking(r: Record) {
    Get(r, Field.State) in {Str(StateName(NeedsInput)), Str(StateName(Conflict))}
  }

  predicate Opens(r: Record) {
    IsBlocking(r) && Get(r, OpenDecisionItem) == Bool(true)
  }

  function SequenceOr(r: Record, default: int): int {
    if Get(r, Sequence).Int? then r[Sequence].n else default
  }

  function Identity(r: Record): (Json, Json, Json) {
    (Get(r, Boundary), Get(r, Source), Get(r, Role))
  }

  predicate ValidIdentity(r: Record) {
    && Identity(r) in IDENTITIES
    && (Get(r, Verifies) != Null ==> Identity(r) == (Str(B3), Str(Reviewer), Str(Reviewer)))
  }

  /** One ledger record's defect under clauses A4-i, A4-ii and A4-iii; None when it has none. */
  function RecordDefect(c: Contract, r: Record): Option<Reason> {
    if !HasClosedFields(r) || !Get(r, LedgerSchemaVersion).Int? then Some(InputMalformed)
    else if r[LedgerSchemaVersion].n != 1 then Some(LedgerSchemaUnsupported)
    else if
      && HasRequiredFields(r)
      && r[Sequence].Int? && r[Sequence].n >= 0
      && r[PriorOpenDecisionItems].List?
      && (r[Verifies] == Null || (r[Verifies].Obj? && r[Verifies].members.Keys == VERIFIES))
      && ValidIdentity(r)
      && ValidRecord(c, r)
    then None
    else Some(InputMalformed)
  }

  // ---- reading an agent's result ----

  function ParseDeclaredState(body: Body): Result<State, Reason> {
    if body.declarations == [] then Err(InputMissing)
    else if |body.declarations| != 1 || !body.declarations[0].StateName? then Err(InputMalformed)
    else Ok(body.declarations[0].state)
  }

  function ParseGateResult(c: Judge, body: Body): Result<GateResult, Reason> {
    var declared := ParseDeclaredState(body);
    if declared.Err? then Err(declared.error)
    else if body.fences == [] then Err(InputMissing)
    else if |body.fences| != 1 || body.fences[0].Unparseable? || !body.fences[0].value.Obj? then Err(InputMalformed)
    else
      var record := body.fences[0].value.members;
      if Get(record, Field.State) != Str(StateName(declared.value)) then Err(SummaryDisagrees)
      else if !c.accepts(record) then Err(InputMalformed)
      else Ok(GateResult(declared.value, record))
  }

  // ---- open items ----

  /** `later` validly resolves the open `item`. A blocking or verifying record resolves nothing. */
  predicate Closes(c: Judge, item: Record, later: Record) {
    && SequenceOr(later, -1) > SequenceOr(item, -1)
    && Get(later, Run) == Get(item, Run) && Get(later, Field.Phase) == Get(item, Field.Phase)
    && !IsBlocking(later)
    && Get(later, Verifies) == Null
    && Get(item, Field.State).Str? && item[Field.State].t.StateName?
    && Get(later, Field.State).Str? && later[Field.State].t.StateName?
    && c.resolves(item[Field.State].t.state, later[Field.State].t.state, later)
  }

  predicate OpenAt(c: Judge, records: seq<Record>, i: nat)
    requires i < |records|
  {
    && Opens(records[i])
    && (forall j | i < j < |records| :: Opens(records[j]) ==> KeyOf(records[j]) != KeyOf(records[i]))
    && (forall j | 0 <= j < |records| :: !Closes(c, records[i], records[j]))
  }

  function OpenItems(c: Judge, records: seq<Record>): set<Json> {
    set i | 0 <= i < |records| && OpenAt(c, records, i) :: KeyOf(records[i])
  }

  // ---- admission ----

  function InsertBySequence(r: Record, sorted: seq<Record>): seq<Record> {
    if sorted == [] || SequenceOr(r, 0) <= SequenceOr(sorted[0], 0) then [r] + sorted
    else [sorted[0]] + InsertBySequence(r, sorted[1..])
  }

  function SortBySequence(records: seq<Record>): seq<Record> {
    if records == [] then [] else InsertBySequence(records[0], SortBySequence(records[1..]))
  }

  function Zeros(records: seq<Record>): seq<Record> {
    if records == [] then []
    else (if Get(records[0], Sequence) in {Int(0), Bool(false)} then [records[0]] else []) + Zeros(records[1..])
  }

  predicate IsRunEntry(r: Record, run: Json) {
    Get(r, Source) == Str(RunEntry) && Get(r, Boundary) == Str(B1) && Get(r, Run) == run
  }

  function FirstDefect(c: Judge, records: seq<Record>): Option<Reason> {
    if records == [] then None
    else if c.defect(records[0]).Some? then c.defect(records[0])
    else FirstDefect(c, records[1..])
  }

  predicate Gapless(records: seq<Record>) {
    forall i | 0 <= i < |records| :: Get(records[i], Sequence) == Int(i)
  }

  function Binding(r: Record): Settled {
    Settled(Get(r, Run), Get(r, Field.Phase), Get(r, Iteration))
  }

  predicate HeadBinds(ordered: seq<Record>, expected: Option<Settled>)
    requires ordered != []
  {
    var head := ordered[|ordered| - 1];
    if |ordered| == 1 then expected.None?
    else
      && Get(head, Source) in {Str(Worker), Str(Reviewer)}
      && Get(head, Boundary) in {Str(B2), Str(B3)}
      && expected == Some(Binding(head))
  }

  function DeclaredOpen(entry: Record): set<Json> {
    var declared := Get(entry, PriorOpenDecisionItems);
    if declared.List? then set k | k in declared.items else {}
  }

  predicate OnlyUnderstatesHead(declared: set<Json>, recomputed: set<Json>, head: Record) {
    declared <= recomputed && recomputed == {KeyOf(head)}
  }

  predicate VerifiedBy(r: Record, key: Json) {
    Get(r, Verifies).Obj? && Get(r[Verifies].members, WorkerRecordKey) == key
  }

  /** All six conjuncts under which one verification dispatch passes an open blocking head. */
  predicate AdmitsVerification(records: seq<Record>, head: Record, open: set<Json>, d: VerificationDispatch,
                               run: Json) {
    && d.role == Reviewer
    && open == {KeyOf(head)}
    && Identity(head) == (Str(B2), Str(Worker), Str(Worker))
    && Opens(head)
    && Binding(head) == Settled(run, d.phase, d.iteration)
    && d.verifies == KeyOf(head)
    && (forall i | 0 <= i < |records| :: !VerifiedBy(records[i], KeyOf(head)))
  }

  function FirstOpen(records: seq<Record>, open: set<Json>): Option<Record> {
    if records == [] then None
    else if KeyOf(records[0]) in open then Some(records[0])
    else FirstOpen(records[1..], open)
  }

  function BlockReason(r: Record): Reason {
    if Get(r, Field.State).Str? && r[Field.State].t.StateName?
    then Blocked(r[Field.State].t.state, Get(r, ReasonCode))
    else InputMalformed
  }

  function AdmitHead(c: Judge, records: seq<Record>, run: Json,
                     expected: Option<Settled>, verification: Option<VerificationDispatch>): Result<Record, Reason> {
    var ordered := SortBySequence(records);
    if ordered == [] then Err(InputMissing)
    else if |Zeros(ordered)| != 1 || !IsRunEntry(Zeros(ordered)[0], run) then Err(LedgerInconsistent)
    else if FirstDefect(c, ordered).Some? then Err(FirstDefect(c, ordered).value)
    else if !Gapless(ordered) then Err(InputMalformed)
    else if !HeadBinds(ordered, expected) then Err(InputUnbound)
    else
      var head := ordered[|ordered| - 1];
      var declared := DeclaredOpen(ordered[0]);
      var recomputed := OpenItems(c, ordered[1..]);
      if declared != recomputed
         && !(verification.Some?
              && OnlyUnderstatesHead(declared, recomputed, head)
              && AdmitsVerification(ordered, head, recomputed, verification.value, run))
      then Err(DeclarationDisagrees)
      else
        var stillOpen := OpenItems(c, ordered);
        if stillOpen == {} then Ok(head)
        else if verification.Some? && AdmitsVerification(ordered, head, stillOpen, verification.value, run)
        then Ok(head)
        else
          var blocker := FirstOpen(ordered, stillOpen);
          Err(if blocker.Some? then BlockReason(blocker.value) else InputMalformed)
  }

  // ---- verification and terminals ----

  predicate VerificationBinds(r: Record, workerKey: Json, bound: Settled) {
    && Get(r, Verifies).Obj?
    && r[Verifies].members.Keys == VERIFIES
    && Binding(r[Verifies].members) == bound
    && r[Verifies].members[WorkerRecordKey] == workerKey
  }

  datatype Outcome = Outcome(reason: Reason, state: State, code: Json)

  function BlockedOutcome(state: State, code: Json): Outcome {
    Outcome(Blocked(state, code), state, code)
  }

  /** Every record a sound judge finds no defect in has a sequence, one of the three identities and
      one of the four states. */
  ghost predicate Sound(c: Judge) {
    forall r: Record :: c.defect(r).None? ==> Get(r, Sequence).Int? && ValidIdentity(r) && StateOf(r).Some?
  }

  lemma ContractsAreSound(c: Contract)
    ensures Sound(JudgeOf(c))
  {
    forall r: Record | RecordDefect(c, r).None?
      ensures Get(r, Sequence).Int? && ValidIdentity(r) && StateOf(r).Some?
    {
    }
  }

  /** What a bound verification of `worker` by `reviewer` settles; terminal in every case. */
  function EvaluateVerification(c: Judge, ws: State, worker: Record, rs: State, reviewer: Record): Outcome {
    if rs.Blocks() then
      if rs == ws && Get(reviewer, ReasonCode) == Get(worker, ReasonCode)
      then BlockedOutcome(ws, Get(worker, ReasonCode))
      else BlockedOutcome(rs, Get(reviewer, ReasonCode))
    else if !c.resolves(ws, rs, reviewer)
    then Outcome(DowngradeRejected, ws, Get(worker, ReasonCode))
    else BlockedOutcome(ws, Get(worker, ReasonCode))
  }

  function StateOf(r: Record): Option<State> {
    if Get(r, Field.State).Str? && r[Field.State].t.StateName? then Some(r[Field.State].t.state) else None
  }

  function RecordWithKey(records: seq<Record>, key: Json): Option<Record> {
    if records == [] then None
    else if KeyOf(records[|records| - 1]) == key then Some(records[|records| - 1])
    else RecordWithKey(records[..|records| - 1], key)
  }

  /** The block a refused terminal ledger really holds, or None when the refusal stands. */
  function UnresolvedBlockReason(c: Judge, records: seq<Record>, refusedWith: Reason): Option<Reason> {
    var ordered := SortBySequence(records);
    if refusedWith != DeclarationDisagrees || ordered == [] || FirstDefect(c, ordered).Some? || Zeros(ordered) == []
    then None
    else
      var head := ordered[|ordered| - 1];
      var recomputed := OpenItems(c, ordered[1..]);
      if !(DeclaredOpen(Zeros(ordered)[0]) <= recomputed) then None
      else if recomputed == {KeyOf(head)} then
        if Identity(head) in IDENTITIES && Identity(head).0 != Str(B1) then Some(BlockReason(head)) else None
      else VerifiedBlockReason(c, ordered, recomputed - {KeyOf(head)}, head)
  }

  function VerifiedBlockReason(c: Judge, ordered: seq<Record>, candidates: set<Json>, head: Record): Option<Reason> {
    var first := FirstOpen(ordered, candidates);
    if first.None? || candidates != {KeyOf(first.value)} then None
    else
      var openKey := KeyOf(first.value);
      var blocker := RecordWithKey(ordered, openKey);
      if && blocker.Some?
         && Identity(blocker.value) == (Str(B2), Str(Worker), Str(Worker))
         && Identity(head) == (Str(B3), Str(Reviewer), Str(Reviewer))
         && VerificationBinds(head, openKey, Binding(blocker.value))
         && StateOf(blocker.value).Some? && StateOf(head).Some?
      then Some(EvaluateVerification(c, StateOf(blocker.value).value, blocker.value, StateOf(head).value, head).reason)
      else None
  }
}
