/** The gate's classifier (scripts/decision_contract.py): what is wrong with an agent's declaration,
    and whether it may be asked again (FORM), is a judgement (SEMANTIC), or claims to be another
    dispatch's (LIFECYCLE). Specified as sets of defects; computed by growing lists of them. */
module Classifier {
  import opened Vocabulary
  import opened Sequences
  import opened Policy
  import opened Gate

  datatype DefectKind = Form | Semantic | Lifecycle

  datatype Place =
    | Settlement | DeclarationLine | RecordFence | WholeRecord | IdentityTriple
    | AtField(field: Field) | InSource(member: Field)

  datatype Defect = Defect(code: Reason, kind: DefectKind, place: Place)

  /** The role a dispatch was sent out under. */
  datatype DispatchRole = WorkerRole | PhaseReviewer | FinalReviewer | NoGateRole

  /** The dispatch a record must belong to; `spells` says which spellings name its phase. */
  datatype Bound = Bound(run: Text, spells: Text -> bool, iteration: int)

  function Malformed(f: Field): Defect {
    Defect(InputMalformed, Form, AtField(f))
  }

  function Foreign(place: Place): Defect {
    Defect(InputUnbound, Lifecycle, place)
  }

  // ---- the mechanics block ----

  const TRIPLE: seq<Field> := [Boundary, Source, Role]

  function DomainOf(f: Field): set<Json> {
    match f
    case Boundary => {Str(B1), Str(B2), Str(B3)}
    case Source => {Str(RunEntry), Str(Worker), Str(Reviewer)}
    case Role => {Str(Coordinator), Str(Worker), Str(Reviewer)}
    case _ => {}
  }

  predicate InItsDomain(record: Record, f: Field) {
    f in record && record[f] in DomainOf(f)
  }

  function MechanicsForm(record: Record): set<Defect> {
    (if Get(record, LedgerSchemaVersion) == Int(1) then {} else {Malformed(LedgerSchemaVersion)})
    + (set f | f in TRIPLE && !InItsDomain(record, f) :: Malformed(f))
  }

  // ---- the dispatch it is bound to ----

  const BINDING: seq<Field> := [Run, Field.Phase, Iteration]

  function BindingDomain(record: Record, bound: Option<Bound>): set<Defect> {
    if bound.None? then {}
    else
      (set f | f in BINDING && Get(record, f) == Null :: Malformed(f))
      + if Get(record, Iteration).Int? && record[Iteration].n < 1 then {Malformed(Iteration)} else {}
  }

  /** A well-formed value naming another run, phase or iteration. */
  predicate NamesAnother(record: Record, bound: Bound, f: Field) {
    match f
    case Run => Get(record, Run).Str? && record[Run].t != bound.run
    case Phase => Get(record, Field.Phase).Str? && !bound.spells(record[Field.Phase].t)
    case Iteration => Get(record, Iteration).Int? && record[Iteration].n >= 1 && record[Iteration].n != bound.iteration
    case _ => false
  }

  function BindingIdentity(record: Record, bound: Option<Bound>): set<Defect> {
    if bound.None? then {}
    else set f | f in BINDING && NamesAnother(record, bound.value, f) :: Foreign(AtField(f))
  }

  // ---- who it claims to be ----

  function Expected(role: DispatchRole, f: Field): Json {
    var worker := role.WorkerRole?;
    match f
    case Boundary => Str(if worker then B2 else B3)
    case _ => Str(if worker then Worker else Reviewer)
  }

  /** Every declared member of the triple is one this schema knows. */
  predicate Readable(record: Record) {
    forall f :: f in TRIPLE && f in record ==> record[f] in DomainOf(f)
  }

  predicate ClaimsAnother(record: Record, role: DispatchRole) {
    Readable(record) && exists f :: f in TRIPLE && f in record && record[f] != Expected(role, f)
  }

  function IdentityDefects(record: Record, role: DispatchRole, bound: Option<Bound>): set<Defect> {
    if role.NoGateRole? then {Foreign(AtField(Role))}
    else
      var triple := if ClaimsAnother(record, role) then {Foreign(IdentityTriple)} else {};
      var claims := triple + BindingIdentity(record, bound);
      if claims != {} then claims
      else if Readable(record) && Boundary in record && Source in record && Role in record && !ValidIdentity(record)
      then {Foreign(IdentityTriple)}
      else {}
  }

  // ---- the form sweep ----

  const REQUIRED: seq<Field> := [
    Run, Field.Phase, Iteration, Field.State, ReasonCode, Evidence, Assumption, OpenItem,
    ResponsiblePhase, Role, Verdict, SourceBinding, RecordedAt]

  const NULLABLE: set<Field> := {ReasonCode, Assumption, OpenItem}

  datatype JsonType = IntegerType | StringType | ObjectType | ArrayType | BooleanType

  const TYPED: seq<Field> := [
    LedgerSchemaVersion, Sequence, Iteration, Run, Field.Phase, ResponsiblePhase, SourceBinding, RecordedAt, Verdict,
    Evidence, PriorOpenDecisionItems, OpenDecisionItem]

  function TypeOf(f: Field): JsonType {
    match f
    case LedgerSchemaVersion => IntegerType
    case Sequence => IntegerType
    case Iteration => IntegerType
    case Evidence => ObjectType
    case PriorOpenDecisionItems => ArrayType
    case OpenDecisionItem => BooleanType
    case _ => StringType
  }

  predicate HasType(v: Json, t: JsonType) {
    match t
    case IntegerType => v.Int?
    case StringType => v.Str? || v.Key?
    case ObjectType => v.Obj?
    case ArrayType => v.List?
    case BooleanType => v.Bool?
  }

  predicate Missing(record: Record, f: Field) {
    f !in record || (record[f] == Null && f !in NULLABLE)
  }

  predicate Mistyped(record: Record, f: Field) {
    f in record && record[f] != Null && !HasType(record[f], TypeOf(f))
  }

  /** The record field an element governs: every element of kind `citations` governs `citations`. */
  function Governed(c: Contract, e: Field): Field
    requires e in c.elements
  {
    if c.elements[e].kind.CitationList? then Citations else e
  }

  predicate OutOfDomain(c: Contract, record: Record, e: Field)
    requires e in c.elements
  {
    Governed(c, e) in record && !InDomain(c.elements[e], record[Governed(c, e)])
  }

  function SourceDefects(c: Contract, record: Record): set<Defect> {
    var source := Get(record, PolicySource);
    if source.Obj? then
      (if Get(source.members, Kind) == Null || source.members[Kind] in c.sourceKinds then {}
       else {Defect(InputMalformed, Form, InSource(Kind))})
      + (if Get(source.members, Role) == Null || source.members[Role] in c.sourceRoles then {}
         else {Defect(InputMalformed, Form, InSource(Role))})
      + (if Get(source.members, Locator).Str? && !IsEmpty(source.members[Locator]) then {}
         else {Defect(InputMalformed, Form, InSource(Locator))})
    else if source != Null then {Malformed(PolicySource)}
    else {}
  }

  function Extras(record: Record): set<Defect> {
    set f | f in record && !IsClosedField(f) :: Malformed(f)
  }

  function Absences(record: Record): set<Defect> {
    set f | f in REQUIRED && Missing(record, f) :: Malformed(f)
  }

  function Mistypings(record: Record): set<Defect> {
    set f | f in TYPED && Mistyped(record, f) :: Malformed(f)
  }

  function Strays(c: Contract, record: Record): set<Defect> {
    set e | e in c.elements && OutOfDomain(c, record, e) :: Malformed(Governed(c, e))
  }

  function FormDefects(c: Contract, record: Record): set<Defect> {
    Extras(record) + Absences(record) + Mistypings(record) + Strays(c, record) + SourceDefects(c, record)
  }

  // ---- the classification ----

  /** The two halves of a declaration agree, and the record can be read. */
  predicate Legible(body: Body) {
    && |body.declarations| == 1 && |body.fences| == 1
    && body.fences[0].Parsed? && body.fences[0].value.Obj?
    && body.declarations[0].StateName?
    && Get(body.fences[0].value.members, Field.State) == Str(body.declarations[0])
  }

  function RecordOf(body: Body): Record
    requires Legible(body)
  {
    body.fences[0].value.members
  }

  function Illegible(body: Body): Defect {
    if |body.declarations| != 1 then
      Defect(if body.declarations == [] then InputMissing else InputMalformed, Form, DeclarationLine)
    else if |body.fences| != 1 then
      Defect(if body.fences == [] then InputMissing else InputMalformed, Form, RecordFence)
    else if body.fences[0].Unparseable? || !body.fences[0].value.Obj? then Defect(InputMalformed, Form, RecordFence)
    else if !body.declarations[0].StateName? then Defect(InputMalformed, Form, DeclarationLine)
    else Defect(SummaryDisagrees, Form, AtField(Field.State))
  }

  /** What is left to say of a record whose form and identity are clean. */
  function Judgement(c: Contract, record: Record): set<Defect> {
    if !ValidRecord(c, record) then {Defect(InputMalformed, Semantic, WholeRecord)}
    else if IsBlocking(record) then {Defect(BlockReason(record), Semantic, AtField(Field.State))}
    else {}
  }

  function Classify(c: Contract, body: Option<Body>, role: DispatchRole, bound: Option<Bound>): set<Defect> {
    if body.None? then {Defect(InputMissing, Form, Settlement)}
    else if !Legible(body.value) then {Illegible(body.value)}
    else
      var record := RecordOf(body.value);
      var identity := IdentityDefects(record, role, bound);
      var form := MechanicsForm(record) + BindingDomain(record, bound) + FormDefects(c, record);
      if identity != {} then identity
      else if form != {} then form
      else Judgement(c, record)
  }

  /** What the live ingress makes of a record it is about to file. */
  function Ingress(record: Record, role: DispatchRole, bound: Option<Bound>): set<Defect> {
    var domain := MechanicsForm(record) + BindingDomain(record, bound);
    if domain != {} then domain else IdentityDefects(record, role, bound)
  }

  // ---- what the classifier promises ----

  predicate AllAre(defects: set<Defect>, kind: DefectKind) {
    forall d :: d in defects ==> d.kind == kind
  }

  lemma IdentityIsLifecycle(record: Record, role: DispatchRole, bound: Option<Bound>)
    ensures AllAre(IdentityDefects(record, role, bound), Lifecycle)
  {
    hide ClaimsAnother, Readable, ValidIdentity, NamesAnother;
  }

  lemma SweepIsForm(c: Contract, record: Record, bound: Option<Bound>)
    ensures AllAre(MechanicsForm(record), Form) && AllAre(BindingDomain(record, bound), Form)
            && AllAre(FormDefects(c, record), Form)
  {
    hide Extras, Absences, Mistypings, Strays, SourceDefects, MechanicsForm, BindingDomain;
    MechanicsAreForm(record);
    BindingIsForm(record, bound);
    MalformedAreForm(c, record);
    SourceIsForm(c, record);
  }

  lemma MechanicsAreForm(record: Record)
    ensures AllAre(MechanicsForm(record), Form)
  {
    hide InItsDomain;
  }

  lemma BindingIsForm(record: Record, bound: Option<Bound>)
    ensures AllAre(BindingDomain(record, bound), Form)
  {
  }

  lemma MalformedAreForm(c: Contract, record: Record)
    ensures AllAre(Extras(record), Form) && AllAre(Absences(record), Form)
    ensures AllAre(Mistypings(record), Form) && AllAre(Strays(c, record), Form)
  {
    hide IsClosedField, Missing, Mistyped, OutOfDomain;
  }

  lemma SourceIsForm(c: Contract, record: Record)
    ensures AllAre(SourceDefects(c, record), Form)
  {
  }

  /** Every classification is of a single kind, and a record that claims to be another dispatch's is
      never asked again, whatever else is wrong with it. */
  lemma OneKindAtATime(c: Contract, body: Option<Body>, role: DispatchRole, bound: Option<Bound>)
    ensures
      var defects := Classify(c, body, role, bound);
      || (AllAre(defects, Lifecycle) && (defects != {} ==> body.Some? && Legible(body.value)))
      || AllAre(defects, Form) || AllAre(defects, Semantic)
    ensures body.Some? && Legible(body.value) && IdentityDefects(RecordOf(body.value), role, bound) != {} ==>
              AllAre(Classify(c, body, role, bound), Lifecycle)
  {
    hide IdentityDefects, MechanicsForm, BindingDomain, FormDefects, ValidRecord;
    if body.Some? && Legible(body.value) {
      IdentityIsLifecycle(RecordOf(body.value), role, bound);
      SweepIsForm(c, RecordOf(body.value), bound);
    }
  }

  /** No defect exactly when the gate's own reader accepts the same body with a state that blocks
      nothing, the record is this dispatch's, and the form sweep finds nothing the reader lets by. */
  lemma CleanIffParsed(c: Contract, body: Body, role: DispatchRole, bound: Option<Bound>)
    ensures Classify(c, Some(body), role, bound) == {} <==>
              && ParseGateResult(JudgeOf(c), body).Ok?
              && var gate := ParseGateResult(JudgeOf(c), body).value;
              && !gate.declared.Blocks()
              && IdentityDefects(gate.record, role, bound) == {}
              && MechanicsForm(gate.record) == {} && BindingDomain(gate.record, bound) == {}
              && FormDefects(c, gate.record) == {}
  {
    hide IdentityDefects, MechanicsForm, BindingDomain, ValidRecord, FormDefects;
    if Legible(body) {
      CleanIsClosed(c, RecordOf(body));
    }
  }

  lemma CleanIsClosed(c: Contract, record: Record)
    ensures FormDefects(c, record) == {} ==> HasClosedFields(record)
  {
    hide IsClosedField, Absences, Mistypings, Strays, SourceDefects;
    forall f | f in record ensures IsClosedField(f) || Malformed(f) in FormDefects(c, record) {
    }
  }

  // ---- the sweep and the evaluator ----

  /** Every element of kind `citations` the record names carries a list. */
  predicate CitationsAreLists(c: Contract, record: Record) {
    forall e :: e in c.elements && c.elements[e].kind.CitationList? && e in record ==> record[e].List?
  }

  /** After a clean sweep the evaluator can raise on one thing only: an element of kind `citations`
      named inside the closed field set. The sweep looks for it under `citations`, the evaluator
      under its own name. */
  lemma CleanSweepIsValidIff(c: Contract, record: Record)
    requires FormDefects(c, record) == {}
    ensures ValidFacts(c, record) <==> CitationsAreLists(c, record)
  {
    SweptElements(c, record);
    SweptSource(c, record);
    CleanIsClosed(c, record);
    assert ConflictClause !in record && PolicySourceRole !in record;
    hide FormDefects, HasClosedFields;
  }

  lemma SweptElements(c: Contract, record: Record)
    requires FormDefects(c, record) == {}
    ensures forall e :: e in c.elements && !c.elements[e].kind.CitationList? && e in record ==>
              InDomain(c.elements[e], record[e])
  {
    hide Extras, Absences, Mistypings, SourceDefects, InDomain;
    forall e | e in c.elements && !c.elements[e].kind.CitationList? && e in record
      ensures InDomain(c.elements[e], record[e]) || Malformed(e) in Strays(c, record)
    {
    }
  }

  lemma SweptSource(c: Contract, record: Record)
    requires FormDefects(c, record) == {}
    ensures SourceDefects(c, record) == {}
    ensures Get(record, PolicySource).Obj? ==>
              && ValidSource(c, record[PolicySource].members)
              && (|| Get(record[PolicySource].members, Role) == Null
                  || record[PolicySource].members[Role] in c.sourceRoles)
  {
    hide Extras, Absences, Mistypings, Strays;
    var defects := SourceDefects(c, record);
    assert Defect(InputMalformed, Form, InSource(Kind)) !in defects;
    assert Defect(InputMalformed, Form, InSource(Role)) !in defects;
    assert Defect(InputMalformed, Form, InSource(Locator)) !in defects;
  }

  /** So the sweep is enough for every contract that names its `citations` elements either
      `citations` or outside the closed set, as the shipped one does. */
  lemma CleanSweepIsValid(c: Contract, record: Record)
    requires forall e :: e in c.elements && c.elements[e].kind.CitationList? ==> e == Citations || !IsClosedField(e)
    requires FormDefects(c, record) == {}
    ensures ValidFacts(c, record)
  {
    CleanSweepIsValidIff(c, record);
    CleanIsClosed(c, record);
    forall e | e in c.elements && c.elements[e].kind.CitationList? && e in record ensures record[e].List? {
      assert e == Citations;
      SweptCitations(c, record, e);
    }
    hide FormDefects, ValidFacts, HasClosedFields;
  }

  lemma SweptCitations(c: Contract, record: Record, e: Field)
    requires FormDefects(c, record) == {} && e in c.elements && c.elements[e].kind.CitationList? && e == Citations
             && e in record
    ensures record[e].List?
  {
    hide Extras, Absences, Mistypings, SourceDefects;
    assert Governed(c, e) == e && (OutOfDomain(c, record, e) <==> !record[e].List?);
    assert OutOfDomain(c, record, e) ==> Malformed(e) in Strays(c, record);
  }

  function SampleValue(f: Field): Json {
    match TypeOf(f)
    case IntegerType => Int(1)
    case StringType => Str(Raw("text"))
    case ObjectType => Obj(map[])
    case ArrayType => List([])
    case BooleanType => Bool(false)
  }

  /** Every required field, and a textual scope. */
  function SampleRecord(): Record {
    map f | f in REQUIRED + [Scope] :: SampleValue(f)
  }

  lemma SampleHas(f: Field)
    ensures f in SampleRecord() <==> f in REQUIRED || f == Scope
    ensures f in SampleRecord() ==> SampleRecord()[f] == SampleValue(f)
  {
  }

  lemma SampleIsClosed(f: Field)
    ensures f in REQUIRED || f == Scope ==> IsClosedField(f)
    ensures f in REQUIRED || f == Scope ==> !f.Citations? && !f.PolicySource?
  {
  }

  lemma SampleIsTyped(f: Field)
    ensures HasType(SampleValue(f), TypeOf(f)) && SampleValue(f) != Null
  {
  }

  /** A contract that names a `citations` element `scope` is one the clean sweep is not enough for. */
  lemma CleanSweepCanBeInvalid(c: Contract)
    requires c.elements == map[Scope := Element(CitationList, [], Never)]
    ensures FormDefects(c, SampleRecord()) == {} && !ValidFacts(c, SampleRecord())
  {
    hide SampleRecord, Extras, Absences, Mistypings, InDomain;
    var r := SampleRecord();
    SampleIsSwept();
    SampleHas(Citations);
    SampleIsClosed(Citations);
    SampleHas(PolicySource);
    SampleIsClosed(PolicySource);
    SampleHas(Scope);
    SampleScope();
    assert InDomain(c.elements[Scope], r[Scope]) <==> r[Scope].List? by { ListsOnly(c.elements[Scope], r[Scope]); }
  }

  lemma ListsOnly(e: Element, v: Json)
    requires e.kind.CitationList?
    ensures InDomain(e, v) <==> v.List?
  {
  }

  lemma SampleIsSwept()
    ensures var r := SampleRecord(); Extras(r) == {} && Absences(r) == {} && Mistypings(r) == {}
  {
    hide SampleRecord, SampleValue, TypeOf, IsClosedField, HasType;
    var r := SampleRecord();
    forall f ensures (!Missing(r, f) || f !in REQUIRED) && !Mistyped(r, f) {
      SampleHas(f);
      SampleIsTyped(f);
    }
    forall f | f in r ensures IsClosedField(f) {
      SampleHas(f);
      SampleIsClosed(f);
    }
  }

  lemma SampleScope()
    ensures SampleValue(Scope) == Str(Raw("text"))
  {
  }

  // ---- the live ingress ----

  /** The ingress files nothing the classifier finds foreign or malformed in its mechanics; but where
      a record is both malformed and another dispatch's, the ingress asks again what the classifier
      refuses for good. */
  lemma IngressAgreesExceptOnBoth(c: Contract, body: Body, role: DispatchRole, bound: Option<Bound>)
    requires Legible(body)
    ensures
      var record := RecordOf(body);
      var domain := MechanicsForm(record) + BindingDomain(record, bound);
      var identity := IdentityDefects(record, role, bound);
      && (Ingress(record, role, bound) == {} <==> domain == {} && identity == {})
      && (Ingress(record, role, bound) == {} && FormDefects(c, record) == {} ==>
            Classify(c, Some(body), role, bound) == Judgement(c, record))
      && (Ingress(record, role, bound) != {} ==>
            (AllAre(Ingress(record, role, bound), Form) && AllAre(Classify(c, Some(body), role, bound), Lifecycle)
             <==> domain != {} && identity != {}))
  {
    hide MechanicsForm, BindingDomain, IdentityDefects, FormDefects, Judgement;
    var record := RecordOf(body);
    IdentityIsLifecycle(record, role, bound);
    SweepIsForm(c, record, bound);
    var domain, identity := MechanicsForm(record) + BindingDomain(record, bound), IdentityDefects(record, role, bound);
    if domain == {} && identity != {} {
      var d :| d in identity;
      assert d.kind == Lifecycle && d in Ingress(record, role, bound);
    }
    if domain != {} && identity == {} {
      var d :| d in domain;
      assert d.kind == Form && d in Classify(c, Some(body), role, bound);
    }
  }

  /** What a Worker of another run declares when it also leaves the schema version out. */
  function ForeignRecord(run: Text): Record {
    map[Field.State := Str(StateName(Clear)), Run := Str(run)]
  }

  /** Such a record is foreign and malformed: the ingress asks for it again, the classifier refuses
      it for good. */
  lemma ForeignAndMalformed(c: Contract, bound: Bound, run: Text)
    requires run != bound.run
    ensures
      var record := ForeignRecord(run);
      var body := Body([StateName(Clear)], [Parsed(Obj(record))]);
      var asked := Ingress(record, WorkerRole, Some(bound));
      var found := Classify(c, Some(body), WorkerRole, Some(bound));
      && Malformed(LedgerSchemaVersion) in asked && AllAre(asked, Form)
      && Foreign(AtField(Run)) in found && AllAre(found, Lifecycle)
  {
    var record := ForeignRecord(run);
    var body := Body([StateName(Clear)], [Parsed(Obj(record))]);
    assert Malformed(LedgerSchemaVersion) in MechanicsForm(record);
    assert BINDING[0] == Run && NamesAnother(record, bound, Run);
    assert Foreign(AtField(Run)) in IdentityDefects(record, WorkerRole, Some(bound));
    IngressAgreesExceptOnBoth(c, body, WorkerRole, Some(bound));
    hide MechanicsForm, BindingDomain, IdentityDefects, FormDefects, Judgement;
  }

  // ---- as it runs ----

  lemma Appended(defects: seq<Defect>, d: Defect)
    ensures Members(defects + [d]) == Members(defects) + {d}
  {
    MembersOfConcat(defects, [d]);
    assert Members([d]) == {d} by { assert d in [d]; }
  }

  /** The sweep collects all the form defects there are before it reports any. */
  method CollectFormDefects(c: Contract, record: Record) returns (defects: seq<Defect>)
    ensures Members(defects) == FormDefects(c, record)
  {
    defects := [];
    var extra := record.Keys;
    while extra != {}
      invariant extra <= record.Keys
      invariant Members(defects) == set f | f in record && f !in extra && !IsClosedField(f) :: Malformed(f)
    {
      var f :| f in extra;
      extra := extra - {f};
      if !IsClosedField(f) {
        Appended(defects, Malformed(f));
        defects := defects + [Malformed(f)];
      }
    }
    assert Members(defects) == Extras(record);
    var absent := CollectFields(REQUIRED, f => Missing(record, f));
    var mistyped := CollectFields(TYPED, f => Mistyped(record, f));
    assert Members(absent) == Absences(record) && Members(mistyped) == Mistypings(record);
    var stray := CollectStrays(c, record);
    var source := CollectSourceDefects(c, record);
    MembersOfConcat(defects, absent);
    MembersOfConcat(defects + absent, mistyped);
    MembersOfConcat(defects + absent + mistyped, stray);
    MembersOfConcat(defects + absent + mistyped + stray, source);
    defects := defects + absent + mistyped + stray + source;
  }

  /** The listed fields that fail a check, in the order listed. */
  method CollectFields(fields: seq<Field>, fails: Field -> bool) returns (defects: seq<Defect>)
    ensures Members(defects) == set f | f in fields && fails(f) :: Malformed(f)
  {
    defects := [];
    for i := 0 to |fields|
      invariant Members(defects) == set f | f in fields[..i] && fails(f) :: Malformed(f)
    {
      assert fields[..i + 1] == fields[..i] + [fields[i]];
      if fails(fields[i]) {
        Appended(defects, Malformed(fields[i]));
        defects := defects + [Malformed(fields[i])];
      }
    }
    assert fields[..|fields|] == fields;
  }

  method CollectStrays(c: Contract, record: Record) returns (defects: seq<Defect>)
    ensures Members(defects) == Strays(c, record)
  {
    defects := [];
    var pending := c.elements.Keys;
    while pending != {}
      invariant pending <= c.elements.Keys
      invariant Members(defects)
                == set e | e in c.elements && e !in pending && OutOfDomain(c, record, e) :: Malformed(Governed(c, e))
    {
      var e :| e in pending;
      pending := pending - {e};
      if OutOfDomain(c, record, e) {
        Appended(defects, Malformed(Governed(c, e)));
        defects := defects + [Malformed(Governed(c, e))];
      }
    }
  }

  method CollectSourceDefects(c: Contract, record: Record) returns (defects: seq<Defect>)
    ensures Members(defects) == SourceDefects(c, record)
  {
    defects := [];
    var source := Get(record, PolicySource);
    if source.Obj? {
      if Get(source.members, Kind) != Null && source.members[Kind] !in c.sourceKinds {
        Appended(defects, Defect(InputMalformed, Form, InSource(Kind)));
        defects := defects + [Defect(InputMalformed, Form, InSource(Kind))];
      }
      if Get(source.members, Role) != Null && source.members[Role] !in c.sourceRoles {
        Appended(defects, Defect(InputMalformed, Form, InSource(Role)));
        defects := defects + [Defect(InputMalformed, Form, InSource(Role))];
      }
      if !Get(source.members, Locator).Str? || IsEmpty(source.members[Locator]) {
        Appended(defects, Defect(InputMalformed, Form, InSource(Locator)));
        defects := defects + [Defect(InputMalformed, Form, InSource(Locator))];
      }
    } else if source != Null {
      Appended(defects, Malformed(PolicySource));
      defects := defects + [Malformed(PolicySource)];
    }
  }

  method MechanicsFormDefects(record: Record) returns (defects: seq<Defect>)
    ensures Members(defects) == MechanicsForm(record)
  {
    defects := [];
    if Get(record, LedgerSchemaVersion) != Int(1) {
      Appended(defects, Malformed(LedgerSchemaVersion));
      defects := defects + [Malformed(LedgerSchemaVersion)];
    }
    var triple := CollectFields(TRIPLE, f => !InItsDomain(record, f));
    MembersOfConcat(defects, triple);
    defects := defects + triple;
  }

  method BindingDomainDefects(record: Record, bound: Option<Bound>) returns (defects: seq<Defect>)
    ensures Members(defects) == BindingDomain(record, bound)
  {
    if bound.None? {
      return [];
    }
    defects := CollectFields(BINDING, f => Get(record, f) == Null);
    if Get(record, Iteration).Int? && record[Iteration].n < 1 {
      Appended(defects, Malformed(Iteration));
      defects := defects + [Malformed(Iteration)];
    }
  }

  method BindingIdentityDefects(record: Record, bound: Option<Bound>) returns (defects: seq<Defect>)
    ensures Members(defects) == BindingIdentity(record, bound)
  {
    defects := [];
    if bound.None? {
      return;
    }
    for i := 0 to |BINDING|
      invariant Members(defects)
                == set f | f in BINDING[..i] && NamesAnother(record, bound.value, f) :: Foreign(AtField(f))
    {
      assert BINDING[..i + 1] == BINDING[..i] + [BINDING[i]];
      if NamesAnother(record, bound.value, BINDING[i]) {
        Appended(defects, Foreign(AtField(BINDING[i])));
        defects := defects + [Foreign(AtField(BINDING[i]))];
      }
    }
    assert BINDING[..|BINDING|] == BINDING;
  }

  /** Identity first and alone; then everything the sweeps found; then the judgement. */
  method ClassifyGate(c: Contract, body: Option<Body>, role: DispatchRole,
                      bound: Option<Bound>) returns (defects: seq<Defect>)
    ensures Members(defects) == Classify(c, body, role, bound)
  {
    hide MechanicsForm, BindingDomain, BindingIdentity, FormDefects, ValidRecord, ValidIdentity;
    if body.None? {
      Appended([], Defect(InputMissing, Form, Settlement));
      return [] + [Defect(InputMissing, Form, Settlement)];
    }
    if !Legible(body.value) {
      Appended([], Illegible(body.value));
      return [] + [Illegible(body.value)];
    }
    var record := RecordOf(body.value);
    var mechanics := MechanicsFormDefects(record);
    var binding := BindingDomainDefects(record, bound);
    var identity := IdentityOf(record, role, bound);
    if identity != [] {
      assert identity[0] in Members(identity);
      return identity;
    }
    var sweep := CollectFormDefects(c, record);
    MembersOfConcat(mechanics, binding);
    MembersOfConcat(mechanics + binding, sweep);
    var form := mechanics + binding + sweep;
    if form != [] {
      assert form[0] in Members(form);
      return form;
    }
    assert Members(form) == {};
    if !ValidRecord(c, record) {
      Appended([], Defect(InputMalformed, Semantic, WholeRecord));
      return [] + [Defect(InputMalformed, Semantic, WholeRecord)];
    }
    if IsBlocking(record) {
      Appended([], Defect(BlockReason(record), Semantic, AtField(Field.State)));
      return [] + [Defect(BlockReason(record), Semantic, AtField(Field.State))];
    }
    return [];
  }

  method IdentityOf(record: Record, role: DispatchRole, bound: Option<Bound>) returns (defects: seq<Defect>)
    ensures Members(defects) == IdentityDefects(record, role, bound)
  {
    hide BindingIdentity, ValidIdentity, ClaimsAnother, Readable;
    if role.NoGateRole? {
      Appended([], Foreign(AtField(Role)));
      return [] + [Foreign(AtField(Role))];
    }
    defects := [];
    if ClaimsAnother(record, role) {
      Appended(defects, Foreign(IdentityTriple));
      defects := defects + [Foreign(IdentityTriple)];
    }
    var binding := BindingIdentityDefects(record, bound);
    MembersOfConcat(defects, binding);
    defects := defects + binding;
    if defects != [] {
      assert defects[0] in Members(defects);
      return;
    }
    assert Members(defects) == {};
    if Readable(record) && Boundary in record && Source in record && Role in record && !ValidIdentity(record) {
      Appended([], Foreign(IdentityTriple));
      return [] + [Foreign(IdentityTriple)];
    }
  }
}
