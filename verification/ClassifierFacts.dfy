/** What the classifier makes of a declaration, said of the fields of its record: which claims make it
    another dispatch's, which values are malformed, and what is left to judge. */
module ClassifierFacts {
  import opened Vocabulary
  import opened Sequences
  import opened Policy
  import opened Gate
  import opened Admission
  import opened Classifier

  // ---- a body that cannot be read as one declaration of one record ----

  ghost predicate OneLine(body: Body) {
    exists line :: body.declarations == [line]
  }

  ghost predicate OneRecord(body: Body) {
    exists record :: body.fences == [Parsed(Obj(record))]
  }

  /** No settlement, no declaration line or no record is missing; more than one, or one that is no
      state or no object, is malformed; a record of another state disagrees. All may be asked again. */
  lemma UnreadableIs(c: Contract, body: Body, role: DispatchRole, bound: Option<Bound>)
    ensures Classify(c, None, role, bound) == {Defect(InputMissing, Form, Settlement)}
    ensures
      var found := Classify(c, Some(body), role, bound);
      && (body.declarations == [] ==> found == {Defect(InputMissing, Form, DeclarationLine)})
      && (|body.declarations| > 1 ==> found == {Defect(InputMalformed, Form, DeclarationLine)})
      && (OneLine(body) && body.fences == [] ==> found == {Defect(InputMissing, Form, RecordFence)})
      && (OneLine(body) && body.fences != [] && !OneRecord(body) ==>
            found == {Defect(InputMalformed, Form, RecordFence)})
      && (OneLine(body) && OneRecord(body) ==>
            var line, record := body.declarations[0], body.fences[0].value.members;
            && (!line.StateName? ==> found == {Defect(InputMalformed, Form, DeclarationLine)})
            && (line.StateName? && Get(record, Field.State) != Str(line) ==>
                  found == {Defect(SummaryDisagrees, Form, AtField(Field.State))})
            && (line.StateName? && Get(record, Field.State) == Str(line) ==>
                  Legible(body) && RecordOf(body) == record))
      && (Legible(body) ==> OneLine(body) && OneRecord(body) && body.declarations[0].StateName?
                            && Get(body.fences[0].value.members, Field.State) == Str(body.declarations[0]))
  {
    hide IdentityDefects, MechanicsForm, BindingDomain, FormDefects, Judgement;
    if |body.declarations| == 1 {
      assert body.declarations == [body.declarations[0]];
    }
    if |body.fences| == 1 && body.fences[0].Parsed? && body.fences[0].value.Obj? {
      assert body.fences == [Parsed(Obj(body.fences[0].value.members))];
    }
  }

  // ---- whose record it claims to be ----

  /** What the schema knows of the three fields that say who wrote a record. */
  function Known(f: Field): set<Json> {
    if f == Boundary then {Str(B1), Str(B2), Str(B3)}
    else if f == Source then {Str(RunEntry), Str(Worker), Str(Reviewer)}
    else {Str(Coordinator), Str(Worker), Str(Reviewer)}
  }

  /** The agent's own values of these fields, whoever was dispatched as a reviewer. */
  function Own(role: DispatchRole, f: Field): Json {
    match role
    case WorkerRole => if f == Boundary then Str(B2) else Str(Worker)
    case _ => if f == Boundary then Str(B3) else Str(Reviewer)
  }

  const WRITERS: set<Field> := {Boundary, Source, Role}

  /** The three fields hold values the schema knows, where they are stated. */
  predicate WritersKnown(record: Record) {
    forall f :: f in WRITERS && f in record ==> record[f] in Known(f)
  }

  /** The record names a run, phase or iteration that is not its dispatch's. */
  predicate OfAnother(record: Record, bound: Option<Bound>, f: Field) {
    match bound
    case None => false
    case Some(Bound(run, spells, iteration)) =>
      || (f == Run && Get(record, Run).Str? && Get(record, Run) != Str(run))
      || (f == Field.Phase && Get(record, Field.Phase).Str? && !spells(record[Field.Phase].t))
      || (f == Iteration && Get(record, Iteration).Int? && record[Iteration].n > 0
          && Get(record, Iteration) != Int(iteration))
  }

  predicate AnyOfAnother(record: Record, bound: Option<Bound>) {
    OfAnother(record, bound, Run) || OfAnother(record, bound, Field.Phase) || OfAnother(record, bound, Iteration)
  }

  /** It claims another writer, or the three fields together are no writer's, or it verifies without
      being a Reviewer's. */
  predicate WriterIsAnother(record: Record, role: DispatchRole, bound: Option<Bound>) {
    && WritersKnown(record)
    && (|| (exists f :: f in WRITERS && f in record && record[f] != Own(role, f))
        || (!AnyOfAnother(record, bound) && WRITERS <= record.Keys && !IsIdentity(record)))
  }

  predicate IsForeignAt(record: Record, role: DispatchRole, bound: Option<Bound>, place: Place) {
    if role.NoGateRole? then place == AtField(Role)
    else match place
      case IdentityTriple => WriterIsAnother(record, role, bound)
      case AtField(f) => OfAnother(record, bound, f)
      case _ => false
  }

  lemma WritersIff(record: Record, role: DispatchRole)
    requires !role.NoGateRole?
    ensures Readable(record) <==> WritersKnown(record)
    ensures ClaimsAnother(record, role) <==>
              WritersKnown(record) && exists f :: f in WRITERS && f in record && record[f] != Own(role, f)
  {
    assert forall f :: f in TRIPLE <==> f in WRITERS;
    assert forall f :: f in WRITERS ==> DomainOf(f) == Known(f) && Expected(role, f) == Own(role, f);
    hide TRIPLE, WRITERS, DomainOf, Known, Expected, Own;
  }

  lemma BindingIff(record: Record, bound: Option<Bound>)
    ensures forall d :: d in BindingIdentity(record, bound) <==>
                        d.code == InputUnbound && d.kind == Lifecycle && d.place.AtField?
                        && OfAnother(record, bound, d.place.field)
    ensures BindingIdentity(record, bound) == {} <==> !AnyOfAnother(record, bound)
  {
    assert forall f :: f in BINDING <==> f in {Run, Field.Phase, Iteration};
    if bound.Some? {
      assert forall f :: OfAnother(record, bound, f) <==>
                         f in {Run, Field.Phase, Iteration} && NamesAnother(record, bound.value, f);
      hide BINDING, NamesAnother, OfAnother;
      assert OfAnother(record, bound, Run) ==> Foreign(AtField(Run)) in BindingIdentity(record, bound);
      assert OfAnother(record, bound, Field.Phase) ==> Foreign(AtField(Field.Phase)) in BindingIdentity(record, bound);
      assert OfAnother(record, bound, Iteration) ==> Foreign(AtField(Iteration)) in BindingIdentity(record, bound);
    }
  }

  lemma IdentityIs(record: Record, role: DispatchRole, bound: Option<Bound>)
    requires !role.NoGateRole?
    ensures IdentityDefects(record, role, bound)
            == (if WriterIsAnother(record, role, bound) then {Foreign(IdentityTriple)} else {})
               + BindingIdentity(record, bound)
  {
    WritersIff(record, role);
    IdentityIff(record);
    BindingIff(record, bound);
    WritersStated(record);
    hide Readable, ClaimsAnother, WritersKnown, BindingIdentity, ValidIdentity, IsIdentity, Own, WRITERS, AnyOfAnother,
         OfAnother, Foreign;
    var binding, triple := BindingIdentity(record, bound), {Foreign(IdentityTriple)};
    if ClaimsAnother(record, role) {
      assert Foreign(IdentityTriple) in triple + binding;
      assert IdentityDefects(record, role, bound) == triple + binding;
      assert WriterIsAnother(record, role, bound);
    } else if binding != {} {
      assert {} + binding == binding;
      assert IdentityDefects(record, role, bound) == binding;
      assert !WriterIsAnother(record, role, bound);
    } else {
      assert {} + binding == {} && triple + binding == triple;
    }
  }

  /** The identity defects are the foreign claims, each of its own. */
  lemma ForeignIff(record: Record, role: DispatchRole, bound: Option<Bound>)
    ensures forall d :: d in IdentityDefects(record, role, bound) <==>
                        d.code == InputUnbound && d.kind == Lifecycle && IsForeignAt(record, role, bound, d.place)
  {
    if !role.NoGateRole? {
      IdentityIs(record, role, bound);
      BindingIff(record, bound);
      hide WriterIsAnother, OfAnother, BindingIdentity, IdentityDefects, AnyOfAnother;
    }
  }

  lemma WritersStated(record: Record)
    ensures WRITERS <= record.Keys <==> Boundary in record && Source in record && Role in record
  {
  }

  // ---- which values are malformed ----

  const NEEDED: set<Field> := {
    Run, Field.Phase, Iteration, Field.State, Evidence, ResponsiblePhase, Role, Verdict, SourceBinding, RecordedAt}

  /** A value of the type its field has, where one is fixed. */
  predicate IsTyped(f: Field, v: Json) {
    if f in {LedgerSchemaVersion, Sequence, Iteration} then v.Int?
    else if f in {Run, Field.Phase, ResponsiblePhase, SourceBinding, RecordedAt, Verdict} then v.Str? || v.Key?
    else if f == Evidence then v.Obj?
    else if f == PriorOpenDecisionItems then v.List?
    else f == OpenDecisionItem ==> v.Bool?
  }

  /** An element of the contract the field governs rejects its value; every `citations` element governs
      the field `citations`. */
  ghost predicate IsStray(c: Contract, record: Record, f: Field) {
    exists e :: IsRejectedBy(c, record, f, e)
  }

  predicate IsRejectedBy(c: Contract, record: Record, f: Field, e: Field) {
    && e in c.elements && f == (if c.elements[e].kind.CitationList? then Citations else e)
    && f in record && !InDomain(c.elements[e], record[f])
  }

  /** The first reason that makes the field's value malformed is reported, once. */
  ghost predicate IsMalformed(c: Contract, record: Record, bound: Option<Bound>, f: Field) {
    var v := Get(record, f);
    || (f == LedgerSchemaVersion && v != Int(1))
    || (f in WRITERS && v !in Known(f))
    || (bound.Some? && f in {Run, Field.Phase, Iteration} && v == Null)
    || (bound.Some? && f == Iteration && v.Int? && v.n <= 0)
    || (f in record && IsOutside(f))
    || (f in NEEDED && v == Null)
    || (f in {ReasonCode, Assumption, OpenItem} && f !in record)
    || (v != Null && !IsTyped(f, v))
    || IsStray(c, record, f)
    || (f == PolicySource && v != Null && !v.Obj?)
  }

  /** The members of a policy source, checked when it is an object. */
  predicate IsBadMember(c: Contract, record: Record, member: Field) {
    && Get(record, PolicySource).Obj?
    && var v := Get(record[PolicySource].members, member);
    || (member == Kind && v != Null && v !in c.sourceKinds)
    || (member == Role && v != Null && v !in c.sourceRoles)
    || (member == Locator && (!v.Str? || IsEmpty(v)))
  }

  ghost predicate IsMalformedAt(c: Contract, record: Record, bound: Option<Bound>, place: Place) {
    match place
    case AtField(f) => IsMalformed(c, record, bound, f)
    case InSource(member) => IsBadMember(c, record, member)
    case _ => false
  }

  lemma KnownNotNull(f: Field)
    ensures f in WRITERS ==> Null !in Known(f)
  {
  }

  lemma MechanicsIff(record: Record)
    ensures forall f :: Malformed(f) in MechanicsForm(record) <==>
                        || (f == LedgerSchemaVersion && Get(record, f) != Int(1))
                        || (f in WRITERS && Get(record, f) !in Known(f))
    ensures forall d :: d in MechanicsForm(record) ==> d.place.AtField? && d == Malformed(d.place.field)
  {
    TripleIff(record);
    hide TRIPLE, WRITERS, InItsDomain, Known;
  }

  lemma TripleIff(record: Record)
    ensures forall f :: f in TRIPLE && !InItsDomain(record, f) <==> f in WRITERS && Get(record, f) !in Known(f)
  {
    forall f | f in WRITERS ensures InItsDomain(record, f) <==> Get(record, f) in Known(f) {
      KnownNotNull(f);
    }
    hide InItsDomain, Known;
  }

  lemma DomainIff(record: Record, bound: Option<Bound>)
    ensures forall f :: Malformed(f) in BindingDomain(record, bound) <==>
                        || (bound.Some? && f in {Run, Field.Phase, Iteration} && Get(record, f) == Null)
                        || (bound.Some? && f == Iteration && Get(record, f).Int? && record[f].n <= 0)
    ensures forall d :: d in BindingDomain(record, bound) ==> d.place.AtField? && d == Malformed(d.place.field)
  {
    assert forall f :: f in BINDING <==> f in {Run, Field.Phase, Iteration};
    hide BINDING;
  }

  lemma AbsentIff(record: Record, f: Field)
    ensures f in REQUIRED && Missing(record, f) <==>
              (f in NEEDED && Get(record, f) == Null) || (f in {ReasonCode, Assumption, OpenItem} && f !in record)
  {
    RequiredAre(f);
    hide REQUIRED, NEEDED;
  }

  lemma RequiredAre(f: Field)
    ensures f in REQUIRED <==> f in NEEDED || f in NULLABLE
    ensures f in NEEDED ==> f !in NULLABLE
  {
  }

  lemma TypedIff(record: Record, f: Field)
    ensures f in TYPED && Mistyped(record, f) <==> Get(record, f) != Null && !IsTyped(f, Get(record, f))
  {
    TypesAre(f, Get(record, f));
    hide TYPED, IsTyped, HasType, TypeOf;
  }

  lemma TypesAre(f: Field, v: Json)
    ensures f in TYPED ==> (HasType(v, TypeOf(f)) <==> IsTyped(f, v))
    ensures f !in TYPED ==> IsTyped(f, v)
  {
  }

  lemma RejectedOf(c: Contract, record: Record, e: Field)
    requires e in c.elements && OutOfDomain(c, record, e)
    ensures IsRejectedBy(c, record, Governed(c, e), e)
  {
    hide InDomain;
  }

  lemma RejectedIs(c: Contract, record: Record, f: Field, e: Field)
    requires IsRejectedBy(c, record, f, e)
    ensures e in c.elements && OutOfDomain(c, record, e) && Governed(c, e) == f
  {
    hide InDomain;
  }

  lemma FromStrays(c: Contract, record: Record, f: Field) returns (e: Field)
    requires Malformed(f) in Strays(c, record)
    ensures e in c.elements && OutOfDomain(c, record, e) && Governed(c, e) == f
  {
    hide OutOfDomain, Governed;
    e :| e in c.elements && OutOfDomain(c, record, e) && Malformed(Governed(c, e)) == Malformed(f);
  }

  lemma InStrays(c: Contract, record: Record, e: Field)
    requires e in c.elements && OutOfDomain(c, record, e)
    ensures Malformed(Governed(c, e)) in Strays(c, record)
  {
    hide OutOfDomain, Governed;
  }

  lemma StrayIff(c: Contract, record: Record, f: Field)
    ensures Malformed(f) in Strays(c, record) <==> IsStray(c, record, f)
  {
    hide OutOfDomain, Governed, IsRejectedBy, Strays, Malformed;
    if Malformed(f) in Strays(c, record) {
      var e := FromStrays(c, record, f);
      RejectedOf(c, record, e);
    }
    if e :| IsRejectedBy(c, record, f, e) {
      RejectedIs(c, record, f, e);
      InStrays(c, record, e);
    }
  }

  lemma SourceIff(c: Contract, record: Record)
    ensures forall d :: d in SourceDefects(c, record) <==>
                        && d.code == InputMalformed && d.kind == Form
                        && (|| (d.place == AtField(PolicySource)
                                && Get(record, PolicySource) != Null && !Get(record, PolicySource).Obj?)
                            || (d.place.InSource? && IsBadMember(c, record, d.place.member)))
  {
    hide IsEmpty;
  }

  lemma FieldSweepIff(c: Contract, record: Record, f: Field)
    ensures Malformed(f) in Extras(record) <==> f in record && IsOutside(f)
    ensures Malformed(f) in Absences(record) <==>
              (f in NEEDED && Get(record, f) == Null) || (f in {ReasonCode, Assumption, OpenItem} && f !in record)
    ensures Malformed(f) in Mistypings(record) <==> Get(record, f) != Null && !IsTyped(f, Get(record, f))
  {
    ClosedIff(f);
    AbsentIff(record, f);
    TypedIff(record, f);
    hide IsClosedField, IsOutside, Missing, Mistyped, IsTyped, REQUIRED, TYPED;
  }

  /** What the sweeps collect together. */
  ghost function Collected(c: Contract, record: Record, bound: Option<Bound>): set<Defect> {
    MechanicsForm(record) + BindingDomain(record, bound) + FormDefects(c, record)
  }

  lemma FieldMalformedIff(c: Contract, record: Record, bound: Option<Bound>, f: Field)
    ensures Malformed(f) in Collected(c, record, bound) <==> IsMalformed(c, record, bound, f)
  {
    MechanicsIff(record);
    DomainIff(record, bound);
    FieldSweepIff(c, record, f);
    StrayIff(c, record, f);
    SourceIff(c, record);
    hide MechanicsForm, BindingDomain, Extras, Absences, Mistypings, Strays, SourceDefects, IsStray, IsTyped, IsOutside,
         NEEDED, WRITERS, Known;
  }

  lemma AllAtFields(record: Record, bound: Option<Bound>, c: Contract)
    ensures forall d ::
              (d in Extras(record) || d in Absences(record) || d in Mistypings(record) || d in Strays(c, record))
              ==> d.place.AtField? && d == Malformed(d.place.field)
  {
    hide IsClosedField, Missing, Mistyped, OutOfDomain;
  }

  /** The form defects are exactly the malformed values, each reported at its place. */
  lemma MalformedIff(c: Contract, record: Record, bound: Option<Bound>)
    ensures forall d :: d in Collected(c, record, bound) <==>
                        d.code == InputMalformed && d.kind == Form && IsMalformedAt(c, record, bound, d.place)
  {
    MechanicsIff(record);
    DomainIff(record, bound);
    SourceIff(c, record);
    AllAtFields(record, bound, c);
    hide MechanicsForm, BindingDomain, Extras, Absences, Mistypings, Strays, SourceDefects, IsMalformed, IsBadMember;
    forall f ensures Malformed(f) in Collected(c, record, bound) <==> IsMalformed(c, record, bound, f) {
      FieldMalformedIff(c, record, bound, f);
    }
    forall d: Defect | d.place.AtField? ensures d in Collected(c, record, bound) ==> d == Malformed(d.place.field) {
    }
  }

  // ---- the classification ----

  /** A declaration that can be read is classified by its foreign claims when it makes any, and by
      nothing else; by its malformed values when it has any; and otherwise by the validator's
      judgement of it or the block it declares. Every such claim and value is reported. */
  lemma ReadableIs(c: Contract, body: Body, role: DispatchRole, bound: Option<Bound>)
    requires Legible(body)
    ensures
      var found := Classify(c, Some(body), role, bound);
      var record := RecordOf(body);
      if exists place :: IsForeignAt(record, role, bound, place) then
        forall d :: d in found <==>
          d.code == InputUnbound && d.kind == Lifecycle && IsForeignAt(record, role, bound, d.place)
      else if exists place :: IsMalformedAt(c, record, bound, place) then
        forall d :: d in found <==>
          d.code == InputMalformed && d.kind == Form && IsMalformedAt(c, record, bound, d.place)
      else if !ValidRecord(c, record) then found == {Defect(InputMalformed, Semantic, WholeRecord)}
      else if body.declarations[0].state in {NeedsInput, Conflict} then
        found == {Defect(Blocked(body.declarations[0].state, Get(record, ReasonCode)), Semantic, AtField(Field.State))}
      else found == {}
  {
    var record := RecordOf(body);
    NoneForeignIff(record, role, bound);
    NoneMalformedIff(c, record, bound);
    JudgementIs(c, body);
    hide IdentityDefects, IsForeignAt, IsMalformedAt, Collected, Judgement, RecordOf, Legible;
    StagedIs(c, body, role, bound);
    hide Classify;
  }

  lemma StagedIs(c: Contract, body: Body, role: DispatchRole, bound: Option<Bound>)
    requires Legible(body)
    ensures
      var record := RecordOf(body);
      Classify(c, Some(body), role, bound)
      == if IdentityDefects(record, role, bound) != {} then IdentityDefects(record, role, bound)
         else if Collected(c, record, bound) != {} then Collected(c, record, bound)
         else Judgement(c, record)
  {
    hide IdentityDefects, MechanicsForm, BindingDomain, FormDefects, Judgement;
  }

  lemma NoneForeignIff(record: Record, role: DispatchRole, bound: Option<Bound>)
    ensures
      var claims := IdentityDefects(record, role, bound);
      && (claims != {} <==> exists place :: IsForeignAt(record, role, bound, place))
      && (forall d :: d in claims <==>
            d.code == InputUnbound && d.kind == Lifecycle && IsForeignAt(record, role, bound, d.place))
  {
    ForeignIff(record, role, bound);
    hide IdentityDefects, IsForeignAt;
    if place :| IsForeignAt(record, role, bound, place) {
      assert Defect(InputUnbound, Lifecycle, place) in IdentityDefects(record, role, bound);
    }
  }

  lemma NoneMalformedIff(c: Contract, record: Record, bound: Option<Bound>)
    ensures
      var form := Collected(c, record, bound);
      && (form != {} <==> exists place :: IsMalformedAt(c, record, bound, place))
      && (forall d :: d in form <==>
            d.code == InputMalformed && d.kind == Form && IsMalformedAt(c, record, bound, d.place))
  {
    MalformedIff(c, record, bound);
    hide Collected, IsMalformedAt;
    if place :| IsMalformedAt(c, record, bound, place) {
      assert Defect(InputMalformed, Form, place) in Collected(c, record, bound);
    }
  }

  lemma JudgementIs(c: Contract, body: Body)
    requires Legible(body)
    ensures
      var record := RecordOf(body);
      var s := body.declarations[0].state;
      Judgement(c, record)
      == if !ValidRecord(c, record) then {Defect(InputMalformed, Semantic, WholeRecord)}
         else if s in {NeedsInput, Conflict} then
           {Defect(Blocked(s, Get(record, ReasonCode)), Semantic, AtField(Field.State))}
         else {}
  {
    hide ValidRecord;
  }
}
