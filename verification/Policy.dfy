/** The decision contract's evaluator: which states a set of declared facts permits, and which
    decision records it accepts (scripts/decision_policy.py). */
module Policy {
  import opened Vocabulary

  datatype Kind = Enum | Boolean | Declared | CitationList | Authority | OtherKind

  datatype Trigger =
    | Never | WhenBool(b: bool) | AtMinimum(minimum: int) | WhenOneOf(values: seq<Json>) | WhenEqual(value: Json)

  datatype Element = Element(kind: Kind, values: seq<Json>, trigger: Trigger)

  datatype Predicate =
    | NoOpenDecisionItem | DeterminingPolicySource | ExplicitUserAuthorization
    | ReversibleWithinRun | AllSafetyFactsDeclared | BlastRadiusWithinScope
    | NoHighImpactElement | SupportingPolicySource | NoReservedUserAuthority
    | UndeterminedBoundaryElement | AbsentUserIntent | UnclassifiableItem
    | DeclaredContradiction

  datatype Condition = AnyOf(predicates: seq<Predicate>) | AllOf(predicates: seq<Predicate>)

  datatype Rule = Allowed | Forbidden | RequiresUserDecision | RequiresRetraction

  datatype Code = Code(state: State, clause: Option<Text>, element: Option<Field>, evidence: seq<Field>)

  datatype Contract = Contract(
    reasonCodeRequired: State -> bool,
    transition: (State, State) -> Rule,
    clauses: map<State, set<Text>>,
    clausePredicates: map<Text, Predicate>,
    codes: map<Text, Code>,
    elements: map<Field, Element>,
    entry: State -> Condition,
    cannotResolve: set<Field>,
    sourceRoles: set<Json>,
    sourceKinds: set<Json>,
    evidence: State -> seq<Field>,
    assumptionRole: Json,
    safetyFacts: seq<Field>,
    absentAuthorityIsReserved: bool,
    forbiddenReversibility: seq<Json>,
    forbiddenBlastRadius: seq<Json>,
    forbiddenWhenTrue: seq<Field>,
    forbiddenWhenReserved: bool,
    userDecisionFields: seq<Field>,
    userDecisionSources: set<Json>,
    citationMinimum: int)

  /** What loading a contract establishes about its reason codes and clauses. */
  ghost predicate WellFormed(c: Contract) {
    && (forall name :: name in c.codes ==>
          var code := c.codes[name];
          && (code.clause.Some? <==> code.state in c.clauses)
          && (code.clause.Some? ==> code.clause.value in c.clauses[code.state])
          && (code.element.Some? ==> code.element.value in c.elements))
    && (forall state :: state in c.clauses ==> c.clauses[state] <= c.clausePredicates.Keys)
  }

  function ConflictClauses(c: Contract): set<Text> {
    if Conflict in c.clauses then c.clauses[Conflict] else {}
  }

  // ---- declared values ----

  predicate IsEmpty(v: Json) {
    match v
    case Null => true
    case Str(t) => t.IsBlank()
    case List(items) => items == []
    case Obj(members) => members == map[]
    case _ => false
  }

  /** A declared value lies in the domain its element's kind defines. */
  predicate InDomain(e: Element, v: Json) {
    match e.kind
    case Enum => v in e.values
    case Boolean => v.Bool?
    case Declared => v.Bool?
    case CitationList => v.List?
    case Authority => e.trigger.WhenOneOf? ==> v in e.trigger.values
    case OtherKind => true
  }

  /** A declared value makes its element true. */
  predicate Fires(e: Element, v: Json) {
    match e.trigger
    case Never => false
    case WhenBool(b) => v == Bool(b)
    case AtMinimum(minimum) => v.List? && |v.items| >= minimum
    case WhenOneOf(values) => v in values
    case WhenEqual(value) => v == value
  }

  function SourceRole(facts: Record): Json {
    if Get(facts, PolicySourceRole) != Null then facts[PolicySourceRole]
    else if Get(facts, PolicySource).Obj? then Get(facts[PolicySource].members, Role)
    else Null
  }

  predicate ProvesUserDecision(c: Contract, v: Json) {
    && v.Obj? && v.members != map[]
    && (forall f :: f in c.userDecisionFields ==>
          f in v.members && v.members[f].Str? && !IsEmpty(v.members[f]))
    && Get(v.members, Source) in c.userDecisionSources
  }

  predicate AssumptionForbidden(c: Contract, facts: Record) {
    || Get(facts, Reversibility) in c.forbiddenReversibility
    || (Get(facts, Reversibility) == Str(Irreversible) && Get(facts, BlastRadius) in c.forbiddenBlastRadius)
    || (exists f :: f in c.forbiddenWhenTrue && Get(facts, f) == Bool(true))
    || (c.forbiddenWhenReserved && Get(facts, ExplicitUserAuthority) == Str(Reserved))
  }

  predicate SafetyFactsDeclared(c: Contract, facts: Record) {
    forall f :: f in c.safetyFacts ==> f in facts
  }

  /** The facts pass every closed-set and domain check the contract declares. */
  predicate ValidFacts(c: Contract, facts: Record) {
    && (forall e :: e in c.elements && e in facts ==> InDomain(c.elements[e], facts[e]))
    && (Get(facts, ConflictClause) == Null
        || (facts[ConflictClause].Str? && facts[ConflictClause].t in ConflictClauses(c)))
    && (Get(facts, PolicySource).Obj? ==> ValidSource(c, facts[PolicySource].members))
    && (SourceRole(facts) == Null || SourceRole(facts) in c.sourceRoles)
  }

  predicate ValidSource(c: Contract, source: Record) {
    && (Get(source, Kind) == Null || source[Kind] in c.sourceKinds)
    && Get(source, Locator).Str? && !IsEmpty(source[Locator])
  }

  // ---- entry conditions ----

  predicate Triggered(c: Contract, facts: Record) {
    exists e :: e in c.elements && e in facts && Fires(c.elements[e], facts[e])
  }

  predicate Contradicts(c: Contract, facts: Record) {
    Get(facts, ConflictClause).Str? && facts[ConflictClause].t in ConflictClauses(c)
  }

  /** A policy source can neither un-reserve authority nor arbitrate two requirements. */
  predicate UnresolvableByPolicy(c: Contract, facts: Record) {
    || (ExplicitUserAuthority in c.cannotResolve && Get(facts, ExplicitUserAuthority) == Str(Reserved))
    || (ExplicitRequirementConflict in c.cannotResolve && Contradicts(c, facts))
  }

  predicate Authorized(c: Contract, facts: Record) {
    ProvesUserDecision(c, Get(facts, UserDecision))
  }

  predicate Holds(p: Predicate, c: Contract, facts: Record) {
    match p
    case NoOpenDecisionItem =>
      Get(facts, OpenDecisionItem) == Bool(false) && !Triggered(c, facts) && !Contradicts(c, facts)
    case DeterminingPolicySource =>
      SourceRole(facts) == Str(Determines) && (Authorized(c, facts) || !UnresolvableByPolicy(c, facts))
    case ExplicitUserAuthorization => Authorized(c, facts)
    case ReversibleWithinRun => Get(facts, Reversibility) == Str(ReversibleInRun)
    case AllSafetyFactsDeclared => SafetyFactsDeclared(c, facts)
    case BlastRadiusWithinScope =>
      !(BlastRadius in c.elements && c.elements[BlastRadius].trigger.WhenOneOf?
        && Get(facts, BlastRadius) in c.elements[BlastRadius].trigger.values)
    case NoHighImpactElement => !AssumptionForbidden(c, facts)
    case SupportingPolicySource => SourceRole(facts) == Str(Supports)
    case NoReservedUserAuthority =>
      if ExplicitUserAuthority in facts then facts[ExplicitUserAuthority] != Str(Reserved)
      else !c.absentAuthorityIsReserved
    case UndeterminedBoundaryElement =>
      && Triggered(c, facts)
      && !(SourceRole(facts) == Str(Determines) && !UnresolvableByPolicy(c, facts))
      && !Authorized(c, facts)
    case AbsentUserIntent => Get(facts, UserIntentAbsent) == Bool(true)
    case UnclassifiableItem => Get(facts, Unclassifiable) == Bool(true)
    case DeclaredContradiction => Contradicts(c, facts) && !Authorized(c, facts)
  }

  predicate Enterable(c: Contract, s: State, facts: Record) {
    match c.entry(s)
    case AnyOf(predicates) => exists p :: p in predicates && Holds(p, c, facts)
    case AllOf(predicates) => forall p :: p in predicates ==> Holds(p, c, facts)
  }

  /** The states the contract permits for these facts; None where the evaluator raises. */
  function PermittedStates(c: Contract, facts: Record): Option<set<State>> {
    if ValidFacts(c, facts)
    then Some(set s: State | Enterable(c, s, facts))
    else None
  }

  // ---- records ----

  function CodeOf(c: Contract, record: Record): Option<Code> {
    var name := Get(record, ReasonCode);
    if name.Str? && name.t in c.codes then Some(c.codes[name.t]) else None
  }

  /** The facts a record asserts, with what its reason code declares made explicit. */
  function FactsOf(c: Contract, code: Option<Code>, record: Record): Record {
    if code.None? then record else
    var f1 :=
      if code.value.element.Some? && code.value.element.value in c.elements
         && c.elements[code.value.element.value].kind == Declared
         && code.value.element.value !in record
      then record[code.value.element.value := Bool(true)] else record;
    if code.value.state == Conflict && code.value.clause.Some? && ConflictClause !in f1
    then f1[ConflictClause := Str(code.value.clause.value)] else f1
  }

  function RecordFacts(c: Contract, record: Record): Record {
    FactsOf(c, CodeOf(c, record), record)
  }

  predicate DeclaresGrounds(record: Record) {
    PolicySource in record || UserDecision in record || OpenDecisionItem in record
  }

  /** The declared evidence justifies the state the record claims. */
  predicate Grounded(c: Contract, s: State, code: Option<Code>, record: Record) {
    if s == Clear then
      DeclaresGrounds(record) ==> Enterable(c, Clear, record)
    else if code.None? then true
    else
      var facts := FactsOf(c, code, record);
      && (s == NeedsInput && code.value.element.Some? ==> ElementFires(c, code.value.element.value, record))
      && (s == Conflict && code.value.clause.Some? ==>
            Get(record, ConflictClause) == Null || record[ConflictClause] == Str(code.value.clause.value))
      && (code.value.clause.Some? ==>
            && code.value.clause.value in c.clausePredicates
            && Holds(c.clausePredicates[code.value.clause.value], c, facts))
  }

  /** The element a pause rests on fired; a `declared` element fires by being named. */
  predicate ElementFires(c: Contract, element: Field, record: Record) {
    element in c.elements &&
    if c.elements[element].kind == Declared
    then element in record ==> Fires(c.elements[element], record[element])
    else element in record && Fires(c.elements[element], record[element])
  }

  predicate ReasonCodeMatches(c: Contract, s: State, record: Record) {
    if c.reasonCodeRequired(s)
    then CodeOf(c, record).Some? && CodeOf(c, record).value.state == s
    else Get(record, ReasonCode) == Null
  }

  /** The code a record of state `s` rests on: none when the state requires none. */
  function Resting(c: Contract, s: State, record: Record): Option<Code> {
    if c.reasonCodeRequired(s) then CodeOf(c, record) else None
  }

  predicate NamesItsElement(code: Option<Code>, record: Record) {
    code.Some? ==>
      if code.value.element.Some? then Get(record, BoundaryElement) == Str(FieldName(code.value.element.value))
      else BoundaryElement in code.value.evidence || Get(record, BoundaryElement) == Null
  }

  predicate CarriesEvidence(required: seq<Field>, record: Record) {
    forall f :: f in required && f != ReasonCode ==> f in record && !IsEmpty(record[f])
  }

  predicate EnoughCitations(c: Contract, record: Record) {
    var cited := Get(record, Citations);
    && (cited.List? || IsEmpty(cited))
    && (if cited.List? then |cited.items| else 0) >= c.citationMinimum
    && (cited.List? ==> forall v :: v in cited.items ==> v.Str? && !IsEmpty(v))
  }

  predicate AssumptionJustified(c: Contract, record: Record) {
    var source := Get(record, PolicySource);
    && (source.Obj? || IsEmpty(source))
    && (if source.Obj? then Get(source.members, Role) else Null) == c.assumptionRole
    && !AssumptionForbidden(c, record)
    && Enterable(c, AssumptionAllowed, record)
    && SafetyFactsDeclared(c, record)
  }

  predicate ValidRecord(c: Contract, record: Record) {
    && Get(record, Field.State).Str? && record[Field.State].t.StateName?
    && var s := record[Field.State].t.state;
    && ReasonCodeMatches(c, s, record)
    && var code := Resting(c, s, record);
    && NamesItsElement(code, record)
    && CarriesEvidence(if code.Some? then code.value.evidence else c.evidence(s), record)
    && ValidFacts(c, record)
    && (s == Conflict ==> EnoughCitations(c, record))
    && (s == AssumptionAllowed ==> AssumptionJustified(c, record))
    && Grounded(c, s, code, record)
  }

  predicate ValidTransition(c: Contract, source: State, target: State, record: Record) {
    match c.transition(source, target)
    case Allowed => true
    case Forbidden => false
    case RequiresUserDecision => ProvesUserDecision(c, Get(record, UserDecision))
    case RequiresRetraction => !IsEmpty(Get(record, Retraction))
  }
}
