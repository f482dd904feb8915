/** The schema closure `tbox_closure`: the nine statements that rebuild it, and what its rows
    mean (reason.rs). Every statement works on all scopes at once; a row of scope k depends on
    the axioms of scope k only. */
module Closure {
  import opened Ids
  import opened Registry
  import opened Walks

  datatype Kind =
    | Class | Property | OwlSame | OwlInverse | Transitive
    | SubjectType | ObjectType | OwlSubjectType | OwlObjectType

  /** One row of `tbox_closure`. */
  datatype TboxRow = TboxRow(kind: Kind, scope: Id, sub: Id, sup: Id)

  // ------------------------------------------------------------------ the statements

  /** The axioms with one of these predicates as edges of one bit, turned round when swapped. */
  function EdgesFrom(axioms: set<Axiom>, predicates: set<Id>, swap: bool, inv: bool): set<Edge> {
    set x | x in axioms && x.p in predicates
      :: if swap then Edge(x.scope, x.o, x.s, inv) else Edge(x.scope, x.s, x.o, inv)
  }

  function SymmetricEdges(axioms: set<Axiom>): set<Edge> {
    set x | x in axioms && x.p == TYPE && x.o == SYMMETRIC :: Edge(x.scope, x.s, x.s, true)
  }

  function ClassEdges(axioms: set<Axiom>): set<Edge> {
    EdgesFrom(axioms, {SUB_CLASS_OF, EQUIVALENT_CLASS}, false, false)
    + EdgesFrom(axioms, {EQUIVALENT_CLASS}, true, false)
  }

  function PropertyEdges(axioms: set<Axiom>): set<Edge> {
    EdgesFrom(axioms, {SUB_PROPERTY_OF, EQUIVALENT_PROPERTY}, false, false)
    + EdgesFrom(axioms, {EQUIVALENT_PROPERTY}, true, false)
  }

  /** An axiom between properties as an edge; its bit is 1 when subject and object change places. */
  function OwlEdges(axioms: set<Axiom>): set<Edge> {
    PropertyEdges(axioms)
    + EdgesFrom(axioms, {INVERSE_OF}, false, true)
    + EdgesFrom(axioms, {INVERSE_OF}, true, true)
    + SymmetricEdges(axioms)
  }

  function ClosureRows(kind: Kind, edges: set<Edge>): set<TboxRow> {
    set c | c in Compose(edges) && c.a != c.b :: TboxRow(kind, c.scope, c.a, c.b)
  }

  function OwlRows(axioms: set<Axiom>): set<TboxRow> {
    set c | c in Compose(OwlEdges(axioms)) && (c.inv || c.a != c.b)
      :: TboxRow(if c.inv then OwlInverse else OwlSame, c.scope, c.a, c.b)
  }

  function TransitiveRows(axioms: set<Axiom>): set<TboxRow> {
    set x | x in axioms && x.p == TYPE && x.o == TRANSITIVE :: TboxRow(Transitive, x.scope, x.s, x.s)
  }

  /** A pair of one scope. */
  datatype Link = Link(scope: Id, a: Id, b: Id)

  function DomainsAndRanges(axioms: set<Axiom>): set<Axiom> {
    set x | x in axioms && x.p in {DOMAIN, RANGE}
  }

  /** Rows of a kind, as pairs. */
  function RowsOf(tbox: set<TboxRow>, kind: Kind): set<Link> {
    set r | r in tbox && r.kind == kind :: Link(r.scope, r.sub, r.sup)
  }

  /** The superclasses of domain and range classes, themselves included. */
  function Classes(axioms: set<Axiom>, tbox: set<TboxRow>): set<Link> {
    (set x | x in DomainsAndRanges(axioms) :: Link(x.scope, x.o, x.o)) + RowsOf(tbox, Class)
  }

  /** The super-properties of each property, properties with a domain or range included. */
  function Subs(axioms: set<Axiom>, tbox: set<TboxRow>, kind: Kind): set<Link> {
    (set x | x in DomainsAndRanges(axioms) :: Link(x.scope, x.s, x.s)) + RowsOf(tbox, kind)
  }

  /** `typed` and `inverse_typed`: the classes that `predicate` axioms give to `properties`. */
  function Typed(kind: Kind, properties: set<Link>, axioms: set<Axiom>, constraint: Id,
      classes: set<Link>): set<TboxRow> {
    set p, x, c | p in properties && x in axioms && c in classes
                  && x.p == constraint && x.s == p.b && x.scope == p.scope && c.a == x.o && c.scope == p.scope
      :: TboxRow(kind, p.scope, p.a, c.b)
  }

  datatype ClosureStep =
    | ClearClosure | AddClasses | AddProperties | AddOwl | AddTransitive
    | AddSubjects | AddObjects | AddOwlSubjects | AddOwlObjects

  /** The rows a typing statement inserts, given the rows there are. */
  function TypingOf(step: ClosureStep, axioms: set<Axiom>, tbox: set<TboxRow>): set<TboxRow> {
    match step
    case AddSubjects => Typed(SubjectType, Subs(axioms, tbox, Property), axioms, DOMAIN, Classes(axioms, tbox))
    case AddObjects => Typed(ObjectType, Subs(axioms, tbox, Property), axioms, RANGE, Classes(axioms, tbox))
    case AddOwlSubjects =>
      Typed(OwlSubjectType, Subs(axioms, tbox, OwlSame), axioms, DOMAIN, Classes(axioms, tbox))
      + Typed(OwlSubjectType, RowsOf(tbox, OwlInverse), axioms, RANGE, Classes(axioms, tbox))
    case AddOwlObjects =>
      Typed(OwlObjectType, Subs(axioms, tbox, OwlSame), axioms, RANGE, Classes(axioms, tbox))
      + Typed(OwlObjectType, RowsOf(tbox, OwlInverse), axioms, DOMAIN, Classes(axioms, tbox))
    case _ => {}
  }

  /** What one statement makes of `tbox_closure`; later statements read earlier rows. */
  function ApplyStep(step: ClosureStep, axioms: set<Axiom>, tbox: set<TboxRow>): set<TboxRow> {
    match step
    case ClearClosure => {}
    case AddClasses => tbox + ClosureRows(Class, ClassEdges(axioms))
    case AddProperties => tbox + ClosureRows(Property, PropertyEdges(axioms))
    case AddOwl => tbox + OwlRows(axioms)
    case AddTransitive => tbox + TransitiveRows(axioms)
    case _ => tbox + TypingOf(step, axioms, tbox)
  }

  /** `closure_statements`, in order. */
  const CLOSURE_STEPS := [
    ClearClosure, AddClasses, AddProperties, AddOwl, AddTransitive,
    AddSubjects, AddObjects, AddOwlSubjects, AddOwlObjects
  ]

  function ApplySteps(steps: seq<ClosureStep>, axioms: set<Axiom>, tbox: set<TboxRow>): set<TboxRow> {
    if steps == [] then tbox else ApplySteps(steps[1..], axioms, ApplyStep(steps[0], axioms, tbox))
  }

  /** The closure recomputed from the quads. */
  function Recomputed(quads: set<Quad>): set<TboxRow> {
    ApplySteps(CLOSURE_STEPS, OntologyAxioms(quads), {})
  }

  // ------------------------------------------------------------------ the reference reading

  function AxiomsIn(axioms: set<Axiom>, scope: Id): set<Triple> {
    set x | x in axioms && x.scope == scope :: Triple(x.s, x.p, x.o)
  }

  function ArcsFrom(axioms: set<Triple>, predicates: set<Id>, swap: bool, inv: bool): set<Arc> {
    set x | x in axioms && x.p in predicates :: if swap then Arc(x.o, x.s, inv) else Arc(x.s, x.o, inv)
  }

  function SymmetricArcs(axioms: set<Triple>): set<Arc> {
    set x | x in axioms && x.p == TYPE && x.o == SYMMETRIC :: Arc(x.s, x.s, true)
  }

  /** One arc per subclass axiom, two per class equivalence. */
  function ClassArcs(axioms: set<Triple>): set<Arc> {
    ArcsFrom(axioms, {SUB_CLASS_OF, EQUIVALENT_CLASS}, false, false)
    + ArcsFrom(axioms, {EQUIVALENT_CLASS}, true, false)
  }

  function PropertyArcs(axioms: set<Triple>): set<Arc> {
    ArcsFrom(axioms, {SUB_PROPERTY_OF, EQUIVALENT_PROPERTY}, false, false)
    + ArcsFrom(axioms, {EQUIVALENT_PROPERTY}, true, false)
  }

  /** Property arcs, and inverse arcs for inverse and symmetric properties. */
  function OwlArcs(axioms: set<Triple>): set<Arc> {
    PropertyArcs(axioms)
    + ArcsFrom(axioms, {INVERSE_OF}, false, true)
    + ArcsFrom(axioms, {INVERSE_OF}, true, true)
    + SymmetricArcs(axioms)
  }

  /** `a` is `b`, or an even walk leads from `a` to `b`. */
  ghost predicate Reaches(arcs: set<Arc>, a: Id, b: Id) {
    a == b || Linked(arcs, a, b, false)
  }

  /** Some axiom `constraint` on `property` names a class at or below `class_`. */
  ghost predicate Gives(axioms: set<Triple>, property: Id, constraint: Id, class_: Id) {
    exists x :: x in axioms && x.p == constraint && x.s == property && Reaches(ClassArcs(axioms), x.o, class_)
  }

  /** What a closure row (kind, sub, sup) says about a set of axioms. */
  ghost predicate Entails(axioms: set<Triple>, kind: Kind, sub: Id, sup: Id) {
    match kind
    case Class => sub != sup && Linked(ClassArcs(axioms), sub, sup, false)
    case Property => sub != sup && Linked(PropertyArcs(axioms), sub, sup, false)
    case OwlSame => sub != sup && Linked(OwlArcs(axioms), sub, sup, false)
    case OwlInverse => Linked(OwlArcs(axioms), sub, sup, true)
    case Transitive => sub == sup && Triple(sub, TYPE, TRANSITIVE) in axioms
    case SubjectType => exists q :: Reaches(PropertyArcs(axioms), sub, q) && Gives(axioms, q, DOMAIN, sup)
    case ObjectType => exists q :: Reaches(PropertyArcs(axioms), sub, q) && Gives(axioms, q, RANGE, sup)
    case OwlSubjectType =>
      || (exists q :: Reaches(OwlArcs(axioms), sub, q) && Gives(axioms, q, DOMAIN, sup))
      || (exists q :: Linked(OwlArcs(axioms), sub, q, true) && Gives(axioms, q, RANGE, sup))
    case OwlObjectType =>
      || (exists q :: Reaches(OwlArcs(axioms), sub, q) && Gives(axioms, q, RANGE, sup))
      || (exists q :: Linked(OwlArcs(axioms), sub, q, true) && Gives(axioms, q, DOMAIN, sup))
  }

  // ------------------------------------------------------------------ rows are entailments

  /** The arcs of a scope are the arcs of its axioms. */
  lemma ArcsAreEdges(axioms: set<Axiom>, k: Id)
    ensures ArcsOf(ClassEdges(axioms), k) == ClassArcs(AxiomsIn(axioms, k))
    ensures ArcsOf(PropertyEdges(axioms), k) == PropertyArcs(AxiomsIn(axioms, k))
    ensures ArcsOf(OwlEdges(axioms), k) == OwlArcs(AxiomsIn(axioms, k))
  {
    var here := AxiomsIn(axioms, k);
    ArcsFromEdges(axioms, {SUB_CLASS_OF, EQUIVALENT_CLASS}, false, false, k);
    ArcsFromEdges(axioms, {EQUIVALENT_CLASS}, true, false, k);
    ArcsFromEdges(axioms, {SUB_PROPERTY_OF, EQUIVALENT_PROPERTY}, false, false, k);
    ArcsFromEdges(axioms, {EQUIVALENT_PROPERTY}, true, false, k);
    ArcsFromEdges(axioms, {INVERSE_OF}, false, true, k);
    ArcsFromEdges(axioms, {INVERSE_OF}, true, true, k);
    SymmetricArcsAreEdges(axioms, k);
    ArcsOfUnion(EdgesFrom(axioms, {SUB_CLASS_OF, EQUIVALENT_CLASS}, false, false),
                EdgesFrom(axioms, {EQUIVALENT_CLASS}, true, false), k);
    ArcsOfUnion(EdgesFrom(axioms, {SUB_PROPERTY_OF, EQUIVALENT_PROPERTY}, false, false),
                EdgesFrom(axioms, {EQUIVALENT_PROPERTY}, true, false), k);
    var one := PropertyEdges(axioms) + EdgesFrom(axioms, {INVERSE_OF}, false, true);
    var two := one + EdgesFrom(axioms, {INVERSE_OF}, true, true);
    ArcsOfUnion(PropertyEdges(axioms), EdgesFrom(axioms, {INVERSE_OF}, false, true), k);
    ArcsOfUnion(one, EdgesFrom(axioms, {INVERSE_OF}, true, true), k);
    ArcsOfUnion(two, SymmetricEdges(axioms), k);
  }

  lemma ArcsOfUnion(x: set<Edge>, y: set<Edge>, k: Id)
    ensures ArcsOf(x + y, k) == ArcsOf(x, k) + ArcsOf(y, k)
  {
  }

  lemma ArcsFromEdges(axioms: set<Axiom>, predicates: set<Id>, swap: bool, inv: bool, k: Id)
    ensures ArcsOf(EdgesFrom(axioms, predicates, swap, inv), k) == ArcsFrom(AxiomsIn(axioms, k), predicates, swap, inv)
  {
    var edges, here := EdgesFrom(axioms, predicates, swap, inv), AxiomsIn(axioms, k);
    forall r | r in ArcsFrom(here, predicates, swap, inv)
      ensures r in ArcsOf(edges, k)
    {
      var t :| t in here && t.p in predicates && r == if swap then Arc(t.o, t.s, inv) else Arc(t.s, t.o, inv);
      var x :| x in axioms && x.scope == k && t == Triple(x.s, x.p, x.o);
      var e := if swap then Edge(x.scope, x.o, x.s, inv) else Edge(x.scope, x.s, x.o, inv);
      assert e in edges;
    }
    forall r | r in ArcsOf(edges, k)
      ensures r in ArcsFrom(here, predicates, swap, inv)
    {
      var e :| e in edges && e.scope == k && r == Arc(e.a, e.b, e.inv);
      var x :| x in axioms && x.p in predicates
               && e == if swap then Edge(x.scope, x.o, x.s, inv) else Edge(x.scope, x.s, x.o, inv);
      assert Triple(x.s, x.p, x.o) in here;
    }
  }

  lemma SymmetricArcsAreEdges(axioms: set<Axiom>, k: Id)
    ensures ArcsOf(SymmetricEdges(axioms), k) == SymmetricArcs(AxiomsIn(axioms, k))
  {
    forall r | r in SymmetricArcs(AxiomsIn(axioms, k))
      ensures r in ArcsOf(SymmetricEdges(axioms), k)
    {
      var t :| t in AxiomsIn(axioms, k) && t.p == TYPE && t.o == SYMMETRIC && r == Arc(t.s, t.s, true);
      var x :| x in axioms && x.scope == k && t == Triple(x.s, x.p, x.o);
      assert Edge(k, x.s, x.s, true) in SymmetricEdges(axioms);
    }
    forall r | r in ArcsOf(SymmetricEdges(axioms), k)
      ensures r in SymmetricArcs(AxiomsIn(axioms, k))
    {
      var e :| e in SymmetricEdges(axioms) && e.scope == k && r == Arc(e.a, e.b, e.inv);
      var x :| x in axioms && x.p == TYPE && x.o == SYMMETRIC && e == Edge(x.scope, x.s, x.s, true);
      assert Triple(x.s, x.p, x.o) in AxiomsIn(axioms, k);
    }
  }

  /** The rows of the first four inserts, which the typing inserts read. */
  function SchemaRows(axioms: set<Axiom>): set<TboxRow> {
    ClosureRows(Class, ClassEdges(axioms)) + ClosureRows(Property, PropertyEdges(axioms)) + OwlRows(axioms)
      + TransitiveRows(axioms)
  }

  predicate IsTyping(step: ClosureStep) {
    step.AddSubjects? || step.AddObjects? || step.AddOwlSubjects? || step.AddOwlObjects?
  }

  function TypingRows(axioms: set<Axiom>, step: ClosureStep): set<TboxRow> {
    TypingOf(step, axioms, SchemaRows(axioms))
  }

  predicate IsTypingKind(kind: Kind) {
    kind.SubjectType? || kind.ObjectType? || kind.OwlSubjectType? || kind.OwlObjectType?
  }

  /** The table holds the schema rows and, beyond them, typing rows only. */
  predicate HasSchemaRows(tbox: set<TboxRow>, axioms: set<Axiom>) {
    && SchemaRows(axioms) <= tbox
    && forall r | r in tbox && r !in SchemaRows(axioms) :: IsTypingKind(r.kind)
  }

  lemma TypingLeavesSchemaKinds(tbox: set<TboxRow>, axioms: set<Axiom>, kind: Kind)
    requires HasSchemaRows(tbox, axioms) && !IsTypingKind(kind)
    ensures RowsOf(tbox, kind) == RowsOf(SchemaRows(axioms), kind)
  {
  }

  /** A typing statement adds the same rows whichever typing statements ran before it. */
  lemma TypingStep(step: ClosureStep, axioms: set<Axiom>, tbox: set<TboxRow>)
    requires HasSchemaRows(tbox, axioms) && IsTyping(step)
    ensures ApplyStep(step, axioms, tbox) == tbox + TypingRows(axioms, step)
    ensures HasSchemaRows(ApplyStep(step, axioms, tbox), axioms)
  {
    hide TypingOf, SchemaRows, HasSchemaRows;
    TypingReads(step, axioms, tbox);
    TypingKinds(step, axioms, SchemaRows(axioms));
    MoreTyping(tbox, axioms, TypingRows(axioms, step));
  }

  lemma MoreTyping(tbox: set<TboxRow>, axioms: set<Axiom>, more: set<TboxRow>)
    requires HasSchemaRows(tbox, axioms)
    requires forall r | r in more :: IsTypingKind(r.kind)
    ensures HasSchemaRows(tbox + more, axioms)
  {
  }

  lemma TypingReads(step: ClosureStep, axioms: set<Axiom>, tbox: set<TboxRow>)
    requires HasSchemaRows(tbox, axioms) && IsTyping(step)
    ensures TypingOf(step, axioms, tbox) == TypingRows(axioms, step)
  {
    TypingLeavesSchemaKinds(tbox, axioms, Class);
    TypingLeavesSchemaKinds(tbox, axioms, Property);
    TypingLeavesSchemaKinds(tbox, axioms, OwlSame);
    TypingLeavesSchemaKinds(tbox, axioms, OwlInverse);
    assert Classes(axioms, tbox) == Classes(axioms, SchemaRows(axioms));
    assert Subs(axioms, tbox, Property) == Subs(axioms, SchemaRows(axioms), Property);
    assert Subs(axioms, tbox, OwlSame) == Subs(axioms, SchemaRows(axioms), OwlSame);
  }

  lemma TypingKinds(step: ClosureStep, axioms: set<Axiom>, tbox: set<TboxRow>)
    requires IsTyping(step)
    ensures forall r | r in TypingOf(step, axioms, tbox) :: IsTypingKind(r.kind)
  {
    var classes := Classes(axioms, tbox);
    TypedKind(SubjectType, Subs(axioms, tbox, Property), axioms, DOMAIN, classes);
    TypedKind(ObjectType, Subs(axioms, tbox, Property), axioms, RANGE, classes);
    TypedKind(OwlSubjectType, Subs(axioms, tbox, OwlSame), axioms, DOMAIN, classes);
    TypedKind(OwlSubjectType, RowsOf(tbox, OwlInverse), axioms, RANGE, classes);
    TypedKind(OwlObjectType, Subs(axioms, tbox, OwlSame), axioms, RANGE, classes);
    TypedKind(OwlObjectType, RowsOf(tbox, OwlInverse), axioms, DOMAIN, classes);
  }

  lemma TypedKind(kind: Kind, properties: set<Link>, axioms: set<Axiom>, constraint: Id, classes: set<Link>)
    ensures forall r | r in Typed(kind, properties, axioms, constraint, classes) :: r.kind == kind
  {
  }

  const TYPING_STEPS := [AddSubjects, AddObjects, AddOwlSubjects, AddOwlObjects]

  function AllTyping(steps: seq<ClosureStep>, axioms: set<Axiom>): set<TboxRow> {
    if steps == [] then {} else TypingRows(axioms, steps[0]) + AllTyping(steps[1..], axioms)
  }

  function Rebuilt(axioms: set<Axiom>): set<TboxRow> {
    SchemaRows(axioms) + AllTyping(TYPING_STEPS, axioms)
  }

  lemma ApplyOne(a: ClosureStep, rest: seq<ClosureStep>, axioms: set<Axiom>, tbox: set<TboxRow>)
    ensures ApplySteps([a] + rest, axioms, tbox) == ApplySteps(rest, axioms, ApplyStep(a, axioms, tbox))
  {
    assert ([a] + rest)[1..] == rest;
  }

  lemma SchemaSteps(rest: seq<ClosureStep>, axioms: set<Axiom>, tbox: set<TboxRow>)
    ensures ApplySteps([ClearClosure, AddClasses, AddProperties, AddOwl, AddTransitive] + rest, axioms, tbox)
         == ApplySteps(rest, axioms, SchemaRows(axioms))
  {
    hide ApplySteps, ClosureRows, OwlRows, TransitiveRows, TypingOf;
    var t1 := ClosureRows(Class, ClassEdges(axioms));
    var t2 := t1 + ClosureRows(Property, PropertyEdges(axioms));
    var t3 := t2 + OwlRows(axioms);
    ApplyOne(ClearClosure, [AddClasses, AddProperties, AddOwl, AddTransitive] + rest, axioms, tbox);
    ApplyOne(AddClasses, [AddProperties, AddOwl, AddTransitive] + rest, axioms, {});
    assert {} + t1 == t1;
    ApplyOne(AddProperties, [AddOwl, AddTransitive] + rest, axioms, t1);
    ApplyOne(AddOwl, [AddTransitive] + rest, axioms, t2);
    ApplyOne(AddTransitive, rest, axioms, t3);
    assert [ClearClosure] + ([AddClasses, AddProperties, AddOwl, AddTransitive] + rest)
        == [ClearClosure, AddClasses, AddProperties, AddOwl, AddTransitive] + rest;
    assert [AddClasses] + ([AddProperties, AddOwl, AddTransitive] + rest)
      == [AddClasses, AddProperties, AddOwl, AddTransitive] + rest;
    assert [AddProperties] + ([AddOwl, AddTransitive] + rest) == [AddProperties, AddOwl, AddTransitive] + rest;
    assert [AddOwl] + ([AddTransitive] + rest) == [AddOwl, AddTransitive] + rest;
  }

  lemma {:induction false} TypingSteps(steps: seq<ClosureStep>, axioms: set<Axiom>, tbox: set<TboxRow>)
    requires HasSchemaRows(tbox, axioms)
    requires forall i | 0 <= i < |steps| :: IsTyping(steps[i])
    ensures ApplySteps(steps, axioms, tbox) == tbox + AllTyping(steps, axioms)
  {
    hide ApplyStep, SchemaRows, TypingOf, TypingRows;
    if steps == [] {
    } else {
      TypingStep(steps[0], axioms, tbox);
      TypingSteps(steps[1..], axioms, ApplyStep(steps[0], axioms, tbox));
    }
  }

  lemma HasOwnSchemaRows(axioms: set<Axiom>)
    ensures HasSchemaRows(SchemaRows(axioms), axioms)
  {
    hide SchemaRows;
  }

  /** Running the nine statements rebuilds the table whatever it held before. */
  lemma StepsRebuild(axioms: set<Axiom>, tbox: set<TboxRow>)
    ensures ApplySteps(CLOSURE_STEPS, axioms, tbox) == Rebuilt(axioms)
  {
    hide ApplySteps, SchemaRows, AllTyping;
    SchemaSteps(TYPING_STEPS, axioms, tbox);
    HasOwnSchemaRows(axioms);
    TypingSteps(TYPING_STEPS, axioms, SchemaRows(axioms));
    assert CLOSURE_STEPS == [ClearClosure, AddClasses, AddProperties, AddOwl, AddTransitive] + TYPING_STEPS;
  }

  // ------------------------------------------------------------------ rows are entailments

  lemma AxiomOf(axioms: set<Axiom>, k: Id)
    ensures forall x :: x in AxiomsIn(axioms, k) <==> Axiom(x.s, x.p, x.o, k) in axioms
  {
    forall x | x in AxiomsIn(axioms, k)
      ensures Axiom(x.s, x.p, x.o, k) in axioms
    {
      var y :| y in axioms && y.scope == k && x == Triple(y.s, y.p, y.o);
      assert y == Axiom(x.s, x.p, x.o, k);
    }
  }

  lemma ClosureRow(kind: Kind, edges: set<Edge>, row: TboxRow)
    requires forall e | e in edges :: !e.inv
    ensures row in ClosureRows(kind, edges)
       <==> row.kind == kind && row.sub != row.sup && Linked(ArcsOf(edges, row.scope), row.sub, row.sup, false)
  {
    var arcs := ArcsOf(edges, row.scope);
    DirectWalksAreEven(arcs, row.sub, row.sup);
    ComposeFindsWalks(edges, row.scope, row.sub, row.sup, false);
    ComposeFindsWalks(edges, row.scope, row.sub, row.sup, true);
    if row in ClosureRows(kind, edges) {
      var c :| c in Compose(edges) && c.a != c.b && row == TboxRow(kind, c.scope, c.a, c.b);
      assert c == Edge(row.scope, row.sub, row.sup, c.inv);
    }
    if row.kind == kind && row.sub != row.sup && Linked(arcs, row.sub, row.sup, false) {
      var c := Edge(row.scope, row.sub, row.sup, false);
      assert c in Compose(edges) && c.a != c.b && row == TboxRow(kind, c.scope, c.a, c.b);
    }
  }

  lemma OwlRow(axioms: set<Axiom>, row: TboxRow)
    ensures row in OwlRows(axioms)
       <==> (row.kind == OwlSame || row.kind == OwlInverse) &&
            Entails(AxiomsIn(axioms, row.scope), row.kind, row.sub, row.sup)
  {
    hide OwlEdges, AxiomsIn, Compose, Linked;
    var edges := OwlEdges(axioms);
    ArcsAreEdges(axioms, row.scope);
    ComposeFindsWalks(edges, row.scope, row.sub, row.sup, false);
    ComposeFindsWalks(edges, row.scope, row.sub, row.sup, true);
    if row in OwlRows(axioms) {
      var c :| c in Compose(edges) && (c.inv || c.a != c.b)
               && row == TboxRow(if c.inv then OwlInverse else OwlSame, c.scope, c.a, c.b);
      assert c == Edge(row.scope, row.sub, row.sup, c.inv);
    }
    if row.kind == OwlSame || row.kind == OwlInverse {
      var c := Edge(row.scope, row.sub, row.sup, row.kind == OwlInverse);
      assert row == TboxRow(if c.inv then OwlInverse else OwlSame, c.scope, c.a, c.b);
    }
  }

  lemma SchemaRow(axioms: set<Axiom>, row: TboxRow)
    requires !IsTypingKind(row.kind)
    ensures row in SchemaRows(axioms) <==> Entails(AxiomsIn(axioms, row.scope), row.kind, row.sub, row.sup)
  {
    ArcsAreEdges(axioms, row.scope);
    ClosureRow(Class, ClassEdges(axioms), row);
    ClosureRow(Property, PropertyEdges(axioms), row);
    OwlRow(axioms, row);
    TransitiveRow(axioms, row);
  }

  lemma TransitiveRow(axioms: set<Axiom>, row: TboxRow)
    ensures row in TransitiveRows(axioms)
       <==> row.kind == Transitive && Entails(AxiomsIn(axioms, row.scope), row.kind, row.sub, row.sup)
  {
    AxiomOf(axioms, row.scope);
    if row.kind == Transitive && row.sub == row.sup
      && Triple(row.sub, TYPE, TRANSITIVE) in AxiomsIn(axioms, row.scope) {
      var x := Axiom(row.sub, TYPE, TRANSITIVE, row.scope);
      assert row == TboxRow(Transitive, x.scope, x.s, x.s);
    }
  }

  /** A class link of a scope: a class and itself or one of its superclasses. */
  lemma ClassLink(axioms: set<Axiom>, x: Axiom, class_: Id)
    requires x in axioms && x.p in {DOMAIN, RANGE}
    ensures Link(x.scope, x.o, class_) in Classes(axioms, SchemaRows(axioms))
       <==> Reaches(ClassArcs(AxiomsIn(axioms, x.scope)), x.o, class_)
  {
    hide SchemaRows;
    var row := TboxRow(Class, x.scope, x.o, class_);
    SchemaRow(axioms, row);
    LinkOfRow(SchemaRows(axioms), row);
    if x.o == class_ {
      assert x in DomainsAndRanges(axioms);
    }
  }

  lemma LinkOfRow(tbox: set<TboxRow>, row: TboxRow)
    ensures Link(row.scope, row.sub, row.sup) in RowsOf(tbox, row.kind) <==> row in tbox
  {
    if Link(row.scope, row.sub, row.sup) in RowsOf(tbox, row.kind) {
      var r :| r in tbox && r.kind == row.kind && Link(row.scope, row.sub, row.sup) == Link(r.scope, r.sub, r.sup);
      assert r == row;
    }
  }

  ghost predicate GivesThrough(axioms: set<Axiom>, properties: set<Link>, constraint: Id, row: TboxRow) {
    exists q :: Link(row.scope, row.sub, q) in properties && Gives(AxiomsIn(axioms, row.scope), q, constraint, row.sup)
  }

  lemma TypedRow(kind: Kind, properties: set<Link>, axioms: set<Axiom>, constraint: Id, row: TboxRow)
    requires constraint in {DOMAIN, RANGE}
    ensures row in Typed(kind, properties, axioms, constraint, Classes(axioms, SchemaRows(axioms)))
       <==> row.kind == kind && GivesThrough(axioms, properties, constraint, row)
  {
    hide SchemaRows, Classes, Typed, GivesThrough;
    if row in Typed(kind, properties, axioms, constraint, Classes(axioms, SchemaRows(axioms))) {
      TypedRowGives(kind, properties, axioms, constraint, row);
    }
    if row.kind == kind && GivesThrough(axioms, properties, constraint, row) {
      GivingIsTyped(properties, axioms, constraint, row);
    }
  }

  lemma TypedRowGives(kind: Kind, properties: set<Link>, axioms: set<Axiom>, constraint: Id, row: TboxRow)
    requires constraint in {DOMAIN, RANGE}
    requires row in Typed(kind, properties, axioms, constraint, Classes(axioms, SchemaRows(axioms)))
    ensures row.kind == kind && GivesThrough(axioms, properties, constraint, row)
  {
    hide SchemaRows, Reaches, Classes;
    var classes := Classes(axioms, SchemaRows(axioms));
    AxiomOf(axioms, row.scope);
    var p, x, c :| p in properties && x in axioms && c in classes
                   && x.p == constraint && x.s == p.b && x.scope == p.scope && c.a == x.o && c.scope == p.scope
                   && row == TboxRow(kind, p.scope, p.a, c.b);
    ClassLink(axioms, x, c.b);
    assert c == Link(x.scope, x.o, c.b) && p == Link(row.scope, row.sub, p.b);
    assert Triple(x.s, x.p, x.o) in AxiomsIn(axioms, row.scope);
    assert Gives(AxiomsIn(axioms, row.scope), p.b, constraint, row.sup);
  }

  lemma GivingIsTyped(properties: set<Link>, axioms: set<Axiom>, constraint: Id, row: TboxRow)
    requires constraint in {DOMAIN, RANGE} && GivesThrough(axioms, properties, constraint, row)
    ensures row in Typed(row.kind, properties, axioms, constraint, Classes(axioms, SchemaRows(axioms)))
  {
    hide SchemaRows, Reaches, Classes;
    var classes := Classes(axioms, SchemaRows(axioms));
    AxiomOf(axioms, row.scope);
    var q :| Link(row.scope, row.sub, q) in properties && Gives(AxiomsIn(axioms, row.scope), q, constraint, row.sup);
    var t :| t in AxiomsIn(axioms, row.scope) && t.p == constraint && t.s == q
             && Reaches(ClassArcs(AxiomsIn(axioms, row.scope)), t.o, row.sup);
    var x := Axiom(t.s, t.p, t.o, row.scope);
    ClassLink(axioms, x, row.sup);
    var p, c := Link(row.scope, row.sub, q), Link(row.scope, t.o, row.sup);
    assert p in properties && x in axioms && c in classes;
  }

  /** Through the reflexive super-properties, an axiom gives a class exactly as walks say. */
  lemma SubsGive(axioms: set<Axiom>, kind: Kind, constraint: Id, row: TboxRow)
    requires kind == Property || kind == OwlSame
    requires constraint in {DOMAIN, RANGE}
    ensures GivesThrough(axioms, Subs(axioms, SchemaRows(axioms), kind), constraint, row)
       <==> exists q :: Reaches(if kind == Property then PropertyArcs(AxiomsIn(axioms, row.scope))
         else OwlArcs(AxiomsIn(axioms, row.scope)), row.sub, q)
                        && Gives(AxiomsIn(axioms, row.scope), q, constraint, row.sup)
  {
    var here, subs := AxiomsIn(axioms, row.scope), Subs(axioms, SchemaRows(axioms), kind);
    var arcs := if kind == Property then PropertyArcs(here) else OwlArcs(here);
    forall q | Gives(here, q, constraint, row.sup)
      ensures Link(row.scope, row.sub, q) in subs <==> Reaches(arcs, row.sub, q)
    {
      SubLink(axioms, kind, constraint, row, q);
    }
  }

  lemma SubLink(axioms: set<Axiom>, kind: Kind, constraint: Id, row: TboxRow, q: Id)
    requires kind == Property || kind == OwlSame
    requires constraint in {DOMAIN, RANGE}
    requires Gives(AxiomsIn(axioms, row.scope), q, constraint, row.sup)
    ensures Link(row.scope, row.sub, q) in Subs(axioms, SchemaRows(axioms), kind)
       <==> Reaches(if kind == Property then PropertyArcs(AxiomsIn(axioms, row.scope))
         else OwlArcs(AxiomsIn(axioms, row.scope)), row.sub, q)
  {
    hide SchemaRows, PropertyArcs, OwlArcs, ClassArcs;
    AxiomOf(axioms, row.scope);
    var step := TboxRow(kind, row.scope, row.sub, q);
    SchemaRow(axioms, step);
    LinkOfRow(SchemaRows(axioms), step);
    var t :| t in AxiomsIn(axioms, row.scope) && t.p == constraint && t.s == q;
    assert Axiom(t.s, t.p, t.o, row.scope) in DomainsAndRanges(axioms);
  }

  lemma InversesGive(axioms: set<Axiom>, constraint: Id, row: TboxRow)
    ensures GivesThrough(axioms, RowsOf(SchemaRows(axioms), OwlInverse), constraint, row)
       <==> exists q :: Linked(OwlArcs(AxiomsIn(axioms, row.scope)), row.sub, q, true)
                        && Gives(AxiomsIn(axioms, row.scope), q, constraint, row.sup)
  {
    forall q
      ensures Link(row.scope, row.sub, q) in RowsOf(SchemaRows(axioms), OwlInverse)
         <==> Linked(OwlArcs(AxiomsIn(axioms, row.scope)), row.sub, q, true)
    {
      var step := TboxRow(OwlInverse, row.scope, row.sub, q);
      SchemaRow(axioms, step);
      LinkOfRow(SchemaRows(axioms), step);
    }
  }

  lemma AllTypingAt(axioms: set<Axiom>, row: TboxRow)
    ensures row in AllTyping(TYPING_STEPS, axioms)
       <==> row in TypingRows(axioms, AddSubjects) || row in TypingRows(axioms, AddObjects)
            || row in TypingRows(axioms, AddOwlSubjects) || row in TypingRows(axioms, AddOwlObjects)
  {
    hide TypingRows;
    AllTypingCons(AddSubjects, [AddObjects, AddOwlSubjects, AddOwlObjects], axioms);
    AllTypingCons(AddObjects, [AddOwlSubjects, AddOwlObjects], axioms);
    AllTypingCons(AddOwlSubjects, [AddOwlObjects], axioms);
    AllTypingCons(AddOwlObjects, [], axioms);
    assert TYPING_STEPS == [AddSubjects] + [AddObjects, AddOwlSubjects, AddOwlObjects];
    assert [AddObjects, AddOwlSubjects, AddOwlObjects] == [AddObjects] + [AddOwlSubjects, AddOwlObjects];
    assert [AddOwlSubjects, AddOwlObjects] == [AddOwlSubjects] + [AddOwlObjects];
    assert [AddOwlObjects] == [AddOwlObjects] + [];
  }

  lemma AllTypingCons(step: ClosureStep, rest: seq<ClosureStep>, axioms: set<Axiom>)
    ensures AllTyping([step] + rest, axioms) == TypingRows(axioms, step) + AllTyping(rest, axioms)
  {
    assert ([step] + rest)[1..] == rest;
  }

  lemma TypingRow(axioms: set<Axiom>, row: TboxRow)
    requires IsTypingKind(row.kind)
    ensures row in AllTyping(TYPING_STEPS, axioms) <==> Entails(AxiomsIn(axioms, row.scope), row.kind, row.sub, row.sup)
  {
    hide SchemaRows, Typed, Reaches, Classes, Gives, Subs, RowsOf, GivesThrough, AllTyping, PropertyArcs, OwlArcs,
      AxiomsIn;
    AllTypingAt(axioms, row);
    var schema := SchemaRows(axioms);
    TypedRow(SubjectType, Subs(axioms, schema, Property), axioms, DOMAIN, row);
    TypedRow(ObjectType, Subs(axioms, schema, Property), axioms, RANGE, row);
    TypedRow(OwlSubjectType, Subs(axioms, schema, OwlSame), axioms, DOMAIN, row);
    TypedRow(OwlSubjectType, RowsOf(schema, OwlInverse), axioms, RANGE, row);
    TypedRow(OwlObjectType, Subs(axioms, schema, OwlSame), axioms, RANGE, row);
    TypedRow(OwlObjectType, RowsOf(schema, OwlInverse), axioms, DOMAIN, row);
    SubsGive(axioms, Property, DOMAIN, row);
    SubsGive(axioms, Property, RANGE, row);
    SubsGive(axioms, OwlSame, DOMAIN, row);
    SubsGive(axioms, OwlSame, RANGE, row);
    InversesGive(axioms, DOMAIN, row);
    InversesGive(axioms, RANGE, row);
  }

  /** The rows of scope k are exactly what the axioms of scope k entail. */
  lemma RowsAreEntailments(axioms: set<Axiom>, row: TboxRow)
    ensures row in Rebuilt(axioms) <==> Entails(AxiomsIn(axioms, row.scope), row.kind, row.sub, row.sup)
  {
    hide SchemaRows, Entails, TypingRows, AllTyping;
    if IsTypingKind(row.kind) {
      TypingRow(axioms, row);
      SchemaKinds(axioms);
    } else {
      SchemaRow(axioms, row);
      TypingStepsKinds(TYPING_STEPS, axioms);
    }
  }

  lemma SchemaKinds(axioms: set<Axiom>)
    ensures forall r | r in SchemaRows(axioms) :: !IsTypingKind(r.kind)
  {
  }

  lemma {:induction false} TypingStepsKinds(steps: seq<ClosureStep>, axioms: set<Axiom>)
    requires forall i | 0 <= i < |steps| :: IsTyping(steps[i])
    ensures forall r | r in AllTyping(steps, axioms) :: IsTypingKind(r.kind)
  {
    hide TypingOf, SchemaRows;
    if steps != [] {
      TypingKinds(steps[0], axioms, SchemaRows(axioms));
      TypingStepsKinds(steps[1..], axioms);
    }
  }
}