/** Where rewriting stops being forward chaining: over every base and pattern the two agree exactly
    when types stay put. Each way of not staying put has a base of one triple that shows it. */
module RewritingLimits {
  import opened Ids
  import opened Registry
  import opened Walks
  import opened Closure
  import opened Scopes
  import opened Entailments
  import opened PushDownLimits
  import opened Chaining
  import opened Rewriting

  // ------------------------------------------------------------------ what classes axioms name

  lemma LinkedIsNamed(axioms: set<Triple>, a: Id, b: Id, inv: bool)
    requires Linked(ClassArcs(axioms), a, b, inv)
    ensures a in Terms(axioms) && b in Terms(axioms)
  {
    hide ClassArcs;
    ClassArcsAreNamed(axioms);
    var w :| IsWalk(ClassArcs(axioms), w, a, b);
    assert w[0] in ClassArcs(axioms) && w[|w| - 1] in ClassArcs(axioms);
  }

  lemma ClassArcsAreNamed(axioms: set<Triple>)
    ensures forall e | e in ClassArcs(axioms) :: e.a in Terms(axioms) && e.b in Terms(axioms)
  {
  }

  lemma TypesAreNamed(axioms: set<Triple>, owl: bool, p: Id, class_: Id, subject: bool)
    requires TypesEnd(axioms, owl, p, class_, subject)
    ensures class_ in Terms(axioms)
  {
    hide Leads, Linked, ClassArcs;
    var q, inv, constraint :| constraint in {DOMAIN, RANGE}
      && Leads(axioms, owl, p, q, inv) && Gives(axioms, q, constraint, class_)
      && subject == ((constraint == DOMAIN) != inv);
    var x :| x in axioms && x.p == constraint && x.s == q && Reaches(ClassArcs(axioms), x.o, class_);
    if x.o != class_ {
      LinkedIsNamed(axioms, x.o, class_, false);
    }
  }

  // ------------------------------------------------------------------ bases of one triple

  function Single(c: Entailment, g: Id, u: Triple): Entailment {
    c.(base := {InGraph(u, g)})
  }

  lemma SingleIsComparable(c: Entailment, g: Id, axioms: set<Triple>, u: Triple)
    requires Comparable(c.(base := {}), g, axioms) && NonLiteral(u.s)
    ensures Comparable(Single(c, g, u), g, axioms) && GraphTriples(Single(c, g, u).base, g) == {u}
    ensures u in Chained(axioms, c.reasoning.OwlQl?, {u})
  {
    hide PicksClosureOf, Chained, GraphTriples;
    PicksAlike(c.(base := {}), Single(c, g, u), g, axioms);
    OneTriple(g, u);
    ChainedIsClosed(axioms, c.reasoning.OwlQl?, {u});
  }

  lemma PicksAlike(c: Entailment, d: Entailment, g: Id, axioms: set<Triple>)
    requires c.tbox == d.tbox && c.scopes == d.scopes && PicksClosureOf(c, g, axioms)
    ensures PicksClosureOf(d, g, axioms)
  {
    hide Entails;
    forall kind, sub, sup
      ensures TboxRow(kind, ScopeOf(d.scopes, g), sub, sup) in d.tbox <==> Entails(axioms, kind, sub, sup)
    {
      assert TboxRow(kind, ScopeOf(c.scopes, g), sub, sup) in c.tbox <==> Entails(axioms, kind, sub, sup);
    }
  }

  lemma OneTriple(g: Id, u: Triple)
    ensures GraphTriples({InGraph(u, g)}, g) == {u}
  {
    TripleOfGraph({InGraph(u, g)}, g, u);
  }

  /** The arms of a property only ever name the ends of the one triple. */
  lemma NoPropertyRow(c: Entailment, g: Id, axioms: set<Triple>, u: Triple, t: Triple)
    requires Comparable(c.(base := {}), g, axioms) && NonLiteral(u.s)
    requires t.p !in {TYPE, SUB_CLASS_OF, SUB_PROPERTY_OF} && (t.s !in {u.s, u.o} || t.o !in {u.s, u.o})
    ensures InGraph(t, g) !in Source(Single(c, g, u), None, Some(t.p), None)
  {
    hide Source, PropertyArms, PicksClosureOf, Chained, Leads;
    var d := Single(c, g, u);
    SingleIsComparable(c, g, axioms, u);
    PropertySource(d, g, axioms, t);
    PropertyArmRow(d, g, axioms, t);
    forall a | a in ArmArcs(d, t.p, g)
      ensures a.a in {u.s, u.o} && a.b in {u.s, u.o}
    {
      var z :| z in PropertyArms(d, t.p, None, None) && z.g == g && a == Arc(z.s, z.o, false);
      OrdinaryArmsElsewhere(d, Triple(z.s, t.p, z.o));
      assert z == InGraph(Triple(z.s, t.p, z.o), g);
      PropertyArmRow(d, g, axioms, Triple(z.s, t.p, z.o));
    }
    forall w
      ensures !IsWalk(ArmArcs(d, t.p, g), w, t.s, t.o)
    {
    }
  }

  lemma NoTypeRow(c: Entailment, g: Id, axioms: set<Triple>, u: Triple, t: Triple)
    requires Comparable(c.(base := {}), g, axioms) && NonLiteral(u.s) && t.p == TYPE && t != u
    requires !ByTyping(axioms, c.reasoning.OwlQl?, u, t) && !ByClass(axioms, u, t)
    ensures InGraph(t, g) !in Source(Single(c, g, u), None, Some(TYPE), None)
  {
    hide TypeArms, PicksClosureOf, ByTyping, ByClass, Chained;
    var d := Single(c, g, u);
    SingleIsComparable(c, g, axioms, u);
    AssertedRow(d, g, axioms, t);
    if InGraph(t, g) in TypeArms(d, None, None) {
      TypeArmIsWay(d, g, axioms, t);
    }
  }

  lemma ChainedIsAnswer(axioms: set<Triple>, owl: bool, base: set<Triple>, t: Triple)
    requires t in Chained(axioms, owl, base) && NonLiteral(t.s)
    ensures IsAnswer(axioms, owl, base, t)
  {
    hide Chained;
    LinkedArc(ChainedArcs(Chained(axioms, owl, base), t.p) + {Arc(t.s, t.o, false)}, Arc(t.s, t.o, false));
    assert Arc(t.s, t.o, false) in ChainedArcs(Chained(axioms, owl, base), t.p);
    assert ChainedArcs(Chained(axioms, owl, base), t.p)
      + {Arc(t.s, t.o, false)} == ChainedArcs(Chained(axioms, owl, base), t.p);
  }

  /** Some base and pattern tell the source from the answers. */
  ghost predicate SomeDisagree(c: Entailment, g: Id, axioms: set<Triple>) {
    exists base: set<Quad>, t: Triple ::
      ValidSubjects(base) && t.p !in {SUB_CLASS_OF, SUB_PROPERTY_OF} && !Agrees(c.(base := base), g, axioms, t)
  }

  lemma SingleDisagrees(c: Entailment, g: Id, axioms: set<Triple>, u: Triple, t: Triple)
    requires Comparable(c.(base := {}), g, axioms) && NonLiteral(u.s)
    requires t.p !in {SUB_CLASS_OF, SUB_PROPERTY_OF} && NonLiteral(t.s)
    requires t in Chained(axioms, c.reasoning.OwlQl?, {u})
      && InGraph(t, g) !in Source(Single(c, g, u), None, Some(t.p), None)
    ensures SomeDisagree(c, g, axioms)
  {
    hide Source, Chained, PicksClosureOf, IsAnswer;
    SingleIsComparable(c, g, axioms, u);
    ChainedIsAnswer(axioms, c.reasoning.OwlQl?, {u}, t);
    assert !Agrees(c.(base := {InGraph(u, g)}), g, axioms, t);
  }

  // ------------------------------------------------------------------ the four ways to break

  /** Two IRIs the axioms do not name. */
  predicate AreNew(axioms: set<Triple>, x: Id, y: Id) {
    x.Iri? && y.Iri? && x != y && x !in Terms(axioms) && y !in Terms(axioms)
  }

  /** A property, or a swap, that leads to `rdf:type`: from (x p y), x is a y (or y an x). */
  lemma EnteringTypeBreaks(c: Entailment, g: Id, axioms: set<Triple>, p: Id, inv: bool, x: Id, y: Id)
    requires Comparable(c.(base := {}), g, axioms) && AreNew(axioms, x, y)
    requires Leads(axioms, c.reasoning.OwlQl?, p, TYPE, inv) && !(p == TYPE && !inv)
    ensures SomeDisagree(c, g, axioms)
  {
    hide PicksClosureOf, Chained, Leads, Source, TypesEnd, Linked;
    var owl, u := c.reasoning.OwlQl?, Triple(x, p, y);
    var t := Oriented(u, TYPE, inv);
    SingleIsComparable(c, g, axioms, u);
    LeadIsChained(axioms, owl, {u}, u, TYPE, inv);
    forall subject
      ensures !TypesEnd(axioms, owl, u.p, t.o, subject)
    {
      if TypesEnd(axioms, owl, u.p, t.o, subject) {
        TypesAreNamed(axioms, owl, u.p, t.o, subject);
      }
    }
    if Linked(ClassArcs(axioms), u.o, t.o, false) {
      LinkedIsNamed(axioms, u.o, t.o, false);
    }
    NoTypeRow(c, g, axioms, u, t);
    SingleDisagrees(c, g, axioms, u, t);
  }

  /** A triple that gives a class anew to one of its ends, neither of which is the class. */
  ghost predicate Feeds(axioms: set<Triple>, owl: bool, u: Triple, given: Triple) {
    && u.s.Iri? && given.s.Iri? && given.p == TYPE && given.o !in {u.s, u.o}
    && Way(axioms, owl, u, given)
  }

  lemma FeedingTriple(axioms: set<Triple>, owl: bool, class_: Id, x: Id, y: Id) returns (u: Triple, given: Triple)
    requires Fed(axioms, owl, class_) && AreNew(axioms, x, y)
    ensures Feeds(axioms, owl, u, given) && given.o == class_
  {
    hide Leads, TypesEnd, ClassArcs, Linked;
    if p, subject :| TypesEnd(axioms, owl, p, class_, subject) {
      TypesAreNamed(axioms, owl, p, class_, subject);
      u := Triple(x, p, y);
      given := Triple(End(u, subject), TYPE, class_);
      assert ByTyping(axioms, owl, u, given);
    } else {
      var c :| Entails(axioms, Class, c, class_);
      LinkedIsNamed(axioms, c, class_, false);
      u, given := Triple(x, TYPE, c), Triple(x, TYPE, class_);
      assert ByClass(axioms, u, given);
    }
  }

  /** A property that `rdf:type` leads to misses the types given anew. */
  lemma LeavingTypeBreaks(c: Entailment, g: Id, axioms: set<Triple>, class_: Id, q: Id, inv: bool, x: Id, y: Id)
    requires Comparable(c.(base := {}), g, axioms) && AreNew(axioms, x, y) && Fed(axioms, c.reasoning.OwlQl?, class_)
    requires Leads(axioms, c.reasoning.OwlQl?, TYPE, q, inv) && q !in {TYPE, SUB_CLASS_OF, SUB_PROPERTY_OF}
    requires inv ==> NonLiteral(class_)
    ensures SomeDisagree(c, g, axioms)
  {
    hide PicksClosureOf, Chained, Leads, Source, Way, Fed;
    var owl := c.reasoning.OwlQl?;
    var u, given := FeedingTriple(axioms, owl, class_, x, y);
    var t := Oriented(given, q, inv);
    SingleIsComparable(c, g, axioms, u);
    WaysAreChained(axioms, owl, {u}, u, given);
    LeadIsChained(axioms, owl, {u}, given, q, inv);
    NoPropertyRow(c, g, axioms, u, t);
    SingleDisagrees(c, g, axioms, u, t);
  }

  /** A range of `rdf:type` types the class given anew, and no arm does. */
  lemma TypingClassesBreaks(c: Entailment, g: Id, axioms: set<Triple>, class_: Id, d: Id, x: Id, y: Id)
    requires Comparable(c.(base := {}), g, axioms) && AreNew(axioms, x, y)
    requires Fed(axioms, c.reasoning.OwlQl?, class_) && NonLiteral(class_)
      && TypesEnd(axioms, c.reasoning.OwlQl?, TYPE, d, false)
    ensures SomeDisagree(c, g, axioms)
  {
    hide PicksClosureOf, Chained, TypesEnd, Source, Fed, Leads, Linked;
    var owl := c.reasoning.OwlQl?;
    var u, given := FeedingTriple(axioms, owl, class_, x, y);
    var t := Triple(class_, TYPE, d);
    SingleIsComparable(c, g, axioms, u);
    WaysAreChained(axioms, owl, {u}, u, given);
    assert t.s == End(given, false);
    assert ByTyping(axioms, owl, given, t);
    WaysAreChained(axioms, owl, {u}, given, t);
    NoTypeRow(c, g, axioms, u, t);
    SingleDisagrees(c, g, axioms, u, t);
  }

  /** A domain of `rdf:type` types what a property types, and the property's own arms do not. */
  lemma UncoveredDomainBreaks(c: Entailment, g: Id, axioms: set<Triple>, p: Id, class_: Id, d: Id, subject: bool,
      x: Id, y: Id)
    requires Comparable(c.(base := {}), g, axioms) && AreNew(axioms, x, y)
    requires TypesEnd(axioms, c.reasoning.OwlQl?, p, class_, subject)
      && TypesEnd(axioms, c.reasoning.OwlQl?, TYPE, d, true)
    requires !TypesEnd(axioms, c.reasoning.OwlQl?, p, d, subject)
    ensures SomeDisagree(c, g, axioms)
  {
    hide PicksClosureOf, Chained, TypesEnd, Source, Leads, Linked;
    var owl, u := c.reasoning.OwlQl?, Triple(x, p, y);
    var given, t := Triple(End(u, subject), TYPE, class_), Triple(End(u, subject), TYPE, d);
    SingleIsComparable(c, g, axioms, u);
    assert ByTyping(axioms, owl, u, given);
    WaysAreChained(axioms, owl, {u}, u, given);
    assert t.s == End(given, true);
    assert ByTyping(axioms, owl, given, t);
    WaysAreChained(axioms, owl, {u}, given, t);
    NoTypeRow(c, g, axioms, u, t);
    SingleDisagrees(c, g, axioms, u, t);
  }

  // ------------------------------------------------------------------ exactly when

  lemma NotStayingPutBreaks(c: Entailment, g: Id, axioms: set<Triple>)
    requires Comparable(c.(base := {}), g, axioms) && !TypesStayPut(axioms, c.reasoning.OwlQl?)
    ensures SomeDisagree(c, g, axioms)
  {
    hide PicksClosureOf, Leads, TypesEnd, Fed, Terms, SomeDisagree;
    var owl := c.reasoning.OwlQl?;
    var n := UnusedIris(Terms(axioms));
    var x, y := Iri(OtherNs, n), Iri(OtherNs, n + 1);
    if !NothingEntersType(axioms, owl) {
      var p, inv :| Leads(axioms, owl, p, TYPE, inv) && !(p == TYPE && !inv);
      EnteringTypeBreaks(c, g, axioms, p, inv, x, y);
    } else if !FedTypesLeadNowhere(axioms, owl) {
      var class_, q, inv :| Fed(axioms, owl, class_) && Leads(axioms, owl, TYPE, q, inv)
        && !(q in {TYPE, SUB_CLASS_OF, SUB_PROPERTY_OF} || (inv && !NonLiteral(class_)));
      LeavingTypeBreaks(c, g, axioms, class_, q, inv, x, y);
    } else if !FedClassesStayUntyped(axioms, owl) {
      var class_, d :| Fed(axioms, owl, class_) && TypesEnd(axioms, owl, TYPE, d, false) && NonLiteral(class_);
      TypingClassesBreaks(c, g, axioms, class_, d, x, y);
    } else {
      var p, class_, d, subject :| TypesEnd(axioms, owl, p, class_, subject) && TypesEnd(axioms, owl, TYPE, d, true)
        && !TypesEnd(axioms, owl, p, d, subject);
      UncoveredDomainBreaks(c, g, axioms, p, class_, d, subject, x, y);
    }
  }

  // ------------------------------------------------------------------ the condition, on closure rows

  function RowsOfScope(tbox: set<TboxRow>, scope: Id, kind: Kind): set<TboxRow> {
    set r | r in tbox && r.scope == scope && r.kind == kind
  }

  function TypingKind(owl: bool, subject: bool): Kind {
    if owl then if subject then OwlSubjectType else OwlObjectType else if subject then SubjectType else ObjectType
  }

  /** The rows that lead from a property to another, swapped or not. */
  function LeadRows(tbox: set<TboxRow>, scope: Id, owl: bool, inv: bool): set<TboxRow> {
    if inv then if owl then RowsOfScope(tbox, scope, OwlInverse) else {}
    else RowsOfScope(tbox, scope, if owl then OwlSame else Property)
  }

  function FedClasses(tbox: set<TboxRow>, scope: Id, owl: bool): set<Id> {
    set r | r in RowsOfScope(tbox, scope, TypingKind(owl, true)) + RowsOfScope(tbox, scope, TypingKind(owl, false))
      + RowsOfScope(tbox, scope, Class) :: r.sup
  }

  predicate RowsKeepOut(tbox: set<TboxRow>, scope: Id, owl: bool) {
    forall r | r in LeadRows(tbox, scope, owl, false) + LeadRows(tbox, scope, owl, true) :: r.sup != TYPE
  }

  predicate RowsLeadNowhere(tbox: set<TboxRow>, scope: Id, owl: bool) {
    var fed := FedClasses(tbox, scope, owl);
    && (forall r, k | r in LeadRows(tbox, scope, owl, false) && k in fed ::
         r.sub == TYPE ==> r.sup in {TYPE, SUB_CLASS_OF, SUB_PROPERTY_OF})
    && (forall r, k | r in LeadRows(tbox, scope, owl, true) && k in fed ::
         r.sub == TYPE ==> r.sup in {TYPE, SUB_CLASS_OF, SUB_PROPERTY_OF} || !NonLiteral(k))
  }

  predicate RowsTypeNoClass(tbox: set<TboxRow>, scope: Id, owl: bool) {
    forall r, k | r in RowsOfScope(tbox, scope, TypingKind(owl, false)) && k in FedClasses(tbox, scope, owl) ::
      r.sub == TYPE ==> !NonLiteral(k)
  }

  predicate RowsCoverDomains(tbox: set<TboxRow>, scope: Id, owl: bool, subject: bool) {
    forall r, d | r in RowsOfScope(tbox, scope, TypingKind(owl, subject))
      && d in RowsOfScope(tbox, scope, TypingKind(owl, true)) ::
      d.sub == TYPE ==> TboxRow(r.kind, scope, r.sub, d.sup) in tbox
  }

  /** `TypesStayPut`, read off the closure rows of one scope. */
  predicate RowsStayPut(tbox: set<TboxRow>, scope: Id, owl: bool) {
    && RowsKeepOut(tbox, scope, owl) && RowsLeadNowhere(tbox, scope, owl) && RowsTypeNoClass(tbox, scope, owl)
    && RowsCoverDomains(tbox, scope, owl, true) && RowsCoverDomains(tbox, scope, owl, false)
  }

  lemma LeadsAreRows(c: Entailment, g: Id, axioms: set<Triple>, owl: bool, p: Id, q: Id, inv: bool)
    requires PicksClosureOf(c, g, axioms)
    ensures Leads(axioms, owl, p, q, inv) <==>
      (p == q && !inv) || exists r :: r in LeadRows(c.tbox, ScopeOf(c.scopes, g), owl, inv) && r.sub == p && r.sup == q
  {
    hide Linked, PropertyArcs, OwlArcs;
    var kind := if inv then OwlInverse else if owl then OwlSame else Property;
    var row := TboxRow(kind, ScopeOf(c.scopes, g), p, q);
    assert row in c.tbox <==> Entails(axioms, kind, p, q);
    PropertyArcsAreDirect(axioms);
    DirectWalksAreEven(PropertyArcs(axioms), p, q);
    if (inv ==> owl) && row in c.tbox {
      assert row in LeadRows(c.tbox, ScopeOf(c.scopes, g), owl, inv);
    }
  }

  lemma TypesAreRows(c: Entailment, g: Id, axioms: set<Triple>, owl: bool, p: Id, class_: Id, subject: bool)
    requires PicksClosureOf(c, g, axioms)
    ensures TypesEnd(axioms, owl, p, class_, subject) <==>
      TboxRow(TypingKind(owl, subject), ScopeOf(c.scopes, g), p, class_) in c.tbox
  {
    hide TypesEnd, Entails;
    TypingRowsTypeEnds(axioms, owl, p, class_, subject);
  }

  lemma FedAreRows(c: Entailment, g: Id, axioms: set<Triple>, owl: bool, class_: Id)
    requires PicksClosureOf(c, g, axioms)
    ensures Fed(axioms, owl, class_) <==> class_ in FedClasses(c.tbox, ScopeOf(c.scopes, g), owl)
  {
    hide TypesEnd, Entails, TypingKind;
    var scope := ScopeOf(c.scopes, g);
    forall p, subject
      ensures TypesEnd(axioms, owl, p, class_, subject)
        <==> TboxRow(TypingKind(owl, subject), scope, p, class_) in c.tbox
    {
      TypesAreRows(c, g, axioms, owl, p, class_, subject);
    }
    if p, subject :| TypesEnd(axioms, owl, p, class_, subject) {
      assert TboxRow(TypingKind(owl, subject), scope, p, class_) in RowsOfScope(c.tbox, scope,
        TypingKind(owl, subject));
    }
    if k :| Entails(axioms, Class, k, class_) {
      assert TboxRow(Class, scope, k, class_) in RowsOfScope(c.tbox, scope, Class);
    }
    if class_ in FedClasses(c.tbox, scope, owl) {
      var r :| r in RowsOfScope(c.tbox, scope, TypingKind(owl, true))
        + RowsOfScope(c.tbox, scope, TypingKind(owl, false))
        + RowsOfScope(c.tbox, scope, Class) && r.sup == class_;
      if r.kind == Class && r in RowsOfScope(c.tbox, scope, Class) {
        assert Entails(axioms, Class, r.sub, class_);
      } else {
        assert exists subject :: r == TboxRow(TypingKind(owl, subject), scope, r.sub, class_);
      }
    }
  }

  /** Closure rows of the scope and axioms say the same of properties and classes. */
  ghost predicate RowsSay(tbox: set<TboxRow>, scope: Id, axioms: set<Triple>, owl: bool) {
    && (forall p, q, inv :: Leads(axioms, owl, p, q, inv) <==>
         (p == q && !inv) || exists r :: r in LeadRows(tbox, scope, owl, inv) && r.sub == p && r.sup == q)
    && (forall p, k, subject :: TypesEnd(axioms, owl, p, k, subject) <==>
         exists r :: r in RowsOfScope(tbox, scope, TypingKind(owl, subject)) && r.sub == p && r.sup == k)
    && (forall k :: Fed(axioms, owl, k) <==> k in FedClasses(tbox, scope, owl))
  }

  lemma PickedRowsSay(c: Entailment, g: Id, axioms: set<Triple>, owl: bool)
    requires PicksClosureOf(c, g, axioms)
    ensures RowsSay(c.tbox, ScopeOf(c.scopes, g), axioms, owl)
  {
    hide TypesEnd, Leads, Fed, LeadRows, FedClasses, TypingKind, PicksClosureOf;
    var scope := ScopeOf(c.scopes, g);
    forall p, q, inv
      ensures Leads(axioms, owl, p, q, inv) <==> (p == q && !inv) || exists r ::
        r in LeadRows(c.tbox, scope, owl, inv) && r.sub == p && r.sup == q
    {
      LeadsAreRows(c, g, axioms, owl, p, q, inv);
    }
    forall p, k, subject
      ensures TypesEnd(axioms, owl, p, k, subject) <==>
        exists r :: r in RowsOfScope(c.tbox, scope, TypingKind(owl, subject)) && r.sub == p && r.sup == k
    {
      TypesAreRows(c, g, axioms, owl, p, k, subject);
      RowOfScope(c.tbox, scope, TypingKind(owl, subject), p, k);
    }
    forall k
      ensures Fed(axioms, owl, k) <==> k in FedClasses(c.tbox, scope, owl)
    {
      FedAreRows(c, g, axioms, owl, k);
    }
  }

  lemma RowOfScope(tbox: set<TboxRow>, scope: Id, kind: Kind, sub: Id, sup: Id)
    ensures TboxRow(kind, scope, sub, sup) in tbox
      <==> exists r :: r in RowsOfScope(tbox, scope, kind) && r.sub == sub && r.sup == sup
  {
    if TboxRow(kind, scope, sub, sup) in tbox {
      assert TboxRow(kind, scope, sub, sup) in RowsOfScope(tbox, scope, kind);
    }
  }

  lemma KeptOut(tbox: set<TboxRow>, scope: Id, axioms: set<Triple>, owl: bool)
    requires RowsSay(tbox, scope, axioms, owl) && NoTrivialRows(tbox, scope, owl)
    ensures RowsKeepOut(tbox, scope, owl) <==> NothingEntersType(axioms, owl)
  {
    hide Leads, TypesEnd, Fed, LeadRows, TypingKind, FedClasses;
    if NothingEntersType(axioms, owl) {
      forall r, inv | r in LeadRows(tbox, scope, owl, inv)
        ensures r.sup != TYPE
      {
        assert Leads(axioms, owl, r.sub, r.sup, inv);
      }
    }
  }

  /** Rows that lead straight on lead elsewhere. */
  predicate NoTrivialRows(tbox: set<TboxRow>, scope: Id, owl: bool) {
    forall r | r in LeadRows(tbox, scope, owl, false) :: r.sub != r.sup
  }

  lemma RowsAreNotTrivial(c: Entailment, g: Id, axioms: set<Triple>, owl: bool)
    requires PicksClosureOf(c, g, axioms)
    ensures NoTrivialRows(c.tbox, ScopeOf(c.scopes, g), owl)
  {
    hide Linked;
    forall r | r in LeadRows(c.tbox, ScopeOf(c.scopes, g), owl, false)
      ensures r.sub != r.sup
    {
      assert Entails(axioms, if owl then OwlSame else Property, r.sub, r.sup);
    }
  }

  lemma LedNowhere(tbox: set<TboxRow>, scope: Id, axioms: set<Triple>, owl: bool)
    requires RowsSay(tbox, scope, axioms, owl)
    ensures RowsLeadNowhere(tbox, scope, owl) <==> FedTypesLeadNowhere(axioms, owl)
  {
    hide Leads, TypesEnd, Fed, LeadRows, TypingKind, FedClasses;
    if FedTypesLeadNowhere(axioms, owl) {
      forall r, k, inv | r in LeadRows(tbox, scope, owl, inv) && k in FedClasses(tbox, scope, owl) && r.sub == TYPE
        ensures r.sup in {TYPE, SUB_CLASS_OF, SUB_PROPERTY_OF} || (inv && !NonLiteral(k))
      {
        assert Leads(axioms, owl, TYPE, r.sup, inv) && Fed(axioms, owl, k);
      }
    }
  }

  lemma ClassesUntyped(tbox: set<TboxRow>, scope: Id, axioms: set<Triple>, owl: bool)
    requires RowsSay(tbox, scope, axioms, owl)
    ensures RowsTypeNoClass(tbox, scope, owl) <==> FedClassesStayUntyped(axioms, owl)
  {
    hide Leads, TypesEnd, Fed, LeadRows, TypingKind, FedClasses, RowsOfScope;
    if FedClassesStayUntyped(axioms, owl) {
      forall r, k | r in RowsOfScope(tbox, scope, TypingKind(owl, false)) && k in FedClasses(tbox, scope, owl)
        && r.sub == TYPE
        ensures !NonLiteral(k)
      {
        assert TypesEnd(axioms, owl, TYPE, r.sup, false) && Fed(axioms, owl, k);
      }
    }
  }

  lemma DomainsCoverRows(tbox: set<TboxRow>, scope: Id, axioms: set<Triple>, owl: bool, subject: bool)
    requires RowsSay(tbox, scope, axioms, owl) && DomainsOfTypeAreCovered(axioms, owl)
    ensures RowsCoverDomains(tbox, scope, owl, subject)
  {
    hide Leads, Fed, LeadRows, TypingKind, FedClasses, TypesEnd;
    forall r, d | r in RowsOfScope(tbox, scope, TypingKind(owl, subject))
      && d in RowsOfScope(tbox, scope, TypingKind(owl, true)) && d.sub == TYPE
      ensures TboxRow(r.kind, scope, r.sub, d.sup) in tbox
    {
      assert TypesEnd(axioms, owl, r.sub, r.sup, subject) && TypesEnd(axioms, owl, TYPE, d.sup, true);
      assert TypesEnd(axioms, owl, r.sub, d.sup, subject);
      RowOfScope(tbox, scope, TypingKind(owl, subject), r.sub, d.sup);
    }
  }

  lemma RowsCoverAxioms(tbox: set<TboxRow>, scope: Id, axioms: set<Triple>, owl: bool)
    requires RowsSay(tbox, scope, axioms, owl) && forall subject :: RowsCoverDomains(tbox, scope, owl, subject)
    ensures DomainsOfTypeAreCovered(axioms, owl)
  {
    hide Leads, Fed, LeadRows, TypingKind, FedClasses, TypesEnd;
    forall p, class_, k, subject | TypesEnd(axioms, owl, p, class_, subject) && TypesEnd(axioms, owl, TYPE, k, true)
      ensures TypesEnd(axioms, owl, p, k, subject)
    {
      var r :| r in RowsOfScope(tbox, scope, TypingKind(owl, subject)) && r.sub == p && r.sup == class_;
      var d :| d in RowsOfScope(tbox, scope, TypingKind(owl, true)) && d.sub == TYPE && d.sup == k;
      assert RowsCoverDomains(tbox, scope, owl, subject);
      assert TboxRow(r.kind, scope, p, k) in tbox;
      RowOfScope(tbox, scope, TypingKind(owl, subject), p, k);
    }
  }

  lemma DomainsCovered(tbox: set<TboxRow>, scope: Id, axioms: set<Triple>, owl: bool)
    requires RowsSay(tbox, scope, axioms, owl)
    ensures (forall subject :: RowsCoverDomains(tbox, scope, owl, subject)) <==> DomainsOfTypeAreCovered(axioms, owl)
  {
    hide RowsSay, RowsCoverDomains, DomainsOfTypeAreCovered;
    if DomainsOfTypeAreCovered(axioms, owl) {
      forall subject
        ensures RowsCoverDomains(tbox, scope, owl, subject)
      {
        DomainsCoverRows(tbox, scope, axioms, owl, subject);
      }
    }
    if forall subject :: RowsCoverDomains(tbox, scope, owl, subject) {
      RowsCoverAxioms(tbox, scope, axioms, owl);
    }
  }

  /** The condition is one on the closure rows of the graph's scope. */
  lemma StayingPutIsOnRows(c: Entailment, g: Id, axioms: set<Triple>, owl: bool)
    requires PicksClosureOf(c, g, axioms)
    ensures RowsStayPut(c.tbox, ScopeOf(c.scopes, g), owl) <==> TypesStayPut(axioms, owl)
  {
    hide RowsSay, PicksClosureOf, NoTrivialRows, RowsKeepOut, RowsLeadNowhere, RowsTypeNoClass, RowsCoverDomains,
      NothingEntersType,
         FedTypesLeadNowhere, FedClassesStayUntyped, DomainsOfTypeAreCovered;
    var scope := ScopeOf(c.scopes, g);
    PickedRowsSay(c, g, axioms, owl);
    RowsAreNotTrivial(c, g, axioms, owl);
    KeptOut(c.tbox, scope, axioms, owl);
    LedNowhere(c.tbox, scope, axioms, owl);
    ClassesUntyped(c.tbox, scope, axioms, owl);
    DomainsCovered(c.tbox, scope, axioms, owl);
    assert (forall subject :: RowsCoverDomains(c.tbox, scope, owl, subject))
      <==> RowsCoverDomains(c.tbox, scope, owl, true) && RowsCoverDomains(c.tbox, scope, owl, false);
  }

  /** Over a store's axioms for a graph, rewriting answers every pattern outside the schema
      vocabulary on every base as forward chaining does, if and only if the closure rows of the
      graph's scope let types stay put. */
  lemma RewritingAgreesExactly(c: Entailment, quads: set<Quad>, g: Id)
    requires ReadsStore(c, quads) && c.filter.Keep? && !c.reasoning.NoReasoning?
    ensures RowsStayPut(c.tbox, ScopeOf(c.scopes, g), c.reasoning.OwlQl?)
       <==> forall base: set<Quad>, t: Triple | ValidSubjects(base) && t.p !in {SUB_CLASS_OF, SUB_PROPERTY_OF} ::
              Agrees(c.(base := base), g, ApplicableAxioms(quads, g), t)
  {
    hide RowsStayPut, TypesStayPut, ApplicableAxioms, Recomputed, Agrees, PicksClosureOf;
    var axioms := ApplicableAxioms(quads, g);
    StoreIsComparable(c.(base := {}), quads, g);
    StoreIsComparable(c, quads, g);
    StayingPutIsOnRows(c, g, axioms, c.reasoning.OwlQl?);
    if TypesStayPut(axioms, c.reasoning.OwlQl?) {
      forall base: set<Quad>, t: Triple | ValidSubjects(base) && t.p !in {SUB_CLASS_OF, SUB_PROPERTY_OF}
        ensures Agrees(c.(base := base), g, axioms, t)
      {
        RewritingIsForwardChaining(c.(base := base), quads, g, t);
      }
    } else {
      NotStayingPutBreaks(c, g, axioms);
    }
  }

  // ------------------------------------------------------------------ a store

  const P := Iri(OtherNs, 0)
  const Q := Iri(OtherNs, 1)
  const C := Iri(OtherNs, 2)
  const X := Iri(OtherNs, 3)
  const Y := Iri(OtherNs, 4)

  const SUPER := Triple(TYPE, SUB_PROPERTY_OF, Q)
  const TYPED := Triple(P, DOMAIN, C)

  /** `rdf:type rdfs:subPropertyOf q`, `p rdfs:domain C` and `x p y`, in the default graph. */
  const TYPED_STORE: set<Quad> :=
    {InGraph(SUPER, DefaultGraph), InGraph(TYPED, DefaultGraph), Quad(X, P, Y, DefaultGraph)}

  /** A pattern read from that store. */
  function TypedQuery(reasoning: Reasoning): Entailment {
    var tbox := Recomputed(TYPED_STORE);
    Entailment(TYPED_STORE, tbox, reasoning, TransitiveProperties(tbox), LoadedScopes(tbox), Keep)
  }

  /** In that store forward chaining has x a C, hence (x q C); the pattern ?s q ?o misses it. */
  lemma SuperPropertyOfTypeIsMissed(reasoning: Reasoning)
    requires !reasoning.NoReasoning?
    ensures var c, t := TypedQuery(reasoning), Triple(X, Q, C);
      && ReadsStore(c, TYPED_STORE) && ApplicableAxioms(TYPED_STORE, DefaultGraph) == {SUPER, TYPED}
      && t in Chained({SUPER, TYPED}, reasoning.OwlQl?, GraphTriples(TYPED_STORE, DefaultGraph))
      && InGraph(t, DefaultGraph) !in Source(c, None, Some(Q), None)
  {
    hide Recomputed, PropertyArms, Source, Chained, Conclude, PicksClosureOf, Leads;
    var c, t, axioms, owl := TypedQuery(reasoning), Triple(X, Q, C), {SUPER, TYPED}, reasoning.OwlQl?;
    var base, given, typed := GraphTriples(TYPED_STORE, DefaultGraph), Triple(X, P, Y), Triple(X, TYPE, C);
    assert RoleNodes(TYPED_STORE, Ontology) == {};
    assert ApplicableAxioms(TYPED_STORE, DefaultGraph) == axioms;
    StoreIsComparable(c, TYPED_STORE, DefaultGraph);
    TripleOfGraph(TYPED_STORE, DefaultGraph, given);
    ChainedIsClosed(axioms, owl, base);
    StepsToSuper(axioms, owl, given, typed, t);
    PropertySource(c, DefaultGraph, axioms, t);
    PropertyArmRow(c, DefaultGraph, axioms, t);
    forall u | u in base
      ensures !ByProperty(axioms, owl, u, t)
    {
      assert u in {SUPER, TYPED, given};
    }
  }

  lemma StepsToSuper(axioms: set<Triple>, owl: bool, given: Triple, typed: Triple, t: Triple)
    requires TYPED in axioms && TYPED.s == given.p && typed == Triple(given.s, TYPE, TYPED.o)
    requires SUPER in axioms && t == Triple(typed.s, SUPER.o, typed.o)
    ensures typed in Conclude(axioms, owl, given) && t in Conclude(axioms, owl, typed)
  {
    assert typed in TypingRule(axioms, given);
    assert t in PropertyRule(axioms, typed);
  }
}
