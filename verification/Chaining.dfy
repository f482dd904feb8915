/** Forward chaining: the one-step RDFS rules (and, for OWL QL, the inverse and symmetric property
    rules) applied until nothing is new, and the ways in which one stored triple leads to a chained
    one. The rules are those of RDF 1.1 Semantics, section 9.2.1, and OWL 2 Profiles, section 4.3. */
module Chaining {
  import opened Ids
  import opened Walks
  import opened Closure
  import Fixpoint

  // ------------------------------------------------------------------ forward chaining

  /** rdfs7, and equivalent properties in both directions. */
  function PropertyRule(axioms: set<Triple>, t: Triple): set<Triple> {
    (set x | x in axioms && x.p in {SUB_PROPERTY_OF, EQUIVALENT_PROPERTY} && x.s == t.p :: Triple(t.s, x.o, t.o))
    + (set x | x in axioms && x.p == EQUIVALENT_PROPERTY && x.o == t.p :: Triple(t.s, x.s, t.o))
  }

  /** rdfs2 and rdfs3. */
  function TypingRule(axioms: set<Triple>, t: Triple): set<Triple> {
    (set x | x in axioms && x.p == DOMAIN && x.s == t.p :: Triple(t.s, TYPE, x.o))
    + (set x | x in axioms && x.p == RANGE && x.s == t.p :: Triple(t.o, TYPE, x.o))
  }

  /** rdfs9, and equivalent classes in both directions. */
  function ClassRule(axioms: set<Triple>, t: Triple): set<Triple> {
    if t.p != TYPE then {} else
    (set x | x in axioms && x.p in {SUB_CLASS_OF, EQUIVALENT_CLASS} && x.s == t.o :: Triple(t.s, TYPE, x.o))
    + (set x | x in axioms && x.p == EQUIVALENT_CLASS && x.o == t.o :: Triple(t.s, TYPE, x.s))
  }

  /** prp-inv1, prp-inv2 and prp-symp. */
  function InverseRule(axioms: set<Triple>, t: Triple): set<Triple> {
    (set x | x in axioms && x.p == INVERSE_OF && x.s == t.p :: Triple(t.o, x.o, t.s))
    + (set x | x in axioms && x.p == INVERSE_OF && x.o == t.p :: Triple(t.o, x.s, t.s))
    + (set x | x in axioms && x.p == TYPE && x.o == SYMMETRIC && x.s == t.p :: Triple(t.o, t.p, t.s))
  }

  /** What one triple yields in one step. */
  function Conclude(axioms: set<Triple>, owl: bool, t: Triple): set<Triple> {
    PropertyRule(axioms, t) + TypingRule(axioms, t) + ClassRule(axioms, t) + if owl then InverseRule(axioms, t) else {}
  }

  function Conclusions(axioms: set<Triple>, owl: bool): Triple -> set<Triple> {
    (t: Triple) => Conclude(axioms, owl, t)
  }

  function Universe(axioms: set<Triple>, base: set<Triple>): set<Triple> {
    var ids := Terms(axioms) + Terms(base) + {TYPE};
    set s, p, o | s in ids && p in ids && o in ids :: Triple(s, p, o)
  }

  lemma RulesStayWithin(axioms: set<Triple>, owl: bool, ids: set<Id>, t: Triple)
    requires (forall x | x in axioms :: Within(ids, x)) && Within(ids, t) && TYPE in ids
    ensures forall n | n in Conclude(axioms, owl, t) :: Within(ids, n)
  {
    assert forall n | n in PropertyRule(axioms, t) :: Within(ids, n);
    assert forall n | n in TypingRule(axioms, t) :: Within(ids, n);
    assert forall n | n in ClassRule(axioms, t) :: Within(ids, n);
    assert forall n | n in InverseRule(axioms, t) :: Within(ids, n);
  }

  lemma UniverseHolds(axioms: set<Triple>, owl: bool, base: set<Triple>)
    ensures Fixpoint.Bounded(base, Conclusions(axioms, owl), Universe(axioms, base))
  {
    hide Conclude;
    var ids := Terms(axioms) + Terms(base) + {TYPE};
    assert forall x | x in axioms :: Within(ids, x);
    assert forall x | x in base :: Within(ids, x);
    forall t | t in Universe(axioms, base)
      ensures Conclude(axioms, owl, t) <= Universe(axioms, base)
    {
      RulesStayWithin(axioms, owl, ids, t);
    }
  }

  /** The forward-chaining fixpoint over generalized triples (literal subjects allowed). */
  function Chained(axioms: set<Triple>, owl: bool, base: set<Triple>): set<Triple> {
    UniverseHolds(axioms, owl, base);
    Fixpoint.Least(base, Conclusions(axioms, owl), Universe(axioms, base))
  }

  lemma ChainedIsClosed(axioms: set<Triple>, owl: bool, base: set<Triple>)
    ensures base <= Chained(axioms, owl, base)
    ensures forall t | t in Chained(axioms, owl, base) :: Conclude(axioms, owl, t) <= Chained(axioms, owl, base)
  {
    UniverseHolds(axioms, owl, base);
    Fixpoint.LeastIsClosed(base, Conclusions(axioms, owl), Universe(axioms, base));
  }

  // ------------------------------------------------------------------ the ways of an arm

  function ArcsFor(axioms: set<Triple>, owl: bool): set<Arc> {
    if owl then OwlArcs(axioms) else PropertyArcs(axioms)
  }

  /** From a property to another, forwards (`inv` false, possibly staying put) or swapped. */
  ghost predicate Leads(axioms: set<Triple>, owl: bool, p: Id, q: Id, inv: bool) {
    (p == q && !inv) || Linked(ArcsFor(axioms, owl), p, q, inv)
  }

  function Oriented(t: Triple, q: Id, inv: bool): Triple {
    if inv then Triple(t.o, q, t.s) else Triple(t.s, q, t.o)
  }

  /** `t` is `u` carried along property axioms. */
  ghost predicate ByProperty(axioms: set<Triple>, owl: bool, u: Triple, t: Triple) {
    exists inv :: Leads(axioms, owl, u.p, t.p, inv) && t == Oriented(u, t.p, inv)
  }

  /** Triples of `p` type one of their ends with a class: through a domain or range of a property
      `p` leads to. */
  ghost predicate TypesEnd(axioms: set<Triple>, owl: bool, p: Id, class_: Id, subject: bool) {
    exists q, inv, constraint ::
      && constraint in {DOMAIN, RANGE}
      && Leads(axioms, owl, p, q, inv) && Gives(axioms, q, constraint, class_)
      && subject == ((constraint == DOMAIN) != inv)
  }

  function End(u: Triple, subject: bool): Id {
    if subject then u.s else u.o
  }

  /** `t` types an end of `u`. */
  ghost predicate ByTyping(axioms: set<Triple>, owl: bool, u: Triple, t: Triple) {
    t.p == TYPE && exists subject :: TypesEnd(axioms, owl, u.p, t.o, subject) && t.s == End(u, subject)
  }

  ghost predicate ByClass(axioms: set<Triple>, u: Triple, t: Triple) {
    t.p == TYPE && u.p == TYPE && t.s == u.s && Linked(ClassArcs(axioms), u.o, t.o, false)
  }

  ghost predicate Way(axioms: set<Triple>, owl: bool, u: Triple, t: Triple) {
    ByProperty(axioms, owl, u, t) || ByTyping(axioms, owl, u, t) || ByClass(axioms, u, t)
  }

  // ------------------------------------------------------------------ every way is chained

  /** The property rules are the arcs. */
  lemma ArcIsRule(axioms: set<Triple>, owl: bool, e: Arc, t: Triple)
    requires e in ArcsFor(axioms, owl) && e.a == t.p
    ensures Oriented(t, e.b, e.inv) in Conclude(axioms, owl, t)
  {
    if e in ArcsFrom(axioms, {SUB_PROPERTY_OF, EQUIVALENT_PROPERTY}, false, false) {
      assert Oriented(t, e.b, e.inv) in PropertyRule(axioms, t);
    } else if e in ArcsFrom(axioms, {EQUIVALENT_PROPERTY}, true, false) {
      assert Oriented(t, e.b, e.inv) in PropertyRule(axioms, t);
    } else {
      assert Oriented(t, e.b, e.inv) in InverseRule(axioms, t);
    }
  }

  lemma {:induction false} WalkIsChained(axioms: set<Triple>, owl: bool, base: set<Triple>, u: Triple, q: Id,
      w: seq<Arc>)
    requires u in Chained(axioms, owl, base) && IsWalk(ArcsFor(axioms, owl), w, u.p, q)
    ensures Oriented(u, q, Inverses(w) % 2 == 1) in Chained(axioms, owl, base)
    decreases |w|
  {
    hide Chained, Conclude, ArcsFor;
    ChainedIsClosed(axioms, owl, base);
    var e, v := LinkedLast(ArcsFor(axioms, owl), u.p, q, w);
    if v == [] {
      ArcIsRule(axioms, owl, e, u);
    } else {
      WalkIsChained(axioms, owl, base, u, e.a, v);
      ArcIsRule(axioms, owl, e, Oriented(u, e.a, Inverses(v) % 2 == 1));
    }
  }

  lemma ClassArcIsRule(axioms: set<Triple>, e: Arc, t: Triple)
    requires e in ClassArcs(axioms) && e.a == t.o && t.p == TYPE
    ensures Triple(t.s, TYPE, e.b) in ClassRule(axioms, t)
  {
  }

  lemma {:induction false} ClassWalkIsChained(axioms: set<Triple>, owl: bool, base: set<Triple>, s: Id, c: Id, d: Id,
      w: seq<Arc>)
    requires Triple(s, TYPE, c) in Chained(axioms, owl, base) && IsWalk(ClassArcs(axioms), w, c, d)
    ensures Triple(s, TYPE, d) in Chained(axioms, owl, base)
    decreases |w|
  {
    hide Chained, ClassRule, ClassArcs;
    ChainedIsClosed(axioms, owl, base);
    var e, v := LinkedLast(ClassArcs(axioms), c, d, w);
    if v != [] {
      ClassWalkIsChained(axioms, owl, base, s, c, e.a, v);
    }
    ClassArcIsRule(axioms, e, Triple(s, TYPE, e.a));
  }

  /** Soundness: an arm yields nothing forward chaining would not. */
  lemma WaysAreChained(axioms: set<Triple>, owl: bool, base: set<Triple>, u: Triple, t: Triple)
    requires u in Chained(axioms, owl, base) && Way(axioms, owl, u, t)
    ensures t in Chained(axioms, owl, base)
  {
    hide Chained, Gives, Conclude, ClassArcs, Linked;
    if ByProperty(axioms, owl, u, t) {
      var inv :| Leads(axioms, owl, u.p, t.p, inv) && t == Oriented(u, t.p, inv);
      LeadIsChained(axioms, owl, base, u, t.p, inv);
    } else if ByClass(axioms, u, t) {
      ClassLinkIsChained(axioms, owl, base, u.s, u.o, t.o);
    } else {
      var subject :| TypesEnd(axioms, owl, u.p, t.o, subject) && t.s == End(u, subject);
      var q, inv, constraint :| constraint in {DOMAIN, RANGE}
        && Leads(axioms, owl, u.p, q, inv) && Gives(axioms, q, constraint, t.o)
        && subject == ((constraint == DOMAIN) != inv);
      LeadIsChained(axioms, owl, base, u, q, inv);
      GivenIsChained(axioms, owl, base, Oriented(u, q, inv), constraint, t.o);
    }
  }

  lemma LeadIsChained(axioms: set<Triple>, owl: bool, base: set<Triple>, u: Triple, q: Id, inv: bool)
    requires u in Chained(axioms, owl, base) && Leads(axioms, owl, u.p, q, inv)
    ensures Oriented(u, q, inv) in Chained(axioms, owl, base)
  {
    hide Chained, ArcsFor;
    if !(u.p == q && !inv) {
      var w :| IsWalk(ArcsFor(axioms, owl), w, u.p, q) && inv == (Inverses(w) % 2 == 1);
      WalkIsChained(axioms, owl, base, u, q, w);
    }
  }

  lemma ClassLinkIsChained(axioms: set<Triple>, owl: bool, base: set<Triple>, s: Id, c: Id, d: Id)
    requires Triple(s, TYPE, c) in Chained(axioms, owl, base) && Reaches(ClassArcs(axioms), c, d)
    ensures Triple(s, TYPE, d) in Chained(axioms, owl, base)
  {
    hide Chained, ClassArcs;
    if c != d {
      var w :| IsWalk(ClassArcs(axioms), w, c, d);
      ClassWalkIsChained(axioms, owl, base, s, c, d, w);
    }
  }

  lemma GivenIsChained(axioms: set<Triple>, owl: bool, base: set<Triple>, t: Triple, constraint: Id, class_: Id)
    requires t in Chained(axioms, owl, base) && constraint in {DOMAIN, RANGE} && Gives(axioms, t.p, constraint, class_)
    ensures Triple(if constraint == DOMAIN then t.s else t.o, TYPE, class_) in Chained(axioms, owl, base)
  {
    hide Chained, ClassArcs, Reaches;
    ChainedIsClosed(axioms, owl, base);
    var x :| x in axioms && x.p == constraint && x.s == t.p && Reaches(ClassArcs(axioms), x.o, class_);
    var s := if constraint == DOMAIN then t.s else t.o;
    assert Triple(s, TYPE, x.o) in TypingRule(axioms, t);
    ClassLinkIsChained(axioms, owl, base, s, x.o, class_);
  }

  // ------------------------------------------------------------------ when types stay put

  /** Some triple can give something this class anew: through a domain or range, or as an
      instance of another class. */
  ghost predicate Fed(axioms: set<Triple>, owl: bool, class_: Id) {
    || (exists p, subject :: TypesEnd(axioms, owl, p, class_, subject))
    || (exists c :: Entails(axioms, Class, c, class_))
  }

  /** No other property, and no swap, leads to `rdf:type`. */
  ghost predicate NothingEntersType(axioms: set<Triple>, owl: bool) {
    forall p, inv | Leads(axioms, owl, p, TYPE, inv) :: p == TYPE && !inv
  }

  /** `rdf:type` leads to no property a pattern is answered for, as long as some class can be given
      anew; a swapped triple counts only if the class can be its subject. */
  ghost predicate FedTypesLeadNowhere(axioms: set<Triple>, owl: bool) {
    forall class_, q, inv | Fed(axioms, owl, class_) && Leads(axioms, owl, TYPE, q, inv) ::
      q in {TYPE, SUB_CLASS_OF, SUB_PROPERTY_OF} || (inv && !NonLiteral(class_))
  }

  /** A range of `rdf:type` types no class that can be given anew. */
  ghost predicate FedClassesStayUntyped(axioms: set<Triple>, owl: bool) {
    forall class_, d | Fed(axioms, owl, class_) && TypesEnd(axioms, owl, TYPE, d, false) :: !NonLiteral(class_)
  }

  /** What a domain of `rdf:type` gives everything typed, a typing property gives by itself. */
  ghost predicate DomainsOfTypeAreCovered(axioms: set<Triple>, owl: bool) {
    forall p, class_, d, subject | TypesEnd(axioms, owl, p, class_, subject) && TypesEnd(axioms, owl, TYPE, d, true) ::
      TypesEnd(axioms, owl, p, d, subject)
  }

  /** What the axioms say of `rdf:type` never builds on a type they give themselves. All of it can
      be read off the closure rows of a scope (see `TypingRowsTypeEnds`). */
  ghost predicate TypesStayPut(axioms: set<Triple>, owl: bool) {
    && NothingEntersType(axioms, owl) && FedTypesLeadNowhere(axioms, owl)
    && FedClassesStayUntyped(axioms, owl) && DomainsOfTypeAreCovered(axioms, owl)
  }

  lemma LeadOn(axioms: set<Triple>, owl: bool, p: Id, inv: bool, e: Arc)
    requires Leads(axioms, owl, p, e.a, inv) && e in ArcsFor(axioms, owl)
    ensures Leads(axioms, owl, p, e.b, inv != e.inv)
  {
    hide ArcsFor;
    LinkedArc(ArcsFor(axioms, owl), e);
    if p != e.a || inv {
      LinkedAppend(ArcsFor(axioms, owl), p, e.a, inv, e);
    }
  }

  lemma RuleIsArc(axioms: set<Triple>, owl: bool, t: Triple, n: Triple) returns (e: Arc)
    requires n in PropertyRule(axioms, t) || (owl && n in InverseRule(axioms, t))
    ensures e in ArcsFor(axioms, owl) && e.a == t.p && n == Oriented(t, e.b, e.inv)
  {
    if x :| x in axioms && x.p in {SUB_PROPERTY_OF, EQUIVALENT_PROPERTY} && x.s == t.p && n == Triple(t.s, x.o, t.o) {
      e := Arc(x.s, x.o, false);
      assert e in ArcsFrom(axioms, {SUB_PROPERTY_OF, EQUIVALENT_PROPERTY}, false, false);
    } else if x :| x in axioms && x.p == EQUIVALENT_PROPERTY && x.o == t.p && n == Triple(t.s, x.s, t.o) {
      e := Arc(x.o, x.s, false);
      assert e in ArcsFrom(axioms, {EQUIVALENT_PROPERTY}, true, false);
    } else if x :| x in axioms && x.p == INVERSE_OF && x.s == t.p && n == Triple(t.o, x.o, t.s) {
      e := Arc(x.s, x.o, true);
      assert e in ArcsFrom(axioms, {INVERSE_OF}, false, true);
    } else if x :| x in axioms && x.p == INVERSE_OF && x.o == t.p && n == Triple(t.o, x.s, t.s) {
      e := Arc(x.o, x.s, true);
      assert e in ArcsFrom(axioms, {INVERSE_OF}, true, true);
    } else {
      var x :| x in axioms && x.p == TYPE && x.o == SYMMETRIC && x.s == t.p && n == Triple(t.o, t.p, t.s);
      e := Arc(x.s, x.s, true);
      assert e in SymmetricArcs(axioms);
    }
  }

  /** A typing rule after a property is a typing of an end. */
  lemma TypingAfterLead(axioms: set<Triple>, owl: bool, u: Triple, q: Id, inv: bool, n: Triple) returns (subject: bool)
    requires Leads(axioms, owl, u.p, q, inv) && n in TypingRule(axioms, Oriented(u, q, inv))
    ensures n.p == TYPE && TypesEnd(axioms, owl, u.p, n.o, subject) && n.s == End(u, subject)
  {
    hide ArcsFor, Linked, Leads;
    var t := Oriented(u, q, inv);
    var x :| x in axioms && x.p in {DOMAIN, RANGE} && x.s == q
      && n == Triple(if x.p == DOMAIN then t.s else t.o, TYPE, x.o);
    subject := (x.p == DOMAIN) != inv;
    assert Gives(axioms, q, x.p, n.o);
  }

  lemma ClassOn(axioms: set<Triple>, a: Id, e: Arc)
    requires Reaches(ClassArcs(axioms), a, e.a) && e in ClassArcs(axioms) && !e.inv
    ensures Linked(ClassArcs(axioms), a, e.b, false)
  {
    hide ClassArcs;
    LinkedArc(ClassArcs(axioms), e);
    if a != e.a {
      LinkedAppend(ClassArcs(axioms), a, e.a, false, e);
    }
  }

  lemma TypesMore(axioms: set<Triple>, owl: bool, p: Id, subject: bool, e: Arc)
    requires TypesEnd(axioms, owl, p, e.a, subject) && e in ClassArcs(axioms) && !e.inv
    ensures TypesEnd(axioms, owl, p, e.b, subject)
  {
    hide ClassArcs, Leads;
    var q, inv, constraint :| constraint in {DOMAIN, RANGE}
      && Leads(axioms, owl, p, q, inv) && Gives(axioms, q, constraint, e.a)
      && subject == ((constraint == DOMAIN) != inv);
    var x :| x in axioms && x.p == constraint && x.s == q && Reaches(ClassArcs(axioms), x.o, e.a);
    ClassOn(axioms, x.o, e);
    assert Gives(axioms, q, constraint, e.b);
  }

  lemma ClassRuleIsArc(axioms: set<Triple>, t: Triple, n: Triple) returns (e: Arc)
    requires n in ClassRule(axioms, t)
    ensures e in ClassArcs(axioms) && e == Arc(t.o, n.o, false) && t.p == TYPE && n == Triple(t.s, TYPE, n.o)
  {
    e := Arc(t.o, n.o, false);
    assert e in ArcsFrom(axioms, {SUB_CLASS_OF, EQUIVALENT_CLASS}, false, false)
      || e in ArcsFrom(axioms, {EQUIVALENT_CLASS}, true, false);
  }

  /** Through a class axiom a type stays a type had the same way. */
  lemma ClassRuleKeepsWays(axioms: set<Triple>, owl: bool, u: Triple, t: Triple, n: Triple)
    requires Way(axioms, owl, u, t) && n in ClassRule(axioms, t) && NothingEntersType(axioms, owl)
    ensures Way(axioms, owl, u, n)
  {
    hide ClassArcs, Linked, Leads, TypesEnd, ClassRule;
    var e := ClassRuleIsArc(axioms, t, n);
    if ByProperty(axioms, owl, u, t) {
      var inv :| Leads(axioms, owl, u.p, t.p, inv) && t == Oriented(u, t.p, inv);
      ClassOn(axioms, u.o, e);
      assert ByClass(axioms, u, n);
    } else if ByClass(axioms, u, t) {
      ClassOn(axioms, u.o, e);
      assert ByClass(axioms, u, n);
    } else {
      var subject :| TypesEnd(axioms, owl, u.p, t.o, subject) && t.s == End(u, subject);
      TypesMore(axioms, owl, u.p, subject, e);
      assert ByTyping(axioms, owl, u, n);
    }
  }

  /** The type of a way that is not asserted is of a class given anew. */
  lemma TypingWayIsFed(axioms: set<Triple>, owl: bool, u: Triple, t: Triple)
    requires Way(axioms, owl, u, t) && !ByProperty(axioms, owl, u, t)
    ensures t.p == TYPE && Fed(axioms, owl, t.o)
  {
    hide ClassArcs, Linked, TypesEnd;
    if ByClass(axioms, u, t) {
      assert u.o == t.o ==> Leads(axioms, owl, u.p, t.p, false) && t == Oriented(u, t.p, false);
      assert Entails(axioms, Class, u.o, t.o);
    }
  }

  ghost predicate HasWay(axioms: set<Triple>, owl: bool, base: set<Triple>, t: Triple) {
    exists u :: u in base && Way(axioms, owl, u, t)
  }

  /** A type given anew: had from the base, or of a literal class. */
  ghost predicate IsGiven(axioms: set<Triple>, owl: bool, base: set<Triple>, t: Triple) {
    && t.p == TYPE && Fed(axioms, owl, t.o)
    && (HasWay(axioms, owl, base, t) || (!NonLiteral(t.s) && Fed(axioms, owl, t.s)))
  }

  /** What property axioms make of a type given anew: no pattern asks for it. */
  ghost predicate IsUnasked(axioms: set<Triple>, owl: bool, base: set<Triple>, t: Triple) {
    exists given, inv :: IsGiven(axioms, owl, base, given) && Leads(axioms, owl, TYPE, t.p, inv)
      && t == Oriented(given, t.p, inv)
  }

  ghost predicate IsAccounted(axioms: set<Triple>, owl: bool, base: set<Triple>, t: Triple) {
    HasWay(axioms, owl, base, t) || IsUnasked(axioms, owl, base, t)
  }

  lemma ItsOwnWay(axioms: set<Triple>, owl: bool, t: Triple)
    ensures Way(axioms, owl, t, t)
  {
    assert Leads(axioms, owl, t.p, t.p, false) && t == Oriented(t, t.p, false);
  }

  lemma GivenIsUnasked(axioms: set<Triple>, owl: bool, base: set<Triple>, t: Triple)
    requires IsGiven(axioms, owl, base, t)
    ensures IsUnasked(axioms, owl, base, t)
  {
    hide IsGiven;
    assert t.p == TYPE by { TypeOfGiven(axioms, owl, base, t); }
    assert Leads(axioms, owl, TYPE, t.p, false) && t == Oriented(t, t.p, false);
  }

  lemma TypeOfGiven(axioms: set<Triple>, owl: bool, base: set<Triple>, t: Triple)
    requires IsGiven(axioms, owl, base, t)
    ensures t.p == TYPE && Fed(axioms, owl, t.o)
  {
  }

  /** A triple had from the base and not by a property axiom is a type given anew. */
  lemma WayIsPropertyOrGiven(axioms: set<Triple>, owl: bool, base: set<Triple>, u: Triple, t: Triple)
    requires u in base && Way(axioms, owl, u, t)
    ensures ByProperty(axioms, owl, u, t) || IsGiven(axioms, owl, base, t)
  {
    hide Way, ByProperty, Fed;
    if !ByProperty(axioms, owl, u, t) {
      TypingWayIsFed(axioms, owl, u, t);
      assert HasWay(axioms, owl, base, t);
    }
  }

  /** Property rules: along the way of the triple, or on from the type it was made of. */
  lemma PropertyRuleAccounts(axioms: set<Triple>, owl: bool, base: set<Triple>, t: Triple, n: Triple)
    requires IsAccounted(axioms, owl, base, t)
    requires n in PropertyRule(axioms, t) || (owl && n in InverseRule(axioms, t))
    ensures IsAccounted(axioms, owl, base, n)
  {
    var e := RuleIsArc(axioms, owl, t, n);
    hide ArcsFor, IsGiven, Leads, TypesEnd;
    if HasWay(axioms, owl, base, t) {
      var u :| u in base && Way(axioms, owl, u, t);
      WayIsPropertyOrGiven(axioms, owl, base, u, t);
      if ByProperty(axioms, owl, u, t) {
        var inv :| Leads(axioms, owl, u.p, t.p, inv) && t == Oriented(u, t.p, inv);
        LeadOn(axioms, owl, u.p, inv, e);
        assert n == Oriented(u, n.p, inv != e.inv);
        assert ByProperty(axioms, owl, u, n);
        return;
      }
      GivenIsUnasked(axioms, owl, base, t);
    }
    var given, inv :| IsGiven(axioms, owl, base, given) && Leads(axioms, owl, TYPE, t.p, inv)
      && t == Oriented(given, t.p, inv);
    LeadOn(axioms, owl, TYPE, inv, e);
    assert n == Oriented(given, n.p, inv != e.inv);
  }

  /** Typing the ends of a type given anew yields only what its own way yields, or types of
      literals. */
  lemma TypingOfGiven(axioms: set<Triple>, owl: bool, base: set<Triple>, given: Triple, n: Triple, subject: bool)
    requires IsGiven(axioms, owl, base, given) && TypesStayPut(axioms, owl)
    requires n.p == TYPE && TypesEnd(axioms, owl, TYPE, n.o, subject) && n.s == End(given, subject)
    ensures IsAccounted(axioms, owl, base, n)
  {
    hide TypesEnd, NothingEntersType, FedTypesLeadNowhere, Leads, ClassArcs, Linked;
    assert Fed(axioms, owl, n.o);
    if subject && HasWay(axioms, owl, base, given) {
      var u :| u in base && Way(axioms, owl, u, given);
      TypingOfWay(axioms, owl, u, given, n);
      assert HasWay(axioms, owl, base, n);
    } else {
      assert !NonLiteral(n.s) && Fed(axioms, owl, n.s);
      GivenIsUnasked(axioms, owl, base, n);
    }
  }

  lemma TypingOfWay(axioms: set<Triple>, owl: bool, u: Triple, given: Triple, n: Triple)
    requires Way(axioms, owl, u, given) && given.p == TYPE && TypesStayPut(axioms, owl)
    requires n.p == TYPE && TypesEnd(axioms, owl, TYPE, n.o, true) && n.s == given.s
    ensures Way(axioms, owl, u, n)
  {
    hide TypesEnd, Leads, ClassArcs, Linked;
    if ByProperty(axioms, owl, u, given) {
      var inv :| Leads(axioms, owl, u.p, TYPE, inv) && given == Oriented(u, TYPE, inv);
      assert n.s == End(u, true);
      assert ByTyping(axioms, owl, u, n);
    } else if ByClass(axioms, u, given) {
      assert n.s == End(u, true);
      assert ByTyping(axioms, owl, u, n);
    } else {
      var subject :| TypesEnd(axioms, owl, u.p, given.o, subject) && given.s == End(u, subject);
      assert TypesEnd(axioms, owl, u.p, n.o, subject);
      assert ByTyping(axioms, owl, u, n);
    }
  }

  lemma TypingRuleAccounts(axioms: set<Triple>, owl: bool, base: set<Triple>, t: Triple, n: Triple)
    requires IsAccounted(axioms, owl, base, t) && n in TypingRule(axioms, t) && TypesStayPut(axioms, owl)
    ensures IsAccounted(axioms, owl, base, n)
  {
    hide IsGiven, Leads, TypesEnd, TypesStayPut, TypingRule;
    if HasWay(axioms, owl, base, t) {
      var u :| u in base && Way(axioms, owl, u, t);
      WayIsPropertyOrGiven(axioms, owl, base, u, t);
      if ByProperty(axioms, owl, u, t) {
        var inv :| Leads(axioms, owl, u.p, t.p, inv) && t == Oriented(u, t.p, inv);
        var subject := TypingAfterLead(axioms, owl, u, t.p, inv, n);
        assert ByTyping(axioms, owl, u, n);
        return;
      }
      GivenIsUnasked(axioms, owl, base, t);
    }
    var given, inv :| IsGiven(axioms, owl, base, given) && Leads(axioms, owl, TYPE, t.p, inv)
      && t == Oriented(given, t.p, inv);
    TypeOfGiven(axioms, owl, base, given);
    var subject := TypingAfterLead(axioms, owl, given, t.p, inv, n);
    TypingOfGiven(axioms, owl, base, given, n, subject);
  }

  lemma ClassRuleAccounts(axioms: set<Triple>, owl: bool, base: set<Triple>, t: Triple, n: Triple)
    requires IsAccounted(axioms, owl, base, t) && n in ClassRule(axioms, t) && NothingEntersType(axioms, owl)
    ensures IsAccounted(axioms, owl, base, n)
  {
    hide Way, Leads, TypesEnd, ClassRule, Linked;
    var e := ClassRuleIsArc(axioms, t, n);
    if HasWay(axioms, owl, base, t) {
      var u :| u in base && Way(axioms, owl, u, t);
      ClassRuleKeepsWays(axioms, owl, u, t, n);
      return;
    }
    var given, inv :| IsGiven(axioms, owl, base, given) && Leads(axioms, owl, TYPE, t.p, inv)
      && t == Oriented(given, t.p, inv);
    assert given == t;
    LinkedArc(ClassArcs(axioms), e);
    assert Entails(axioms, Class, t.o, n.o) || t.o == n.o;
    assert Fed(axioms, owl, n.o);
    GivenIsUnasked(axioms, owl, base, n);
  }

  /** Completeness: when types stay put, forward chaining yields nothing beyond the arms but
      triples no pattern asks for. */
  lemma ChainedAreAccounted(axioms: set<Triple>, owl: bool, base: set<Triple>)
    requires TypesStayPut(axioms, owl)
    ensures forall t | t in Chained(axioms, owl, base) :: IsAccounted(axioms, owl, base, t)
  {
    hide Way, Conclude, TypesStayPut, IsUnasked;
    var good := set t | t in Chained(axioms, owl, base) && IsAccounted(axioms, owl, base, t);
    ChainedIsClosed(axioms, owl, base);
    forall t | t in base
      ensures t in good
    {
      ItsOwnWay(axioms, owl, t);
    }
    forall t | t in good
      ensures Conclude(axioms, owl, t) <= good
    {
      forall n | n in Conclude(axioms, owl, t)
        ensures n in good
      {
        RulesAccount(axioms, owl, base, t, n);
      }
    }
    UniverseHolds(axioms, owl, base);
    Fixpoint.LeastIsLeast(base, Conclusions(axioms, owl), Universe(axioms, base), good);
  }

  lemma RulesAccount(axioms: set<Triple>, owl: bool, base: set<Triple>, t: Triple, n: Triple)
    requires TypesStayPut(axioms, owl) && IsAccounted(axioms, owl, base, t) && n in Conclude(axioms, owl, t)
    ensures IsAccounted(axioms, owl, base, n)
  {
    hide IsAccounted, PropertyRule, TypingRule, ClassRule, InverseRule;
    if n in TypingRule(axioms, t) {
      TypingRuleAccounts(axioms, owl, base, t, n);
    } else if n in ClassRule(axioms, t) {
      ClassRuleAccounts(axioms, owl, base, t, n);
    } else {
      PropertyRuleAccounts(axioms, owl, base, t, n);
    }
  }

  /** A triple a pattern asks for: not of the schema vocabulary, its subject no literal. */
  predicate IsAsked(t: Triple) {
    t.p !in {SUB_CLASS_OF, SUB_PROPERTY_OF} && NonLiteral(t.s)
  }

  lemma AskedHaveWays(axioms: set<Triple>, owl: bool, base: set<Triple>, t: Triple)
    requires TypesStayPut(axioms, owl) && IsAsked(t) && t in Chained(axioms, owl, base)
    ensures HasWay(axioms, owl, base, t)
  {
    hide Chained, Way, TypesEnd, Leads, Fed;
    ChainedAreAccounted(axioms, owl, base);
    if !HasWay(axioms, owl, base, t) {
      var given, inv :| IsGiven(axioms, owl, base, given) && Leads(axioms, owl, TYPE, t.p, inv)
        && t == Oriented(given, t.p, inv);
    }
  }

  /** Nor does `rdf:type` lead to this property of the schema vocabulary, once a class is given anew. */
  ghost predicate TypesLeaveAlone(axioms: set<Triple>, owl: bool, p: Id) {
    TypesStayPut(axioms, owl)
    && forall class_, inv | Fed(axioms, owl, class_) && Leads(axioms, owl, TYPE, p, inv) :: inv && !NonLiteral(class_)
  }

  lemma SchemaTriplesHaveWays(axioms: set<Triple>, owl: bool, base: set<Triple>, t: Triple)
    requires t.p in {SUB_CLASS_OF, SUB_PROPERTY_OF} && TypesLeaveAlone(axioms, owl, t.p)
    requires NonLiteral(t.s) && t in Chained(axioms, owl, base)
    ensures HasWay(axioms, owl, base, t)
  {
    hide Chained, Way, TypesEnd, Leads, Fed, TypesStayPut;
    ChainedAreAccounted(axioms, owl, base);
    if !HasWay(axioms, owl, base, t) {
      var given, inv :| IsGiven(axioms, owl, base, given) && Leads(axioms, owl, TYPE, t.p, inv)
        && t == Oriented(given, t.p, inv);
    }
  }

  /** A way by property to a type is the type itself. */
  lemma OnlyItselfEntersType(axioms: set<Triple>, owl: bool, u: Triple, t: Triple)
    requires NothingEntersType(axioms, owl) && ByProperty(axioms, owl, u, t) && t.p == TYPE
    ensures u == t
  {
    hide Leads;
  }

  /** The plain case: no property axiom speaks of `rdf:type` at all. */
  predicate TypeUnconstrained(axioms: set<Triple>) {
    forall x | x in axioms ::
      && (x.p in {SUB_PROPERTY_OF, EQUIVALENT_PROPERTY, INVERSE_OF} ==> x.s != TYPE && x.o != TYPE)
      && (x.p in {DOMAIN, RANGE} ==> x.s != TYPE)
      && (x.p == TYPE && x.o == SYMMETRIC ==> x.s != TYPE)
  }

  lemma TypeHasNoArcs(axioms: set<Triple>, owl: bool)
    requires TypeUnconstrained(axioms)
    ensures forall e | e in ArcsFor(axioms, owl) :: e.a != TYPE && e.b != TYPE
  {
  }

  /** Without such axioms types stay put. */
  lemma UnconstrainedTypesStayPut(axioms: set<Triple>, owl: bool)
    requires TypeUnconstrained(axioms)
    ensures TypesStayPut(axioms, owl)
  {
    hide ArcsFor;
    TypeHasNoArcs(axioms, owl);
    forall w, p
      ensures !IsWalk(ArcsFor(axioms, owl), w, p, TYPE) && !IsWalk(ArcsFor(axioms, owl), w, TYPE, p)
    {
    }
    forall q, inv | Leads(axioms, owl, TYPE, q, inv)
      ensures q == TYPE && !inv
    {
    }
    forall d, subject
      ensures !TypesEnd(axioms, owl, TYPE, d, subject)
    {
      assert !Gives(axioms, TYPE, DOMAIN, d) && !Gives(axioms, TYPE, RANGE, d);
    }
  }

  /** Axioms about `rdf:type` are harmless while nothing leads to it and no class is ever given
      anew: a super-property of `rdf:type` alone, for one. */
  lemma UnfedTypesStayPut(axioms: set<Triple>, owl: bool)
    requires NothingEntersType(axioms, owl)
    requires forall x | x in axioms :: x.p !in {DOMAIN, RANGE, SUB_CLASS_OF, EQUIVALENT_CLASS}
    ensures TypesStayPut(axioms, owl)
  {
    hide Leads;
    assert ClassArcs(axioms) == {};
    forall class_
      ensures !Fed(axioms, owl, class_)
    {
      assert forall c, inv :: !Linked({}, c, class_, inv);
      assert forall q, constraint | constraint in {DOMAIN, RANGE} :: !Gives(axioms, q, constraint, class_);
    }
    assert forall p, class_, subject :: TypesEnd(axioms, owl, p, class_, subject) ==> Fed(axioms, owl, class_);
  }

  /** Ontologies as they mostly are: silent about `rdf:type`, or without any axiom that gives types
      and leading no property to `rdf:type`. */
  ghost predicate OrdinaryAxioms(axioms: set<Triple>, owl: bool) {
    || TypeUnconstrained(axioms)
    || (NothingEntersType(axioms, owl) && forall x | x in axioms ::
      x.p !in {DOMAIN, RANGE, SUB_CLASS_OF, EQUIVALENT_CLASS})
  }

  lemma OrdinaryTypesStayPut(axioms: set<Triple>, owl: bool)
    requires OrdinaryAxioms(axioms, owl)
    ensures TypesStayPut(axioms, owl)
  {
    hide NothingEntersType, TypesStayPut;
    if TypeUnconstrained(axioms) {
      UnconstrainedTypesStayPut(axioms, owl);
    } else {
      UnfedTypesStayPut(axioms, owl);
    }
  }
}
