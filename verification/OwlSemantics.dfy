/** What the materialization rules mean: whatever they infer holds in every interpretation in which
    the store holds (reason.rs). The conditions on interpretations are those of OWL 2 RDF-Based
    Semantics, section 5, as far as the rules use them. */
module OwlSemantics {
  import opened Ids
  import opened OwlRules

  // ------------------------------------------------------------------ interpretations

  /** What ids denote, and which pairs each denoted property relates. */
  datatype Interpretation<!D> = Interpretation(den: Id -> D, ext: (D, D, D) -> bool)
  {
    /** `p` relates `x` to `y`. */
    predicate Related(p: D, x: D, y: D) {
      ext(p, x, y)
    }

    predicate Says(t: Triple) {
      Related(den(t.p), den(t.s), den(t.o))
    }

    predicate Instance(c: D, x: D) {
      Related(den(TYPE), x, c)
    }

    predicate IsClass(c: D) {
      Instance(den(CLASS), c)
    }
  }

  ghost predicate Satisfies<D(!new)>(i: Interpretation<D>, a: set<Triple>) {
    forall t | t in a :: i.Says(t)
  }

  /** The items of a list that ends in rdf:nil. */
  ghost predicate IsSequence<D(!new)>(i: Interpretation<D>, list: D, items: seq<D>)
    decreases |items|
  {
    if items == [] then list == i.den(NIL)
    else i.Related(i.den(FIRST), list, items[0])
         && exists rest :: i.Related(i.den(REST), list, rest) && IsSequence(i, rest, items[1..])
  }

  ghost predicate EqualityMeans<D(!new)>(i: Interpretation<D>) {
    forall x, y :: i.Related(i.den(SAME_AS), x, y) <==> x == y
  }

  ghost predicate TypingMeans<D(!new)>(i: Interpretation<D>) {
    && (forall p, c, x, y | i.Related(i.den(DOMAIN), p, c) && i.Related(p, x, y) :: i.Instance(c, x))
    && (forall p, c, x, y | i.Related(i.den(RANGE), p, c) && i.Related(p, x, y) :: i.Instance(c, y))
  }

  ghost predicate PropertiesMean<D(!new)>(i: Interpretation<D>) {
    && (forall p, x, y, z | i.Instance(i.den(FUNCTIONAL), p) && i.Related(p, x, y) && i.Related(p, x, z) :: y == z)
    && (forall p, x, y, z | i.Instance(i.den(INVERSE_FUNCTIONAL), p) && i.Related(p, x, z) && i.Related(p, y, z) ::
      x == y)
    && (forall p, x, y | i.Instance(i.den(SYMMETRIC), p) && i.Related(p, x, y) :: i.Related(p, y, x))
    && (forall p, x, y, z | i.Instance(i.den(TRANSITIVE), p) && i.Related(p, x, y) && i.Related(p, y, z) ::
          i.Related(p, x, z))
  }

  ghost predicate PropertyAxiomsMean<D(!new)>(i: Interpretation<D>) {
    && (forall p, q, x, y | i.Related(i.den(SUB_PROPERTY_OF), p, q) && i.Related(p, x, y) :: i.Related(q, x, y))
    && (forall p, q, x, y | i.Related(i.den(EQUIVALENT_PROPERTY), p, q) :: i.Related(p, x, y) <==> i.Related(q, x, y))
    && (forall p, q, x, y | i.Related(i.den(INVERSE_OF), p, q) :: i.Related(p, x, y) <==> i.Related(q, y, x))
  }

  ghost predicate Includes<D(!new)>(i: Interpretation<D>, c: D, d: D) {
    forall x | i.Instance(c, x) :: i.Instance(d, x)
  }

  ghost predicate ClassAxiomsMean<D(!new)>(i: Interpretation<D>) {
    && (forall c, d :: i.Related(i.den(SUB_CLASS_OF), c, d) <==> i.IsClass(c) && i.IsClass(d) && Includes(i, c, d))
    && (forall c, d :: i.Related(i.den(EQUIVALENT_CLASS), c, d)
          <==> i.IsClass(c) && i.IsClass(d) && Includes(i, c, d) && Includes(i, d, c))
    && i.IsClass(i.den(THING)) && i.IsClass(i.den(NOTHING))
    && forall x :: i.Instance(i.den(THING), x) && !i.Instance(i.den(NOTHING), x)
  }

  ghost predicate Some<D(!new)>(i: Interpretation<D>, p: D, c: D, x: D) {
    exists y :: i.Related(p, x, y) && i.Instance(c, y)
  }

  ghost predicate All<D(!new)>(i: Interpretation<D>, p: D, c: D, x: D) {
    forall y | i.Related(p, x, y) :: i.Instance(c, y)
  }

  ghost predicate RestrictionsMean<D(!new)>(i: Interpretation<D>) {
    && (forall r, p, v, x | i.Related(i.den(HAS_VALUE), r, v) && i.Related(i.den(ON_PROPERTY), r, p) ::
          i.Instance(r, x) <==> i.Related(p, x, v))
    && (forall r, p, c, x | i.Related(i.den(SOME_VALUES), r, c) && i.Related(i.den(ON_PROPERTY), r, p) ::
          i.Instance(r, x) <==> Some(i, p, c, x))
    && (forall r, p, c, x | i.Related(i.den(ALL_VALUES), r, c) && i.Related(i.den(ON_PROPERTY), r, p) ::
          i.Instance(r, x) <==> All(i, p, c, x))
  }

  predicate InAll<D(!new)>(i: Interpretation<D>, classes: seq<D>, x: D) {
    forall k | 0 <= k < |classes| :: i.Instance(classes[k], x)
  }

  predicate InOne<D(!new)>(i: Interpretation<D>, classes: seq<D>, x: D) {
    exists k :: 0 <= k < |classes| && i.Instance(classes[k], x)
  }

  ghost predicate ListsMean<D(!new)>(i: Interpretation<D>) {
    && (forall c, list, items, x | i.Related(i.den(INTERSECTION), c, list) && IsSequence(i, list, items) ::
          i.Instance(c, x) <==> InAll(i, items, x))
    && (forall c, list, items, x | i.Related(i.den(UNION), c, list) && IsSequence(i, list, items) ::
          i.Instance(c, x) <==> InOne(i, items, x))
  }

  /** Nodes related by these properties, one after the other. */
  predicate Follows<D(!new)>(i: Interpretation<D>, properties: seq<D>, nodes: seq<D>) {
    |nodes| == |properties| + 1 && forall k | 0 <= k < |properties| :: i.Related(properties[k], nodes[k], nodes[k + 1])
  }

  ghost predicate ChainsMean<D(!new)>(i: Interpretation<D>) {
    forall p, list, properties, nodes: seq<D> |
      i.Related(i.den(CHAIN), p, list) && IsSequence(i, list, properties) && properties != []
        && Follows(i, properties, nodes) ::
      i.Related(p, nodes[0], nodes[|properties|])
  }

  /** The semantic conditions. */
  ghost predicate IsModel<D(!new)>(i: Interpretation<D>) {
    && EqualityMeans(i) && TypingMeans(i) && PropertiesMean(i) && PropertyAxiomsMean(i) && ClassAxiomsMean(i)
    && RestrictionsMean(i) && ListsMean(i) && ChainsMean(i)
  }

  // ------------------------------------------------------------------ rules without lists

  lemma EqualityIsSound<D(!new)>(rule: Rule, a: set<Triple>, i: Interpretation<D>)
    requires EqualityMeans(i) && Satisfies(i, a)
    ensures Satisfies(i, Equality(rule, a))
  {
    forall t | t in Equality(rule, a)
      ensures i.Says(t)
    {
      EqualityStep(rule, a, i, t);
    }
  }

  lemma EqualityStep<D(!new)>(rule: Rule, a: set<Triple>, i: Interpretation<D>, t: Triple)
    requires EqualityMeans(i) && Satisfies(i, a) && t in Equality(rule, a)
    ensures i.Says(t)
  {
    match rule {
      case EqSym =>
        var x :| x in a && x.p == SAME_AS && t == Triple(x.o, SAME_AS, x.s);
        assert i.Says(x);
      case EqTrans =>
        var x, y :| x in a && y in a && x.p == SAME_AS && y.s == x.o && y.p == SAME_AS
          && t == Triple(x.s, SAME_AS, y.o);
        assert i.Says(x) && i.Says(y);
      case EqRepS =>
        var e, u :| e in a && u in a && e.p == SAME_AS && u.s == e.s && t == Triple(e.o, u.p, u.o);
        assert i.Says(e) && i.Says(u);
      case EqRepP =>
        var e, u :| e in a && u in a && e.p == SAME_AS && u.p == e.s && t == Triple(u.s, e.o, u.o);
        assert i.Says(e) && i.Says(u);
      case EqRepO =>
        var e, u :| e in a && u in a && e.p == SAME_AS && u.o == e.s && t == Triple(u.s, u.p, e.o);
        assert i.Says(e) && i.Says(u);
      case _ =>
    }
  }

  lemma PropertiesAreSound<D(!new)>(rule: Rule, a: set<Triple>, i: Interpretation<D>)
    requires PropertiesMean(i) && PropertyAxiomsMean(i) && TypingMeans(i) && EqualityMeans(i) && Satisfies(i, a)
    requires !rule.PrpSpo2?
    ensures Satisfies(i, Properties(rule, a))
  {
    forall t | t in Properties(rule, a)
      ensures i.Says(t)
    {
      if rule in {PrpFp, PrpIfp, PrpTrp} {
        FunctionStep(rule, a, i, t);
      } else {
        PropertyStep(rule, a, i, t);
      }
    }
  }

  lemma FunctionsSay<D(!new)>(i: Interpretation<D>, f: Triple, u: Triple, v: Triple)
    requires PropertiesMean(i) && EqualityMeans(i) && i.Says(f) && i.Says(u) && i.Says(v)
    requires f.p == TYPE && f.s == u.p == v.p
    ensures f.o == FUNCTIONAL && u.s == v.s ==> i.Says(Triple(u.o, SAME_AS, v.o))
    ensures f.o == INVERSE_FUNCTIONAL && u.o == v.o ==> i.Says(Triple(u.s, SAME_AS, v.s))
    ensures f.o == TRANSITIVE && u.o == v.s ==> i.Says(Triple(u.s, u.p, v.o))
  {
  }

  lemma FunctionalPremises(a: set<Triple>, t: Triple) returns (f: Triple, u: Triple, v: Triple)
    requires t in Properties(PrpFp, a)
    ensures f in a && u in a && v in a && f.p == TYPE && f.o == FUNCTIONAL && f.s == u.p == v.p && u.s == v.s
    ensures t == Triple(u.o, SAME_AS, v.o)
  {
    f, u, v :| f in a && u in a && v in a && f.p == TYPE && f.o == FUNCTIONAL && u.p == f.s && v.p == f.s
      && v.s == u.s && t == Triple(u.o, SAME_AS, v.o);
  }

  lemma InverseFunctionalPremises(a: set<Triple>, t: Triple) returns (f: Triple, u: Triple, v: Triple)
    requires t in Properties(PrpIfp, a)
    ensures f in a && u in a && v in a && f.p == TYPE && f.o == INVERSE_FUNCTIONAL && f.s == u.p == v.p && u.o == v.o
    ensures t == Triple(u.s, SAME_AS, v.s)
  {
    f, u, v :| f in a && u in a && v in a && f.p == TYPE && f.o == INVERSE_FUNCTIONAL && u.p == f.s && v.p == f.s
      && v.o == u.o && t == Triple(u.s, SAME_AS, v.s);
  }

  lemma TransitivePremises(a: set<Triple>, t: Triple) returns (f: Triple, u: Triple, v: Triple)
    requires t in Properties(PrpTrp, a)
    ensures f in a && u in a && v in a && f.p == TYPE && f.o == TRANSITIVE && f.s == u.p == v.p && u.o == v.s
    ensures t == Triple(u.s, u.p, v.o)
  {
    f, u, v :| f in a && u in a && v in a && f.p == TYPE && f.o == TRANSITIVE && u.p == f.s && v.p == f.s
      && v.s == u.o && t == Triple(u.s, u.p, v.o);
  }

  /** The rules with a property of a property and two triples. */
  lemma FunctionStep<D(!new)>(rule: Rule, a: set<Triple>, i: Interpretation<D>, t: Triple)
    requires PropertiesMean(i) && EqualityMeans(i) && Satisfies(i, a)
    requires rule in {PrpFp, PrpIfp, PrpTrp} && t in Properties(rule, a)
    ensures i.Says(t)
  {
    hide PropertiesMean, EqualityMeans, Properties;
    var f, u, v;
    if rule == PrpFp {
      f, u, v := FunctionalPremises(a, t);
    } else if rule == PrpIfp {
      f, u, v := InverseFunctionalPremises(a, t);
    } else {
      f, u, v := TransitivePremises(a, t);
    }
    assert i.Says(f) && i.Says(u) && i.Says(v);
    FunctionsSay(i, f, u, v);
  }

  /** The rules with one axiom and one triple. */
  lemma PropertyStep<D(!new)>(rule: Rule, a: set<Triple>, i: Interpretation<D>, t: Triple)
    requires PropertiesMean(i) && PropertyAxiomsMean(i) && TypingMeans(i) && Satisfies(i, a)
    requires rule !in {PrpFp, PrpIfp, PrpTrp, PrpSpo2} && t in Properties(rule, a)
    ensures i.Says(t)
  {
    hide Trails, Steps;
    match rule {
      case PrpDom =>
        var x, u :| x in a && u in a && x.p == DOMAIN && u.p == x.s && t == Triple(u.s, TYPE, x.o);
        assert i.Says(x) && i.Says(u);
      case PrpRng =>
        var x, u :| x in a && u in a && x.p == RANGE && u.p == x.s && t == Triple(u.o, TYPE, x.o);
        assert i.Says(x) && i.Says(u);
      case PrpSymp =>
        var x, u :| x in a && u in a && x.p == TYPE && x.o == SYMMETRIC && u.p == x.s && t == Triple(u.o, u.p, u.s);
        assert i.Says(x) && i.Says(u);
      case PrpSpo1 =>
        var x, u :| x in a && u in a && x.p == SUB_PROPERTY_OF && u.p == x.s && t == Triple(u.s, x.o, u.o);
        assert i.Says(x) && i.Says(u);
      case PrpEqp1 =>
        var x, u :| x in a && u in a && x.p == EQUIVALENT_PROPERTY && u.p == x.s && t == Triple(u.s, x.o, u.o);
        assert i.Says(x) && i.Says(u);
      case PrpEqp2 =>
        var x, u :| x in a && u in a && x.p == EQUIVALENT_PROPERTY && u.p == x.o && t == Triple(u.s, x.s, u.o);
        assert i.Says(x) && i.Says(u);
      case PrpInv1 =>
        var x, u :| x in a && u in a && x.p == INVERSE_OF && u.p == x.s && t == Triple(u.o, x.o, u.s);
        assert i.Says(x) && i.Says(u);
      case PrpInv2 =>
        var x, u :| x in a && u in a && x.p == INVERSE_OF && u.p == x.o && t == Triple(u.o, x.s, u.s);
        assert i.Says(x) && i.Says(u);
      case _ =>
    }
  }

  lemma ClassAxiomsAreSound<D(!new)>(rule: Rule, a: set<Triple>, i: Interpretation<D>)
    requires ClassAxiomsMean(i) && Satisfies(i, a)
    ensures Satisfies(i, ClassAxioms(rule, a))
  {
    forall t | t in ClassAxioms(rule, a)
      ensures i.Says(t)
    {
      ClassStep(rule, a, i, t);
    }
  }

  lemma ClassStep<D(!new)>(rule: Rule, a: set<Triple>, i: Interpretation<D>, t: Triple)
    requires ClassAxiomsMean(i) && Satisfies(i, a) && t in ClassAxioms(rule, a)
    ensures i.Says(t)
  {
    match rule {
      case CaxSco =>
        var x, u :| x in a && u in a && x.p == SUB_CLASS_OF && u.p == TYPE && u.o == x.s && t == Triple(u.s, TYPE, x.o);
        assert i.Says(x) && i.Says(u) && i.Instance(i.den(x.s), i.den(u.s));
      case CaxEqc1 =>
        var x, u :| x in a && u in a && x.p == EQUIVALENT_CLASS && u.p == TYPE && u.o == x.s
          && t == Triple(u.s, TYPE, x.o);
        assert i.Says(x) && i.Says(u) && i.Instance(i.den(x.s), i.den(u.s));
      case CaxEqc2 =>
        var x, u :| x in a && u in a && x.p == EQUIVALENT_CLASS && u.p == TYPE && u.o == x.o
          && t == Triple(u.s, TYPE, x.s);
        assert i.Says(x) && i.Says(u) && i.Instance(i.den(x.o), i.den(u.s));
      case ScmSco =>
        var x, y :| x in a && y in a && x.p == SUB_CLASS_OF && y.s == x.o && y.p == SUB_CLASS_OF
          && t == Triple(x.s, SUB_CLASS_OF, y.o);
        assert i.Says(x) && i.Says(y);
      case ScmEqc1 =>
        var x :| x in a && x.p == EQUIVALENT_CLASS
          && (t == Triple(x.s, SUB_CLASS_OF, x.o) || t == Triple(x.o, SUB_CLASS_OF, x.s));
        assert i.Says(x);
      case ClsThing =>
        assert t.p == TYPE && (t.o == THING || (t.o == CLASS && (t.s == THING || t.s == NOTHING)));
        assert i.IsClass(i.den(THING)) && i.IsClass(i.den(NOTHING)) && i.Instance(i.den(THING), i.den(t.s));
      case _ =>
    }
  }

  lemma RestrictionsAreSound<D(!new)>(rule: Rule, a: set<Triple>, i: Interpretation<D>)
    requires RestrictionsMean(i) && ClassAxiomsMean(i) && Satisfies(i, a)
    ensures Satisfies(i, Restrictions(rule, a))
  {
    forall t | t in Restrictions(rule, a)
      ensures i.Says(t)
    {
      if rule in {ClsHv1, ClsHv2} {
        ValueStep(rule, a, i, t);
      } else {
        assert rule in {ClsSvf1, ClsSvf2, ClsAvf};
        QuantifierStep(rule, a, i, t);
      }
    }
  }

  lemma ValuesSay<D(!new)>(i: Interpretation<D>, v: Triple, on: Triple, u: Triple)
    requires RestrictionsMean(i) && i.Says(v) && i.Says(on) && i.Says(u)
    requires v.p == HAS_VALUE && on.p == ON_PROPERTY && on.s == v.s
    ensures u.p == TYPE && u.o == v.s ==> i.Says(Triple(u.s, on.o, v.o))
    ensures u.p == on.o && u.o == v.o ==> i.Says(Triple(u.s, TYPE, v.s))
  {
    assert i.Related(i.den(HAS_VALUE), i.den(v.s), i.den(v.o))
      && i.Related(i.den(ON_PROPERTY), i.den(v.s), i.den(on.o));
    assert i.Instance(i.den(v.s), i.den(u.s)) <==> i.Related(i.den(on.o), i.den(u.s), i.den(v.o));
  }

  lemma HasPremises(a: set<Triple>, t: Triple) returns (v: Triple, on: Triple, u: Triple)
    requires t in Restrictions(ClsHv1, a)
    ensures v in a && on in a && u in a && v.p == HAS_VALUE && on.p == ON_PROPERTY && on.s == v.s
    ensures u.p == TYPE && u.o == v.s && t == Triple(u.s, on.o, v.o)
  {
    v, on, u :| v in a && on in OnProperty(a) && u in a && v.p == HAS_VALUE && on.s == v.s && u.p == TYPE
      && u.o == v.s && t == Triple(u.s, on.o, v.o);
  }

  lemma ValuePremises(a: set<Triple>, t: Triple) returns (v: Triple, on: Triple, u: Triple)
    requires t in Restrictions(ClsHv2, a)
    ensures v in a && on in a && u in a && v.p == HAS_VALUE && on.p == ON_PROPERTY && on.s == v.s
    ensures u.p == on.o && u.o == v.o && t == Triple(u.s, TYPE, v.s)
  {
    v, on, u :| v in a && on in OnProperty(a) && u in a && v.p == HAS_VALUE && on.s == v.s && u.p == on.o
      && u.o == v.o && t == Triple(u.s, TYPE, v.s);
  }

  lemma ValueStep<D(!new)>(rule: Rule, a: set<Triple>, i: Interpretation<D>, t: Triple)
    requires RestrictionsMean(i) && Satisfies(i, a) && rule in {ClsHv1, ClsHv2} && t in Restrictions(rule, a)
    ensures i.Says(t)
  {
    hide RestrictionsMean, Restrictions;
    var v, on, u;
    if rule == ClsHv1 {
      v, on, u := HasPremises(a, t);
    } else {
      v, on, u := ValuePremises(a, t);
    }
    assert i.Says(v) && i.Says(on) && i.Says(u);
    ValuesSay(i, v, on, u);
  }

  lemma SomeSays<D(!new)>(i: Interpretation<D>, v: Triple, on: Triple, u: Triple)
    requires RestrictionsMean(i) && i.Says(v) && i.Says(on) && i.Says(u) && i.Instance(i.den(v.o), i.den(u.o))
    requires v.p == SOME_VALUES && on.p == ON_PROPERTY && on.s == v.s && u.p == on.o
    ensures i.Says(Triple(u.s, TYPE, v.s))
  {
    assert i.Related(i.den(SOME_VALUES), i.den(v.s), i.den(v.o))
      && i.Related(i.den(ON_PROPERTY), i.den(v.s), i.den(on.o));
    assert i.Related(i.den(on.o), i.den(u.s), i.den(u.o));
    assert Some(i, i.den(on.o), i.den(v.o), i.den(u.s));
    assert i.Instance(i.den(v.s), i.den(u.s));
  }

  lemma AllSays<D(!new)>(i: Interpretation<D>, v: Triple, on: Triple, u: Triple)
    requires RestrictionsMean(i) && i.Says(v) && i.Says(on) && i.Says(u) && i.Instance(i.den(v.s), i.den(u.s))
    requires v.p == ALL_VALUES && on.p == ON_PROPERTY && on.s == v.s && u.p == on.o
    ensures i.Says(Triple(u.o, TYPE, v.o))
  {
    assert i.Related(i.den(ALL_VALUES), i.den(v.s), i.den(v.o))
      && i.Related(i.den(ON_PROPERTY), i.den(v.s), i.den(on.o));
    assert All(i, i.den(on.o), i.den(v.o), i.den(u.s));
    assert i.Related(i.den(on.o), i.den(u.s), i.den(u.o));
    assert i.Instance(i.den(v.o), i.den(u.o));
  }

  lemma SomePremises(a: set<Triple>, t: Triple) returns (v: Triple, on: Triple, u: Triple)
    requires t in Restrictions(ClsSvf1, a)
    ensures v in a && on in a && u in a && v.p == SOME_VALUES && on.p == ON_PROPERTY && on.s == v.s && u.p == on.o
    ensures Triple(u.o, TYPE, v.o) in a && t == Triple(u.s, TYPE, v.s)
  {
    v, on, u :| v in a && on in OnProperty(a) && u in a && v.p == SOME_VALUES && on.s == v.s && u.p == on.o
      && Triple(u.o, TYPE, v.o) in a && t == Triple(u.s, TYPE, v.s);
  }

  lemma SomeThingPremises(a: set<Triple>, t: Triple) returns (v: Triple, on: Triple, u: Triple)
    requires t in Restrictions(ClsSvf2, a)
    ensures v in a && on in a && u in a && v.p == SOME_VALUES && on.p == ON_PROPERTY && on.s == v.s && u.p == on.o
    ensures v.o == THING && t == Triple(u.s, TYPE, v.s)
  {
    v, on, u :| v in a && on in OnProperty(a) && u in a && v.p == SOME_VALUES && on.s == v.s && u.p == on.o
      && v.o == THING && t == Triple(u.s, TYPE, v.s);
  }

  lemma AllPremises(a: set<Triple>, t: Triple) returns (v: Triple, on: Triple, u: Triple)
    requires t in Restrictions(ClsAvf, a)
    ensures v in a && on in a && u in a && v.p == ALL_VALUES && on.p == ON_PROPERTY && on.s == v.s && u.p == on.o
    ensures Triple(u.s, TYPE, v.s) in a && t == Triple(u.o, TYPE, v.o)
  {
    v, on, u :| v in a && on in OnProperty(a) && u in a && v.p == ALL_VALUES && on.s == v.s && u.p == on.o
      && Triple(u.s, TYPE, v.s) in a && t == Triple(u.o, TYPE, v.o);
  }

  lemma QuantifierStep<D(!new)>(rule: Rule, a: set<Triple>, i: Interpretation<D>, t: Triple)
    requires RestrictionsMean(i) && ClassAxiomsMean(i) && Satisfies(i, a)
    requires rule in {ClsSvf1, ClsSvf2, ClsAvf} && t in Restrictions(rule, a)
    ensures i.Says(t)
  {
    assert forall x :: i.Instance(i.den(THING), x);
    hide RestrictionsMean, ClassAxiomsMean, Restrictions;
    if rule == ClsAvf {
      var v, on, u := AllPremises(a, t);
      assert i.Says(v) && i.Says(on) && i.Says(u) && i.Says(Triple(u.s, TYPE, v.s));
      AllSays(i, v, on, u);
    } else if rule == ClsSvf1 {
      var v, on, u := SomePremises(a, t);
      assert i.Says(v) && i.Says(on) && i.Says(u) && i.Says(Triple(u.o, TYPE, v.o));
      SomeSays(i, v, on, u);
    } else {
      var v, on, u := SomeThingPremises(a, t);
      assert i.Says(v) && i.Says(on) && i.Says(u);
      SomeSays(i, v, on, u);
    }
  }
}
