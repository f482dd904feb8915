/** What a store that no rule adds to holds: the closure condition of each OWL 2 RL rule, on its
    triples alone (reason.rs; the rules are those of OWL 2 Profiles, section 4.3). */
module OwlClosure {
  import opened Ids
  import opened OwlRules
  import opened OwlLists
  import opened Database
  import opened Materialization
  import Chaining

  // ------------------------------------------------------------------ the conditions

  /** Every one-step conclusion of forward chaining, the triples themselves being the axioms. */
  predicate ChainsForward(a: set<Triple>) {
    forall t, n | t in a && n in Chaining.Conclude(a, true, t) :: NonLiteral(n.s) ==> n in a
  }

  ghost predicate EqualityHolds(a: set<Triple>) {
    && (forall x, y | Triple(x, SAME_AS, y) in a && NonLiteral(y) :: Triple(y, SAME_AS, x) in a)
    && (forall x, y, z | Triple(x, SAME_AS, y) in a && Triple(y, SAME_AS, z) in a && NonLiteral(x) ::
          Triple(x, SAME_AS, z) in a)
  }

  /** What is said of a term, or with it, is said of its equals. */
  ghost predicate EqualsAgree(a: set<Triple>) {
    && (forall x, y, p, o | Triple(x, SAME_AS, y) in a && Triple(x, p, o) in a && NonLiteral(y) :: Triple(y, p, o) in a)
    && (forall p, q, s, o | Triple(p, SAME_AS, q) in a && Triple(s, p, o) in a && q.Iri? && NonLiteral(s) ::
          Triple(s, q, o) in a)
    && (forall x, y, s, p | Triple(x, SAME_AS, y) in a && Triple(s, p, x) in a && NonLiteral(s) :: Triple(s, p, y) in a)
  }

  /** The values of a functional property are equal, and so are the subjects that an inverse
      functional one gives the same value. */
  ghost predicate FunctionsHold(a: set<Triple>) {
    && (forall p, x, y, z | Triple(p, TYPE, FUNCTIONAL) in a && Triple(x, p, y) in a && Triple(x, p, z) in a
                            && y != z && NonLiteral(y) && NonLiteral(z) :: Triple(y, SAME_AS, z) in a)
    && (forall p, x, y, z | Triple(p, TYPE, INVERSE_FUNCTIONAL) in a && Triple(x, p, z) in a && Triple(y, p, z) in a
                            && x != y && NonLiteral(x) :: Triple(x, SAME_AS, y) in a)
  }

  ghost predicate TransitivityHolds(a: set<Triple>) {
    forall p, x, y, z | Triple(p, TYPE, TRANSITIVE) in a && Triple(x, p, y) in a && Triple(y, p, z) in a
                        && NonLiteral(x) :: Triple(x, p, z) in a
  }

  ghost predicate SchemaHolds(a: set<Triple>) {
    && (forall c, d, e | Triple(c, SUB_CLASS_OF, d) in a && Triple(d, SUB_CLASS_OF, e) in a && NonLiteral(c) ::
          Triple(c, SUB_CLASS_OF, e) in a)
    && (forall c, d | Triple(c, EQUIVALENT_CLASS, d) in a && NonLiteral(c) :: Triple(c, SUB_CLASS_OF, d) in a)
    && (forall c, d | Triple(c, EQUIVALENT_CLASS, d) in a && NonLiteral(d) :: Triple(d, SUB_CLASS_OF, c) in a)
    && (forall t | t in a && NonLiteral(t.s) :: Triple(t.s, TYPE, THING) in a)
    && Triple(THING, TYPE, CLASS) in a && Triple(NOTHING, TYPE, CLASS) in a
  }

  /** What belongs to a restriction to one value has that value, and the other way round. */
  ghost predicate ValuesHold(a: set<Triple>) {
    && (forall r, p, v, x | Triple(r, HAS_VALUE, v) in a && Triple(r, ON_PROPERTY, p) in a && Triple(x, TYPE, r) in a
                            && NonLiteral(x) :: Triple(x, p, v) in a)
    && (forall r, p, v, x | Triple(r, HAS_VALUE, v) in a && Triple(r, ON_PROPERTY, p) in a && Triple(x, p, v) in a
                            && NonLiteral(x) :: Triple(x, TYPE, r) in a)
  }

  ghost predicate QuantifiersHold(a: set<Triple>) {
    && (forall r, p, c, x, y | Triple(r, SOME_VALUES, c) in a && Triple(r, ON_PROPERTY, p) in a && Triple(x, p, y) in a
                               && Triple(y, TYPE, c) in a && NonLiteral(x) :: Triple(x, TYPE, r) in a)
    && (forall r, p, x, y | Triple(r, SOME_VALUES, THING) in a && Triple(r, ON_PROPERTY, p) in a && Triple(x, p, y) in a
                            && NonLiteral(x) :: Triple(x, TYPE, r) in a)
    && (forall r, p, c, x, y | Triple(r, ALL_VALUES, c) in a && Triple(r, ON_PROPERTY, p) in a
      && Triple(x, TYPE, r) in a
                               && Triple(x, p, y) in a && NonLiteral(y) :: Triple(y, TYPE, c) in a)
  }

  /** What belongs to all the members of an intersection, of which there are some, belongs to it,
      and what belongs to it belongs to each. */
  ghost predicate IntersectionsHold(a: set<Triple>) {
    && (forall c, x, m | IsPartOf(a, c, m) && NonLiteral(x) && InAllParts(a, c, x) :: Triple(x, TYPE, c) in a)
    && (forall c, x, m | IsPartOf(a, c, m) && NonLiteral(x) && Triple(x, TYPE, c) in a :: Triple(x, TYPE, m) in a)
  }

  ghost predicate InAllParts(a: set<Triple>, class_: Id, x: Id) {
    forall m | IsPartOf(a, class_, m) :: Triple(x, TYPE, m) in a
  }

  /** What belongs to a member of a union belongs to it. */
  ghost predicate UnionsHold(a: set<Triple>) {
    forall c, list, m, x | Triple(c, UNION, list) in a && IsMember(a, list, m) && Triple(x, TYPE, m) in a
      && NonLiteral(x) ::
      Triple(x, TYPE, c) in a
  }

  /** A walk along all the properties of a chain makes a triple of the chain's property. */
  ghost predicate ChainsHold(a: set<Triple>) {
    forall p, nodes | FollowsChain(a, p, nodes) && IsChainLength(a, p, |nodes| - 1) && NonLiteral(nodes[0]) ::
      Triple(nodes[0], p, nodes[|nodes| - 1]) in a
  }

  /** All the conditions. */
  ghost predicate OwlHolds(a: set<Triple>) {
    && ChainsForward(a) && EqualityHolds(a) && EqualsAgree(a) && FunctionsHold(a) && TransitivityHolds(a)
    && SchemaHolds(a) && ValuesHold(a) && QuantifiersHold(a) && IntersectionsHold(a) && UnionsHold(a) && ChainsHold(a)
  }

  // ------------------------------------------------------------------ a store at rest meets them

  lemma AllRulesRun()
    ensures forall rule: Rule :: rule in ROUND
  {
    forall rule: Rule
      ensures rule in ROUND
    {
      RuleRuns(rule);
    }
  }

  lemma RuleRuns(rule: Rule)
    ensures rule in ROUND
  {
    match rule {
      case EqSym => assert ROUND[0] == rule;
      case EqTrans => assert ROUND[1] == rule;
      case EqRepS => assert ROUND[2] == rule;
      case EqRepP => assert ROUND[3] == rule;
      case EqRepO => assert ROUND[4] == rule;
      case PrpDom => assert ROUND[5] == rule;
      case PrpRng => assert ROUND[6] == rule;
      case PrpFp => assert ROUND[7] == rule;
      case PrpIfp => assert ROUND[8] == rule;
      case PrpSymp => assert ROUND[9] == rule;
      case PrpTrp => assert ROUND[10] == rule;
      case PrpSpo1 => assert ROUND[11] == rule;
      case PrpEqp1 => assert ROUND[12] == rule;
      case PrpEqp2 => assert ROUND[13] == rule;
      case PrpInv1 => assert ROUND[14] == rule;
      case PrpInv2 => assert ROUND[15] == rule;
      case CaxSco => assert ROUND[16] == rule;
      case CaxEqc1 => assert ROUND[17] == rule;
      case CaxEqc2 => assert ROUND[18] == rule;
      case ScmSco => assert ROUND[19] == rule;
      case ScmEqc1 => assert ROUND[20] == rule;
      case ClsThing => assert ROUND[21] == rule;
      case ClsHv1 => assert ROUND[22] == rule;
      case ClsHv2 => assert ROUND[23] == rule;
      case ClsSvf1 => assert ROUND[24] == rule;
      case ClsSvf2 => assert ROUND[25] == rule;
      case ClsAvf => assert ROUND[26] == rule;
      case ClsInt1 => assert ROUND[27] == rule;
      case ClsInt2 => assert ROUND[28] == rule;
      case ClsUni => assert ROUND[29] == rule;
      case PrpSpo2 => assert ROUND[30] == rule;
    }
  }

  /** Each rule's valid conclusions are there. */
  ghost predicate Contented(a: set<Triple>) {
    forall rule: Rule, t | t in Conclusions(rule, a) :: NonLiteral(t.s) ==> t in a
  }

  lemma AtRestIsContented(db: Db)
    requires ClosedUnder(ROUND, db)
    ensures Contented(AllTriples(db))
  {
    hide Conclusions, ROUND;
    AllRulesRun();
    forall rule: Rule, t | t in Conclusions(rule, AllTriples(db)) && NonLiteral(t.s)
      ensures t in AllTriples(db)
    {
      assert rule in ROUND;
      var i :| 0 <= i < |ROUND| && ROUND[i] == rule;
      assert RuleRows(rule, db) <= db.inf;
      var q := Quad(t.s, t.p, t.o, DefaultGraph);
      assert q in db.quads || q in RuleRows(rule, db);
      assert t == Triple(q.s, q.p, q.o);
    }
  }

  lemma GroupsConclude(rule: Rule, a: set<Triple>)
    ensures Equality(rule, a) <= Conclusions(rule, a) && Properties(rule, a) <= Conclusions(rule, a)
    ensures ClassAxioms(rule, a) <= Conclusions(rule, a) && Restrictions(rule, a) <= Conclusions(rule, a)
    ensures Lists(rule, a) <= Conclusions(rule, a)
  {
    hide Equality, Properties, ClassAxioms, Restrictions, Lists;
  }

  /** What a group of rules concludes is held. */
  ghost predicate HoldsAll(a: set<Triple>, conclusions: set<Triple>) {
    forall t | t in conclusions :: NonLiteral(t.s) ==> t in a
  }

  lemma ContentedHolds(a: set<Triple>)
    requires Contented(a)
    ensures forall rule: Rule :: HoldsAll(a, Equality(rule, a)) && HoldsAll(a, Properties(rule, a))
    ensures forall rule: Rule :: HoldsAll(a, ClassAxioms(rule, a)) && HoldsAll(a, Restrictions(rule, a))
    ensures forall rule: Rule :: HoldsAll(a, Lists(rule, a))
  {
    hide Equality, Properties, ClassAxioms, Restrictions, Lists, Conclusions;
    forall rule: Rule
      ensures HoldsAll(a, Equality(rule, a)) && HoldsAll(a, Properties(rule, a)) && HoldsAll(a, ClassAxioms(rule, a))
      ensures HoldsAll(a, Restrictions(rule, a)) && HoldsAll(a, Lists(rule, a))
    {
      GroupsConclude(rule, a);
    }
  }

  lemma EqualityIsHeld(a: set<Triple>)
    requires HoldsAll(a, Equality(EqSym, a)) && HoldsAll(a, Equality(EqTrans, a))
    ensures EqualityHolds(a)
  {
    forall x, y | Triple(x, SAME_AS, y) in a && NonLiteral(y)
      ensures Triple(y, SAME_AS, x) in a
    {
      var e := Triple(x, SAME_AS, y);
      assert Triple(e.o, SAME_AS, e.s) in Equality(EqSym, a);
    }
    forall x, y, z | Triple(x, SAME_AS, y) in a && Triple(y, SAME_AS, z) in a && NonLiteral(x)
      ensures Triple(x, SAME_AS, z) in a
    {
      var e, f := Triple(x, SAME_AS, y), Triple(y, SAME_AS, z);
      assert Triple(e.s, SAME_AS, f.o) in Equality(EqTrans, a);
    }
  }

  lemma EqualsDoAgree(a: set<Triple>)
    requires HoldsAll(a, Equality(EqRepS, a)) && HoldsAll(a, Equality(EqRepP, a)) && HoldsAll(a, Equality(EqRepO, a))
    ensures EqualsAgree(a)
  {
    forall x, y, p, o | Triple(x, SAME_AS, y) in a && Triple(x, p, o) in a && NonLiteral(y)
      ensures Triple(y, p, o) in a
    {
      var e, t := Triple(x, SAME_AS, y), Triple(x, p, o);
      assert Triple(e.o, t.p, t.o) in Equality(EqRepS, a);
    }
    forall p, q, s, o | Triple(p, SAME_AS, q) in a && Triple(s, p, o) in a && q.Iri? && NonLiteral(s)
      ensures Triple(s, q, o) in a
    {
      var e, t := Triple(p, SAME_AS, q), Triple(s, p, o);
      assert Triple(t.s, e.o, t.o) in Equality(EqRepP, a);
    }
    forall x, y, s, p | Triple(x, SAME_AS, y) in a && Triple(s, p, x) in a && NonLiteral(s)
      ensures Triple(s, p, y) in a
    {
      var e, t := Triple(x, SAME_AS, y), Triple(s, p, x);
      assert Triple(t.s, t.p, e.o) in Equality(EqRepO, a);
    }
  }

  lemma FunctionalConcludes(a: set<Triple>, f: Triple, t: Triple, u: Triple)
    requires f in a && t in a && u in a && f.p == TYPE && f.s == t.p == u.p
    ensures f.o == FUNCTIONAL && t.s == u.s && t.o != u.o && NonLiteral(t.o) && NonLiteral(u.o) ==>
      Triple(t.o, SAME_AS, u.o) in Properties(PrpFp, a)
    ensures f.o == INVERSE_FUNCTIONAL && t.o == u.o && t.s != u.s ==> Triple(t.s, SAME_AS, u.s) in Properties(PrpIfp, a)
    ensures f.o == TRANSITIVE && t.o == u.s ==> Triple(t.s, t.p, u.o) in Properties(PrpTrp, a)
  {
  }

  lemma FunctionsAreHeld(a: set<Triple>)
    requires HoldsAll(a, Properties(PrpFp, a)) && HoldsAll(a, Properties(PrpIfp, a))
    ensures FunctionsHold(a)
  {
    hide Properties;
    forall p, x, y, z | Triple(p, TYPE, FUNCTIONAL) in a && Triple(x, p, y) in a && Triple(x, p, z) in a
                        && y != z && NonLiteral(y) && NonLiteral(z)
      ensures Triple(y, SAME_AS, z) in a
    {
      FunctionalConcludes(a, Triple(p, TYPE, FUNCTIONAL), Triple(x, p, y), Triple(x, p, z));
    }
    forall p, x, y, z | Triple(p, TYPE, INVERSE_FUNCTIONAL) in a && Triple(x, p, z) in a && Triple(y, p, z) in a
                        && x != y && NonLiteral(x)
      ensures Triple(x, SAME_AS, y) in a
    {
      FunctionalConcludes(a, Triple(p, TYPE, INVERSE_FUNCTIONAL), Triple(x, p, z), Triple(y, p, z));
    }
  }

  lemma TransitivityIsHeld(a: set<Triple>)
    requires HoldsAll(a, Properties(PrpTrp, a))
    ensures TransitivityHolds(a)
  {
    hide Properties;
    forall p, x, y, z | Triple(p, TYPE, TRANSITIVE) in a && Triple(x, p, y) in a && Triple(y, p, z) in a
      && NonLiteral(x)
      ensures Triple(x, p, z) in a
    {
      FunctionalConcludes(a, Triple(p, TYPE, TRANSITIVE), Triple(x, p, y), Triple(y, p, z));
    }
  }

  lemma PropertiesConclude(a: set<Triple>, x: Triple, t: Triple)
    requires x in a && t in a
    ensures x.p == SUB_PROPERTY_OF && t.p == x.s ==> Triple(t.s, x.o, t.o) in Properties(PrpSpo1, a)
    ensures x.p == EQUIVALENT_PROPERTY && t.p == x.s ==> Triple(t.s, x.o, t.o) in Properties(PrpEqp1, a)
    ensures x.p == EQUIVALENT_PROPERTY && t.p == x.o ==> Triple(t.s, x.s, t.o) in Properties(PrpEqp2, a)
  {
  }

  lemma InversesConclude(a: set<Triple>, x: Triple, t: Triple)
    requires x in a && t in a && NonLiteral(t.o)
    ensures x.p == INVERSE_OF && t.p == x.s ==> Triple(t.o, x.o, t.s) in Properties(PrpInv1, a)
    ensures x.p == INVERSE_OF && t.p == x.o ==> Triple(t.o, x.s, t.s) in Properties(PrpInv2, a)
    ensures x.p == TYPE && x.o == SYMMETRIC && t.p == x.s ==> Triple(t.o, t.p, t.s) in Properties(PrpSymp, a)
  {
  }

  lemma PropertyRulesAreHeld(a: set<Triple>, t: Triple, n: Triple)
    requires HoldsAll(a, Properties(PrpSpo1, a)) && HoldsAll(a, Properties(PrpEqp1, a))
    requires HoldsAll(a, Properties(PrpEqp2, a))
    requires t in a && n in Chaining.PropertyRule(a, t) && NonLiteral(n.s)
    ensures n in a
  {
    hide Properties;
    var x :| x in a && (|| (x.p in {SUB_PROPERTY_OF, EQUIVALENT_PROPERTY} && x.s == t.p && n == Triple(t.s, x.o, t.o))
                        || (x.p == EQUIVALENT_PROPERTY && x.o == t.p && n == Triple(t.s, x.s, t.o)));
    PropertiesConclude(a, x, t);
  }

  lemma TypingRulesAreHeld(a: set<Triple>, t: Triple, n: Triple)
    requires HoldsAll(a, Properties(PrpDom, a)) && HoldsAll(a, Properties(PrpRng, a))
    requires t in a && n in Chaining.TypingRule(a, t) && NonLiteral(n.s)
    ensures n in a
  {
    if x :| x in a && x.p == DOMAIN && x.s == t.p && n == Triple(t.s, TYPE, x.o) {
      assert n in Properties(PrpDom, a);
    } else {
      var x :| x in a && x.p == RANGE && x.s == t.p && n == Triple(t.o, TYPE, x.o);
      assert n in Properties(PrpRng, a);
    }
  }

  lemma ClassRulesAreHeld(a: set<Triple>, t: Triple, n: Triple)
    requires HoldsAll(a, ClassAxioms(CaxSco, a)) && HoldsAll(a, ClassAxioms(CaxEqc1, a))
      && HoldsAll(a, ClassAxioms(CaxEqc2, a))
    requires t in a && n in Chaining.ClassRule(a, t) && NonLiteral(n.s)
    ensures n in a
  {
    if x :| x in a && x.p in {SUB_CLASS_OF, EQUIVALENT_CLASS} && x.s == t.o && n == Triple(t.s, TYPE, x.o) {
      assert n in ClassAxioms(if x.p == SUB_CLASS_OF then CaxSco else CaxEqc1, a);
    } else {
      var x :| x in a && x.p == EQUIVALENT_CLASS && x.o == t.o && n == Triple(t.s, TYPE, x.s);
      assert n in ClassAxioms(CaxEqc2, a);
    }
  }

  lemma InverseRulesAreHeld(a: set<Triple>, t: Triple, n: Triple)
    requires HoldsAll(a, Properties(PrpInv1, a)) && HoldsAll(a, Properties(PrpInv2, a))
    requires HoldsAll(a, Properties(PrpSymp, a))
    requires t in a && n in Chaining.InverseRule(a, t) && NonLiteral(n.s)
    ensures n in a
  {
    hide Properties;
    var x :| x in a && (|| (x.p == INVERSE_OF && x.s == t.p && n == Triple(t.o, x.o, t.s))
                        || (x.p == INVERSE_OF && x.o == t.p && n == Triple(t.o, x.s, t.s))
                        || (x.p == TYPE && x.o == SYMMETRIC && x.s == t.p && n == Triple(t.o, t.p, t.s)));
    InversesConclude(a, x, t);
  }

  lemma ForwardChainingIsHeld(a: set<Triple>)
    requires Contented(a)
    ensures ChainsForward(a)
  {
    hide Properties, ClassAxioms, HoldsAll, Contented, Chaining.PropertyRule, Chaining.TypingRule, Chaining.ClassRule,
         Chaining.InverseRule;
    ContentedHolds(a);
    forall t, n | t in a && n in Chaining.Conclude(a, true, t) && NonLiteral(n.s)
      ensures n in a
    {
      if n in Chaining.PropertyRule(a, t) {
        PropertyRulesAreHeld(a, t, n);
      } else if n in Chaining.TypingRule(a, t) {
        TypingRulesAreHeld(a, t, n);
      } else if n in Chaining.ClassRule(a, t) {
        ClassRulesAreHeld(a, t, n);
      } else {
        InverseRulesAreHeld(a, t, n);
      }
    }
  }

  lemma SchemaConcludes(a: set<Triple>, x: Triple, y: Triple)
    requires x in a && y in a
    ensures x.p == SUB_CLASS_OF && y.p == SUB_CLASS_OF && x.o == y.s ==>
      Triple(x.s, SUB_CLASS_OF, y.o) in ClassAxioms(ScmSco, a)
    ensures x.p == EQUIVALENT_CLASS ==> Triple(x.s, SUB_CLASS_OF, x.o) in ClassAxioms(ScmEqc1, a)
    ensures x.p == EQUIVALENT_CLASS ==> Triple(x.o, SUB_CLASS_OF, x.s) in ClassAxioms(ScmEqc1, a)
    ensures NonLiteral(x.s) ==> Triple(x.s, TYPE, THING) in ClassAxioms(ClsThing, a)
  {
  }

  lemma ClassesConclude(a: set<Triple>)
    ensures Triple(THING, TYPE, CLASS) in ClassAxioms(ClsThing, a)
      && Triple(NOTHING, TYPE, CLASS) in ClassAxioms(ClsThing, a)
  {
  }

  lemma SchemaIsHeld(a: set<Triple>)
    requires HoldsAll(a, ClassAxioms(ScmSco, a)) && HoldsAll(a, ClassAxioms(ScmEqc1, a))
    requires HoldsAll(a, ClassAxioms(ClsThing, a))
    ensures SchemaHolds(a)
  {
    hide ClassAxioms;
    ClassesConclude(a);
    forall c, d, e | Triple(c, SUB_CLASS_OF, d) in a && Triple(d, SUB_CLASS_OF, e) in a && NonLiteral(c)
      ensures Triple(c, SUB_CLASS_OF, e) in a
    {
      SchemaConcludes(a, Triple(c, SUB_CLASS_OF, d), Triple(d, SUB_CLASS_OF, e));
    }
    forall c, d | Triple(c, EQUIVALENT_CLASS, d) in a
      ensures NonLiteral(c) ==> Triple(c, SUB_CLASS_OF, d) in a
      ensures NonLiteral(d) ==> Triple(d, SUB_CLASS_OF, c) in a
    {
      SchemaConcludes(a, Triple(c, EQUIVALENT_CLASS, d), Triple(c, EQUIVALENT_CLASS, d));
    }
    forall t | t in a && NonLiteral(t.s)
      ensures Triple(t.s, TYPE, THING) in a
    {
      SchemaConcludes(a, t, t);
    }
  }

  lemma ValuesConclude(a: set<Triple>, hv: Triple, on: Triple, t: Triple)
    requires hv in a && on in a && t in a && hv.p == HAS_VALUE && on.p == ON_PROPERTY && hv.s == on.s
    ensures t.p == TYPE && t.o == hv.s ==> Triple(t.s, on.o, hv.o) in Restrictions(ClsHv1, a)
    ensures t.p == on.o && t.o == hv.o ==> Triple(t.s, TYPE, hv.s) in Restrictions(ClsHv2, a)
  {
    assert on in OnProperty(a);
  }

  lemma ValuesAreHeld(a: set<Triple>)
    requires HoldsAll(a, Restrictions(ClsHv1, a)) && HoldsAll(a, Restrictions(ClsHv2, a))
    ensures ValuesHold(a)
  {
    hide Restrictions;
    forall r, p, v, x | Triple(r, HAS_VALUE, v) in a && Triple(r, ON_PROPERTY, p) in a && NonLiteral(x)
      ensures Triple(x, TYPE, r) in a ==> Triple(x, p, v) in a
      ensures Triple(x, p, v) in a ==> Triple(x, TYPE, r) in a
    {
      if Triple(x, TYPE, r) in a {
        ValuesConclude(a, Triple(r, HAS_VALUE, v), Triple(r, ON_PROPERTY, p), Triple(x, TYPE, r));
      }
      if Triple(x, p, v) in a {
        ValuesConclude(a, Triple(r, HAS_VALUE, v), Triple(r, ON_PROPERTY, p), Triple(x, p, v));
      }
    }
  }

  lemma SomeValuesAreHeld(a: set<Triple>, r: Id, p: Id, c: Id, x: Id, y: Id)
    requires HoldsAll(a, Restrictions(ClsSvf1, a)) && HoldsAll(a, Restrictions(ClsSvf2, a))
    requires Triple(r, SOME_VALUES, c) in a && Triple(r, ON_PROPERTY, p) in a && Triple(x, p, y) in a && NonLiteral(x)
    requires c == THING || Triple(y, TYPE, c) in a
    ensures Triple(x, TYPE, r) in a
  {
    var sv, on, t := Triple(r, SOME_VALUES, c), Triple(r, ON_PROPERTY, p), Triple(x, p, y);
    assert on in OnProperty(a);
    if c == THING {
      assert Triple(t.s, TYPE, sv.s) in Restrictions(ClsSvf2, a);
    } else {
      assert Triple(t.s, TYPE, sv.s) in Restrictions(ClsSvf1, a);
    }
  }

  lemma AllValuesAreHeld(a: set<Triple>, r: Id, p: Id, c: Id, x: Id, y: Id)
    requires HoldsAll(a, Restrictions(ClsAvf, a))
    requires Triple(r, ALL_VALUES, c) in a && Triple(r, ON_PROPERTY, p) in a && Triple(x, TYPE, r) in a
    requires Triple(x, p, y) in a && NonLiteral(y)
    ensures Triple(y, TYPE, c) in a
  {
    var av, on, t := Triple(r, ALL_VALUES, c), Triple(r, ON_PROPERTY, p), Triple(x, p, y);
    assert on in OnProperty(a);
    assert Triple(t.o, TYPE, av.o) in Restrictions(ClsAvf, a);
  }

  lemma QuantifiersAreHeld(a: set<Triple>)
    requires HoldsAll(a, Restrictions(ClsSvf1, a)) && HoldsAll(a, Restrictions(ClsSvf2, a))
      && HoldsAll(a, Restrictions(ClsAvf, a))
    ensures QuantifiersHold(a)
  {
    hide Restrictions, HoldsAll;
    forall r, p, c, x, y | Triple(r, SOME_VALUES, c) in a && Triple(r, ON_PROPERTY, p) in a && Triple(x, p, y) in a
                           && NonLiteral(x) && (c == THING || Triple(y, TYPE, c) in a)
      ensures Triple(x, TYPE, r) in a
    {
      SomeValuesAreHeld(a, r, p, c, x, y);
    }
    forall r, p, c, x, y | Triple(r, ALL_VALUES, c) in a && Triple(r, ON_PROPERTY, p) in a && Triple(x, TYPE, r) in a
                           && Triple(x, p, y) in a && NonLiteral(y)
      ensures Triple(y, TYPE, c) in a
    {
      AllValuesAreHeld(a, r, p, c, x, y);
    }
  }

  lemma IntersectionConcludes(a: set<Triple>, x: Triple, t: Triple)
    requires x in a && t in a && x.p == INTERSECTION && t.p == TYPE && t.o in Items(a, x.s, INTERSECTION)
    requires forall i | i in Items(a, x.s, INTERSECTION) :: Triple(t.s, TYPE, i) in a
    ensures Triple(t.s, TYPE, x.s) in Lists(ClsInt1, a)
  {
    hide Items;
  }

  lemma MemberConcludes(a: set<Triple>, x: Triple, c: Cell, t: Triple)
    requires x in a && c in Cells(a) && t in a && c.head == x.o && t.p == TYPE
    ensures x.p == INTERSECTION && t.o == x.s ==> Triple(t.s, TYPE, c.item) in Lists(ClsInt2, a)
    ensures x.p == UNION && t.o == c.item ==> Triple(t.s, TYPE, x.s) in Lists(ClsUni, a)
  {
    hide Cells;
  }

  lemma IntersectionsAreHeld(a: set<Triple>)
    requires HoldsAll(a, Lists(ClsInt1, a)) && HoldsAll(a, Lists(ClsInt2, a))
    ensures IntersectionsHold(a)
  {
    hide Cells, IsMember, Lists, Items;
    forall c, i
      ensures i in Items(a, c, INTERSECTION) <==> IsPartOf(a, c, i)
    {
      ItemsArePartsOf(a, c, i);
    }
    forall c, x, m | IsPartOf(a, c, m) && NonLiteral(x)
      ensures InAllParts(a, c, x) ==> Triple(x, TYPE, c) in a
      ensures Triple(x, TYPE, c) in a ==> Triple(x, TYPE, m) in a
    {
      var list :| Triple(c, INTERSECTION, list) in a && IsMember(a, list, m);
      if InAllParts(a, c, x) {
        IntersectionConcludes(a, Triple(c, INTERSECTION, list), Triple(x, TYPE, m));
      }
      if Triple(x, TYPE, c) in a {
        CellsFindMembers(a, list, m);
        var cell :| cell in Cells(a) && cell.head == list && cell.item == m;
        MemberConcludes(a, Triple(c, INTERSECTION, list), cell, Triple(x, TYPE, c));
      }
    }
  }

  lemma UnionsAreHeld(a: set<Triple>)
    requires HoldsAll(a, Lists(ClsUni, a))
    ensures UnionsHold(a)
  {
    hide Cells, IsMember, Lists;
    forall c, list, m, x | Triple(c, UNION, list) in a && IsMember(a, list, m) && Triple(x, TYPE, m) in a
      && NonLiteral(x)
      ensures Triple(x, TYPE, c) in a
    {
      CellsFindMembers(a, list, m);
      var cell :| cell in Cells(a) && cell.head == list && cell.item == m;
      MemberConcludes(a, Triple(c, UNION, list), cell, Triple(x, TYPE, m));
    }
  }

  lemma ChainConcludes(a: set<Triple>, p: Id, nodes: seq<Id>)
    requires FollowsChain(a, p, nodes) && IsChainLength(a, p, |nodes| - 1)
    ensures Triple(nodes[0], p, nodes[|nodes| - 1]) in Properties(PrpSpo2, a)
  {
    hide Steps, Trails, IsStep;
    FollowersAreTrails(a, p, nodes);
    var w := Trail(p, nodes[0], |nodes| - 1, nodes[|nodes| - 1]);
    forall st | st in Steps(a) && st.chain == w.chain
      ensures st.i <= w.i
    {
      StepsAreSteps(a, p, st.i, st.property);
    }
    assert Triple(w.start, w.chain, w.cur) in Properties(PrpSpo2, a);
  }

  lemma ChainsAreHeld(a: set<Triple>)
    requires HoldsAll(a, Properties(PrpSpo2, a))
    ensures ChainsHold(a)
  {
    hide Properties, IsStep;
    forall p, nodes | FollowsChain(a, p, nodes) && IsChainLength(a, p, |nodes| - 1) && NonLiteral(nodes[0])
      ensures Triple(nodes[0], p, nodes[|nodes| - 1]) in a
    {
      ChainConcludes(a, p, nodes);
    }
  }

  /** A store that no rule of the round adds to meets the condition of every rule. */
  lemma AtRestOwlHolds(db: Db)
    requires ClosedUnder(ROUND, db)
    ensures OwlHolds(AllTriples(db))
  {
    hide ClosedUnder, Contented, HoldsAll, Equality, Properties, ClassAxioms, Restrictions, Lists, AllTriples, ROUND,
         ChainsForward, EqualityHolds, EqualsAgree, FunctionsHold, TransitivityHolds, SchemaHolds, ValuesHold,
         QuantifiersHold, IntersectionsHold, UnionsHold, ChainsHold;
    var a := AllTriples(db);
    AtRestIsContented(db);
    ContentedHolds(a);
    ForwardChainingIsHeld(a);
    EqualityIsHeld(a);
    EqualsDoAgree(a);
    FunctionsAreHeld(a);
    TransitivityIsHeld(a);
    SchemaIsHeld(a);
    ValuesAreHeld(a);
    QuantifiersAreHeld(a);
    IntersectionsAreHeld(a);
    UnionsAreHeld(a);
    ChainsAreHeld(a);
  }
}
