/** Rewriting against forward chaining: in every graph, the derived table of a pattern holds
    exactly what exhaustively applying the one-step rules to the graph's triples would add, closed
    transitively for a transitive property (reason.rs). */
module Rewriting {
  import opened Ids
  import opened Walks
  import opened Closure
  import opened Scopes
  import opened Entailments
  import opened PushDown
  import opened Chaining

  // ------------------------------------------------------------------ arms are ways

  function GraphTriples(base: set<Quad>, g: Id): set<Triple> {
    set x | x in base && x.g == g :: Triple(x.s, x.p, x.o)
  }

  /** The closure rows picked for graph `g` are what `axioms` entail (see `SelectionIsExact`). */
  ghost predicate PicksClosureOf(c: Entailment, g: Id, axioms: set<Triple>) {
    forall kind, sub, sup :: TboxRow(kind, ScopeOf(c.scopes, g), sub, sup) in c.tbox
      <==> Entails(axioms, kind, sub, sup)
  }

  /** Straight through a property of the same direction, or through one that swaps. */
  ghost predicate TypesStraight(axioms: set<Triple>, owl: bool, p: Id, class_: Id, subject: bool) {
    exists q :: Leads(axioms, owl, p, q, false) && Gives(axioms, q, if subject then DOMAIN else RANGE, class_)
  }

  ghost predicate TypesSwapped(axioms: set<Triple>, owl: bool, p: Id, class_: Id, subject: bool) {
    exists q :: Leads(axioms, owl, p, q, true) && Gives(axioms, q, if subject then RANGE else DOMAIN, class_)
  }

  lemma TypesEndTwoWays(axioms: set<Triple>, owl: bool, p: Id, class_: Id, subject: bool)
    ensures TypesEnd(axioms, owl, p, class_, subject) <==>
      TypesStraight(axioms, owl, p, class_, subject) || TypesSwapped(axioms, owl, p, class_, subject)
  {
    hide Leads, Gives;
    if q :| Leads(axioms, owl, p, q, false) && Gives(axioms, q, if subject then DOMAIN else RANGE, class_) {
      assert TypesEnd(axioms, owl, p, class_, subject);
    }
    if q :| Leads(axioms, owl, p, q, true) && Gives(axioms, q, if subject then RANGE else DOMAIN, class_) {
      assert TypesEnd(axioms, owl, p, class_, subject);
    }
  }

  lemma LeadsAreReached(axioms: set<Triple>, owl: bool, p: Id, q: Id)
    ensures Leads(axioms, owl, p, q, false) <==> Reaches(ArcsFor(axioms, owl), p, q)
    ensures Leads(axioms, owl, p, q, true) <==> owl && Linked(OwlArcs(axioms), p, q, true)
  {
    hide Linked, PropertyArcs, OwlArcs;
    PropertyArcsAreDirect(axioms);
    DirectWalksAreEven(PropertyArcs(axioms), p, q);
  }

  lemma EntailedTyping(axioms: set<Triple>, owl: bool, p: Id, class_: Id, subject: bool)
    ensures Entails(axioms, if owl then if subject then OwlSubjectType else OwlObjectType
                            else if subject then SubjectType else ObjectType, p, class_) <==>
      (exists q :: Reaches(ArcsFor(axioms, owl), p, q)
        && Gives(axioms, q, if subject then DOMAIN else RANGE, class_)) ||
      (owl && exists q ::
         Linked(OwlArcs(axioms), p, q, true) && Gives(axioms, q, if subject then RANGE else DOMAIN, class_))
  {
    hide Linked, Gives, PropertyArcs, OwlArcs, Reaches;
    if owl {
      assert ArcsFor(axioms, owl) == OwlArcs(axioms);
    } else {
      assert ArcsFor(axioms, owl) == PropertyArcs(axioms);
    }
  }

  /** The typing rows say what domains and ranges say, walks included. */
  lemma TypingRowsTypeEnds(axioms: set<Triple>, owl: bool, p: Id, class_: Id, subject: bool)
    ensures TypesEnd(axioms, owl, p, class_, subject)
       <==> Entails(axioms, if owl then if subject then OwlSubjectType else OwlObjectType
                            else if subject then SubjectType else ObjectType, p, class_)
  {
    hide Linked, Gives, OwlArcs, TypesEnd, Leads, Reaches, Entails, ArcsFor;
    TypesEndTwoWays(axioms, owl, p, class_, subject);
    EntailedTyping(axioms, owl, p, class_, subject);
    forall q
      ensures Leads(axioms, owl, p, q, false) <==> Reaches(ArcsFor(axioms, owl), p, q)
      ensures Leads(axioms, owl, p, q, true) <==> owl && Linked(OwlArcs(axioms), p, q, true)
    {
      LeadsAreReached(axioms, owl, p, q);
    }
  }

  lemma PropertyArcsAreDirect(axioms: set<Triple>)
    ensures forall e | e in PropertyArcs(axioms) :: !e.inv
  {
  }

  /** No stored subject is a literal; of inferred quads nothing more is known. */
  predicate ValidSubjects(base: set<Quad>) {
    forall x | x in base :: NonLiteral(x.s)
  }

  /** `transitive_statement`: the properties some scope declares transitive. */
  function TransitiveProperties(tbox: set<TboxRow>): set<Id> {
    set r | r in tbox && r.kind == Transitive :: r.sub
  }

  /** What a derived table is compared with: a kept graph, a regime, its scope's closure, and the
      scopes and transitive properties loaded from that closure. */
  ghost predicate Comparable(c: Entailment, g: Id, axioms: set<Triple>) {
    && c.filter.Keep? && !c.reasoning.NoReasoning? && ValidSubjects(c.base)
    && c.scopes == LoadedScopes(c.tbox) && c.transitive == TransitiveProperties(c.tbox)
    && PicksClosureOf(c, g, axioms)
  }

  function InGraph(t: Triple, g: Id): Quad {
    Quad(t.s, t.p, t.o, g)
  }

  lemma TripleOfGraph(base: set<Quad>, g: Id, t: Triple)
    ensures t in GraphTriples(base, g) <==> InGraph(t, g) in base
  {
    if t in GraphTriples(base, g) {
      var x :| x in base && x.g == g && t == Triple(x.s, x.p, x.o);
      assert x == InGraph(t, g);
    }
  }

  /** The ordinary arms carry base triples along property axioms. */
  lemma OrdinaryArmRow(c: Entailment, g: Id, axioms: set<Triple>, t: Triple)
    requires Comparable(c, g, axioms)
    ensures InGraph(t, g) in OrdinaryArms(c, t.p, None, None)
       <==> NonLiteral(t.s) && exists u :: u in GraphTriples(c.base, g) && ByProperty(axioms, c.reasoning.OwlQl?, u, t)
  {
    hide Linked, PropertyArcs, OwlArcs;
    var owl := c.reasoning.OwlQl?;
    if NonLiteral(t.s) && exists u :: u in GraphTriples(c.base, g) && ByProperty(axioms, owl, u, t) {
      var u :| u in GraphTriples(c.base, g) && ByProperty(axioms, owl, u, t);
      PropertyWayIsArm(c, g, axioms, u, t);
    }
    if InGraph(t, g) in OrdinaryArms(c, t.p, None, None) {
      PropertyArmIsWay(c, g, axioms, t);
    }
  }

  /** There are no other arms outside the schema vocabulary. */
  lemma PropertyArmRow(c: Entailment, g: Id, axioms: set<Triple>, t: Triple)
    requires Comparable(c, g, axioms) && t.p !in {SUB_CLASS_OF, SUB_PROPERTY_OF}
    ensures InGraph(t, g) in PropertyArms(c, t.p, None, None)
       <==> NonLiteral(t.s) && exists u :: u in GraphTriples(c.base, g) && ByProperty(axioms, c.reasoning.OwlQl?, u, t)
  {
    hide OrdinaryArms, ByProperty, Comparable;
    OrdinaryArmRow(c, g, axioms, t);
  }

  lemma PropertyWayIsArm(c: Entailment, g: Id, axioms: set<Triple>, u: Triple, t: Triple)
    requires Comparable(c, g, axioms) && NonLiteral(t.s)
    requires u in GraphTriples(c.base, g) && ByProperty(axioms, c.reasoning.OwlQl?, u, t)
    ensures InGraph(t, g) in OrdinaryArms(c, t.p, None, None)
  {
    hide Linked, PropertyArcs, OwlArcs;
    var owl, x := c.reasoning.OwlQl?, InGraph(u, g);
    TripleOfGraph(c.base, g, u);
    var inv :| Leads(axioms, owl, u.p, t.p, inv) && t == Oriented(u, t.p, inv);
    if inv {
      PropertyArcsAreDirect(axioms);
      DirectWalksAreEven(PropertyArcs(axioms), u.p, t.p);
      var r := TboxRow(OwlInverse, ScopeOf(c.scopes, g), u.p, t.p);
      assert c.Uses(x, r, OwlInverse);
      assert InGraph(t, g) in InverseArm(c, None, Some(t.p), None);
    } else if u.p == t.p {
      assert InGraph(t, g) in AssertedArm(c, None, Some(t.p), None);
    } else {
      var r := TboxRow(c.SameKind(), ScopeOf(c.scopes, g), u.p, t.p);
      assert c.Uses(x, r, c.SameKind());
      assert InGraph(t, g) in SameArm(c, None, Some(t.p), None);
    }
  }

  lemma PropertyArmIsWay(c: Entailment, g: Id, axioms: set<Triple>, t: Triple)
    requires Comparable(c, g, axioms) && InGraph(t, g) in OrdinaryArms(c, t.p, None, None)
    ensures NonLiteral(t.s) && exists u :: u in GraphTriples(c.base, g) && ByProperty(axioms, c.reasoning.OwlQl?, u, t)
  {
    hide Linked, PropertyArcs, OwlArcs;
    var owl := c.reasoning.OwlQl?;
    if InGraph(t, g) in AssertedArm(c, None, Some(t.p), None) {
      TripleOfGraph(c.base, g, t);
      assert Leads(axioms, owl, t.p, t.p, false) && t == Oriented(t, t.p, false);
    } else if InGraph(t, g) in SameArm(c, None, Some(t.p), None) {
      var x, r :| x in c.base && r in c.tbox && c.Uses(x, r, c.SameKind()) && x.p == r.sub && r.sup == t.p
                  && InGraph(t, g) == Quad(x.s, r.sup, x.o, x.g);
      var u := Triple(x.s, x.p, x.o);
      TripleOfGraph(c.base, g, u);
      assert r == TboxRow(c.SameKind(), ScopeOf(c.scopes, g), u.p, t.p);
      assert Leads(axioms, owl, u.p, t.p, false) && t == Oriented(u, t.p, false);
    } else {
      var x, r :| x in c.base && r in c.tbox && c.Uses(x, r, OwlInverse) && x.p == r.sub && r.sup == t.p
        && NonLiteral(x.o)
                  && InGraph(t, g) == Quad(x.o, r.sup, x.s, x.g);
      var u := Triple(x.s, x.p, x.o);
      TripleOfGraph(c.base, g, u);
      assert r == TboxRow(OwlInverse, ScopeOf(c.scopes, g), u.p, t.p);
      assert Leads(axioms, owl, u.p, t.p, true) && t == Oriented(u, t.p, true);
    }
  }

  /** A type an arm yields is had by typing or by class from a base triple. */
  ghost predicate HasTypeWay(axioms: set<Triple>, owl: bool, base: set<Triple>, t: Triple) {
    exists u :: u in base && (ByTyping(axioms, owl, u, t) || ByClass(axioms, u, t))
  }

  lemma TypeArmIsWay(c: Entailment, g: Id, axioms: set<Triple>, t: Triple)
    requires Comparable(c, g, axioms) && t.p == TYPE && InGraph(t, g) in TypeArms(c, None, None)
    ensures NonLiteral(t.s) && HasTypeWay(axioms, c.reasoning.OwlQl?, GraphTriples(c.base, g), t)
  {
    hide Linked, Gives, Leads, ClassArcs, TypesEnd;
    var owl := c.reasoning.OwlQl?;
    if InGraph(t, g) in SuperclassArm(c, None, None) {
      var x, r :| x in c.base && r in c.tbox && c.Uses(x, r, Class) && x.p == TYPE && r.sub == x.o
                  && InGraph(t, g) == Quad(x.s, TYPE, r.sup, x.g);
      var u := Triple(x.s, x.p, x.o);
      TripleOfGraph(c.base, g, u);
      assert r == TboxRow(Class, ScopeOf(c.scopes, g), u.o, t.o);
      assert ByClass(axioms, u, t);
    } else if InGraph(t, g) in SubjectArm(c, None, None) {
      var x, r :| x in c.base && r in c.tbox && c.Uses(x, r, c.SubjectKind()) && x.p == r.sub
                  && InGraph(t, g) == Quad(x.s, TYPE, r.sup, x.g);
      TypingWay(c, g, axioms, x, r, t, true);
    } else {
      var x, r :| x in c.base && r in c.tbox && c.Uses(x, r, c.ObjectKind()) && x.p == r.sub && NonLiteral(x.o)
                  && InGraph(t, g) == Quad(x.o, TYPE, r.sup, x.g);
      TypingWay(c, g, axioms, x, r, t, false);
    }
  }

  lemma TypingWay(c: Entailment, g: Id, axioms: set<Triple>, x: Quad, r: TboxRow, t: Triple, subject: bool)
    requires Comparable(c, g, axioms) && t.p == TYPE && x.g == g
    requires c.Uses(x, r, if subject then c.SubjectKind() else c.ObjectKind()) && r.sub == x.p && r.sup == t.o
    requires t.s == if subject then x.s else x.o
    ensures HasTypeWay(axioms, c.reasoning.OwlQl?, GraphTriples(c.base, g), t)
  {
    hide Linked, Gives, Leads, Entails, TypesEnd;
    var owl, u := c.reasoning.OwlQl?, Triple(x.s, x.p, x.o);
    TripleOfGraph(c.base, g, u);
    assert r == TboxRow(if subject then c.SubjectKind() else c.ObjectKind(), ScopeOf(c.scopes, g), u.p, t.o);
    TypingRowsTypeEnds(axioms, owl, u.p, t.o, subject);
    assert t.s == End(u, subject);
    assert ByTyping(axioms, owl, u, t);
  }

  lemma TypeWayIsArm(c: Entailment, g: Id, axioms: set<Triple>, u: Triple, t: Triple)
    requires Comparable(c, g, axioms) && t.p == TYPE && NonLiteral(t.s)
    requires u in GraphTriples(c.base, g) && u != t
    requires ByTyping(axioms, c.reasoning.OwlQl?, u, t) || ByClass(axioms, u, t)
    ensures InGraph(t, g) in TypeArms(c, None, None)
  {
    hide Linked, Gives, Leads, ClassArcs, TypesEnd;
    var owl, x := c.reasoning.OwlQl?, InGraph(u, g);
    TripleOfGraph(c.base, g, u);
    if ByClass(axioms, u, t) {
      var r := TboxRow(Class, ScopeOf(c.scopes, g), u.o, t.o);
      assert Entails(axioms, Class, u.o, t.o);
      assert c.Uses(x, r, Class);
      assert InGraph(t, g) in SuperclassArm(c, None, None);
    } else {
      var subject :| TypesEnd(axioms, owl, u.p, t.o, subject) && t.s == End(u, subject);
      TypingRowsTypeEnds(axioms, owl, u.p, t.o, subject);
      hide Entails;
      var kind := if subject then c.SubjectKind() else c.ObjectKind();
      var r := TboxRow(kind, ScopeOf(c.scopes, g), u.p, t.o);
      assert c.Uses(x, r, kind);
      assert subject ==> InGraph(t, g) in SubjectArm(c, None, None);
      assert !subject ==> InGraph(t, g) in ObjectArm(c, None, None);
    }
  }

  lemma AssertedRow(c: Entailment, g: Id, axioms: set<Triple>, t: Triple)
    requires Comparable(c, g, axioms)
    ensures InGraph(t, g) in AssertedArm(c, None, Some(t.p), None) <==> t in GraphTriples(c.base, g)
    ensures t in GraphTriples(c.base, g) ==> NonLiteral(t.s)
  {
    TripleOfGraph(c.base, g, t);
  }

  // ------------------------------------------------------------------ transitive properties

  /** The axioms close the property transitively, in OWL QL; `rdf:type` is never closed. */
  predicate IsTransitive(axioms: set<Triple>, owl: bool, p: Id) {
    owl && p != TYPE && Triple(p, TYPE, TRANSITIVE) in axioms
  }

  /** A property is closed in exactly the graphs whose axioms declare it. */
  lemma ClosedMeansDeclared(c: Entailment, g: Id, axioms: set<Triple>, p: Id)
    requires Comparable(c, g, axioms)
    ensures p in c.transitive && (c.scopes == {} || Declared(c, p, g)) <==> Triple(p, TYPE, TRANSITIVE) in axioms
  {
    assert Entails(axioms, Transitive, p, p) <==> TboxRow(Transitive, ScopeOf(c.scopes, g), p, p) in c.tbox;
    if p in c.transitive && (c.scopes == {} || Declared(c, p, g)) {
      var r :| r in c.tbox && r.kind == Transitive && r.sub == p && (c.scopes == {} || r.scope == ScopeOf(c.scopes, g));
      assert c.scopes == {} ==> r.scope == ALL_GRAPHS by {
        assert r.scope != ALL_GRAPHS ==> r.scope in LoadedScopes(c.tbox);
      }
      assert Entails(axioms, Transitive, p, r.sup);
    }
  }

  /** The pairs a property's arms give in a graph, as arcs. */
  function ArmArcs(c: Entailment, p: Id, g: Id): set<Arc> {
    set z | z in PropertyArms(c, p, None, None) && z.g == g :: Arc(z.s, z.o, false)
  }

  lemma NoLinksIn(c: Entailment, p: Id, g: Id)
    requires c.scopes != {} && !Declared(c, p, g)
    ensures forall a, b, inv :: !Linked(ArcsOf(Links(c, p), g), a, b, inv)
  {
    hide PropertyArms, Declared;
    assert ArcsOf(Links(c, p), g) == {};
    forall a, b, inv
      ensures !Linked({}, a, b, inv)
    {
      NoWalkWithoutArcs(a, b, inv);
    }
  }

  lemma LinksAreArms(c: Entailment, p: Id, g: Id)
    requires c.scopes == {} || Declared(c, p, g)
    ensures ArcsOf(Links(c, p), g) == ArmArcs(c, p, g)
  {
    hide PropertyArms, Declared;
    forall a | a in ArmArcs(c, p, g)
      ensures a in ArcsOf(Links(c, p), g)
    {
      var z :| z in PropertyArms(c, p, None, None) && z.g == g && a == Arc(z.s, z.o, false);
      assert Edge(z.g, z.s, z.o, false) in Links(c, p);
    }
  }

  /** A property's source: its arms, closed transitively where the graph's axioms say so. */
  lemma PropertySource(c: Entailment, g: Id, axioms: set<Triple>, t: Triple)
    requires Comparable(c, g, axioms) && t.p != TYPE
    ensures InGraph(t, g) in Source(c, None, Some(t.p), None) <==>
      if IsTransitive(axioms, c.reasoning.OwlQl?, t.p) then Linked(ArmArcs(c, t.p, g), t.s, t.o, false)
      else InGraph(t, g) in PropertyArms(c, t.p, None, None)
  {
    ClosedMeansDeclared(c, g, axioms, t.p);
    hide PicksClosureOf, PropertyArms, Linked, Recursion, Declared;
    if c.reasoning.OwlQl? && t.p in c.transitive {
      RecursionRow(Links(c, t.p), t.p, None, None, InGraph(t, g));
      if IsTransitive(axioms, true, t.p) {
        LinksAreArms(c, t.p, g);
        OrdinaryArmsElsewhere(c, t);
      } else {
        NoLinksIn(c, t.p, g);
      }
    }
  }

  lemma OrdinaryArmsElsewhere(c: Entailment, t: Triple)
    ensures forall z | z in PropertyArms(c, t.p, None, None) :: z.p == t.p
  {
  }

  // ------------------------------------------------------------------ the theorems

  /** The pairs a property has by forward chaining, as arcs. */
  function ChainedArcs(chained: set<Triple>, p: Id): set<Arc> {
    set t | t in chained && t.p == p && NonLiteral(t.s) :: Arc(t.s, t.o, false)
  }

  /** What a pattern should be answered with: the chained triples with a valid subject, closed
      transitively for a property the axioms declare transitive. */
  ghost predicate IsAnswer(axioms: set<Triple>, owl: bool, base: set<Triple>, t: Triple) {
    if IsTransitive(axioms, owl, t.p) then Linked(ChainedArcs(Chained(axioms, owl, base), t.p), t.s, t.o, false)
    else NonLiteral(t.s) && t in Chained(axioms, owl, base)
  }

  /** The source of a pattern has a triple exactly when it is an answer. */
  ghost predicate Agrees(c: Entailment, g: Id, axioms: set<Triple>, t: Triple) {
    InGraph(t, g) in Source(c, None, Some(t.p), None) <==>
    IsAnswer(axioms, c.reasoning.OwlQl?, GraphTriples(c.base, g), t)
  }

  /** What the arms yield is chained. */
  lemma ArmsAreChained(c: Entailment, g: Id, axioms: set<Triple>, t: Triple)
    requires Comparable(c, g, axioms) && t.p !in {SUB_CLASS_OF, SUB_PROPERTY_OF}
    requires InGraph(t, g) in PropertyArms(c, t.p, None, None)
    ensures NonLiteral(t.s) && t in Chained(axioms, c.reasoning.OwlQl?, GraphTriples(c.base, g))
  {
    hide ByProperty, ByTyping, ByClass, Comparable, PropertyArms, Chained;
    var owl, base := c.reasoning.OwlQl?, GraphTriples(c.base, g);
    PropertyArmRow(c, g, axioms, t);
    var u :| u in base && ByProperty(axioms, owl, u, t);
    ChainedIsClosed(axioms, owl, base);
    WaysAreChained(axioms, owl, base, u, t);
  }

  lemma ArmArcsAreChained(c: Entailment, g: Id, axioms: set<Triple>, p: Id)
    requires Comparable(c, g, axioms) && p !in {SUB_CLASS_OF, SUB_PROPERTY_OF}
    ensures ArmArcs(c, p, g) <= ChainedArcs(Chained(axioms, c.reasoning.OwlQl?, GraphTriples(c.base, g)), p)
  {
    hide Comparable, PropertyArms, Chained;
    forall a | a in ArmArcs(c, p, g)
      ensures a in ChainedArcs(Chained(axioms, c.reasoning.OwlQl?, GraphTriples(c.base, g)), p)
    {
      var z :| z in PropertyArms(c, p, None, None) && z.g == g && a == Arc(z.s, z.o, false);
      OrdinaryArmsElsewhere(c, Triple(z.s, p, z.o));
      assert z == InGraph(Triple(z.s, p, z.o), g);
      ArmsAreChained(c, g, axioms, Triple(z.s, p, z.o));
    }
  }

  /** Rewriting never yields a triple that forward chaining (and, for a transitive property, its
      transitive closure) would not. */
  lemma RewritingIsSound(c: Entailment, g: Id, axioms: set<Triple>, t: Triple)
    requires Comparable(c, g, axioms) && t.p !in {SUB_CLASS_OF, SUB_PROPERTY_OF}
    requires InGraph(t, g) in Source(c, None, Some(t.p), None)
    ensures IsAnswer(axioms, c.reasoning.OwlQl?, GraphTriples(c.base, g), t)
  {
    hide ByTyping, ByClass, PicksClosureOf, PropertyArms, TypeArms, Chained, Linked;
    var owl, base := c.reasoning.OwlQl?, GraphTriples(c.base, g);
    if t.p != TYPE {
      PropertySource(c, g, axioms, t);
      ArmArcsAreChained(c, g, axioms, t.p);
      if IsTransitive(axioms, owl, t.p) {
        LinkedMono(ArmArcs(c, t.p, g), ChainedArcs(Chained(axioms, owl, base), t.p), t.s, t.o, false);
      } else {
        ArmsAreChained(c, g, axioms, t);
      }
    } else {
      AssertedRow(c, g, axioms, t);
      ChainedIsClosed(axioms, owl, base);
      if InGraph(t, g) in TypeArms(c, None, None) {
        TypeArmIsWay(c, g, axioms, t);
        var u :| u in base && (ByTyping(axioms, owl, u, t) || ByClass(axioms, u, t));
        WaysAreChained(axioms, owl, base, u, t);
      }
    }
  }

  /** Nor does the arms' part of it miss one, when types stay put. */
  lemma ChainedAreArms(c: Entailment, g: Id, axioms: set<Triple>, t: Triple)
    requires Comparable(c, g, axioms) && TypesStayPut(axioms, c.reasoning.OwlQl?)
    requires t.p !in {TYPE, SUB_CLASS_OF, SUB_PROPERTY_OF} && NonLiteral(t.s)
    requires t in Chained(axioms, c.reasoning.OwlQl?, GraphTriples(c.base, g))
    ensures InGraph(t, g) in PropertyArms(c, t.p, None, None)
  {
    hide ByProperty, Comparable, PropertyArms, Chained, TypesStayPut;
    var owl, base := c.reasoning.OwlQl?, GraphTriples(c.base, g);
    AskedHaveWays(axioms, owl, base, t);
    var u :| u in base && Way(axioms, owl, u, t);
    PropertyArmRow(c, g, axioms, t);
  }

  /** Rewriting misses nothing, when types stay put. */
  lemma RewritingIsComplete(c: Entailment, g: Id, axioms: set<Triple>, t: Triple)
    requires Comparable(c, g, axioms) && t.p !in {SUB_CLASS_OF, SUB_PROPERTY_OF}
    requires TypesStayPut(axioms, c.reasoning.OwlQl?)
    requires IsAnswer(axioms, c.reasoning.OwlQl?, GraphTriples(c.base, g), t)
    ensures InGraph(t, g) in Source(c, None, Some(t.p), None)
  {
    hide ByTyping, ByClass, PicksClosureOf, PropertyArms, TypeArms, Chained, Linked, Leads, FedTypesLeadNowhere,
         FedClassesStayUntyped, DomainsOfTypeAreCovered;
    var owl, base := c.reasoning.OwlQl?, GraphTriples(c.base, g);
    if t.p != TYPE {
      PropertySource(c, g, axioms, t);
      if IsTransitive(axioms, owl, t.p) {
        ChainedArcsAreArms(c, g, axioms, t.p);
        LinkedMono(ChainedArcs(Chained(axioms, owl, base), t.p), ArmArcs(c, t.p, g), t.s, t.o, false);
      } else {
        ChainedAreArms(c, g, axioms, t);
      }
    } else {
      AssertedRow(c, g, axioms, t);
      AskedHaveWays(axioms, owl, base, t);
      var u :| u in base && Way(axioms, owl, u, t);
      if ByProperty(axioms, owl, u, t) {
        OnlyItselfEntersType(axioms, owl, u, t);
      }
      if u != t {
        TypeWayIsArm(c, g, axioms, u, t);
      }
    }
  }

  lemma ChainedArcsAreArms(c: Entailment, g: Id, axioms: set<Triple>, p: Id)
    requires Comparable(c, g, axioms) && TypesStayPut(axioms, c.reasoning.OwlQl?)
      && p !in {TYPE, SUB_CLASS_OF, SUB_PROPERTY_OF}
    ensures ChainedArcs(Chained(axioms, c.reasoning.OwlQl?, GraphTriples(c.base, g)), p) <= ArmArcs(c, p, g)
  {
    hide Comparable, PropertyArms, Chained, TypesStayPut;
    var chained := Chained(axioms, c.reasoning.OwlQl?, GraphTriples(c.base, g));
    forall a | a in ChainedArcs(chained, p)
      ensures a in ArmArcs(c, p, g)
    {
      var t :| t in chained && t.p == p && NonLiteral(t.s) && a == Arc(t.s, t.o, false);
      ChainedAreArms(c, g, axioms, t);
      assert InGraph(t, g).g == g;
    }
  }

  /** A reasoned table over a store: its closure, and what is loaded from that closure. */
  predicate ReadsStore(c: Entailment, quads: set<Quad>) {
    c.tbox == Recomputed(quads) && c.scopes == LoadedScopes(c.tbox) && c.transitive == TransitiveProperties(c.tbox)
  }

  lemma StoreIsComparable(c: Entailment, quads: set<Quad>, g: Id)
    requires ReadsStore(c, quads)
    ensures PicksClosureOf(c, g, ApplicableAxioms(quads, g))
  {
    hide Entails, Recomputed, ApplicableAxioms;
    forall kind, sub, sup
      ensures TboxRow(kind, ScopeOf(c.scopes, g), sub, sup) in c.tbox
        <==> Entails(ApplicableAxioms(quads, g), kind, sub, sup)
    {
      SelectionIsExact(quads, g, kind, sub, sup);
    }
  }

  /** Query rewriting is forward chaining: in every graph and for every property outside the schema
      vocabulary, the derived table holds exactly the answers by the one-step rules, with the axioms
      of the ontologies that apply to the graph. */
  lemma RewritingIsForwardChaining(c: Entailment, quads: set<Quad>, g: Id, t: Triple)
    requires ReadsStore(c, quads) && c.filter.Keep? && !c.reasoning.NoReasoning? && ValidSubjects(c.base)
    requires t.p !in {SUB_CLASS_OF, SUB_PROPERTY_OF} && TypesStayPut(ApplicableAxioms(quads, g), c.reasoning.OwlQl?)
    ensures Agrees(c, g, ApplicableAxioms(quads, g), t)
  {
    hide Source, ApplicableAxioms, Recomputed, PicksClosureOf, TypesStayPut, IsAnswer;
    StoreIsComparable(c, quads, g);
    if InGraph(t, g) in Source(c, None, Some(t.p), None) {
      RewritingIsSound(c, g, ApplicableAxioms(quads, g), t);
    }
    if IsAnswer(ApplicableAxioms(quads, g), c.reasoning.OwlQl?, GraphTriples(c.base, g), t) {
      RewritingIsComplete(c, g, ApplicableAxioms(quads, g), t);
    }
  }

  /** In the graphs whose ontologies declare a property transitive, its pattern answers with the
      transitive closure of what forward chaining gives it; elsewhere with just that. */
  lemma TransitiveRewriting(c: Entailment, quads: set<Quad>, g: Id, t: Triple)
    requires ReadsStore(c, quads) && c.filter.Keep? && c.reasoning.OwlQl? && ValidSubjects(c.base)
    requires t.p !in {TYPE, SUB_CLASS_OF, SUB_PROPERTY_OF} && TypesStayPut(ApplicableAxioms(quads, g), true)
    ensures InGraph(t, g) in Source(c, None, Some(t.p), None) <==>
      if Triple(t.p, TYPE, TRANSITIVE) in ApplicableAxioms(quads, g)
      then Linked(ChainedArcs(Chained(ApplicableAxioms(quads, g), true, GraphTriples(c.base, g)), t.p), t.s, t.o, false)
      else NonLiteral(t.s) && t in Chained(ApplicableAxioms(quads, g), true, GraphTriples(c.base, g))
  {
    hide Source, ApplicableAxioms, Recomputed, TypesStayPut, Linked, Chained;
    RewritingIsForwardChaining(c, quads, g, t);
  }
}
