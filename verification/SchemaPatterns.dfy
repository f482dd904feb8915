/** Patterns of rdfs:subClassOf and rdfs:subPropertyOf: besides what forward chaining gives in each
    graph, the closure itself answers them, in the default graph (reason.rs). */
module SchemaPatterns {
  import opened Ids
  import opened Registry
  import opened Walks
  import opened Closure
  import opened Scopes
  import opened Entailments
  import opened PushDown
  import opened Chaining
  import opened Rewriting
  import opened Merging

  predicate IsSchemaProperty(p: Id) {
    p == SUB_CLASS_OF || p == SUB_PROPERTY_OF
  }

  /** A walk of the class or property axioms that apply to some graph leads from `s` to `o`. */
  ghost predicate InSomeScope(quads: set<Quad>, p: Id, s: Id, o: Id) {
    exists k :: Entails(ApplicableAxioms(quads, k), if p == SUB_CLASS_OF then Class else Property, s, o)
  }

  /** The scopes are those of the graphs: whatever a scope entails, the axioms of some graph do. */
  lemma ScopesAreOfGraphs(quads: set<Quad>, kind: Kind, s: Id, o: Id)
    ensures (exists scope :: Entails(AxiomsIn(OntologyAxioms(quads), scope), kind, s, o))
       <==> (exists k :: Entails(ApplicableAxioms(quads, k), kind, s, o))
  {
    hide Entails, OntologyAxioms, AxiomsIn, ApplicableAxioms, IsTarget;
    if scope :| Entails(AxiomsIn(OntologyAxioms(quads), scope), kind, s, o) {
      if scope != ALL_GRAPHS && !IsTarget(quads, scope) {
        UntargetedHasNoAxioms(quads, scope);
        NothingFromNothing(kind, s, o);
      }
      TargetsAreNotAll(quads);
      ScopeHoldsApplicableAxioms(quads, scope);
      assert Entails(ApplicableAxioms(quads, scope), kind, s, o);
    }
    if k :| Entails(ApplicableAxioms(quads, k), kind, s, o) {
      ScopeHoldsApplicableAxioms(quads, k);
      assert Entails(AxiomsIn(OntologyAxioms(quads), OwnScope(quads, k)), kind, s, o);
    }
  }

  lemma SchemaArmRow(c: Entailment, quads: set<Quad>, g: Id, t: Triple)
    requires c.tbox == Recomputed(quads) && IsSchemaProperty(t.p)
    ensures InGraph(t, g) in SchemaArms(c, t.p, None, None) <==> g == DefaultGraph && InSomeScope(quads, t.p, t.s, t.o)
  {
    hide Rebuilt, Entails, OntologyAxioms, AxiomsIn, ApplicableAxioms;
    var axioms, kind := OntologyAxioms(quads), if t.p == SUB_CLASS_OF then Class else Property;
    StepsRebuild(axioms, {});
    ScopesAreOfGraphs(quads, kind, t.s, t.o);
    if InGraph(t, g) in SchemaArms(c, t.p, None, None) {
      var r :| r in c.tbox && r.kind == kind && InGraph(t, g) == Quad(r.sub, t.p, r.sup, DefaultGraph);
      RowsAreEntailments(axioms, r);
      assert Entails(AxiomsIn(axioms, r.scope), kind, t.s, t.o);
    }
    if g == DefaultGraph && InSomeScope(quads, t.p, t.s, t.o) {
      var scope :| Entails(AxiomsIn(axioms, scope), kind, t.s, t.o);
      RowsAreEntailments(axioms, TboxRow(kind, scope, t.s, t.o));
      assert TboxRow(kind, scope, t.s, t.o) in c.tbox;
    }
  }

  /** What forward chaining gives of the property in the graph. */
  ghost predicate IsChainedArc(c: Entailment, quads: set<Quad>, g: Id, p: Id, a: Arc) {
    a in ChainedArcs(Chained(ApplicableAxioms(quads, g), c.reasoning.OwlQl?, GraphTriples(c.base, g)), p)
  }

  lemma OrdinaryArmIsChained(c: Entailment, quads: set<Quad>, g: Id, t: Triple)
    requires ReadsStore(c, quads) && c.filter.Keep? && !c.reasoning.NoReasoning? && ValidSubjects(c.base)
    requires IsSchemaProperty(t.p) && TypesLeaveAlone(ApplicableAxioms(quads, g), c.reasoning.OwlQl?, t.p)
    ensures InGraph(t, g) in OrdinaryArms(c, t.p, None, None) <==> IsChainedArc(c, quads, g, t.p, Arc(t.s, t.o, false))
  {
    hide Recomputed, ApplicableAxioms, PicksClosureOf, OrdinaryArms, Chained, ByProperty, TypesLeaveAlone, ChainedArcs;
    var axioms, owl, base := ApplicableAxioms(quads, g), c.reasoning.OwlQl?, GraphTriples(c.base, g);
    StoreIsComparable(c, quads, g);
    OrdinaryArmRow(c, g, axioms, t);
    ArcOfChained(Chained(axioms, owl, base), t);
    if u :| u in base && ByProperty(axioms, owl, u, t) {
      ChainedIsClosed(axioms, owl, base);
      WaysAreChained(axioms, owl, base, u, t);
    }
    if NonLiteral(t.s) && t in Chained(axioms, owl, base) {
      SchemaTripleIsCarried(axioms, owl, base, t);
    }
  }

  lemma ArcOfChained(chained: set<Triple>, t: Triple)
    ensures Arc(t.s, t.o, false) in ChainedArcs(chained, t.p) <==> NonLiteral(t.s) && t in chained
  {
    if Arc(t.s, t.o, false) in ChainedArcs(chained, t.p) {
      var x :| x in chained && x.p == t.p && NonLiteral(x.s) && Arc(t.s, t.o, false) == Arc(x.s, x.o, false);
      assert x == t;
    }
  }

  lemma SchemaTripleIsCarried(axioms: set<Triple>, owl: bool, base: set<Triple>, t: Triple)
    requires IsSchemaProperty(t.p) && TypesLeaveAlone(axioms, owl, t.p) && NonLiteral(t.s)
      && t in Chained(axioms, owl, base)
    ensures exists u :: u in base && ByProperty(axioms, owl, u, t)
  {
    hide Chained, ByProperty, TypesLeaveAlone;
    SchemaTriplesHaveWays(axioms, owl, base, t);
    var u :| u in base && Way(axioms, owl, u, t);
  }

  /** The arcs of a schema property in a graph: chained there or, in the default graph, entailed by
      the axioms of some scope. */
  lemma SchemaArcs(c: Entailment, quads: set<Quad>, g: Id, p: Id)
    requires ReadsStore(c, quads) && c.filter.Keep? && !c.reasoning.NoReasoning? && ValidSubjects(c.base)
    requires IsSchemaProperty(p) && TypesLeaveAlone(ApplicableAxioms(quads, g), c.reasoning.OwlQl?, p)
    ensures forall a: Arc :: a in ArmArcs(c, p, g) <==>
      !a.inv && (IsChainedArc(c, quads, g, p, a) || (g == DefaultGraph && InSomeScope(quads, p, a.a, a.b)))
  {
    hide Recomputed, ApplicableAxioms, OrdinaryArms, SchemaArms, TypesLeaveAlone, InSomeScope, Chained;
    forall a: Arc
      ensures a in ArmArcs(c, p, g) <==>
        !a.inv && (IsChainedArc(c, quads, g, p, a) || (g == DefaultGraph && InSomeScope(quads, p, a.a, a.b)))
    {
      var t := Triple(a.a, p, a.b);
      OrdinaryArmIsChained(c, quads, g, t);
      SchemaArmRow(c, quads, g, t);
      OrdinaryArmsElsewhere(c, t);
      if a in ArmArcs(c, p, g) {
        var z :| z in PropertyArms(c, p, None, None) && z.g == g && a == Arc(z.s, z.o, false);
        assert z == InGraph(t, g);
      }
      if !a.inv && InGraph(t, g) in PropertyArms(c, p, None, None) {
        assert a == Arc(InGraph(t, g).s, InGraph(t, g).o, false) && InGraph(t, g).g == g;
      }
    }
  }

  /** A schema pattern with any constants: its arcs, closed transitively in the graphs whose
      ontologies declare the property transitive. */
  lemma SchemaPatternAnswers(c: Entailment, quads: set<Quad>, g: Id, s: Option<Id>, o: Option<Id>, t: Triple)
    requires ReadsStore(c, quads) && c.filter.Keep? && !c.reasoning.NoReasoning? && ValidSubjects(c.base)
    requires IsSchemaProperty(t.p)
    ensures InGraph(t, g) in Source(c, s, Some(t.p), o) <==>
      Entailments.Fits(s, t.s) && Entailments.Fits(o, t.o)
      && if IsTransitive(ApplicableAxioms(quads, g), c.reasoning.OwlQl?, t.p)
        then Linked(ArmArcs(c, t.p, g), t.s, t.o, false)
         else Arc(t.s, t.o, false) in ArmArcs(c, t.p, g)
  {
    hide Source, Recomputed, ApplicableAxioms, PicksClosureOf, PropertyArms, Linked;
    StoreIsComparable(c, quads, g);
    PropertySource(c, g, ApplicableAxioms(quads, g), t);
    OrdinaryArmsElsewhere(c, t);
    assert InGraph(t, g) in PropertyArms(c, t.p, None, None) <==> Arc(t.s, t.o, false) in ArmArcs(c, t.p, g);
    EndsPushDown(c, s, t.p, o);
  }

  /** Over merged graphs: what each of them chains, and what any scope entails. */
  lemma MergedSchemaArcs(c: Entailment, quads: set<Quad>, graphs: Option<set<Id>>, p: Id)
    requires ReadsStore(c, quads) && c.filter.Keep? && !c.reasoning.NoReasoning? && ValidSubjects(c.base)
    requires IsSchemaProperty(p)
    requires forall g | InMerge(graphs, g) :: TypesLeaveAlone(ApplicableAxioms(quads, g), c.reasoning.OwlQl?, p)
    ensures forall a: Arc :: a in MergedArcs(c, graphs, p) <==>
      !a.inv && ((exists g :: InMerge(graphs, g) && IsChainedArc(c, quads, g, p, a)) || InSomeScope(quads, p, a.a, a.b))
  {
    hide Recomputed, ApplicableAxioms, OrdinaryArms, SchemaArms, TypesLeaveAlone, InSomeScope, IsChainedArc;
    forall a: Arc
      ensures a in MergedArcs(c, graphs, p) <==>
        !a.inv && ((exists g :: InMerge(graphs, g) && IsChainedArc(c, quads, g, p, a))
          || InSomeScope(quads, p, a.a, a.b))
    {
      var t := Triple(a.a, p, a.b);
      OrdinaryArmsElsewhere(c, t);
      forall g
        ensures InGraph(t, g) in SchemaArms(c, p, None, None) <==> g == DefaultGraph && InSomeScope(quads, p, t.s, t.o)
      {
        SchemaArmRow(c, quads, g, t);
      }
      forall g | InMerge(graphs, g)
        ensures InGraph(t, g) in OrdinaryArms(c, p, None, None) <==> IsChainedArc(c, quads, g, p, Arc(t.s, t.o, false))
      {
        OrdinaryArmIsChained(c, quads, g, t);
      }
      if a in MergedArcs(c, graphs, p) {
        var z :| z in PropertyArms(c, p, None, None) && (InMerge(graphs, z.g) || z in SchemaArms(c, p, None, None))
          && a == Arc(z.s, z.o, false);
        assert z == InGraph(t, z.g);
      }
      if !a.inv && InSomeScope(quads, p, a.a, a.b) {
        assert InGraph(t, DefaultGraph) in PropertyArms(c, p, None, None);
      }
      if g :| !a.inv && InMerge(graphs, g) && IsChainedArc(c, quads, g, p, a) {
        assert InGraph(t, g) in PropertyArms(c, p, None, None);
      }
    }
  }
}
