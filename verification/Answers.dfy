/** What a query sees in a store that any writes have led to: the pieces put together. */
module Answers {
  import opened Ids
  import opened Database
  import opened Walks
  import opened Closure
  import opened Scopes
  import opened Jobs
  import opened Entailments
  import opened PushDown
  import opened Chaining
  import opened Rewriting
  import opened Merging
  import opened SchemaPatterns
  import opened Governing
  import opened Shapes
  import opened ShapeMeaning

  /** A query against this store, with what is loaded from the caches it reads. */
  predicate QueriesStore(c: Entailment, db: Db) {
    && c.tbox == db.tbox && c.scopes == LoadedScopes(db.tbox) && c.transitive == TransitiveProperties(db.tbox)
    && c.filter.Keep? && !c.reasoning.NoReasoning? && ValidSubjects(c.base)
  }

  /** In every state of a run such a query reads the closure of the quads there. */
  lemma QueriesRead(events: seq<Event>, start: Db, c: Entailment)
    requires Coherent(start) && IsRun(events, start) && QueriesStore(c, AfterRun(events, start))
    ensures ReadsStore(c, AfterRun(events, start).quads)
    ensures c.filter.Keep? && !c.reasoning.NoReasoning? && ValidSubjects(c.base)
  {
    hide Recomputed, AfterRun, IsRun;
    ReachableStoresAreCoherent(events, start);
  }

  /** Whatever jobs led to the store, and although most of them refreshed nothing, a pattern with
      a property outside the schema vocabulary and any constants matches exactly the triples that
      forward chaining derives in their graph, from the axioms that apply to that graph now, closed
      transitively if those axioms say so. */
  lemma AnswersAreForwardChaining(events: seq<Event>, start: Db, c: Entailment, g: Id, s: Option<Id>, o: Option<Id>,
      t: Triple)
    requires Coherent(start) && IsRun(events, start) && QueriesStore(c, AfterRun(events, start))
    requires t.p !in {SUB_CLASS_OF, SUB_PROPERTY_OF}
    requires TypesStayPut(ApplicableAxioms(AfterRun(events, start).quads, g), c.reasoning.OwlQl?)
    ensures Rewriting.InGraph(t, g) in Source(c, s, Some(t.p), o)
       <==> (Entailments.Fits(s, t.s) && Entailments.Fits(o, t.o)
             && IsAnswer(ApplicableAxioms(AfterRun(events, start).quads, g), c.reasoning.OwlQl?,
               GraphTriples(c.base, g), t))
  {
    hide Source, ApplicableAxioms, Recomputed, TypesStayPut, AfterRun, IsAnswer, Coherent, QueriesStore, ReadsStore;
    QueriesRead(events, start, c);
    RewritingIsForwardChaining(c, AfterRun(events, start).quads, g, t);
    EndsPushDown(c, s, t.p, o);
  }

  /** The same with nothing of the registry's reading in it: the axioms are the triples of the graphs
      that chains of import triples from the graph's ontologies lead to. */
  lemma AnswersFollowTriples(events: seq<Event>, start: Db, c: Entailment, g: Id, s: Option<Id>, o: Option<Id>,
      t: Triple)
    requires Coherent(start) && IsRun(events, start) && QueriesStore(c, AfterRun(events, start))
    requires t.p !in {SUB_CLASS_OF, SUB_PROPERTY_OF}
    requires TypesStayPut(GoverningTriples(AfterRun(events, start).quads, g), c.reasoning.OwlQl?)
    ensures Rewriting.InGraph(t, g) in Source(c, s, Some(t.p), o)
       <==> (Entailments.Fits(s, t.s) && Entailments.Fits(o, t.o)
             && IsAnswer(GoverningTriples(AfterRun(events, start).quads, g), c.reasoning.OwlQl?,
               GraphTriples(c.base, g), t))
  {
    hide Source, ApplicableAxioms, GoverningTriples, TypesStayPut, AfterRun, Chained, Linked, Coherent, QueriesStore;
    var quads := AfterRun(events, start).quads;
    AxiomsAmongGoverning(quads, g);
    StayPutAlike(GoverningTriples(quads, g), ApplicableAxioms(quads, g), c.reasoning.OwlQl?);
    ChainedAlike(GoverningTriples(quads, g), ApplicableAxioms(quads, g), c.reasoning.OwlQl?, GraphTriples(c.base, g));
    AnswersAreForwardChaining(events, start, c, g, s, o, t);
  }

  /** In particular, in the graphs whose ontologies declare a property transitive its pattern, with
      any constants, answers with the transitive closure of what forward chaining gives it, and
      elsewhere with just that. */
  lemma TransitiveAnswers(events: seq<Event>, start: Db, c: Entailment, g: Id, s: Option<Id>, o: Option<Id>, t: Triple)
    requires Coherent(start) && IsRun(events, start) && QueriesStore(c, AfterRun(events, start)) && c.reasoning.OwlQl?
    requires t.p !in {TYPE, SUB_CLASS_OF, SUB_PROPERTY_OF} && Entailments.Fits(s, t.s) && Entailments.Fits(o, t.o)
    requires TypesStayPut(ApplicableAxioms(AfterRun(events, start).quads, g), true)
    ensures var axioms := ApplicableAxioms(AfterRun(events, start).quads, g);
      var chained := Chained(axioms, true, GraphTriples(c.base, g));
      Rewriting.InGraph(t, g) in Source(c, s, Some(t.p), o) <==>
        if Triple(t.p, TYPE, TRANSITIVE) in axioms then Linked(ChainedArcs(chained, t.p), t.s, t.o, false)
        else NonLiteral(t.s) && t in chained
  {
    hide Source, ApplicableAxioms, TypesStayPut, AfterRun, Linked, Chained, Coherent, IsRun, ChainedArcs;
    AnswersAreForwardChaining(events, start, c, g, s, o, t);
  }

  /** The condition on the axioms is met by ordinary ontologies. */
  lemma OrdinaryOntologiesAnswer(events: seq<Event>, start: Db, c: Entailment, g: Id, s: Option<Id>, o: Option<Id>,
      t: Triple)
    requires Coherent(start) && IsRun(events, start) && QueriesStore(c, AfterRun(events, start))
    requires t.p !in {SUB_CLASS_OF, SUB_PROPERTY_OF}
    requires OrdinaryAxioms(ApplicableAxioms(AfterRun(events, start).quads, g), c.reasoning.OwlQl?)
    ensures Rewriting.InGraph(t, g) in Source(c, s, Some(t.p), o)
       <==> (Entailments.Fits(s, t.s) && Entailments.Fits(o, t.o)
             && IsAnswer(ApplicableAxioms(AfterRun(events, start).quads, g), c.reasoning.OwlQl?,
               GraphTriples(c.base, g), t))
  {
    hide *;
    OrdinaryTypesStayPut(ApplicableAxioms(AfterRun(events, start).quads, g), c.reasoning.OwlQl?);
    AnswersAreForwardChaining(events, start, c, g, s, o, t);
  }

  // ------------------------------------------------------------------ merged graphs

  /** What forward chaining with its own axioms derives of the property in some merged graph. */
  ghost predicate ChainedInSome(c: Entailment, quads: set<Quad>, graphs: Option<set<Id>>, p: Id, a: Arc) {
    exists g :: InMerge(graphs, g)
      && a in ChainedArcs(Chained(ApplicableAxioms(quads, g), c.reasoning.OwlQl?, GraphTriples(c.base, g)), p)
  }

  lemma MergedArcsAreChained(c: Entailment, quads: set<Quad>, graphs: Option<set<Id>>, p: Id)
    requires ReadsStore(c, quads) && c.filter.Keep? && !c.reasoning.NoReasoning? && ValidSubjects(c.base)
    requires p !in {TYPE, SUB_CLASS_OF, SUB_PROPERTY_OF}
    requires forall g | InMerge(graphs, g) :: TypesStayPut(ApplicableAxioms(quads, g), c.reasoning.OwlQl?)
    ensures forall a :: a in MergedArcs(c, graphs, p) <==> ChainedInSome(c, quads, graphs, p, a)
  {
    hide Recomputed, ApplicableAxioms, TypesStayPut, PicksClosureOf, MergedArcs, ArmArcs, Chained, ChainedArcs;
    ArcsByGraph(c, graphs, p);
    forall g | InMerge(graphs, g)
      ensures ArmArcs(c, p, g)
        == ChainedArcs(Chained(ApplicableAxioms(quads, g), c.reasoning.OwlQl?, GraphTriples(c.base, g)), p)
    {
      StoreIsComparable(c, quads, g);
      ArmArcsAreChained(c, g, ApplicableAxioms(quads, g), p);
      ChainedArcsAreArms(c, g, ApplicableAxioms(quads, g), p);
    }
  }

  /** Whatever jobs led to the store, a pattern over merged graphs answers with what each of them
      derives from its own axioms; a transitive property is closed across them when the default
      graph's ontologies declare it, and otherwise in none of them. */
  lemma MergedAnswers(events: seq<Event>, start: Db, c: Entailment, graphs: Option<set<Id>>, s: Option<Id>,
      o: Option<Id>, t: Triple)
    requires Coherent(start) && IsRun(events, start) && QueriesStore(c, AfterRun(events, start))
      && t.p !in {TYPE, SUB_CLASS_OF, SUB_PROPERTY_OF}
    requires forall g | InMerge(graphs, g) ::
      TypesStayPut(ApplicableAxioms(AfterRun(events, start).quads, g), c.reasoning.OwlQl?)
    ensures var quads, arcs := AfterRun(events, start).quads, MergedArcs(c, graphs, t.p);
      && (forall a :: a in arcs <==> ChainedInSome(c, quads, graphs, t.p, a))
      && (Rewriting.InGraph(t, DefaultGraph) in Source(Merged(c, graphs), s, Some(t.p), o)
          <==> (Entailments.Fits(s, t.s) && Entailments.Fits(o, t.o)
                && if c.reasoning.OwlQl? && Declares(quads, DefaultGraph, t.p) then Linked(arcs, t.s, t.o, false)
                   else Arc(t.s, t.o, false) in arcs))
  {
    hide Source, ApplicableAxioms, Recomputed, TypesStayPut, AfterRun, MergedArcs, ChainedInSome, Linked, Declares,
      Coherent, QueriesStore, ReadsStore;
    var quads := AfterRun(events, start).quads;
    QueriesRead(events, start, c);
    MergedArcsAreChained(c, quads, graphs, t.p);
    MergeFollowsDefaultGraph(c, quads, graphs, s, o, t);
  }

  // ------------------------------------------------------------------ schema patterns

  /** Whatever jobs led to the store, a pattern of rdfs:subClassOf or rdfs:subPropertyOf answers in
      each graph with what forward chaining gives there and, in the default graph, with what the
      axioms of any scope entail, closed transitively if the graph's ontologies say so. */
  lemma SchemaAnswers(events: seq<Event>, start: Db, c: Entailment, g: Id, s: Option<Id>, o: Option<Id>, t: Triple)
    requires Coherent(start) && IsRun(events, start) && QueriesStore(c, AfterRun(events, start))
      && IsSchemaProperty(t.p)
    requires TypesLeaveAlone(ApplicableAxioms(AfterRun(events, start).quads, g), c.reasoning.OwlQl?, t.p)
    ensures var quads, arcs := AfterRun(events, start).quads, ArmArcs(c, t.p, g);
      && (forall a: Arc :: a in arcs <==>
            !a.inv && (IsChainedArc(c, quads, g, t.p, a) || (g == DefaultGraph && InSomeScope(quads, t.p, a.a, a.b))))
      && (Rewriting.InGraph(t, g) in Source(c, s, Some(t.p), o) <==>
            Entailments.Fits(s, t.s) && Entailments.Fits(o, t.o)
            && if IsTransitive(ApplicableAxioms(quads, g), c.reasoning.OwlQl?, t.p) then Linked(arcs, t.s, t.o, false)
               else Arc(t.s, t.o, false) in arcs)
  {
    hide Source, ApplicableAxioms, Recomputed, TypesLeaveAlone, AfterRun, ArmArcs, IsChainedArc, InSomeScope, Linked,
      Coherent, QueriesStore, ReadsStore;
    QueriesRead(events, start, c);
    SchemaArcs(c, AfterRun(events, start).quads, g, t.p);
    SchemaPatternAnswers(c, AfterRun(events, start).quads, g, s, o, t);
  }

  /** And over merged graphs with what each of them gives and what any scope entails. */
  lemma MergedSchemaAnswers(events: seq<Event>, start: Db, c: Entailment, graphs: Option<set<Id>>, s: Option<Id>,
      o: Option<Id>, t: Triple)
    requires Coherent(start) && IsRun(events, start) && QueriesStore(c, AfterRun(events, start))
      && IsSchemaProperty(t.p)
    requires forall g | InMerge(graphs, g) ::
      TypesLeaveAlone(ApplicableAxioms(AfterRun(events, start).quads, g), c.reasoning.OwlQl?, t.p)
    ensures var quads, arcs := AfterRun(events, start).quads, MergedArcs(c, graphs, t.p);
      && (forall a: Arc ::
            a in arcs <==>
            !a.inv && ((exists g :: InMerge(graphs, g) && IsChainedArc(c, quads, g, t.p, a))
                       || InSomeScope(quads, t.p, a.a, a.b)))
      && (Rewriting.InGraph(t, DefaultGraph) in Source(Merged(c, graphs), s, Some(t.p), o) <==>
            Entailments.Fits(s, t.s) && Entailments.Fits(o, t.o)
            && if c.reasoning.OwlQl? && Declares(quads, DefaultGraph, t.p) then Linked(arcs, t.s, t.o, false)
               else Arc(t.s, t.o, false) in arcs)
  {
    hide Source, ApplicableAxioms, Recomputed, TypesLeaveAlone, AfterRun, MergedArcs, IsChainedArc, InSomeScope, Linked,
         Declares, Coherent, QueriesStore, ReadsStore;
    var quads := AfterRun(events, start).quads;
    QueriesRead(events, start, c);
    MergedSchemaArcs(c, quads, graphs, t.p);
    MergeFollowsDefaultGraph(c, quads, graphs, s, o, t);
  }

  // ------------------------------------------------------------------ the caches

  /** Whatever jobs led to the store, the closure's rows for a graph are what the triples of the
      graphs that govern it entail, and the shape index says what the shapes' triples say. */
  lemma CachesMean(events: seq<Event>, start: Db, g: Id, kind: Kind, sub: Id, sup: Id)
    requires Coherent(start) && IsRun(events, start) && MeansSql(AfterRun(events, start).dict)
    ensures var db := AfterRun(events, start);
      && (TboxRow(kind, ScopeOf(LoadedScopes(db.tbox), g), sub, sup) in db.tbox
          <==> Entails(GoverningTriples(db.quads, g), kind, sub, sup))
      && IndexMeans(db.dict, db.quads, db.shapes)
  {
    hide Recomputed, RebuiltIndex, Entails, GoverningTriples, AfterRun, IndexMeans, MeansSql;
    var db := AfterRun(events, start);
    ReachableStoresAreCoherent(events, start);
    SelectionFollowsImports(db.quads, g, kind, sub, sup);
    RebuiltIndexMeans(db.dict, db.quads);
  }
}
