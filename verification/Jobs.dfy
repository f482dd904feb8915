/** The write jobs, the caches they leave, and every run of them (ops.rs, shapes.rs). The caches
    `tbox_closure` and `shapes_index` equal a recomputation in every reachable state, although
    most writes skip the refresh. */
module Jobs {
  import opened Ids
  import opened Registry
  import opened Closure
  import opened Shapes
  import opened OwlRules
  import opened Database
  import opened Updates
  import opened Provenance
  import opened Rounds
  import opened Scopes

  // ------------------------------------------------------------------ requests

  predicate AnySchemaQuad(quads: seq<Quad>) {
    exists q | q in quads :: IsSchemaQuad(q)
  }

  predicate AnyShapeQuad(quads: seq<Quad>) {
    exists q | q in quads :: IsShapeQuad(q)
  }

  /** `schema_refresh_for`: the refreshes a write of these quads may need. */
  method SchemaRefreshFor(quads: seq<Quad>) returns (statements: seq<Statement>)
    ensures statements == RefreshStatements(AnySchemaQuad(quads), AnyShapeQuad(quads))
  {
    hide IsSchemaQuad, IsShapeQuad, RefreshStatements;
    var closure, shapes := false, false;
    for i := 0 to |quads|
      invariant closure == AnySchemaQuad(quads[..i])
      invariant shapes == AnyShapeQuad(quads[..i])
    {
      closure := closure || IsSchemaQuad(quads[i]);
      shapes := shapes || IsShapeQuad(quads[i]);
      assert quads[..i + 1] == quads[..i] + [quads[i]];
      if closure && shapes {
        return RefreshStatements(true, true);
      }
    }
    assert quads[..|quads|] == quads;
    return RefreshStatements(closure, shapes);
  }

  datatype Job =
    | InsertJob(quads: seq<Quad>)
    | RemoveJob(quads: seq<Quad>)
    | InsertNamedGraphJob(g: Id)
    | RemoveNamedGraphJob(g: Id)
    | ClearGraphJob(g: Id)
    | ClearJob
    | UpdateJob(update: Update)
    | OptimizeJob
    | ReplaceInferencesJob(src: Producer, rows: set<Quad>)
    | ResetInferencesJob(src: Producer)
    | ClearInferencesJob
    | MaterializeRoundJob

  const CLEAR_STATEMENTS := [
    DeleteAllQuads, DeleteAllInferred, DeleteAllAttributions, DeleteAllProducers,
    ClosureStatement(ClearClosure), ClearShapes, DeleteAllGraphNames
  ]

  /** The statements of a job, and the refreshes that end its request. */
  function RequestOf(job: Job): seq<Statement> {
    match job
    case InsertJob(quads) => InsertStatements(Elements(quads))
      + RefreshStatements(AnySchemaQuad(quads), AnyShapeQuad(quads))
    case RemoveJob(quads) => [DeleteQuads(Elements(quads))]
      + RefreshStatements(AnySchemaQuad(quads), AnyShapeQuad(quads))
    case InsertNamedGraphJob(g) => [InsertGraphs({g})]
    case RemoveNamedGraphJob(g) => [DeleteGraphQuads(g), DeleteGraphName(g), DeleteDescription(g)]
      + RefreshStatements(true, true)
    case ClearGraphJob(g) => [DeleteGraphQuads(g)] + RefreshStatements(true, true)
    case ClearJob => CLEAR_STATEMENTS
    case UpdateJob(update) =>
      if Plannable(update) then AllStatements(update)
        + RefreshStatements(TouchesSchema(update), TouchesShapes(update)) else []
    case OptimizeJob => RefreshStatements(true, true)
    case ReplaceInferencesJob(src, rows) => ReplaceStatements(src, rows)
    case ResetInferencesJob(src) => ResetStatements(src)
    case ClearInferencesJob => [DeleteAllInferred, DeleteAllAttributions]
    case MaterializeRoundJob => RoundStatements()
  }

  // ------------------------------------------------------------------ the invariant

  predicate ClosureIsCurrent(db: Db) {
    db.tbox == Recomputed(db.quads)
  }

  predicate ShapesAreCurrent(db: Db) {
    db.shapes == RebuiltIndex(db.dict, db.quads)
  }

  /** Every named graph holding a quad is listed in `graphs`. */
  predicate GraphsListed(db: Db) {
    NamedGraphsOf(db.quads) <= db.graphs
  }

  predicate Coherent(db: Db) {
    && ClosureIsCurrent(db) && ShapesAreCurrent(db) && GraphsListed(db)
    && db.buffer == {} && Attributed(db)
  }

  function EmptyStore(dict: Dictionary): Db {
    Db(dict, {}, {}, {}, {}, {}, {}, {}, {})
  }

  // ------------------------------------------------------------------ skipping a refresh

  /** The quads the closure and the index read are the same before and after. */
  predicate SameSchema(before: set<Quad>, after: set<Quad>) {
    SchemaPart(before) == SchemaPart(after)
  }

  predicate SameShapes(before: set<Quad>, after: set<Quad>) {
    ShapePart(before) == ShapePart(after)
  }

  /** A write that touches nothing the closure reads leaves a current closure current. */
  lemma ClosureSkipsSafely(before: set<Quad>, after: set<Quad>)
    requires SameSchema(before, after)
    ensures Recomputed(before) == Recomputed(after)
  {
    AxiomsReadSchemaPart(before);
    AxiomsReadSchemaPart(after);
  }

  /** Likewise for the shape index, also when the write stores or deletes terms that no shape
      mentions. */
  lemma ShapesSkipSafely(d: Dictionary, e: Dictionary, before: set<Quad>, after: set<Quad>)
    requires SameShapes(before, after) && (d == e || SpellAlike(d, e, before))
    ensures RebuiltIndex(d, before) == RebuiltIndex(e, after)
  {
    IndexReadsShapePart(e, before);
    IndexReadsShapePart(e, after);
    if d != e {
      IndexReadsShapeTerms(d, e, before);
    }
  }

  /** Terms that no shape mentions may be stored and deleted. */
  lemma TermsKeepCoherence(db: Db, dict: Dictionary)
    requires Coherent(db) && SpellAlike(db.dict, dict, db.quads)
    ensures Coherent(db.(dict := dict))
  {
    hide SpellAlike, RebuiltIndex, Recomputed;
    ShapesSkipSafely(db.dict, dict, db.quads, db.quads);
    assert Claimed(db.(dict := dict)) == Claimed(db);
  }

  /** A write of quads, then the refreshes it asked for. */
  lemma RefreshedIsCurrent(before: Db, after: Db, closure: bool, shapes: bool)
    requires ClosureIsCurrent(before) && ShapesAreCurrent(before)
    requires after.tbox == before.tbox && after.shapes == before.shapes && after.dict == before.dict
    requires closure || SameSchema(before.quads, after.quads)
    requires shapes || SameShapes(before.quads, after.quads)
    ensures ClosureIsCurrent(Refreshed(after, closure, shapes)) && ShapesAreCurrent(Refreshed(after, closure, shapes))
  {
    if !closure {
      ClosureSkipsSafely(before.quads, after.quads);
    }
    if !shapes {
      ShapesSkipSafely(before.dict, after.dict, before.quads, after.quads);
    }
  }

  // ------------------------------------------------------------------ jobs over given quads

  lemma FeedsAreSchemaQuads(q: Quad)
    ensures FeedsClosure(q) ==> IsSchemaQuad(q)
    ensures FeedsShapes(q) ==> IsShapeQuad(q)
  {
  }

  lemma PlainQuadsFeedNothing(before: set<Quad>, after: set<Quad>, quads: seq<Quad>)
    requires forall q | (q in before) != (q in after) :: q in quads
    ensures AnySchemaQuad(quads) || SameSchema(before, after)
    ensures AnyShapeQuad(quads) || SameShapes(before, after)
  {
    hide FeedsClosure, FeedsShapes, IsSchemaQuad, IsShapeQuad;
    forall q
      ensures FeedsClosure(q) ==> IsSchemaQuad(q)
      ensures FeedsShapes(q) ==> IsShapeQuad(q)
    {
      FeedsAreSchemaQuads(q);
    }
  }

  lemma WriteThenRefresh(write: seq<Statement>, db: Db, after: Db, closure: bool, shapes: bool)
    requires Run(write, db) == Committed(after)
    ensures Execute(write + RefreshStatements(closure, shapes), db) == Refreshed(after, closure, shapes)
  {
    hide RefreshStatements, Refreshed;
    RunConcat(write, RefreshStatements(closure, shapes), db);
    RefreshesRun(after, closure, shapes);
  }

  /** Only these tables differ: quads and graph names. */
  ghost predicate OnlyQuadsChanged(before: Db, after: Db) {
    after == before.(quads := after.quads, graphs := after.graphs)
  }

  /** A write followed by sufficient refreshes keeps the invariant. */
  lemma CoherentWrite(write: seq<Statement>, db: Db, after: Db, closure: bool, shapes: bool)
    requires Coherent(db) && Run(write, db) == Committed(after) && OnlyQuadsChanged(db, after)
    requires closure || SameSchema(db.quads, after.quads)
    requires shapes || SameShapes(db.quads, after.quads)
    requires GraphsListed(after)
    ensures Coherent(Execute(write + RefreshStatements(closure, shapes), db))
  {
    hide Run, Recomputed, RebuiltIndex, RefreshStatements, NamedGraphsOf;
    WriteThenRefresh(write, db, after, closure, shapes);
    RefreshedIsCurrent(db, after, closure, shapes);
    assert Claimed(Refreshed(after, closure, shapes)) == Claimed(db);
  }

  lemma InsertKeepsCoherence(quads: seq<Quad>, db: Db)
    requires Coherent(db)
    ensures Coherent(Execute(InsertStatements(Elements(quads))
      + RefreshStatements(AnySchemaQuad(quads), AnyShapeQuad(quads)), db))
  {
    var rows := Elements(quads);
    var after := db.(graphs := db.graphs + NamedGraphsOf(rows), quads := db.quads + rows);
    RunTwo(InsertGraphs(NamedGraphsOf(rows)), InsertQuads(rows), true, db);
    assert InsertStatements(rows) == [InsertGraphs(NamedGraphsOf(rows))] + [InsertQuads(rows)];
    assert NamedGraphsOf(after.quads) == NamedGraphsOf(db.quads) + NamedGraphsOf(rows);
    PlainQuadsFeedNothing(db.quads, after.quads, quads);
    hide Run, Coherent, SameSchema, SameShapes, RefreshStatements;
    assert GraphsListed(db) by { CoherentLists(db); }
    CoherentWrite(InsertStatements(rows), db, after, AnySchemaQuad(quads), AnyShapeQuad(quads));
  }

  lemma CoherentLists(db: Db)
    requires Coherent(db)
    ensures GraphsListed(db)
  {
    hide ClosureIsCurrent, ShapesAreCurrent, Attributed;
  }

  lemma FewerQuadsStayListed(before: Db, after: Db)
    requires GraphsListed(before) && after.quads <= before.quads && before.graphs <= after.graphs
    ensures GraphsListed(after)
  {
  }

  lemma RemoveKeepsCoherence(quads: seq<Quad>, db: Db)
    requires Coherent(db)
    ensures Coherent(Execute([DeleteQuads(Elements(quads))]
      + RefreshStatements(AnySchemaQuad(quads), AnyShapeQuad(quads)), db))
  {
    var rows := Elements(quads);
    var after := db.(quads := db.quads - rows);
    RunOne(DeleteQuads(rows), db);
    PlainQuadsFeedNothing(db.quads, after.quads, quads);
    CoherentLists(db);
    FewerQuadsStayListed(db, after);
    hide Run, Coherent, SameSchema, SameShapes, RefreshStatements, GraphsListed;
    CoherentWrite([DeleteQuads(rows)], db, after, AnySchemaQuad(quads), AnyShapeQuad(quads));
  }

  lemma InsertGraphKeepsCoherence(g: Id, db: Db)
    requires Coherent(db)
    ensures Coherent(Execute([InsertGraphs({g})], db))
  {
    hide Run, Coherent, Recomputed, RebuiltIndex, Apply;
    CoherentLists(db);
    RunOne(InsertGraphs({g}), db);
    GraphApplies(g, db);
    assert [InsertGraphs({g})] + RefreshStatements(false, false) == [InsertGraphs({g})];
    CoherentWrite([InsertGraphs({g})], db, db.(graphs := db.graphs + {g}), false, false);
  }

  lemma GraphApplies(g: Id, db: Db)
    ensures Apply(InsertGraphs({g}), db) == Committed(db.(graphs := db.graphs + {g}))
    ensures Apply(DeleteGraphQuads(g), db) == Committed(db.(quads := OutsideGraph(db.quads, g)))
    ensures Apply(DeleteGraphName(g), db) == Committed(db.(graphs := db.graphs - {g}))
    ensures Apply(DeleteDescription(g), db) == Committed(db.(quads := Undescribed(db.quads, g)))
  {
  }

  lemma RemoveGraphKeepsCoherence(g: Id, db: Db)
    requires Coherent(db)
    ensures Coherent(Execute([DeleteGraphQuads(g), DeleteGraphName(g), DeleteDescription(g)]
      + RefreshStatements(true, true), db))
  {
    hide Run, Coherent, RefreshStatements, Apply;
    CoherentLists(db);
    RemoveGraphRuns(g, db);
    CoherentWrite([DeleteGraphQuads(g), DeleteGraphName(g), DeleteDescription(g)], db, WithoutGraph(g, db), true, true);
  }

  lemma ClearGraphKeepsCoherence(g: Id, db: Db)
    requires Coherent(db)
    ensures Coherent(Execute([DeleteGraphQuads(g)] + RefreshStatements(true, true), db))
  {
    hide Run, Coherent, RefreshStatements, Apply;
    CoherentLists(db);
    RunOne(DeleteGraphQuads(g), db);
    GraphApplies(g, db);
    var after := db.(quads := OutsideGraph(db.quads, g));
    FewerQuadsStayListed(db, after);
    CoherentWrite([DeleteGraphQuads(g)], db, after, true, true);
  }

  lemma OptimizeKeepsCoherence(db: Db)
    requires Coherent(db)
    ensures Coherent(Execute(RefreshStatements(true, true), db))
  {
    hide Run, Coherent, RefreshStatements, Apply;
    CoherentLists(db);
    RunNone(db);
    assert [] + RefreshStatements(true, true) == RefreshStatements(true, true);
    CoherentWrite([], db, db, true, true);
  }

  /** A removed graph loses its quads, its name, and its description in the registry. */
  function WithoutGraph(g: Id, db: Db): Db {
    db.(quads := (set q | q in db.quads && q.g != g && !(q.g == SCHEMA_GRAPH && q.s == g)), graphs := db.graphs - {g})
  }

  lemma RemoveGraphRuns(g: Id, db: Db)
    requires GraphsListed(db)
    ensures Run([DeleteGraphQuads(g), DeleteGraphName(g), DeleteDescription(g)], db) == Committed(WithoutGraph(g, db))
    ensures GraphsListed(WithoutGraph(g, db))
  {
    hide Apply, Run;
    var d1 := db.(quads := OutsideGraph(db.quads, g));
    var d2 := d1.(graphs := d1.graphs - {g});
    GraphApplies(g, db);
    GraphApplies(g, d1);
    GraphApplies(g, d2);
    RunCons(DeleteGraphQuads(g), [DeleteGraphName(g)] + [DeleteDescription(g)], db);
    RunCons(DeleteGraphName(g), [DeleteDescription(g)], d1);
    RunOne(DeleteDescription(g), d2);
    assert [DeleteGraphQuads(g), DeleteGraphName(g), DeleteDescription(g)]
        == [DeleteGraphQuads(g)] + ([DeleteGraphName(g)] + [DeleteDescription(g)]);
    assert WithoutGraph(g, db).quads == Undescribed(d2.quads, g);
  }

  // ------------------------------------------------------------------ clearing everything

  lemma EmptyStoreHasNoClosure()
    ensures Recomputed({}) == {}
  {
    hide Rebuilt, Entails;
    assert OntologyAxioms({}) == {};
    StepsRebuild({}, {});
    forall r
      ensures r !in Rebuilt({})
    {
      RowsAreEntailments({}, r);
      assert AxiomsIn({}, r.scope) == {};
      NothingFromNothing(r.kind, r.sub, r.sup);
    }
  }

  lemma EmptyStoreIsCoherent(dict: Dictionary)
    ensures Coherent(EmptyStore(dict))
  {
    EmptyStoreHasNoClosure();
    assert DeclaredShapes({}) == {};
  }

  lemma ClearRuns(db: Db)
    ensures Run(CLEAR_STATEMENTS, db) == Committed(EmptyStore(db.dict).(buffer := db.buffer))
  {
    hide Apply, Run;
    ClearApplies(db);
    var d1 := db.(quads := {});
    var d2 := d1.(inf := {});
    var d3 := d2.(src := {});
    var d4 := d3.(producers := {});
    var d5 := d4.(tbox := {});
    var d6 := d5.(shapes := {});
    ClearApplies(d1);
    ClearApplies(d2);
    ClearApplies(d3);
    ClearApplies(d4);
    ClearApplies(d5);
    ClearApplies(d6);
    var tail := [ClearShapes] + [DeleteAllGraphNames];
    var mid := [DeleteAllProducers] + ([ClosureStatement(ClearClosure)] + tail);
    RunCons(DeleteAllQuads, [DeleteAllInferred] + ([DeleteAllAttributions] + mid), db);
    RunCons(DeleteAllInferred, [DeleteAllAttributions] + mid, d1);
    RunCons(DeleteAllAttributions, mid, d2);
    RunCons(DeleteAllProducers, [ClosureStatement(ClearClosure)] + tail, d3);
    RunCons(ClosureStatement(ClearClosure), tail, d4);
    RunCons(ClearShapes, [DeleteAllGraphNames], d5);
    RunOne(DeleteAllGraphNames, d6);
    assert CLEAR_STATEMENTS == [DeleteAllQuads] + ([DeleteAllInferred] + ([DeleteAllAttributions] + mid));
  }

  lemma ClearApplies(db: Db)
    ensures Apply(DeleteAllQuads, db) == Committed(db.(quads := {}))
    ensures Apply(DeleteAllInferred, db) == Committed(db.(inf := {}))
    ensures Apply(DeleteAllAttributions, db) == Committed(db.(src := {}))
    ensures Apply(DeleteAllProducers, db) == Committed(db.(producers := {}))
    ensures Apply(ClosureStatement(ClearClosure), db) == Committed(db.(tbox := {}))
    ensures Apply(ClearShapes, db) == Committed(db.(shapes := {}))
    ensures Apply(DeleteAllGraphNames, db) == Committed(db.(graphs := {}))
  {
    hide OntologyAxioms, RebuiltIndex, Claims, Claimed, RuleRows;
  }

  // ------------------------------------------------------------------ updates

  /** A template instance the closure reads comes from a template that says it may be one. */
  lemma InstancesAreFlagged(t: Template, mu: Solution)
    requires Instance(t, mu).Some?
    ensures FeedsClosure(Instance(t, mu).value) ==> AxiomPattern(t.p, t.o) || RegistryPattern(t)
    ensures FeedsShapes(Instance(t, mu).value) ==> ShapePattern(t.p) || RegistryPattern(t)
  {
  }

  lemma UnflaggedTemplatesFeedNothing(delete: seq<Template>, insert: seq<Template>, where: Where, db: Db)
    ensures !OperationTouchesRegistry(DeleteInsert(delete, insert, where)) &&
            !OperationTouchesAxioms(DeleteInsert(delete, insert, where)) ==>
      forall q | q in Deletions(delete, where(db)) + Insertions(insert, where(db)) :: !FeedsClosure(q)
    ensures !OperationTouchesRegistry(DeleteInsert(delete, insert, where)) &&
            !OperationTouchesShapes(DeleteInsert(delete, insert, where)) ==>
      forall q | q in Deletions(delete, where(db)) + Insertions(insert, where(db)) :: !FeedsShapes(q)
  {
    hide FeedsClosure, FeedsShapes, AxiomPattern, RegistryPattern, ShapePattern, Instance;
    forall t, mu | Instance(t, mu).Some?
      ensures FeedsClosure(Instance(t, mu).value) ==> AxiomPattern(t.p, t.o) || RegistryPattern(t)
      ensures FeedsShapes(Instance(t, mu).value) ==> ShapePattern(t.p) || RegistryPattern(t)
    {
      InstancesAreFlagged(t, mu);
    }
  }

  /** An operation that touches neither registry nor axioms changes nothing the closure reads. */
  lemma UntouchedOperation(op: Operation, db: Db)
    requires Meaning(op, db).Committed?
    ensures OperationTouchesRegistry(op) || OperationTouchesAxioms(op) || SameSchema(db.quads, Meaning(op, db).db.quads)
    ensures OperationTouchesRegistry(op) || OperationTouchesShapes(op) || SameShapes(db.quads, Meaning(op, db).db.quads)
  {
    var after := Meaning(op, db).db;
    match op
    case DeleteInsert(delete, insert, where) =>
      hide Deletions, Insertions, FeedsClosure, FeedsShapes, AxiomPattern, RegistryPattern, ShapePattern, Unstorable,
        Variables;
      UnflaggedTemplatesFeedNothing(delete, insert, where, db);
    case InsertData(quads) =>
    case DeleteData(quads) =>
    case _ =>
  }

  lemma OperationKeepsTables(op: Operation, db: Db)
    requires Meaning(op, db).Committed? && GraphsListed(db)
    ensures OnlyQuadsChanged(db, Meaning(op, db).db)
    ensures GraphsListed(Meaning(op, db).db)
  {
    hide Deletions, Insertions, Unstorable, Variables;
    var after := Meaning(op, db).db;
    match op
    case DeleteInsert(delete, insert, where) =>
    case InsertData(quads) =>
      assert NamedGraphsOf(after.quads) == NamedGraphsOf(db.quads) + NamedGraphsOf(Elements(quads));
    case DeleteData(quads) =>
    case Clear(silent, target) =>
    case Drop(silent, target) =>
    case Create(silent, g) =>
    case Load(_) =>
  }

  lemma {:induction false} UntouchedUpdate(update: Update, db: Db)
    requires MeaningOfAll(update, db).Committed? && GraphsListed(db)
    ensures var after := MeaningOfAll(update, db).db;
      && OnlyQuadsChanged(db, after) && GraphsListed(after)
      && (TouchesSchema(update) || SameSchema(db.quads, after.quads))
      && (TouchesShapes(update) || SameShapes(db.quads, after.quads))
    decreases |update|
  {
    hide Meaning, OperationTouchesRegistry, OperationTouchesAxioms, OperationTouchesShapes, GraphsListed, SchemaPart,
      ShapePart;
    if update != [] {
      var front, last := update[..|update| - 1], update[|update| - 1];
      UntouchedUpdate(front, db);
      var mid := MeaningOfAll(front, db).db;
      UntouchedOperation(last, mid);
      OperationKeepsTables(last, mid);
      TouchesMore(update);
    }
  }

  lemma TouchesMore(update: Update)
    requires update != []
    ensures TouchesSchema(update[..|update| - 1]) ==> TouchesSchema(update)
    ensures TouchesShapes(update[..|update| - 1]) ==> TouchesShapes(update)
    ensures OperationTouchesRegistry(update[|update| - 1]) ==> TouchesSchema(update) && TouchesShapes(update)
    ensures OperationTouchesAxioms(update[|update| - 1]) ==> TouchesSchema(update)
    ensures OperationTouchesShapes(update[|update| - 1]) ==> TouchesShapes(update)
  {
    hide OperationTouchesRegistry, OperationTouchesAxioms, OperationTouchesShapes;
    var front := update[..|update| - 1];
    assert forall i | 0 <= i < |front| :: front[i] == update[i];
  }

  lemma UpdateKeepsCoherence(update: Update, db: Db)
    requires Coherent(db)
    ensures Plannable(update) ==>
      Coherent(Execute(AllStatements(update) + RefreshStatements(TouchesSchema(update), TouchesShapes(update)), db))
  {
    hide TouchesSchema, TouchesShapes, AllStatements, RefreshStatements, MeaningOfAll, Recomputed, RebuiltIndex,
      NamedGraphsOf, Claimed;
    if Plannable(update) {
      CoherentLists(db);
      PlanMeansOperations(update, db);
      if MeaningOfAll(update, db).Committed? {
        UntouchedUpdate(update, db);
        var after := MeaningOfAll(update, db).db;
        RefreshedIsCurrent(db, after, TouchesSchema(update), TouchesShapes(update));
        assert Attributed(after) by { SameAttribution(db, after); }
        assert Attributed(Refreshed(after, TouchesSchema(update), TouchesShapes(update)))
          by { SameAttribution(after, Refreshed(after, TouchesSchema(update), TouchesShapes(update))); }
      }
    }
  }

  lemma SameAttribution(a: Db, b: Db)
    requires a.inf == b.inf && a.src == b.src && Attributed(a)
    ensures Attributed(b)
  {
    assert Claimed(a) == Claimed(b);
  }

  // ------------------------------------------------------------------ inferences

  /** Only the inference tables differ. */
  ghost predicate OnlyInferencesChanged(before: Db, after: Db) {
    after == before.(inf := after.inf, src := after.src, producers := after.producers)
  }

  lemma InferenceWrite(db: Db, after: Db)
    requires Coherent(db) && OnlyInferencesChanged(db, after) && Attributed(after)
    ensures Coherent(after)
  {
    hide Recomputed, RebuiltIndex, NamedGraphsOf, Attributed;
  }

  lemma RoundKeepsCoherence(db: Db)
    requires Coherent(db)
    ensures Coherent(Execute(RoundStatements(), db))
  {
    hide Run, Recomputed, RebuiltIndex, NamedGraphsOf, RoundStatements, AfterRules, Claims;
    var mid := AfterRules(ROUND, db);
    RulesOnlyAdd(ROUND, db);
    RoundRunsAs(db);
    assert Claimed(mid) == Claimed(db);
    ClaimedAfter(OWL_PRODUCER, mid);
    InferenceWrite(db, AfterRound(ROUND, db));
  }

  lemma CoherentIsAttributed(db: Db)
    requires Coherent(db)
    ensures Attributed(db)
  {
    hide ClosureIsCurrent, ShapesAreCurrent;
  }

  lemma ReplaceKeepsCoherence(src: Producer, rows: set<Quad>, db: Db)
    requires Coherent(db)
    ensures Coherent(Execute(ReplaceStatements(src, rows), db))
  {
    hide Run, Coherent, Attributed, OwnedBy, OwnedByOthers, ReplaceStatements;
    CoherentIsAttributed(db);
    ReplaceRuns(src, rows, db);
    AfterReplaceOwners(src, rows, db);
    InferenceWrite(db, AfterReplace(src, rows, db));
  }

  lemma ResetKeepsCoherence(src: Producer, db: Db)
    requires Coherent(db)
    ensures Coherent(Execute(ResetStatements(src), db))
  {
    hide Run, Coherent, Attributed, OwnedBy, OwnedByOthers, ResetStatements;
    CoherentIsAttributed(db);
    ResetRuns(src, db);
    ResetKeepsOthers(src, db);
    InferenceWrite(db, AfterReset(src, db));
  }

  lemma ClearInferencesKeepsCoherence(db: Db)
    requires Coherent(db)
    ensures Coherent(Execute([DeleteAllInferred, DeleteAllAttributions], db))
  {
    hide Run, Apply, Coherent;
    var mid, after := db.(inf := {}), db.(inf := {}, src := {});
    ClearApplies(db);
    ClearApplies(mid);
    RunCons(DeleteAllInferred, [DeleteAllAttributions], db);
    RunOne(DeleteAllAttributions, mid);
    assert [DeleteAllInferred, DeleteAllAttributions] == [DeleteAllInferred] + [DeleteAllAttributions];
    InferenceWrite(db, after);
  }

  // ------------------------------------------------------------------ every run

  /** Every job keeps the store coherent. */
  lemma JobsKeepCoherence(job: Job, db: Db)
    requires Coherent(db)
    ensures Coherent(Execute(RequestOf(job), db))
  {
    hide Coherent, Run, InsertStatements, RefreshStatements, AnySchemaQuad, AnyShapeQuad, AllStatements, TouchesSchema,
         TouchesShapes, Plannable, ReplaceStatements, ResetStatements, RoundStatements;
    match job
    case InsertJob(quads) => InsertKeepsCoherence(quads, db);
    case RemoveJob(quads) => RemoveKeepsCoherence(quads, db);
    case UpdateJob(update) =>
      UpdateKeepsCoherence(update, db);
      RunNone(db);
    case ClearJob => ClearKeepsCoherence(db);
    case MaterializeRoundJob => RoundKeepsCoherence(db);
    case ReplaceInferencesJob(src, rows) => ReplaceKeepsCoherence(src, rows, db);
    case ResetInferencesJob(src) => ResetKeepsCoherence(src, db);
    case ClearInferencesJob => ClearInferencesKeepsCoherence(db);
    case InsertNamedGraphJob(g) => InsertGraphKeepsCoherence(g, db);
    case RemoveNamedGraphJob(g) => RemoveGraphKeepsCoherence(g, db);
    case ClearGraphJob(g) => ClearGraphKeepsCoherence(g, db);
    case OptimizeJob => OptimizeKeepsCoherence(db);
  }

  lemma ClearKeepsCoherence(db: Db)
    requires Coherent(db)
    ensures Coherent(Execute(CLEAR_STATEMENTS, db))
  {
    hide Run, Recomputed, RebuiltIndex, NamedGraphsOf, Attributed;
    ClearRuns(db);
    EmptyStoreIsCoherent(db.dict);
    assert EmptyStore(db.dict).(buffer := db.buffer) == EmptyStore(db.dict);
  }

  /** A step of a store's life: a job's request, or terms that come into the dictionary before the
      quads of a write, or go out of it after everything is cleared. */
  datatype Event = Request(job: Job) | Terms(dict: Dictionary)

  function AfterEvent(event: Event, db: Db): Db {
    match event
    case Request(job) => Execute(RequestOf(job), db)
    case Terms(dict) => db.(dict := dict)
  }

  function AfterRun(events: seq<Event>, db: Db): Db {
    if events == [] then db else AfterRun(events[1..], AfterEvent(events[0], db))
  }

  /** Terms that shapes mention keep their texts; other terms may come and go at any time. */
  ghost predicate IsRun(events: seq<Event>, db: Db) {
    events == []
    || ((events[0].Terms? ==> SpellAlike(db.dict, events[0].dict, db.quads))
      && IsRun(events[1..], AfterEvent(events[0], db)))
  }

  /** In every state any run of jobs reaches from an empty store, the closure and the shape index
      are what a rebuild would make them, every graph holding quads is listed, the update buffer
      is empty and every inference has exactly one producer. */
  lemma {:induction false} ReachableStoresAreCoherent(events: seq<Event>, db: Db)
    requires Coherent(db) && IsRun(events, db)
    ensures Coherent(AfterRun(events, db))
    decreases |events|
  {
    hide Coherent, Execute, RequestOf, SpellAlike;
    if events != [] {
      match events[0] {
        case Request(job) => JobsKeepCoherence(job, db);
        case Terms(dict) => TermsKeepCoherence(db, dict);
      }
      ReachableStoresAreCoherent(events[1..], AfterEvent(events[0], db));
    }
  }

  /** The dictionary is emptied with the rest: no term is in use any more. */
  lemma ClearingFreesAllTerms(db: Db, dict: Dictionary)
    requires dict == db.dict.(lex := dict.lex, number := dict.number)
    requires forall s :: dict.first(s).Some? ==> dict.first(s).value in s
    ensures IsRun([Request(ClearJob), Terms(dict)], db)
  {
    hide Run, CLEAR_STATEMENTS;
    ClearRuns(db);
    var events, cleared := [Request(ClearJob), Terms(dict)], Execute(CLEAR_STATEMENTS, db);
    assert SpellAlike(cleared.dict, dict, cleared.quads);
    assert events[1..] == [Terms(dict)] && events[1..][1..] == [];
    assert IsRun(events[1..][1..], AfterEvent(Terms(dict), cleared));
    assert IsRun(events[1..], cleared);
  }
}
