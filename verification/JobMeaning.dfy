/** What each job does to the tables, row by row (ops.rs). */
module JobMeaning {
  import opened Ids
  import opened OwlRules
  import opened Database
  import opened Updates
  import opened Provenance
  import opened Rounds
  import opened Jobs
  import opened UpdateMeaning

  // ------------------------------------------------------------------ effects

  /** The tables of quads and graph names are the only ones to change, caches aside. */
  ghost predicate KeepsInferences(before: Db, after: Db) {
    && after.dict == before.dict && after.buffer == before.buffer
    && after.inf == before.inf && after.src == before.src && after.producers == before.producers
  }

  /** The inference tables are the only ones to change. */
  ghost predicate KeepsQuads(before: Db, after: Db) {
    && after.dict == before.dict && after.buffer == before.buffer
    && after.quads == before.quads && after.graphs == before.graphs
    && after.tbox == before.tbox && after.shapes == before.shapes
  }

  /** A producer other than this one owns the quad. */
  ghost predicate OthersOwn(db: Db, src: Producer, q: Quad) {
    exists a :: a in db.src && a.src != src && a.quad == q
  }

  ghost predicate IsOwned(db: Db, q: Quad) {
    exists a :: a in db.src && a.quad == q
  }

  /** What the store is after a job. */
  ghost predicate Effect(job: Job, before: Db, after: Db) {
    match job
    case InsertJob(quads) =>
      && (forall q :: q in after.quads <==> q in before.quads || q in quads)
      && (forall g ::
            g in after.graphs <==> g in before.graphs || (g != DefaultGraph && exists q :: q in quads && q.g == g))
      && KeepsInferences(before, after)
    case RemoveJob(quads) =>
      && (forall q :: q in after.quads <==> q in before.quads && q !in quads)
      && after.graphs == before.graphs && KeepsInferences(before, after)
    case InsertNamedGraphJob(g) =>
      && after.quads == before.quads && (forall h :: h in after.graphs <==> h in before.graphs || h == g)
      && KeepsInferences(before, after)
    case RemoveNamedGraphJob(g) =>
      // With its quads and its name a graph loses its description in the registry.
      && (forall q :: q in after.quads <==> q in before.quads && q.g != g && !(q.g == SCHEMA_GRAPH && q.s == g))
      && (forall h :: h in after.graphs <==> h in before.graphs && h != g)
      && KeepsInferences(before, after)
    case ClearGraphJob(g) =>
      && (forall q :: q in after.quads <==> q in before.quads && q.g != g)
      && after.graphs == before.graphs && KeepsInferences(before, after)
    case ClearJob =>
      && after.quads == {} && after.graphs == {} && after.inf == {} && after.src == {} && after.producers == {}
      && after.tbox == {} && after.shapes == {} && after.buffer == {} && after.dict == before.dict
    case UpdateJob(update) =>
      if forall op | op in update :: op.Load? ==> op.silent then
        exists outcome :: UpdateDoes(update, before, outcome)
          && match outcome
             case Committed(done) => after.quads == done.quads && after.graphs == done.graphs
               && KeepsInferences(before, after)
             case Aborted => after == before
      else after == before
    case OptimizeJob => after.quads == before.quads && after.graphs == before.graphs && KeepsInferences(before, after)
    case ReplaceInferencesJob(src, rows) =>
      // Others keep what they own, and the producer gets what none of them has.
      && (forall q :: q in after.inf <==> q in rows || OthersOwn(before, src, q))
      && (forall a :: a in after.src <==>
            if a.src == src then a.quad in rows && !OthersOwn(before, src, a.quad) else a in before.src)
      && (forall p :: p in after.producers <==> p in before.producers || p == src)
      && KeepsQuads(before, after)
    case ResetInferencesJob(src) =>
      && (forall q :: q in after.inf <==> OthersOwn(before, src, q))
      && (forall a :: a in after.src <==> a in before.src && a.src != src)
      && (forall p :: p in after.producers <==> p in before.producers || p == src)
      && KeepsQuads(before, after)
    case ClearInferencesJob =>
      after.inf == {} && after.src == {} && after.producers == before.producers && KeepsQuads(before, after)
    case MaterializeRoundJob =>
      // What the rules add goes to the producer of OWL, which owns nothing that was owned before.
      && after.inf == AfterRules(ROUND, before).inf && before.inf <= after.inf
      && (forall a :: a in after.src <==>
            a in before.src || (a.src == OWL_PRODUCER && a.quad in after.inf && !IsOwned(before, a.quad)))
      && after.producers == before.producers && KeepsQuads(before, after)
  }

  // ------------------------------------------------------------------ jobs have them

  lemma RefreshedKeeps(db: Db, closure: bool, shapes: bool)
    ensures var after := Refreshed(db, closure, shapes);
      after.quads == db.quads && after.graphs == db.graphs && KeepsInferences(db, after)
  {
  }

  lemma InsertRuns(rows: set<Quad>, db: Db)
    ensures Run(InsertStatements(rows), db)
      == Committed(db.(graphs := db.graphs + NamedGraphsOf(rows), quads := db.quads + rows))
  {
    RunTwo(InsertGraphs(NamedGraphsOf(rows)), InsertQuads(rows), true, db);
    assert InsertStatements(rows) == [InsertGraphs(NamedGraphsOf(rows))] + [InsertQuads(rows)];
  }

  lemma InsertRequest(quads: seq<Quad>)
    ensures RequestOf(InsertJob(quads))
         == InsertStatements(Elements(quads)) + RefreshStatements(AnySchemaQuad(quads), AnyShapeQuad(quads))
  {
    hide RefreshStatements, InsertStatements, AllStatements, ReplaceStatements, ResetStatements, RoundStatements,
      TouchesSchema, TouchesShapes, AnySchemaQuad, AnyShapeQuad, Plannable, Elements, CLEAR_STATEMENTS;
  }

  lemma InsertDoes(quads: seq<Quad>, db: Db)
    ensures Effect(InsertJob(quads), db, Execute(RequestOf(InsertJob(quads)), db))
  {
    hide Run, Apply, RefreshStatements, Refreshed, NamedGraphsOf, AnySchemaQuad, AnyShapeQuad, InsertStatements,
      RequestOf, Execute;
    InsertRequest(quads);
    var rows := Elements(quads);
    var after := db.(graphs := db.graphs + NamedGraphsOf(rows), quads := db.quads + rows);
    InsertRuns(rows, db);
    forall g
      ensures g in NamedGraphsOf(rows) <==> g != DefaultGraph && exists q :: q in quads && q.g == g
    {
      GraphsOf(rows, g);
    }
    WriteThenRefresh(InsertStatements(rows), db, after, AnySchemaQuad(quads), AnyShapeQuad(quads));
    RefreshedKeeps(after, AnySchemaQuad(quads), AnyShapeQuad(quads));
  }

  lemma DeleteRuns(rows: set<Quad>, db: Db)
    ensures Run([DeleteQuads(rows)], db) == Committed(db.(quads := db.quads - rows))
  {
    RunOne(DeleteQuads(rows), db);
  }

  lemma RemoveRequest(quads: seq<Quad>)
    ensures RequestOf(RemoveJob(quads))
         == [DeleteQuads(Elements(quads))] + RefreshStatements(AnySchemaQuad(quads), AnyShapeQuad(quads))
  {
    hide RefreshStatements, InsertStatements, AllStatements, ReplaceStatements, ResetStatements, RoundStatements,
      TouchesSchema, TouchesShapes, AnySchemaQuad, AnyShapeQuad, Plannable, Elements, CLEAR_STATEMENTS;
  }

  lemma RemoveDoes(quads: seq<Quad>, db: Db)
    ensures Effect(RemoveJob(quads), db, Execute(RequestOf(RemoveJob(quads)), db))
  {
    hide Run, Apply, RefreshStatements, Refreshed, AnySchemaQuad, AnyShapeQuad, RequestOf, Execute;
    var rows := Elements(quads);
    var after := db.(quads := db.quads - rows);
    RemoveRequest(quads);
    DeleteRuns(rows, db);
    WriteThenRefresh([DeleteQuads(rows)], db, after, AnySchemaQuad(quads), AnyShapeQuad(quads));
    RefreshedKeeps(after, AnySchemaQuad(quads), AnyShapeQuad(quads));
  }

  lemma NamingRequest(g: Id)
    ensures RequestOf(InsertNamedGraphJob(g)) == [InsertGraphs({g})]
  {
    hide RefreshStatements, InsertStatements, AllStatements, ReplaceStatements, ResetStatements, RoundStatements,
      TouchesSchema, TouchesShapes, AnySchemaQuad, AnyShapeQuad, Plannable, CLEAR_STATEMENTS;
  }

  lemma RemoveGraphRequest(g: Id)
    ensures RequestOf(RemoveNamedGraphJob(g))
         == [DeleteGraphQuads(g), DeleteGraphName(g), DeleteDescription(g)] + RefreshStatements(true, true)
  {
    hide RefreshStatements, InsertStatements, AllStatements, ReplaceStatements, ResetStatements, RoundStatements,
      TouchesSchema, TouchesShapes, AnySchemaQuad, AnyShapeQuad, Plannable, CLEAR_STATEMENTS;
  }

  lemma ClearGraphRequest(g: Id)
    ensures RequestOf(ClearGraphJob(g)) == [DeleteGraphQuads(g)] + RefreshStatements(true, true)
  {
    hide RefreshStatements, InsertStatements, AllStatements, ReplaceStatements, ResetStatements, RoundStatements,
      TouchesSchema, TouchesShapes, AnySchemaQuad, AnyShapeQuad, Plannable, CLEAR_STATEMENTS;
  }

  lemma OptimizeRequest()
    ensures RequestOf(OptimizeJob) == [] + RefreshStatements(true, true)
  {
    hide RefreshStatements, InsertStatements, AllStatements, ReplaceStatements, ResetStatements, RoundStatements,
      TouchesSchema, TouchesShapes, AnySchemaQuad, AnyShapeQuad, Plannable, CLEAR_STATEMENTS;
    assert [] + RefreshStatements(true, true) == RefreshStatements(true, true);
  }

  lemma NamingDoes(g: Id, db: Db)
    ensures Effect(InsertNamedGraphJob(g), db, Execute(RequestOf(InsertNamedGraphJob(g)), db))
  {
    hide Run, Apply, RequestOf;
    NamingRequest(g);
    RunOne(InsertGraphs({g}), db);
    GraphApplies(g, db);
  }

  lemma RemoveGraphDoes(g: Id, db: Db)
    requires GraphsListed(db)
    ensures Effect(RemoveNamedGraphJob(g), db, Execute(RequestOf(RemoveNamedGraphJob(g)), db))
  {
    hide Run, RefreshStatements, Refreshed, Apply, GraphsListed, RequestOf, Execute;
    RemoveGraphRequest(g);
    RemoveGraphRuns(g, db);
    WriteThenRefresh([DeleteGraphQuads(g), DeleteGraphName(g), DeleteDescription(g)], db, WithoutGraph(g, db), true,
      true);
    RefreshedKeeps(WithoutGraph(g, db), true, true);
  }

  lemma ClearGraphDoes(g: Id, db: Db)
    ensures Effect(ClearGraphJob(g), db, Execute(RequestOf(ClearGraphJob(g)), db))
  {
    hide Run, RefreshStatements, Refreshed, Apply, RequestOf, Execute;
    var after := db.(quads := OutsideGraph(db.quads, g));
    ClearGraphRequest(g);
    RunOne(DeleteGraphQuads(g), db);
    GraphApplies(g, db);
    WriteThenRefresh([DeleteGraphQuads(g)], db, after, true, true);
    RefreshedKeeps(after, true, true);
  }

  lemma OptimizeDoes(db: Db)
    ensures Effect(OptimizeJob, db, Execute(RequestOf(OptimizeJob), db))
  {
    hide Run, RefreshStatements, Refreshed, Apply, RequestOf, Execute;
    OptimizeRequest();
    RunNone(db);
    WriteThenRefresh([], db, db, true, true);
    RefreshedKeeps(db, true, true);
  }

  lemma UpdateRequest(update: Update)
    ensures RequestOf(UpdateJob(update))
         == if Plannable(update) then AllStatements(update)
           + RefreshStatements(TouchesSchema(update), TouchesShapes(update))
            else []
  {
    hide RefreshStatements, InsertStatements, AllStatements, ReplaceStatements, ResetStatements, RoundStatements,
      TouchesSchema, TouchesShapes, AnySchemaQuad, AnyShapeQuad, Plannable, CLEAR_STATEMENTS;
  }

  lemma PlannableMeans(update: Update)
    ensures Plannable(update) <==> forall op | op in update :: op.Load? ==> op.silent
  {
  }

  lemma UpdateDoesJob(update: Update, db: Db)
    requires db.buffer == {}
    ensures Effect(UpdateJob(update), db, Execute(RequestOf(UpdateJob(update)), db))
  {
    hide Run, AllStatements, RefreshStatements, Refreshed, MeaningOfAll, UpdateDoes, TouchesSchema, TouchesShapes,
      RequestOf, Plannable;
    UpdateRequest(update);
    PlannableMeans(update);
    if Plannable(update) {
      hide Execute;
      PlanMeansOperations(update, db);
      MeaningDoes(update, db);
      var outcome := MeaningOfAll(update, db);
      if outcome.Committed? {
        MeaningKeeps(update, db);
        RefreshedKeeps(outcome.db, TouchesSchema(update), TouchesShapes(update));
      }
      assert UpdateDoes(update, db, outcome);
    } else {
      RunNone(db);
    }
  }

  lemma {:induction false} MeaningKeeps(update: Update, db: Db)
    ensures MeaningOfAll(update, db).Committed? ==> KeepsInferences(db, MeaningOfAll(update, db).db)
    decreases |update|
  {
    hide Deletions, Insertions, Unstorable, NamedGraphsOf, Remaining, RemainingGraphs;
    if update != [] {
      MeaningKeeps(update[..|update| - 1], db);
    }
  }

  lemma OwnersOnRows(db: Db, src: Producer, q: Quad)
    ensures q in OwnedByOthers(db, src) <==> OthersOwn(db, src, q)
    ensures q in Claimed(db) <==> IsOwned(db, q)
  {
  }

  lemma InferenceRequests(src: Producer, rows: set<Quad>)
    ensures RequestOf(ReplaceInferencesJob(src, rows)) == ReplaceStatements(src, rows)
    ensures RequestOf(ResetInferencesJob(src)) == ResetStatements(src)
    ensures RequestOf(ClearInferencesJob) == [DeleteAllInferred] + [DeleteAllAttributions]
    ensures RequestOf(ClearJob) == CLEAR_STATEMENTS
  {
    hide RefreshStatements, InsertStatements, AllStatements, ReplaceStatements, ResetStatements, RoundStatements,
      TouchesSchema, TouchesShapes, AnySchemaQuad, AnyShapeQuad, Plannable, CLEAR_STATEMENTS;
    assert [DeleteAllInferred, DeleteAllAttributions] == [DeleteAllInferred] + [DeleteAllAttributions];
  }

  lemma ReplaceDoes(src: Producer, rows: set<Quad>, db: Db)
    requires Attributed(db)
    ensures Effect(ReplaceInferencesJob(src, rows), db, Execute(RequestOf(ReplaceInferencesJob(src, rows)), db))
  {
    hide Run, ReplaceStatements, OwnedByOthers, Attributed, OthersOwn, RequestOf;
    forall q
      ensures q in OwnedByOthers(db, src) <==> OthersOwn(db, src, q)
    {
      OwnersOnRows(db, src, q);
    }
    InferenceRequests(src, rows);
    ReplaceRuns(src, rows, db);
  }

  lemma ResetDoes(src: Producer, db: Db)
    requires Attributed(db)
    ensures Effect(ResetInferencesJob(src), db, Execute(RequestOf(ResetInferencesJob(src)), db))
  {
    hide Run, ResetStatements, OwnedByOthers, Attributed, OthersOwn, RequestOf;
    forall q
      ensures q in OwnedByOthers(db, src) <==> OthersOwn(db, src, q)
    {
      OwnersOnRows(db, src, q);
    }
    InferenceRequests(src, {});
    ResetRuns(src, db);
    ResetKeepsOthers(src, db);
  }

  lemma ClearDoes(db: Db)
    requires db.buffer == {}
    ensures Effect(ClearJob, db, Execute(RequestOf(ClearJob), db))
  {
    hide Run, Apply, RequestOf, CLEAR_STATEMENTS;
    InferenceRequests(OWL_PRODUCER, {});
    ClearRuns(db);
  }

  lemma ClearInferencesDoes(db: Db)
    ensures Effect(ClearInferencesJob, db, Execute(RequestOf(ClearInferencesJob), db))
  {
    hide Run, Apply, RequestOf;
    var mid := db.(inf := {});
    InferenceRequests(OWL_PRODUCER, {});
    ClearApplies(db);
    ClearApplies(mid);
    RunCons(DeleteAllInferred, [DeleteAllAttributions], db);
    RunOne(DeleteAllAttributions, mid);
  }

  lemma RoundRequest()
    ensures RequestOf(MaterializeRoundJob) == RoundStatements()
  {
    hide RefreshStatements, InsertStatements, AllStatements, ReplaceStatements, ResetStatements, RoundStatements,
      TouchesSchema, TouchesShapes, AnySchemaQuad, AnyShapeQuad, Plannable, CLEAR_STATEMENTS;
  }

  lemma RoundDoes(db: Db)
    ensures Effect(MaterializeRoundJob, db, Execute(RequestOf(MaterializeRoundJob), db))
  {
    hide Run, RoundStatements, AfterRules, Claimed, IsOwned, RequestOf;
    RoundRequest();
    RoundRunsAs(db);
    RulesOnlyAdd(ROUND, db);
    var mid := AfterRules(ROUND, db);
    forall q
      ensures q in Claimed(mid) <==> IsOwned(db, q)
    {
      OwnersOnRows(mid, OWL_PRODUCER, q);
      OwnersOnRows(db, OWL_PRODUCER, q);
      SameOwners(db, mid, q);
    }
    assert forall q ::
      Attribution(OWL_PRODUCER, q) in Claims(OWL_PRODUCER, mid) <==> q in mid.inf && q !in Claimed(mid);
  }

  lemma SameOwners(a: Db, b: Db, q: Quad)
    requires a.src == b.src
    ensures IsOwned(a, q) <==> IsOwned(b, q)
  {
  }

  /** Every job does to every table exactly what its effect says. */
  lemma JobsDo(job: Job, db: Db)
    requires Coherent(db)
    ensures Effect(job, db, Execute(RequestOf(job), db))
  {
    hide Execute, RequestOf, Effect, ClosureIsCurrent, ShapesAreCurrent, Attributed;
    match job {
      case InsertJob(quads) => InsertDoes(quads, db);
      case RemoveJob(quads) => RemoveDoes(quads, db);
      case InsertNamedGraphJob(g) => NamingDoes(g, db);
      case RemoveNamedGraphJob(g) => RemoveGraphDoes(g, db);
      case ClearGraphJob(g) => ClearGraphDoes(g, db);
      case ClearJob => ClearDoes(db);
      case UpdateJob(update) => UpdateDoesJob(update, db);
      case OptimizeJob => OptimizeDoes(db);
      case ReplaceInferencesJob(src, rows) => ReplaceDoes(src, rows, db);
      case ResetInferencesJob(src) => ResetDoes(src, db);
      case ClearInferencesJob => ClearInferencesDoes(db);
      case MaterializeRoundJob => RoundDoes(db);
    }
  }

  /** In a coherent store every graph that holds a quad is listed. */
  lemma GraphsOfQuadsAreListed(db: Db, q: Quad)
    requires Coherent(db) && q in db.quads && q.g != DefaultGraph
    ensures q.g in db.graphs
  {
    hide ClosureIsCurrent, ShapesAreCurrent, Attributed;
    assert q.g in NamedGraphsOf(db.quads);
  }
}
