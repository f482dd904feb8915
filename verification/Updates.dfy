/** Planning a SPARQL update as one request, and what the request means (update.rs; DELETE/INSERT
    is section 3.1.3 of SPARQL 1.1 Update). */
module Updates {
  import opened Ids
  import opened Registry
  import opened Closure
  import opened Shapes
  import opened Database

  datatype Target = NamedTarget(g: Id) | DefaultTarget | NamedTargets | AllTargets

  datatype Operation =
    | InsertData(quads: seq<Quad>)
    | DeleteData(quads: seq<Quad>)
    | DeleteInsert(delete: seq<Template>, insert: seq<Template>, where: Where)
    | Clear(silent: bool, target: Target)
    | Drop(silent: bool, target: Target)
    | Create(silent: bool, g: Id)
    | Load(silent: bool)

  type Update = seq<Operation>

  // ------------------------------------------------------------------ change detection

  /** Could this template write a triple the closure reads? (Variables count as schema.) */
  predicate AxiomPattern(p: Slot, o: Slot) {
    match p
    case Variable(_) => true
    case Constant(id) =>
      IsSchemaIri(id)
        || (id == TYPE && (match o case Constant(c) => IsAxiomClass(c) case Variable(_) => true case Fresh(_) => false))
    case Fresh(_) => false
  }

  predicate RegistryTriplePattern(p: Slot, o: Slot) {
    match p
    case Variable(_) => true
    case Constant(id) =>
      if id == TYPE then (match o case Constant(c) => IsOxl(c) case Variable(_) => true case Fresh(_) => false)
      else IsOxl(id) || id == OWL_IMPORTS
    case Fresh(_) => false
  }

  /** Could this template write a registration? With a variable graph, any registration triple. */
  predicate RegistryPattern(t: Template) {
    match t.g
    case Constant(g) => g == SCHEMA_GRAPH
    case Variable(_) => RegistryTriplePattern(t.p, t.o)
    case Fresh(_) => false
  }

  predicate ShapePattern(p: Slot) {
    match p
    case Variable(_) => true
    case Constant(id) => id in SHAPE_PREDICATES
    case Fresh(_) => false
  }

  predicate OperationTouchesRegistry(op: Operation) {
    match op
    case InsertData(quads) => exists q | q in quads :: IsRegistryQuad(q)
    case DeleteData(quads) => exists q | q in quads :: IsRegistryQuad(q)
    case DeleteInsert(delete, insert, _) =>
      (exists t | t in delete :: RegistryPattern(t)) || (exists t | t in insert :: RegistryPattern(t))
    case Create(_, _) => false
    case _ => true
  }

  predicate OperationTouchesAxioms(op: Operation) {
    match op
    case InsertData(quads) => exists q | q in quads :: IsSchemaIri(q.p) || (q.p == TYPE && IsAxiomClass(q.o))
    case DeleteData(quads) => exists q | q in quads :: IsSchemaIri(q.p) || (q.p == TYPE && IsAxiomClass(q.o))
    case DeleteInsert(delete, insert, _) =>
      (exists t | t in delete :: AxiomPattern(t.p, t.o)) || (exists t | t in insert :: AxiomPattern(t.p, t.o))
    case Create(_, _) => false
    case _ => true
  }

  predicate OperationTouchesShapes(op: Operation) {
    match op
    case InsertData(quads) => exists q | q in quads :: q.p in SHAPE_PREDICATES
    case DeleteData(quads) => exists q | q in quads :: q.p in SHAPE_PREDICATES
    case DeleteInsert(delete, insert, _) =>
      (exists t | t in delete :: ShapePattern(t.p)) || (exists t | t in insert :: ShapePattern(t.p))
    case Create(_, _) => false
    case _ => true
  }

  predicate TouchesRegistry(update: Update) {
    exists i | 0 <= i < |update| :: OperationTouchesRegistry(update[i])
  }

  predicate TouchesSchema(update: Update) {
    TouchesRegistry(update) || exists i | 0 <= i < |update| :: OperationTouchesAxioms(update[i])
  }

  predicate TouchesShapes(update: Update) {
    TouchesRegistry(update) || exists i | 0 <= i < |update| :: OperationTouchesShapes(update[i])
  }

  // ------------------------------------------------------------------ the plan

  function Elements(quads: seq<Quad>): set<Quad> {
    set q | q in quads
  }

  function ClosureStatements(): seq<Statement> {
    StatementsOf(CLOSURE_STEPS)
  }

  function StatementsOf(steps: seq<ClosureStep>): seq<Statement> {
    if steps == [] then [] else [ClosureStatement(steps[0])] + StatementsOf(steps[1..])
  }

  const SHAPE_STATEMENTS := [ClearShapes, AddShapes]

  /** The rows, then their named graphs and the quads themselves. */
  function InsertStatements(quads: set<Quad>): seq<Statement> {
    [InsertGraphs(NamedGraphsOf(quads)), InsertQuads(quads)]
  }

  function ClearStatements(target: Target, silent: bool, drop: bool): seq<Statement> {
    match target
    case NamedTarget(g) =>
      (if silent then [] else [GuardExists(g)]) + [DeleteGraphQuads(g)] + (if drop then [DeleteGraphName(g)] else [])
    case DefaultTarget => [DeleteGraphQuads(DefaultGraph)]
    case NamedTargets => [DeleteNamedQuads] + (if drop then [DeleteAllGraphNames] else [])
    case AllTargets => [DeleteAllQuads] + (if drop then [DeleteAllGraphNames] else [])
  }

  /** Solutions are computed once, into the buffer; deletions and insertions come from there. */
  function DeleteInsertStatements(delete: seq<Template>, insert: seq<Template>, where: Where): seq<Statement> {
    [ClearBuffer]
    + (if delete == [] && insert == [] then []
       else [GuardStorable(where, Variables(delete) + Variables(insert)), FillBuffer(where, delete, insert)])
    + [DeleteBuffered, InsertBuffered, InsertBufferedGraphs, ClearBuffer]
  }

  function OperationStatements(op: Operation): seq<Statement> {
    match op
    case InsertData(quads) => InsertStatements(Elements(quads))
    case DeleteData(quads) => if quads == [] then [] else [DeleteQuads(Elements(quads))]
    case DeleteInsert(delete, insert, where) => DeleteInsertStatements(delete, insert, where)
    case Clear(silent, target) => ClearStatements(target, silent, false)
    case Drop(silent, target) => ClearStatements(target, silent, true)
    case Create(silent, g) => if silent then [InsertGraphs({g})] else [GuardAbsent(g), InsertGraphs({g})]
    case Load(_) => []
  }

  function AllStatements(update: Update): seq<Statement> {
    if update == [] then [] else AllStatements(update[..|update| - 1]) + OperationStatements(update[|update| - 1])
  }

  function RefreshStatements(closure: bool, shapes: bool): seq<Statement> {
    (if closure then ClosureStatements() else []) + (if shapes then SHAPE_STATEMENTS else [])
  }

  /** A LOAD that must not fail silently cannot be planned: the core has no network. */
  predicate Plannable(update: Update) {
    forall i | 0 <= i < |update| :: update[i].Load? ==> update[i].silent
  }

  /** `plan_update_with`: every operation in order, then the cache refreshes that may be needed. */
  method PlanUpdate(update: Update) returns (plan: Option<seq<Statement>>)
    ensures plan.Some? <==> Plannable(update)
    ensures plan.Some? ==>
      plan.value == AllStatements(update) + RefreshStatements(TouchesSchema(update), TouchesShapes(update))
  {
    hide OperationStatements, ClosureStatements, TouchesSchema, TouchesShapes;
    var out := [];
    for i := 0 to |update|
      invariant out == AllStatements(update[..i])
      invariant Plannable(update[..i])
    {
      var op := update[i];
      assert update[..i + 1][..i] == update[..i];
      if op.Load? && !op.silent {
        return None;
      }
      out := out + OperationStatements(op);
    }
    assert update[..|update|] == update;
    if TouchesSchema(update) {
      out := out + ClosureStatements();
    }
    if TouchesShapes(update) {
      out := out + SHAPE_STATEMENTS;
    }
    return Some(out);
  }

  // ------------------------------------------------------------------ what operations mean

  /** CLEAR and DROP, by what is left. */
  function Remaining(target: Target, quads: set<Quad>): set<Quad> {
    match target
    case NamedTarget(g) => OutsideGraph(quads, g)
    case DefaultTarget => OutsideGraph(quads, DefaultGraph)
    case NamedTargets => InGraph(quads, DefaultGraph)
    case AllTargets => {}
  }

  function RemainingGraphs(target: Target, graphs: set<Id>): set<Id> {
    match target
    case NamedTarget(g) => graphs - {g}
    case DefaultTarget => graphs
    case _ => {}
  }

  function Cleared(silent: bool, target: Target, drop: bool, db: Db): Outcome {
    if !silent && target.NamedTarget? && target.g !in db.graphs then Aborted
    else Committed(db.(
      quads := Remaining(target, db.quads),
      graphs := if drop then RemainingGraphs(target, db.graphs) else db.graphs))
  }

  /** The meaning of one operation. DELETE/INSERT instantiates both templates from the solutions
      over the state before it, removes the deletions, then adds the insertions. */
  function Meaning(op: Operation, db: Db): Outcome {
    match op
    case InsertData(quads) =>
      Committed(db.(quads := db.quads + Elements(quads), graphs := db.graphs + NamedGraphsOf(Elements(quads))))
    case DeleteData(quads) => Committed(db.(quads := db.quads - Elements(quads)))
    case DeleteInsert(delete, insert, where) =>
      var solutions := where(db);
      if Unstorable(solutions, Variables(delete) + Variables(insert)) then Aborted
      else Committed(db.(
        quads := (db.quads - Deletions(delete, solutions)) + Insertions(insert, solutions),
        graphs := db.graphs + NamedGraphsOf(Insertions(insert, solutions))))
    case Clear(silent, target) => Cleared(silent, target, false, db)
    case Drop(silent, target) => Cleared(silent, target, true, db)
    case Create(silent, g) => if !silent && g in db.graphs then Aborted else Committed(db.(graphs := db.graphs + {g}))
    case Load(_) => Committed(db)
  }

  /** Operations in order; the first failure fails the update. */
  function MeaningOfAll(update: Update, db: Db): Outcome {
    if update == [] then Committed(db)
    else match MeaningOfAll(update[..|update| - 1], db)
      case Committed(mid) => Meaning(update[|update| - 1], mid)
      case Aborted => Aborted
  }

  function Refreshed(db: Db, closure: bool, shapes: bool): Db {
    db.(tbox := if closure then Recomputed(db.quads) else db.tbox,
        shapes := if shapes then RebuiltIndex(db.dict, db.quads) else db.shapes)
  }

  // ------------------------------------------------------------------ the plan means the update

  lemma RunCons(st: Statement, rest: seq<Statement>, db: Db)
    ensures Run([st] + rest, db) == (match Apply(st, db) case Committed(next) => Run(rest, next) case Aborted =>
      Aborted)
  {
    assert ([st] + rest)[1..] == rest;
  }

  /** A statement that cannot fail, then perhaps another. */
  lemma RunTwo(one: Statement, two: Statement, both: bool, db: Db)
    requires Apply(one, db).Committed?
    ensures Run([one] + (if both then [two] else []), db) == if both then Apply(two, Apply(one, db).db)
      else Apply(one, db)
  {
    var next := Apply(one, db).db;
    RunCons(one, if both then [two] else [], db);
    RunCons(two, [], next);
    assert [two] + [] == [two];
  }

  lemma ClearMeans(silent: bool, target: Target, drop: bool, db: Db)
    ensures Run(ClearStatements(target, silent, drop), db) == Cleared(silent, target, drop, db)
  {
    match target
    case NamedTarget(g) =>
      var rest := [DeleteGraphQuads(g)] + (if drop then [DeleteGraphName(g)] else []);
      RunTwo(DeleteGraphQuads(g), DeleteGraphName(g), drop, db);
      RunCons(GuardExists(g), rest, db);
      assert ClearStatements(target, silent, drop) == (if silent then rest else [GuardExists(g)] + rest);
    case DefaultTarget => RunTwo(DeleteGraphQuads(DefaultGraph), DeleteAllQuads, false, db);
    case NamedTargets => RunTwo(DeleteNamedQuads, DeleteAllGraphNames, drop, db);
    case AllTargets => RunTwo(DeleteAllQuads, DeleteAllGraphNames, drop, db);
  }

  /** What the buffer holds once filled. */
  lemma FilledBuffer(db: Db, delete: seq<Template>, insert: seq<Template>, where: Where)
    requires db.buffer == {}
    ensures Apply(FillBuffer(where, delete, insert), db).Committed?
    ensures Buffered(Apply(FillBuffer(where, delete, insert), db).db, false) == Deletions(delete, where(db))
    ensures Buffered(Apply(FillBuffer(where, delete, insert), db).db, true) == Insertions(insert, where(db))
  {
    hide Deletions, Insertions;
    var filled := Apply(FillBuffer(where, delete, insert), db).db;
    assert forall q :: q in Deletions(delete, where(db)) <==> BufferRow(false, q) in filled.buffer;
    assert forall q :: q in Insertions(insert, where(db)) <==> BufferRow(true, q) in filled.buffer;
  }

  /** Evaluate, then apply: the compiled statements remove and add exactly what the templates
      give over the solutions of the state before, and leave the buffer empty. */
  lemma DeleteInsertMeans(delete: seq<Template>, insert: seq<Template>, where: Where, db: Db)
    requires db.buffer == {}
    ensures Run(DeleteInsertStatements(delete, insert, where), db) == Meaning(DeleteInsert(delete, insert, where), db)
  {
    hide Apply, Run, Buffered, Deletions, Insertions, Unstorable, Variables, NamedGraphsOf;
    var tail := [DeleteBuffered, InsertBuffered, InsertBufferedGraphs, ClearBuffer];
    var guard, fill := GuardStorable(where, Variables(delete) + Variables(insert)), FillBuffer(where, delete, insert);
    assert db.(buffer := {}) == db;
    BufferStatements(db);
    if delete == [] && insert == [] {
      NoTemplates(where(db));
      EmptyBuffer(db);
      RunCons(ClearBuffer, tail, db);
      ApplyBuffer(db);
      assert DeleteInsertStatements(delete, insert, where) == [ClearBuffer] + tail;
    } else {
      GuardAndFill(db, delete, insert, where);
      FilledBuffer(db, delete, insert, where);
      ApplyBuffer(Apply(fill, db).db);
      RunCons(ClearBuffer, [guard] + ([fill] + tail), db);
      RunCons(guard, [fill] + tail, db);
      RunCons(fill, tail, db);
      assert DeleteInsertStatements(delete, insert, where) == [ClearBuffer] + ([guard] + ([fill] + tail));
    }
  }

  lemma EmptyBuffer(db: Db)
    requires db.buffer == {}
    ensures Buffered(db, false) == {} && Buffered(db, true) == {} && NamedGraphsOf({}) == {}
  {
  }

  lemma GuardAndFill(db: Db, delete: seq<Template>, insert: seq<Template>, where: Where)
    ensures Apply(GuardStorable(where, Variables(delete) + Variables(insert)), db)
         == if Unstorable(where(db), Variables(delete) + Variables(insert)) then Aborted else Committed(db)
    ensures Apply(FillBuffer(where, delete, insert), db).Committed?
    ensures var filled := Apply(FillBuffer(where, delete, insert), db).db; filled == db.(buffer := filled.buffer)
  {
    hide Unstorable, Variables, Deletions, Insertions;
  }

  lemma NoTemplates(solutions: set<Solution>)
    ensures Deletions([], solutions) == {} && Insertions([], solutions) == {}
    ensures !Unstorable(solutions, Variables([]) + Variables([]))
  {
    assert Variables([]) + Variables([]) == {};
  }

  lemma RunOne(st: Statement, db: Db)
    ensures Run([st], db) == Apply(st, db)
  {
    assert [st] == [st] + [];
    RunCons(st, [], db);
  }

  lemma BufferStatements(db: Db)
    ensures Apply(DeleteBuffered, db) == Committed(db.(quads := db.quads - Buffered(db, false)))
    ensures Apply(InsertBuffered, db) == Committed(db.(quads := db.quads + Buffered(db, true)))
    ensures Apply(InsertBufferedGraphs, db) == Committed(db.(graphs := db.graphs + NamedGraphsOf(Buffered(db, true))))
    ensures Apply(ClearBuffer, db) == Committed(db.(buffer := {}))
  {
  }

  /** The buffer applied: deletions, insertions, graph names, then it is emptied. */
  lemma ApplyBuffer(db: Db)
    ensures Run([DeleteBuffered, InsertBuffered, InsertBufferedGraphs, ClearBuffer], db)
         == Committed(db.(quads := (db.quads - Buffered(db, false)) + Buffered(db, true),
                          graphs := db.graphs + NamedGraphsOf(Buffered(db, true)), buffer := {}))
  {
    hide Apply, Run, Buffered, NamedGraphsOf;
    var d1 := db.(quads := db.quads - Buffered(db, false));
    var d2 := d1.(quads := d1.quads + Buffered(db, true));
    var d3 := d2.(graphs := d2.graphs + NamedGraphsOf(Buffered(db, true)));
    SameBuffer(db, d1);
    SameBuffer(db, d2);
    BufferStatements(db);
    BufferStatements(d1);
    BufferStatements(d2);
    BufferStatements(d3);
    RunCons(DeleteBuffered, [InsertBuffered] + ([InsertBufferedGraphs] + [ClearBuffer]), db);
    RunCons(InsertBuffered, [InsertBufferedGraphs] + [ClearBuffer], d1);
    RunCons(InsertBufferedGraphs, [ClearBuffer], d2);
    RunOne(ClearBuffer, d3);
    assert [DeleteBuffered, InsertBuffered, InsertBufferedGraphs, ClearBuffer]
        == [DeleteBuffered] + ([InsertBuffered] + ([InsertBufferedGraphs] + [ClearBuffer]));
  }

  lemma SameBuffer(a: Db, b: Db)
    requires a.buffer == b.buffer
    ensures forall insert :: Buffered(a, insert) == Buffered(b, insert)
  {
  }

  lemma OperationMeans(op: Operation, db: Db)
    requires db.buffer == {}
    ensures Run(OperationStatements(op), db) == Meaning(op, db)
    ensures Meaning(op, db).Committed? ==> Meaning(op, db).db.buffer == {}
  {
    match op
    case InsertData(quads) =>
      RunTwo(InsertGraphs(NamedGraphsOf(Elements(quads))), InsertQuads(Elements(quads)), true, db);
    case DeleteData(quads) =>
      RunTwo(DeleteQuads(Elements(quads)), ClearBuffer, false, db);
      assert quads == [] ==> db.quads - Elements(quads) == db.quads;
    case DeleteInsert(delete, insert, where) => DeleteInsertMeans(delete, insert, where, db);
    case Clear(silent, target) => ClearMeans(silent, target, false, db);
    case Drop(silent, target) => ClearMeans(silent, target, true, db);
    case Create(silent, g) =>
      RunCons(GuardAbsent(g), [InsertGraphs({g})], db);
      RunTwo(InsertGraphs({g}), ClearBuffer, false, db);
      assert [GuardAbsent(g)] + [InsertGraphs({g})] == [GuardAbsent(g), InsertGraphs({g})];
    case Load(_) =>
  }

  lemma {:induction false} OperationsMean(update: Update, db: Db)
    requires db.buffer == {}
    ensures Run(AllStatements(update), db) == MeaningOfAll(update, db)
    ensures MeaningOfAll(update, db).Committed? ==> MeaningOfAll(update, db).db.buffer == {}
    decreases |update|
  {
    hide Apply, OperationStatements, Meaning;
    if update != [] {
      var front, last := update[..|update| - 1], update[|update| - 1];
      OperationsMean(front, db);
      RunConcat(AllStatements(front), OperationStatements(last), db);
      if MeaningOfAll(front, db).Committed? {
        OperationMeans(last, MeaningOfAll(front, db).db);
      }
    }
  }

  // ------------------------------------------------------------------ the refreshes

  lemma {:induction false} ClosureStepsRun(steps: seq<ClosureStep>, db: Db)
    ensures Run(StatementsOf(steps), db) == Committed(db.(tbox := ApplySteps(steps, OntologyAxioms(db.quads), db.tbox)))
    decreases |steps|
  {
    hide OntologyAxioms, ApplyStep;
    if steps == [] {
      assert db.(tbox := db.tbox) == db;
    } else {
      var next := db.(tbox := ApplyStep(steps[0], OntologyAxioms(db.quads), db.tbox));
      RunCons(ClosureStatement(steps[0]), StatementsOf(steps[1..]), db);
      ClosureStepsRun(steps[1..], next);
    }
  }

  /** Whatever `tbox_closure` held, the nine statements leave the closure of the current quads. */
  lemma ClosureRefreshes(db: Db)
    ensures Run(ClosureStatements(), db) == Committed(db.(tbox := Recomputed(db.quads)))
  {
    hide OntologyAxioms, ApplySteps, Rebuilt;
    ClosureStepsRun(CLOSURE_STEPS, db);
    StepsRebuild(OntologyAxioms(db.quads), db.tbox);
    StepsRebuild(OntologyAxioms(db.quads), {});
  }

  lemma ShapesRefresh(db: Db)
    ensures Run(SHAPE_STATEMENTS, db) == Committed(db.(shapes := RebuiltIndex(db.dict, db.quads)))
  {
    hide RebuiltIndex;
    RunTwo(ClearShapes, AddShapes, true, db);
    assert [ClearShapes] + [AddShapes] == SHAPE_STATEMENTS;
  }

  lemma RefreshesRun(db: Db, closure: bool, shapes: bool)
    ensures Run(RefreshStatements(closure, shapes), db) == Committed(Refreshed(db, closure, shapes))
  {
    hide RebuiltIndex, Recomputed, ClosureStatements, Apply;
    var first := if closure then ClosureStatements() else [];
    var mid := if closure then db.(tbox := Recomputed(db.quads)) else db;
    ClosureRefreshes(db);
    ShapesRefresh(mid);
    RunConcat(first, if shapes then SHAPE_STATEMENTS else [], db);
  }

  /** A planned update runs its operations in order, each over the state the ones before left,
      and then refreshes the caches; if any guard fires, nothing has changed. */
  lemma PlanMeansOperations(update: Update, db: Db)
    requires db.buffer == {}
    ensures Execute(AllStatements(update) + RefreshStatements(TouchesSchema(update), TouchesShapes(update)), db)
         == match MeaningOfAll(update, db)
            case Committed(after) => Refreshed(after, TouchesSchema(update), TouchesShapes(update))
            case Aborted => db
  {
    hide TouchesSchema, TouchesShapes, AllStatements, RefreshStatements, MeaningOfAll, Refreshed;
    OperationsMean(update, db);
    RunConcat(AllStatements(update), RefreshStatements(TouchesSchema(update), TouchesShapes(update)), db);
    if MeaningOfAll(update, db).Committed? {
      RefreshesRun(MeaningOfAll(update, db).db, TouchesSchema(update), TouchesShapes(update));
    }
  }
}
