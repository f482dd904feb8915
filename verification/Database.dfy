/** The tables, and the relational meaning of each SQL statement oxilite emits for writes. A
    request runs its statements in order, all of them or none. */
module Database {
  import opened Ids
  import opened Registry
  import opened Closure
  import opened Shapes
  import opened OwlRules

  type Producer = nat

  /** Who the rows of a materialization round are attributed to. */
  const OWL_PRODUCER: Producer := 0

  /** A row of `quads_inf_src`. */
  datatype Attribution = Attribution(src: Producer, quad: Quad)

  /** A row of `update_buffer`: `op` 1 inserts, 0 deletes. */
  datatype BufferRow = BufferRow(insert: bool, quad: Quad)

  datatype Db = Db(
    dict: Dictionary,
    quads: set<Quad>,
    graphs: set<Id>,
    buffer: set<BufferRow>,
    tbox: set<TboxRow>,
    shapes: set<ShapeRow>,
    inf: set<Quad>,
    src: set<Attribution>,
    producers: set<Producer>)

  // ------------------------------------------------------------------ update templates

  /** What a WHERE solution binds: a term, or a computed number with the inline integer that can
      store it, if one can. */
  datatype Binding = Term(id: Id) | Number(stored: Option<Id>)

  /** One WHERE solution, with the random seed of its row. */
  datatype Solution = Solution(bindings: map<nat, Binding>, seed: nat)

  /** A template position; `Fresh` is a blank node, salted by its label. */
  datatype Slot = Constant(id: Id) | Variable(name: nat) | Fresh(salt: nat)

  datatype Template = Template(s: Slot, p: Slot, o: Slot, g: Slot)

  type Where = Db -> set<Solution>

  function SlotValue(slot: Slot, mu: Solution): Option<Id> {
    match slot
    case Constant(id) => Some(id)
    case Variable(v) =>
      if v !in mu.bindings then None
      else (match mu.bindings[v] case Term(id) => Some(id) case Number(stored) => stored)
    case Fresh(salt) => Some(Blank((mu.seed + salt) % PAYLOADS))
  }

  /** A template under a solution, when every position has a value. */
  function Instance(t: Template, mu: Solution): Option<Quad> {
    var s, p, o, g := SlotValue(t.s, mu), SlotValue(t.p, mu), SlotValue(t.o, mu), SlotValue(t.g, mu);
    if s.Some? && p.Some? && o.Some? && g.Some? then Some(Quad(s.value, p.value, o.value, g.value)) else None
  }

  /** May this quad be stored? */
  predicate ValidQuad(q: Quad) {
    && (q.s.Iri? || q.s.Blank?)
    && q.p.Iri?
    && (q.g.DefaultGraph? || q.g.Iri? || q.g.Blank?)
  }

  function SlotVariables(slot: Slot): set<nat> {
    if slot.Variable? then {slot.name} else {}
  }

  function Variables(templates: seq<Template>): set<nat> {
    set t, v | t in templates && v in SlotVariables(t.s) + SlotVariables(t.p) + SlotVariables(t.o)
      + SlotVariables(t.g) :: v
  }

  /** Some solution computes a template value no id can hold. */
  predicate Unstorable(solutions: set<Solution>, variables: set<nat>) {
    exists mu | mu in solutions :: exists v | v in variables :: v in mu.bindings && mu.bindings[v] == Number(None)
  }

  function Deletions(delete: seq<Template>, solutions: set<Solution>): set<Quad> {
    set t, mu | t in delete && mu in solutions && Instance(t, mu).Some? :: Instance(t, mu).value
  }

  function Insertions(insert: seq<Template>, solutions: set<Solution>): set<Quad> {
    set t, mu | t in insert && mu in solutions && Instance(t, mu).Some? && ValidQuad(Instance(t, mu).value) ::
      Instance(t, mu).value
  }

  function NamedGraphsOf(quads: set<Quad>): set<Id> {
    set q | q in quads && q.g != DefaultGraph :: q.g
  }

  // ------------------------------------------------------------------ statements

  datatype Statement =
    | InsertGraphs(ids: set<Id>)
    | InsertQuads(rows: set<Quad>)
    | DeleteQuads(rows: set<Quad>)
    | DeleteGraphQuads(g: Id)
    | DeleteNamedQuads
    | DeleteAllQuads
    | DeleteGraphName(g: Id)
    | DeleteAllGraphNames
    | DeleteDescription(g: Id)
    | GuardExists(g: Id)
    | GuardAbsent(g: Id)
    | GuardStorable(where: Where, variables: set<nat>)
    | ClearBuffer
    | FillBuffer(where: Where, delete: seq<Template>, insert: seq<Template>)
    | DeleteBuffered
    | InsertBuffered
    | InsertBufferedGraphs
    | ClosureStatement(step: ClosureStep)
    | ClearShapes
    | AddShapes
    | RegisterProducer(src: Producer)
    | DeleteAttributions(src: Producer)
    | DeleteUnattributed
    | InsertInferred(rows: set<Quad>)
    | Attribute(src: Producer)
    | DeleteAllInferred
    | DeleteAllAttributions
    | DeleteAllProducers
    | RuleStatement(rule: Rule)

  datatype Outcome = Committed(db: Db) | Aborted

  function Buffered(db: Db, insert: bool): set<Quad> {
    set b | b in db.buffer && b.insert == insert :: b.quad
  }

  /** The triples the materialization rules read. */
  function AllTriples(db: Db): set<Triple> {
    (set q | q in db.quads :: Triple(q.s, q.p, q.o)) + (set q | q in db.inf :: Triple(q.s, q.p, q.o))
  }

  /** The rows a rule adds: its valid conclusions, in the default graph, not asserted there. */
  function RuleRows(rule: Rule, db: Db): set<Quad> {
    set t | t in Conclusions(rule, AllTriples(db)) && NonLiteral(t.s) && Quad(t.s, t.p, t.o, DefaultGraph) !in db.quads
      :: Quad(t.s, t.p, t.o, DefaultGraph)
  }

  function Claimed(db: Db): set<Quad> {
    set a | a in db.src :: a.quad
  }

  /** The rows of `inference_attribute`. */
  function Claims(src: Producer, db: Db): set<Attribution> {
    set q | q in db.inf && q !in Claimed(db) :: Attribution(src, q)
  }

  function BufferRows(insert: bool, quads: set<Quad>): set<BufferRow> {
    set q | q in quads :: BufferRow(insert, q)
  }

  function OutsideGraph(quads: set<Quad>, g: Id): set<Quad> {
    set q | q in quads && q.g != g
  }

  function InGraph(quads: set<Quad>, g: Id): set<Quad> {
    set q | q in quads && q.g == g
  }

  /** The quads without a graph's description in the registry. */
  function Undescribed(quads: set<Quad>, g: Id): set<Quad> {
    set q | q in quads && !(q.g == SCHEMA_GRAPH && q.s == g)
  }

  /** The rows of the other producers. */
  function OthersRows(rows: set<Attribution>, src: Producer): set<Attribution> {
    set a | a in rows && a.src != src
  }

  /** What one statement makes of the tables. A violated guard aborts the request. */
  function Apply(st: Statement, db: Db): Outcome {
    match st
    case InsertGraphs(ids) => Committed(db.(graphs := db.graphs + ids))
    case InsertQuads(rows) => Committed(db.(quads := db.quads + rows))
    case DeleteQuads(rows) => Committed(db.(quads := db.quads - rows))
    case DeleteGraphQuads(g) => Committed(db.(quads := OutsideGraph(db.quads, g)))
    case DeleteNamedQuads => Committed(db.(quads := InGraph(db.quads, DefaultGraph)))
    case DeleteAllQuads => Committed(db.(quads := {}))
    case DeleteGraphName(g) => Committed(db.(graphs := db.graphs - {g}))
    case DeleteAllGraphNames => Committed(db.(graphs := {}))
    case DeleteDescription(g) => Committed(db.(quads := Undescribed(db.quads, g)))
    case GuardExists(g) => if g !in db.graphs then Aborted else Committed(db)
    case GuardAbsent(g) => if g in db.graphs then Aborted else Committed(db)
    case GuardStorable(where, variables) => if Unstorable(where(db), variables) then Aborted else Committed(db)
    case ClearBuffer => Committed(db.(buffer := {}))
    case FillBuffer(where, delete, insert) =>
      Committed(db.(buffer := db.buffer + BufferRows(false, Deletions(delete, where(db)))
        + BufferRows(true, Insertions(insert, where(db)))))
    case DeleteBuffered => Committed(db.(quads := db.quads - Buffered(db, false)))
    case InsertBuffered => Committed(db.(quads := db.quads + Buffered(db, true)))
    case InsertBufferedGraphs => Committed(db.(graphs := db.graphs + NamedGraphsOf(Buffered(db, true))))
    case ClosureStatement(step) => Committed(db.(tbox := ApplyStep(step, OntologyAxioms(db.quads), db.tbox)))
    case ClearShapes => Committed(db.(shapes := {}))
    case AddShapes => Committed(db.(shapes := db.shapes + RebuiltIndex(db.dict, db.quads)))
    case RegisterProducer(src) => Committed(db.(producers := db.producers + {src}))
    case DeleteAttributions(src) => Committed(db.(src := OthersRows(db.src, src)))
    case DeleteUnattributed => Committed(db.(inf := db.inf * Claimed(db)))
    case InsertInferred(rows) => Committed(db.(inf := db.inf + rows))
    case Attribute(src) => Committed(db.(src := db.src + Claims(src, db)))
    case DeleteAllInferred => Committed(db.(inf := {}))
    case DeleteAllAttributions => Committed(db.(src := {}))
    case DeleteAllProducers => Committed(db.(producers := {}))
    case RuleStatement(rule) => Committed(db.(inf := db.inf + RuleRows(rule, db)))
  }

  /** The statements of a request, one after the other, up to the first violated guard. */
  function Run(statements: seq<Statement>, db: Db): Outcome {
    if statements == [] then Committed(db)
    else match Apply(statements[0], db)
      case Committed(next) => Run(statements[1..], next)
      case Aborted => Aborted
  }

  /** A request is all or nothing. */
  function Execute(statements: seq<Statement>, db: Db): Db {
    match Run(statements, db)
    case Committed(next) => next
    case Aborted => db
  }

  lemma {:induction false} RunConcat(first: seq<Statement>, second: seq<Statement>, db: Db)
    ensures Run(first + second, db) == (match Run(first, db) case Committed(mid) => Run(second, mid) case Aborted =>
      Aborted)
    decreases |first|
  {
    if first == [] {
      assert first + second == second;
    } else {
      assert (first + second)[1..] == first[1..] + second;
      match Apply(first[0], db)
      case Committed(next) => RunConcat(first[1..], second, next);
      case Aborted =>
    }
  }

  /** The rows of the quad and inference tables a statement inserted or deleted. */
  function ChangedRows(before: Db, after: Db): nat {
    |after.quads - before.quads| + |before.quads - after.quads|
    + |after.inf - before.inf| + |before.inf - after.inf|
    + |after.src - before.src| + |before.src - after.src|
  }

  /** What the response reports for each statement. */
  function ChangesOf(statements: seq<Statement>, db: Db): seq<nat> {
    if statements == [] then []
    else match Apply(statements[0], db)
      case Committed(next) => [ChangedRows(db, next)] + ChangesOf(statements[1..], next)
      case Aborted => []
  }

  /** A connection that runs requests: statements change the tables in order, and a violated
      guard restores what was there before the request. */
  class Connection {
    var db: Db

    constructor (db: Db)
      ensures this.db == db
    {
      this.db := db;
    }

    method Request(statements: seq<Statement>) returns (committed: bool, changes: seq<nat>)
      modifies this
      ensures committed <==> Run(statements, old(db)).Committed?
      ensures db == Execute(statements, old(db))
      ensures committed ==> changes == ChangesOf(statements, old(db))
    {
      hide Apply, ChangedRows;
      var before := db;
      changes := [];
      var i := 0;
      while i < |statements|
        invariant 0 <= i <= |statements|
        invariant Run(statements, before) == Run(statements[i..], db)
        invariant ChangesOf(statements, before) == changes + ChangesOf(statements[i..], db)
      {
        assert statements[i..][1..] == statements[i + 1..];
        match Apply(statements[i], db) {
          case Committed(next) =>
            changes := changes + [ChangedRows(db, next)];
            db := next;
          case Aborted =>
            db := before;
            return false, changes;
        }
        i := i + 1;
      }
      return true, changes;
    }
  }
}
