/** What each update operation does to the quads and graph names, quad by quad (update.rs; sections
    3.1 and 3.2 of SPARQL 1.1 Update). */
module UpdateMeaning {
  import opened Ids
  import opened Database
  import opened Updates

  // ------------------------------------------------------------------ templates

  /** Under the solution this id stands at the position: the constant, what the variable is bound
      to if an id can hold it, or the row's blank node for the label. */
  predicate Fills(slot: Slot, mu: Solution, id: Id) {
    match slot
    case Constant(c) => id == c
    case Variable(v) => v in mu.bindings && (mu.bindings[v] == Term(id) || mu.bindings[v] == Number(Some(id)))
    case Fresh(salt) =>
      id.Blank? && id.payload < 0x800_0000_0000_0000 && (mu.seed + salt - id.payload) % 0x800_0000_0000_0000 == 0
  }

  predicate Makes(t: Template, mu: Solution, q: Quad) {
    Fills(t.s, mu, q.s) && Fills(t.p, mu, q.p) && Fills(t.o, mu, q.o) && Fills(t.g, mu, q.g)
  }

  /** The subject is an IRI or a blank node, the predicate an IRI, and the graph can hold quads. */
  predicate IsStorable(q: Quad) {
    (q.s.Iri? || q.s.Blank?) && q.p.Iri? && (q.g == DefaultGraph || q.g.Iri? || q.g.Blank?)
  }

  ghost predicate MadeBy(templates: seq<Template>, solutions: set<Solution>, q: Quad) {
    exists t, mu :: t in templates && mu in solutions && Makes(t, mu, q)
  }

  predicate Mentions(t: Template, v: nat) {
    t.s == Variable(v) || t.p == Variable(v) || t.o == Variable(v) || t.g == Variable(v)
  }

  /** A solution computes a number for a template that no id can hold. */
  ghost predicate CannotStore(delete: seq<Template>, insert: seq<Template>, solutions: set<Solution>) {
    exists t, mu, v :: t in delete + insert && mu in solutions && Mentions(t, v) && v in mu.bindings
      && mu.bindings[v] == Number(None)
  }

  lemma FillsIsValue(slot: Slot, mu: Solution, id: Id)
    ensures Fills(slot, mu, id) <==> SlotValue(slot, mu) == Some(id)
  {
    if slot.Fresh? {
      RestOfSum(mu.seed + slot.salt, if id.Blank? then id.payload else 0);
    }
  }

  lemma RestOfSum(n: nat, k: nat)
    ensures k < 0x800_0000_0000_0000 && (n - k) % 0x800_0000_0000_0000 == 0 <==> n % 0x800_0000_0000_0000 == k
  {
    var m := 0x800_0000_0000_0000;
    assert n == n / m * m + n % m;
  }

  lemma MakesIsInstance(t: Template, mu: Solution, q: Quad)
    ensures Makes(t, mu, q) <==> Instance(t, mu) == Some(q)
  {
    hide Fills, SlotValue;
    FillsIsValue(t.s, mu, q.s);
    FillsIsValue(t.p, mu, q.p);
    FillsIsValue(t.o, mu, q.o);
    FillsIsValue(t.g, mu, q.g);
    assert Instance(t, mu).Some? ==> SlotValue(t.s, mu).Some?;
  }

  lemma MadeIsDeleted(templates: seq<Template>, solutions: set<Solution>, q: Quad)
    ensures q in Deletions(templates, solutions) <==> MadeBy(templates, solutions, q)
    ensures q in Insertions(templates, solutions) <==> MadeBy(templates, solutions, q) && IsStorable(q)
  {
    hide Makes, Instance;
    forall t, mu
      ensures Makes(t, mu, q) <==> Instance(t, mu) == Some(q)
    {
      MakesIsInstance(t, mu, q);
    }
    if t, mu :| t in templates && mu in solutions && Makes(t, mu, q) {
      assert Instance(t, mu).value == q;
    }
  }

  lemma MentionsIsVariables(delete: seq<Template>, insert: seq<Template>, v: nat)
    ensures v in Variables(delete) + Variables(insert) <==> exists t :: t in delete + insert && Mentions(t, v)
  {
    forall templates: seq<Template>
      ensures v in Variables(templates) <==> exists t :: t in templates && Mentions(t, v)
    {
      if t :| t in templates && Mentions(t, v) {
        assert v in SlotVariables(t.s) + SlotVariables(t.p) + SlotVariables(t.o) + SlotVariables(t.g);
      }
    }
    assert forall t :: t in delete + insert <==> t in delete || t in insert;
  }

  lemma CannotStoreIsGuarded(delete: seq<Template>, insert: seq<Template>, solutions: set<Solution>)
    ensures Unstorable(solutions, Variables(delete) + Variables(insert)) <==> CannotStore(delete, insert, solutions)
  {
    hide Variables, Mentions;
    forall v
      ensures v in Variables(delete) + Variables(insert) <==> exists t :: t in delete + insert && Mentions(t, v)
    {
      MentionsIsVariables(delete, insert, v);
    }
    if t, mu, v :| t in delete + insert && mu in solutions && Mentions(t, v) && v in mu.bindings &&
                   mu.bindings[v] == Number(None) {
      assert v in Variables(delete) + Variables(insert);
    }
  }

  // ------------------------------------------------------------------ operations

  /** Only quads and graph names change, and this is which. */
  ghost predicate Leaves(before: Db, after: Db) {
    after == before.(quads := after.quads, graphs := after.graphs)
  }

  /** The quads are those of before that are kept, and those added; a graph that quads are added to
      is listed. */
  ghost predicate Adds(before: Db, after: Db, kept: Quad -> bool, added: Quad -> bool) {
    && (forall q :: q in after.quads <==> (q in before.quads && kept(q)) || added(q))
    && (forall g ::
          g in after.graphs <==> g in before.graphs || (g != DefaultGraph && exists q :: added(q) && q.g == g))
    && Leaves(before, after)
  }

  predicate InTarget(target: Target, g: Id) {
    match target
    case NamedTarget(h) => g == h
    case DefaultTarget => g == DefaultGraph
    case NamedTargets => g != DefaultGraph
    case AllTargets => true
  }

  /** DROP of one graph forgets its name, DROP of all or of the named ones every name. */
  predicate KeepsName(target: Target, g: Id) {
    match target
    case NamedTarget(h) => g != h
    case DefaultTarget => true
    case _ => false
  }

  ghost predicate Clears(target: Target, drop: bool, before: Db, after: Db) {
    && (forall q :: q in after.quads <==> q in before.quads && !InTarget(target, q.g))
    && (forall g :: g in after.graphs <==> g in before.graphs && (drop ==> KeepsName(target, g)))
    && Leaves(before, after)
  }

  /** What an operation does, or when it fails. */
  ghost predicate Does(op: Operation, before: Db, outcome: Outcome) {
    match op
    case InsertData(quads) =>
      outcome.Committed? && Adds(before, outcome.db, q => true, q => q in quads)
    case DeleteData(quads) =>
      outcome.Committed? && Adds(before, outcome.db, q => q !in quads, q => false)
    case DeleteInsert(delete, insert, where) =>
      var solutions := where(before);
      if CannotStore(delete, insert, solutions) then outcome.Aborted?
      else outcome.Committed?
           && Adds(before, outcome.db, q => !MadeBy(delete, solutions, q), q => MadeBy(insert, solutions, q)
             && IsStorable(q))
    case Clear(silent, target) => ClearsOrFails(silent, target, false, before, outcome)
    case Drop(silent, target) => ClearsOrFails(silent, target, true, before, outcome)
    case Create(silent, g) =>
      if !silent && g in before.graphs then outcome.Aborted?
      else outcome.Committed? && Leaves(before, outcome.db) && outcome.db.quads == before.quads
           && forall h :: h in outcome.db.graphs <==> h in before.graphs || h == g
    case Load(_) => outcome == Committed(before)
  }

  /** Only a named graph that is not there, and asked for aloud, fails. */
  ghost predicate ClearsOrFails(silent: bool, target: Target, drop: bool, before: Db, outcome: Outcome) {
    if !silent && target.NamedTarget? && target.g !in before.graphs then outcome.Aborted?
    else outcome.Committed? && Clears(target, drop, before, outcome.db)
  }

  lemma GraphsOf(quads: set<Quad>, g: Id)
    ensures g in NamedGraphsOf(quads) <==> g != DefaultGraph && exists q :: q in quads && q.g == g
  {
  }

  lemma ClearingClears(silent: bool, target: Target, drop: bool, db: Db)
    ensures ClearsOrFails(silent, target, drop, db, Cleared(silent, target, drop, db))
  {
  }

  lemma DeleteInsertDoes(delete: seq<Template>, insert: seq<Template>, where: Where, db: Db)
    ensures Does(DeleteInsert(delete, insert, where), db, Meaning(DeleteInsert(delete, insert, where), db))
  {
    hide MadeBy, Deletions, Insertions, Variables, CannotStore, Unstorable, NamedGraphsOf, IsStorable;
    var solutions := where(db);
    CannotStoreIsGuarded(delete, insert, solutions);
    forall q
      ensures q in Deletions(delete, solutions) <==> MadeBy(delete, solutions, q)
      ensures q in Insertions(insert, solutions) <==> MadeBy(insert, solutions, q) && IsStorable(q)
    {
      MadeIsDeleted(delete, solutions, q);
      MadeIsDeleted(insert, solutions, q);
    }
    forall g
      ensures g in NamedGraphsOf(Insertions(insert, solutions))
         <==> g != DefaultGraph && exists q :: q in Insertions(insert, solutions) && q.g == g
    {
      GraphsOf(Insertions(insert, solutions), g);
    }
  }

  /** The meaning of each operation is what it does, quad by quad. */
  lemma OperationDoes(op: Operation, db: Db)
    ensures Does(op, db, Meaning(op, db))
  {
    hide Cleared, ClearsOrFails, NamedGraphsOf;
    match op {
      case InsertData(quads) =>
        forall g
          ensures g in NamedGraphsOf(Elements(quads))
            <==> g != DefaultGraph && exists q :: q in Elements(quads) && q.g == g
        {
          GraphsOf(Elements(quads), g);
        }
      case DeleteData(quads) =>
      case DeleteInsert(delete, insert, where) => DeleteInsertDoes(delete, insert, where, db);
      case Clear(silent, target) => ClearingClears(silent, target, false, db);
      case Drop(silent, target) => ClearingClears(silent, target, true, db);
      case Create(silent, g) =>
      case Load(_) =>
    }
  }

  // ------------------------------------------------------------------ whole updates

  /** The operations' effects one after the other, from the first store to the last. */
  ghost predicate AreSteps(update: Update, states: seq<Db>) {
    |states| == |update| + 1 && forall i | 0 <= i < |update| :: Does(update[i], states[i], Committed(states[i + 1]))
  }

  /** All operations take effect in order, or some operation fails after those before it. */
  ghost predicate UpdateDoes(update: Update, before: Db, outcome: Outcome) {
    match outcome
    case Committed(after) => exists states ::
      AreSteps(update, states) && states[0] == before && states[|update|] == after
    case Aborted => exists k, states :: 0 <= k < |update| && AreSteps(update[..k], states) && states[0] == before
                      && Does(update[k], states[k], Aborted)
  }

  lemma {:induction false} MeaningDoes(update: Update, db: Db)
    ensures UpdateDoes(update, db, MeaningOfAll(update, db))
    decreases |update|
  {
    hide Does, Meaning;
    if update == [] {
      assert AreSteps([], [db]);
    } else {
      var k := |update| - 1;
      var front := update[..k];
      MeaningDoes(front, db);
      match MeaningOfAll(front, db) {
        case Committed(mid) =>
          var states :| AreSteps(front, states) && states[0] == db && states[|front|] == mid;
          OperationDoes(update[k], mid);
          match Meaning(update[k], mid) {
            case Committed(after) => StepsExtend(update, states, after);
            case Aborted => assert AreSteps(update[..k], states);
          }
        case Aborted =>
          var j, states :| 0 <= j < |front| && AreSteps(front[..j], states) && states[0] == db
            && Does(front[j], states[j], Aborted);
          assert front[..j] == update[..j] && front[j] == update[j];
      }
    }
  }

  lemma StepsExtend(update: Update, states: seq<Db>, after: Db)
    requires update != [] && AreSteps(update[..|update| - 1], states)
    requires Does(update[|update| - 1], states[|update| - 1], Committed(after))
    ensures AreSteps(update, states + [after])
  {
    hide Does;
    var more, front := states + [after], update[..|update| - 1];
    forall i | 0 <= i < |update|
      ensures Does(update[i], more[i], Committed(more[i + 1]))
    {
      if i < |front| {
        assert front[i] == update[i] && Does(front[i], states[i], Committed(states[i + 1]));
      }
    }
  }
}
