/** Why materialization ends: its rules invent no ids, so there are only so many triples to add
    (reason.rs, ops.rs). */
module RoundBound {
  import opened Ids
  import opened OwlRules
  import opened Database
  import opened Provenance
  import opened Rounds
  import opened Materialization
  import Fixpoint

  // ------------------------------------------------------------------ no new ids

  /** The ids rule conclusions use beyond those of the data. */
  const RULE_VOCABULARY := {TYPE, SAME_AS, SUB_CLASS_OF, THING, NOTHING, CLASS}

  lemma CellsWithin(a: set<Triple>, ids: set<Id>)
    requires forall t | t in a :: Within(ids, t)
    ensures forall c | c in Cells(a) :: c.head in ids && c.item in ids
  {
    CellFrameHolds(a);
    Fixpoint.LeastIsClosed(FirstCells(a), NextCell(a), CellFrame(a));
  }

  lemma TrailsWithin(a: set<Triple>, ids: set<Id>)
    requires forall t | t in a :: Within(ids, t)
    ensures forall w | w in Trails(a) :: w.chain in ids && w.start in ids && w.cur in ids
  {
    hide Places;
    var steps := Steps(a);
    assert forall st | st in steps :: st.chain in ids;
    TrailFrameHolds(a, steps);
    Fixpoint.LeastIsClosed(FirstTrails(a, steps), NextTrail(a, steps), TrailFrame(a, steps));
  }

  /** A conclusion is built from the ids of its premises and the rule vocabulary. */
  lemma ConclusionsWithin(rule: Rule, a: set<Triple>, ids: set<Id>)
    requires (forall t | t in a :: Within(ids, t)) && RULE_VOCABULARY <= ids
    ensures forall t | t in Conclusions(rule, a) :: Within(ids, t)
  {
    hide Cells, Trails, Steps;
    CellsWithin(a, ids);
    TrailsWithin(a, ids);
    EqualityWithin(rule, a, ids);
    PropertiesWithin(rule, a, ids);
    assert forall t | t in ClassAxioms(rule, a) :: Within(ids, t);
    RestrictionsWithin(rule, a, ids);
    assert forall t | t in Lists(rule, a) :: Within(ids, t);
  }

  lemma EqualityWithin(rule: Rule, a: set<Triple>, ids: set<Id>)
    requires (forall t | t in a :: Within(ids, t)) && RULE_VOCABULARY <= ids
    ensures forall t | t in Equality(rule, a) :: Within(ids, t)
  {
  }

  lemma PropertiesWithin(rule: Rule, a: set<Triple>, ids: set<Id>)
    requires (forall t | t in a :: Within(ids, t)) && RULE_VOCABULARY <= ids
    ensures forall t | t in Properties(rule, a) :: Within(ids, t)
  {
    hide Trails, Steps;
    TrailsWithin(a, ids);
  }

  lemma RestrictionsWithin(rule: Rule, a: set<Triple>, ids: set<Id>)
    requires (forall t | t in a :: Within(ids, t)) && RULE_VOCABULARY <= ids
    ensures forall t | t in Restrictions(rule, a) :: Within(ids, t)
  {
  }

  /** The ids a materialization of this store can ever mention. */
  function UsableIds(db: Db): set<Id> {
    Terms(AllTriples(db)) + RULE_VOCABULARY
  }

  /** Every quad of the default graph over these ids. */
  function Cube(subjects: set<Id>, predicates: set<Id>, objects: set<Id>): set<Quad> {
    set s, p, o | s in subjects && p in predicates && o in objects :: Quad(s, p, o, DefaultGraph)
  }

  lemma {:induction false} LineSize(s: Id, p: Id, objects: set<Id>)
    ensures |Cube({s}, {p}, objects)| == |objects|
  {
    if objects == {} {
      assert Cube({s}, {p}, objects) == {};
    } else {
      var o :| o in objects;
      LineSize(s, p, objects - {o});
      assert Cube({s}, {p}, objects) == Cube({s}, {p}, objects - {o}) + {Quad(s, p, o, DefaultGraph)};
    }
  }

  lemma {:induction false} PlaneSize(s: Id, predicates: set<Id>, objects: set<Id>)
    ensures |Cube({s}, predicates, objects)| == |predicates| * |objects|
  {
    if predicates == {} {
      assert Cube({s}, predicates, objects) == {};
    } else {
      var p :| p in predicates;
      PlaneSize(s, predicates - {p}, objects);
      LineSize(s, p, objects);
      assert Cube({s}, predicates, objects) == Cube({s}, predicates - {p}, objects) + Cube({s}, {p}, objects);
      assert Cube({s}, predicates - {p}, objects) !! Cube({s}, {p}, objects);
      assert |predicates - {p}| == |predicates| - 1;
      OneMore(|predicates|, |objects|);
    }
  }

  lemma {:induction false} CubeSize(subjects: set<Id>, predicates: set<Id>, objects: set<Id>)
    ensures |Cube(subjects, predicates, objects)| == |subjects| * (|predicates| * |objects|)
  {
    if subjects == {} {
      assert Cube(subjects, predicates, objects) == {};
    } else {
      var s :| s in subjects;
      CubeSize(subjects - {s}, predicates, objects);
      PlaneSize(s, predicates, objects);
      assert Cube(subjects, predicates, objects) == Cube(subjects - {s}, predicates, objects)
        + Cube({s}, predicates, objects);
      assert Cube(subjects - {s}, predicates, objects) !! Cube({s}, predicates, objects);
      assert |subjects - {s}| == |subjects| - 1;
      OneMore(|subjects|, |predicates| * |objects|);
    }
  }

  lemma OneMore(n: int, k: int)
    ensures (n - 1) * k + k == n * k
  {
  }

  /** All rounds stay within the cube of the ids there at the start. */
  predicate WithinCube(start: Db, db: Db) {
    var ids := UsableIds(start);
    db.quads == start.quads && start.inf <= db.inf <= start.inf + Cube(ids, ids, ids)
  }

  lemma RuleStaysInCube(rule: Rule, start: Db, db: Db)
    requires WithinCube(start, db)
    ensures RuleRows(rule, db) <= Cube(UsableIds(start), UsableIds(start), UsableIds(start))
  {
    hide Conclusions;
    var ids := UsableIds(start);
    forall t | t in AllTriples(db)
      ensures Within(ids, t)
    {
      if t !in AllTriples(start) {
        var q :| q in db.inf && t == Triple(q.s, q.p, q.o);
        assert q in Cube(ids, ids, ids);
      }
    }
    ConclusionsWithin(rule, AllTriples(db), ids);
  }

  lemma {:induction false} RulesStayInCube(rules: seq<Rule>, start: Db, db: Db)
    requires WithinCube(start, db)
    ensures WithinCube(start, AfterRules(rules, db))
    decreases |rules|
  {
    hide RuleRows, UsableIds, Cube;
    if rules != [] {
      RuleStaysInCube(rules[0], start, db);
      RulesStayInCube(rules[1..], start, db.(inf := db.inf + RuleRows(rules[0], db)));
    }
  }

  /** How many more rows a materialization could still add. */
  function Room(start: Db, db: Db): nat {
    var ids := UsableIds(start);
    |(start.inf + Cube(ids, ids, ids)) - db.inf|
  }

  /** A round that changes something uses up room, so an uncapped run has at most as many of them
      as there are triples over the ids present, the cube of their number. */
  lemma RoundUsesRoom(start: Db, db: Db)
    requires WithinCube(start, db) && Attributed(db)
    ensures WithinCube(start, AfterRound(ROUND, db)) && Attributed(AfterRound(ROUND, db))
    ensures !Saturated(ROUND, db) ==> Room(start, AfterRound(ROUND, db)) < Room(start, db)
  {
    hide AfterRules, UsableIds, Cube, Claims;
    var mid, after := AfterRules(ROUND, db), AfterRound(ROUND, db);
    RulesStayInCube(ROUND, start, db);
    RulesOnlyAdd(ROUND, db);
    assert Claimed(mid) == Claimed(db);
    ClaimedAfter(OWL_PRODUCER, mid);
    var top := start.inf + Cube(UsableIds(start), UsableIds(start), UsableIds(start));
    if !Saturated(ROUND, db) {
      if after.inf == db.inf {
        UnchangedIsSaturated(db);
      }
      var q :| q in after.inf && q !in db.inf;
      assert q in top - db.inf;
      SmallerSet(top - after.inf, top - db.inf, q);
    }
  }

  lemma UnchangedIsSaturated(db: Db)
    requires Attributed(db) && AfterRules(ROUND, db).inf == db.inf
    ensures Saturated(ROUND, db)
  {
    hide AfterRules;
    RulesOnlyAdd(ROUND, db);
    assert Claims(OWL_PRODUCER, db) == {};
    assert AfterRound(ROUND, db).src - db.src == {};
  }

  lemma SmallerSet(small: set<Quad>, big: set<Quad>, q: Quad)
    requires small <= big && q in big && q !in small
    ensures |small| < |big|
  {
    assert small <= big - {q};
    SubsetSize(small, big - {q});
  }

  lemma {:induction false} SubsetSize<T>(small: set<T>, big: set<T>)
    requires small <= big
    ensures |small| <= |big|
  {
    if small != {} {
      var x :| x in small;
      SubsetSize(small - {x}, big - {x});
    }
  }

  lemma RoomIsCubic(start: Db)
    ensures Room(start, start) <= |UsableIds(start)| * (|UsableIds(start)| * |UsableIds(start)|)
  {
    hide UsableIds, Cube;
    var ids := UsableIds(start);
    CubeSize(ids, ids, ids);
    SubsetSize((start.inf + Cube(ids, ids, ids)) - start.inf, Cube(ids, ids, ids));
  }
}
