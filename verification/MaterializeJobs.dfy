/** The materialization job: a step machine driven request by request until it is done (ops.rs,
    job.rs), and what it leaves. */
module MaterializeJobs {
  import opened Ids
  import opened OwlRules
  import opened Database
  import opened Provenance
  import opened Jobs
  import opened Rounds
  import opened Materialization
  import opened RoundBound
  import opened LeastClosed
  import opened OwlClosure

  // ------------------------------------------------------------------ the job

  datatype Request = Write(statements: seq<Statement>) | CountInferences

  /** The rows each statement changed, or the count asked for. */
  datatype Response = Response(changes: seq<nat>, count: nat)

  datatype JobStep = Send(request: Request) | Done(count: nat)

  function Sum(xs: seq<nat>): nat {
    if xs == [] then 0 else Sum(xs[..|xs| - 1]) + xs[|xs| - 1]
  }

  class MaterializeJob {
    var reset: bool
    var round: nat
    var counting: bool
    const maxRounds: nat

    constructor (maxRounds: nat)
      ensures reset && round == 0 && !counting && this.maxRounds == maxRounds
    {
      reset, round, counting, this.maxRounds := true, 0, false, maxRounds;
    }

    /** First the reset, then rounds until one changed nothing or the cap is met, then a count. */
    method Step(response: Option<Response>) returns (step: JobStep)
      modifies this
      ensures old(reset) ==>
        step == Send(Write(ResetStatements(OWL_PRODUCER))) && !reset && round == old(round) && counting == old(counting)
      ensures !old(reset) && old(counting) ==>
        step == Done(if response.Some? then response.value.count else 0)
        && !reset && round == old(round) && counting
      ensures !old(reset) && !old(counting) ==>
        var changed := if response.Some? then Sum(response.value.changes) else 0;
        if old(round) > 0 && (changed == 0 || old(round) >= maxRounds)
        then step == Send(CountInferences) && counting && !reset && round == old(round)
        else step == Send(Write(RoundStatements())) && !counting && !reset && round == old(round) + 1
    {
      hide ResetStatements, RoundStatements;
      if reset {
        reset := false;
        return Send(Write(ResetStatements(OWL_PRODUCER)));
      }
      if counting {
        return Done(if response.Some? then response.value.count else 0);
      }
      var changed := 0;
      if response.Some? {
        var xs := response.value.changes;
        for i := 0 to |xs|
          invariant changed == Sum(xs[..i])
        {
          assert xs[..i + 1][..i] == xs[..i];
          changed := changed + xs[i];
        }
        assert xs[..|xs|] == xs;
      }
      if round > 0 && (changed == 0 || round >= maxRounds) {
        counting := true;
        return Send(CountInferences);
      }
      round := round + 1;
      return Send(Write(RoundStatements()));
    }
  }

  // ------------------------------------------------------------------ what the job is told

  lemma {:induction false} SumFront(x: nat, xs: seq<nat>)
    ensures Sum([x] + xs) == x + Sum(xs)
    decreases |xs|
  {
    if xs == [] {
      assert [x] + xs == [x];
      assert [x][..0] == [];
    } else {
      assert ([x] + xs)[..|xs|] == [x] + xs[..|xs| - 1];
      SumFront(x, xs[..|xs| - 1]);
    }
  }

  lemma GrowthAdds(a: set<Quad>, b: set<Quad>, c: set<Quad>)
    requires a <= b <= c
    ensures |c - a| == |c - b| + |b - a|
  {
    assert c - a == (c - b) + (b - a);
  }

  /** The counts of a round's statements add up to the rows the round added. */
  lemma {:induction false} RulesReport(rules: seq<Rule>, db: Db)
    ensures Sum(ChangesOf(RuleStatements(rules) + [Attribute(OWL_PRODUCER)], db)) == RoundChanges(rules, db)
    decreases |rules|
  {
    hide Apply, RuleRows, Claims, Sum, ChangedRows;
    var tail := [Attribute(OWL_PRODUCER)];
    if rules == [] {
      AttributeReports(db);
      assert RuleStatements(rules) + tail == tail;
    } else {
      var next := db.(inf := db.inf + RuleRows(rules[0], db));
      RuleApplies(rules[0], db);
      RulesReport(rules[1..], next);
      RulesOnlyAdd(rules[1..], next);
      var all := RuleStatements(rules) + tail;
      assert all[0] == RuleStatement(rules[0]) && all[1..] == RuleStatements(rules[1..]) + tail;
      RuleChanges(db, next);
      SumFront(ChangedRows(db, next), ChangesOf(all[1..], next));
      GrowthAdds(db.inf, next.inf, AfterRules(rules, db).inf);
    }
  }

  lemma RuleChanges(db: Db, next: Db)
    requires next == db.(inf := next.inf) && db.inf <= next.inf
    ensures ChangedRows(db, next) == |next.inf - db.inf|
  {
    assert db.inf - next.inf == {} && db.quads - db.quads == {} && db.src - db.src == {};
  }

  lemma AttributeReports(db: Db)
    ensures Sum(ChangesOf([Attribute(OWL_PRODUCER)], db)) == RoundChanges([], db)
  {
    hide Claims;
    var next := db.(src := db.src + Claims(OWL_PRODUCER, db));
    AttributeApplies(db);
    hide Apply;
    assert [Attribute(OWL_PRODUCER)][1..] == [];
    assert ChangesOf([Attribute(OWL_PRODUCER)], db) == [ChangedRows(db, next)] + [];
    SumFront(ChangedRows(db, next), []);
    assert db.inf - db.inf == {} && db.quads - db.quads == {} && db.src - next.src == {};
    assert AfterRound([], db) == next;
  }

  lemma AttributeApplies(db: Db)
    ensures Apply(Attribute(OWL_PRODUCER), db) == Committed(db.(src := db.src + Claims(OWL_PRODUCER, db)))
  {
    hide Claims;
  }

  // ------------------------------------------------------------------ the run

  lemma RoundIsReported(db: Db)
    ensures Sum(ChangesOf(RoundStatements(), db)) == RoundChanges(ROUND, db)
  {
    hide ChangesOf, Sum, RuleStatements, RoundChanges;
    RulesReport(ROUND, db);
  }

  /** After `n` rounds from `start`; `still` tells that the last of them changed nothing. */
  ghost predicate After(start: Db, n: nat, db: Db, still: bool) {
    && db == AfterRounds(n, ROUND, start)
    && WithinCube(start, db) && Attributed(db)
    && n + Room(start, db) <= Room(start, start) + (if still then 1 else 0)
    && (n == 0 ==> !still)
    && (n > 0 ==> still == Saturated(ROUND, AfterRounds(n - 1, ROUND, start)))
  }

  lemma StartRounds(db: Db)
    requires Attributed(db)
    ensures After(AfterReset(OWL_PRODUCER, db), 0, AfterReset(OWL_PRODUCER, db), false)
    ensures Run(ResetStatements(OWL_PRODUCER), db) == Committed(AfterReset(OWL_PRODUCER, db))
  {
    hide Run, UsableIds, Cube, Room, ResetStatements;
    ResetRuns(OWL_PRODUCER, db);
    ResetKeepsOthers(OWL_PRODUCER, db);
  }

  lemma OneMoreRound(start: Db, n: nat, db: Db)
    requires After(start, n, db, false)
    ensures Run(RoundStatements(), db) == Committed(AfterRound(ROUND, db))
    ensures After(start, n + 1, AfterRound(ROUND, db), Saturated(ROUND, db))
    ensures Saturated(ROUND, db) <==> Sum(ChangesOf(RoundStatements(), db)) == 0
    ensures Room(start, AfterRound(ROUND, db)) <= Room(start, db)
    ensures !Saturated(ROUND, db) ==> Room(start, AfterRound(ROUND, db)) < Room(start, db)
  {
    hide Run, WithinCube, Attributed, ChangesOf, Sum, RoundStatements, AfterRound, RoundChanges;
    RoundRunsAs(db);
    RoundIsReported(db);
    RoundUsesRoom(start, db);
    RoomShrinks(start, db, AfterRound(ROUND, db));
  }

  lemma RoomShrinks(start: Db, db: Db, after: Db)
    requires after == AfterRound(ROUND, db)
    ensures Room(start, after) <= Room(start, db)
  {
    hide AfterRules, UsableIds, Cube;
    RulesOnlyAdd(ROUND, db);
    var top := start.inf + Cube(UsableIds(start), UsableIds(start), UsableIds(start));
    SubsetSize(top - after.inf, top - db.inf);
  }

  lemma RoundsAreCubic(start: Db, n: nat, db: Db, still: bool)
    requires After(start, n, db, still)
    ensures var ids := UsableIds(start); n <= |ids| * (|ids| * |ids|) + 1
  {
    hide UsableIds, Cube, WithinCube, Attributed, Room;
    RoomIsCubic(start);
  }

  /** A last round that changed nothing leaves a store closed under the rules, so that the
      condition of each rule holds of its triples: the least one that
      keeps the lists when the lists are those of the start, as they are bound to be when they are
      safe there; the least of all when there are none. */
  ghost predicate AtRest(start: Db, db: Db) {
    && ClosedUnder(ROUND, db) && OwlHolds(AllTriples(db))
    && (ListsAreSafe(start) ==> SameLists(AllTriples(start), AllTriples(db)))
    && (SameLists(AllTriples(start), AllTriples(db)) ==> IsLeastClosed(ROUND, start, db))
    && (WithoutLists(start) ==> IsBelowAllClosed(ROUND, start, db))
  }

  lemma RestsWhenStill(start: Db, n: nat)
    requires Saturated(ROUND, AfterRounds(n, ROUND, start))
    ensures AtRest(start, AfterRounds(n + 1, ROUND, start))
  {
    hide AfterRound, ClosedUnder, OwlHolds, Saturated, IsLeastClosed, LeavesListsAlone, WithoutLists, IsBelowAllClosed,
      SameLists, AllMonotone,
         AllTriples;
    var end := AfterRounds(n, ROUND, start);
    SaturatedStays(ROUND, end);
    StopsAtClosedStore(ROUND, end);
    AtRestOwlHolds(end);
    if ListsAreSafe(start) {
      SafeListsStay(n, ROUND, start);
      RoundsReachLeastClosedSet(n, ROUND, start);
    }
    if SameLists(AllTriples(start), AllTriples(end)) {
      RestingRoundsAreLeast(n, ROUND, start);
    }
  }

  lemma RowsAreDerived(start: Db, n: nat)
    ensures forall q | q in AfterRounds(n, ROUND, start).inf - start.inf :: DerivedBefore(n, ROUND, start, q)
  {
    hide AfterRounds, DerivedBefore;
    forall q | q in AfterRounds(n, ROUND, start).inf - start.inf
      ensures DerivedBefore(n, ROUND, start, q)
    {
      RoundRowsAreDerived(n, ROUND, start, q);
    }
  }

  /** The job driven to its end: after the reset it runs rounds until one changes nothing or the
      cap is met, one at least, and counts the inferences. It always ends, after at most one
      round more than there are triples over the ids present. Every row it adds was derived when
      it was added, and short of the cap the store it leaves is at rest. */
  method Materialize(conn: Connection, maxRounds: nat) returns (count: nat, ghost rounds: nat)
    requires Coherent(conn.db)
    modifies conn
    ensures rounds >= 1 && conn.db == AfterRounds(rounds, ROUND, AfterReset(OWL_PRODUCER, old(conn.db)))
    ensures count == |conn.db.inf|
    ensures Saturated(ROUND, AfterRounds(rounds - 1, ROUND, AfterReset(OWL_PRODUCER, old(conn.db))))
      || rounds >= maxRounds
    ensures Saturated(ROUND, AfterRounds(rounds - 1, ROUND, AfterReset(OWL_PRODUCER, old(conn.db))))
      ==> AtRest(AfterReset(OWL_PRODUCER, old(conn.db)), conn.db)
    ensures var start := AfterReset(OWL_PRODUCER, old(conn.db)); forall q | q in conn.db.inf - start.inf ::
      DerivedBefore(rounds, ROUND, start, q)
    ensures var ids := UsableIds(AfterReset(OWL_PRODUCER, old(conn.db))); rounds <= |ids| * (|ids| * |ids|) + 1
  {
    hide Run, UsableIds, RoundStatements, Saturated, ResetStatements, ChangesOf, Sum, Coherent, AfterReset,
      AfterRound, WithinCube, Attributed, Room, AtRest, DerivedBefore;
    ghost var start := AfterReset(OWL_PRODUCER, conn.db);
    CoherentIsAttributed(conn.db);
    StartRounds(conn.db);
    var job := new MaterializeJob(maxRounds);
    var response: Option<Response> := None;
    ghost var still := false;
    while true
      invariant job.maxRounds == maxRounds && !(job.reset && job.counting)
      invariant if job.reset then job.round == 0 && !still && conn.db == old(conn.db)
        else After(start, job.round, conn.db, still)
      invariant job.counting ==> job.round > 0
      invariant job.round > 0 && !job.counting ==> response.Some? && still == (Sum(response.value.changes) == 0)
      invariant job.counting ==>
        response.Some? && response.value.count == |conn.db.inf| && (still || job.round >= maxRounds)
      decreases if job.reset then 2 else if job.counting then 0 else 1,
                if job.reset then 0 else Room(start, conn.db), if still then 0 else 1
    {
      ghost var db0, round0, reset0 := conn.db, job.round, job.reset;
      var step := job.Step(response);
      match step {
        case Done(n) =>
          RoundsAreCubic(start, job.round, conn.db, still);
          RowsAreDerived(start, job.round);
          if still {
            RestsWhenStill(start, job.round - 1);
          }
          return n, job.round;
        case Send(CountInferences) =>
          response := Some(Response([], |conn.db.inf|));
        case Send(Write(statements)) =>
          var _, changes := conn.Request(statements);
          response := Some(Response(changes, 0));
          if !reset0 {
            OneMoreRound(start, round0, db0);
            still := Saturated(ROUND, db0);
          }
      }
    }
  }
}
