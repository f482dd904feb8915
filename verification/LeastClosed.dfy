/** What materialization ends in: the least set of inferences closed under its rules, as long as
    no rule writes the lists that two of them read whole (reason.rs). */
module LeastClosed {
  import opened Ids
  import opened OwlRules
  import opened Database
  import opened Rounds
  import opened Materialization
  import opened RoundBound
  import Fixpoint

  // ------------------------------------------------------------------ the lists rules read whole

  /** `item` is one of the classes whose intersection `class_` is. */
  datatype Member = Member(class_: Id, item: Id)

  function Members(a: set<Triple>): set<Member> {
    set x, c | x in a && c in Cells(a) && x.p == INTERSECTION && c.head == x.o :: Member(x.s, c.item)
  }

  /** The intersections and chains of `a` are those of `b`. */
  predicate SameLists(a: set<Triple>, b: set<Triple>) {
    Members(a) == Members(b) && Steps(a) == Steps(b)
  }

  /** No intersection and no chain of `a` is longer in `b`, which may have others besides. */
  predicate KeepsLists(a: set<Triple>, b: set<Triple>) {
    && (forall m, n | m in Members(a) && n in Members(b) && n.class_ == m.class_ :: n in Members(a))
    && (forall s, t | s in Steps(a) && t in Steps(b) && t.chain == s.chain :: t in Steps(a))
  }

  lemma PlacesMono(a: set<Triple>, b: set<Triple>)
    requires a <= b
    ensures Places(a) <= Places(b)
  {
    SubsetSize(a, b);
    PlaceFrameHolds(a);
    PlaceFrameHolds(b);
    Fixpoint.LeastIsClosed(FirstPlaces(b), NextPlace(b), PlaceFrame(b));
    Fixpoint.LeastIsLeast(FirstPlaces(a), NextPlace(a), PlaceFrame(a), Places(b));
  }

  lemma ListsMono(a: set<Triple>, b: set<Triple>)
    requires a <= b
    ensures Members(a) <= Members(b) && Steps(a) <= Steps(b)
  {
    hide Cells, Places;
    CellsMono(a, b);
    PlacesMono(a, b);
  }

  lemma TrailsMono(a: set<Triple>, b: set<Triple>)
    requires a <= b && Steps(a) <= Steps(b)
    ensures Trails(a) <= Trails(b)
  {
    hide Steps;
    TrailFrameHolds(a, Steps(a));
    TrailFrameHolds(b, Steps(b));
    Fixpoint.LeastIsClosed(FirstTrails(b, Steps(b)), NextTrail(b, Steps(b)), TrailFrame(b, Steps(b)));
    Fixpoint.LeastIsLeast(FirstTrails(a, Steps(a)), NextTrail(a, Steps(a)), TrailFrame(a, Steps(a)), Trails(b));
  }

  /** A trail belongs to a chain that has a step. */
  lemma TrailsFollowSteps(a: set<Triple>)
    ensures forall w | w in Trails(a) :: exists st :: st in Steps(a) && st.chain == w.chain
  {
    hide Steps;
    TrailFrameHolds(a, Steps(a));
    Fixpoint.LeastIsClosed(FirstTrails(a, Steps(a)), NextTrail(a, Steps(a)), TrailFrame(a, Steps(a)));
    assert forall w | w in TrailFrame(a, Steps(a)) :: exists st :: st in Steps(a) && st.chain == w.chain;
  }

  /** A property chain keeps its conclusions while no chain gets longer. */
  lemma ChainsGrow(a: set<Triple>, b: set<Triple>)
    requires a <= b && KeepsLists(a, b)
    ensures Properties(PrpSpo2, a) <= Properties(PrpSpo2, b)
  {
    hide Steps, Trails, Members;
    ListsMono(a, b);
    TrailsMono(a, b);
    TrailsFollowSteps(a);
  }

  /** A list intersection keeps its conclusions while no intersection gets more members. */
  lemma IntersectionsGrow(a: set<Triple>, b: set<Triple>)
    requires a <= b && KeepsLists(a, b)
    ensures Lists(ClsInt1, a) <= Lists(ClsInt1, b)
  {
    hide Steps, Cells;
    CellsMono(a, b);
    forall x, t | x in a && t in a && x.p == INTERSECTION && t.o in Items(a, x.s, INTERSECTION)
      ensures Items(a, x.s, INTERSECTION) == Items(b, x.s, INTERSECTION)
    {
      SameItems(a, b, x.s, t.o);
    }
  }

  lemma ItemsAreMembers(a: set<Triple>, class_: Id)
    ensures forall i :: i in Items(a, class_, INTERSECTION) <==> Member(class_, i) in Members(a)
  {
    hide Cells;
  }

  lemma SameItems(a: set<Triple>, b: set<Triple>, class_: Id, item: Id)
    requires a <= b && KeepsLists(a, b) && item in Items(a, class_, INTERSECTION)
    ensures Items(a, class_, INTERSECTION) == Items(b, class_, INTERSECTION)
  {
    hide Members, Items, Steps;
    ListsMono(a, b);
    ItemsAreMembers(a, class_);
    ItemsAreMembers(b, class_);
    assert Member(class_, item) in Members(a);
    forall i | i in Items(b, class_, INTERSECTION)
      ensures i in Items(a, class_, INTERSECTION)
    {
      assert Member(class_, i) in Members(b);
    }
  }

  /** Whatever the rule, more triples mean no fewer conclusions while the lists are kept. */
  lemma KeptListsKeepConclusions(rule: Rule, a: set<Triple>, b: set<Triple>)
    requires a <= b && KeepsLists(a, b)
    ensures Conclusions(rule, a) <= Conclusions(rule, b)
  {
    hide KeepsLists;
    match rule {
      case ClsInt1 => IntersectionsGrow(a, b);
      case PrpSpo2 => ChainsGrow(a, b);
      case _ => RulesAreMonotone(rule, a, b);
    }
  }

  // ------------------------------------------------------------------ the least closed set

  lemma RuleRowsGrow(rule: Rule, small: Db, big: Db)
    requires small.quads == big.quads && small.inf <= big.inf
    requires IsMonotone(rule) || KeepsLists(AllTriples(small), AllTriples(big))
    ensures RuleRows(rule, small) <= RuleRows(rule, big)
  {
    hide Conclusions, KeepsLists;
    if IsMonotone(rule) {
      RulesAreMonotone(rule, AllTriples(small), AllTriples(big));
    } else {
      KeptListsKeepConclusions(rule, AllTriples(small), AllTriples(big));
    }
  }

  /** None of the rules reads a whole list. */
  predicate AllMonotone(rules: seq<Rule>) {
    forall r | r in rules :: IsMonotone(r)
  }

  /** What the rules read of lists is the same for `start`, `end` and all between, and no less for
      `closed`. */
  predicate ListsAgree(rules: seq<Rule>, start: Db, end: Db, closed: Db) {
    || AllMonotone(rules)
    || (SameLists(AllTriples(start), AllTriples(end)) && KeepsLists(AllTriples(start), AllTriples(closed)))
  }

  /** What lies between two stores with the same lists has them too. */
  lemma SameListsBetween(start: Db, db: Db, end: Db)
    requires start.quads == db.quads == end.quads && start.inf <= db.inf <= end.inf
    requires SameLists(AllTriples(start), AllTriples(end))
    ensures SameLists(AllTriples(start), AllTriples(db))
  {
    hide Members, Steps;
    ListsMono(AllTriples(start), AllTriples(db));
    ListsMono(AllTriples(db), AllTriples(end));
  }

  /** A run that does not touch the lists stays below every closed store that keeps them. */
  lemma {:induction false} RulesStayBelow(rules: seq<Rule>, start: Db, db: Db, end: Db, closed: Db)
    requires start.quads == db.quads == end.quads == closed.quads
    requires start.inf <= db.inf && AfterRules(rules, db).inf <= end.inf && db.inf <= closed.inf
    requires ListsAgree(rules, start, end, closed) && ClosedUnder(rules, closed)
    ensures AfterRules(rules, db).inf <= closed.inf
    decreases |rules|
  {
    hide RuleRows, AllTriples, Members, Steps;
    if rules != [] {
      RulesOnlyAdd(rules, db);
      if !AllMonotone(rules) {
        SameListsBetween(start, db, end);
      }
      RuleRowsGrow(rules[0], db, closed);
      assert RuleRows(rules[0], closed) <= closed.inf;
      assert ClosedUnder(rules[1..], closed) by {
        assert forall i | 0 <= i < |rules[1..]| :: rules[1..][i] == rules[i + 1];
      }
      RulesStayBelow(rules[1..], start, db.(inf := db.inf + RuleRows(rules[0], db)), end, closed);
    }
  }

  lemma {:induction false} RoundsStayBelow(n: nat, rules: seq<Rule>, start: Db, end: Db, closed: Db)
    requires start.quads == end.quads == closed.quads && start.inf <= closed.inf
    requires AfterRounds(n, rules, start).inf <= end.inf
    requires ListsAgree(rules, start, end, closed) && ClosedUnder(rules, closed)
    ensures AfterRounds(n, rules, start).inf <= closed.inf
  {
    hide AfterRules, ClosedUnder, Claims, ListsAgree, AllTriples;
    if n > 0 {
      var mid := AfterRounds(n - 1, rules, start);
      RoundsOnlyAdd(n - 1, rules, start);
      RulesOnlyAdd(rules, mid);
      RoundsStayBelow(n - 1, rules, start, end, closed);
      RulesStayBelow(rules, start, mid, end, closed);
    }
  }

  /** `end` is closed under the rules and holds what `start` does, and so does no smaller set of
      inferences, among those that lengthen no list of `start`. */
  ghost predicate IsLeastClosed(rules: seq<Rule>, start: Db, end: Db) {
    && start.inf <= end.inf && ClosedUnder(rules, end)
    && forall closed: set<Quad> ::
         start.inf <= closed && ClosedUnder(rules, start.(inf := closed))
           && KeepsLists(AllTriples(start), AllTriples(start.(inf := closed)))
         ==> end.inf <= closed
  }

  /** No closed set that holds what `start` does is without a row of `end`. */
  ghost predicate IsBelowAllClosed(rules: seq<Rule>, start: Db, end: Db) {
    forall closed: set<Quad> :: start.inf <= closed && ClosedUnder(rules, start.(inf := closed)) ==> end.inf <= closed
  }

  /** When the rounds come to rest with the lists they started from, it is in the least set; for
      rules that read no whole list it always is, whatever they do to the lists. */
  lemma RestingRoundsAreLeast(n: nat, rules: seq<Rule>, db: Db)
    requires Saturated(rules, AfterRounds(n, rules, db))
    requires AllMonotone(rules) || SameLists(AllTriples(db), AllTriples(AfterRounds(n, rules, db)))
    ensures IsLeastClosed(rules, db, AfterRounds(n, rules, db))
    ensures AllMonotone(rules) ==> IsBelowAllClosed(rules, db, AfterRounds(n, rules, db))
  {
    hide ClosedUnder, AfterRounds, Saturated, SameLists, KeepsLists, AllTriples;
    var end := AfterRounds(n, rules, db);
    StopsAtClosedStore(rules, end);
    RoundsOnlyAdd(n, rules, db);
    forall closed: set<Quad> | db.inf <= closed && ClosedUnder(rules, db.(inf := closed))
                               && (AllMonotone(rules) || KeepsLists(AllTriples(db), AllTriples(db.(inf := closed))))
      ensures end.inf <= closed
    {
      RoundsStayBelow(n, rules, db, end, db.(inf := closed));
    }
  }

  // ------------------------------------------------------------------ stores without such lists

  /** No intersection and no chain can come up. */
  predicate WithoutLists(db: Db) {
    INTERSECTION !in Terms(AllTriples(db)) && CHAIN !in Terms(AllTriples(db))
  }

  lemma UnusedMeansNone(a: set<Triple>)
    requires forall t | t in a :: t.p != INTERSECTION && t.p != CHAIN
    ensures Members(a) == {} && Steps(a) == {}
  {
    hide Cells, Places;
  }

  lemma {:induction false} RoundsStayInCube(n: nat, rules: seq<Rule>, db: Db)
    ensures WithinCube(db, AfterRounds(n, rules, db))
  {
    hide AfterRules, Claims, UsableIds, Cube;
    if n > 0 {
      RoundsStayInCube(n - 1, rules, db);
      RulesStayInCube(rules, db, AfterRounds(n - 1, rules, db));
      RulesOnlyAdd(rules, AfterRounds(n - 1, rules, db));
    }
  }

  lemma WithoutListsRemains(start: Db, db: Db)
    requires WithoutLists(start) && WithinCube(start, db)
    ensures Members(AllTriples(db)) == {} && Steps(AllTriples(db)) == {}
  {
    hide Members, Steps;
    var ids := UsableIds(start);
    forall t | t in AllTriples(db)
      ensures t.p != INTERSECTION && t.p != CHAIN
    {
      if t in AllTriples(start) {
        assert t.p in Terms(AllTriples(start));
      } else {
        var q :| q in db.inf && t == Triple(q.s, q.p, q.o);
        assert q in Cube(ids, ids, ids);
      }
    }
    UnusedMeansNone(AllTriples(db));
  }

  // ------------------------------------------------------------------ stores that leave lists alone

  const LIST_VOCABULARY := {FIRST, REST, INTERSECTION, CHAIN}

  /** The properties a rule could use to write a list or to make two nodes one. */
  const RESERVED := LIST_VOCABULARY + {SAME_AS, FUNCTIONAL, INVERSE_FUNCTIONAL}

  /** No equalities, and nothing said about the reserved properties. */
  predicate Plain(a: set<Triple>) {
    forall t | t in a :: t.p != SAME_AS && t.s !in RESERVED && t.o !in RESERVED
  }

  /** No list runs in a circle: no place gets as far as the counter may. */
  predicate ListsEnd(a: set<Triple>) {
    forall c | c in Places(a) :: c.i <= |a|
  }

  predicate LeavesListsAlone(db: Db) {
    Plain(AllTriples(db)) && ListsEnd(AllTriples(db))
  }

  function ListTriples(a: set<Triple>): set<Triple> {
    set t | t in a && t.p in LIST_VOCABULARY
  }

  /** A conclusion that speaks of no reserved term and writes no list. */
  predicate Harmless(t: Triple) {
    t.p != SAME_AS && t.p !in LIST_VOCABULARY && t.s !in RESERVED && t.o !in RESERVED
  }

  lemma CellsArePlain(a: set<Triple>)
    requires Plain(a)
    ensures forall c | c in Cells(a) :: c.item !in RESERVED
  {
    CellFrameHolds(a);
    Fixpoint.LeastIsClosed(FirstCells(a), NextCell(a), CellFrame(a));
  }

  lemma TrailsArePlain(a: set<Triple>)
    requires Plain(a)
    ensures forall w | w in Trails(a) :: w.chain !in RESERVED && w.start !in RESERVED && w.cur !in RESERVED
  {
    hide Places;
    var steps := Steps(a);
    assert forall st | st in steps :: st.chain !in RESERVED;
    TrailFrameHolds(a, steps);
    Fixpoint.LeastIsClosed(FirstTrails(a, steps), NextTrail(a, steps), TrailFrame(a, steps));
  }

  lemma PlainEquality(rule: Rule, a: set<Triple>)
    requires Plain(a)
    ensures Equality(rule, a) == {}
  {
  }

  /** The two rules that conclude equalities have nothing to start from. */
  lemma NothingIsFunctional(rule: Rule, a: set<Triple>)
    requires Plain(a) && (rule.PrpFp? || rule.PrpIfp?)
    ensures Properties(rule, a) == {}
  {
  }

  /** Built from subjects and objects, and `rdf:type`. */
  predicate UsesNodes(a: set<Triple>, t: Triple) {
    t.s in Nodes(a) && t.o in Nodes(a) && (t.p == TYPE || t.p in Nodes(a))
  }

  lemma PropertiesUseNodes(rule: Rule, a: set<Triple>)
    requires !rule.PrpFp? && !rule.PrpIfp? && !rule.PrpSpo2?
    ensures forall t | t in Properties(rule, a) :: UsesNodes(a, t)
  {
    hide Trails, Steps;
  }

  lemma PlainChains(a: set<Triple>)
    requires Plain(a)
    ensures forall t | t in Properties(PrpSpo2, a) :: Harmless(t)
  {
    hide Trails, Steps;
    TrailsArePlain(a);
  }

  lemma PlainProperties(rule: Rule, a: set<Triple>)
    requires Plain(a)
    ensures forall t | t in Properties(rule, a) :: Harmless(t)
  {
    hide Properties;
    if rule.PrpSpo2? {
      PlainChains(a);
    } else if rule.PrpFp? || rule.PrpIfp? {
      NothingIsFunctional(rule, a);
    } else {
      PropertiesUseNodes(rule, a);
      assert forall x | x in Nodes(a) :: x !in RESERVED;
    }
  }

  lemma PlainClassAxioms(rule: Rule, a: set<Triple>)
    requires Plain(a)
    ensures forall t | t in ClassAxioms(rule, a) :: Harmless(t)
  {
  }

  lemma ValuesUseNodes(a: set<Triple>)
    ensures forall t | t in Restrictions(ClsHv1, a) :: UsesNodes(a, t)
    ensures forall t | t in Restrictions(ClsHv2, a) :: UsesNodes(a, t)
  {
  }

  lemma SomeValuesUseNodes(a: set<Triple>)
    ensures forall t | t in Restrictions(ClsSvf1, a) :: UsesNodes(a, t)
    ensures forall t | t in Restrictions(ClsSvf2, a) :: UsesNodes(a, t)
  {
  }

  lemma AllValuesUseNodes(a: set<Triple>)
    ensures forall t | t in Restrictions(ClsAvf, a) :: UsesNodes(a, t)
  {
  }

  lemma OtherRulesRestrictNothing(rule: Rule, a: set<Triple>)
    requires rule !in {ClsHv1, ClsHv2, ClsSvf1, ClsSvf2, ClsAvf}
    ensures Restrictions(rule, a) == {}
  {
  }

  lemma RestrictionsUseNodes(rule: Rule, a: set<Triple>)
    ensures forall t | t in Restrictions(rule, a) :: UsesNodes(a, t)
  {
    hide Restrictions, UsesNodes;
    ValuesUseNodes(a);
    SomeValuesUseNodes(a);
    AllValuesUseNodes(a);
    if rule !in {ClsHv1, ClsHv2, ClsSvf1, ClsSvf2, ClsAvf} {
      OtherRulesRestrictNothing(rule, a);
    }
  }

  lemma PlainRestrictions(rule: Rule, a: set<Triple>)
    requires Plain(a)
    ensures forall t | t in Restrictions(rule, a) :: Harmless(t)
  {
    hide Restrictions;
    RestrictionsUseNodes(rule, a);
    assert forall x | x in Nodes(a) :: x !in RESERVED;
  }

  lemma PlainLists(rule: Rule, a: set<Triple>)
    requires Plain(a)
    ensures forall t | t in Lists(rule, a) :: Harmless(t)
  {
    hide Cells;
    CellsArePlain(a);
  }

  lemma PlainConclusions(rule: Rule, a: set<Triple>)
    requires Plain(a)
    ensures forall t | t in Conclusions(rule, a) :: Harmless(t)
  {
    hide Plain, Harmless, Properties, ClassAxioms, Restrictions, Lists;
    PlainEquality(rule, a);
    PlainProperties(rule, a);
    PlainClassAxioms(rule, a);
    PlainRestrictions(rule, a);
    PlainLists(rule, a);
  }

  /** All that the run has added is harmless. */
  predicate OnlyHarmless(start: Db, db: Db) {
    db.quads == start.quads && start.inf <= db.inf && forall q | q in db.inf - start.inf ::
      Harmless(Triple(q.s, q.p, q.o))
  }

  lemma HarmlessIsPlain(start: Db, db: Db)
    requires Plain(AllTriples(start)) && OnlyHarmless(start, db)
    ensures Plain(AllTriples(db)) && ListTriples(AllTriples(db)) == ListTriples(AllTriples(start))
    ensures AllTriples(start) <= AllTriples(db)
  {
    forall t | t in AllTriples(db) && t !in AllTriples(start)
      ensures Harmless(t)
    {
      var q :| q in db.inf - start.inf && t == Triple(q.s, q.p, q.o);
    }
  }

  lemma {:induction false} RulesAreHarmless(rules: seq<Rule>, start: Db, db: Db)
    requires Plain(AllTriples(start)) && OnlyHarmless(start, db)
    ensures OnlyHarmless(start, AfterRules(rules, db))
    decreases |rules|
  {
    hide Conclusions, Plain, Harmless, AllTriples;
    if rules != [] {
      HarmlessIsPlain(start, db);
      PlainConclusions(rules[0], AllTriples(db));
      RulesAreHarmless(rules[1..], start, db.(inf := db.inf + RuleRows(rules[0], db)));
    }
  }

  lemma {:induction false} RoundsAreHarmless(n: nat, rules: seq<Rule>, db: Db)
    requires Plain(AllTriples(db))
    ensures OnlyHarmless(db, AfterRounds(n, rules, db))
  {
    hide AfterRules, Claims, Plain, Harmless;
    if n > 0 {
      RoundsAreHarmless(n - 1, rules, db);
      RulesAreHarmless(rules, db, AfterRounds(n - 1, rules, db));
    }
  }

  lemma CellsReadLists(a: set<Triple>, b: set<Triple>)
    requires a <= b && ListTriples(a) == ListTriples(b)
    ensures Cells(a) == Cells(b)
  {
    CellsMono(a, b);
    CellFrameHolds(a);
    CellFrameHolds(b);
    Fixpoint.LeastIsClosed(FirstCells(a), NextCell(a), CellFrame(a));
    forall c | c in Cells(a)
      ensures NextCells(b, c) <= Cells(a)
    {
      InListTriples(a, b);
      assert NextCells(b, c) <= NextCells(a, c);
      assert NextCell(a)(c) <= Cells(a);
    }
    InListTriples(a, b);
    Fixpoint.LeastIsLeast(FirstCells(b), NextCell(b), CellFrame(b), Cells(a));
  }

  lemma InListTriples(a: set<Triple>, b: set<Triple>)
    requires ListTriples(a) == ListTriples(b)
    ensures forall t | t in b && t.p in LIST_VOCABULARY :: t in a
  {
    forall t | t in b && t.p in LIST_VOCABULARY
      ensures t in a
    {
      assert t in ListTriples(b);
    }
  }

  lemma PlacesReadLists(a: set<Triple>, b: set<Triple>)
    requires a <= b && ListTriples(a) == ListTriples(b) && ListsEnd(a)
    ensures Places(a) == Places(b)
  {
    PlacesMono(a, b);
    InListTriples(a, b);
    PlaceFrameHolds(a);
    PlaceFrameHolds(b);
    Fixpoint.LeastIsClosed(FirstPlaces(a), NextPlace(a), PlaceFrame(a));
    forall c | c in Places(a)
      ensures NextPlaces(b, c) <= Places(a)
    {
      assert NextPlaces(b, c) <= NextPlaces(a, c);
      assert NextPlace(a)(c) <= Places(a);
    }
    Fixpoint.LeastIsLeast(FirstPlaces(b), NextPlace(b), PlaceFrame(b), Places(a));
  }

  /** The intersections and chains are read off the list triples alone. */
  lemma ListsReadLists(a: set<Triple>, b: set<Triple>)
    requires a <= b && ListTriples(a) == ListTriples(b) && ListsEnd(a)
    ensures SameLists(a, b)
  {
    CellsReadLists(a, b);
    PlacesReadLists(a, b);
    InListTriples(a, b);
    hide Cells, Places, ListTriples;
  }

  // ------------------------------------------------------------------ the result

  /** Told from the store before the first round: there are no intersections and no chains, or no
      rule can write a list. */
  predicate ListsAreSafe(db: Db) {
    WithoutLists(db) || LeavesListsAlone(db)
  }

  lemma SafeListsStay(n: nat, rules: seq<Rule>, db: Db)
    requires ListsAreSafe(db)
    ensures SameLists(AllTriples(db), AllTriples(AfterRounds(n, rules, db)))
  {
    hide AfterRounds, Members, Steps, WithinCube, AllTriples, Plain;
    var end := AfterRounds(n, rules, db);
    if WithoutLists(db) {
      RoundsStayInCube(0, rules, db);
      RoundsStayInCube(n, rules, db);
      StartIsInCube(db);
      WithoutListsRemains(db, db);
      WithoutListsRemains(db, end);
    } else {
      RoundsAreHarmless(n, rules, db);
      HarmlessIsPlain(db, end);
      ListsReadLists(AllTriples(db), AllTriples(end));
    }
  }

  lemma StartIsInCube(db: Db)
    ensures WithinCube(db, db)
  {
  }

  /** Without intersections and chains there are no lists to keep, so no closed set is left out of
      the comparison. */
  lemma LeastWithoutLists(rules: seq<Rule>, start: Db, end: Db)
    requires WithoutLists(start) && IsLeastClosed(rules, start, end)
    ensures IsBelowAllClosed(rules, start, end)
  {
    hide Members, Steps, ClosedUnder, WithinCube, AllTriples;
    StartIsInCube(start);
    WithoutListsRemains(start, start);
    assert forall closed :: KeepsLists(AllTriples(start), AllTriples(start.(inf := closed)));
  }

  /** The rounds end in the least set of inferences that contains the ones they started from and
      is closed under the rules. */
  lemma RoundsReachLeastClosedSet(n: nat, rules: seq<Rule>, db: Db)
    requires (AllMonotone(rules) || ListsAreSafe(db)) && Saturated(rules, AfterRounds(n, rules, db))
    ensures IsLeastClosed(rules, db, AfterRounds(n, rules, db))
    ensures AllMonotone(rules) || WithoutLists(db) ==> IsBelowAllClosed(rules, db, AfterRounds(n, rules, db))
  {
    hide IsLeastClosed, IsBelowAllClosed, AllMonotone, LeavesListsAlone, WithoutLists, AfterRounds, Saturated,
      SameLists, AllTriples;
    if !AllMonotone(rules) {
      SafeListsStay(n, rules, db);
    }
    RestingRoundsAreLeast(n, rules, db);
    if WithoutLists(db) {
      LeastWithoutLists(rules, db, AfterRounds(n, rules, db));
    }
  }

  lemma ClosureIgnoresAttribution(rules: seq<Rule>, db: Db, other: Db)
    requires db.quads == other.quads && db.inf == other.inf
    ensures ClosedUnder(rules, db) <==> ClosedUnder(rules, other)
  {
    assert AllTriples(db) == AllTriples(other);
  }

  lemma SameRulesSameClosure(rules: seq<Rule>, others: seq<Rule>, db: Db)
    requires forall r :: r in rules <==> r in others
    ensures ClosedUnder(rules, db) <==> ClosedUnder(others, db)
  {
    hide RuleRows;
    if ClosedUnder(rules, db) {
      OneWaySameClosure(rules, others, db);
    }
    if ClosedUnder(others, db) {
      OneWaySameClosure(others, rules, db);
    }
  }

  lemma OneWaySameClosure(rules: seq<Rule>, others: seq<Rule>, db: Db)
    requires (forall r | r in others :: r in rules) && ClosedUnder(rules, db)
    ensures ClosedUnder(others, db)
  {
    hide RuleRows;
    forall i | 0 <= i < |others|
      ensures RuleRows(others[i], db) <= db.inf
    {
      assert others[i] in rules;
      var j :| 0 <= j < |rules| && rules[j] == others[i];
    }
  }

  /** So neither the order of the rules in a round matters to what is inferred, nor how often one
      is repeated. */
  lemma RuleOrderDoesNotMatter(m: nat, n: nat, rules: seq<Rule>, others: seq<Rule>, db: Db)
    requires (AllMonotone(rules) || ListsAreSafe(db)) && forall r :: r in rules <==> r in others
    requires Saturated(rules, AfterRounds(m, rules, db)) && Saturated(others, AfterRounds(n, others, db))
    ensures AfterRounds(m, rules, db).inf == AfterRounds(n, others, db).inf
  {
    hide AfterRounds, Saturated, ListsAreSafe, IsMonotone;
    EndsBelow(m, n, rules, others, db);
    EndsBelow(n, m, others, rules, db);
  }

  lemma EndsBelow(m: nat, n: nat, rules: seq<Rule>, others: seq<Rule>, db: Db)
    requires (AllMonotone(rules) || ListsAreSafe(db)) && forall r :: r in rules <==> r in others
    requires Saturated(rules, AfterRounds(m, rules, db)) && Saturated(others, AfterRounds(n, others, db))
    ensures AfterRounds(m, rules, db).inf <= AfterRounds(n, others, db).inf
  {
    hide ClosedUnder, AfterRounds, Saturated, ListsAreSafe, Members, Steps, WithoutLists;
    var end := AfterRounds(n, others, db);
    var closed := db.(inf := end.inf);
    RoundsReachLeastClosedSet(m, rules, db);
    StopsAtClosedStore(others, end);
    SameRulesSameClosure(rules, others, end);
    RoundsOnlyAdd(n, others, db);
    ClosureIgnoresAttribution(rules, end, closed);
    if !AllMonotone(rules) {
      SafeListsStay(n, others, db);
    }
    assert AllTriples(closed) == AllTriples(end);
  }
}
