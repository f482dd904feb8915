/** Why `LeastClosed` asks for safe lists: when a rule writes a list, an intersection concluded
    from its first half stays, and what is inferred depends on how often a rule runs in a round. */
module LeastClosedLimits {
  import opened Ids
  import opened OwlRules
  import opened Database
  import opened Rounds
  import opened Materialization
  import Fixpoint

  // ------------------------------------------------------------------ the store

  const C := Iri(OtherNs, 0)
  const A := Iri(OtherNs, 1)
  const B := Iri(OtherNs, 2)
  const X := Iri(OtherNs, 3)
  const Q := Iri(OtherNs, 4)
  const R := Iri(OtherNs, 5)
  const LIST := Blank(0)

  /** `C` is the intersection of a list that holds `A`, and `B` under a property two steps below
      `rdf:first`; `X` is an `A`. */
  const GIVEN := {
    Triple(C, INTERSECTION, LIST), Triple(LIST, FIRST, A), Triple(X, TYPE, A),
    Triple(R, SUB_PROPERTY_OF, Q), Triple(Q, SUB_PROPERTY_OF, FIRST), Triple(LIST, R, B)
  }

  const HALFWAY := Triple(LIST, Q, B)
  const SECOND_ITEM := Triple(LIST, FIRST, B)

  /** What the two items together do not support. */
  const EARLY := Triple(X, TYPE, C)

  /** The conclusions that come without the list. */
  const THINGS := (set s | s in {C, LIST, X, Q, R, THING, NOTHING} :: Triple(s, TYPE, THING))
                  + {Triple(THING, TYPE, CLASS), Triple(NOTHING, TYPE, CLASS)}

  /** All that follows from the whole list. */
  const BOOK := GIVEN + {HALFWAY, SECOND_ITEM} + THINGS

  function Rows(a: set<Triple>): set<Quad> {
    set t | t in a :: Quad(t.s, t.p, t.o, DefaultGraph)
  }

  /** A store on the way: what is given, and inferences out of the book. */
  predicate OnTheWay(db: Db) {
    db.quads == Rows(GIVEN) && db.inf <= Rows(BOOK)
  }

  lemma TriplesOnTheWay(db: Db)
    requires OnTheWay(db)
    ensures GIVEN <= AllTriples(db) <= BOOK
    ensures forall t :: t in AllTriples(db) <==> t in GIVEN || Quad(t.s, t.p, t.o, DefaultGraph) in db.inf
  {
    forall t | t in GIVEN
      ensures t in AllTriples(db)
    {
      assert Quad(t.s, t.p, t.o, DefaultGraph) in db.quads;
    }
  }

  // ------------------------------------------------------------------ what the rules conclude

  predicate Quiet(rule: Rule) {
    !rule.PrpSpo1? && !rule.ClsInt1?
  }

  lemma NoTrails(a: set<Triple>)
    requires a <= BOOK
    ensures Trails(a) == {}
  {
    assert Steps(a) == {} by {
      hide Places;
      assert forall x | x in a :: x.p != CHAIN;
    }
    TrailFrameHolds(a, Steps(a));
    Fixpoint.LeastIsClosed(FirstTrails(a, Steps(a)), NextTrail(a, Steps(a)), TrailFrame(a, Steps(a)));
  }

  /** What most rules start from, and the book has nothing of. */
  const PREMISES := {
    SAME_AS, DOMAIN, RANGE, EQUIVALENT_PROPERTY, INVERSE_OF, SUB_CLASS_OF, EQUIVALENT_CLASS,
    HAS_VALUE, SOME_VALUES, ALL_VALUES, UNION
  }

  /** The quiet rules find no premise, other than `cls-thing`. */
  predicate Idle(a: set<Triple>) {
    forall t | t in a ::
      && t.p !in PREMISES
      && (t.p == INTERSECTION ==> t.s == C)
      && (t.p == TYPE ==> t.o !in {FUNCTIONAL, INVERSE_FUNCTIONAL, SYMMETRIC, TRANSITIVE, C})
  }

  lemma ThingsAreTypes()
    ensures forall t | t in THINGS :: t.p == TYPE && (t.o == THING || t.o == CLASS)
  {
  }

  lemma BookIsIdle(a: set<Triple>)
    requires a <= BOOK
    ensures Idle(a)
  {
    hide THINGS;
    ThingsAreTypes();
    assert Idle(THINGS);
    assert Idle(GIVEN + {HALFWAY, SECOND_ITEM});
  }

  lemma IdleProperties(rule: Rule, a: set<Triple>)
    requires Idle(a) && Quiet(rule) && Trails(a) == {}
    ensures Properties(rule, a) == {}
  {
    hide Trails, Steps;
  }

  lemma IdleClasses(rule: Rule, a: set<Triple>)
    requires Idle(a) && rule != ClsThing
    ensures ClassAxioms(rule, a) == {}
  {
  }

  lemma IdleRest(rule: Rule, a: set<Triple>)
    requires Idle(a) && Quiet(rule)
    ensures Equality(rule, a) == {} && Restrictions(rule, a) == {} && Lists(rule, a) == {}
  {
    hide Cells;
  }

  lemma BookSubjects(a: set<Triple>)
    requires a <= BOOK
    ensures ClassAxioms(ClsThing, a) <= THINGS
  {
  }

  /** A rule other than the two at issue only concludes what comes without the list. */
  lemma QuietConclusions(rule: Rule, a: set<Triple>)
    requires a <= BOOK && Quiet(rule)
    ensures Conclusions(rule, a) <= THINGS
  {
    hide Properties, BOOK, THINGS, Idle, Trails, ClassAxioms, Restrictions, Lists, Equality;
    NoTrails(a);
    BookIsIdle(a);
    IdleProperties(rule, a);
    IdleRest(rule, a);
    if rule.ClsThing? {
      BookSubjects(a);
    } else {
      IdleClasses(rule, a);
    }
  }

  const WHOLE := Triple(C, INTERSECTION, LIST)
  const FIRST_ITEM := Triple(LIST, FIRST, A)

  /** The triples of the book under each property the two rules look at. */
  predicate Shelved(x: Triple) {
    && x.p != REST
    && (x.p == TYPE ==> x.o != B)
    && (x.p == INTERSECTION ==> x == WHOLE)
    && (x.p == FIRST ==> x == FIRST_ITEM || x == SECOND_ITEM)
    && (x.p == SUB_PROPERTY_OF ==> x == Triple(R, SUB_PROPERTY_OF, Q) || x == Triple(Q, SUB_PROPERTY_OF, FIRST))
    && (x.p == R ==> x == Triple(LIST, R, B))
    && (x.p == Q ==> x == HALFWAY)
  }

  lemma BookByProperty(a: set<Triple>)
    requires a <= BOOK
    ensures forall x | x in a :: Shelved(x)
  {
    hide THINGS;
    ThingsAreTypes();
    assert forall x | x in THINGS :: Shelved(x);
    assert forall x | x in GIVEN + {HALFWAY, SECOND_ITEM} :: Shelved(x);
  }

  lemma GivenTriples(a: set<Triple>)
    requires GIVEN <= a
    ensures WHOLE in a && FIRST_ITEM in a && Triple(X, TYPE, A) in a
    ensures Triple(R, SUB_PROPERTY_OF, Q) in a && Triple(Q, SUB_PROPERTY_OF, FIRST) in a && Triple(LIST, R, B) in a
  {
  }

  lemma OneGroupEach(a: set<Triple>)
    ensures Conclusions(PrpSpo1, a) == Properties(PrpSpo1, a)
    ensures Conclusions(ClsInt1, a) == Lists(ClsInt1, a)
  {
    hide Items;
  }

  /** `prp-spo1` takes one step on the way from `R` to `rdf:first` each time it runs. */
  lemma StepsTaken(a: set<Triple>)
    requires GIVEN <= a <= BOOK
    ensures Conclusions(PrpSpo1, a) <= {HALFWAY, SECOND_ITEM} && HALFWAY in Conclusions(PrpSpo1, a)
    ensures SECOND_ITEM in Conclusions(PrpSpo1, a) <==> HALFWAY in a
  {
    hide GIVEN, BOOK, Conclusions;
    BookByProperty(a);
    GivenTriples(a);
    OneGroupEach(a);
  }

  lemma ListCells(a: set<Triple>)
    requires forall x | x in a :: x.p != REST
    ensures Cells(a) == FirstCells(a)
  {
    CellFrameHolds(a);
    Fixpoint.LeastIsClosed(FirstCells(a), NextCell(a), CellFrame(a));
    assert forall c | c in FirstCells(a) :: NextCells(a, c) == {};
    Fixpoint.LeastIsLeast(FirstCells(a), NextCell(a), CellFrame(a), FirstCells(a));
  }

  lemma ListItems(a: set<Triple>)
    requires GIVEN <= a <= BOOK
    ensures Items(a, C, INTERSECTION) == (if SECOND_ITEM in a then {A, B} else {A})
  {
    hide Cells, BOOK, GIVEN;
    BookByProperty(a);
    GivenTriples(a);
    ListCells(a);
    assert Cell(LIST, LIST, A) in FirstCells(a);
    if SECOND_ITEM in a {
      assert Cell(LIST, LIST, B) in FirstCells(a);
    }
  }

  /** With the first item alone `X` counts as a `C`, with both it does not. */
  lemma HalfListConcludesEarly(a: set<Triple>)
    requires GIVEN <= a <= BOOK
    ensures if SECOND_ITEM in a then Conclusions(ClsInt1, a) == {} else EARLY in Conclusions(ClsInt1, a)
  {
    hide Items, BOOK, GIVEN, Conclusions;
    OneGroupEach(a);
    BookByProperty(a);
    GivenTriples(a);
    ListItems(a);
  }

  // ------------------------------------------------------------------ the runs

  const STEP_ROW := Quad(LIST, Q, B, DefaultGraph)
  const ITEM_ROW := Quad(LIST, FIRST, B, DefaultGraph)
  const EARLY_ROW := Quad(X, TYPE, C, DefaultGraph)

  lemma RowsOf(rule: Rule, db: Db, within: set<Triple>)
    requires Conclusions(rule, AllTriples(db)) <= within
    ensures RuleRows(rule, db) <= Rows(within)
  {
    hide Conclusions;
  }

  lemma ItemsOnTheWay(db: Db)
    requires OnTheWay(db)
    ensures HALFWAY in AllTriples(db) <==> STEP_ROW in db.inf
    ensures SECOND_ITEM in AllTriples(db) <==> ITEM_ROW in db.inf
    ensures EARLY_ROW !in db.inf
  {
    assert EARLY !in BOOK && HALFWAY !in GIVEN && SECOND_ITEM !in GIVEN;
    hide BOOK, GIVEN, AllTriples;
    TriplesOnTheWay(db);
  }

  lemma {:induction false} QuietRules(rules: seq<Rule>, db: Db)
    requires OnTheWay(db) && forall r | r in rules :: Quiet(r)
    ensures OnTheWay(AfterRules(rules, db))
    ensures STEP_ROW in AfterRules(rules, db).inf <==> STEP_ROW in db.inf
    ensures ITEM_ROW in AfterRules(rules, db).inf <==> ITEM_ROW in db.inf
    decreases |rules|
  {
    if rules != [] {
      assert STEP_ROW !in Rows(THINGS) && ITEM_ROW !in Rows(THINGS) && Rows(THINGS) <= Rows(BOOK);
      hide RuleRows, BOOK, GIVEN, THINGS;
      TriplesOnTheWay(db);
      QuietConclusions(rules[0], AllTriples(db));
      RowsOf(rules[0], db, THINGS);
      QuietRules(rules[1..], db.(inf := db.inf + RuleRows(rules[0], db)));
    }
  }

  /** Once the list is whole nothing leaves the book any more. */
  lemma {:induction false} WholeListRules(rules: seq<Rule>, db: Db)
    requires OnTheWay(db) && ITEM_ROW in db.inf
    ensures OnTheWay(AfterRules(rules, db)) && ITEM_ROW in AfterRules(rules, db).inf
    decreases |rules|
  {
    if rules != [] {
      RuleInBook(rules[0], db);
      hide RuleRows, BOOK, GIVEN;
      WholeListRules(rules[1..], db.(inf := db.inf + RuleRows(rules[0], db)));
    }
  }

  lemma RuleInBook(rule: Rule, db: Db)
    requires OnTheWay(db) && (rule.ClsInt1? ==> ITEM_ROW in db.inf)
    ensures RuleRows(rule, db) <= Rows(BOOK)
  {
    var a := AllTriples(db);
    TriplesOnTheWay(db);
    ItemsOnTheWay(db);
    if rule.PrpSpo1? {
      StepsTaken(a);
    } else if rule.ClsInt1? {
      HalfListConcludesEarly(a);
    } else {
      QuietConclusions(rule, a);
    }
    assert THINGS <= BOOK && {HALFWAY, SECOND_ITEM} <= BOOK;
    hide Conclusions, BOOK, THINGS, AllTriples;
    RowsOf(rule, db, BOOK);
  }

  lemma StepRule(db: Db)
    requires OnTheWay(db)
    ensures var next := AfterRules([PrpSpo1], db);
      OnTheWay(next) && STEP_ROW in next.inf && (ITEM_ROW in next.inf <==> STEP_ROW in db.inf || ITEM_ROW in db.inf)
  {
    var rows := RuleRows(PrpSpo1, db);
    hide Conclusions, BOOK, GIVEN, AllTriples, AfterRules;
    NoneOfThemGiven();
    OneRule(PrpSpo1, db);
    TriplesOnTheWay(db);
    ItemsOnTheWay(db);
    StepsTaken(AllTriples(db));
    RuleInBook(PrpSpo1, db);
    assert STEP_ROW in rows;
    assert ITEM_ROW in rows <==> STEP_ROW in db.inf;
  }

  lemma EarlyRule(db: Db)
    requires OnTheWay(db) && ITEM_ROW !in db.inf
    ensures EARLY_ROW in AfterRules([ClsInt1], db).inf
  {
    hide Conclusions, BOOK, GIVEN, AllTriples;
    NoneOfThemGiven();
    TriplesOnTheWay(db);
    ItemsOnTheWay(db);
    HalfListConcludesEarly(AllTriples(db));
    OneRule(ClsInt1, db);
    hide Rows, OnTheWay;
    assert EARLY_ROW == Quad(EARLY.s, EARLY.p, EARLY.o, DefaultGraph);
  }

  lemma NoneOfThemGiven()
    ensures STEP_ROW !in Rows(GIVEN) && ITEM_ROW !in Rows(GIVEN) && EARLY_ROW !in Rows(GIVEN)
  {
  }

  lemma OneRule(rule: Rule, db: Db)
    ensures AfterRules([rule], db) == db.(inf := db.inf + RuleRows(rule, db))
  {
    hide RuleRows;
    assert [rule][1..] == [];
  }

  lemma {:induction false} RulesConcat(xs: seq<Rule>, ys: seq<Rule>, db: Db)
    ensures AfterRules(xs + ys, db) == AfterRules(ys, AfterRules(xs, db))
    decreases |xs|
  {
    hide RuleRows;
    if xs == [] {
      assert xs + ys == ys;
    } else {
      assert (xs + ys)[1..] == xs[1..] + ys;
      RulesConcat(xs[1..], ys, db.(inf := db.inf + RuleRows(xs[0], db)));
    }
  }

  /** The store as given, nothing inferred. */
  predicate Untouched(db: Db) {
    db.quads == Rows(GIVEN) && db.inf == {}
  }

  lemma TakeTwo(rules: seq<Rule>, i: nat, j: nat)
    requires i < j < |rules|
    ensures rules == rules[..i] + [rules[i]] + rules[i + 1..j] + [rules[j]] + rules[j + 1..]
  {
  }

  lemma QuietParts()
    ensures |ROUND| == 31 && ROUND[11] == PrpSpo1 && ROUND[27] == ClsInt1
    ensures forall i | 0 <= i < |ROUND| :: i == 11 || i == 27 || Quiet(ROUND[i])
  {
  }

  lemma RoundParts()
    ensures |ROUND| == 31 && ROUND == ROUND[..11] + [PrpSpo1] + ROUND[12..27] + [ClsInt1] + ROUND[28..]
    ensures (forall r | r in ROUND[..11] :: Quiet(r)) && forall r | r in ROUND[12..27] :: Quiet(r)
  {
    hide ROUND, Quiet;
    QuietParts();
    TakeTwo(ROUND, 11, 27);
  }

  /** A round meets the intersection when the list is still half. */
  lemma FirstRoundIsEarly(db: Db)
    requires Untouched(db)
    ensures EARLY_ROW in AfterRules(ROUND, db).inf
  {
    hide RuleRows, BOOK, GIVEN, ROUND, AfterRules;
    RoundParts();
    var before := AfterRules(ROUND[..11], db);
    QuietRules(ROUND[..11], db);
    StepRule(before);
    var half := AfterRules([PrpSpo1], before);
    QuietRules(ROUND[12..27], half);
    var meets := AfterRules(ROUND[12..27], half);
    EarlyRule(meets);
    RulesOnlyAdd(ROUND[28..], AfterRules([ClsInt1], meets));
    RulesConcat(ROUND[..11] + [PrpSpo1] + ROUND[12..27] + [ClsInt1], ROUND[28..], db);
    RulesConcat(ROUND[..11] + [PrpSpo1] + ROUND[12..27], [ClsInt1], db);
    RulesConcat(ROUND[..11] + [PrpSpo1], ROUND[12..27], db);
    RulesConcat(ROUND[..11], [PrpSpo1], db);
  }

  lemma {:induction false} EarlyStays(n: nat, db: Db)
    requires Untouched(db) && n > 0
    ensures EARLY_ROW in AfterRounds(n, ROUND, db).inf
  {
    hide AfterRules, Claims;
    if n == 1 {
      FirstRoundIsEarly(db);
      assert AfterRounds(0, ROUND, db) == db;
      assert AfterRounds(1, ROUND, db) == AfterRound(ROUND, db);
    } else {
      EarlyStays(n - 1, db);
      RulesOnlyAdd(ROUND, AfterRounds(n - 1, ROUND, db));
    }
  }

  /** A round with `prp-spo1` at its head as well finishes the list first. */
  lemma FirstRoundIsWhole(db: Db)
    requires Untouched(db)
    ensures var after := AfterRules([PrpSpo1] + ROUND, db); OnTheWay(after) && ITEM_ROW in after.inf
  {
    hide RuleRows, BOOK, GIVEN, ROUND, AfterRules;
    RoundParts();
    var rest := ROUND[12..];
    assert ROUND == ROUND[..11] + [PrpSpo1] + rest;
    StepRule(db);
    var one := AfterRules([PrpSpo1], db);
    QuietRules(ROUND[..11], one);
    var two := AfterRules(ROUND[..11], one);
    StepRule(two);
    WholeListRules(rest, AfterRules([PrpSpo1], two));
    RulesConcat([PrpSpo1], ROUND, db);
    RulesConcat(ROUND[..11] + [PrpSpo1], rest, one);
    RulesConcat(ROUND[..11], [PrpSpo1], one);
  }

  lemma {:induction false} WholeStays(n: nat, db: Db)
    requires Untouched(db)
    ensures var after := AfterRounds(n, [PrpSpo1] + ROUND, db); OnTheWay(after) && (n > 0 ==> ITEM_ROW in after.inf)
  {
    hide AfterRules, Claims, BOOK, GIVEN;
    var rules := [PrpSpo1] + ROUND;
    if n == 1 {
      FirstRoundIsWhole(db);
      assert AfterRounds(0, rules, db) == db;
      assert AfterRounds(1, rules, db) == AfterRound(rules, db);
      RulesOnlyAdd(rules, db);
    } else if n > 1 {
      WholeStays(n - 1, db);
      WholeListRules(rules, AfterRounds(n - 1, rules, db));
      RulesOnlyAdd(rules, AfterRounds(n - 1, rules, db));
    }
  }

  /** The same rules, one of them twice, do not infer the same. */
  lemma RepetitionCanMatter(m: nat, n: nat, db: Db)
    requires Untouched(db) && m > 0
    ensures forall r :: r in ROUND <==> r in [PrpSpo1] + ROUND
    ensures EARLY_ROW in AfterRounds(m, ROUND, db).inf && EARLY_ROW !in AfterRounds(n, [PrpSpo1] + ROUND, db).inf
  {
    hide AfterRounds, BOOK, GIVEN;
    assert ROUND[11] == PrpSpo1;
    EarlyStays(m, db);
    WholeStays(n, db);
    ItemsOnTheWay(AfterRounds(n, [PrpSpo1] + ROUND, db));
  }

  /** And the rounds as they are infer more than a closed set has to hold. */
  lemma LeastCanBeMissed(n: nat, db: Db)
    requires Untouched(db) && n > 0
    ensures ClosedUnder(ROUND, db.(inf := Rows(BOOK))) && !(AfterRounds(n, ROUND, db).inf <= Rows(BOOK))
  {
    hide AfterRounds, RuleRows;
    var closed := db.(inf := Rows(BOOK));
    assert SECOND_ITEM in BOOK && ITEM_ROW in Rows(BOOK);
    ItemsOnTheWay(closed);
    hide BOOK, GIVEN;
    EarlyStays(n, db);
    forall i | 0 <= i < |ROUND|
      ensures RuleRows(ROUND[i], closed) <= closed.inf
    {
      RuleInBook(ROUND[i], closed);
    }
  }
}
