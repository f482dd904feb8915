/** Soundness of the rules that read lists, on lists that are lists, and of whole materializations:
    all that is inferred holds in every model of what was there (reason.rs). */
module OwlSoundness {
  import opened Ids
  import opened OwlRules
  import opened OwlLists
  import opened OwlSemantics
  import opened Database
  import opened Rounds
  import opened Materialization
  import RoundBound

  // ------------------------------------------------------------------ proper lists

  predicate OnlyValue(a: set<Triple>, s: Id, p: Id, o: Id) {
    Triple(s, p, o) in a && forall t | t in a :: t.s == s && t.p == p ==> t.o == o
  }

  /** A list of these items that ends in rdf:nil, each node with one item and one rest. */
  ghost predicate IsList(a: set<Triple>, list: Id, items: seq<Id>)
    decreases |items|
  {
    if items == [] then list == NIL && forall t | t in a :: t.s == NIL ==> t.p != FIRST && t.p != REST
    else OnlyValue(a, list, FIRST, items[0])
         && exists rest :: OnlyValue(a, list, REST, rest) && IsList(a, rest, items[1..])
  }

  /** The lists of intersections, unions and chains are lists, and no property has two chains. */
  ghost predicate ProperLists(a: set<Triple>) {
    && (forall t | t in a && t.p in {INTERSECTION, UNION, CHAIN} :: exists items :: IsList(a, t.o, items))
    && (forall t, u | t in a && u in a && t.p == CHAIN && u.p == CHAIN && t.s == u.s :: t.o == u.o)
  }

  function Denoted<D>(i: Interpretation<D>, items: seq<Id>): (ds: seq<D>)
    ensures |ds| == |items| && forall k | 0 <= k < |items| :: ds[k] == i.den(items[k])
  {
    seq(|items|, k requires 0 <= k < |items| => i.den(items[k]))
  }

  lemma {:induction false} ListIsSequence<D(!new)>(i: Interpretation<D>, a: set<Triple>, list: Id, items: seq<Id>)
    requires Satisfies(i, a) && IsList(a, list, items)
    ensures IsSequence(i, i.den(list), Denoted(i, items))
    decreases |items|
  {
    if items != [] {
      var rest :| OnlyValue(a, list, REST, rest) && IsList(a, rest, items[1..]);
      assert i.Says(Triple(list, FIRST, items[0])) && i.Says(Triple(list, REST, rest));
      ListIsSequence(i, a, rest, items[1..]);
      assert Denoted(i, items)[1..] == Denoted(i, items[1..]);
      assert i.Related(i.den(REST), i.den(list), i.den(rest)) && IsSequence(i, i.den(rest), Denoted(i, items)[1..]);
    }
  }

  /** A path through a list passes its items in order. */
  lemma {:induction false} PathInList(a: set<Triple>, items: seq<Id>, w: seq<Id>, item: Id)
    requires w != [] && IsList(a, w[0], items) && Triple(w[|w| - 1], FIRST, item) in a
    requires forall k | 0 < k < |w| :: Triple(w[k - 1], REST, w[k]) in a
    ensures |w| <= |items| && items[|w| - 1] == item
    decreases |items|
  {
    var from := if |w| > 1 then Triple(w[0], REST, w[1]) else Triple(w[0], FIRST, item);
    assert from in a && from.s == w[0];
    assert items != [];
    if |w| == 1 {
      var t := Triple(w[0], FIRST, item);
      assert t in a && t.s == w[0] && t.p == FIRST;
    } else {
      var rest :| OnlyValue(a, w[0], REST, rest) && IsList(a, rest, items[1..]);
      var t := Triple(w[0], REST, w[1]);
      assert t in a && t.s == w[0] && t.p == REST;
      var tail := w[1..];
      forall k | 0 < k < |tail|
        ensures Triple(tail[k - 1], REST, tail[k]) in a
      {
        assert tail[k - 1] == w[k] && tail[k] == w[k + 1];
        assert Triple(w[k + 1 - 1], REST, w[k + 1]) in a;
      }
      PathInList(a, items[1..], tail, item);
    }
  }

  lemma MembersAreItems(a: set<Triple>, list: Id, items: seq<Id>, item: Id)
    requires IsList(a, list, items) && IsMember(a, list, item)
    ensures item in items
  {
    var w :| IsListPath(a, w) && w[0] == list && Triple(w[|w| - 1], FIRST, item) in a;
    PathInList(a, items, w, item);
  }

  /** The nodes of a list. */
  lemma {:induction false} ListNodes(a: set<Triple>, list: Id, items: seq<Id>) returns (w: seq<Id>)
    requires IsList(a, list, items) && items != []
    ensures |w| == |items| && w[0] == list
    ensures forall k | 0 <= k < |w| :: w[k] != NIL && Triple(w[k], FIRST, items[k]) in a && HasItem(a, w[k])
    ensures forall k | 0 < k < |w| :: Triple(w[k - 1], REST, w[k]) in a
    decreases |items|
  {
    var rest :| OnlyValue(a, list, REST, rest) && IsList(a, rest, items[1..]);
    var first := Triple(list, FIRST, items[0]);
    assert first in a && first.s == list && first.p == FIRST;
    NoItemsAtNil(a, rest, items[1..]);
    if |items| == 1 {
      w := [list];
    } else {
      var tail := ListNodes(a, rest, items[1..]);
      w := [list] + tail;
      forall k | 0 <= k < |w|
        ensures w[k] != NIL && Triple(w[k], FIRST, items[k]) in a && HasItem(a, w[k])
      {
        if k > 0 {
          assert w[k] == tail[k - 1] && items[k] == items[1..][k - 1];
        }
      }
      forall k | 0 < k < |w|
        ensures Triple(w[k - 1], REST, w[k]) in a
      {
        if k > 1 {
          assert w[k - 1] == tail[k - 2] && w[k] == tail[k - 1];
          assert Triple(tail[k - 1 - 1], REST, tail[k - 1]) in a;
        }
      }
    }
  }

  lemma {:induction false} NoItemsAtNil(a: set<Triple>, list: Id, items: seq<Id>)
    requires IsList(a, list, items)
    ensures forall t | t in a :: t.s == NIL ==> t.p != FIRST && t.p != REST
    decreases |items|
  {
    if items != [] {
      var rest :| OnlyValue(a, list, REST, rest) && IsList(a, rest, items[1..]);
      NoItemsAtNil(a, rest, items[1..]);
    }
  }

  lemma ItemsAreMembers(a: set<Triple>, list: Id, items: seq<Id>, k: nat)
    requires IsList(a, list, items) && k < |items|
    ensures IsMember(a, list, items[k])
  {
    var w := ListNodes(a, list, items);
    var path := w[..k + 1];
    forall j | 0 < j < |path|
      ensures Triple(path[j - 1], REST, path[j]) in a
    {
      assert path[j - 1] == w[j - 1] && path[j] == w[j];
    }
    assert IsListPath(a, path) && path[|path| - 1] == w[k];
  }

  lemma IntersectionsAreSound<D(!new)>(a: set<Triple>, i: Interpretation<D>, c: Id, list: Id, items: seq<Id>, x: Id)
    requires ListsMean(i) && Satisfies(i, a) && Triple(c, INTERSECTION, list) in a && IsList(a, list, items)
    ensures InAll(i, Denoted(i, items), i.den(x)) <==> i.Instance(i.den(c), i.den(x))
  {
    assert i.Says(Triple(c, INTERSECTION, list));
    ListIsSequence(i, a, list, items);
  }

  lemma UnionsAreSound<D(!new)>(a: set<Triple>, i: Interpretation<D>, c: Id, list: Id, items: seq<Id>, x: Id)
    requires ListsMean(i) && Satisfies(i, a) && Triple(c, UNION, list) in a && IsList(a, list, items)
    ensures InOne(i, Denoted(i, items), i.den(x)) <==> i.Instance(i.den(c), i.den(x))
  {
    assert i.Says(Triple(c, UNION, list));
    ListIsSequence(i, a, list, items);
  }

  lemma ListsAreSound<D(!new)>(rule: Rule, a: set<Triple>, i: Interpretation<D>)
    requires ListsMean(i) && Satisfies(i, a) && ProperLists(a)
    ensures Satisfies(i, Lists(rule, a))
  {
    forall t | t in Lists(rule, a)
      ensures i.Says(t)
    {
      if rule == ClsInt1 {
        IntersectionStep(a, i, t);
      } else {
        MemberStep(rule, a, i, t);
      }
    }
  }

  lemma IntersectionPremises(a: set<Triple>, t: Triple) returns (x: Triple)
    requires t in Lists(ClsInt1, a)
    ensures x in a && x.p == INTERSECTION && t == Triple(t.s, TYPE, x.s)
    ensures forall m | m in Items(a, x.s, INTERSECTION) :: Triple(t.s, TYPE, m) in a
  {
    hide Items;
    var u;
    x, u :| x in a && u in a && x.p == INTERSECTION && u.p == TYPE && u.o in Items(a, x.s, INTERSECTION)
      && (forall i | i in Items(a, x.s, INTERSECTION) :: Triple(u.s, TYPE, i) in a) && t == Triple(u.s, TYPE, x.s);
  }

  lemma IntersectionStep<D(!new)>(a: set<Triple>, i: Interpretation<D>, t: Triple)
    requires ListsMean(i) && Satisfies(i, a) && ProperLists(a) && t in Lists(ClsInt1, a)
    ensures i.Says(t)
  {
    hide Lists, Items, IsMember, IsList, ListsMean;
    var x := IntersectionPremises(a, t);
    assert x == Triple(x.s, INTERSECTION, x.o);
    var items :| IsList(a, x.o, items);
    var ds := Denoted(i, items);
    forall k | 0 <= k < |ds|
      ensures i.Instance(ds[k], i.den(t.s))
    {
      ItemsAreMembers(a, x.o, items, k);
      assert IsPartOf(a, x.s, items[k]);
      ItemsArePartsOf(a, x.s, items[k]);
      assert i.Says(Triple(t.s, TYPE, items[k]));
    }
    IntersectionsAreSound(a, i, x.s, x.o, items, t.s);
  }

  lemma MemberPremises(rule: Rule, a: set<Triple>, t: Triple) returns (x: Triple, m: Id)
    requires rule in {ClsInt2, ClsUni} && t in Lists(rule, a)
    ensures x in a && IsMember(a, x.o, m)
    ensures rule == ClsInt2 ==> x.p == INTERSECTION && t == Triple(t.s, TYPE, m) && Triple(t.s, TYPE, x.s) in a
    ensures rule == ClsUni ==> x.p == UNION && t == Triple(t.s, TYPE, x.s) && Triple(t.s, TYPE, m) in a
  {
    hide Cells, IsMember;
    var c, u;
    if rule == ClsInt2 {
      x, c, u :| x in a && c in Cells(a) && u in a && x.p == INTERSECTION && c.head == x.o && u.p == TYPE && u.o == x.s
        && t == Triple(u.s, TYPE, c.item);
      assert u == Triple(t.s, TYPE, x.s);
    } else {
      x, c, u :| x in a && c in Cells(a) && u in a && x.p == UNION && c.head == x.o && u.p == TYPE && u.o == c.item
        && t == Triple(u.s, TYPE, x.s);
      assert u == Triple(t.s, TYPE, c.item);
    }
    m := c.item;
    CellsFindMembers(a, x.o, m);
  }

  lemma MemberStep<D(!new)>(rule: Rule, a: set<Triple>, i: Interpretation<D>, t: Triple)
    requires ListsMean(i) && Satisfies(i, a) && ProperLists(a) && rule != ClsInt1 && t in Lists(rule, a)
    ensures i.Says(t)
  {
    assert rule in {ClsInt2, ClsUni};
    hide Lists, IsMember, IsList, ListsMean;
    var x, m := MemberPremises(rule, a, t);
    assert x == Triple(x.s, x.p, x.o);
    var items :| IsList(a, x.o, items);
    var ds := Denoted(i, items);
    MembersAreItems(a, x.o, items, m);
    var k :| 0 <= k < |items| && items[k] == m;
    if rule == ClsInt2 {
      assert i.Says(Triple(t.s, TYPE, x.s));
      IntersectionsAreSound(a, i, x.s, x.o, items, t.s);
      assert i.Instance(ds[k], i.den(t.s));
    } else {
      assert i.Says(Triple(t.s, TYPE, m));
      assert i.Instance(ds[k], i.den(t.s));
      UnionsAreSound(a, i, x.s, x.o, items, t.s);
    }
  }

  // ------------------------------------------------------------------ property chains

  lemma {:induction false} ListIsUnique(a: set<Triple>, list: Id, one: seq<Id>, two: seq<Id>)
    requires IsList(a, list, one) && IsList(a, list, two)
    ensures one == two
    decreases |one|
  {
    if one != [] && two != [] {
      var r :| OnlyValue(a, list, REST, r) && IsList(a, r, one[1..]);
      var s :| OnlyValue(a, list, REST, s) && IsList(a, s, two[1..]);
      assert Triple(list, REST, s).o == r;
      ListIsUnique(a, r, one[1..], two[1..]);
      assert Triple(list, FIRST, two[0]).o == one[0];
      assert one == [one[0]] + one[1..] && two == [two[0]] + two[1..];
    }
  }

  /** As many first-item triples as there are items: a list is no longer than the store. */
  lemma {:induction false} ListFits(a: set<Triple>, list: Id, items: seq<Id>) returns (firsts: set<Triple>)
    requires IsList(a, list, items)
    ensures firsts <= a && |firsts| == |items|
    ensures forall t | t in firsts :: exists rest :: IsList(a, t.s, rest) && |rest| <= |items|
    decreases |items|
  {
    if items == [] {
      firsts := {};
    } else {
      var r :| OnlyValue(a, list, REST, r) && IsList(a, r, items[1..]);
      var more := ListFits(a, r, items[1..]);
      var first := Triple(list, FIRST, items[0]);
      if first in more {
        var rest :| IsList(a, first.s, rest) && |rest| <= |items[1..]|;
        ListIsUnique(a, list, items, rest);
        assert false;
      }
      firsts := more + {first};
      assert IsList(a, first.s, items) && |items| <= |items|;
    }
  }

  /** The steps of a property with one proper chain are the items of its list. */
  lemma StepsAreItems(a: set<Triple>, p: Id, list: Id, items: seq<Id>, j: nat, q: Id)
    requires ProperLists(a) && Triple(p, CHAIN, list) in a && IsList(a, list, items)
    ensures IsStep(a, p, j, q) <==> 1 <= j <= |items| && items[j - 1] == q
  {
    hide IsList, IsStep, ProperLists;
    if IsStep(a, p, j, q) {
      StepIsItem(a, p, list, items, j, q);
    }
    if 1 <= j <= |items| && items[j - 1] == q {
      ItemIsStep(a, p, list, items, j);
    }
  }

  lemma StepIsItem(a: set<Triple>, p: Id, list: Id, items: seq<Id>, j: nat, q: Id)
    requires ProperLists(a) && Triple(p, CHAIN, list) in a && IsList(a, list, items) && IsStep(a, p, j, q)
    ensures 1 <= j <= |items| && items[j - 1] == q
  {
    hide IsList;
    var w :| IsChainPath(a, w) && |w| == j && Triple(p, CHAIN, w[0]) in a && Triple(w[j - 1], FIRST, q) in a;
    var one, two := Triple(p, CHAIN, w[0]), Triple(p, CHAIN, list);
    assert one.p == CHAIN && two.p == CHAIN && one.s == two.s;
    assert w[0] == list;
    PathInList(a, items, w, q);
  }

  lemma ItemIsStep(a: set<Triple>, p: Id, list: Id, items: seq<Id>, j: nat)
    requires Triple(p, CHAIN, list) in a && IsList(a, list, items) && 1 <= j <= |items|
    ensures IsStep(a, p, j, items[j - 1])
  {
    hide IsList;
    var nodes := ListNodes(a, list, items);
    var firsts := ListFits(a, list, items);
    RoundBound.SubsetSize(firsts, a);
    var w := nodes[..j];
    forall k | 0 < k < |w|
      ensures w[k] != NIL && Triple(w[k - 1], REST, w[k]) in a
    {
      assert w[k] == nodes[k] && w[k - 1] == nodes[k - 1];
    }
    assert IsChainPath(a, w) && w[j - 1] == nodes[j - 1];
  }

  lemma ChainPremises(a: set<Triple>, t: Triple) returns (nodes: seq<Id>)
    requires t in Properties(PrpSpo2, a)
    ensures FollowsChain(a, t.p, nodes) && IsChainLength(a, t.p, |nodes| - 1)
    ensures t == Triple(nodes[0], t.p, nodes[|nodes| - 1])
  {
    hide Trails, Steps, FollowsChain, IsStep;
    var w :| w in Trails(a) && (forall st | st in Steps(a) && st.chain == w.chain :: st.i <= w.i)
      && t == Triple(w.start, w.chain, w.cur);
    TrailsAreTrails(a);
    nodes :| FollowsChain(a, w.chain, nodes) && |nodes| == w.i + 1 && nodes[0] == w.start && nodes[w.i] == w.cur;
    forall j: nat, q | IsStep(a, w.chain, j, q)
      ensures j <= w.i
    {
      StepsAreSteps(a, w.chain, j, q);
      assert Step(w.chain, j, q) in Steps(a);
    }
  }

  lemma ChainStep<D(!new)>(a: set<Triple>, i: Interpretation<D>, t: Triple)
    requires ChainsMean(i) && Satisfies(i, a) && ProperLists(a) && t in Properties(PrpSpo2, a)
    ensures i.Says(t)
  {
    hide Properties, IsList, ChainsMean;
    var nodes := ChainPremises(a, t);
    assert StepTaken(a, t.p, 1, nodes[0], nodes[1]);
    var first :| IsStep(a, t.p, 1, first) && Triple(nodes[0], first, nodes[1]) in a;
    var w :| IsChainPath(a, w) && |w| == 1 && Triple(t.p, CHAIN, w[0]) in a;
    var list := w[0];
    var chain := Triple(t.p, CHAIN, list);
    assert chain in a && chain.p == CHAIN;
    var items :| IsList(a, chain.o, items);
    ChainAlong(a, i, t.p, list, items, nodes);
  }

  lemma ChainAlong<D(!new)>(a: set<Triple>, i: Interpretation<D>, p: Id, list: Id, items: seq<Id>, nodes: seq<Id>)
    requires ChainsMean(i) && Satisfies(i, a) && ProperLists(a) && Triple(p, CHAIN, list) in a && IsList(a, list, items)
    requires FollowsChain(a, p, nodes) && IsChainLength(a, p, |nodes| - 1)
    ensures i.Says(Triple(nodes[0], p, nodes[|nodes| - 1]))
  {
    hide IsList, ProperLists, IsStep, ChainsMean;
    var k := |nodes| - 1;
    forall j: nat, q
      ensures IsStep(a, p, j, q) <==> 1 <= j <= |items| && items[j - 1] == q
    {
      StepsAreItems(a, p, list, items, j, q);
    }
    assert StepTaken(a, p, k, nodes[k - 1], nodes[k]);
    assert IsStep(a, p, |items|, items[|items| - 1]);
    assert |items| == k;
    var ds, ns := Denoted(i, items), Denoted(i, nodes);
    forall j | 0 <= j < k
      ensures i.Related(ds[j], ns[j], ns[j + 1])
    {
      assert StepTaken(a, p, j + 1, nodes[j], nodes[j + 1]);
      assert i.Says(Triple(nodes[j], items[j], nodes[j + 1]));
    }
    ListIsSequence(i, a, list, items);
    assert i.Says(Triple(p, CHAIN, list));
    ChainSays(i, i.den(p), i.den(list), ds, ns);
  }

  lemma ChainSays<D(!new)>(i: Interpretation<D>, p: D, list: D, properties: seq<D>, nodes: seq<D>)
    requires ChainsMean(i) && i.Related(i.den(CHAIN), p, list) && IsSequence(i, list, properties) && properties != []
    requires Follows(i, properties, nodes)
    ensures i.Related(p, nodes[0], nodes[|properties|])
  {
  }

  // ------------------------------------------------------------------ every rule, every round

  predicate ReadsLists(rule: Rule) {
    rule in {ClsInt1, ClsInt2, ClsUni, PrpSpo2}
  }

  /** A rule concludes only what holds in every model of its premises: the rules that read lists
      where the lists are proper, the others everywhere. */
  lemma RulesAreSound<D(!new)>(rule: Rule, a: set<Triple>, i: Interpretation<D>)
    requires IsModel(i) && Satisfies(i, a) && (ReadsLists(rule) ==> ProperLists(a))
    ensures Satisfies(i, Conclusions(rule, a))
  {
    hide Equality, Properties, ClassAxioms, Restrictions, Lists, ProperLists;
    EqualityIsSound(rule, a, i);
    ClassAxiomsAreSound(rule, a, i);
    RestrictionsAreSound(rule, a, i);
    if rule == PrpSpo2 {
      forall t | t in Properties(rule, a)
        ensures i.Says(t)
      {
        ChainStep(a, i, t);
      }
    } else {
      PropertiesAreSound(rule, a, i);
    }
    if ReadsLists(rule) {
      ListsAreSound(rule, a, i);
    } else {
      NoListConclusions(rule, a);
    }
  }

  lemma NoListConclusions(rule: Rule, a: set<Triple>)
    requires !ReadsLists(rule)
    ensures Lists(rule, a) == {}
  {
  }

  // ------------------------------------------------------------------ whole materializations

  /** Lists are proper at the start, and in all that lies between it and the end. */
  ghost predicate ListsStayProper(start: set<Triple>, end: set<Triple>) {
    forall a | start <= a <= end :: ProperLists(a)
  }

  lemma RowsAreSound<D(!new)>(rule: Rule, db: Db, i: Interpretation<D>)
    requires IsModel(i) && Satisfies(i, AllTriples(db)) && (ReadsLists(rule) ==> ProperLists(AllTriples(db)))
    ensures Satisfies(i, AllTriples(db.(inf := db.inf + RuleRows(rule, db))))
  {
    hide IsModel, Conclusions, ProperLists;
    RulesAreSound(rule, AllTriples(db), i);
    var next := db.(inf := db.inf + RuleRows(rule, db));
    forall t | t in AllTriples(next)
      ensures i.Says(t)
    {
      assert t in AllTriples(db) || t in Conclusions(rule, AllTriples(db));
    }
  }

  lemma {:induction false} RulesRunSoundly<D(!new)>(rules: seq<Rule>, start: Db, db: Db, end: Db, i: Interpretation<D>)
    requires IsModel(i) && Satisfies(i, AllTriples(db))
    requires start.quads == db.quads == end.quads && start.inf <= db.inf && AfterRules(rules, db).inf <= end.inf
    requires (forall r | r in rules :: !ReadsLists(r)) || ListsStayProper(AllTriples(start), AllTriples(end))
    ensures Satisfies(i, AllTriples(AfterRules(rules, db)))
    decreases |rules|
  {
    hide RuleRows, IsModel, Satisfies, ProperLists, ReadsLists;
    if rules != [] {
      RulesOnlyAdd(rules, db);
      assert AllTriples(start) <= AllTriples(db) <= AllTriples(end);
      RowsAreSound(rules[0], db, i);
      RulesRunSoundly(rules[1..], start, db.(inf := db.inf + RuleRows(rules[0], db)), end, i);
    }
  }

  /** Whatever any number of rounds infers holds in every model of what was there before them. */
  lemma {:induction false} RoundsAreSound<D(!new)>(n: nat, rules: seq<Rule>, start: Db, end: Db, i: Interpretation<D>)
    requires IsModel(i) && Satisfies(i, AllTriples(start))
    requires start.quads == end.quads && AfterRounds(n, rules, start).inf <= end.inf
    requires (forall r | r in rules :: !ReadsLists(r)) || ListsStayProper(AllTriples(start), AllTriples(end))
    ensures Satisfies(i, AllTriples(AfterRounds(n, rules, start)))
  {
    hide AfterRules, Claims, IsModel, Satisfies, ListsStayProper, ReadsLists;
    if n > 0 {
      var mid := AfterRounds(n - 1, rules, start);
      RoundsOnlyAdd(n - 1, rules, start);
      RulesOnlyAdd(rules, mid);
      RoundsAreSound(n - 1, rules, start, end, i);
      RulesRunSoundly(rules, start, mid, end, i);
      assert AllTriples(AfterRound(rules, mid)) == AllTriples(AfterRules(rules, mid));
    }
  }

  // ------------------------------------------------------------------ when lists stay proper

  const LIST_PROPERTIES := {FIRST, REST, INTERSECTION, UNION, CHAIN}

  /** No list triple was added. */
  predicate SameListTriples(a: set<Triple>, b: set<Triple>) {
    forall t | t in b && t.p in LIST_PROPERTIES :: t in a
  }

  lemma {:induction false} ListIsKept(a: set<Triple>, b: set<Triple>, list: Id, items: seq<Id>)
    requires a <= b && SameListTriples(a, b) && IsList(a, list, items)
    ensures IsList(b, list, items)
    decreases |items|
  {
    if items != [] {
      var rest :| OnlyValue(a, list, REST, rest) && IsList(a, rest, items[1..]);
      ListIsKept(a, b, rest, items[1..]);
      assert OnlyValue(b, list, REST, rest) && OnlyValue(b, list, FIRST, items[0]);
    }
  }

  /** Proper lists stay proper as long as no list triple is inferred. */
  lemma UntouchedListsStayProper(start: set<Triple>, end: set<Triple>)
    requires ProperLists(start) && SameListTriples(start, end)
    ensures ListsStayProper(start, end)
  {
    forall b | start <= b <= end
      ensures ProperLists(b)
    {
      assert SameListTriples(start, b);
      forall t | t in b && t.p in {INTERSECTION, UNION, CHAIN}
        ensures exists items :: IsList(b, t.o, items)
      {
        assert t in start;
        var items :| IsList(start, t.o, items);
        ListIsKept(start, b, t.o, items);
      }
    }
  }

  /** And where nothing is said with owl:intersectionOf, owl:unionOf or owl:propertyChainAxiom. */
  lemma NoListsStayProper(start: set<Triple>, end: set<Triple>)
    requires forall t | t in end :: t.p !in {INTERSECTION, UNION, CHAIN}
    ensures ListsStayProper(start, end)
  {
  }
}
