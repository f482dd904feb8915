/** Lists and property chains as paths of triples: what the recursions of the list rules find, said
    without them (reason.rs). */
module OwlLists {
  import opened Ids
  import opened OwlRules
  import Fixpoint

  // ------------------------------------------------------------------ the members of a list

  predicate HasItem(a: set<Triple>, node: Id) {
    exists t | t in a :: t.s == node && t.p == FIRST
  }

  /** Nodes with items, each the rest of the one before. */
  predicate IsListPath(a: set<Triple>, w: seq<Id>) {
    && w != []
    && (forall i | 0 <= i < |w| :: HasItem(a, w[i]))
    && (forall i | 0 < i < |w| :: Triple(w[i - 1], REST, w[i]) in a)
  }

  /** The list at `head` leads to a node with this item. */
  ghost predicate IsMember(a: set<Triple>, head: Id, item: Id) {
    exists w :: IsListPath(a, w) && w[0] == head && Triple(w[|w| - 1], FIRST, item) in a
  }

  ghost predicate LeadsTo(a: set<Triple>, head: Id, node: Id) {
    exists w :: IsListPath(a, w) && w[0] == head && w[|w| - 1] == node
  }

  lemma ListPathExtends(a: set<Triple>, head: Id, node: Id, next: Id)
    requires LeadsTo(a, head, node) && Triple(node, REST, next) in a && HasItem(a, next)
    ensures LeadsTo(a, head, next)
  {
    var w :| IsListPath(a, w) && w[0] == head && w[|w| - 1] == node;
    assert IsListPath(a, w + [next]);
  }

  lemma CellsAreOnPaths(a: set<Triple>)
    ensures forall c | c in Cells(a) :: LeadsTo(a, c.head, c.node) && Triple(c.node, FIRST, c.item) in a
  {
    CellFrameHolds(a);
    var good := set c | c in CellFrame(a) && LeadsTo(a, c.head, c.node) && Triple(c.node, FIRST, c.item) in a;
    forall c | c in FirstCells(a)
      ensures c in good
    {
      var x :| x in a && x.p == FIRST && c == Cell(x.s, x.s, x.o);
      assert x == Triple(c.node, FIRST, c.item);
      assert IsListPath(a, [c.head]);
    }
    forall c | c in good
      ensures NextCells(a, c) <= good
    {
      forall n | n in NextCells(a, c)
        ensures n in good
      {
        var r, f :| r in a && f in a && r.s == c.node && r.p == REST && f.s == r.o && f.p == FIRST
          && n == Cell(c.head, r.o, f.o);
        assert r == Triple(c.node, REST, n.node) && f == Triple(n.node, FIRST, n.item);
        ListPathExtends(a, c.head, c.node, n.node);
        assert NextCell(a)(c) <= CellFrame(a);
      }
    }
    Fixpoint.LeastIsLeast(FirstCells(a), NextCell(a), CellFrame(a), good);
  }

  lemma {:induction false} PathsHaveCells(a: set<Triple>, w: seq<Id>, item: Id)
    requires IsListPath(a, w) && Triple(w[|w| - 1], FIRST, item) in a
    ensures Cell(w[0], w[|w| - 1], item) in Cells(a)
    decreases |w|
  {
    CellFrameHolds(a);
    Fixpoint.LeastIsClosed(FirstCells(a), NextCell(a), CellFrame(a));
    var last := Triple(w[|w| - 1], FIRST, item);
    if |w| == 1 {
      assert Cell(last.s, last.s, last.o) in FirstCells(a);
    } else {
      var front := w[..|w| - 1];
      assert HasItem(a, front[|front| - 1]);
      var t :| t in a && t.s == front[|front| - 1] && t.p == FIRST;
      assert t == Triple(front[|front| - 1], FIRST, t.o);
      PathsHaveCells(a, front, t.o);
      var c, rest := Cell(w[0], front[|front| - 1], t.o), Triple(w[|w| - 2], REST, w[|w| - 1]);
      assert rest in a && Cell(c.head, rest.o, last.o) in NextCells(a, c);
      assert NextCell(a)(c) <= Cells(a);
    }
  }

  /** The recursion over cells finds exactly the members. */
  lemma CellsFindMembers(a: set<Triple>, head: Id, item: Id)
    ensures (exists c | c in Cells(a) :: c.head == head && c.item == item) <==> IsMember(a, head, item)
  {
    hide Cells;
    CellsAreOnPaths(a);
    if c :| c in Cells(a) && c.head == head && c.item == item {
      var w :| IsListPath(a, w) && w[0] == c.head && w[|w| - 1] == c.node;
    }
    if IsMember(a, head, item) {
      var w :| IsListPath(a, w) && w[0] == head && Triple(w[|w| - 1], FIRST, item) in a;
      PathsHaveCells(a, w, item);
    }
  }

  /** A class is given as the intersection of a list with this member. */
  ghost predicate IsPartOf(a: set<Triple>, class_: Id, item: Id) {
    exists list :: Triple(class_, INTERSECTION, list) in a && IsMember(a, list, item)
  }

  lemma ItemsArePartsOf(a: set<Triple>, class_: Id, item: Id)
    ensures item in Items(a, class_, INTERSECTION) <==> IsPartOf(a, class_, item)
  {
    hide Cells, IsMember;
    if item in Items(a, class_, INTERSECTION) {
      var x, c :| x in a && c in Cells(a) && x.p == INTERSECTION && x.s == class_ && c.head == x.o && c.item == item;
      assert x == Triple(class_, INTERSECTION, x.o);
      CellsFindMembers(a, x.o, item);
    }
    if list :| Triple(class_, INTERSECTION, list) in a && IsMember(a, list, item) {
      CellsFindMembers(a, list, item);
    }
  }

  // ------------------------------------------------------------------ the properties of a chain

  /** Nodes of a chain's list, each the rest of the one before, the end of the list not among
      them; a list no longer than this bound is one that does not run in a circle. */
  predicate IsChainPath(a: set<Triple>, w: seq<Id>) {
    && 0 < |w| <= |a| + 1 && HasItem(a, w[0])
    && (forall i | 0 < i < |w| :: w[i] != NIL && Triple(w[i - 1], REST, w[i]) in a)
  }

  /** The `i`-th property of a chain of `chain`, counting from 1, is `property`. */
  ghost predicate IsStep(a: set<Triple>, chain: Id, i: nat, property: Id) {
    exists w :: IsChainPath(a, w) && |w| == i && Triple(chain, CHAIN, w[0]) in a
      && Triple(w[i - 1], FIRST, property) in a
  }

  ghost predicate IsPlace(a: set<Triple>, head: Id, node: Id, i: nat) {
    exists w :: IsChainPath(a, w) && |w| == i && w[0] == head && w[i - 1] == node
  }

  lemma ChainPathExtends(a: set<Triple>, head: Id, node: Id, i: nat, next: Id)
    requires IsPlace(a, head, node, i) && i <= |a| && Triple(node, REST, next) in a && next != NIL
    ensures IsPlace(a, head, next, i + 1)
  {
    var w :| IsChainPath(a, w) && |w| == i && w[0] == head && w[i - 1] == node;
    assert IsChainPath(a, w + [next]);
  }

  lemma PlacesAreOnPaths(a: set<Triple>)
    ensures forall c | c in Places(a) :: IsPlace(a, c.head, c.node, c.i)
  {
    PlaceFrameHolds(a);
    var good := set c | c in PlaceFrame(a) && IsPlace(a, c.head, c.node, c.i);
    forall c | c in FirstPlaces(a)
      ensures c in good
    {
      var x :| x in a && x.p == FIRST && c == Place(x.s, x.s, 1);
      assert IsChainPath(a, [c.head]);
    }
    forall c | c in good
      ensures NextPlaces(a, c) <= good
    {
      forall n | n in NextPlaces(a, c)
        ensures n in good
      {
        var r :| r in a && r.s == c.node && r.p == REST && r.o != NIL && n == Place(c.head, r.o, c.i + 1);
        assert r == Triple(c.node, REST, n.node);
        ChainPathExtends(a, c.head, c.node, c.i, n.node);
        assert NextPlace(a)(c) <= PlaceFrame(a);
      }
    }
    Fixpoint.LeastIsLeast(FirstPlaces(a), NextPlace(a), PlaceFrame(a), good);
  }

  lemma {:induction false} PathsHavePlaces(a: set<Triple>, w: seq<Id>)
    requires IsChainPath(a, w)
    ensures Place(w[0], w[|w| - 1], |w|) in Places(a)
    decreases |w|
  {
    PlaceFrameHolds(a);
    Fixpoint.LeastIsClosed(FirstPlaces(a), NextPlace(a), PlaceFrame(a));
    if |w| == 1 {
      var t :| t in a && t.s == w[0] && t.p == FIRST;
      assert Place(t.s, t.s, 1) in FirstPlaces(a);
    } else {
      PathsHavePlaces(a, w[..|w| - 1]);
      var c, rest := Place(w[0], w[|w| - 2], |w| - 1), Triple(w[|w| - 2], REST, w[|w| - 1]);
      assert rest in a && Place(c.head, rest.o, c.i + 1) in NextPlaces(a, c);
      assert NextPlace(a)(c) <= Places(a);
    }
  }

  /** The recursion over places finds exactly the properties of each chain. */
  lemma StepsAreSteps(a: set<Triple>, chain: Id, i: nat, property: Id)
    ensures Step(chain, i, property) in Steps(a) <==> IsStep(a, chain, i, property)
  {
    hide Steps, IsStep;
    if Step(chain, i, property) in Steps(a) {
      StepHasPath(a, chain, i, property);
    }
    if IsStep(a, chain, i, property) {
      PathHasStep(a, chain, i, property);
    }
  }

  lemma StepHasPath(a: set<Triple>, chain: Id, i: nat, property: Id)
    requires Step(chain, i, property) in Steps(a)
    ensures IsStep(a, chain, i, property)
  {
    hide Places;
    var x, c, f :| x in a && c in Places(a) && f in a && x.p == CHAIN && c.head == x.o && f.s == c.node
      && f.p == FIRST && x.s == chain && c.i == i && f.o == property;
    PlacesAreOnPaths(a);
    var w :| IsChainPath(a, w) && |w| == c.i && w[0] == c.head && w[c.i - 1] == c.node;
    assert x == Triple(chain, CHAIN, w[0]) && f == Triple(w[i - 1], FIRST, property);
  }

  lemma PathHasStep(a: set<Triple>, chain: Id, i: nat, property: Id)
    requires IsStep(a, chain, i, property)
    ensures Step(chain, i, property) in Steps(a)
  {
    hide Places;
    var w :| IsChainPath(a, w) && |w| == i && Triple(chain, CHAIN, w[0]) in a
      && Triple(w[i - 1], FIRST, property) in a;
    PathsHavePlaces(a, w);
    var x, c, f := Triple(chain, CHAIN, w[0]), Place(w[0], w[i - 1], i), Triple(w[i - 1], FIRST, property);
    assert Step(x.s, c.i, f.o) in Steps(a);
  }

  /** An `i`-th property of the chain leads from one node to the other. */
  ghost predicate StepTaken(a: set<Triple>, chain: Id, i: nat, x: Id, y: Id) {
    exists q :: IsStep(a, chain, i, q) && Triple(x, q, y) in a
  }

  /** Nodes that follow the first properties of a chain, one after the other. */
  ghost predicate FollowsChain(a: set<Triple>, chain: Id, w: seq<Id>) {
    |w| >= 2 && forall i | 0 < i < |w| :: StepTaken(a, chain, i, w[i - 1], w[i])
  }

  /** No property of the chain comes after the `i`-th. */
  ghost predicate IsChainLength(a: set<Triple>, chain: Id, i: nat) {
    forall j: nat, q | IsStep(a, chain, j, q) :: j <= i
  }

  ghost predicate IsTrail(a: set<Triple>, w: Trail) {
    exists nodes :: FollowsChain(a, w.chain, nodes) && |nodes| == w.i + 1 && nodes[0] == w.start && nodes[w.i] == w.cur
  }

  lemma TrailExtends(a: set<Triple>, w: Trail, q: Id, next: Id)
    requires IsTrail(a, w) && IsStep(a, w.chain, w.i + 1, q) && Triple(w.cur, q, next) in a
    ensures IsTrail(a, Trail(w.chain, w.start, w.i + 1, next))
  {
    hide IsStep;
    var nodes :| FollowsChain(a, w.chain, nodes) && |nodes| == w.i + 1 && nodes[0] == w.start && nodes[w.i] == w.cur;
    var more := nodes + [next];
    forall i | 0 < i < |more|
      ensures StepTaken(a, w.chain, i, more[i - 1], more[i])
    {
      if i < |nodes| {
        assert more[i - 1] == nodes[i - 1] && more[i] == nodes[i];
      }
    }
    assert FollowsChain(a, w.chain, more);
  }

  lemma TrailsAreTrails(a: set<Triple>)
    ensures forall w | w in Trails(a) :: IsTrail(a, w)
  {
    hide Steps, IsStep;
    var steps := Steps(a);
    TrailFrameHolds(a, steps);
    forall st
      ensures st in steps <==> IsStep(a, st.chain, st.i, st.property)
    {
      StepsAreSteps(a, st.chain, st.i, st.property);
    }
    var good := set w | w in TrailFrame(a, steps) && IsTrail(a, w);
    forall w | w in FirstTrails(a, steps)
      ensures w in good
    {
      var st, t :| st in steps && t in a && st.i == 1 && t.p == st.property && w == Trail(st.chain, t.s, 1, t.o);
      assert t == Triple(w.start, st.property, w.cur);
      assert StepTaken(a, w.chain, 1, w.start, w.cur);
      var nodes := [w.start, w.cur];
      assert FollowsChain(a, w.chain, nodes);
    }
    forall w | w in good
      ensures NextTrails(a, steps, w) <= good
    {
      forall n | n in NextTrails(a, steps, w)
        ensures n in good
      {
        var st, t :| st in steps && t in a && st.chain == w.chain && st.i == w.i + 1 && t.s == w.cur
          && t.p == st.property && n == Trail(w.chain, w.start, w.i + 1, t.o);
        assert t == Triple(w.cur, st.property, t.o);
        TrailExtends(a, w, st.property, t.o);
        assert NextTrail(a, steps)(w) <= TrailFrame(a, steps);
      }
    }
    Fixpoint.LeastIsLeast(FirstTrails(a, steps), NextTrail(a, steps), TrailFrame(a, steps), good);
  }

  lemma TrailsAreClosed(a: set<Triple>)
    ensures FirstTrails(a, Steps(a)) <= Trails(a)
    ensures forall w | w in Trails(a) :: NextTrails(a, Steps(a), w) <= Trails(a)
  {
    hide Steps;
    var steps := Steps(a);
    TrailFrameHolds(a, steps);
    Fixpoint.LeastIsClosed(FirstTrails(a, steps), NextTrail(a, steps), TrailFrame(a, steps));
    forall w | w in Trails(a)
      ensures NextTrails(a, steps, w) <= Trails(a)
    {
      assert NextTrail(a, steps)(w) <= Trails(a);
    }
  }

  lemma {:induction false} FollowersAreTrails(a: set<Triple>, chain: Id, nodes: seq<Id>)
    requires FollowsChain(a, chain, nodes)
    ensures Trail(chain, nodes[0], |nodes| - 1, nodes[|nodes| - 1]) in Trails(a)
    decreases |nodes|
  {
    hide Steps, IsStep;
    var steps, k := Steps(a), |nodes| - 1;
    TrailsAreClosed(a);
    assert StepTaken(a, chain, k, nodes[k - 1], nodes[k]);
    hide Trails;
    var q :| IsStep(a, chain, k, q) && Triple(nodes[k - 1], q, nodes[k]) in a;
    StepsAreSteps(a, chain, k, q);
    var st, t := Step(chain, k, q), Triple(nodes[k - 1], q, nodes[k]);
    if k == 1 {
      assert Trail(st.chain, t.s, 1, t.o) in FirstTrails(a, steps);
    } else {
      var front := nodes[..k];
      forall i | 0 < i < |front|
        ensures StepTaken(a, chain, i, front[i - 1], front[i])
      {
        assert StepTaken(a, chain, i, nodes[i - 1], nodes[i]);
      }
      assert FollowsChain(a, chain, front);
      FollowersAreTrails(a, chain, front);
      var w := Trail(chain, nodes[0], k - 1, nodes[k - 1]);
      assert Trail(w.chain, w.start, w.i + 1, t.o) in NextTrails(a, steps, w);
    }
  }
}
