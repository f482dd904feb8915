/** Composition of labelled arcs, the recursion under every closure: rows (a, b, parity) extended
    by one arc at a time. The reference reading is a walk: a non-empty chain of arcs whose
    number of inverse arcs is even or odd. */
module Walks {
  import opened Ids
  import Fixpoint

  /** An arc of the graph `scope`; `inv` marks an inverse (direction-swapping) arc. */
  datatype Edge = Edge(scope: Id, a: Id, b: Id, inv: bool)

  /** One recursive step: an edge of the same scope from where the row ends, its bit added. */
  function Extend(edges: set<Edge>, c: Edge): set<Edge> {
    set e | e in edges && e.scope == c.scope && e.a == c.b :: Edge(c.scope, c.a, e.b, c.inv != e.inv)
  }

  function Extender(edges: set<Edge>): Edge -> set<Edge> {
    (c: Edge) => Extend(edges, c)
  }

  function Frame(edges: set<Edge>): set<Edge> {
    edges + (set x, y, inv | x in edges && y in edges && inv in {false, true} :: Edge(x.scope, x.a, y.b, inv))
  }

  lemma FrameHolds(edges: set<Edge>)
    ensures Fixpoint.Bounded(edges, Extender(edges), Frame(edges))
  {
  }

  /** `c(k, a, b, d) AS (e UNION c JOIN e)`. */
  function Compose(edges: set<Edge>): set<Edge> {
    FrameHolds(edges);
    Fixpoint.Least(edges, Extender(edges), Frame(edges))
  }

  lemma ComposeIsClosed(edges: set<Edge>)
    ensures edges <= Compose(edges)
    ensures forall c | c in Compose(edges) :: Extend(edges, c) <= Compose(edges)
  {
    FrameHolds(edges);
    Fixpoint.LeastIsClosed(edges, Extender(edges), Frame(edges));
  }

  lemma ComposeIsLeast(edges: set<Edge>, other: set<Edge>)
    requires edges <= other
    requires forall c | c in other :: Extend(edges, c) <= other
    ensures Compose(edges) <= other
  {
    FrameHolds(edges);
    Fixpoint.LeastIsLeast(edges, Extender(edges), Frame(edges), other);
  }

  // ------------------------------------------------------------------ the reference reading

  /** An arc of one graph. */
  datatype Arc = Arc(a: Id, b: Id, inv: bool)

  function ArcsOf(edges: set<Edge>, scope: Id): set<Arc> {
    set e | e in edges && e.scope == scope :: Arc(e.a, e.b, e.inv)
  }

  predicate IsWalk(arcs: set<Arc>, w: seq<Arc>, a: Id, b: Id) {
    && |w| > 0
    && (forall i | 0 <= i < |w| :: w[i] in arcs)
    && (forall i | 0 < i < |w| :: w[i - 1].b == w[i].a)
    && w[0].a == a && w[|w| - 1].b == b
  }

  /** How many inverse arcs a walk takes. */
  function Inverses(w: seq<Arc>): nat {
    if w == [] then 0 else Inverses(w[..|w| - 1]) + if w[|w| - 1].inv then 1 else 0
  }

  /** Some walk from `a` to `b` takes an odd (`inv`) or even number of inverse arcs. */
  ghost predicate Linked(arcs: set<Arc>, a: Id, b: Id, inv: bool) {
    exists w :: IsWalk(arcs, w, a, b) && inv == (Inverses(w) % 2 == 1)
  }

  lemma LinkedArc(arcs: set<Arc>, e: Arc)
    requires e in arcs
    ensures Linked(arcs, e.a, e.b, e.inv)
  {
    var w := [e];
    assert w[..0] == [];
    assert IsWalk(arcs, w, e.a, e.b) && Inverses(w) == if e.inv then 1 else 0;
  }

  lemma LinkedAppend(arcs: set<Arc>, a: Id, b: Id, inv: bool, e: Arc)
    requires Linked(arcs, a, b, inv) && e in arcs && e.a == b
    ensures Linked(arcs, a, e.b, inv != e.inv)
  {
    var w :| IsWalk(arcs, w, a, b) && inv == (Inverses(w) % 2 == 1);
    var longer := w + [e];
    assert longer[..|longer| - 1] == w;
    assert IsWalk(arcs, longer, a, e.b);
    assert Inverses(longer) == Inverses(w) + if e.inv then 1 else 0;
  }

  lemma {:induction false} InversesSplit(v: seq<Arc>, w: seq<Arc>)
    ensures Inverses(v + w) == Inverses(v) + Inverses(w)
    decreases |w|
  {
    if w == [] {
      assert v + w == v;
    } else {
      assert (v + w)[..|v + w| - 1] == v + w[..|w| - 1];
      InversesSplit(v, w[..|w| - 1]);
    }
  }

  /** Walks join, parities add modulo 2. */
  lemma LinkedJoin(arcs: set<Arc>, a: Id, b: Id, c: Id, i: bool, j: bool)
    requires Linked(arcs, a, b, i) && Linked(arcs, b, c, j)
    ensures Linked(arcs, a, c, i != j)
  {
    var v :| IsWalk(arcs, v, a, b) && i == (Inverses(v) % 2 == 1);
    var w :| IsWalk(arcs, w, b, c) && j == (Inverses(w) % 2 == 1);
    InversesSplit(v, w);
    assert IsWalk(arcs, v + w, a, c);
  }

  lemma LinkedMono(small: set<Arc>, big: set<Arc>, a: Id, b: Id, inv: bool)
    requires small <= big && Linked(small, a, b, inv)
    ensures Linked(big, a, b, inv)
  {
    var w :| IsWalk(small, w, a, b) && inv == (Inverses(w) % 2 == 1);
    assert IsWalk(big, w, a, b);
  }

  lemma NoWalkWithoutArcs(a: Id, b: Id, inv: bool)
    ensures !Linked({}, a, b, inv)
  {
  }

  /** A walk of direct arcs only has even parity. */
  lemma {:induction false} DirectWalksAreEven(arcs: set<Arc>, a: Id, b: Id)
    requires forall e | e in arcs :: !e.inv
    ensures !Linked(arcs, a, b, true)
  {
    forall w | IsWalk(arcs, w, a, b)
      ensures Inverses(w) == 0
    {
      NoInverses(w);
    }
  }

  lemma {:induction false} NoInverses(w: seq<Arc>)
    requires forall i | 0 <= i < |w| :: !w[i].inv
    ensures Inverses(w) == 0
  {
    if w != [] {
      NoInverses(w[..|w| - 1]);
    }
  }

  /** The last arc of a walk, and the walk before it. */
  lemma LinkedLast(arcs: set<Arc>, a: Id, b: Id, w: seq<Arc>) returns (e: Arc, v: seq<Arc>)
    requires IsWalk(arcs, w, a, b)
    ensures w == v + [e] && e in arcs && e.b == b
    ensures Inverses(w) == Inverses(v) + if e.inv then 1 else 0
    ensures v == [] ==> e.a == a
    ensures v != [] ==> IsWalk(arcs, v, a, e.a)
  {
    e, v := w[|w| - 1], w[..|w| - 1];
  }

  /** The recursion finds exactly the walks: a row (k, a, b, parity) is there if and only if
      the arcs of graph k have a walk from a to b of that parity. */
  lemma ComposeFindsWalks(edges: set<Edge>, k: Id, a: Id, b: Id, inv: bool)
    ensures Edge(k, a, b, inv) in Compose(edges) <==> Linked(ArcsOf(edges, k), a, b, inv)
  {
    if Edge(k, a, b, inv) in Compose(edges) {
      ComposedIsLinked(edges, Edge(k, a, b, inv));
    }
    if Linked(ArcsOf(edges, k), a, b, inv) {
      var w :| IsWalk(ArcsOf(edges, k), w, a, b) && inv == (Inverses(w) % 2 == 1);
      WalkIsComposed(edges, k, a, b, w);
    }
  }

  ghost predicate RowIsLinked(edges: set<Edge>, c: Edge) {
    Linked(ArcsOf(edges, c.scope), c.a, c.b, c.inv)
  }

  lemma ExtendKeepsLinks(edges: set<Edge>, c: Edge, n: Edge)
    requires RowIsLinked(edges, c) && n in Extend(edges, c)
    ensures RowIsLinked(edges, n)
  {
    var e :| e in edges && e.scope == c.scope && e.a == c.b && n == Edge(c.scope, c.a, e.b, c.inv != e.inv);
    LinkedAppend(ArcsOf(edges, c.scope), c.a, c.b, c.inv, Arc(e.a, e.b, e.inv));
  }

  lemma ComposedIsLinked(edges: set<Edge>, row: Edge)
    requires row in Compose(edges)
    ensures RowIsLinked(edges, row)
  {
    hide Compose, Linked;
    var good := set c | c in Compose(edges) && RowIsLinked(edges, c);
    ComposeIsClosed(edges);
    forall e | e in edges
      ensures e in good
    {
      LinkedArc(ArcsOf(edges, e.scope), Arc(e.a, e.b, e.inv));
    }
    forall c | c in good
      ensures Extend(edges, c) <= good
    {
      forall n | n in Extend(edges, c)
        ensures n in good
      {
        ExtendKeepsLinks(edges, c, n);
      }
    }
    ComposeIsLeast(edges, good);
  }

  lemma {:induction false} WalkIsComposed(edges: set<Edge>, k: Id, a: Id, b: Id, w: seq<Arc>)
    requires IsWalk(ArcsOf(edges, k), w, a, b)
    ensures Edge(k, a, b, Inverses(w) % 2 == 1) in Compose(edges)
    decreases |w|
  {
    ComposeIsClosed(edges);
    var e, v := LinkedLast(ArcsOf(edges, k), a, b, w);
    var edge := Edge(k, e.a, e.b, e.inv);
    if v != [] {
      WalkIsComposed(edges, k, a, e.a, v);
      var c := Edge(k, a, e.a, Inverses(v) % 2 == 1);
      assert Edge(k, a, b, c.inv != edge.inv) in Extend(edges, c);
    }
  }
}
