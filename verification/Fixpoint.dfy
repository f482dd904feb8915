/** The meaning of `WITH RECURSIVE r AS (seed UNION step)`: the least set of rows that
    contains the seed and is closed under a step reading one row at a time (every recursion
    oxilite emits is linear). `UNION` drops rows seen before, which is what ends it. */
module Fixpoint {

  /** `rows` already contains every successor of its rows. */
  predicate Closed<R(==)>(rows: set<R>, step: R -> set<R>) {
    forall x | x in rows :: step(x) <= rows
  }

  /** A finite frame for the recursion: it holds the seed and is never left. */
  predicate Bounded<R(==)>(seed: set<R>, step: R -> set<R>, universe: set<R>) {
    seed <= universe && Closed(universe, step)
  }

  function Successors<R(==)>(rows: set<R>, step: R -> set<R>): set<R> {
    set x, y | x in rows && y in step(x) :: y
  }

  /** The least closed superset of `seed`, by whole rounds. */
  function Least<R(==)>(seed: set<R>, step: R -> set<R>, universe: set<R>): set<R>
    requires Bounded(seed, step, universe)
    decreases universe - seed
  {
    var next := Successors(seed, step);
    if next <= seed then seed else Least(seed + next, step, universe)
  }

  /** The recursion's result contains the seed, is closed, and stays in the frame. */
  lemma {:induction false} LeastIsClosed<R>(seed: set<R>, step: R -> set<R>, universe: set<R>)
    requires Bounded(seed, step, universe)
    ensures seed <= Least(seed, step, universe) <= universe
    ensures Closed(Least(seed, step, universe), step)
    decreases universe - seed
  {
    var next := Successors(seed, step);
    if !(next <= seed) {
      LeastIsClosed(seed + next, step, universe);
    } else {
      assert forall x, y | x in seed && y in step(x) :: y in next;
    }
  }

  /** Nothing smaller will do: every closed superset of the seed contains the result. */
  lemma {:induction false} LeastIsLeast<R>(seed: set<R>, step: R -> set<R>, universe: set<R>, other: set<R>)
    requires Bounded(seed, step, universe)
    requires seed <= other && Closed(other, step)
    ensures Least(seed, step, universe) <= other
    decreases universe - seed
  {
    var next := Successors(seed, step);
    if !(next <= seed) {
      LeastIsLeast(seed + next, step, universe, other);
    }
  }

  /** How SQLite evaluates the recursion: a queue, one row taken at a time, new rows kept. */
  method WithRecursive<R(==)>(seed: set<R>, step: R -> set<R>, ghost universe: set<R>) returns (rows: set<R>)
    requires Bounded(seed, step, universe)
    ensures rows == Least(seed, step, universe)
  {
    LeastIsClosed(seed, step, universe);
    var queue := seed;
    rows := seed;
    while queue != {}
      invariant seed <= rows <= Least(seed, step, universe)
      invariant queue <= rows
      invariant forall x | x in rows && x !in queue :: step(x) <= rows
      decreases universe - rows, queue
    {
      var x :| x in queue;
      var unseen := step(x) - rows;
      assert step(x) <= Least(seed, step, universe);
      assert forall y | y in step(x) :: y in rows || y in unseen;
      if unseen == {} {
        queue := queue - {x};
      } else {
        var y :| y in unseen;
        assert y in universe - rows;
        queue := queue - {x} + unseen;
        rows := rows + unseen;
      }
    }
    LeastIsLeast(seed, step, universe, rows);
  }
}
