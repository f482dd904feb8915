/** DESCRIBE: the description of a resource, followed through blank-node objects (query.rs). */
module Describe {
  import opened Ids
  import opened Encoding
  import opened Dictionaries
  import opened Resolver
  import opened RoundTrips

  datatype Fact = Fact(s: int, p: int, o: int)

  datatype StoredQuad = StoredQuad(s: int, p: int, o: int, g: int)

  /** What the request reads: the default graph, or the union of all graphs. */
  function Visible(quads: set<StoredQuad>, union: bool): set<Fact> {
    set q | q in quads && (union || q.g == DEFAULT_GRAPH_ID) :: Fact(q.s, q.p, q.o)
  }

  /** Only IRIs and blank nodes are described. */
  predicate IsDescribable(id: int) {
    TagOf(id) == Some(IriTag) || TagOf(id) == Some(BlankTag)
  }

  predicate IsBlank(id: int) {
    TagOf(id) == Some(BlankTag)
  }

  // ------------------------------------------------------------------ what is to be described

  /** A chain of facts from a seed, each object but the seed a blank node. */
  predicate IsChain(facts: set<Fact>, seeds: seq<int>, chain: seq<int>) {
    && chain != [] && chain[0] in seeds && IsDescribable(chain[0])
    && (forall i | 0 < i < |chain| :: IsBlank(chain[i]) && Links(facts, chain[i - 1], chain[i]))
  }

  predicate Links(facts: set<Fact>, a: int, b: int) {
    exists f :: f in facts && f.s == a && f.o == b
  }

  /** The subjects a DESCRIBE is about. */
  ghost predicate Described(facts: set<Fact>, seeds: seq<int>, x: int) {
    exists chain :: IsChain(facts, seeds, chain) && chain[|chain| - 1] == x
  }

  lemma SeedsAreDescribed(facts: set<Fact>, seeds: seq<int>, x: int)
    requires x in seeds && IsDescribable(x)
    ensures Described(facts, seeds, x)
  {
    assert IsChain(facts, seeds, [x]);
  }

  lemma BlankObjectsAreDescribed(facts: set<Fact>, seeds: seq<int>, f: Fact)
    requires f in facts && IsBlank(f.o) && Described(facts, seeds, f.s)
    ensures Described(facts, seeds, f.o)
  {
    var chain :| IsChain(facts, seeds, chain) && chain[|chain| - 1] == f.s;
    assert IsChain(facts, seeds, chain + [f.o]);
  }

  /** A set with the seeds that is closed under blank-node objects has everything described. */
  lemma {:induction false} ClosedHasTheDescribed(facts: set<Fact>, seeds: seq<int>, closed: set<int>, chain: seq<int>)
    requires forall x | x in seeds && IsDescribable(x) :: x in closed
    requires forall f | f in facts && f.s in closed && IsBlank(f.o) :: f.o in closed
    requires IsChain(facts, seeds, chain)
    ensures chain[|chain| - 1] in closed
    decreases |chain|
  {
    if |chain| > 1 {
      var front := chain[..|chain| - 1];
      ClosedHasTheDescribed(facts, seeds, closed, front);
      assert Links(facts, chain[|chain| - 2], chain[|chain| - 1]);
    }
  }

  // ------------------------------------------------------------------ the step machine

  predicate NoDuplicates<T(==)>(s: seq<T>) {
    forall i, j | 0 <= i < j < |s| :: s[i] != s[j]
  }

  function Join<T>(parts: seq<seq<T>>): seq<T> {
    if parts == [] then [] else Join(parts[..|parts| - 1]) + parts[|parts| - 1]
  }

  function BlankObjects(rows: seq<Fact>): seq<int> {
    if rows == [] then []
    else
      var front, o := BlankObjects(rows[..|rows| - 1]), rows[|rows| - 1].o;
      if IsBlank(o) then front + [o] else front
  }

  lemma JoinOne<T>(parts: seq<seq<T>>, last: seq<T>)
    ensures Join(parts + [last]) == Join(parts) + last
  {
    assert (parts + [last])[..|parts|] == parts;
  }

  lemma {:induction false} BlankObjectsAre(rows: seq<Fact>)
    ensures forall x :: x in BlankObjects(rows) <==> IsBlank(x) && exists f :: f in rows && f.o == x
    decreases |rows|
  {
    if rows != [] {
      var front, last := rows[..|rows| - 1], rows[|rows| - 1];
      BlankObjectsAre(front);
      assert forall f :: f in rows <==> f in front || f == last;
    }
  }

  lemma {:induction false} JoinPrefix<T>(parts: seq<seq<T>>, i: nat)
    requires i <= |parts|
    ensures Join(parts[..i]) <= Join(parts)
    decreases |parts|
  {
    if i == |parts| {
      assert parts[..i] == parts;
    } else {
      assert parts[..|parts| - 1][..i] == parts[..i];
      JoinPrefix(parts[..|parts| - 1], i);
    }
  }

  lemma NewIsDone(rest: seq<int>, before: set<int>, after: set<int>)
    requires rest != [] && forall x :: x in rest <==> x in after && x !in before
    ensures after != before
  {
    var x := rest[0];
    assert x in rest;
    assert x in after && x !in before;
  }

  class DescribeJob {
    var done: set<int>
    var quads: seq<Fact>

    constructor ()
      ensures done == {} && quads == []
    {
      done, quads := {}, [];
    }

    /** `describe_request`: the describable ids not asked for before, in chunks; they are done. */
    method Request(ids: seq<int>) returns (chunks: Option<seq<seq<int>>>)
      modifies this`done
      ensures forall x :: x in done <==> x in old(done) || (x in ids && IsDescribable(x))
      ensures chunks.None? <==> done == old(done)
      ensures chunks.Some? ==>
        && Join(chunks.value) != [] && NoDuplicates(Join(chunks.value))
        && (forall chunk | chunk in chunks.value :: 0 < |chunk| <= CHUNK)
        && (forall x :: x in Join(chunks.value) <==> x in done && x !in old(done))
    {
      var rest := [];
      for i := 0 to |ids|
        invariant forall x :: x in done <==> x in old(done) || (x in ids[..i] && IsDescribable(x))
        invariant NoDuplicates(rest) && forall x :: x in rest <==> x in done && x !in old(done)
      {
        if IsDescribable(ids[i]) && ids[i] !in done {
          done := done + {ids[i]};
          rest := rest + [ids[i]];
        }
      }
      if rest == [] {
        assert forall x :: x in done <==> x in old(done);
        return None;
      }
      NewIsDone(rest, old(done), done);
      var parts := Chunked(rest);
      return Some(parts);
    }

    /** `chunks`: cuts a list into pieces of at most `CHUNK`. */
    static method Chunked<T>(all: seq<T>) returns (parts: seq<seq<T>>)
      ensures Join(parts) == all && forall part | part in parts :: 0 < |part| <= CHUNK
    {
      parts := [];
      var i := 0;
      while i < |all|
        invariant 0 <= i <= |all| && Join(parts) == all[..i]
        invariant forall part | part in parts :: 0 < |part| <= CHUNK
      {
        var end := if i + CHUNK <= |all| then i + CHUNK else |all|;
        JoinOne(parts, all[i..end]);
        assert all[..i] + all[i..end] == all[..end];
        parts := parts + [all[i..end]];
        i := end;
      }
      assert all[..i] == all;
    }

    /** Absorbs the rows of a request; what comes next are their blank-node objects. */
    method Absorb(response: seq<seq<Fact>>) returns (next: seq<int>)
      modifies this`quads
      ensures quads == old(quads) + Join(response)
      ensures next == BlankObjects(Join(response))
    {
      next := [];
      for i := 0 to |response|
        invariant quads == old(quads) + Join(response[..i])
        invariant next == BlankObjects(Join(response[..i]))
      {
        assert Join(response[..i]) + response[i][..0] == Join(response[..i]);
        for j := 0 to |response[i]|
          invariant quads == old(quads) + (Join(response[..i]) + response[i][..j])
          invariant next == BlankObjects(Join(response[..i]) + response[i][..j])
        {
          var f, before := response[i][j], Join(response[..i]) + response[i][..j];
          assert Join(response[..i]) + response[i][..j + 1] == before + [f];
          assert (before + [f])[..|before|] == before;
          quads := quads + [f];
          if TagOf(f.o) == Some(BlankTag) {
            next := next + [f.o];
          }
        }
        JoinOne(response[..i], response[i]);
        assert response[..i + 1] == response[..i] + [response[i]];
        assert response[i][..|response[i]|] == response[i];
      }
      assert response[..|response|] == response;
    }
  }

  // ------------------------------------------------------------------ whole runs

  /** The rows the store answers for one lookup of subjects. */
  ghost predicate IsAnswer(facts: set<Fact>, chunk: seq<int>, rows: seq<Fact>) {
    NoDuplicates(rows) && forall f :: f in rows <==> f in facts && f.s in chunk
  }

  /** The database's side: each fact with a wanted subject once. */
  method Select(facts: set<Fact>, chunk: seq<int>) returns (rows: seq<Fact>)
    ensures IsAnswer(facts, chunk, rows)
  {
    rows := [];
    var rest := facts;
    while rest != {}
      invariant rest <= facts && NoDuplicates(rows)
      invariant forall f :: f in rows <==> f in facts - rest && f.s in chunk
      decreases rest
    {
      var f :| f in rest;
      if f.s in chunk {
        rows := rows + [f];
      }
      rest := rest - {f};
    }
  }

  method SelectAll(facts: set<Fact>, chunks: seq<seq<int>>) returns (response: seq<seq<Fact>>)
    requires NoDuplicates(Join(chunks))
    ensures IsAnswer(facts, Join(chunks), Join(response))
  {
    response := [];
    for i := 0 to |chunks|
      invariant IsAnswer(facts, Join(chunks[..i]), Join(response))
    {
      var rows := Select(facts, chunks[i]);
      JoinOne(chunks[..i], chunks[i]);
      assert chunks[..i + 1] == chunks[..i] + [chunks[i]];
      JoinPrefix(chunks, i + 1);
      NextAnswer(facts, Join(chunks[..i]), chunks[i], Join(response), rows);
      JoinOne(response, rows);
      response := response + [rows];
    }
    assert chunks[..|chunks|] == chunks;
  }

  /** Answers to different subjects have no row in common. */
  lemma NextAnswer(facts: set<Fact>, before: seq<int>, chunk: seq<int>, answered: seq<Fact>, rows: seq<Fact>)
    requires NoDuplicates(before + chunk) && IsAnswer(facts, before, answered) && IsAnswer(facts, chunk, rows)
    ensures IsAnswer(facts, before + chunk, answered + rows)
  {
    forall i, j | 0 <= i < |answered| && 0 <= j < |rows|
      ensures answered[i] != rows[j]
    {
      assert answered[i] in answered && rows[j] in rows;
      var a :| 0 <= a < |before| && before[a] == answered[i].s;
      var b :| 0 <= b < |chunk| && chunk[b] == rows[j].s;
      assert (before + chunk)[a] != (before + chunk)[|before| + b];
    }
    assert forall f :: f in answered + rows <==> f in answered || f in rows;
    assert forall x :: x in before + chunk <==> x in before || x in chunk;
  }

  /** Everything asked for and answered, or in the next request, is described; so are the blank
      objects of the answers. */
  ghost predicate Collecting(facts: set<Fact>, seeds: seq<int>, done: set<int>, quads: seq<Fact>, asked: seq<int>,
      batch: seq<int>) {
    && NoDuplicates(asked + batch) && (forall x :: x in done <==> x in asked || x in batch)
    && (forall x | x in done :: Described(facts, seeds, x))
    && (forall x | x in seeds && IsDescribable(x) :: x in done)
    && IsAnswer(facts, asked, quads)
    && (forall f | f in quads && IsBlank(f.o) :: f.o in done)
  }

  function Candidates(facts: set<Fact>, seeds: seq<int>): set<int> {
    (set x | x in seeds) + (set f | f in facts :: f.o)
  }

  lemma DescribedAreCandidates(facts: set<Fact>, seeds: seq<int>, x: int)
    requires Described(facts, seeds, x)
    ensures x in Candidates(facts, seeds)
  {
    var chain :| IsChain(facts, seeds, chain) && chain[|chain| - 1] == x;
    if |chain| > 1 {
      assert Links(facts, chain[|chain| - 2], x);
    }
  }

  lemma CollectingEnds(facts: set<Fact>, seeds: seq<int>, done: set<int>, quads: seq<Fact>, asked: seq<int>)
    requires Collecting(facts, seeds, done, quads, asked, [])
    ensures forall x :: x in done <==> Described(facts, seeds, x)
    ensures forall f :: f in quads <==> f in facts && Described(facts, seeds, f.s)
    ensures forall x :: x in asked <==> x in done
  {
    forall x | Described(facts, seeds, x)
      ensures x in done
    {
      var chain :| IsChain(facts, seeds, chain) && chain[|chain| - 1] == x;
      ClosedHasTheDescribed(facts, seeds, done, chain);
    }
  }

  /** A batch is answered and its new blank objects are the next batch. */
  lemma CollectingGoesOn(facts: set<Fact>, seeds: seq<int>, done: set<int>, quads: seq<Fact>, asked: seq<int>,
      batch: seq<int>,
                         rows: seq<Fact>, done': set<int>, batch': seq<int>)
    requires Collecting(facts, seeds, done, quads, asked, batch) && IsAnswer(facts, batch, rows)
    requires forall x :: x in done' <==> x in done || (x in BlankObjects(rows) && IsDescribable(x))
    requires NoDuplicates(batch') && forall x :: x in batch' <==> x in done' && x !in done
    ensures Collecting(facts, seeds, done', quads + rows, asked + batch, batch')
  {
    BlankObjectsAre(rows);
    NextAnswer(facts, asked, batch, quads, rows);
    forall x | x in done'
      ensures Described(facts, seeds, x)
    {
      if x !in done {
        var f :| f in rows && f.o == x;
        BlankObjectsAreDescribed(facts, seeds, f);
      }
    }
    NewBatch(asked, batch, batch', done);
    assert forall f :: f in quads + rows <==> f in quads || f in rows;
  }

  lemma NewBatch(asked: seq<int>, batch: seq<int>, batch': seq<int>, done: set<int>)
    requires NoDuplicates(asked + batch) && (forall x :: x in done <==> x in asked || x in batch)
    requires NoDuplicates(batch') && forall x | x in batch' :: x !in done
    ensures NoDuplicates(asked + batch + batch')
    ensures forall x :: x in asked + batch <==> x in done
  {
    var all := asked + batch;
    forall i, j | 0 <= i < |all| && 0 <= j < |batch'|
      ensures all[i] != batch'[j]
    {
      assert all[i] in all && batch'[j] in batch';
      assert all[i] in asked || all[i] in batch;
    }
  }

  /** The DESCRIBE rounds, cyclic blank nodes or not: they end, each described subject is asked for
      once and nothing else is, and each fact of a described subject is collected once. */
  method Collect(facts: set<Fact>, seeds: seq<int>) returns (job: DescribeJob, ghost asked: seq<int>)
    ensures fresh(job)
    ensures NoDuplicates(job.quads) && forall f :: f in job.quads <==> f in facts && Described(facts, seeds, f.s)
    ensures NoDuplicates(asked) && forall x :: x in asked <==> Described(facts, seeds, x)
  {
    hide Described, IsDescribable, IsBlank, Collecting, BlankObjects, Candidates;
    job := new DescribeJob();
    asked := [];
    var request := job.Request(seeds);
    ghost var batch := if request.Some? then Join(request.value) else [];
    CollectingStarts(facts, seeds, job.done, batch);
    while request.Some?
      invariant Collecting(facts, seeds, job.done, job.quads, asked, batch)
      invariant batch == if request.Some? then Join(request.value) else []
      invariant request.Some? ==> batch != []
      decreases Candidates(facts, seeds) - Elements(asked)
    {
      ghost var done, quads := job.done, job.quads;
      CollectingUnique(facts, seeds, done, quads, asked, batch);
      var response := SelectAll(facts, request.value);
      var next := job.Absorb(response);
      request := job.Request(next);
      ghost var batch' := if request.Some? then Join(request.value) else [];
      CollectingGoesOn(facts, seeds, done, quads, asked, batch, Join(response), job.done, batch');
      Shrinks(facts, seeds, done, quads, asked, batch);
      asked, batch := asked + batch, batch';
    }
    CollectingEnds(facts, seeds, job.done, job.quads, asked);
    CollectingUnique(facts, seeds, job.done, job.quads, asked, []);
  }

  lemma CollectingStarts(facts: set<Fact>, seeds: seq<int>, done: set<int>, batch: seq<int>)
    requires forall x :: x in done <==> x in seeds && IsDescribable(x)
    requires NoDuplicates(batch) && forall x :: x in batch <==> x in done
    ensures Collecting(facts, seeds, done, [], [], batch)
  {
    assert [] + batch == batch;
    forall x | x in done
      ensures Described(facts, seeds, x)
    {
      SeedsAreDescribed(facts, seeds, x);
    }
  }

  lemma CollectingUnique(facts: set<Fact>, seeds: seq<int>, done: set<int>, quads: seq<Fact>, asked: seq<int>,
      batch: seq<int>)
    requires Collecting(facts, seeds, done, quads, asked, batch)
    ensures NoDuplicates(batch) && NoDuplicates(asked) && NoDuplicates(quads)
  {
    var all := asked + batch;
    assert forall i | 0 <= i < |asked| :: all[i] == asked[i];
    assert forall i | 0 <= i < |batch| :: all[|asked| + i] == batch[i];
  }

  lemma Shrinks(facts: set<Fact>, seeds: seq<int>, done: set<int>, quads: seq<Fact>, asked: seq<int>, batch: seq<int>)
    requires Collecting(facts, seeds, done, quads, asked, batch) && batch != []
    ensures Candidates(facts, seeds) - Elements(asked + batch) < Candidates(facts, seeds) - Elements(asked)
  {
    var x := batch[0];
    assert x in batch;
    assert x in done;
    DescribedAreCandidates(facts, seeds, x);
    assert (asked + batch)[|asked|] == x;
    assert forall i | 0 <= i < |asked| :: (asked + batch)[i] == asked[i];
    assert forall i | 0 <= i < |asked| :: asked[i] != x;
    assert forall y | y in asked :: y in asked + batch;
    assert x in asked + batch;
    assert x in Candidates(facts, seeds) - Elements(asked) && x !in Candidates(facts, seeds) - Elements(asked + batch);
  }

  // ------------------------------------------------------------------ the answer

  /** Every id of the facts is held by the dictionary. */
  ghost predicate FactsAreHeld(w: World, facts: set<Fact>, depth: nat) {
    forall f | f in facts :: IsHeld(w, f.s, depth) && IsHeld(w, f.p, depth) && IsHeld(w, f.o, depth)
  }

  ghost predicate IsHeld(w: World, id: int, depth: nat) {
    id in IdsOf(w, w.held) && id in IdsOf(w, w.terms) && Depth(TermAt(w, id)) <= depth && id != DEFAULT_GRAPH_ID
  }

  /** A fact is the ids of a triple; none if its predicate or subject cannot be one. */
  ghost predicate StandsFor(w: World, f: Fact, t: Term) {
    && f.s in IdsOf(w, w.terms) && f.p in IdsOf(w, w.terms) && f.o in IdsOf(w, w.terms)
    && MakeTriple(TermAt(w, f.s), TermAt(w, f.p), TermAt(w, f.o)) == Some(t)
  }

  predicate HasId(f: Fact, x: int) {
    x == f.s || x == f.p || x == f.o
  }

  /** The ids wanted while facts are absorbed. */
  function WantedIds(quads: seq<Fact>): seq<int> {
    if quads == [] then []
    else WantedIds(quads[..|quads| - 1]) + [quads[|quads| - 1].s, quads[|quads| - 1].p, quads[|quads| - 1].o]
  }

  lemma {:induction false} WantedIdsCome(quads: seq<Fact>, x: int)
    requires x in WantedIds(quads)
    ensures exists f :: f in quads && HasId(f, x)
    decreases |quads|
  {
    var front, f := quads[..|quads| - 1], quads[|quads| - 1];
    if x in WantedIds(front) {
      WantedIdsCome(front, x);
    } else {
      assert f in quads && HasId(f, x);
    }
  }

  lemma {:induction false} WantedIdsHave(quads: seq<Fact>, f: Fact, x: int)
    requires f in quads && HasId(f, x)
    ensures x in WantedIds(quads)
    decreases |quads|
  {
    var front, last := quads[..|quads| - 1], quads[|quads| - 1];
    if f in front {
      WantedIdsHave(front, f, x);
    } else {
      var ids := WantedIds(quads);
      assert f == last;
      assert ids[|ids| - 3] == f.s && ids[|ids| - 2] == f.p && ids[|ids| - 1] == f.o;
    }
  }

  ghost predicate Yields(w: World, rows: seq<Fact>, t: Term) {
    exists f :: f in rows && StandsFor(w, f, t)
  }

  /** The resolver has every id of the facts. */
  ghost predicate Resolved(w: World, resolver: TermResolver, rows: seq<Fact>)
    reads resolver
  {
    forall f, x | f in rows && HasId(f, x) :: x in IdsOf(w, w.terms) && resolver.Get(x) == Some(TermAt(w, x))
  }

  /** `finish`: the collected facts, decoded, each triple once. */
  method Finish(resolver: TermResolver, quads: seq<Fact>, ghost w: World) returns (out: seq<Term>)
    requires Resolved(w, resolver, quads)
    ensures NoDuplicates(out) && forall t :: t in out <==> Yields(w, quads, t)
  {
    hide TermAt, IdsOf, MakeTriple, DecodeInline;
    out := [];
    for i := 0 to |quads|
      invariant NoDuplicates(out) && forall t :: t in out <==> Yields(w, quads[..i], t)
    {
      var f := quads[i];
      assert HasId(f, f.s) && HasId(f, f.p) && HasId(f, f.o);
      assert forall g :: g in quads[..i + 1] <==> g in quads[..i] || g == f;
      assert forall t :: Yields(w, quads[..i + 1], t) <==> Yields(w, quads[..i], t) || StandsFor(w, f, t);
      var s, p, o := resolver.Get(f.s), resolver.Get(f.p), resolver.Get(f.o);
      if s.Some? && p.Some? && o.Some? {
        var made := MakeTriple(s.value, p.value, o.value);
        if made.Some? && made.value !in out {
          out := out + [made.value];
        }
      }
    }
    assert quads[..|quads|] == quads;
  }

  /** A whole DESCRIBE: exactly the triples of the described subjects, each once. */
  method Describe(quads: set<StoredQuad>, union: bool, seeds: seq<int>, tables: Tables, ghost w: World,
      ghost depth: nat)
    returns (out: seq<Term>)
    requires ValidWorld(w, tables) && FactsAreHeld(w, Visible(quads, union), depth)
    ensures NoDuplicates(out)
    ensures forall t :: t in out <==>
      exists f :: f in Visible(quads, union) && Described(Visible(quads, union), seeds, f.s) && StandsFor(w, f, t)
  {
    hide ValidWorld, Described, TermAt, StandsFor, IdsOf, Depth, Visible, FactsAreHeld, Resolved, HasId, WantedIds,
      DecodeInline;
    var facts := Visible(quads, union);
    var job, asked := Collect(facts, seeds);
    ghost var rows := job.quads;
    var ids := WantedIds(job.quads);
    IdsAreWanted(w, facts, rows, depth);
    var resolver, rounds := Resolve(tables, map[], ids, w, depth);
    FactsAreResolved(w, resolver, facts, rows, depth);
    out := Finish(resolver, job.quads, w);
  }

  lemma IdsAreWanted(w: World, facts: set<Fact>, rows: seq<Fact>, depth: nat)
    requires FactsAreHeld(w, facts, depth) && forall f | f in rows :: f in facts
    ensures Wanted(w, map[], WantedIds(rows), depth)
  {
    hide IdsOf, TermAt, Depth;
    forall x | x in WantedIds(rows)
      ensures IsHeld(w, x, depth)
    {
      WantedIdsCome(rows, x);
    }
  }

  lemma FactsAreResolved(w: World, resolver: TermResolver, facts: set<Fact>, rows: seq<Fact>, depth: nat)
    requires FactsAreHeld(w, facts, depth) && forall f | f in rows :: f in facts
    requires forall x | x in WantedIds(rows) && x != DEFAULT_GRAPH_ID ::
      x in IdsOf(w, w.terms) && resolver.Get(x) == Some(TermAt(w, x))
    ensures Resolved(w, resolver, rows)
  {
    hide IdsOf, TermAt, Depth, DecodeInline;
    forall f, x | f in rows && HasId(f, x)
      ensures x in IdsOf(w, w.terms) && resolver.Get(x) == Some(TermAt(w, x))
    {
      WantedIdsHave(rows, f, x);
      assert IsHeld(w, x, depth);
    }
  }
}
