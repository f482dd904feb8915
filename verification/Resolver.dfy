/** Batched resolution of ids to terms, over as many round trips as triple terms are nested
    (resolve.rs). */
module Resolver {
  import opened Ids
  import opened Encoding
  import opened Dictionaries

  const CHUNK: nat := 400

  /** What a lookup statement asks for. */
  datatype Lookup = TermLookup(ids: seq<int>) | TripleLookup(ids: seq<int>)

  /** A result row of either table. */
  datatype Row = Plain(term: TermRow) | Parts(triple: TripleRow)

  /** What the resolver knows: terms, ids to look up, triple terms whose parts are not all known. */
  datatype State = State(known: map<int, Term>, pending: set<int>, triples: map<int, TripleRow>)

  const DEFAULT_GRAPH_ID: int := 0

  // ------------------------------------------------------------------ the steps

  /** `want`, for an id. */
  function Want(st: State, id: int): State {
    if id == DEFAULT_GRAPH_ID || id in st.known || id in st.triples then st
    else if DecodeInline(id).Some? then st.(known := st.known[id := DecodeInline(id).value])
    else st.(pending := st.pending + {id})
  }

  /** One row of an answer to a lookup of triple terms or of plain ones; `None` is the corruption
      error. */
  function AbsorbRow(st: State, triples: bool, row: Row): Option<State> {
    match row
    case Plain(r) =>
      if !triples && DecodeRow(r).Some? then Some(st.(known := st.known[r.id := DecodeRow(r).value])) else None
    case Parts(r) =>
      if triples then Some(Want(Want(Want(st.(triples := st.triples[r.id := r]), r.s), r.p), r.o)) else None
  }

  function AbsorbRows(st: State, triples: bool, rows: seq<Row>): Option<State> {
    if rows == [] then Some(st)
    else match AbsorbRows(st, triples, rows[..|rows| - 1])
      case None => None
      case Some(mid) => AbsorbRow(mid, triples, rows[|rows| - 1])
  }

  /** The first `n` answers of a response, each under the kind of its lookup. */
  function AbsorbAnswers(st: State, kinds: seq<bool>, response: seq<seq<Row>>, n: nat): Option<State>
    requires n <= |kinds| && n <= |response|
  {
    if n == 0 then Some(st)
    else match AbsorbAnswers(st, kinds, response, n - 1)
      case None => None
      case Some(mid) => AbsorbRows(mid, kinds[n - 1], response[n - 1])
  }

  function Paired(kinds: seq<bool>, response: seq<seq<Row>>): nat {
    if |kinds| <= |response| then |kinds| else |response|
  }

  predicate IsReady(st: State, r: TripleRow) {
    r.s in st.known && r.p in st.known && r.o in st.known
  }

  /** The triple terms whose parts are all known. */
  function Ready(st: State): set<int> {
    set id | id in st.triples && IsReady(st, st.triples[id])
  }

  // ------------------------------------------------------------------ the world it resolves in

  /** The terms in play and, among them, those the dictionary holds, with the parts of every
      triple term; query constants may be in play without being held. */
  datatype World = World(h: Hash, terms: set<Term>, held: set<Term>)

  ghost predicate ValidWorld(w: World, tables: Tables) {
    && w.held <= w.terms
    && (forall t | t in w.terms :: ValidTerm(t))
    && (forall t, u | t in w.terms && u in w.terms :: TermId(w.h, t) == TermId(w.h, u) ==> t == u)
    && (forall t | t in w.held :: Holds(tables, w.h, t))
    && (forall t | t in w.held && t.TripleOf? ::
      SubjectTerm(t.s) in w.held && NamedNode(t.p) in w.held && t.o in w.held)
  }

  ghost function IdsOf(w: World, terms: set<Term>): set<int> {
    set t | t in terms :: TermId(w.h, t)
  }

  ghost function TermAt(w: World, id: int): Term
    requires id in IdsOf(w, w.terms)
  {
    var t :| t in w.terms && TermId(w.h, t) == id;
    t
  }

  /** Everything in the state is what the world says. */
  ghost predicate Sound(w: World, st: State) {
    && (forall id | id in st.known :: id in IdsOf(w, w.terms) && st.known[id] == TermAt(w, id))
    && st.pending <= IdsOf(w, w.held)
    && (forall id | id in st.pending :: DecodeInline(id) == None)
    && (forall id | id in st.triples :: IsTripleOf(w, id, st.triples[id]))
  }

  ghost predicate IsTripleOf(w: World, id: int, r: TripleRow) {
    && id in IdsOf(w, w.terms)
    && var t := TermAt(w, id);
       t in w.held && t.TripleOf? && r == TripleRowFor(w.h, t.s, t.p, t.o)
  }

  /** The terms of a world are its own ids' terms. */
  lemma TermAtId(w: World, tables: Tables, t: Term)
    requires ValidWorld(w, tables) && t in w.terms
    ensures TermId(w.h, t) in IdsOf(w, w.terms) && TermAt(w, TermId(w.h, t)) == t
  {
  }

  /** A ready triple term is made back from its parts. */
  lemma ReadyIsMade(w: World, tables: Tables, st: State, id: int)
    requires ValidWorld(w, tables) && Sound(w, st) && id in Ready(st)
    ensures var r := st.triples[id]; MakeTriple(st.known[r.s], st.known[r.p], st.known[r.o]) == Some(TermAt(w, id))
  {
    hide TermId, TermAt, Hashed, SubjectId, DecodeInline, Holds, ValidTerm;
    var t, r := TermAt(w, id), st.triples[id];
    SubjectIds(w.h, t.s);
    IriIds(w.h, t.p);
    TermAtId(w, tables, SubjectTerm(t.s));
    TermAtId(w, tables, NamedNode(t.p));
    TermAtId(w, tables, t.o);
  }

  lemma SubjectIds(h: Hash, s: Subject)
    ensures TermId(h, SubjectTerm(s)) == SubjectId(h, s)
  {
  }

  lemma IriIds(h: Hash, iri: string)
    ensures TermId(h, NamedNode(iri)) == Hashed(h, IriTag, iri)
  {
  }

  /** Making one ready triple term known. */
  function Fire(st: State, id: int): State
    requires id in Ready(st)
  {
    var r := st.triples[id];
    var made := MakeTriple(st.known[r.s], st.known[r.p], st.known[r.o]);
    var known := if made.Some? then st.known[id := made.value] else st.known;
    st.(known := known, triples := st.triples - {id})
  }

  lemma FireKeepsSound(w: World, tables: Tables, st: State, id: int)
    requires ValidWorld(w, tables) && Sound(w, st) && id in Ready(st)
    ensures Sound(w, Fire(st, id))
    ensures Fire(st, id).known.Keys + Fire(st, id).triples.Keys == st.known.Keys + st.triples.Keys
  {
    hide ValidWorld, TermAt, MakeTriple, DecodeInline;
    ReadyIsMade(w, tables, st, id);
  }

  function Elements(ids: seq<int>): set<int> {
    set id | id in ids
  }

  /** The ids a request asks for, by table. */
  function Asked(lookups: seq<Lookup>, triples: bool): set<int> {
    if lookups == [] then {}
    else
      var last := lookups[|lookups| - 1];
      Asked(lookups[..|lookups| - 1], triples) + (if last.TripleLookup? == triples then Elements(last.ids) else {})
  }

  class TermResolver {
    var known: map<int, Term>
    var pending: set<int>
    var triples: map<int, TripleRow>
    var inFlight: seq<bool>

    function St(): State
      reads this
    {
      State(known, pending, triples)
    }

    constructor (constants: map<int, Term>)
      ensures St() == State(constants, {}, map[]) && inFlight == []
    {
      known, pending, triples, inFlight := constants, {}, map[], [];
    }

    method WantId(id: int)
      modifies this`known, this`pending
      ensures St() == Want(old(St()), id)
    {
      if id == DEFAULT_GRAPH_ID || id in known || id in triples {
        return;
      }
      var inline := DecodeInline(id);
      if inline.Some? {
        known := known[id := inline.value];
        return;
      }
      pending := pending + {id};
    }

    /** Splits ids into lookups of at most `CHUNK` ids. */
    static method Chunks(ids: set<int>, triples: bool) returns (lookups: seq<Lookup>)
      ensures forall l | l in lookups :: l.TripleLookup? == triples && 0 < |l.ids| <= CHUNK
      ensures Asked(lookups, triples) == ids && Asked(lookups, !triples) == {}
    {
      lookups := [];
      var rest := ids;
      while rest != {}
        invariant rest <= ids
        invariant forall l | l in lookups :: l.TripleLookup? == triples && 0 < |l.ids| <= CHUNK
        invariant Asked(lookups, triples) == ids - rest && Asked(lookups, !triples) == {}
        decreases rest
      {
        var chunk: seq<int>, before := [], rest;
        while rest != {} && |chunk| < CHUNK
          invariant rest <= before && |chunk| <= CHUNK
          invariant forall id :: id in before <==> id in chunk || id in rest
          invariant forall id | id in chunk :: id !in rest
          invariant rest == before <==> chunk == []
          decreases rest
        {
          var id := Any(rest);
          chunk := chunk + [id];
          rest := rest - {id};
        }
        var lookup := if triples then TripleLookup(chunk) else TermLookup(chunk);
        OneMoreLookup(lookups, lookup, triples);
        assert forall id :: id in Elements(chunk) <==> id in before && id !in rest;
        lookups := lookups + [lookup];
      }
    }

    /** The next lookups, if anything is unresolved; what was pending is now in flight. */
    method Request() returns (lookups: Option<seq<Lookup>>)
      modifies this`pending, this`inFlight
      ensures lookups.None? <==> old(pending) == {}
      ensures lookups.None? ==> St() == old(St()) && inFlight == old(inFlight)
      ensures lookups.Some? ==>
        && St() == old(St()).(pending := {})
        && inFlight == seq(|lookups.value|, i requires 0 <= i < |lookups.value| => lookups.value[i].TripleLookup?)
        && Asked(lookups.value, true) == (set id | id in old(pending) && TagOf(id) == Some(TripleTag))
        && Asked(lookups.value, false) == (set id | id in old(pending) && TagOf(id) != Some(TripleTag))
        && forall l | l in lookups.value :: 0 < |l.ids| <= CHUNK
    {
      if pending == {} {
        return None;
      }
      var terms := Chunks(set id | id in pending && TagOf(id) != Some(TripleTag), false);
      var triples := Chunks(set id | id in pending && TagOf(id) == Some(TripleTag), true);
      AskedConcat(terms, triples, true);
      AskedConcat(terms, triples, false);
      pending := {};
      var all := terms + triples;
      inFlight := seq(|all|, i requires 0 <= i < |all| => all[i].TripleLookup?);
      return Some(all);
    }

    /** `assemble`: triple terms whose parts are all known become known, pass after pass, until
        none is left ready. In a sound state nothing is forgotten. */
    method Assemble(ghost w: World, ghost tables: Tables)
      modifies this`known, this`triples
      ensures Ready(St()) == {} && pending == old(pending)
      ensures old(known.Keys) <= known.Keys && triples.Keys <= old(triples.Keys)
      ensures ValidWorld(w, tables) && Sound(w, old(St())) ==>
        Sound(w, St()) && known.Keys + triples.Keys == old(known.Keys + triples.Keys)
    {
      hide ValidWorld, Sound, MakeTriple, DecodeInline;
      ghost var sound := ValidWorld(w, tables) && Sound(w, St());
      while true
        invariant old(known.Keys) <= known.Keys && triples.Keys <= old(triples.Keys)
        invariant sound ==> Sound(w, St()) && known.Keys + triples.Keys == old(known.Keys + triples.Keys)
        decreases triples.Keys
      {
        var ready := Ready(St());
        if ready == {} {
          return;
        }
        ghost var before := triples.Keys;
        var rest := ready;
        while rest != {}
          invariant rest <= ready && forall x | x in rest :: x in triples && IsReady(St(), triples[x])
          invariant triples.Keys == before - (ready - rest)
          invariant old(known.Keys) <= known.Keys
          invariant sound ==> Sound(w, St()) && known.Keys + triples.Keys == old(known.Keys + triples.Keys)
          decreases rest
        {
          var id := Any(rest);
          if sound {
            FireKeepsSound(w, tables, St(), id);
          }
          ghost var fired := Fire(St(), id);
          var r := triples[id];
          var made := MakeTriple(known[r.s], known[r.p], known[r.o]);
          triples := triples - {id};
          if made.Some? {
            known := known[id := made.value];
          }
          assert St() == fired;
          rest := rest - {id};
        }
      }
    }

    /** Absorbs the response to the last request; `false` is the corruption error. */
    method Absorb(response: seq<seq<Row>>, ghost w: World, ghost tables: Tables) returns (ok: bool)
      modifies this
      ensures inFlight == []
      ensures var kinds := old(inFlight);
        var absorbed := AbsorbAnswers(old(St()), kinds, response, Paired(kinds, response));
        && (ok <==> absorbed.Some?)
        && (ok ==>
          && Ready(St()) == {} && pending == absorbed.value.pending
          && absorbed.value.known.Keys <= known.Keys && triples.Keys <= absorbed.value.triples.Keys
          && (ValidWorld(w, tables) && Sound(w, absorbed.value) ==>
            Sound(w, St()) && known.Keys + triples.Keys == absorbed.value.known.Keys + absorbed.value.triples.Keys))
    {
      hide ValidWorld, Sound, DecodeRow, DecodeInline, Ready;
      var kinds := inFlight;
      inFlight := [];
      ok := false;
      ghost var n := Paired(kinds, response);
      var i := 0;
      while i < |kinds| && i < |response|
        invariant i <= n && inFlight == []
        invariant AbsorbAnswers(old(St()), kinds, response, i) == Some(St())
      {
        var rows, j := response[i], 0;
        ghost var start := St();
        while j < |rows|
          invariant j <= |rows| && inFlight == []
          invariant AbsorbRows(start, kinds[i], rows[..j]) == Some(St())
        {
          assert rows[..j + 1][..j] == rows[..j];
          match rows[j] {
            case Plain(r) =>
              var decoded := DecodeRow(r);
              if kinds[i] || decoded.None? {
                RowsFail(start, kinds[i], rows, j + 1);
                AnswersFail(old(St()), kinds, response, i + 1, n);
                return;
              }
              known := known[r.id := decoded.value];
            case Parts(r) =>
              if !kinds[i] {
                RowsFail(start, kinds[i], rows, j + 1);
                AnswersFail(old(St()), kinds, response, i + 1, n);
                return;
              }
              triples := triples[r.id := r];
              WantId(r.s);
              WantId(r.p);
              WantId(r.o);
          }
          j := j + 1;
        }
        assert rows[..j] == rows;
        i := i + 1;
      }
      Assemble(w, tables);
      ok := true;
    }

    /** `get`: decodes an id wanted before; `None` is the not-found error. */
    function Get(id: int): Option<Term>
      reads this
    {
      if id in known then Some(known[id]) else DecodeInline(id)
    }
  }

  /** An error in a row is an error in every longer list. */
  lemma {:induction false} RowsFail(st: State, triples: bool, rows: seq<Row>, n: nat)
    requires n <= |rows| && AbsorbRows(st, triples, rows[..n]) == None
    ensures AbsorbRows(st, triples, rows) == None
    decreases |rows|
  {
    if n == |rows| {
      assert rows[..n] == rows;
    } else {
      assert rows[..|rows| - 1][..n] == rows[..n];
      RowsFail(st, triples, rows[..|rows| - 1], n);
    }
  }

  lemma {:induction false} AnswersFail(st: State, kinds: seq<bool>, response: seq<seq<Row>>, n: nat, m: nat)
    requires n <= m <= |kinds| && m <= |response| && AbsorbAnswers(st, kinds, response, n) == None
    ensures AbsorbAnswers(st, kinds, response, m) == None
  {
    if n < m {
      AnswersFail(st, kinds, response, n, m - 1);
    }
  }

  lemma OneMoreLookup(lookups: seq<Lookup>, last: Lookup, triples: bool)
    requires last.TripleLookup? == triples
    ensures Asked(lookups + [last], triples) == Asked(lookups, triples) + Elements(last.ids)
    ensures Asked(lookups + [last], !triples) == Asked(lookups, !triples)
  {
    assert (lookups + [last])[..|lookups|] == lookups;
  }

  lemma {:induction false} AskedConcat(a: seq<Lookup>, b: seq<Lookup>, triples: bool)
    ensures Asked(a + b, triples) == Asked(a, triples) + Asked(b, triples)
    decreases |b|
  {
    if b == [] {
      assert a + b == a;
    } else {
      var front := b[..|b| - 1];
      AskedConcat(a, front, triples);
      assert (a + b)[..|a + b| - 1] == a + front;
    }
  }

  /** Some element of a set. */
  method Any<T(==)>(s: set<T>) returns (x: T)
    requires s != {}
    ensures x in s
  {
    x :| x in s;
  }
}
