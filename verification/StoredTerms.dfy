/** The whole way: encode terms, store their rows, resolve their ids (encoding.rs, writer.rs,
    resolve.rs). */
module StoredTerms {
  import opened Ids
  import opened Encoding
  import opened Dictionaries
  import opened Resolver
  import opened RoundTrips

  // ------------------------------------------------------------------ the parts of a term

  function Parts(t: Term): set<Term> {
    {t} + (if t.TripleOf? then {SubjectTerm(t.s), NamedNode(t.p)} + Parts(t.o) else {})
  }

  function AllParts(ts: seq<Term>): set<Term> {
    set t, u | t in ts && u in Parts(t) :: u
  }

  predicate MakesRow(h: Hash, u: Term, r: TermRow) {
    !u.TripleOf? && RowOf(h, u) == Some(r)
  }

  predicate MakesTripleRow(h: Hash, u: Term, r: TripleRow) {
    u.TripleOf? && r == TripleRowFor(h, u.s, u.p, u.o)
  }

  /** Every row recorded for a term is the row of one of its parts. */
  lemma {:induction false} RowsArePartsRows(h: Hash, t: Term)
    ensures forall r | r in TermRowsOf(h, t) :: exists u :: u in Parts(t) && MakesRow(h, u, r)
    ensures forall r | r in TripleRowsOf(h, t) :: exists u :: u in Parts(t) && MakesTripleRow(h, u, r)
  {
    hide Hashed, TermId, EncodeLiteral;
    if t.TripleOf? {
      RowsArePartsRows(h, t.o);
      assert MakesRow(h, SubjectTerm(t.s), SubjectRow(h, t.s));
      assert MakesRow(h, NamedNode(t.p), IriRow(h, t.p));
      assert MakesTripleRow(h, t, TripleRowFor(h, t.s, t.p, t.o));
    } else {
      assert forall r | r in TermRowsOf(h, t) :: MakesRow(h, t, r);
    }
  }

  /** And the row of every part is recorded. */
  lemma {:induction false} PartsRowsAreRecorded(h: Hash, t: Term, u: Term, r: TermRow)
    requires u in Parts(t) && MakesRow(h, u, r)
    ensures r in TermRowsOf(h, t)
  {
    hide Hashed, TermId, EncodeLiteral;
    if t.TripleOf? {
      if u in Parts(t.o) {
        PartsRowsAreRecorded(h, t.o, u, r);
      } else {
        assert TermRowsOf(h, t)[0] == SubjectRow(h, t.s) && TermRowsOf(h, t)[1] == IriRow(h, t.p);
      }
    }
  }

  lemma {:induction false} PartsAreHeld(tables: Tables, h: Hash, t: Term)
    requires Holds(tables, h, t)
    ensures forall u | u in Parts(t) :: Holds(tables, h, u)
  {
    hide Hashed, TermId, EncodeLiteral;
    if t.TripleOf? {
      assert forall r | r in TermRowsOf(h, t.o) :: r in TermRowsOf(h, t);
      assert forall r | r in TripleRowsOf(h, t.o) :: r in TripleRowsOf(h, t);
      PartsAreHeld(tables, h, t.o);
      assert TermRowsOf(h, SubjectTerm(t.s)) == [TermRowsOf(h, t)[0]];
      assert TermRowsOf(h, NamedNode(t.p)) == [TermRowsOf(h, t)[1]];
    }
  }

  lemma {:induction false} PartsAreClosed(t: Term)
    ensures t in Parts(t) && (ValidTerm(t) ==> forall u | u in Parts(t) :: ValidTerm(u))
    ensures forall u | u in Parts(t) && u.TripleOf? ::
      SubjectTerm(u.s) in Parts(t) && NamedNode(u.p) in Parts(t) && u.o in Parts(t)
  {
    if t.TripleOf? {
      PartsAreClosed(t.o);
    }
  }

  // ------------------------------------------------------------------ collisions

  /** Different terms have different ids; and the triple terms already stored under these ids are
      these. (Plain rows need no such assumption: the collision trigger checks them.) */
  ghost predicate NoCollision(h: Hash, terms: set<Term>, tables: Tables) {
    && (forall t, u | t in terms && u in terms :: TermId(h, t) == TermId(h, u) ==> t == u)
    && (forall t | t in terms && t.TripleOf? && TermId(h, t) in tables.triples ::
      tables.triples[TermId(h, t)] == TripleRowFor(h, t.s, t.p, t.o))
  }

  ghost predicate Clashes(r: TermRow, tables: Tables) {
    r.id in tables.terms && tables.terms[r.id] != r
  }

  /** A row of these clashes with a stored row: same id, other columns. */
  ghost predicate Clash(terms: seq<TermRow>, tables: Tables) {
    exists r :: r in terms && Clashes(r, tables)
  }

  /** The row of some term clashes with a stored row. */
  ghost predicate TermsClash(h: Hash, terms: set<Term>, tables: Tables) {
    exists u, r :: u in terms && MakesRow(h, u, r) && Clashes(r, tables)
  }

  /** Storing is refused exactly for a clash with a stored row. */
  lemma {:induction false} RefusedIffClash(terms: seq<TermRow>, tables: Tables)
    requires forall r, q | r in terms && q in terms :: r.id == q.id ==> r == q
    ensures InsertTerms(terms, tables).None? <==> Clash(terms, tables)
    decreases |terms|
  {
    if terms != [] {
      var r, rest := terms[0], terms[1..];
      assert forall q | q in terms :: q == r || q in rest;
      if r.id !in tables.terms {
        var next := tables.(terms := tables.terms[r.id := r]);
        RefusedIffClash(rest, next);
        forall q | q in terms
          ensures Clashes(q, next) <==> Clashes(q, tables)
        {
          assert q.id == r.id ==> q == r;
        }
        SameClash(terms, rest, next, tables);
      } else if tables.terms[r.id] == r {
        RefusedIffClash(rest, tables);
        SameClash(terms, rest, tables, tables);
      } else {
        assert Clashes(r, tables);
      }
    }
  }

  lemma SameClash(terms: seq<TermRow>, rest: seq<TermRow>, next: Tables, tables: Tables)
    requires terms != [] && rest == terms[1..] && !Clashes(terms[0], tables)
    requires forall q | q in terms :: Clashes(q, next) <==> Clashes(q, tables)
    ensures Clash(rest, next) <==> Clash(terms, tables)
  {
    assert forall q | q in terms :: q == terms[0] || q in rest;
  }

  /** Rows that come from the parts of terms without collisions have one row per id. */
  lemma RowsByIdAreUnique(h: Hash, parts: set<Term>, tables: Tables, terms: seq<TermRow>, triples: seq<TripleRow>)
    requires NoCollision(h, parts, tables) && forall u | u in parts :: ValidTerm(u)
    requires forall r | r in terms :: exists u :: u in parts && MakesRow(h, u, r)
    requires forall r | r in triples :: exists u :: u in parts && MakesTripleRow(h, u, r)
    ensures forall r, q | r in terms && q in terms :: r.id == q.id ==> r == q
    ensures Agree(triples, tables)
  {
    hide RowOf, ValidTerm, TermId;
    forall r, q | r in terms && q in terms && r.id == q.id
      ensures r == q
    {
      var u :| u in parts && MakesRow(h, u, r);
      var v :| v in parts && MakesRow(h, v, q);
      PlainTermsDecode(h, u);
      PlainTermsDecode(h, v);
    }
  }

  // ------------------------------------------------------------------ the round trip

  /** Encodes and records every term of a list. */
  method Encode(rows: EncodedRows, ts: seq<Term>) returns (ids: seq<int>)
    requires rows.terms == [] && rows.triples == []
    modifies rows
    ensures |ids| == |ts| && forall i | 0 <= i < |ts| :: ids[i] == TermId(rows.hash, ts[i])
    ensures forall t, r | t in ts && r in TermRowsOf(rows.hash, t) :: r in rows.terms
    ensures forall t, r | t in ts && r in TripleRowsOf(rows.hash, t) :: r in rows.triples
    ensures forall r | r in rows.terms :: exists u :: u in AllParts(ts) && MakesRow(rows.hash, u, r)
    ensures forall r | r in rows.triples :: exists u :: u in AllParts(ts) && MakesTripleRow(rows.hash, u, r)
  {
    hide TermRowsOf, TripleRowsOf, Parts, MakesRow, MakesTripleRow, TermId;
    ids := [];
    for i := 0 to |ts|
      invariant |ids| == i && forall j | 0 <= j < i :: ids[j] == TermId(rows.hash, ts[j])
      invariant forall j, r | 0 <= j < i && r in TermRowsOf(rows.hash, ts[j]) :: r in rows.terms
      invariant forall j, r | 0 <= j < i && r in TripleRowsOf(rows.hash, ts[j]) :: r in rows.triples
      invariant forall r | r in rows.terms :: exists u :: u in AllParts(ts) && MakesRow(rows.hash, u, r)
      invariant forall r | r in rows.triples :: exists u :: u in AllParts(ts) && MakesTripleRow(rows.hash, u, r)
    {
      var id := rows.Term(ts[i]);
      RowsArePartsRows(rows.hash, ts[i]);
      assert forall u | u in Parts(ts[i]) :: u in AllParts(ts);
      ids := ids + [id];
    }
  }

  /** The terms' own world, once their rows are stored. */
  lemma WorldIsValid(h: Hash, ts: seq<Term>, tables: Tables)
    requires forall t | t in ts :: ValidTerm(t) && Holds(tables, h, t)
    requires forall t, u | t in AllParts(ts) && u in AllParts(ts) :: TermId(h, t) == TermId(h, u) ==> t == u
    ensures ValidWorld(World(h, AllParts(ts), AllParts(ts)), tables)
    ensures forall t | t in ts :: t in AllParts(ts)
  {
    hide TermId, Parts, Holds, ValidTerm;
    forall t | t in ts
      ensures t in Parts(t)
      ensures forall u | u in Parts(t) :: ValidTerm(u) && Holds(tables, h, u)
      ensures forall u | u in Parts(t) && u.TripleOf? ::
        SubjectTerm(u.s) in Parts(t) && NamedNode(u.p) in Parts(t) && u.o in Parts(t)
    {
      PartsAreClosed(t);
      PartsAreHeld(tables, h, t);
    }
  }

  lemma PartsAreValid(ts: seq<Term>)
    requires forall t | t in ts :: ValidTerm(t)
    ensures forall u | u in AllParts(ts) :: ValidTerm(u)
  {
    forall t | t in ts
      ensures forall u | u in Parts(t) :: ValidTerm(u)
    {
      PartsAreClosed(t);
    }
  }

  /** A clash among recorded rows is a clash of the terms. */
  lemma ClashesAreTheTerms(h: Hash, ts: seq<Term>, rows: seq<TermRow>, tables: Tables)
    requires forall t, r | t in ts && r in TermRowsOf(h, t) :: r in rows
    requires forall r | r in rows :: exists u :: u in AllParts(ts) && MakesRow(h, u, r)
    ensures Clash(rows, tables) <==> TermsClash(h, AllParts(ts), tables)
  {
    hide TermRowsOf, Parts, MakesRow, Clashes;
    if TermsClash(h, AllParts(ts), tables) {
      var u, r :| u in AllParts(ts) && MakesRow(h, u, r) && Clashes(r, tables);
      var t :| t in ts && u in Parts(t);
      PartsRowsAreRecorded(h, t, u, r);
    }
  }

  /** Encode, deduplicate, store, resolve: unless a stored row clashes, every term comes back, in
      at most one round more than the deepest nesting. */
  method RoundTrip(h: Hash, ts: seq<Term>, tables: Tables, ghost depth: nat)
      returns (back: Option<seq<Option<Term>>>, rounds: nat)
    requires forall t | t in ts :: ValidTerm(t) && Depth(t) <= depth
    requires NoCollision(h, AllParts(ts), tables)
    ensures back.None? <==> TermsClash(h, AllParts(ts), tables)
    ensures back.Some? ==> |back.value| == |ts| && forall i | 0 <= i < |ts| :: back.value[i] == Some(ts[i])
    ensures rounds <= depth + 1
  {
    hide TermRowsOf, TripleRowsOf, MakesRow, MakesTripleRow, TermId, Parts, Holds, SortByKey, DedupByKey, TermAt,
      ValidWorld,
         InsertTerms, InsertTriples, Agree, TermsClash, Clash, IdsOf, ValidTerm, AllParts;
    var rows := new EncodedRows(h);
    var ids := Encode(rows, ts);
    PartsAreValid(ts);
    RowsByIdAreUnique(h, AllParts(ts), tables, rows.terms, rows.triples);
    DedupLosesNothing(rows.terms, TermKey());
    TriplesAreUnique(rows.triples, tables);
    DedupLosesNothing(rows.triples, TripleRowKey());
    rows.Dedup();
    RowsByIdAreUnique(h, AllParts(ts), tables, rows.terms, rows.triples);
    RefusedIffClash(rows.terms, tables);
    ClashesAreTheTerms(h, ts, rows.terms, tables);
    var stored := Store(rows.terms, rows.triples, tables);
    if stored.None? {
      return None, 0;
    }
    StoredTermsAreHeld(h, ts, rows.terms, rows.triples, tables);
    WorldIsValid(h, ts, stored.value);
    ghost var w := World(h, AllParts(ts), AllParts(ts));
    forall i | 0 <= i < |ts|
      ensures ids[i] != DEFAULT_GRAPH_ID && ids[i] in IdsOf(w, w.terms) && TermAt(w, ids[i]) == ts[i]
    {
      TermTags(h, ts[i]);
      TermAtId(w, stored.value, ts[i]);
    }
    var resolver;
    resolver, rounds := Resolve(stored.value, map[], ids, w, depth);
    back := Some(seq(|ids|, i requires 0 <= i < |ids| reads resolver => resolver.Get(ids[i])));
  }

  lemma TriplesAreUnique(rows: seq<TripleRow>, tables: Tables)
    requires Agree(rows, tables)
    ensures forall r, q | r in rows && q in rows :: r.id == q.id ==> r == q
  {
  }
}
