/** Recording the rows of encoded terms, and storing them in the dictionary tables (encoding.rs,
    writer.rs, schema.rs). */
module Dictionaries {
  import opened Ids
  import opened Encoding

  // ------------------------------------------------------------------ the rows of a term

  function SubjectRow(h: Hash, s: Subject): TermRow {
    match s
    case IriSubject(iri) => TermRow(Hashed(h, IriTag, iri), iri, None, None, None)
    case BlankSubject(name) => TermRow(Hashed(h, BlankTag, name), name, None, None, None)
  }

  function IriRow(h: Hash, iri: string): TermRow {
    TermRow(Hashed(h, IriTag, iri), iri, None, None, None)
  }

  /** The `terms` rows needed to decode a term, parts included. */
  function TermRowsOf(h: Hash, t: Term): seq<TermRow> {
    match t
    case TripleOf(s, p, o) => [SubjectRow(h, s), IriRow(h, p)] + TermRowsOf(h, o)
    case _ => if RowOf(h, t).Some? then [RowOf(h, t).value] else []
  }

  function TripleRowFor(h: Hash, s: Subject, p: string, o: Term): TripleRow {
    TripleRow(TermId(h, TripleOf(s, p, o)), SubjectId(h, s), Hashed(h, IriTag, p), TermId(h, o))
  }

  function TripleRowsOf(h: Hash, t: Term): seq<TripleRow> {
    match t
    case TripleOf(s, p, o) => TripleRowsOf(h, o) + [TripleRowFor(h, s, p, o)]
    case _ => []
  }

  // ------------------------------------------------------------------ sorting and deduplicating

  /** Stable insertion by key. */
  function InsertByKey<R>(rows: seq<R>, r: R, key: R -> int): seq<R> {
    if rows == [] || key(rows[|rows| - 1]) <= key(r) then rows + [r]
    else InsertByKey(rows[..|rows| - 1], r, key) + [rows[|rows| - 1]]
  }

  function SortByKey<R>(rows: seq<R>, key: R -> int): seq<R> {
    if rows == [] then [] else InsertByKey(SortByKey(rows[..|rows| - 1], key), rows[|rows| - 1], key)
  }

  /** Of neighbours with the same key, the first stays. */
  function DedupByKey<R>(rows: seq<R>, key: R -> int): seq<R> {
    if rows == [] then []
    else
      var front := DedupByKey(rows[..|rows| - 1], key);
      if front != [] && key(front[|front| - 1]) == key(rows[|rows| - 1]) then front else front + [rows[|rows| - 1]]
  }

  predicate Ascending<R>(rows: seq<R>, key: R -> int) {
    forall i, j | 0 <= i < j < |rows| :: key(rows[i]) <= key(rows[j])
  }

  predicate StrictlyAscending<R>(rows: seq<R>, key: R -> int) {
    forall i, j | 0 <= i < j < |rows| :: key(rows[i]) < key(rows[j])
  }

  lemma {:induction false} InsertAddsOne<R>(rows: seq<R>, r: R, key: R -> int)
    ensures multiset(InsertByKey(rows, r, key)) == multiset(rows) + multiset{r}
    decreases |rows|
  {
    if !(rows == [] || key(rows[|rows| - 1]) <= key(r)) {
      InsertAddsOne(rows[..|rows| - 1], r, key);
      assert rows == rows[..|rows| - 1] + [rows[|rows| - 1]];
    }
  }

  lemma {:induction false} InsertKeepsOrder<R>(rows: seq<R>, r: R, key: R -> int)
    requires Ascending(rows, key)
    ensures Ascending(InsertByKey(rows, r, key), key)
    decreases |rows|
  {
    if !(rows == [] || key(rows[|rows| - 1]) <= key(r)) {
      var front, last := rows[..|rows| - 1], rows[|rows| - 1];
      InsertKeepsOrder(front, r, key);
      InsertAddsOne(front, r, key);
      var inserted := InsertByKey(front, r, key);
      forall i | 0 <= i < |inserted|
        ensures key(inserted[i]) <= key(last)
      {
        assert inserted[i] in multiset(inserted);
      }
      AppendKeepsOrder(inserted, last, key);
    }
  }

  lemma AppendKeepsOrder<R>(rows: seq<R>, last: R, key: R -> int)
    requires Ascending(rows, key) && forall i | 0 <= i < |rows| :: key(rows[i]) <= key(last)
    ensures Ascending(rows + [last], key)
  {
  }

  /** Sorting is an ascending rearrangement. */
  lemma {:induction false} SortOrders<R>(rows: seq<R>, key: R -> int)
    ensures Ascending(SortByKey(rows, key), key) && multiset(SortByKey(rows, key)) == multiset(rows)
    decreases |rows|
  {
    if rows != [] {
      SortOrders(rows[..|rows| - 1], key);
      InsertKeepsOrder(SortByKey(rows[..|rows| - 1], key), rows[|rows| - 1], key);
      InsertAddsOne(SortByKey(rows[..|rows| - 1], key), rows[|rows| - 1], key);
      assert rows == rows[..|rows| - 1] + [rows[|rows| - 1]];
    }
  }

  /** Some row of the result has this key. */
  predicate HasKey<R(==)>(rows: seq<R>, key: R -> int, k: int) {
    exists i | 0 <= i < |rows| :: key(rows[i]) == k
  }

  /** Every key survives, and the last row kept has the last key. */
  lemma {:induction false} DedupKeepsKeys<R>(rows: seq<R>, key: R -> int)
    ensures forall i | 0 <= i < |rows| :: HasKey(DedupByKey(rows, key), key, key(rows[i]))
    ensures rows != [] ==>
      DedupByKey(rows, key) != [] &&
      key(DedupByKey(rows, key)[|DedupByKey(rows, key)| - 1]) == key(rows[|rows| - 1])
    decreases |rows|
  {
    if rows != [] {
      var front, kept, all := rows[..|rows| - 1], DedupByKey(rows[..|rows| - 1], key), DedupByKey(rows, key);
      DedupKeepsKeys(front, key);
      forall i | 0 <= i < |rows|
        ensures HasKey(all, key, key(rows[i]))
      {
        if i == |rows| - 1 {
          assert key(all[|all| - 1]) == key(rows[i]);
        } else {
          var j :| 0 <= j < |kept| && key(kept[j]) == key(front[i]);
          assert all[j] == kept[j];
        }
      }
    }
  }

  /** Of an ascending list, one row per key is left. */
  lemma {:induction false} DedupIsStrict<R>(rows: seq<R>, key: R -> int)
    requires Ascending(rows, key)
    ensures StrictlyAscending(DedupByKey(rows, key), key)
    ensures forall r | r in DedupByKey(rows, key) :: r in rows
    decreases |rows|
  {
    if rows != [] {
      var front, last := rows[..|rows| - 1], rows[|rows| - 1];
      DedupIsStrict(front, key);
      DedupKeepsKeys(front, key);
      var kept := DedupByKey(front, key);
      if front != [] && key(kept[|kept| - 1]) != key(last) {
        assert key(kept[|kept| - 1]) == key(front[|front| - 1]) == key(rows[|rows| - 2]);
        assert key(rows[|rows| - 2]) <= key(last);
      }
    }
  }

  /** One of the rows of each key, in ascending order of keys. */
  ghost predicate OneRowPerKey<R>(rows: seq<R>, kept: seq<R>, key: R -> int) {
    && StrictlyAscending(kept, key) && (forall r | r in kept :: r in rows)
    && (forall r | r in rows :: HasKey(kept, key, key(r)))
  }

  lemma SortedAndDeduplicated<R>(rows: seq<R>, key: R -> int)
    ensures OneRowPerKey(rows, DedupByKey(SortByKey(rows, key), key), key)
  {
    hide SortByKey, DedupByKey, Ascending, StrictlyAscending, HasKey;
    var sorted := SortByKey(rows, key);
    SortOrders(rows, key);
    DedupKeepsKeys(sorted, key);
    DedupIsStrict(sorted, key);
    SameRows(rows, sorted);
    forall r | r in rows
      ensures HasKey(DedupByKey(sorted, key), key, key(r))
    {
      var i :| 0 <= i < |sorted| && sorted[i] == r;
      assert HasKey(DedupByKey(sorted, key), key, key(sorted[i]));
    }
    forall r | r in DedupByKey(sorted, key)
      ensures r in rows
    {
      assert r in sorted;
    }
  }

  lemma SameRows<R>(rows: seq<R>, sorted: seq<R>)
    requires multiset(sorted) == multiset(rows)
    ensures forall r :: r in rows <==> r in sorted
  {
    forall r
      ensures r in rows <==> r in sorted
    {
      assert r in rows <==> r in multiset(rows);
      assert r in sorted <==> r in multiset(sorted);
    }
  }

  /** When rows with the same key are the same row, deduplication loses none of them. */
  lemma DedupLosesNothing<R>(rows: seq<R>, key: R -> int)
    requires forall r, q | r in rows && q in rows :: key(r) == key(q) ==> r == q
    ensures forall r :: r in rows <==> r in DedupByKey(SortByKey(rows, key), key)
  {
    var sorted := SortByKey(rows, key);
    SortOrders(rows, key);
    DedupKeepsKeys(sorted, key);
    DedupIsStrict(sorted, key);
    SameRows(rows, sorted);
    forall r | r in sorted
      ensures r in DedupByKey(sorted, key)
    {
      var i :| 0 <= i < |sorted| && sorted[i] == r;
      assert HasKey(DedupByKey(sorted, key), key, key(sorted[i]));
      var j :| 0 <= j < |DedupByKey(sorted, key)| && key(DedupByKey(sorted, key)[j]) == key(r);
      assert DedupByKey(sorted, key)[j] in sorted;
    }
  }

  function TermKey(): TermRow -> int {
    (r: TermRow) => r.id
  }

  function TripleRowKey(): TripleRow -> int {
    (r: TripleRow) => r.id
  }

  /** The dictionary rows of a write: each list grows as terms are encoded. */
  class EncodedRows {
    var terms: seq<TermRow>
    var triples: seq<TripleRow>
    const hash: Hash

    constructor (hash: Hash)
      ensures terms == [] && triples == [] && this.hash == hash
    {
      terms, triples, this.hash := [], [], hash;
    }

    method Iri(iri: string) returns (id: int)
      modifies this
      ensures id == Hashed(hash, IriTag, iri)
      ensures terms == old(terms) + [IriRow(hash, iri)] && triples == old(triples)
    {
      id := Hashed(hash, IriTag, iri);
      terms := terms + [TermRow(id, iri, None, None, None)];
    }

    method Subject(s: Subject) returns (id: int)
      modifies this
      ensures id == SubjectId(hash, s)
      ensures terms == old(terms) + [SubjectRow(hash, s)] && triples == old(triples)
    {
      match s {
        case IriSubject(iri) => id := Iri(iri);
        case BlankSubject(name) =>
          id := Hashed(hash, BlankTag, name);
          terms := terms + [TermRow(id, name, None, None, None)];
      }
    }

    /** Returns `TermId` and appends exactly `TermRowsOf` and `TripleRowsOf`: a triple term comes
        after its parts, so rows are in the order a reader needs them. */
    method Term(t: Term) returns (id: int)
      modifies this
      ensures id == TermId(hash, t)
      ensures terms == old(terms) + TermRowsOf(hash, t)
      ensures triples == old(triples) + TripleRowsOf(hash, t)
      decreases t
    {
      match t {
        case NamedNode(iri) => id := Iri(iri);
        case BlankNode(name) => id := Subject(BlankSubject(name));
        case LiteralTerm(l) =>
          var (literal, row) := EncodeLiteral(hash, l);
          if row.Some? {
            terms := terms + [row.value];
          }
          id := literal;
        case TripleOf(s, p, o) =>
          var sid := Subject(s);
          var pid := Iri(p);
          var oid := Term(o);
          id := Make(TripleTag, hash(TripleKey(sid, pid, oid)));
          triples := triples + [TripleRow(id, sid, pid, oid)];
      }
    }

    /** Leaves one of the recorded rows for each id, in ascending order of ids. */
    method Dedup()
      modifies this
      ensures terms == DedupByKey(SortByKey(old(terms), TermKey()), TermKey())
      ensures triples == DedupByKey(SortByKey(old(triples), TripleRowKey()), TripleRowKey())
      ensures OneRowPerKey(old(terms), terms, TermKey()) && OneRowPerKey(old(triples), triples, TripleRowKey())
    {
      SortedAndDeduplicated(terms, TermKey());
      SortedAndDeduplicated(triples, TripleRowKey());
      terms := DedupByKey(SortByKey(terms, TermKey()), TermKey());
      triples := DedupByKey(SortByKey(triples, TripleRowKey()), TripleRowKey());
    }
  }

  // ------------------------------------------------------------------ the dictionary tables

  datatype Tables = Tables(terms: map<int, TermRow>, triples: map<int, TripleRow>)

  /** `INSERT OR IGNORE INTO terms`, under the collision trigger: a row that differs from the one
      with its id aborts the batch. */
  function InsertTerms(rows: seq<TermRow>, tables: Tables): Option<Tables> {
    if rows == [] then Some(tables)
    else if rows[0].id !in tables.terms
      then InsertTerms(rows[1..], tables.(terms := tables.terms[rows[0].id := rows[0]]))
    else if tables.terms[rows[0].id] == rows[0] then InsertTerms(rows[1..], tables)
    else None
  }

  /** `INSERT OR IGNORE INTO triple_terms`. */
  function InsertTriples(rows: seq<TripleRow>, tables: Tables): Tables {
    if rows == [] then tables
    else if rows[0].id in tables.triples then InsertTriples(rows[1..], tables)
    else InsertTriples(rows[1..], tables.(triples := tables.triples[rows[0].id := rows[0]]))
  }

  function Store(terms: seq<TermRow>, triples: seq<TripleRow>, tables: Tables): Option<Tables> {
    match InsertTerms(terms, tables)
    case None => None
    case Some(next) => Some(InsertTriples(triples, next))
  }

  /** The tables hold what decoding a term needs, parts included. */
  predicate Holds(tables: Tables, h: Hash, t: Term) {
    && (forall r | r in TermRowsOf(h, t) :: r.id in tables.terms && tables.terms[r.id] == r)
    && (forall r | r in TripleRowsOf(h, t) :: r.id in tables.triples && tables.triples[r.id] == r)
  }

  predicate Agree(rows: seq<TripleRow>, tables: Tables) {
    && (forall r, q | r in rows && q in rows :: r.id == q.id ==> r == q)
    && (forall r | r in rows && r.id in tables.triples :: tables.triples[r.id] == r)
  }

  lemma {:induction false} InsertedTerms(rows: seq<TermRow>, tables: Tables)
    requires InsertTerms(rows, tables).Some?
    ensures var next := InsertTerms(rows, tables).value;
      && next.triples == tables.triples
      && (forall id | id in tables.terms :: id in next.terms && next.terms[id] == tables.terms[id])
      && (forall r | r in rows :: r.id in next.terms && next.terms[r.id] == r)
    decreases |rows|
  {
    if rows != [] {
      var first := if rows[0].id !in tables.terms then tables.(terms := tables.terms[rows[0].id := rows[0]])
        else tables;
      InsertedTerms(rows[1..], first);
      assert forall r | r in rows :: r == rows[0] || r in rows[1..];
    }
  }

  lemma {:induction false} InsertedTriples(rows: seq<TripleRow>, tables: Tables)
    requires Agree(rows, tables)
    ensures var next := InsertTriples(rows, tables);
      && next.terms == tables.terms
      && (forall id | id in tables.triples :: id in next.triples && next.triples[id] == tables.triples[id])
      && (forall r | r in rows :: r.id in next.triples && next.triples[r.id] == r)
    decreases |rows|
  {
    if rows != [] {
      var first := if rows[0].id !in tables.triples then tables.(triples := tables.triples[rows[0].id := rows[0]])
        else tables;
      assert forall r | r in rows[1..] :: r in rows;
      InsertedTriples(rows[1..], first);
      assert forall r | r in rows :: r == rows[0] || r in rows[1..];
    }
  }

  /** A committed write holds every term written, and still holds every term held before; only
      triple terms, which no trigger guards, need their ids not to collide. */
  lemma StoredTermsAreHeld(h: Hash, ts: seq<Term>, terms: seq<TermRow>, triples: seq<TripleRow>, tables: Tables)
    requires forall t, r | t in ts && r in TermRowsOf(h, t) :: r in terms
    requires forall t, r | t in ts && r in TripleRowsOf(h, t) :: r in triples
    requires Store(terms, triples, tables).Some? && Agree(triples, tables)
    ensures forall t | t in ts :: Holds(Store(terms, triples, tables).value, h, t)
    ensures forall t | Holds(tables, h, t) :: Holds(Store(terms, triples, tables).value, h, t)
  {
    InsertedTerms(terms, tables);
    var next := InsertTerms(terms, tables).value;
    InsertedTriples(triples, next);
  }
}
