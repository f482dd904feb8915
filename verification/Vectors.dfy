/** Vector indexes: a table of embeddings for each definition, kept current by triggers on
    `quads` and rebuilt when its definition changes (vector.rs). */
module Vectors {
  import opened Ids
  import opened Encoding

  // ------------------------------------------------------------------ definitions

  datatype Metric = Cosine | Euclidean | DotProduct | Jaccard

  datatype ElementType = Float32 | Float64 | Int8 | Bit1 | SparseFloat32

  datatype Index = Index(name: string, property: string, dimensions: nat, metric: Metric, elementType: ElementType,
      class_: Option<string>)

  function MetricName(m: Metric): string {
    match m
    case Cosine => "cosine"
    case Euclidean => "euclidean"
    case DotProduct => "dot"
    case Jaccard => "jaccard"
  }

  function ElementName(e: ElementType): string {
    match e
    case Float32 => "float32"
    case Float64 => "float64"
    case Int8 => "int8"
    case Bit1 => "bit1"
    case SparseFloat32 => "sparse"
  }

  predicate IsLetter(c: char) {
    'a' <= c <= 'z' || 'A' <= c <= 'Z'
  }

  predicate IsNameChar(c: char) {
    IsLetter(c) || '0' <= c <= '9' || c == '_'
  }

  /** `validate`. */
  predicate IsValid(d: Index) {
    && 0 < |d.name| <= 64 && IsLetter(d.name[0]) && (forall i | 0 <= i < |d.name| :: IsNameChar(d.name[i]))
    && 0 < d.dimensions <= 65536
    && (d.metric == Jaccard <==> d.elementType == SparseFloat32)
  }

  function LowerChar(c: char): char {
    if 'A' <= c <= 'Z' then (c as int + 32) as char else c
  }

  /** Table names and fingerprint keys ignore case. */
  function Lower(name: string): string {
    seq(|name|, i requires 0 <= i < |name| => LowerChar(name[i]))
  }

  // ------------------------------------------------------------------ fingerprints

  const BAR := '|'

  function ClassText(c: Option<string>): string {
    if c.Some? then c.value else ""
  }

  /** The text stored beside a table to tell whether it is still built as defined. */
  function Fingerprint(d: Index): string {
    d.property + [BAR] + Digits(d.dimensions) + [BAR] + MetricName(d.metric) + [BAR] + ElementName(d.elementType)
      + [BAR] + ClassText(d.class_)
  }

  predicate NoBar(s: string) {
    BAR !in s
  }

  /** No IRI contains a bar, and none is empty. */
  predicate IsIri(s: string) {
    s != [] && NoBar(s)
  }

  predicate HasIris(d: Index) {
    IsIri(d.property) && (d.class_.Some? ==> IsIri(d.class_.value))
  }

  lemma {:induction false} DigitsHaveNoBar(n: nat)
    ensures NoBar(Digits(n))
  {
    if n >= 10 {
      DigitsHaveNoBar(n / 10);
    }
  }

  lemma NamesHaveNoBar(m: Metric, e: ElementType)
    ensures NoBar(MetricName(m)) && NoBar(ElementName(e))
  {
  }

  lemma NamesDiffer(m: Metric, n: Metric, e: ElementType, f: ElementType)
    ensures MetricName(m) == MetricName(n) ==> m == n
    ensures ElementName(e) == ElementName(f) ==> e == f
  {
    assert |MetricName(m)| != |MetricName(n)| || MetricName(m)[0] != MetricName(n)[0] || m == n;
    assert ElementName(e)[|ElementName(e)| - 1] != ElementName(f)[|ElementName(f)| - 1] || e == f;
  }

  function Tail(d: Index): string {
    MetricName(d.metric) + [BAR] + ElementName(d.elementType) + [BAR] + ClassText(d.class_)
  }

  lemma TailsDiffer(a: Index, b: Index)
    requires HasIris(a) && HasIris(b) && Tail(a) == Tail(b)
    ensures a.metric == b.metric && a.elementType == b.elementType && a.class_ == b.class_
  {
    hide MetricName, ElementName, ClassText;
    NamesHaveNoBar(a.metric, a.elementType);
    NamesHaveNoBar(b.metric, b.elementType);
    var x, y := ElementName(a.elementType) + [BAR] + ClassText(a.class_),
      ElementName(b.elementType) + [BAR] + ClassText(b.class_);
    assert Tail(a) == MetricName(a.metric) + [BAR] + x && Tail(b) == MetricName(b.metric) + [BAR] + y;
    SplitAt(BAR, MetricName(a.metric), MetricName(b.metric), x, y);
    SplitAt(BAR, ElementName(a.elementType), ElementName(b.elementType), ClassText(a.class_), ClassText(b.class_));
    NamesDiffer(a.metric, b.metric, a.elementType, b.elementType);
    ClassesDiffer(a.class_, b.class_);
  }

  lemma ClassesDiffer(a: Option<string>, b: Option<string>)
    requires (a.Some? ==> IsIri(a.value)) && (b.Some? ==> IsIri(b.value))
    ensures ClassText(a) == ClassText(b) ==> a == b
  {
  }

  /** A fingerprint tells everything but the name. */
  lemma FingerprintsDiffer(a: Index, b: Index)
    requires HasIris(a) && HasIris(b) && Fingerprint(a) == Fingerprint(b)
    ensures a == b.(name := a.name)
  {
    hide MetricName, ElementName, ClassText;
    DigitsHaveNoBar(a.dimensions);
    DigitsHaveNoBar(b.dimensions);
    var x, y := Digits(a.dimensions) + [BAR] + Tail(a), Digits(b.dimensions) + [BAR] + Tail(b);
    assert Fingerprint(a) == a.property + [BAR] + x && Fingerprint(b) == b.property + [BAR] + y;
    SplitAt(BAR, a.property, b.property, x, y);
    SplitAt(BAR, Digits(a.dimensions), Digits(b.dimensions), Tail(a), Tail(b));
    ParseDigitsPrints(a.dimensions);
    ParseDigitsPrints(b.dimensions);
    TailsDiffer(a, b);
  }

  // ------------------------------------------------------------------ the tables and triggers

  /** A row of a vector table; the embedding is the object's text as this element type. */
  datatype VecRow = VecRow(s: Id, o: Id, g: Id, elementType: ElementType)

  /** What the triggers and the back-fill of a table were built with. */
  datatype Build = Build(property: Id, dimensions: nat, elementType: ElementType)

  /** A term's text as JSON: the length of the array it spells, and the element types whose
      conversion can read it. */
  datatype Text = Text(length: nat, readable: set<ElementType>)

  /** `texts` gives the text of each term of the dictionary; `meta` is the part of `oxilite_meta`
      with fingerprints. Tables, triggers and fingerprints are named by the index's lower-case
      name. */
  datatype VecDb = VecDb(
    quads: set<Quad>,
    texts: map<Id, Text>,
    tables: map<string, set<VecRow>>,
    inserts: map<string, Build>,
    deletes: map<string, Id>,
    meta: map<string, string>)

  datatype VecStatement =
    | AddTerms(terms: map<Id, Text>)
    | RemoveTerms(ids: set<Id>)
    | AddQuads(quads: set<Quad>)
    | RemoveQuads(quads: set<Quad>)
    | CreateTable(t: string)
    | CreateInsertTrigger(t: string, build: Build)
    | CreateDeleteTrigger(t: string, property: Id)
    | CheckExisting(build: Build)
    | Backfill(t: string, build: Build)
    | PutFingerprint(t: string, fingerprint: string)
    | DropInsertTrigger(t: string)
    | DropDeleteTrigger(t: string)
    | DropTable(t: string)
    | DropFingerprint(t: string)

  /** The check before an object is copied: it is no array of this many elements. */
  predicate WrongLength(texts: map<Id, Text>, build: Build, q: Quad) {
    q.p == build.property && !(q.o in texts && texts[q.o].length == build.dimensions)
  }

  /** The conversion raises an error: an array, say, whose elements are no numbers. */
  predicate Unreadable(texts: map<Id, Text>, build: Build, q: Quad) {
    q.p == build.property && q.o in texts && build.elementType !in texts[q.o].readable
  }

  /** The object is no vector of this index: either keeps it from being stored. */
  predicate Misfits(texts: map<Id, Text>, build: Build, q: Quad) {
    WrongLength(texts, build, q) || Unreadable(texts, build, q)
  }

  predicate SomeMisfits(texts: map<Id, Text>, build: Build, quads: set<Quad>) {
    exists q | q in quads :: Misfits(texts, build, q)
  }

  function EmbeddingRow(build: Build, q: Quad): VecRow {
    VecRow(q.s, q.o, q.g, build.elementType)
  }

  predicate SameKey(r: VecRow, q: Quad) {
    r.s == q.s && r.o == q.o && r.g == q.g
  }

  /** Rows to add, `OR IGNORE`: not those whose key is there. */
  function NewRows(rows: set<VecRow>, build: Build, quads: set<Quad>): set<VecRow> {
    set q | q in quads && q.p == build.property && !(exists r | r in rows :: SameKey(r, q)) :: EmbeddingRow(build, q)
  }

  function Kept(rows: set<VecRow>, property: Id, removed: set<Quad>): set<VecRow> {
    set r | r in rows && !(exists q | q in removed :: q.p == property && SameKey(r, q))
  }

  datatype VecOutcome = Done(db: VecDb) | Failed

  /** What one statement does; `Failed` aborts the request. */
  function Act(st: VecStatement, db: VecDb): VecOutcome {
    match st
    case AddTerms(terms) =>
      if exists x | x in terms :: x in db.texts && db.texts[x] != terms[x] then Failed
      else Done(db.(texts := db.texts + terms))
    case RemoveTerms(ids) => Done(db.(texts := db.texts - ids))
    case AddQuads(quads) =>
      // each row really inserted fires the triggers of its property
      var added := quads - db.quads;
      if exists t | t in db.inserts :: SomeMisfits(db.texts, db.inserts[t], added) then Failed
      else if exists t | t in db.inserts :: t !in db.tables && exists q | q in added ::
        q.p == db.inserts[t].property then Failed
      else Done(db.(
        quads := db.quads + added,
        tables := map t | t in db.tables ::
          if t in db.inserts then db.tables[t] + NewRows(db.tables[t], db.inserts[t], added) else db.tables[t]))
    case RemoveQuads(quads) =>
      var removed := quads * db.quads;
      if exists t | t in db.deletes :: t !in db.tables && exists q | q in removed :: q.p == db.deletes[t] then Failed
      else Done(db.(
        quads := db.quads - removed,
        tables := map t | t in db.tables ::
          if t in db.deletes then Kept(db.tables[t], db.deletes[t], removed) else db.tables[t]))
    case CreateTable(t) => Done(if t in db.tables then db else db.(tables := db.tables[t := {}]))
    case CreateInsertTrigger(t, build) => Done(if t in db.inserts then db else db.(inserts := db.inserts[t := build]))
    case CreateDeleteTrigger(t, property) =>
      Done(if t in db.deletes then db else db.(deletes := db.deletes[t := property]))
    case CheckExisting(build) => if exists q | q in db.quads ::
      WrongLength(db.texts, build, q) then Failed else Done(db)
    case Backfill(t, build) =>
      if t !in db.tables || exists q | q in db.quads :: Unreadable(db.texts, build, q) then Failed
      else
        var known := set q | q in db.quads && q.o in db.texts;
        Done(db.(tables := db.tables[t := db.tables[t] + NewRows(db.tables[t], build, known)]))
    case PutFingerprint(t, fingerprint) => Done(db.(meta := db.meta[t := fingerprint]))
    case DropInsertTrigger(t) => Done(db.(inserts := db.inserts - {t}))
    case DropDeleteTrigger(t) => Done(db.(deletes := db.deletes - {t}))
    case DropTable(t) => Done(db.(tables := db.tables - {t}))
    case DropFingerprint(t) => Done(db.(meta := db.meta - {t}))
  }

  function Perform(statements: seq<VecStatement>, db: VecDb): VecOutcome {
    if statements == [] then Done(db)
    else match Act(statements[0], db)
      case Done(next) => Perform(statements[1..], next)
      case Failed => Failed
  }

  // ------------------------------------------------------------------ what every table holds

  /** The table of a property: one row for each of its quads, all of them vectors that fit. */
  ghost predicate TableAgrees(db: VecDb, build: Build, rows: set<VecRow>) {
    && rows == (set q | q in db.quads && q.p == build.property :: EmbeddingRow(build, q))
    && !SomeMisfits(db.texts, build, db.quads)
  }

  type IriIds = string -> Id

  function BuildOf(d: Index, ids: IriIds): Build {
    Build(ids(d.property), d.dimensions, d.elementType)
  }

  /** The table is the one this definition builds. */
  ghost predicate BuiltFrom(db: VecDb, t: string, d: Index, ids: IriIds) {
    && IsValid(d) && HasIris(d) && Lower(d.name) == t
    && t in db.tables && t in db.inserts && t in db.deletes && t in db.meta
    && db.inserts[t] == BuildOf(d, ids) && db.deletes[t] == ids(d.property) && db.meta[t] == Fingerprint(d)
  }

  /** Every table has its triggers and the fingerprint of what built it, and agrees with the
      quads. */
  ghost predicate Current(db: VecDb, ids: IriIds) {
    && db.tables.Keys == db.inserts.Keys == db.deletes.Keys == db.meta.Keys
    && (forall t | t in db.tables :: TableAgrees(db, db.inserts[t], db.tables[t]))
    && (forall t | t in db.tables :: exists d :: BuiltFrom(db, t, d, ids))
  }

  /** What was built stays built while its table, triggers and fingerprint stay. */
  lemma StaysBuilt(db: VecDb, after: VecDb, t: string, ids: IriIds)
    requires exists d :: BuiltFrom(db, t, d, ids)
    requires t in after.tables && t in db.inserts && t in after.inserts && t in db.deletes && t in after.deletes
      && t in db.meta && t in after.meta
    requires after.inserts[t] == db.inserts[t] && after.deletes[t] == db.deletes[t] && after.meta[t] == db.meta[t]
    ensures db.deletes[t] == db.inserts[t].property && exists d :: BuiltFrom(after, t, d, ids)
  {
    hide IsValid, Fingerprint, HasIris, Lower;
    var d :| BuiltFrom(db, t, d, ids);
    assert BuiltFrom(after, t, d, ids);
  }

  predicate IsData(st: VecStatement) {
    st.AddTerms? || st.RemoveTerms? || st.AddQuads? || st.RemoveQuads?
  }

  /** A write of terms and quads that deletes no term still used as an object. */
  predicate IsWrite(st: VecStatement, db: VecDb) {
    IsData(st) && (st.RemoveTerms? ==> forall q | q in db.quads :: q.o !in st.ids)
  }

  lemma AddingAgrees(db: VecDb, build: Build, rows: set<VecRow>, added: set<Quad>)
    requires TableAgrees(db, build, rows) && added !! db.quads && !SomeMisfits(db.texts, build, added)
    ensures TableAgrees(db.(quads := db.quads + added), build, rows + NewRows(rows, build, added))
  {
    forall q | q in added && q.p == build.property
      ensures !(exists r | r in rows :: SameKey(r, q))
    {
    }
  }

  lemma RemovingAgrees(db: VecDb, build: Build, rows: set<VecRow>, removed: set<Quad>)
    requires TableAgrees(db, build, rows)
    ensures TableAgrees(db.(quads := db.quads - removed), build, Kept(rows, build.property, removed))
  {
    var left := Kept(rows, build.property, removed);
    forall q | q in db.quads - removed && q.p == build.property
      ensures EmbeddingRow(build, q) in left
    {
      assert forall q' | q' in removed && q'.p == build.property && SameKey(EmbeddingRow(build, q), q') :: q' == q;
    }
    forall r | r in left
      ensures exists q :: q in db.quads - removed && q.p == build.property && r == EmbeddingRow(build, q)
    {
      var q :| q in db.quads && q.p == build.property && r == EmbeddingRow(build, q);
      assert SameKey(r, q);
    }
  }

  lemma TermsKeepAgreeing(db: VecDb, build: Build, rows: set<VecRow>, terms: map<Id, Text>)
    requires TableAgrees(db, build, rows) && forall x | x in terms && x in db.texts :: db.texts[x] == terms[x]
    ensures TableAgrees(db.(texts := db.texts + terms), build, rows)
  {
    forall q | q in db.quads
      ensures !Misfits(db.texts + terms, build, q)
    {
      assert !Misfits(db.texts, build, q);
    }
  }

  lemma UnusedTermsKeepAgreeing(db: VecDb, build: Build, rows: set<VecRow>, ids: set<Id>)
    requires TableAgrees(db, build, rows) && forall q | q in db.quads :: q.o !in ids
    ensures TableAgrees(db.(texts := db.texts - ids), build, rows)
  {
    forall q | q in db.quads
      ensures !Misfits(db.texts - ids, build, q)
    {
      assert !Misfits(db.texts, build, q);
    }
  }

  /** A write leaves triggers and fingerprints alone, and each table in agreement. */
  lemma WriteKeepsTable(st: VecStatement, db: VecDb, t: string)
    requires IsWrite(st, db) && Act(st, db).Done? && db.tables.Keys == db.inserts.Keys == db.deletes.Keys
      && t in db.tables
    requires db.deletes[t] == db.inserts[t].property && TableAgrees(db, db.inserts[t], db.tables[t])
    ensures var after := Act(st, db).db; t in after.tables && TableAgrees(after, db.inserts[t], after.tables[t])
  {
    hide TableAgrees, SomeMisfits, NewRows, Kept;
    var after := Act(st, db).db;
    match st
    case AddTerms(terms) => TermsKeepAgreeing(db, db.inserts[t], db.tables[t], terms);
    case RemoveTerms(ids) => UnusedTermsKeepAgreeing(db, db.inserts[t], db.tables[t], ids);
    case AddQuads(quads) =>
      AddingAgrees(db, db.inserts[t], db.tables[t], quads - db.quads);
      AgreeAlike(db.(quads := db.quads + (quads - db.quads)), after, db.inserts[t], after.tables[t]);
    case RemoveQuads(quads) =>
      RemovingAgrees(db, db.inserts[t], db.tables[t], quads * db.quads);
      AgreeAlike(db.(quads := db.quads - quads * db.quads), after, db.inserts[t], after.tables[t]);
  }

  lemma WriteKeepsNames(st: VecStatement, db: VecDb)
    requires IsData(st) && Act(st, db).Done?
    ensures var after := Act(st, db).db;
      after.tables.Keys == db.tables.Keys && after.inserts == db.inserts && after.deletes == db.deletes
        && after.meta == db.meta
  {
  }

  /** Every write of terms or quads keeps every table current, in the same transaction. */
  lemma WritesKeepTables(st: VecStatement, db: VecDb, ids: IriIds)
    requires Current(db, ids) && IsWrite(st, db) && Act(st, db).Done?
    ensures Current(Act(st, db).db, ids)
  {
    hide TableAgrees, BuiltFrom, Act, IsData;
    var after := Act(st, db).db;
    WriteKeepsNames(st, db);
    forall t | t in db.tables
      ensures TableAgrees(after, after.inserts[t], after.tables[t]) && exists d :: BuiltFrom(after, t, d, ids)
    {
      StaysBuilt(db, after, t, ids);
      WriteKeepsTable(st, db, t);
    }
  }

  lemma AgreeAlike(a: VecDb, b: VecDb, build: Build, rows: set<VecRow>)
    requires a.quads == b.quads && a.texts == b.texts && TableAgrees(a, build, rows)
    ensures TableAgrees(b, build, rows)
  {
  }

  /** A write of quads is refused exactly for a new value of the wrong dimensions, or one that
      cannot be read as a vector. */
  lemma WritesFailForMisfits(quads: set<Quad>, db: VecDb, ids: IriIds)
    requires Current(db, ids)
    ensures Act(AddQuads(quads), db).Failed?
      <==> exists t | t in db.tables :: SomeMisfits(db.texts, db.inserts[t], quads - db.quads)
    ensures Act(RemoveQuads(quads), db).Done?
  {
    hide SomeMisfits, NewRows, Kept, TableAgrees, BuiltFrom;
  }

  // ------------------------------------------------------------------ building and dropping

  /** `create_statements`, without the index on sparse embeddings, which changes no row. */
  function CreateStatements(d: Index, ids: IriIds): seq<VecStatement> {
    var t, build := Lower(d.name), BuildOf(d, ids);
    [CreateTable(t), CreateInsertTrigger(t, build), CreateDeleteTrigger(t, ids(d.property)), CheckExisting(build),
      Backfill(t, build),
     PutFingerprint(t, Fingerprint(d))]
  }

  function DropStatements(name: string): seq<VecStatement> {
    var t := Lower(name);
    [DropInsertTrigger(t), DropDeleteTrigger(t), DropTable(t), DropFingerprint(t)]
  }

  lemma PerformCons(st: VecStatement, rest: seq<VecStatement>, db: VecDb)
    ensures Perform([st] + rest, db) == match Act(st, db) case Done(next) => Perform(rest, next) case Failed => Failed
  {
    assert ([st] + rest)[1..] == rest;
  }

  lemma {:induction false} PerformConcat(a: seq<VecStatement>, b: seq<VecStatement>, db: VecDb)
    ensures Perform(a + b, db) == match Perform(a, db) case Done(next) => Perform(b, next) case Failed => Failed
    decreases |a|
  {
    hide Act;
    if a == [] {
      assert a + b == b;
    } else {
      assert (a + b)[1..] == a[1..] + b;
      if Act(a[0], db).Done? {
        PerformConcat(a[1..], b, Act(a[0], db).db);
      }
    }
  }

  /** Everything of a table, gone. */
  function Without(db: VecDb, t: string): VecDb {
    db.(tables := db.tables - {t}, inserts := db.inserts - {t}, deletes := db.deletes - {t}, meta := db.meta - {t})
  }

  lemma DropPerforms(name: string, db: VecDb)
    ensures Perform(DropStatements(name), db) == Done(Without(db, Lower(name)))
  {
    var t := Lower(name);
    var db1 := db.(inserts := db.inserts - {t});
    var db2 := db1.(deletes := db1.deletes - {t});
    var db3 := db2.(tables := db2.tables - {t});
    PerformCons(DropInsertTrigger(t), [DropDeleteTrigger(t)] + ([DropTable(t)] + [DropFingerprint(t)]), db);
    PerformCons(DropDeleteTrigger(t), [DropTable(t)] + [DropFingerprint(t)], db1);
    PerformCons(DropTable(t), [DropFingerprint(t)], db2);
    PerformCons(DropFingerprint(t), [], db3);
    assert [DropFingerprint(t)] + [] == [DropFingerprint(t)];
    assert DropStatements(name) == [DropInsertTrigger(t)]
      + ([DropDeleteTrigger(t)] + ([DropTable(t)] + [DropFingerprint(t)]));
  }

  lemma DropKeepsCurrent(db: VecDb, t: string, ids: IriIds)
    requires Current(db, ids)
    ensures Current(Without(db, t), ids)
  {
    hide TableAgrees, BuiltFrom;
    var after := Without(db, t);
    forall u | u in after.tables
      ensures TableAgrees(after, after.inserts[u], after.tables[u]) && exists d :: BuiltFrom(after, u, d, ids)
    {
      StaysBuilt(db, after, u, ids);
      AgreeAlike(db, after, db.inserts[u], db.tables[u]);
    }
  }

  /** A freshly built table. */
  function With(db: VecDb, d: Index, ids: IriIds): VecDb {
    var t, build := Lower(d.name), BuildOf(d, ids);
    db.(
      tables := db.tables[t := set q | q in db.quads && q.p == build.property :: EmbeddingRow(build, q)],
      inserts := db.inserts[t := build],
      deletes := db.deletes[t := build.property],
      meta := db.meta[t := Fingerprint(d)])
  }

  lemma BackfillIsComplete(db: VecDb, build: Build)
    requires !SomeMisfits(db.texts, build, db.quads)
    ensures {} + NewRows({}, build, set q | q in db.quads && q.o in db.texts)
         == set q | q in db.quads && q.p == build.property :: EmbeddingRow(build, q)
  {
    assert forall q | q in db.quads && q.p == build.property :: !Misfits(db.texts, build, q);
  }

  /** An empty table with its triggers. */
  function Shell(db: VecDb, t: string, build: Build): VecDb {
    db.(tables := db.tables[t := {}], inserts := db.inserts[t := build], deletes := db.deletes[t := build.property])
  }

  lemma ShellPerforms(db: VecDb, t: string, build: Build)
    requires t !in db.tables && t !in db.inserts && t !in db.deletes
    ensures Perform([CreateTable(t), CreateInsertTrigger(t, build), CreateDeleteTrigger(t, build.property)], db)
      == Done(Shell(db, t, build))
  {
    var create, insert, delete := CreateTable(t), CreateInsertTrigger(t, build), CreateDeleteTrigger(t, build.property);
    var db1 := db.(tables := db.tables[t := {}]);
    var db2 := db1.(inserts := db1.inserts[t := build]);
    PerformCons(create, [insert] + ([delete] + []), db);
    PerformCons(insert, [delete] + [], db1);
    PerformCons(delete, [], db2);
    assert [create, insert, delete] == [create] + ([insert] + ([delete] + []));
  }

  lemma FillPerforms(db: VecDb, t: string, build: Build, fingerprint: string)
    requires t in db.tables && db.tables[t] == {}
    ensures Perform([CheckExisting(build), Backfill(t, build), PutFingerprint(t, fingerprint)], db)
         == if SomeMisfits(db.texts, build, db.quads) then Failed
            else Done(db.(tables := db.tables[t := set q | q in db.quads && q.p == build.property ::
              EmbeddingRow(build, q)],
                          meta := db.meta[t := fingerprint]))
  {
    hide NewRows, WrongLength, Unreadable;
    var check, fill, put := CheckExisting(build), Backfill(t, build), PutFingerprint(t, fingerprint);
    PerformCons(check, [fill] + ([put] + []), db);
    PerformCons(fill, [put] + [], db);
    assert [check, fill, put] == [check] + ([fill] + ([put] + []));
    if !SomeMisfits(db.texts, build, db.quads) {
      BackfillIsComplete(db, build);
      PerformCons(put, [], Act(fill, db).db);
    }
  }

  /** Creating a missing table builds it from the quads, or fails for a misfit. */
  lemma CreatePerforms(d: Index, db: VecDb, ids: IriIds)
    requires Current(db, ids) && Lower(d.name) !in db.tables
    ensures Perform(CreateStatements(d, ids), db)
         == if SomeMisfits(db.texts, BuildOf(d, ids), db.quads) then Failed else Done(With(db, d, ids))
  {
    hide SomeMisfits, TableAgrees, Fingerprint, BuiltFrom, Act, Perform;
    var t, build := Lower(d.name), BuildOf(d, ids);
    var shell := [CreateTable(t), CreateInsertTrigger(t, build), CreateDeleteTrigger(t, build.property)];
    var fill := [CheckExisting(build), Backfill(t, build), PutFingerprint(t, Fingerprint(d))];
    ShellPerforms(db, t, build);
    FillPerforms(Shell(db, t, build), t, build, Fingerprint(d));
    PerformConcat(shell, fill, db);
    assert CreateStatements(d, ids) == shell + fill;
    ShellThenRows(db, d, ids);
  }

  lemma ShellThenRows(db: VecDb, d: Index, ids: IriIds)
    ensures var t, build, shell := Lower(d.name), BuildOf(d, ids), Shell(db, Lower(d.name), BuildOf(d, ids));
      shell.(tables := shell.tables[t := set q | q in shell.quads && q.p == build.property :: EmbeddingRow(build, q)],
             meta := shell.meta[t := Fingerprint(d)]) == With(db, d, ids)
  {
    hide Fingerprint, Lower;
  }

  lemma NewTableIsCurrent(d: Index, db: VecDb, ids: IriIds)
    requires IsValid(d) && HasIris(d) && !SomeMisfits(db.texts, BuildOf(d, ids), db.quads)
    ensures var after, t := With(db, d, ids), Lower(d.name);
      BuiltFrom(after, t, d, ids) && TableAgrees(after, after.inserts[t], after.tables[t])
  {
    hide IsValid, HasIris, Lower, SomeMisfits, Fingerprint;
  }

  lemma CreateKeepsCurrent(d: Index, db: VecDb, ids: IriIds)
    requires Current(db, ids) && IsValid(d) && HasIris(d) && !SomeMisfits(db.texts, BuildOf(d, ids), db.quads)
    ensures Current(With(db, d, ids), ids)
  {
    hide TableAgrees, BuiltFrom, SomeMisfits, Lower, Fingerprint;
    var after, t := With(db, d, ids), Lower(d.name);
    NewTableIsCurrent(d, db, ids);
    forall u | u in after.tables
      ensures TableAgrees(after, after.inserts[u], after.tables[u]) && exists d' :: BuiltFrom(after, u, d', ids)
    {
      if u != t {
        StaysBuilt(db, after, u, ids);
        AgreeAlike(db, after, db.inserts[u], db.tables[u]);
      }
    }
  }

  // ------------------------------------------------------------------ synchronising

  predicate IsBuilt(d: Index, built: map<string, string>) {
    Lower(d.name) in built && built[Lower(d.name)] == Fingerprint(d)
  }

  predicate DistinctTables(defs: seq<Index>) {
    forall i, j | 0 <= i < j < |defs| :: Lower(defs[i].name) != Lower(defs[j].name)
  }

  predicate IsDefined(defs: seq<Index>, name: string) {
    exists d | d in defs :: Lower(d.name) == name
  }

  /** `definitions_from_triples`, after each description is parsed: of definitions whose names
      clash, the first is kept. */
  method Definitions(parsed: seq<Option<Index>>) returns (defs: seq<Index>, problems: seq<nat>)
    ensures DistinctTables(defs) && forall d | d in defs :: Some(d) in parsed
    ensures forall i | 0 <= i < |parsed| && parsed[i].Some? :: IsDefined(defs, Lower(parsed[i].value.name))
    ensures forall i | 0 <= i < |parsed| :: i in problems || (parsed[i].Some? && parsed[i].value in defs)
  {
    defs, problems := [], [];
    for i := 0 to |parsed|
      invariant DistinctTables(defs) && forall d | d in defs :: Some(d) in parsed
      invariant forall j | 0 <= j < i && parsed[j].Some? :: IsDefined(defs, Lower(parsed[j].value.name))
      invariant forall j | 0 <= j < i :: j in problems || (parsed[j].Some? && parsed[j].value in defs)
    {
      if parsed[i].Some? && !IsDefined(defs, Lower(parsed[i].value.name)) {
        ghost var before := defs;
        defs := defs + [parsed[i].value];
        assert forall d :: d in defs <==> d in before || d == parsed[i].value;
        assert forall j | 0 <= j < |before| :: before[j] in before;
      } else {
        problems := problems + [i];
        assert i == problems[|problems| - 1];
      }
    }
  }

  function OrphanDrops(names: seq<string>, defs: seq<Index>): seq<VecStatement> {
    if names == [] then []
    else
      var front, last := OrphanDrops(names[..|names| - 1], defs), names[|names| - 1];
      if IsDefined(defs, last) then front else front + DropStatements(last)
  }

  function Rebuild(d: Index, built: map<string, string>, ids: IriIds): seq<VecStatement> {
    if IsBuilt(d, built) then []
    else (if Lower(d.name) in built then DropStatements(d.name) else []) + CreateStatements(d, ids)
  }

  function Rebuilds(defs: seq<Index>, built: map<string, string>, ids: IriIds): seq<VecStatement> {
    if defs == [] then [] else Rebuilds(defs[..|defs| - 1], built, ids) + Rebuild(defs[|defs| - 1], built, ids)
  }

  /** `sync_statements`; `names` are the keys of `built` in their order. A table can only be
      built for a valid definition, on a backend with vectors. */
  method SyncStatements(defs: seq<Index>, built: map<string, string>, names: seq<string>, vectors: bool, ids: IriIds)
    returns (statements: Option<seq<VecStatement>>)
    ensures statements.Some? ==> statements.value == OrphanDrops(names, defs) + Rebuilds(defs, built, ids)
    ensures statements.None? <==> exists d | d in defs :: !IsBuilt(d, built) && !(vectors && IsValid(d))
  {
    hide OrphanDrops, Rebuilds, Rebuild, IsBuilt, IsValid, IsDefined, DropStatements, CreateStatements, Lower;
    var out := [];
    NothingYet(defs, built, ids);
    for i := 0 to |names|
      invariant out == OrphanDrops(names[..i], defs)
    {
      NextOrphan(names, defs, i);
      if !IsDefined(defs, names[i]) {
        out := out + DropStatements(names[i]);
      }
    }
    assert names[..|names|] == names;
    var builds := [];
    for i := 0 to |defs|
      invariant builds == Rebuilds(defs[..i], built, ids)
      invariant forall j | 0 <= j < i :: IsBuilt(defs[j], built) || (vectors && IsValid(defs[j]))
    {
      var d := defs[i];
      NextRebuild(defs, built, ids, i);
      if !IsBuilt(d, built) {
        if Lower(d.name) in built {
          builds := builds + DropStatements(d.name);
        }
        if !vectors || !IsValid(d) {
          return None;
        }
        builds := builds + CreateStatements(d, ids);
      }
    }
    assert defs[..|defs|] == defs;
    return Some(out + builds);
  }

  lemma NothingYet(defs: seq<Index>, built: map<string, string>, ids: IriIds)
    ensures OrphanDrops([], defs) == [] && Rebuilds([], built, ids) == []
  {
  }

  lemma NextOrphan(names: seq<string>, defs: seq<Index>, i: nat)
    requires i < |names|
    ensures OrphanDrops(names[..i + 1], defs)
         == OrphanDrops(names[..i], defs) + (if IsDefined(defs, names[i]) then [] else DropStatements(names[i]))
  {
    assert names[..i + 1][..i] == names[..i];
  }

  lemma NextRebuild(defs: seq<Index>, built: map<string, string>, ids: IriIds, i: nat)
    requires i < |defs|
    ensures var d, front := defs[i], Rebuilds(defs[..i], built, ids);
      Rebuilds(defs[..i + 1], built, ids) == if IsBuilt(d, built) then front
        else if Lower(d.name) in built then front + DropStatements(d.name) + CreateStatements(d, ids)
        else front + CreateStatements(d, ids)
  {
    hide IsBuilt, Lower, DropStatements, CreateStatements;
    assert defs[..i + 1][..i] == defs[..i];
    assert [] + CreateStatements(defs[i], ids) == CreateStatements(defs[i], ids);
  }

  lemma LowerTwice(name: string)
    ensures Lower(Lower(name)) == Lower(name)
  {
  }

  predicate SameData(a: VecDb, b: VecDb) {
    a.quads == b.quads && a.texts == b.texts
  }

  /** Dropping the orphans leaves the tables that are defined. */
  lemma {:induction false} OrphansAreDropped(names: seq<string>, defs: seq<Index>, db: VecDb, ids: IriIds)
    requires Current(db, ids) && forall n | n in names :: Lower(n) == n
    ensures var out := Perform(OrphanDrops(names, defs), db);
      && out.Done? && Current(out.db, ids) && SameData(db, out.db)
      && out.db.meta.Keys == (set t | t in db.meta && (t in names ==> IsDefined(defs, t)))
      && forall t | t in out.db.meta :: out.db.meta[t] == db.meta[t]
    decreases |names|
  {
    hide Current, Perform, DropStatements, IsDefined, Lower;
    if names == [] {
      NothingPerforms(db);
    } else {
      var front, last := names[..|names| - 1], names[|names| - 1];
      OrphansAreDropped(front, defs, db, ids);
      var mid := Perform(OrphanDrops(front, defs), db).db;
      PerformConcat(OrphanDrops(front, defs), DropStatements(last), db);
      DropPerforms(last, mid);
      DropKeepsCurrent(mid, last, ids);
      assert forall n :: n in names <==> n in front || n == last;
    }
  }

  lemma NothingPerforms(db: VecDb)
    ensures Perform([], db) == Done(db)
  {
  }

  predicate SameEntry(t: string, a: map<string, string>, b: map<string, string>) {
    (t in a <==> t in b) && (t in a && t in b ==> a[t] == b[t])
  }

  /** One definition: nothing to do, or rebuilt, or refused for a misfit. */
  lemma DefinitionIsBuilt(d: Index, built: map<string, string>, db: VecDb, ids: IriIds)
    requires Current(db, ids) && IsValid(d) && HasIris(d)
    requires SameEntry(Lower(d.name), db.meta, built)
    ensures var out := Perform(Rebuild(d, built, ids), db);
      && (out.Failed? <==> !IsBuilt(d, built) && SomeMisfits(db.texts, BuildOf(d, ids), db.quads))
      && (out.Done? ==>
           Current(out.db, ids) && SameData(db, out.db) && out.db.meta == db.meta[Lower(d.name) := Fingerprint(d)])
  {
    hide Perform, DropStatements, CreateStatements, Lower, TableAgrees, BuiltFrom, SomeMisfits, IsValid, HasIris,
      Fingerprint;
    var t := Lower(d.name);
    if IsBuilt(d, built) {
      NothingPerforms(db);
      assert db.meta == db.meta[t := Fingerprint(d)];
    } else {
      var empty := if t in built then Without(db, t) else db;
      if t in built {
        DropPerforms(d.name, db);
        DropKeepsCurrent(db, t, ids);
        PerformConcat(DropStatements(d.name), CreateStatements(d, ids), db);
      } else {
        assert [] + CreateStatements(d, ids) == CreateStatements(d, ids);
      }
      CreatePerforms(d, empty, ids);
      if !SomeMisfits(db.texts, BuildOf(d, ids), db.quads) {
        CreateKeepsCurrent(d, empty, ids);
      }
    }
  }

  /** Some definition that must be built meets a value of other dimensions. */
  predicate Refused(defs: seq<Index>, built: map<string, string>, db: VecDb, ids: IriIds) {
    exists d | d in defs :: !IsBuilt(d, built) && SomeMisfits(db.texts, BuildOf(d, ids), db.quads)
  }

  lemma {:induction false} DefinitionsAreBuilt(defs: seq<Index>, built: map<string, string>, db: VecDb, ids: IriIds)
    requires Current(db, ids) && DistinctTables(defs) && forall d | d in defs :: IsValid(d) && HasIris(d)
    requires forall d | d in defs :: SameEntry(Lower(d.name), db.meta, built)
    ensures var out := Perform(Rebuilds(defs, built, ids), db);
      && (out.Failed? <==> Refused(defs, built, db, ids))
      && (out.Done? ==>
        && Current(out.db, ids) && SameData(db, out.db)
        && out.db.meta.Keys == db.meta.Keys + (set d | d in defs :: Lower(d.name))
        && (forall d | d in defs :: IsBuilt(d, out.db.meta))
        && (forall t | t in db.meta && !IsDefined(defs, t) :: out.db.meta[t] == db.meta[t]))
    decreases |defs|
  {
    hide Current, Perform, Rebuild, Lower, SomeMisfits, IsValid, HasIris, Fingerprint, BuildOf, DistinctTables, IsBuilt;
    if defs == [] {
      NothingPerforms(db);
    } else {
      var front, last := defs[..|defs| - 1], defs[|defs| - 1];
      assert forall d :: d in defs <==> d in front || d == last;
      assert DistinctTables(front) by { FrontIsDistinct(defs); }
      DefinitionsAreBuilt(front, built, db, ids);
      PerformConcat(Rebuilds(front, built, ids), Rebuild(last, built, ids), db);
      var mid := Perform(Rebuilds(front, built, ids), db);
      if mid.Done? {
        OthersDiffer(defs);
        DefinitionIsBuilt(last, built, mid.db, ids);
        MoreIsBuilt(defs, mid.db.meta);
      }
    }
  }

  lemma MoreIsBuilt(defs: seq<Index>, before: map<string, string>)
    requires defs != [] && DistinctTables(defs)
    requires forall d | d in defs[..|defs| - 1] :: IsBuilt(d, before)
    ensures var last := defs[|defs| - 1];
      var after := before[Lower(last.name) := Fingerprint(last)];
      && (forall d | d in defs :: IsBuilt(d, after))
      && (forall t | t in before && !IsDefined(defs, t) :: after[t] == before[t])
  {
    hide Lower, Fingerprint, DistinctTables;
    OthersDiffer(defs);
    var front, last := defs[..|defs| - 1], defs[|defs| - 1];
    var after := before[Lower(last.name) := Fingerprint(last)];
    assert IsDefined(defs, Lower(last.name));
    forall d | d in defs
      ensures IsBuilt(d, after)
    {
      assert d in front || d == last;
      if d != last {
        assert IsBuilt(d, before) && Lower(d.name) != Lower(last.name);
      }
    }
  }

  lemma FrontIsDistinct(defs: seq<Index>)
    requires defs != [] && DistinctTables(defs)
    ensures DistinctTables(defs[..|defs| - 1])
  {
    hide Lower;
  }

  lemma OthersDiffer(defs: seq<Index>)
    requires defs != [] && DistinctTables(defs)
    ensures forall d | d in defs[..|defs| - 1] :: Lower(d.name) != Lower(defs[|defs| - 1].name)
    ensures !IsDefined(defs[..|defs| - 1], Lower(defs[|defs| - 1].name))
  {
    hide Lower;
  }

  /** What a definition's table was really built with: fingerprints tell definitions apart. */
  lemma BuiltMeansBuilt(d: Index, db: VecDb, ids: IriIds)
    requires Current(db, ids) && HasIris(d) && IsBuilt(d, db.meta)
    ensures var t := Lower(d.name);
      && t in db.tables && t in db.inserts && db.inserts[t] == BuildOf(d, ids) && db.deletes[t] == ids(d.property)
      && TableAgrees(db, BuildOf(d, ids), db.tables[t])
  {
    hide TableAgrees, IsValid, Fingerprint, HasIris, Lower;
    var d' :| BuiltFrom(db, Lower(d.name), d', ids);
    FingerprintsDiffer(d, d');
  }

  /** Synchronising leaves exactly the defined tables, each built from its definition and in
      agreement with the quads, and then there is nothing left to synchronise; it fails only for
      a value of the wrong dimensions. */
  lemma SyncBuildsDefinitions(defs: seq<Index>, names: seq<string>, db: VecDb, ids: IriIds)
    requires Current(db, ids) && DistinctTables(defs) && forall d | d in defs :: IsValid(d) && HasIris(d)
    requires forall t :: t in names <==> t in db.meta
    ensures var out := Perform(OrphanDrops(names, defs) + Rebuilds(defs, db.meta, ids), db);
      && (out.Failed? <==> Refused(defs, db.meta, db, ids))
      && (out.Done? ==>
        && Current(out.db, ids) && SameData(db, out.db) && out.db.meta.Keys == (set d | d in defs :: Lower(d.name))
        && (forall d | d in defs :: IsBuilt(d, out.db.meta)))
  {
    hide Perform, Lower, SomeMisfits, IsValid, HasIris, Fingerprint, BuildOf, TableAgrees, OrphanDrops, Rebuilds,
      DistinctTables;
    NamesAreLower(db, ids);
    OrphansAreDropped(names, defs, db, ids);
    var mid := Perform(OrphanDrops(names, defs), db).db;
    PerformConcat(OrphanDrops(names, defs), Rebuilds(defs, db.meta, ids), db);
    assert forall d | d in defs :: IsDefined(defs, Lower(d.name));
    assert mid.meta.Keys <= set d | d in defs :: Lower(d.name);
    DefinitionsAreBuilt(defs, db.meta, mid, ids);
  }

  lemma NamesAreLower(db: VecDb, ids: IriIds)
    requires Current(db, ids)
    ensures forall t | t in db.meta :: Lower(t) == t
  {
    hide TableAgrees, Fingerprint, IsValid, HasIris, Lower;
    forall t | t in db.meta
      ensures Lower(t) == t
    {
      var d :| BuiltFrom(db, t, d, ids);
      LowerTwice(d.name);
    }
  }

  lemma {:induction false} NothingToDrop(names: seq<string>, defs: seq<Index>)
    requires forall t | t in names :: IsDefined(defs, t)
    ensures OrphanDrops(names, defs) == []
    decreases |names|
  {
    if names != [] {
      NothingToDrop(names[..|names| - 1], defs);
    }
  }

  lemma {:induction false} NothingToBuild(defs: seq<Index>, built: map<string, string>, ids: IriIds)
    requires forall d | d in defs :: IsBuilt(d, built)
    ensures Rebuilds(defs, built, ids) == []
    decreases |defs|
  {
    if defs != [] {
      NothingToBuild(defs[..|defs| - 1], built, ids);
    }
  }

  /** A second synchronisation has no statements, whatever was written in between. */
  lemma SecondSyncIsEmpty(defs: seq<Index>, names: seq<string>, built: map<string, string>, ids: IriIds)
    requires built.Keys == (set d | d in defs :: Lower(d.name)) && forall d | d in defs :: IsBuilt(d, built)
    requires forall t :: t in names <==> t in built
    ensures OrphanDrops(names, defs) + Rebuilds(defs, built, ids) == []
  {
    NothingToDrop(names, defs);
    NothingToBuild(defs, built, ids);
  }

  // ------------------------------------------------------------------ every committed state

  datatype VecRequest = Write(statements: seq<VecStatement>) | Synchronise(defs: seq<Index>, names: seq<string>)

  function StatementsOf(request: VecRequest, db: VecDb, ids: IriIds): seq<VecStatement> {
    match request
    case Write(statements) => statements
    case Synchronise(defs, names) => OrphanDrops(names, defs) + Rebuilds(defs, db.meta, ids)
  }

  /** Each statement is a write where it comes to be run. */
  predicate AreWrites(statements: seq<VecStatement>, db: VecDb) {
    statements != [] ==>
      IsWrite(statements[0], db) && (Act(statements[0], db).Done?
        ==> AreWrites(statements[1..], Act(statements[0], db).db))
  }

  /** Writes carry terms and quads; a synchronisation reads the fingerprints stored now. */
  predicate IsLegal(request: VecRequest, db: VecDb) {
    match request
    case Write(statements) => AreWrites(statements, db)
    case Synchronise(defs, names) =>
      DistinctTables(defs) && (forall d | d in defs :: IsValid(d) && HasIris(d))
      && (forall t | t in names :: t in db.meta) && forall t | t in db.meta :: t in names
  }

  /** A request commits as a whole or changes nothing. */
  function Commit(request: VecRequest, db: VecDb, ids: IriIds): VecDb {
    match Perform(StatementsOf(request, db, ids), db)
    case Done(next) => next
    case Failed => db
  }

  function CommitAll(requests: seq<VecRequest>, db: VecDb, ids: IriIds): VecDb {
    if requests == [] then db else Commit(requests[|requests| - 1], CommitAll(requests[..|requests| - 1], db, ids), ids)
  }

  predicate AllLegal(requests: seq<VecRequest>, db: VecDb, ids: IriIds) {
    forall i | 0 <= i < |requests| :: IsLegal(requests[i], CommitAll(requests[..i], db, ids))
  }

  lemma {:induction false} WritesPerform(statements: seq<VecStatement>, db: VecDb, ids: IriIds)
    requires Current(db, ids) && AreWrites(statements, db)
    requires Perform(statements, db).Done?
    ensures Current(Perform(statements, db).db, ids)
    decreases |statements|
  {
    hide Current, Act, IsWrite;
    if statements != [] {
      WritesKeepTables(statements[0], db, ids);
      WritesPerform(statements[1..], Act(statements[0], db).db, ids);
    }
  }

  /** In every committed state every vector table has exactly the keys of its property's quads,
      all of the declared dimensions. */
  lemma {:induction false} CommittedTablesAgree(requests: seq<VecRequest>, db: VecDb, ids: IriIds)
    requires Current(db, ids) && AllLegal(requests, db, ids)
    ensures Current(CommitAll(requests, db, ids), ids)
    decreases |requests|
  {
    hide Current, Perform, IsLegal;
    if requests != [] {
      var front, last := requests[..|requests| - 1], requests[|requests| - 1];
      assert forall i | 0 <= i < |front| :: front[..i] == requests[..i];
      CommittedTablesAgree(front, db, ids);
      CommitKeepsCurrent(last, CommitAll(front, db, ids), ids);
    }
  }

  lemma CommitKeepsCurrent(request: VecRequest, db: VecDb, ids: IriIds)
    requires Current(db, ids) && IsLegal(request, db)
    ensures Current(Commit(request, db, ids), ids)
  {
    hide Current, Perform, DistinctTables, IsValid, HasIris, AreWrites;
    match request
    case Write(statements) =>
      if Perform(statements, db).Done? {
        WritesPerform(statements, db, ids);
      }
    case Synchronise(defs, names) => SyncBuildsDefinitions(defs, names, db, ids);
  }

  /** `clear_job`, as far as vectors go: all quads, then all terms. */
  function ClearEverything(db: VecDb): VecRequest {
    Write([RemoveQuads(db.quads), RemoveTerms(db.texts.Keys)])
  }

  /** Clearing is such a write; it empties every table and takes down none. */
  lemma ClearingEmptiesTables(db: VecDb, ids: IriIds)
    requires Current(db, ids)
    ensures IsLegal(ClearEverything(db), db)
    ensures var after := Commit(ClearEverything(db), db, ids);
      && after.quads == {} && after.texts == map[] && after.tables.Keys == db.tables.Keys
      && forall t | t in after.tables :: after.tables[t] == {}
  {
    hide BuiltFrom, SomeMisfits, Kept;
    var quads, terms := RemoveQuads(db.quads), RemoveTerms(db.texts.Keys);
    WritesKeepTables(quads, db, ids);
    var mid := Act(quads, db).db;
    assert mid.quads == {};
    PerformCons(quads, [terms], db);
    PerformCons(terms, [], mid);
    assert [quads] + [terms] == [quads, terms] && [terms] + [] == [terms];
    assert IsWrite(terms, mid) && AreWrites([terms][1..], Act(terms, mid).db);
    assert [quads, terms][1..] == [terms];
    assert AreWrites([terms], mid);
  }

  /** A store that has no vector tables yet. */
  function NoTables(quads: set<Quad>, texts: map<Id, Text>): VecDb {
    VecDb(quads, texts, map[], map[], map[], map[])
  }

  lemma NoTablesIsCurrent(quads: set<Quad>, texts: map<Id, Text>, ids: IriIds)
    ensures Current(NoTables(quads, texts), ids)
  {
  }

  /** So whatever quads were there before the first index was defined, and whatever came since. */
  lemma TablesAgreeFromTheStart(requests: seq<VecRequest>, quads: set<Quad>, texts: map<Id, Text>, ids: IriIds)
    requires AllLegal(requests, NoTables(quads, texts), ids)
    ensures Current(CommitAll(requests, NoTables(quads, texts), ids), ids)
  {
    NoTablesIsCurrent(quads, texts, ids);
    CommittedTablesAgree(requests, NoTables(quads, texts), ids);
  }

  /** What a table of a current store holds, said of its definition: a row of the definition's
      element type for each quad of its property, whose value has the definition's dimensions. */
  ghost predicate HoldsVectorsOf(db: VecDb, t: string, d: Index, ids: IriIds) {
    && t in db.tables && |t| == |d.name| && (forall i | 0 <= i < |t| :: t[i] == LowerChar(d.name[i]))
    && (forall r :: r in db.tables[t] <==>
          r.elementType == d.elementType && exists p :: p == ids(d.property) && Quad(r.s, p, r.o, r.g) in db.quads)
    && forall q | q in db.quads && q.p == ids(d.property) ::
         q.o in db.texts && db.texts[q.o].length == d.dimensions && d.elementType in db.texts[q.o].readable
  }

  lemma TablesHoldVectors(db: VecDb, t: string, ids: IriIds)
    requires Current(db, ids) && t in db.tables
    ensures exists d :: BuiltFrom(db, t, d, ids) && HoldsVectorsOf(db, t, d, ids)
  {
    hide Fingerprint, HasIris, IsValid, LowerChar;
    var d :| BuiltFrom(db, t, d, ids);
    var build, rows, p := db.inserts[t], db.tables[t], ids(d.property);
    assert TableAgrees(db, build, rows);
    forall r
      ensures r in rows <==> r.elementType == d.elementType && Quad(r.s, p, r.o, r.g) in db.quads
    {
      if r in rows {
        var q :| q in db.quads && q.p == build.property && r == EmbeddingRow(build, q);
        assert q == Quad(r.s, p, r.o, r.g);
      }
      if r.elementType == d.elementType && Quad(r.s, p, r.o, r.g) in db.quads {
        assert EmbeddingRow(build, Quad(r.s, p, r.o, r.g)) == r;
      }
    }
    forall q | q in db.quads && q.p == p
      ensures q.o in db.texts && db.texts[q.o].length == d.dimensions && d.elementType in db.texts[q.o].readable
    {
      assert !Misfits(db.texts, build, q);
    }
  }
}
