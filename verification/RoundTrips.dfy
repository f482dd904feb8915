/** What is encoded and stored comes back from resolution, in as many rounds as triple terms are
    nested, plus one (encoding.rs, resolve.rs, job.rs). */
module RoundTrips {
  import opened Ids
  import opened Encoding
  import opened Dictionaries
  import opened Resolver

  function Depth(t: Term): nat {
    if t.TripleOf? then 1 + Depth(t.o) else 0
  }

  // ------------------------------------------------------------------ what the database answers

  function RowsFor(tables: Tables, triples: bool, ids: seq<int>): seq<Row> {
    if ids == [] then []
    else
      var front, id := RowsFor(tables, triples, ids[..|ids| - 1]), ids[|ids| - 1];
      if triples && id in tables.triples then front + [Parts(tables.triples[id])]
      else if !triples && id in tables.terms then front + [Plain(tables.terms[id])]
      else front
  }

  function Replies(tables: Tables, lookups: seq<Lookup>): seq<seq<Row>> {
    seq(|lookups|, i requires 0 <= i < |lookups| => RowsFor(tables, lookups[i].TripleLookup?, lookups[i].ids))
  }

  // ------------------------------------------------------------------ what a round achieves

  predicate Covered(st: State, flight: set<int>, id: int) {
    id in st.known || id in st.pending || id in st.triples || id in flight
  }

  /** Every wanted id and every part of a waiting triple term is on its way, and what is still to
      be asked for is at most this deep. */
  ghost predicate Progress(w: World, wanted: set<int>, flight: set<int>, st: State, depth: int) {
    && Sound(w, st)
    && (forall id | id in st.pending :: id in IdsOf(w, w.terms) && Depth(TermAt(w, id)) <= depth)
    && (forall id | id in wanted :: Covered(st, flight, id))
    && (forall q | q in st.triples :: AllCovered(st, flight, st.triples[q]))
  }

  predicate AllCovered(st: State, flight: set<int>, r: TripleRow) {
    Covered(st, flight, r.s) && Covered(st, flight, r.p) && Covered(st, flight, r.o)
  }

  /** An id the dictionary must answer for. */
  ghost predicate IsAskable(w: World, id: int) {
    id in IdsOf(w, w.held) && DecodeInline(id) == None
  }

  lemma TermTags(h: Hash, t: Term)
    ensures TagOf(TermId(h, t)) == Some(TripleTag) <==> t.TripleOf?
    ensures TermId(h, t) != DEFAULT_GRAPH_ID
    ensures t.TripleOf? ==> DecodeInline(TermId(h, t)) == None
  {
    hide Parse, Decimal, Payload;
    match t
    case NamedNode(iri) => MakeSplits(IriTag, h(TextKey(IriTag, iri)));
    case BlankNode(name) => MakeSplits(BlankTag, h(TextKey(BlankTag, name)));
    case LiteralTerm(l) => LiteralTags(h, l);
    case TripleOf(s, p, o) => MakeSplits(TripleTag, h(TripleKey(SubjectId(h, s), Hashed(h, IriTag, p), TermId(h, o))));
  }

  lemma LiteralTags(h: Hash, l: Literal)
    ensures TagOf(EncodeLiteral(h, l).0).Some? && TagOf(EncodeLiteral(h, l).0).value !in {TripleTag, DefaultTag}
    ensures EncodeLiteral(h, l).0 != DEFAULT_GRAPH_ID
  {
    hide Parse, Decimal, Make, Hashed, Payload;
    match l
    case Simple(lex) => HashedTag(h, StringTag, lex);
    case Tagged(lex, lang) => HashedTag(h, LangTag, lang + [NUL] + lex);
    case Directed(lex, lang, rtl) => HashedTag(h, DirLangTag, lang + [NUL] + Direction(rtl) + [NUL] + lex);
    case Typed(lex, dt) =>
      HashedTag(h, TypedTag, dt + [NUL] + lex);
      if InlineInteger(l).Some? {
        MakeSplits(IntegerTag, Parse(lex).value + INT_OFFSET);
      }
      MakeSplits(BooleanTag, 0);
      MakeSplits(BooleanTag, 1);
  }

  /** The dictionary has the one row that an id it must answer for decodes from. */
  lemma HeldIdsHaveRows(w: World, tables: Tables, id: int)
    requires ValidWorld(w, tables) && IsAskable(w, id)
    ensures id in IdsOf(w, w.terms) && TermAt(w, id) in w.held
    ensures TagOf(id) == Some(TripleTag) ==>
      id in tables.triples && tables.triples[id].id == id && IsTripleOf(w, id, tables.triples[id])
    ensures TagOf(id) != Some(TripleTag) ==>
      id in tables.terms && tables.terms[id].id == id && DecodeRow(tables.terms[id]) == Some(TermAt(w, id))
  {
    hide TermId, TermAt, DecodeInline, DecodeRow, TagOf, ValidTerm, RowOf;
    var t :| t in w.held && TermId(w.h, t) == id;
    TermAtId(w, tables, t);
    TermTags(w.h, t);
    if t.TripleOf? {
      assert TripleRowFor(w.h, t.s, t.p, t.o) in TripleRowsOf(w.h, t);
    } else {
      PlainTermsDecode(w.h, t);
      assert RowOf(w.h, t).value in TermRowsOf(w.h, t);
    }
  }

  /** Wanting an id puts it on its way. */
  lemma WantAdvances(w: World, tables: Tables, wanted: set<int>, flight: set<int>, st: State, id: int, depth: int)
    requires ValidWorld(w, tables) && Progress(w, wanted, flight, st, depth)
    requires id in IdsOf(w, w.held) || id in st.known
    requires id !in st.known ==> id in IdsOf(w, w.terms) && Depth(TermAt(w, id)) <= depth
    ensures Progress(w, wanted + {id}, flight, Want(st, id), depth)
    ensures Covered(Want(st, id), {}, id)
  {
    hide TermId, TermAt, ValidTerm, Holds, DecodeInline, IsTripleOf, Depth;
    if id !in st.known {
      HeldIdsDecodeInline(w, tables, id);
    }
  }

  /** A held id that decodes by itself decodes right. */
  lemma HeldIdsDecodeInline(w: World, tables: Tables, id: int)
    requires ValidWorld(w, tables) && id in IdsOf(w, w.held)
    ensures id in IdsOf(w, w.terms) && id != DEFAULT_GRAPH_ID
    ensures DecodeInline(id).Some? ==> DecodeInline(id) == Some(TermAt(w, id))
  {
    hide TermId, TermAt, ValidTerm, Holds, RowOf, DecodeInline, TagOf;
    var t :| t in w.held && TermId(w.h, t) == id;
    TermAtId(w, tables, t);
    TermTags(w.h, t);
    if !t.TripleOf? {
      PlainTermsDecode(w.h, t);
    }
  }

  function RowAt(tables: Tables, triples: bool, id: int): Row
    requires if triples then id in tables.triples else id in tables.terms
  {
    if triples then Parts(tables.triples[id]) else Plain(tables.terms[id])
  }

  /** The row of an id in flight takes it out of flight. */
  lemma RowAdvances(w: World, tables: Tables, wanted: set<int>, flight: set<int>, st: State, id: int, depth: int)
    requires ValidWorld(w, tables) && Progress(w, wanted, flight, st, depth - 1)
    requires IsAskable(w, id) && id in IdsOf(w, w.terms) && Depth(TermAt(w, id)) <= depth
    ensures var triples := TagOf(id) == Some(TripleTag);
      && (if triples then id in tables.triples else id in tables.terms)
      && var next := AbsorbRow(st, triples, RowAt(tables, triples, id));
         next.Some? && Progress(w, wanted, flight - {id}, next.value, depth - 1)
  {
    hide TermId, TermAt, ValidTerm, Holds, DecodeInline, DecodeRow, TagOf, Depth, ValidWorld;
    HeldIdsHaveRows(w, tables, id);
    if TagOf(id) == Some(TripleTag) {
      PartsAdvance(w, tables, wanted, flight, st, id, depth);
    }
  }

  /** The parts of a triple term are held and shallower. */
  lemma PartsAreShallower(w: World, tables: Tables, id: int)
    requires ValidWorld(w, tables) && id in tables.triples && IsTripleOf(w, id, tables.triples[id])
    ensures forall part | part in {tables.triples[id].s, tables.triples[id].p, tables.triples[id].o} ::
      part in IdsOf(w, w.held) && part in IdsOf(w, w.terms) && Depth(TermAt(w, part)) < Depth(TermAt(w, id))
  {
    hide TermId, TermAt, ValidTerm, Holds, Hashed, SubjectId;
    var t := TermAt(w, id);
    SubjectIds(w.h, t.s);
    IriIds(w.h, t.p);
    TermAtId(w, tables, SubjectTerm(t.s));
    TermAtId(w, tables, NamedNode(t.p));
    TermAtId(w, tables, t.o);
  }

  lemma PartsAreRecorded(w: World, wanted: set<int>, flight: set<int>, st: State, id: int, r: TripleRow, depth: int)
    requires Progress(w, wanted, flight, st, depth) && IsTripleOf(w, id, r)
    ensures Progress(w, wanted, flight + {r.s, r.p, r.o}, st.(triples := st.triples[id := r]), depth)
  {
    hide TermId, TermAt, IsTripleOf, Depth, DecodeInline, IdsOf;
  }

  lemma PartsAdvance(w: World, tables: Tables, wanted: set<int>, flight: set<int>, st: State, id: int, depth: int)
    requires ValidWorld(w, tables) && Progress(w, wanted, flight, st, depth - 1)
    requires id in tables.triples && tables.triples[id].id == id && IsTripleOf(w, id, tables.triples[id])
    requires Depth(TermAt(w, id)) <= depth
    ensures var next := AbsorbRow(st, true, Parts(tables.triples[id]));
      next.Some? && Progress(w, wanted, flight - {id}, next.value, depth - 1)
  {
    hide TermId, TermAt, IsTripleOf, Depth, DecodeInline, IdsOf, ValidWorld, Want, Sound;
    var r := tables.triples[id];
    PartsAreShallower(w, tables, id);
    var st0 := st.(triples := st.triples[id := r]);
    PartsAreRecorded(w, wanted, flight, st, id, r, depth - 1);
    var st1 := Want(st0, r.s);
    WantAdvances(w, tables, wanted, flight + {r.s, r.p, r.o}, st0, r.s, depth - 1);
    var st2 := Want(st1, r.p);
    WantAdvances(w, tables, wanted + {r.s}, flight + {r.s, r.p, r.o}, st1, r.p, depth - 1);
    var st3 := Want(st2, r.o);
    WantAdvances(w, tables, wanted + {r.s} + {r.p}, flight + {r.s, r.p, r.o}, st2, r.o, depth - 1);
    WantGrows(st0, r.s);
    WantGrows(st1, r.p);
    WantGrows(st2, r.o);
  }

  lemma WantGrows(st: State, id: int)
    ensures st.known.Keys <= Want(st, id).known.Keys && st.pending <= Want(st, id).pending
    ensures Want(st, id).triples == st.triples
  {
    hide DecodeInline;
  }

  lemma LastElement(ids: seq<int>)
    requires ids != []
    ensures Elements(ids) == Elements(ids[..|ids| - 1]) + {ids[|ids| - 1]}
    ensures forall id | id in ids[..|ids| - 1] :: id in ids
  {
    assert ids == ids[..|ids| - 1] + [ids[|ids| - 1]];
  }

  /** The answer to a lookup takes all its ids out of flight. */
  lemma {:induction false} LookupAdvances(w: World, tables: Tables, wanted: set<int>, flight: set<int>, st: State,
                                          triples: bool, ids: seq<int>, depth: int)
    requires ValidWorld(w, tables) && Progress(w, wanted, flight, st, depth - 1)
    requires forall id | id in ids :: IsAskable(w, id) && (TagOf(id) == Some(TripleTag)) == triples
    requires forall id | id in ids :: id in IdsOf(w, w.terms) && Depth(TermAt(w, id)) <= depth
    ensures var next := AbsorbRows(st, triples, RowsFor(tables, triples, ids));
      next.Some? && Progress(w, wanted, flight - Elements(ids), next.value, depth - 1)
    decreases |ids|
  {
    hide TermAt, TagOf, ValidWorld, Progress, IsAskable, IdsOf, Depth, AbsorbRow;
    if ids == [] {
      assert flight - Elements(ids) == flight;
    } else {
      var front, id := ids[..|ids| - 1], ids[|ids| - 1];
      LastElement(ids);
      LookupAdvances(w, tables, wanted, flight, st, triples, front, depth);
      var mid := AbsorbRows(st, triples, RowsFor(tables, triples, front)).value;
      RowAdvances(w, tables, wanted, flight - Elements(front), mid, id, depth);
      var rows := RowsFor(tables, triples, ids);
      assert rows == RowsFor(tables, triples, front) + [RowAt(tables, triples, id)];
      assert rows[..|rows| - 1] == RowsFor(tables, triples, front);
      assert flight - Elements(front) - {id} == flight - Elements(ids);
    }
  }

  function Kinds(lookups: seq<Lookup>): seq<bool> {
    seq(|lookups|, i requires 0 <= i < |lookups| => lookups[i].TripleLookup?)
  }

  function AskedFor(lookups: seq<Lookup>): set<int> {
    Asked(lookups, true) + Asked(lookups, false)
  }

  lemma {:induction false} RepliesAdvance(w: World, tables: Tables, wanted: set<int>, flight: set<int>, st: State,
                                          lookups: seq<Lookup>, n: nat, depth: int)
    requires ValidWorld(w, tables) && Progress(w, wanted, flight, st, depth - 1) && n <= |lookups|
    requires forall id | id in AskedFor(lookups[..n]) ::
      IsAskable(w, id) && id in IdsOf(w, w.terms) && Depth(TermAt(w, id)) <= depth
    requires forall id | id in Asked(lookups[..n], true) :: TagOf(id) == Some(TripleTag)
    requires forall id | id in Asked(lookups[..n], false) :: TagOf(id) != Some(TripleTag)
    ensures var next := AbsorbAnswers(st, Kinds(lookups), Replies(tables, lookups), n);
      next.Some? && Progress(w, wanted, flight - AskedFor(lookups[..n]), next.value, depth - 1)
  {
    hide TermAt, TagOf, ValidWorld, Progress, IsAskable, IdsOf, Depth, AbsorbRows, RowsFor;
    if n == 0 {
      assert flight - AskedFor(lookups[..n]) == flight;
    } else {
      var last := lookups[n - 1];
      assert lookups[..n][..n - 1] == lookups[..n - 1];
      assert AskedFor(lookups[..n]) == AskedFor(lookups[..n - 1]) + Elements(last.ids);
      RepliesAdvance(w, tables, wanted, flight, st, lookups, n - 1, depth);
      var mid := AbsorbAnswers(st, Kinds(lookups), Replies(tables, lookups), n - 1).value;
      assert forall id | id in last.ids :: id in Elements(last.ids);
      LookupAdvances(w, tables, wanted, flight - AskedFor(lookups[..n - 1]), mid, last.TripleLookup?, last.ids, depth);
      assert flight - AskedFor(lookups[..n - 1]) - Elements(last.ids) == flight - AskedFor(lookups[..n]);
    }
  }

  /** With nothing in flight, pending or ready, nothing waits: a waiting triple term of least depth
      would have all its parts. */
  lemma {:induction false} NothingWaits(w: World, tables: Tables, wanted: set<int>, st: State, id: int, depth: int)
    requires ValidWorld(w, tables) && Progress(w, wanted, {}, st, depth) && st.pending == {} && id in st.triples
    requires id in IdsOf(w, w.terms)
    ensures Ready(st) != {}
    decreases Depth(TermAt(w, id))
  {
    hide TermId, TermAt, ValidTerm, Holds, Hashed, SubjectId, IdsOf;
    var r, t := st.triples[id], TermAt(w, id);
    SubjectIds(w.h, t.s);
    IriIds(w.h, t.p);
    TermAtId(w, tables, SubjectTerm(t.s));
    TermAtId(w, tables, NamedNode(t.p));
    TermAtId(w, tables, t.o);
    assert AllCovered(st, {}, r);
    if r.o in st.known {
      assert id in Ready(st);
    } else {
      NothingWaits(w, tables, wanted, st, r.o, depth);
    }
  }

  // ------------------------------------------------------------------ whole resolutions

  /** What a caller may want: ids of held terms and of query constants. */
  ghost predicate Wanted(w: World, constants: map<int, Term>, ids: seq<int>, depth: nat) {
    && (forall id | id in constants :: id in IdsOf(w, w.terms) && constants[id] == TermAt(w, id))
    && (forall id | id in ids && id != DEFAULT_GRAPH_ID && id !in constants ::
      id in IdsOf(w, w.held) && id in IdsOf(w, w.terms) && Depth(TermAt(w, id)) <= depth)
  }

  /** What was pending is in flight; its answers leave nothing in flight, one level down. */
  lemma RoundAdvances(w: World, tables: Tables, wanted: set<int>, st: State, lookups: seq<Lookup>, depth: int)
    requires ValidWorld(w, tables) && Progress(w, wanted, {}, st, depth) && st.pending != {}
    requires Asked(lookups, true) == set id | id in st.pending && TagOf(id) == Some(TripleTag)
    requires Asked(lookups, false) == set id | id in st.pending && TagOf(id) != Some(TripleTag)
    ensures depth >= 0
    ensures var next := AbsorbAnswers(st.(pending := {}), Kinds(lookups), Replies(tables, lookups), |lookups|);
      next.Some? && Progress(w, wanted, {}, next.value, depth - 1)
  {
    hide TermAt, TagOf, ValidWorld, IdsOf, Depth, Asked, AbsorbAnswers, Replies, DecodeInline, IsTripleOf;
    forall id | id in st.pending
      ensures depth >= 0
    {
      assert Depth(TermAt(w, id)) <= depth;
    }
    assert depth >= 0;
    assert lookups[..|lookups|] == lookups;
    assert AskedFor(lookups) == st.pending;
    RepliesAdvance(w, tables, wanted, st.pending, st.(pending := {}), lookups, |lookups|, depth);
    assert st.pending - AskedFor(lookups) == {};
  }

  /** Assembling only moves ids from waiting to known. */
  lemma AssemblyKeepsProgress(w: World, wanted: set<int>, before: State, after: State, depth: int)
    requires Progress(w, wanted, {}, before, depth) && Sound(w, after) && after.pending == before.pending
    requires after.known.Keys + after.triples.Keys == before.known.Keys + before.triples.Keys
    requires after.triples.Keys <= before.triples.Keys
    ensures Progress(w, wanted, {}, after, depth)
  {
    hide TermAt, IdsOf, Depth, DecodeInline;
    assert forall id :: id in after.known.Keys + after.triples.Keys <==> id in before.known.Keys + before.triples.Keys;
    forall q | q in after.triples
      ensures AllCovered(after, {}, after.triples[q])
    {
      assert IsTripleOf(w, q, before.triples[q]) && IsTripleOf(w, q, after.triples[q]);
      assert AllCovered(before, {}, before.triples[q]);
    }
  }

  /** A state with nothing pending and nothing ready knows everything wanted. */
  lemma EverythingKnown(w: World, tables: Tables, wanted: set<int>, st: State, depth: int)
    requires ValidWorld(w, tables) && Progress(w, wanted, {}, st, depth) && st.pending == {} && Ready(st) == {}
    ensures forall id | id in wanted :: id in st.known && id in IdsOf(w, w.terms) && st.known[id] == TermAt(w, id)
  {
    hide TermAt, ValidWorld, IdsOf, Depth, DecodeInline, Ready;
    forall id | id in wanted
      ensures id in st.known
    {
      assert Covered(st, {}, id);
      if id in st.triples {
        assert IsTripleOf(w, id, st.triples[id]);
        NothingWaits(w, tables, wanted, st, id, depth);
      }
    }
  }

  lemma StartsWell(w: World, constants: map<int, Term>, depth: nat)
    requires Wanted(w, constants, [], depth)
    ensures Progress(w, {}, {}, State(constants, {}, map[]), depth)
  {
  }

  lemma NothingReady(st: State)
    requires st.triples == map[]
    ensures Ready(st) == {}
  {
  }

  lemma WantedAlready(st: State, id: int)
    requires id == DEFAULT_GRAPH_ID
    ensures Want(st, id) == st
  {
  }

  /** Wanting the ids and looping request and absorb: within `depth + 1` rounds no request is left,
      and then every wanted id is its term. */
  method Resolve(tables: Tables, constants: map<int, Term>, ids: seq<int>, ghost w: World, ghost depth: nat)
    returns (resolver: TermResolver, rounds: nat)
    requires ValidWorld(w, tables) && Wanted(w, constants, ids, depth)
    ensures rounds <= depth + 1
    ensures forall id | id in ids && id != DEFAULT_GRAPH_ID ::
      id in IdsOf(w, w.terms) && resolver.Get(id) == Some(TermAt(w, id))
  {
    hide ValidWorld, IsAskable, DecodeInline, RowsFor, TermAt, IdsOf, Depth, Asked, AbsorbAnswers, Progress, Sound,
      Ready, Want;
    resolver := new TermResolver(constants);
    ghost var wanted := {};
    StartsWell(w, constants, depth);
    for i := 0 to |ids|
      invariant Progress(w, wanted, {}, resolver.St(), depth)
      invariant wanted == (set id | id in ids[..i] && id != DEFAULT_GRAPH_ID)
      invariant constants.Keys <= resolver.known.Keys && resolver.triples == map[]
    {
      ghost var before := resolver.St();
      resolver.WantId(ids[i]);
      WantGrows(before, ids[i]);
      if ids[i] != DEFAULT_GRAPH_ID {
        WantAdvances(w, tables, wanted, {}, before, ids[i], depth);
        wanted := wanted + {ids[i]};
      } else {
        WantedAlready(before, ids[i]);
      }
    }
    NothingReady(resolver.St());
    rounds := 0;
    while true
      invariant Progress(w, wanted, {}, resolver.St(), depth - rounds)
      invariant rounds <= depth + 1 && Ready(resolver.St()) == {}
      decreases depth + 1 - rounds
    {
      ghost var before := resolver.St();
      var request := resolver.Request();
      if request.None? {
        break;
      }
      var lookups := request.value;
      RoundAdvances(w, tables, wanted, before, lookups, depth - rounds);
      assert resolver.inFlight == Kinds(lookups) && Paired(Kinds(lookups), Replies(tables, lookups)) == |lookups|;
      ghost var absorbed := AbsorbAnswers(resolver.St(), Kinds(lookups), Replies(tables, lookups), |lookups|).value;
      var ok := resolver.Absorb(Replies(tables, lookups), w, tables);
      assert ok && Sound(w, absorbed) by { SoundOf(w, wanted, {}, absorbed, depth - rounds - 1); }
      AssemblyKeepsProgress(w, wanted, absorbed, resolver.St(), depth - rounds - 1);
      rounds := rounds + 1;
    }
    EverythingKnown(w, tables, wanted, resolver.St(), depth - rounds);
  }

  lemma SoundOf(w: World, wanted: set<int>, flight: set<int>, st: State, depth: int)
    requires Progress(w, wanted, flight, st, depth)
    ensures Sound(w, st)
  {
  }
}
