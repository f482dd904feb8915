/** Inferred quads and the producers that claim them: `inference_reset`, `inference_attribute`
    and `inference_replace` (reason.rs). */
module Provenance {
  import opened Ids
  import opened Database
  import opened Updates

  // ------------------------------------------------------------------ the statements

  function ResetStatements(src: Producer): seq<Statement> {
    [RegisterProducer(src), DeleteAttributions(src), DeleteUnattributed]
  }

  function ReplaceStatements(src: Producer, quads: set<Quad>): seq<Statement> {
    ResetStatements(src) + [InsertInferred(quads), Attribute(src)]
  }

  // ------------------------------------------------------------------ the invariant

  /** No quad has two producers. */
  predicate OneProducer(db: Db) {
    forall a, b | a in db.src && b in db.src :: a.quad == b.quad ==> a == b
  }

  /** No producer row names a quad that is not inferred. */
  predicate NoneDangling(db: Db) {
    Claimed(db) <= db.inf
  }

  predicate AllClaimed(db: Db) {
    db.inf <= Claimed(db)
  }

  /** Each inferred quad has exactly one producer row, and no producer row dangles. */
  predicate Attributed(db: Db) {
    OneProducer(db) && NoneDangling(db) && AllClaimed(db)
  }

  /** The quads a producer owns. */
  function OwnedBy(db: Db, src: Producer): set<Quad> {
    set a | a in db.src && a.src == src :: a.quad
  }

  function OwnedByOthers(db: Db, src: Producer): set<Quad> {
    set a | a in db.src && a.src != src :: a.quad
  }

  // ------------------------------------------------------------------ resetting

  /** After a reset only what others own is left, untouched. */
  function AfterReset(src: Producer, db: Db): Db {
    db.(producers := db.producers + {src},
        src := OthersRows(db.src, src),
        inf := db.inf * OwnedByOthers(db, src))
  }

  lemma ResetRuns(src: Producer, db: Db)
    ensures Run(ResetStatements(src), db) == Committed(AfterReset(src, db))
  {
    hide Run;
    var d1 := db.(producers := db.producers + {src});
    var d2 := d1.(src := OthersRows(d1.src, src));
    assert Claimed(d2) == OwnedByOthers(db, src);
    ResetApplies(src, db, d1, d2);
    hide Apply;
    RunCons(RegisterProducer(src), [DeleteAttributions(src)] + [DeleteUnattributed], db);
    RunCons(DeleteAttributions(src), [DeleteUnattributed], d1);
    RunOne(DeleteUnattributed, d2);
    assert ResetStatements(src) == [RegisterProducer(src)] + ([DeleteAttributions(src)] + [DeleteUnattributed]);
  }

  lemma ResetApplies(src: Producer, db: Db, d1: Db, d2: Db)
    requires d1 == db.(producers := db.producers + {src})
    requires d2 == d1.(src := OthersRows(d1.src, src))
    ensures Apply(RegisterProducer(src), db) == Committed(d1)
    ensures Apply(DeleteAttributions(src), d1) == Committed(d2)
    ensures Apply(DeleteUnattributed, d2) == Committed(d2.(inf := d2.inf * Claimed(d2)))
  {
  }

  /** A reset of P leaves exactly the quads others claim, with their rows, and nothing of P's. */
  lemma ResetKeepsOthers(src: Producer, db: Db)
    requires Attributed(db)
    ensures Attributed(AfterReset(src, db))
    ensures AfterReset(src, db).inf == OwnedByOthers(db, src) == db.inf - OwnedBy(db, src)
    ensures forall other | other != src :: OwnedBy(AfterReset(src, db), other) == OwnedBy(db, other)
    ensures OwnedBy(AfterReset(src, db), src) == {}
  {
    var after := AfterReset(src, db);
    assert Claimed(after) == OwnedByOthers(db, src);
    assert OwnedByOthers(db, src) <= Claimed(db);
    forall q | q in db.inf
      ensures q in OwnedByOthers(db, src) <==> q !in OwnedBy(db, src)
    {
      var a :| a in db.src && a.quad == q;
    }
    forall other | other != src
      ensures OwnedBy(after, other) == OwnedBy(db, other)
    {
    }
  }

  // ------------------------------------------------------------------ attributing

  lemma ClaimedAfter(src: Producer, db: Db)
    requires OneProducer(db) && NoneDangling(db)
    ensures Attributed(db.(src := db.src + Claims(src, db)))
  {
    var after := db.(src := db.src + Claims(src, db));
    forall q | q in db.inf
      ensures q in Claimed(after)
    {
      if q !in Claimed(db) {
        assert Attribution(src, q) in after.src;
      } else {
        var a :| a in db.src && a.quad == q;
        assert a in after.src;
      }
    }
  }

  /** After a replace: others' rows as before, and P owns what it asked for and nobody else has. */
  function AfterReplace(src: Producer, quads: set<Quad>, db: Db): Db {
    var others := OwnedByOthers(db, src);
    db.(producers := db.producers + {src},
        src := OthersRows(db.src, src) + (set q | q in quads - others :: Attribution(src, q)),
        inf := others + quads)
  }

  lemma ReplaceRuns(src: Producer, quads: set<Quad>, db: Db)
    requires Attributed(db)
    ensures Run(ReplaceStatements(src, quads), db) == Committed(AfterReplace(src, quads, db))
  {
    hide Run, ResetStatements;
    var mid := AfterReset(src, db);
    ResetRuns(src, db);
    ResetKeepsOthers(src, db);
    RunConcat(ResetStatements(src), [InsertInferred(quads), Attribute(src)], db);
    var wide := mid.(inf := mid.inf + quads);
    ReplaceApplies(src, quads, mid);
    assert Claims(src, wide) == set q | q in quads - OwnedByOthers(db, src) :: Attribution(src, q) by {
      assert Claimed(wide) == OwnedByOthers(db, src);
    }
    hide Apply;
    RunCons(InsertInferred(quads), [Attribute(src)], mid);
    RunOne(Attribute(src), wide);
    assert [InsertInferred(quads), Attribute(src)] == [InsertInferred(quads)] + [Attribute(src)];
  }

  lemma ReplaceApplies(src: Producer, quads: set<Quad>, mid: Db)
    ensures Apply(InsertInferred(quads), mid) == Committed(mid.(inf := mid.inf + quads))
    ensures var wide := mid.(inf := mid.inf + quads);
            Apply(Attribute(src), wide) == Committed(wide.(src := wide.src + Claims(src, wide)))
  {
  }

  /** `inference_replace(P, Q)`: other producers keep exactly their rows and quads, P owns exactly
      what of Q nobody else owns, and every quad still has one producer. */
  lemma ReplaceGivesWhatOthersLack(src: Producer, quads: set<Quad>, db: Db)
    requires Attributed(db)
    ensures var after := Execute(ReplaceStatements(src, quads), db);
      && Attributed(after)
      && after.inf == OwnedByOthers(db, src) + quads
      && OwnedBy(after, src) == quads - OwnedByOthers(db, src)
      && OwnedByOthers(after, src) == OwnedByOthers(db, src)
      && (forall other | other != src :: OwnedBy(after, other) == OwnedBy(db, other))
      && after.quads == db.quads && after.tbox == db.tbox && after.shapes == db.shapes && after.graphs == db.graphs
  {
    ReplaceRuns(src, quads, db);
    var after := AfterReplace(src, quads, db);
    AfterReplaceOwners(src, quads, db);
    assert OwnedByOthers(db, src) <= Claimed(db);
  }

  lemma AfterReplaceOwners(src: Producer, quads: set<Quad>, db: Db)
    requires Attributed(db)
    ensures var after := AfterReplace(src, quads, db);
      && OwnedBy(after, src) == quads - OwnedByOthers(db, src)
      && OwnedByOthers(after, src) == OwnedByOthers(db, src)
      && (forall other | other != src :: OwnedBy(after, other) == OwnedBy(db, other))
      && Attributed(after)
  {
    var after := AfterReplace(src, quads, db);
    forall q | q in quads - OwnedByOthers(db, src)
      ensures q in OwnedBy(after, src)
    {
      assert Attribution(src, q) in after.src;
    }
    assert OwnedByOthers(after, src) == OwnedByOthers(db, src);
    forall other | other != src
      ensures OwnedBy(after, other) == OwnedBy(db, other)
    {
    }
    forall q | q in after.inf
      ensures q in Claimed(after)
    {
      if q in OwnedByOthers(db, src) {
        assert q in OwnedByOthers(after, src);
      } else {
        assert q in OwnedBy(after, src);
      }
    }
  }

  /** The last replace of a producer wins, whatever it had before; repeating one changes nothing. */
  lemma LastReplaceWins(src: Producer, first: set<Quad>, last: set<Quad>, db: Db)
    requires Attributed(db)
    ensures Execute(ReplaceStatements(src, last), Execute(ReplaceStatements(src, first), db))
         == Execute(ReplaceStatements(src, last), db)
  {
    hide Run, ReplaceStatements;
    var once := AfterReplace(src, first, db);
    ReplaceRuns(src, first, db);
    AfterReplaceOwners(src, first, db);
    ReplaceRuns(src, last, once);
    ReplaceRuns(src, last, db);
    assert OthersRows(once.src, src) == OthersRows(db.src, src);
  }

  /** Being derived by two producers does not protect a quad: the one that wrote it first owns
      it alone, and resetting that one removes it although the other derived it too. */
  lemma SharedQuadIsLost(first: Producer, second: Producer, q: Quad, db: Db)
    requires Attributed(db) && first != second && q !in Claimed(db)
    ensures var both := Execute(ReplaceStatements(second, {q}), Execute(ReplaceStatements(first, {q}), db));
      q in both.inf && q !in Execute(ResetStatements(first), both).inf
  {
    hide Run, ReplaceStatements, ResetStatements;
    var one := AfterReplace(first, {q}, db);
    ReplaceRuns(first, {q}, db);
    AfterReplaceOwners(first, {q}, db);
    assert q !in OwnedByOthers(db, first);
    assert q in OwnedBy(one, first) && q in OwnedByOthers(one, second);
    var both := AfterReplace(second, {q}, one);
    ReplaceRuns(second, {q}, one);
    AfterReplaceOwners(second, {q}, one);
    ResetRuns(first, both);
    ResetKeepsOthers(first, both);
    assert q in OwnedBy(both, first);
  }
}
