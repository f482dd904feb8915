/** OWL 2 RL materialization: rounds of rule statements until one changes nothing (ops.rs,
    reason.rs). */
module Materialization {
  import opened Ids
  import opened OwlRules
  import opened Database
  import opened Rounds

  // ------------------------------------------------------------------ rounds

  function AfterRounds(n: nat, rules: seq<Rule>, db: Db): Db {
    if n == 0 then db else AfterRound(rules, AfterRounds(n - 1, rules, db))
  }

  /** Rows inserted by a round, as the response reports them. */
  function RoundChanges(rules: seq<Rule>, db: Db): nat {
    |AfterRound(rules, db).inf - db.inf| + |AfterRound(rules, db).src - db.src|
  }

  /** A round that changes nothing. */
  predicate Saturated(rules: seq<Rule>, db: Db) {
    RoundChanges(rules, db) == 0
  }

  // ------------------------------------------------------------------ a zero-change round

  /** Every valid conclusion of the rules is asserted in the default graph or inferred. */
  predicate ClosedUnder(rules: seq<Rule>, db: Db) {
    forall i | 0 <= i < |rules| :: RuleRows(rules[i], db) <= db.inf
  }

  lemma SaturatedAddsNothing(rules: seq<Rule>, db: Db)
    requires Saturated(rules, db)
    ensures AfterRules(rules, db).inf == db.inf
  {
    hide AfterRules, Claims;
    RulesOnlyAdd(rules, db);
    assert AfterRound(rules, db).inf - db.inf == {};
  }

  lemma {:induction false} NothingAddedIsClosed(rules: seq<Rule>, db: Db)
    requires AfterRules(rules, db).inf <= db.inf
    ensures ClosedUnder(rules, db)
    decreases |rules|
  {
    hide RuleRows;
    if rules != [] {
      var next := db.(inf := db.inf + RuleRows(rules[0], db));
      RulesOnlyAdd(rules[1..], next);
      assert next.inf <= db.inf;
      assert next == db;
      NothingAddedIsClosed(rules[1..], db);
    }
  }

  /** A round that changes nothing leaves the store as it is. */
  lemma SaturatedStays(rules: seq<Rule>, db: Db)
    requires Saturated(rules, db)
    ensures AfterRound(rules, db) == db
  {
    hide AfterRules, Claims;
    RulesOnlyAdd(rules, db);
    SaturatedAddsNothing(rules, db);
    assert AfterRound(rules, db).src - db.src == {};
  }

  /** When a round changes nothing, the store is closed under all of its rules. */
  lemma StopsAtClosedStore(rules: seq<Rule>, db: Db)
    requires Saturated(rules, db)
    ensures ClosedUnder(rules, db)
  {
    SaturatedAddsNothing(rules, db);
    NothingAddedIsClosed(rules, db);
  }

  // ------------------------------------------------------------------ nothing without derivation

  /** Rule `i` of a round from `db` adds the row: it concludes it from what the rules before it
      have left, where the row is not yet. */
  predicate AddedBy(rules: seq<Rule>, db: Db, i: nat, q: Quad)
    requires i < |rules|
  {
    var sofar := AfterRules(rules[..i], db);
    q !in sofar.inf && q in RuleRows(rules[i], sofar)
  }

  /** One of the first `n` rounds has a rule that adds the row. */
  predicate DerivedBefore(n: nat, rules: seq<Rule>, db: Db, q: Quad) {
    exists k: nat, i: nat | k < n && i < |rules| :: AddedBy(rules, AfterRounds(k, rules, db), i, q)
  }

  lemma {:induction false} RulesRowsAreDerived(rules: seq<Rule>, db: Db, q: Quad)
    requires q in AfterRules(rules, db).inf && q !in db.inf
    ensures exists i: nat | i < |rules| :: AddedBy(rules, db, i, q)
    decreases |rules|
  {
    hide RuleRows;
    assert rules != [];
    var next := db.(inf := db.inf + RuleRows(rules[0], db));
    if q in next.inf {
      assert rules[..0] == [];
      assert AddedBy(rules, db, 0, q);
    } else {
      RulesRowsAreDerived(rules[1..], next, q);
      var i: nat :| i < |rules[1..]| && AddedBy(rules[1..], next, i, q);
      assert rules[..i + 1][0] == rules[0] && rules[..i + 1][1..] == rules[1..][..i];
      assert AddedBy(rules, db, i + 1, q);
    }
  }

  /** Every row that any number of rounds adds had a derivation when it was added: in some round
      one of the rules concluded it from a store that did not have it. */
  lemma {:induction false} RoundRowsAreDerived(n: nat, rules: seq<Rule>, db: Db, q: Quad)
    requires q in AfterRounds(n, rules, db).inf && q !in db.inf
    ensures DerivedBefore(n, rules, db, q)
  {
    hide AfterRules, AddedBy, Claims;
    if n > 0 {
      var before := AfterRounds(n - 1, rules, db);
      if q in before.inf {
        RoundRowsAreDerived(n - 1, rules, db, q);
      } else {
        RulesRowsAreDerived(rules, before, q);
      }
    }
  }

  lemma {:induction false} RoundsOnlyAdd(n: nat, rules: seq<Rule>, db: Db)
    ensures AfterRounds(n, rules, db).quads == db.quads && db.inf <= AfterRounds(n, rules, db).inf
  {
    hide AfterRules, Claims;
    if n > 0 {
      RoundsOnlyAdd(n - 1, rules, db);
      RulesOnlyAdd(rules, AfterRounds(n - 1, rules, db));
    }
  }
}
