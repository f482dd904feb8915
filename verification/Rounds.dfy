/** One materialization round: the rule statements in order, then the attribution of what they added
    (reason.rs). */
module Rounds {
  import opened OwlRules
  import opened Database
  import opened Updates

  function RuleStatements(rules: seq<Rule>): seq<Statement> {
    if rules == [] then [] else [RuleStatement(rules[0])] + RuleStatements(rules[1..])
  }

  /** `materialize_round`: every rule, then the attribution of what they added. */
  function RoundStatements(): seq<Statement> {
    RuleStatements(ROUND) + [Attribute(OWL_PRODUCER)]
  }

  /** The rule statements of a round, one after the other. */
  function AfterRules(rules: seq<Rule>, db: Db): Db {
    if rules == [] then db else AfterRules(rules[1..], db.(inf := db.inf + RuleRows(rules[0], db)))
  }

  /** A round with these rules: the rows they add, then everything unclaimed attributed. */
  function AfterRound(rules: seq<Rule>, db: Db): Db {
    var mid := AfterRules(rules, db);
    mid.(src := mid.src + Claims(OWL_PRODUCER, mid))
  }

  lemma {:induction false} RulesOnlyAdd(rules: seq<Rule>, db: Db)
    ensures db.inf <= AfterRules(rules, db).inf
    ensures AfterRules(rules, db) == db.(inf := AfterRules(rules, db).inf)
    decreases |rules|
  {
    hide RuleRows;
    if rules != [] {
      RulesOnlyAdd(rules[1..], db.(inf := db.inf + RuleRows(rules[0], db)));
    }
  }

  lemma RunNone(db: Db)
    ensures Run([], db) == Committed(db) && db == db.(inf := db.inf)
  {
  }

  lemma RuleApplies(rule: Rule, db: Db)
    ensures Apply(RuleStatement(rule), db) == Committed(db.(inf := db.inf + RuleRows(rule, db)))
  {
    hide RuleRows;
  }

  lemma {:induction false} RulesRunAs(rules: seq<Rule>, db: Db)
    ensures Run(RuleStatements(rules), db) == Committed(AfterRules(rules, db))
    decreases |rules|
  {
    hide Apply, Run, RuleRows;
    if rules == [] {
      RunNone(db);
    } else {
      var next := db.(inf := db.inf + RuleRows(rules[0], db));
      RuleApplies(rules[0], db);
      RunCons(RuleStatement(rules[0]), RuleStatements(rules[1..]), db);
      RulesRunAs(rules[1..], next);
    }
  }

  /** The statements of a round make what `AfterRound` says. */
  lemma RoundRunsAs(db: Db)
    ensures Run(RoundStatements(), db) == Committed(AfterRound(ROUND, db))
  {
    hide AfterRules, RuleStatements, Claims;
    var mid := AfterRules(ROUND, db);
    RulesRunAs(ROUND, db);
    RunConcat(RuleStatements(ROUND), [Attribute(OWL_PRODUCER)], db);
    RunOne(Attribute(OWL_PRODUCER), mid);
  }
}
