/** What the registry's problems are, property by property, and that what plain commands write has
    none (registry.rs). */
module RegistryMeaning {
  import opened Ids
  import opened Registry
  import opened RegistryReader
  import opened RegistryUpdates
  import Database

  // ------------------------------------------------------------------ problems on properties

  predicate IsLowerHex(text: string) {
    |text| == 64 && forall i | 0 <= i < |text| :: text[i] in "0123456789abcdef"
  }

  /** Two values of a property, at different places. */
  predicate HasTwo(props: seq<Prop>, p: Id) {
    exists i, j :: 0 <= i < j < |props| && props[i].p == p && props[j].p == p
  }

  /** What is wrong with the properties of a node. */
  predicate IsWrong(props: seq<Prop>, problem: Problem) {
    match problem
    case TooMany(p) => p in {ACTIVE, ONTOLOGY_IRI, VERSION, SHA256, LOADED_AT} && HasTwo(props, p)
    case NotIri(p, o) => p in {APPLIES_TO, ONTOLOGY_IRI, IMPORTS, OWL_IMPORTS} && Prop(p, o) in props && !o.Iri?
    case WrongLiteral(p, o) =>
      && Prop(p, o) in props
      && (|| (p == ACTIVE && !(o.Literal? && o.kind == XsdBoolean))
          || (p == LOADED_AT && !(o.Literal? && o.kind == XsdDateTime))
          || ((p == VERSION || p == SHA256) && !(o.Literal? && o.kind == XsdString)))
    case NotBoolean(o) =>
      Prop(ACTIVE, o) in props && o.Literal? && o.kind == XsdBoolean && o.lex !in {"true", "false", "1", "0"}
    case NotDigest(o) => Prop(SHA256, o) in props && o.Literal? && !IsLowerHex(o.lex)
    case _ => false
  }

  lemma {:induction false} ManyValues(props: seq<Prop>, p: Id)
    ensures |Values(props, p)| > 0 <==> exists i :: 0 <= i < |props| && props[i].p == p
    ensures |Values(props, p)| > 1 <==> HasTwo(props, p)
    decreases |props|
  {
    if props != [] {
      var k := |props| - 1;
      var front := props[..k];
      ManyValues(front, p);
      if i, j :| 0 <= i < j < |front| && front[i].p == p && front[j].p == p {
        assert props[i].p == p && props[j].p == p;
      }
      if HasTwo(props, p) && !HasTwo(front, p) {
        var i, j :| 0 <= i < j < |props| && props[i].p == p && props[j].p == p;
        assert j < k ==> front[i].p == p && front[j].p == p;
        assert front[i].p == p;
      }
      if i :| 0 <= i < |front| && front[i].p == p {
        assert props[i].p == p;
      }
      if i :| 0 <= i < |props| && props[i].p == p && i < k {
        assert front[i].p == p;
      }
    }
  }

  lemma DigestIsHex(text: string)
    ensures IsDigest(text) <==> IsLowerHex(text)
  {
    forall c: char
      ensures '0' <= c <= '9' || 'a' <= c <= 'f' <==> c in "0123456789abcdef"
    {
      var hex := "0123456789abcdef";
      if '0' <= c <= '9' {
        assert hex[c as int - '0' as int] == c;
      }
      if 'a' <= c <= 'f' {
        assert hex[c as int - 'a' as int + 10] == c;
      }
    }
  }

  /** What the validator calls a violation is what is wrong. */
  lemma ViolationsAreWrong(props: seq<Prop>, problem: Problem)
    ensures Violated(props, problem) <==> IsWrong(props, problem)
  {
    hide Values, HasTwo, IsDigest, IsLowerHex;
    match problem {
      case TooMany(p) => ManyValues(props, p);
      case NotIri(p, o) => ValuesAreProps(props, p, o);
      case WrongLiteral(p, o) => ValuesAreProps(props, p, o);
      case NotBoolean(o) => ValuesAreProps(props, ACTIVE, o);
      case NotDigest(o) =>
        ValuesAreProps(props, SHA256, o);
        if o.Literal? {
          DigestIsHex(o.lex);
        }
      case _ =>
    }
  }

  // ------------------------------------------------------------------ what commands write

  predicate AreDistinct<T(==)>(xs: seq<T>) {
    forall i, j | 0 <= i < j < |xs| :: xs[i] != xs[j]
  }

  lemma {:induction false} DistinctProps(rows: seq<Triple>, node: Id)
    requires AreDistinct(rows)
    ensures AreDistinct(PropsOf(rows, node))
    decreases |rows|
  {
    if rows != [] {
      var front, last := rows[..|rows| - 1], rows[|rows| - 1];
      DistinctProps(front, node);
      PropsAreRows(front, node, Prop(last.p, last.o));
      assert last !in front by {
        assert forall i | 0 <= i < |front| :: front[i] == rows[i];
      }
    }
  }

  /** IRIs where the types demand them, a digest where one is given. */
  predicate IsSound(r: Registered) {
    && (r.reg.iri.Some? ==> r.reg.iri.value.Iri?)
    && (forall i | i in r.reg.imports :: i.Iri?)
    && (forall g | g in r.reg.appliesTo :: g == DefaultGraph || g.Iri?)
    && (r.reg.sha256.Some? ==> IsLowerHex(r.reg.sha256.value))
  }

  /** At most one value of each property that is single. */
  lemma FactsAreSingle(r: Registered, p: Id, a: Id, b: Id)
    requires p in {ACTIVE, ONTOLOGY_IRI, VERSION, SHA256, LOADED_AT}
    requires IsFact(r, Prop(p, a)) && IsFact(r, Prop(p, b))
    ensures a == b
  {
  }

  lemma FactsAreFine(r: Registered, props: seq<Prop>, problem: Problem)
    requires HoldsFacts(r, props) && AreDistinct(props) && IsSound(r)
    ensures !IsWrong(props, problem)
  {
    hide HoldsFacts, IsLowerHex;
    forall prop
      ensures prop in props <==> IsFact(r, prop)
    {
      FactOfHeld(r, props, prop);
    }
    if problem.TooMany? && HasTwo(props, problem.p) && problem.p in {ACTIVE, ONTOLOGY_IRI, VERSION, SHA256, LOADED_AT} {
      var i, j :| 0 <= i < j < |props| && props[i].p == problem.p && props[j].p == problem.p;
      assert IsFact(r, props[i]) && IsFact(r, props[j]);
      assert props[i] == Prop(problem.p, props[i].o) && props[j] == Prop(problem.p, props[j].o);
      FactsAreSingle(r, problem.p, props[i].o, props[j].o);
    }
    if problem.NotIri? && problem.p == APPLIES_TO && Prop(APPLIES_TO, problem.o) in props {
      TargetsAreIris(r.reg.appliesTo, problem.o);
    }
  }

  lemma FactOfHeld(r: Registered, props: seq<Prop>, prop: Prop)
    requires HoldsFacts(r, props)
    ensures prop in props <==> IsFact(r, prop)
  {
  }

  lemma TargetsAreIris(appliesTo: set<Id>, o: Id)
    requires forall g | g in appliesTo :: g == DefaultGraph || g.Iri?
    ensures IsTargetFact(appliesTo, Prop(APPLIES_TO, o)) ==> o.Iri?
  {
  }

  /** A registry graph that holds sound registrations has no problem at any of their nodes. */
  lemma RegistrationsHaveNoProblems(rows: seq<Triple>, quads: set<Quad>, m: Registrations, others: set<Triple>,
      node: Id,
      problem: Problem)
    requires Represents(quads, m, others) && Reads(rows, quads) && AreDistinct(rows)
    requires node in m && node.Iri? && IsSound(m[node])
    ensures !HasProblem(rows, node, problem)
  {
    hide Represents, Reads, HoldsFacts, PropsOf, IsWrong, Violated, IsFact, IsSound;
    var props := PropsOf(rows, node);
    NodeHoldsFacts(rows, quads, m, others, node);
    DistinctProps(rows, node);
    FactsAreFine(m[node], props, problem);
    ViolationsAreWrong(props, problem);
    var role := Prop(TYPE, RoleClass(m[node].role));
    FactOfHeld(m[node], props, role);
    RoleIsFact(m[node]);
  }

  lemma RoleIsFact(r: Registered)
    ensures IsFact(r, Prop(TYPE, RoleClass(r.role)))
  {
  }

  /** A command whose IRIs are IRIs and whose digest is one. */
  predicate IsSoundCommand(c: Command) {
    match c
    case Register(e, _) =>
      && (e.iri.Some? ==> e.iri.value.Iri?) && (forall i | i in e.imports :: i.Iri?)
      && (e.sha256.Some? ==> IsLowerHex(e.sha256.value))
    case _ => true
  }

  ghost predicate AllSound(m: Registrations) {
    forall n | n in m :: n.Iri? && IsSound(m[n])
  }

  lemma StepKeepsSound(m: Registrations, c: Command, others: set<Triple>)
    requires AllSound(m) && IsPossible(c, others) && IsSoundCommand(c)
    ensures AllSound(Step(m, c))
  {
    match c
    case Register(e, now) => WrittenTargets(e.appliesTo);
    case Remap(_, appliesTo) => WrittenTargets(appliesTo);
    case _ =>
  }

  lemma {:induction false} StepsKeepSound(m: Registrations, commands: seq<Command>, others: set<Triple>)
    requires AllSound(m) && AllPossible(commands, others) && forall c | c in commands :: IsSoundCommand(c)
    ensures AllSound(Steps(m, commands, others))
    decreases |commands|
  {
    hide IsPossible, AllSound, IsSoundCommand;
    if commands != [] {
      StepsKeepSound(m, commands[..|commands| - 1], others);
      StepKeepsSound(Steps(m, commands[..|commands| - 1], others), commands[|commands| - 1], others);
    }
  }

  /** After any run of such commands the validator finds nothing wrong with any registration. */
  lemma CommandsLeaveNoProblems(commands: seq<Command>, db: Database.Db, m: Registrations, others: set<Triple>,
      rows: seq<Triple>, node: Id, problem: Problem)
    requires Represents(db.quads, m, others) && AllSound(m)
    requires AllPossible(commands, others) && forall c | c in commands :: IsSoundCommand(c)
    requires Updated(commands, db, others).Committed? && Reads(rows, Updated(commands, db, others).db.quads)
    requires AreDistinct(rows) && node in Steps(m, commands, others)
    ensures !HasProblem(rows, node, problem)
  {
    hide Represents, AllPossible, IsSoundCommand, Reads, HasProblem, Steps, Updated, IsSound;
    CommandsRefineMap(commands, db, m, others);
    StepsKeepSound(m, commands, others);
    RegistrationsHaveNoProblems(rows, Updated(commands, db, others).db.quads, Steps(m, commands, others), others,
      node, problem);
  }

  /** Registering records the time given with the entry, and the current one if none is. */
  lemma GivenTimeIsKept(m: Registrations, e: Submitted, now: Option<string>, others: set<Triple>)
    requires IsPossible(Register(e, now), others)
    ensures var node := CommandNode(Register(e, now)).value;
      var after := Step(m, Register(e, now));
      && node in after && after[node].role == e.role
      && after[node].reg.loadedAt == (if e.loadedAt.Some? then e.loadedAt else now)
      && after[node].reg.version == e.version && after[node].reg.sha256 == e.sha256 && after[node].reg.iri == e.iri
      && after[node].reg.active == e.active
  {
  }
}
