/** The updates that change registrations, as the SPARQL they are, and what they make of the
    registry graph: a map from node to registration (registry.rs). */
module RegistryUpdates {
  import opened Ids
  import opened Registry
  import opened RegistryReader
  import opened Database
  import opened Updates

  // ------------------------------------------------------------------ what is written

  /** A registration as submitted; targets and imports are lists. */
  datatype Submitted = Submitted(
    graph: Id,
    role: Role,
    iri: Option<Id>,
    version: Option<string>,
    sha256: Option<string>,
    imports: seq<Id>,
    appliesTo: seq<Id>,
    active: bool,
    loadedAt: Option<string>)

  /** `graph_node`: a graph named by a blank node cannot be registered. */
  function NodeOf(g: Id): Option<Id> {
    if g == DefaultGraph then Some(DEFAULT_NODE) else if g.Iri? then Some(g) else None
  }

  function Flag(active: bool): Id {
    Literal(if active then "true" else "false", XsdBoolean)
  }

  function NodesOf(graphs: seq<Id>): Option<seq<Id>> {
    if graphs == [] then Some([])
    else match (NodesOf(graphs[..|graphs| - 1]), NodeOf(graphs[|graphs| - 1]))
      case (Some(front), Some(last)) => Some(front + [last])
      case _ => None
  }

  /** `targets_of`: no target is written as "all graphs". */
  function TargetsOf(appliesTo: seq<Id>): Option<seq<Id>> {
    if appliesTo == [] then Some([ALL_GRAPHS]) else NodesOf(appliesTo)
  }

  function Each(p: Id, os: seq<Id>): seq<Prop> {
    seq(|os|, i requires 0 <= i < |os| => Prop(p, os[i]))
  }

  function Text(p: Id, text: Option<string>, kind: LiteralType): seq<Prop> {
    if text.Some? then [Prop(p, Literal(text.value, kind))] else []
  }

  /** `entry_quads`, as properties of the node; none for a graph that has no node. */
  function EntryProps(e: Submitted): Option<seq<Prop>> {
    match TargetsOf(e.appliesTo)
    case None => None
    case Some(targets) =>
      Some([Prop(TYPE, RoleClass(e.role)), Prop(ACTIVE, Flag(e.active))] + Each(APPLIES_TO, targets)
        + (if e.iri.Some? then [Prop(ONTOLOGY_IRI, e.iri.value)] else [])
        + Text(VERSION, e.version, XsdString) + Text(SHA256, e.sha256, XsdString)
        + Each(IMPORTS, e.imports) + Text(LOADED_AT, e.loadedAt, XsdDateTime))
  }

  /** What the registry should say about a node. */
  datatype Registered = Registered(role: Role, reg: Registration)

  function AsSet(ids: seq<Id>): set<Id> {
    set x | x in ids
  }

  function Recorded(e: Submitted): Registered {
    Registered(e.role, Registration(e.iri, e.version, e.sha256, AsSet(e.imports), AsSet(e.appliesTo), e.active,
      e.loadedAt))
  }

  function NodeName(g: Id): Id {
    if g == DefaultGraph then DEFAULT_NODE else g
  }

  predicate TextFact(prop: Prop, p: Id, text: Option<string>, kind: LiteralType) {
    text.Some? && prop == Prop(p, Literal(text.value, kind))
  }

  /** The properties a registration is written as. */
  predicate IsFact(r: Registered, prop: Prop) {
    || prop == Prop(TYPE, RoleClass(r.role))
    || prop == Prop(ACTIVE, Flag(r.reg.active))
    || IsTargetFact(r.reg.appliesTo, prop)
    || (r.reg.iri.Some? && prop == Prop(ONTOLOGY_IRI, r.reg.iri.value))
    || TextFact(prop, VERSION, r.reg.version, XsdString)
    || TextFact(prop, SHA256, r.reg.sha256, XsdString)
    || (prop.p == IMPORTS && prop.o in r.reg.imports)
    || TextFact(prop, LOADED_AT, r.reg.loadedAt, XsdDateTime)
  }

  predicate IsTargetFact(appliesTo: set<Id>, prop: Prop) {
    prop.p == APPLIES_TO && (if appliesTo == {} then prop.o == ALL_GRAPHS else exists g | g in appliesTo ::
      prop.o == NodeName(g))
  }

  lemma {:induction false} NodesAreNames(graphs: seq<Id>)
    requires NodesOf(graphs).Some?
    ensures |NodesOf(graphs).value| == |graphs|
    ensures forall i | 0 <= i < |graphs| ::
      NodesOf(graphs).value[i] == NodeName(graphs[i]) && (graphs[i].Iri? || graphs[i] == DefaultGraph)
    decreases |graphs|
  {
    if graphs != [] {
      NodesAreNames(graphs[..|graphs| - 1]);
    }
  }

  lemma TargetsAreFacts(appliesTo: seq<Id>, prop: Prop)
    requires TargetsOf(appliesTo).Some?
    ensures prop in Each(APPLIES_TO, TargetsOf(appliesTo).value) <==> IsTargetFact(AsSet(appliesTo), prop)
  {
    var targets, graphs := TargetsOf(appliesTo).value, AsSet(appliesTo);
    if appliesTo == [] {
      assert Each(APPLIES_TO, targets) == [Prop(APPLIES_TO, ALL_GRAPHS)];
    } else {
      NodesAreNames(appliesTo);
      assert appliesTo[0] in graphs;
      if prop in Each(APPLIES_TO, targets) {
        var i :| 0 <= i < |targets| && prop == Prop(APPLIES_TO, targets[i]);
        assert appliesTo[i] in graphs;
      }
      if IsTargetFact(graphs, prop) {
        var g :| g in graphs && prop.o == NodeName(g);
        var i :| 0 <= i < |appliesTo| && appliesTo[i] == g;
        assert Each(APPLIES_TO, targets)[i] == prop;
      }
    }
  }

  lemma EachIs(p: Id, os: seq<Id>, prop: Prop)
    ensures prop in Each(p, os) <==> prop.p == p && prop.o in os
  {
    if prop.p == p && prop.o in os {
      var i :| 0 <= i < |os| && os[i] == prop.o;
      assert Each(p, os)[i] == prop;
    }
  }

  /** What is written is what is recorded. */
  lemma PropsAreFacts(e: Submitted, prop: Prop)
    requires EntryProps(e).Some?
    ensures prop in EntryProps(e).value <==> IsFact(Recorded(e), prop)
  {
    hide TargetsOf, IsTargetFact, RoleClass, Each;
    TargetsAreFacts(e.appliesTo, prop);
    EachIs(IMPORTS, e.imports, prop);
  }

  // ------------------------------------------------------------------ the updates

  function At(node: Id, prop: Prop): Quad {
    Quad(node, prop.p, prop.o, SCHEMA_GRAPH)
  }

  function Written(node: Id, props: seq<Prop>): seq<Quad> {
    seq(|props|, i requires 0 <= i < |props| => At(node, props[i]))
  }

  const P := 0
  const O := 1
  const ROLE := 2

  /** `{ node ?p ?o }` in the registry graph. */
  function DescriptionOf(node: Id): Where {
    (db: Db) => set q | q in db.quads && q.g == SCHEMA_GRAPH && q.s == node
      :: Solution(map[P := Binding.Term(q.p), O := Binding.Term(q.o)], 0)
  }

  function DescribeDelete(node: Id): Operation {
    DeleteInsert([Template(Constant(node), Variable(P), Variable(O), Constant(SCHEMA_GRAPH))], [], DescriptionOf(node))
  }

  function RolesOf(node: Id, db: Db): set<Id> {
    set q | q in db.quads && q.g == SCHEMA_GRAPH && q.s == node && q.p == TYPE :: q.o
  }

  function ValuesOf(node: Id, p: Id, db: Db): set<Id> {
    set q | q in db.quads && q.g == SCHEMA_GRAPH && q.s == node && q.p == p :: q.o
  }

  /** `{ node a ?role OPTIONAL { node p ?o } }` in the registry graph. */
  function RegisteredWith(node: Id, p: Id): Where {
    (db: Db) =>
      if ValuesOf(node, p, db) == {} then set r | r in RolesOf(node, db) :: Solution(map[ROLE := Binding.Term(r)], 0)
      else set r, o | r in RolesOf(node, db) && o in ValuesOf(node, p, db)
        :: Solution(map[ROLE := Binding.Term(r), O := Binding.Term(o)], 0)
  }

  function InsertTemplates(node: Id, p: Id, os: seq<Id>): seq<Template> {
    seq(|os|, i requires 0 <= i < |os| =>
      Template(Constant(node), Constant(p), Constant(os[i]), Constant(SCHEMA_GRAPH)))
  }

  /** Replaces the values of a property of a registered node. */
  function ReplaceValues(node: Id, p: Id, os: seq<Id>): Operation {
    DeleteInsert([Template(Constant(node), Constant(p), Variable(O), Constant(SCHEMA_GRAPH))],
      InsertTemplates(node, p, os),
                 RegisteredWith(node, p))
  }

  datatype Command =
    | Register(entry: Submitted, now: Option<string>)
    | Unregister(graph: Id)
    | SetActive(graph: Id, active: bool)
    | Remap(graph: Id, appliesTo: seq<Id>)

  /** An entry gets the current time if it has none. */
  function Stamped(e: Submitted, now: Option<string>): Submitted {
    if e.loadedAt.Some? then e else e.(loadedAt := now)
  }

  function CommandNode(c: Command): Option<Id> {
    NodeOf(match c case Register(e, _) => e.graph case Unregister(g) => g case SetActive(g, _) =>
      g case Remap(g, _) => g)
  }

  /** The SPARQL of `register_update`, `unregister_update`, `set_active_update`, `remap_update`. */
  function UpdateOf(c: Command): Option<Update> {
    match CommandNode(c)
    case None => None
    case Some(node) =>
      match c
      case Register(e, now) =>
        var props := EntryProps(Stamped(e, now));
        if props.None? then None
        else Some((if e.graph.Iri? then [Create(true, e.graph)] else [])
          + [DescribeDelete(node), InsertData(Written(node, props.value))])
      case Unregister(_) => Some([DescribeDelete(node)])
      case SetActive(_, active) => Some([ReplaceValues(node, ACTIVE, [Flag(active)])])
      case Remap(_, appliesTo) =>
        var targets := TargetsOf(appliesTo);
        if targets.None? then None else Some([ReplaceValues(node, APPLIES_TO, targets.value)])
  }

  // ------------------------------------------------------------------ what they do to the graph

  /** Deleting a description deletes exactly the node's triples in the registry graph. */
  lemma DescriptionIsDeleted(node: Id, db: Db)
    ensures Meaning(DescribeDelete(node), db) == Committed(db.(quads := Undescribed(db.quads, node)))
  {
    var t, solutions := Template(Constant(node), Variable(P), Variable(O), Constant(SCHEMA_GRAPH)),
      DescriptionOf(node)(db);
    forall q | q in db.quads && q.g == SCHEMA_GRAPH && q.s == node
      ensures q in Deletions([t], solutions)
    {
      var mu := Solution(map[P := Binding.Term(q.p), O := Binding.Term(q.o)], 0);
      assert mu in solutions && t in [t];
      assert Instance(t, mu) == Some(q);
    }
    forall q | q in Deletions([t], solutions)
      ensures q.g == SCHEMA_GRAPH && q.s == node
    {
    }
    assert db.quads - Deletions([t], solutions) == Undescribed(db.quads, node);
    NoInsertions(solutions);
    assert !Unstorable(solutions, Variables([t]) + Variables([]));
    assert db.(graphs := db.graphs + {}) == db;
  }

  lemma NoInsertions(solutions: set<Solution>)
    ensures Insertions([], solutions) == {} && NamedGraphsOf({}) == {}
  {
  }

  /** The quads after replacing a property's values. */
  function Replaced(quads: set<Quad>, node: Id, p: Id, os: seq<Id>): set<Quad> {
    (set q | q in quads && !(q.g == SCHEMA_GRAPH && q.s == node && q.p == p))
      + (set o | o in os :: Quad(node, p, o, SCHEMA_GRAPH))
  }

  lemma SolutionsReplace(node: Id, p: Id, os: seq<Id>, db: Db)
    requires node.Iri? && p.Iri? && RolesOf(node, db) != {}
    ensures var solutions := RegisteredWith(node, p)(db);
      && Deletions([Template(Constant(node), Constant(p), Variable(O), Constant(SCHEMA_GRAPH))], solutions)
         == (set o | o in ValuesOf(node, p, db) :: Quad(node, p, o, SCHEMA_GRAPH))
      && Insertions(InsertTemplates(node, p, os), solutions) == (set o | o in os :: Quad(node, p, o, SCHEMA_GRAPH))
  {
    hide RolesOf, Insertions, InsertTemplates;
    var solutions := RegisteredWith(node, p)(db);
    var t := Template(Constant(node), Constant(p), Variable(O), Constant(SCHEMA_GRAPH));
    var role :| role in RolesOf(node, db);
    forall o | o in ValuesOf(node, p, db)
      ensures Quad(node, p, o, SCHEMA_GRAPH) in Deletions([t], solutions)
    {
      var mu := Solution(map[ROLE := Binding.Term(role), O := Binding.Term(o)], 0);
      assert mu in solutions && t in [t];
      assert Instance(t, mu) == Some(Quad(node, p, o, SCHEMA_GRAPH));
    }
    assert solutions != {} by {
      if ValuesOf(node, p, db) == {} {
        assert Solution(map[ROLE := Binding.Term(role)], 0) in solutions;
      } else {
        var o :| o in ValuesOf(node, p, db);
        assert Solution(map[ROLE := Binding.Term(role), O := Binding.Term(o)], 0) in solutions;
      }
    }
    InsertedConstants(node, p, os, solutions);
  }

  lemma InsertedConstants(node: Id, p: Id, os: seq<Id>, solutions: set<Solution>)
    requires node.Iri? && p.Iri? && solutions != {}
    ensures Insertions(InsertTemplates(node, p, os), solutions) == (set o | o in os :: Quad(node, p, o, SCHEMA_GRAPH))
  {
    var mu :| mu in solutions;
    forall o | o in os
      ensures Quad(node, p, o, SCHEMA_GRAPH) in Insertions(InsertTemplates(node, p, os), solutions)
    {
      var i :| 0 <= i < |os| && os[i] == o;
      var t := InsertTemplates(node, p, os)[i];
      assert t in InsertTemplates(node, p, os) && Instance(t, mu) == Some(Quad(node, p, o, SCHEMA_GRAPH));
    }
  }

  /** On a registered node the values are replaced; on any other node nothing happens. */
  lemma ValuesAreReplaced(node: Id, p: Id, os: seq<Id>, db: Db)
    requires node.Iri? && p.Iri?
    ensures Meaning(ReplaceValues(node, p, os), db).Committed?
    ensures Meaning(ReplaceValues(node, p, os), db).db.quads
         == if RolesOf(node, db) == {} then db.quads else Replaced(db.quads, node, p, os)
  {
    hide RolesOf, ValuesOf, Deletions, Insertions, Unstorable, Instance;
    var solutions := RegisteredWith(node, p)(db);
    var delete, insert := [Template(Constant(node), Constant(p), Variable(O), Constant(SCHEMA_GRAPH))],
      InsertTemplates(node, p, os);
    AlwaysStorable(node, p, db, Variables(delete) + Variables(insert));
    if RolesOf(node, db) == {} {
      NoSolutions(delete, insert);
      assert solutions == {};
    } else {
      SolutionsReplace(node, p, os, db);
      ReplacedIs(node, p, os, db);
    }
  }

  lemma ReplacedIs(node: Id, p: Id, os: seq<Id>, db: Db)
    ensures (db.quads - (set o | o in ValuesOf(node, p, db) :: Quad(node, p, o, SCHEMA_GRAPH)))
            + (set o | o in os :: Quad(node, p, o, SCHEMA_GRAPH))
         == Replaced(db.quads, node, p, os)
  {
  }

  lemma NoSolutions(delete: seq<Template>, insert: seq<Template>)
    ensures Deletions(delete, {}) == {} && Insertions(insert, {}) == {}
  {
  }

  lemma AlwaysStorable(node: Id, p: Id, db: Db, variables: set<nat>)
    ensures !Unstorable(RegisteredWith(node, p)(db), variables)
  {
  }

  // ------------------------------------------------------------------ the abstract registry

  type Registrations = map<Id, Registered>

  /** The registry graph holds exactly these registrations, beside triples about other nodes,
      none of which has a role (the descriptions of the system graphs). */
  ghost predicate Represents(quads: set<Quad>, m: Registrations, others: set<Triple>) {
    && (forall t: Triple :: Quad(t.s, t.p, t.o, SCHEMA_GRAPH) in quads <==>
         (t.s in m && IsFact(m[t.s], Prop(t.p, t.o))) || t in others)
    && (forall t | t in others :: t.s !in m && !(exists role :: t.p == TYPE && t.o == RoleClass(role)))
  }

  function Step(m: Registrations, c: Command): Registrations
    requires CommandNode(c).Some?
  {
    var node := CommandNode(c).value;
    match c
    case Register(e, now) => m[node := Recorded(Stamped(e, now))]
    case Unregister(_) => m - {node}
    case SetActive(_, active) => if node in m then m[node := m[node].(reg := m[node].reg.(active := active))] else m
    case Remap(_, appliesTo) => if node in m
      then m[node := m[node].(reg := m[node].reg.(appliesTo := AsSet(appliesTo)))] else m
  }

  /** A command that can be written as SPARQL, about a node nothing else describes. */
  predicate IsPossible(c: Command, others: set<Triple>) {
    CommandNode(c).Some? && UpdateOf(c).Some? && forall t | t in others :: t.s != CommandNode(c).value
  }

  lemma UnregisterRepresents(quads: set<Quad>, m: Registrations, others: set<Triple>, node: Id)
    requires Represents(quads, m, others) && forall t | t in others :: t.s != node
    ensures Represents(Undescribed(quads, node), m - {node}, others)
  {
    hide IsFact;
  }

  lemma RegisterRepresents(quads: set<Quad>, m: Registrations, others: set<Triple>, node: Id, e: Submitted)
    requires Represents(quads, m, others) && EntryProps(e).Some? && forall t | t in others :: t.s != node
    ensures Represents(Undescribed(quads, node) + Elements(Written(node, EntryProps(e).value)),
      m[node := Recorded(e)], others)
  {
    hide IsFact, EntryProps, RoleClass;
    var props := EntryProps(e).value;
    forall prop
      ensures At(node, prop) in Elements(Written(node, props)) <==> IsFact(Recorded(e), prop)
    {
      PropsAreFacts(e, prop);
      if prop in props {
        var i :| 0 <= i < |props| && props[i] == prop;
        assert Written(node, props)[i] == At(node, prop);
      }
    }
    var after := Undescribed(quads, node) + Elements(Written(node, props));
    forall t: Triple
      ensures Quad(t.s, t.p, t.o, SCHEMA_GRAPH) in after <==>
        (t.s in m[node := Recorded(e)] && IsFact(m[node := Recorded(e)][t.s], Prop(t.p, t.o))) || t in others
    {
      if t.s == node {
        assert Quad(t.s, t.p, t.o, SCHEMA_GRAPH) == At(node, Prop(t.p, t.o));
      }
    }
  }

  /** Replacing one property's facts. */
  lemma ReplaceRepresents(quads: set<Quad>, m: Registrations, others: set<Triple>, node: Id, p: Id, os: seq<Id>,
      r: Registered)
    requires Represents(quads, m, others) && node in m && forall t | t in others :: t.s != node
    requires forall prop: Prop | prop.p != p :: IsFact(r, prop) <==> IsFact(m[node], prop)
    requires forall o :: IsFact(r, Prop(p, o)) <==> o in os
    ensures Represents(Replaced(quads, node, p, os), m[node := r], others)
  {
    hide IsFact, RoleClass;
    var after := Replaced(quads, node, p, os);
    forall t: Triple
      ensures Quad(t.s, t.p, t.o, SCHEMA_GRAPH) in after <==>
        (t.s in m[node := r] && IsFact(m[node := r][t.s], Prop(t.p, t.o))) || t in others
    {
      var before, prop := Quad(t.s, t.p, t.o, SCHEMA_GRAPH) in quads, Prop(t.p, t.o);
      assert before <==> (t.s in m && IsFact(m[t.s], prop)) || t in others;
    }
  }

  /** Registered means having a role. */
  lemma RolesAreRegistered(db: Db, m: Registrations, others: set<Triple>, node: Id)
    requires Represents(db.quads, m, others) && forall t | t in others :: t.s != node
    ensures RolesOf(node, db) != {} <==> node in m
  {
    if node in m {
      var t := Triple(node, TYPE, RoleClass(m[node].role));
      assert IsFact(m[node], Prop(t.p, t.o));
      assert t.o in RolesOf(node, db);
    }
    forall r | r in RolesOf(node, db)
      ensures node in m
    {
      var t := Triple(node, TYPE, r);
      assert Quad(t.s, t.p, t.o, SCHEMA_GRAPH) in db.quads;
    }
    if RolesOf(node, db) != {} {
      var r :| r in RolesOf(node, db);
    }
  }

  lemma OneOperation(op: Operation, db: Db)
    ensures MeaningOfAll([op], db) == Meaning(op, db)
  {
    hide Meaning;
    assert [op][..0] == [];
    assert MeaningOfAll([], db) == Committed(db);
  }

  lemma TwoOperations(first: Operation, second: Operation, db: Db)
    requires Meaning(first, db).Committed?
    ensures MeaningOfAll([first, second], db) == Meaning(second, Meaning(first, db).db)
  {
    hide Meaning;
    assert [first, second][..1] == [first];
    OneOperation(first, db);
  }

  lemma ThreeOperations(first: Operation, second: Operation, third: Operation, db: Db)
    requires Meaning(first, db).Committed? && Meaning(second, Meaning(first, db).db).Committed?
    ensures MeaningOfAll([first, second, third], db) == Meaning(third, Meaning(second, Meaning(first, db).db).db)
  {
    hide Meaning;
    assert [first, second, third][..2] == [first, second];
    TwoOperations(first, second, db);
  }

  /** What registering does to the quads: the old description goes, the new one comes. */
  lemma RegisterMeans(e: Submitted, now: Option<string>, node: Id, db: Db)
    requires NodeOf(e.graph) == Some(node) && EntryProps(Stamped(e, now)).Some?
    ensures var after := MeaningOfAll(UpdateOf(Register(e, now)).value, db);
      after.Committed? && after.db.quads == Undescribed(db.quads, node)
        + Elements(Written(node, EntryProps(Stamped(e, now)).value))
  {
    hide DescriptionOf, EntryProps, NamedGraphsOf, Undescribed;
    var quads := Written(node, EntryProps(Stamped(e, now)).value);
    if e.graph.Iri? {
      var created := db.(graphs := db.graphs + {e.graph});
      DescriptionIsDeleted(node, created);
      ThreeOperations(Create(true, e.graph), DescribeDelete(node), InsertData(quads), db);
      assert UpdateOf(Register(e, now)).value == [Create(true, e.graph), DescribeDelete(node), InsertData(quads)];
    } else {
      DescriptionIsDeleted(node, db);
      TwoOperations(DescribeDelete(node), InsertData(quads), db);
      assert UpdateOf(Register(e, now)).value == [DescribeDelete(node), InsertData(quads)];
    }
  }

  /** Every command keeps the graph a map of registrations, and touches no other graph. */
  lemma CommandRefinesMap(c: Command, db: Db, m: Registrations, others: set<Triple>)
    requires Represents(db.quads, m, others) && IsPossible(c, others)
    ensures var after := MeaningOfAll(UpdateOf(c).value, db);
      && after.Committed? && Represents(after.db.quads, Step(m, c), others)
      && OutsideGraph(after.db.quads, SCHEMA_GRAPH) == OutsideGraph(db.quads, SCHEMA_GRAPH)
  {
    hide Represents, EntryProps, RoleClass, Meaning, MeaningOfAll, TargetsOf, ReplaceValues, DescribeDelete, IsFact,
      RolesOf;
    var node := CommandNode(c).value;
    match c
    case Register(e, now) =>
      RegisterMeans(e, now, node, db);
      RegisterRepresents(db.quads, m, others, node, Stamped(e, now));
    case Unregister(_) =>
      OneOperation(DescribeDelete(node), db);
      DescriptionIsDeleted(node, db);
      UnregisterRepresents(db.quads, m, others, node);
    case SetActive(_, active) =>
      OneOperation(ReplaceValues(node, ACTIVE, [Flag(active)]), db);
      ValuesAreReplaced(node, ACTIVE, [Flag(active)], db);
      RolesAreRegistered(db, m, others, node);
      if node in m {
        var r := m[node].(reg := m[node].reg.(active := active));
        ActiveFacts(m[node], active);
        ReplaceRepresents(db.quads, m, others, node, ACTIVE, [Flag(active)], r);
      }
    case Remap(_, appliesTo) =>
      var targets := TargetsOf(appliesTo).value;
      OneOperation(ReplaceValues(node, APPLIES_TO, targets), db);
      ValuesAreReplaced(node, APPLIES_TO, targets, db);
      RolesAreRegistered(db, m, others, node);
      if node in m {
        var r := m[node].(reg := m[node].reg.(appliesTo := AsSet(appliesTo)));
        TargetFacts(m[node], appliesTo);
        ReplaceRepresents(db.quads, m, others, node, APPLIES_TO, targets, r);
      }
  }

  lemma ActiveFacts(r: Registered, active: bool)
    ensures var r' := r.(reg := r.reg.(active := active));
      && (forall prop: Prop | prop.p != ACTIVE :: IsFact(r', prop) <==> IsFact(r, prop))
      && (forall o :: IsFact(r', Prop(ACTIVE, o)) <==> o in [Flag(active)])
  {
    hide IsTargetFact, RoleClass;
    assert forall prop: Prop | prop.p == ACTIVE :: !IsTargetFact(r.reg.appliesTo, prop) by {
      NotATarget(r.reg.appliesTo);
    }
  }

  lemma NotATarget(appliesTo: set<Id>)
    ensures forall prop: Prop | prop.p != APPLIES_TO :: !IsTargetFact(appliesTo, prop)
  {
  }

  lemma TargetFacts(r: Registered, appliesTo: seq<Id>)
    requires TargetsOf(appliesTo).Some?
    ensures var r' := r.(reg := r.reg.(appliesTo := AsSet(appliesTo)));
      && (forall prop: Prop | prop.p != APPLIES_TO :: IsFact(r', prop) <==> IsFact(r, prop))
      && (forall o :: IsFact(r', Prop(APPLIES_TO, o)) <==> o in TargetsOf(appliesTo).value)
  {
    hide IsTargetFact, RoleClass, TargetsOf;
    NotATarget(r.reg.appliesTo);
    NotATarget(AsSet(appliesTo));
    forall o
      ensures IsTargetFact(AsSet(appliesTo), Prop(APPLIES_TO, o)) <==> o in TargetsOf(appliesTo).value
    {
      TargetsAreFacts(appliesTo, Prop(APPLIES_TO, o));
      EachIs(APPLIES_TO, TargetsOf(appliesTo).value, Prop(APPLIES_TO, o));
    }
  }

  // ------------------------------------------------------------------ runs of commands

  ghost predicate AllPossible(commands: seq<Command>, others: set<Triple>) {
    forall i | 0 <= i < |commands| :: IsPossible(commands[i], others)
  }

  function Steps(m: Registrations, commands: seq<Command>, others: set<Triple>): Registrations
    requires AllPossible(commands, others)
  {
    if commands == [] then m else Step(Steps(m, commands[..|commands| - 1], others), commands[|commands| - 1])
  }

  function Updated(commands: seq<Command>, db: Db, others: set<Triple>): Outcome
    requires AllPossible(commands, others)
  {
    if commands == [] then Committed(db)
    else match Updated(commands[..|commands| - 1], db, others)
      case Aborted => Aborted
      case Committed(mid) => MeaningOfAll(UpdateOf(commands[|commands| - 1]).value, mid)
  }

  /** After any run of registry commands the registry graph is the map the commands describe. */
  lemma {:induction false} CommandsRefineMap(commands: seq<Command>, db: Db, m: Registrations, others: set<Triple>)
    requires Represents(db.quads, m, others) && AllPossible(commands, others)
    ensures var after := Updated(commands, db, others);
      && after.Committed? && Represents(after.db.quads, Steps(m, commands, others), others)
      && OutsideGraph(after.db.quads, SCHEMA_GRAPH) == OutsideGraph(db.quads, SCHEMA_GRAPH)
    decreases |commands|
  {
    hide Represents, MeaningOfAll, UpdateOf, Step, OutsideGraph;
    if commands != [] {
      var front, last := commands[..|commands| - 1], commands[|commands| - 1];
      CommandsRefineMap(front, db, m, others);
      CommandRefinesMap(last, Updated(front, db, others).db, Steps(m, front, others), others);
    }
  }

  // ------------------------------------------------------------------ reading back

  predicate IsGraphName(g: Id) {
    g == DefaultGraph || g.Iri?
  }

  /** No target is one of the two IRIs that mean something else in the registry. */
  predicate PlainTargets(appliesTo: set<Id>) {
    DEFAULT_NODE !in appliesTo && ALL_GRAPHS !in appliesTo
  }

  /** IRIs where the types demand IRIs, graph names where they demand graph names. */
  predicate WellTyped(r: Registered) {
    && (r.reg.iri.Some? ==> r.reg.iri.value.Iri?)
    && (forall i | i in r.reg.imports :: i.Iri?)
    && (forall g | g in r.reg.appliesTo :: IsGraphName(g))
  }

  ghost predicate HoldsFacts(r: Registered, props: seq<Prop>) {
    forall prop :: prop in props <==> IsFact(r, prop)
  }

  /** Two readings of a kept text are the same text. */
  lemma KeptText(props: seq<Prop>, p: Id, text: Option<string>, kind: LiteralType, kept: Option<string>)
    requires forall prop: Prop | prop.p == p :: prop in props <==> TextFact(prop, p, text, kind)
    requires Keeps(props, p, kept)
    ensures kept == text
  {
    if text.Some? {
      assert TextFact(Prop(p, Literal(text.value, kind)), p, text, kind);
      assert Prop(p, Literal(text.value, kind)) in props;
    }
  }

  lemma KeptTexts(r: Registered, props: seq<Prop>, d: Draft)
    requires HoldsFacts(r, props) && Denotes(props, d)
    ensures d.reg.version == r.reg.version && d.reg.sha256 == r.reg.sha256 && d.reg.loadedAt == r.reg.loadedAt
  {
    hide KeepsActive, KeepsTargets, KeepsImports, KeepsIri, Keeps, RoleClass;
    KeptText(props, VERSION, r.reg.version, XsdString, d.reg.version);
    KeptText(props, SHA256, r.reg.sha256, XsdString, d.reg.sha256);
    KeptText(props, LOADED_AT, r.reg.loadedAt, XsdDateTime, d.reg.loadedAt);
  }

  lemma KeptIris(r: Registered, props: seq<Prop>, d: Draft)
    requires HoldsFacts(r, props) && Denotes(props, d) && WellTyped(r)
    ensures d.reg.iri == r.reg.iri && d.reg.imports == r.reg.imports && d.reg.active == r.reg.active
  {
    hide KeepsTargets, Keeps, RoleClass, IsGraphName;
    if r.reg.iri.Some? {
      assert IsFact(r, Prop(ONTOLOGY_IRI, r.reg.iri.value));
    }
    forall i
      ensures i in d.reg.imports <==> i in r.reg.imports
    {
      if i in r.reg.imports {
        assert IsFact(r, Prop(IMPORTS, i));
        assert IsImport(Prop(IMPORTS, i), i);
      }
    }
    assert IsFact(r, Prop(ACTIVE, Flag(r.reg.active)));
    assert forall prop | prop in props && prop.p == ACTIVE :: prop.o == Flag(r.reg.active);
  }

  /** The targets read, whatever was written. */
  function TargetsRead(appliesTo: set<Id>): set<Id> {
    if ALL_GRAPHS in appliesTo then {} else set g | g in appliesTo :: GraphOf(NodeName(g))
  }

  lemma KeptTargets(r: Registered, props: seq<Prop>, d: Draft)
    requires HoldsFacts(r, props) && Denotes(props, d) && WellTyped(r)
    ensures Finished(d).appliesTo == TargetsRead(r.reg.appliesTo)
  {
    hide KeepsActive, KeepsImports, KeepsIri, Keeps, RoleClass;
    var to := r.reg.appliesTo;
    assert IsFact(r, Prop(APPLIES_TO, ALL_GRAPHS)) <==> to == {} || ALL_GRAPHS in to;
    if to != {} && ALL_GRAPHS !in to {
      forall t
        ensures t in d.reg.appliesTo <==> t in TargetsRead(to)
      {
        if t in TargetsRead(to) {
          var g :| g in to && GraphOf(NodeName(g)) == t;
          assert IsFact(r, Prop(APPLIES_TO, NodeName(g))) && IsTarget(Prop(APPLIES_TO, NodeName(g)), t);
        }
      }
    }
  }

  /** The targets come back exactly when they are plain. */
  lemma PlainTargetsComeBack(appliesTo: set<Id>)
    requires forall g | g in appliesTo :: IsGraphName(g)
    ensures TargetsRead(appliesTo) == appliesTo <==> PlainTargets(appliesTo)
  {
    if PlainTargets(appliesTo) {
      assert forall g | g in appliesTo :: GraphOf(NodeName(g)) == g;
      assert TargetsRead(appliesTo) == appliesTo;
    } else if ALL_GRAPHS !in appliesTo {
      assert DEFAULT_NODE !in TargetsRead(appliesTo);
    }
  }

  lemma RoleIsRead(r: Registered, props: seq<Prop>, role: Role)
    requires HoldsFacts(r, props)
    ensures HasRole(props, role) <==> role == r.role
  {
    NotATarget(r.reg.appliesTo);
    assert RoleClass(role) == RoleClass(r.role) <==> role == r.role;
    assert IsFact(r, Prop(TYPE, RoleClass(role))) <==> RoleClass(role) == RoleClass(r.role);
  }

  /** What is read of a node that holds a registration's facts. */
  lemma FactsAreRead(r: Registered, props: seq<Prop>)
    requires HoldsFacts(r, props) && WellTyped(r)
    ensures Finished(ReadProps(props)) == r.reg.(appliesTo := TargetsRead(r.reg.appliesTo))
    ensures forall role :: HasRole(props, role) <==> role == r.role
  {
    hide HoldsFacts, WellTyped, ReadProps, HasRole, TargetsRead, Denotes;
    ReadPropsDenote(props);
    KeptTexts(r, props, ReadProps(props));
    KeptIris(r, props, ReadProps(props));
    KeptTargets(r, props, ReadProps(props));
    forall role
      ensures HasRole(props, role) <==> role == r.role
    {
      RoleIsRead(r, props, role);
    }
  }

  lemma NodeHoldsFacts(rows: seq<Triple>, quads: set<Quad>, m: Registrations, others: set<Triple>, node: Id)
    requires Represents(quads, m, others) && Reads(rows, quads) && node in m
    ensures HoldsFacts(m[node], PropsOf(rows, node))
  {
    hide IsFact, RoleClass;
    forall prop
      ensures prop in PropsOf(rows, node) <==> IsFact(m[node], prop)
    {
      PropsAreRows(rows, node, prop);
      FactsHaveIris(m[node], prop);
      assert Triple(node, prop.p, prop.o) in rows <==> Quad(node, prop.p, prop.o, SCHEMA_GRAPH) in quads;
      var t := Triple(node, prop.p, prop.o);
      assert Quad(t.s, t.p, t.o, SCHEMA_GRAPH) in quads <==> IsFact(m[node], Prop(t.p, t.o));
    }
  }

  lemma FactsHaveIris(r: Registered, prop: Prop)
    ensures IsFact(r, prop) ==> prop.p.Iri?
  {
  }

  lemma UnregisteredHaveNoRole(rows: seq<Triple>, quads: set<Quad>, m: Registrations, others: set<Triple>, node: Id,
      role: Role)
    requires Represents(quads, m, others) && Reads(rows, quads) && node !in m
    ensures !HasRole(PropsOf(rows, node), role)
  {
    hide IsFact, RoleClass;
    var t := Triple(node, TYPE, RoleClass(role));
    PropsAreRows(rows, node, Prop(t.p, t.o));
    assert t in rows <==> Quad(t.s, t.p, t.o, SCHEMA_GRAPH) in quads;
  }

  ghost predicate IsReadable(m: Registrations) {
    forall n | n in m :: n.Iri? && WellTyped(m[n]) && PlainTargets(m[n].reg.appliesTo)
  }

  /** The reader gives back the map: one entry for each registration, if all targets are plain. */
  lemma RegistrationsReadBack(rows: seq<Triple>, quads: set<Quad>, m: Registrations, others: set<Triple>, node: Id,
      e: Entry)
    requires Represents(quads, m, others) && Reads(rows, quads)
    requires IsReadable(m)
    ensures IsEntry(rows, node, e) <==> node in m && e == Entry(GraphOf(node), m[node].role, m[node].reg)
  {
    hide Represents, Reads, HoldsFacts, ReadProps, HasRole, TargetsRead, PropsOf;
    if node in m {
      NodeHoldsFacts(rows, quads, m, others, node);
      FactsAreRead(m[node], PropsOf(rows, node));
      PlainTargetsComeBack(m[node].reg.appliesTo);
    } else {
      UnregisteredHaveNoRole(rows, quads, m, others, node, e.role);
    }
  }

  /** A registration written with `entry_quads` reads back as itself exactly when neither its
      graph nor a target is named `oxl:DefaultGraph`, and no target `oxl:AllGraphs`. */
  lemma EntryReadsBackExactly(e: Submitted, rows: seq<Triple>, node: Id)
    requires EntryProps(e).Some? && NodeOf(e.graph) == Some(node) && WellTyped(Recorded(e))
    requires forall t :: t in rows <==> t.s == node && Prop(t.p, t.o) in EntryProps(e).value
    ensures (forall n, entry ::
              IsEntry(rows, n, entry) <==> n == node && entry == Entry(e.graph, e.role, Recorded(e).reg))
       <==> e.graph != DEFAULT_NODE && PlainTargets(AsSet(e.appliesTo))
  {
    hide EntryProps, ReadProps, WellTyped, HasRole, TargetsRead, PropsOf, PlainTargets;
    var r, props := Recorded(e), PropsOf(rows, node);
    WrittenHoldsFacts(e, rows, node);
    FactsAreRead(r, props);
    OnlyTheNode(e, rows, node);
    TargetsAreGraphs(r);
    PlainTargetsComeBack(r.reg.appliesTo);
    var read := Entry(GraphOf(node), e.role, r.reg.(appliesTo := TargetsRead(r.reg.appliesTo)));
    assert forall n, entry :: IsEntry(rows, n, entry) <==> n == node && entry == read;
    assert IsEntry(rows, node, read);
    assert GraphOf(node) == e.graph <==> e.graph != DEFAULT_NODE;
  }

  lemma TargetsAreGraphs(r: Registered)
    requires WellTyped(r)
    ensures forall g | g in r.reg.appliesTo :: IsGraphName(g)
  {
  }

  lemma WrittenHoldsFacts(e: Submitted, rows: seq<Triple>, node: Id)
    requires EntryProps(e).Some?
    requires forall t :: t in rows <==> t.s == node && Prop(t.p, t.o) in EntryProps(e).value
    ensures HoldsFacts(Recorded(e), PropsOf(rows, node))
  {
    hide IsFact, EntryProps;
    forall prop
      ensures prop in PropsOf(rows, node) <==> IsFact(Recorded(e), prop)
    {
      PropsAreRows(rows, node, prop);
      PropsAreFacts(e, prop);
      FactsHaveIris(Recorded(e), prop);
    }
  }

  lemma OnlyTheNode(e: Submitted, rows: seq<Triple>, node: Id)
    requires EntryProps(e).Some?
    requires forall t :: t in rows <==> t.s == node && Prop(t.p, t.o) in EntryProps(e).value
    ensures forall n, role | n != node :: !HasRole(PropsOf(rows, n), role)
  {
    forall n, role | n != node
      ensures !HasRole(PropsOf(rows, n), role)
    {
      NoProps(rows, n);
    }
  }

  /** A command that names IRIs where the types demand them, and plain targets. */
  predicate IsPlain(c: Command) {
    match c
    case Register(e, _) =>
      (e.iri.Some? ==> e.iri.value.Iri?) && (forall i | i in e.imports :: i.Iri?) && PlainTargets(AsSet(e.appliesTo))
    case Remap(_, appliesTo) => PlainTargets(AsSet(appliesTo))
    case _ => true
  }

  lemma StepKeepsReadable(m: Registrations, c: Command, others: set<Triple>)
    requires IsReadable(m) && IsPossible(c, others) && IsPlain(c)
    ensures IsReadable(Step(m, c))
  {
    hide PlainTargets;
    match c
    case Register(e, now) => WrittenTargets(e.appliesTo);
    case Remap(_, appliesTo) => WrittenTargets(appliesTo);
    case _ =>
  }

  lemma WrittenTargets(appliesTo: seq<Id>)
    requires TargetsOf(appliesTo).Some?
    ensures forall g | g in AsSet(appliesTo) :: IsGraphName(g)
  {
    if appliesTo != [] {
      NodesAreNames(appliesTo);
    }
  }

  lemma {:induction false} StepsKeepReadable(m: Registrations, commands: seq<Command>, others: set<Triple>)
    requires IsReadable(m) && AllPossible(commands, others) && forall c | c in commands :: IsPlain(c)
    ensures IsReadable(Steps(m, commands, others))
    decreases |commands|
  {
    hide IsPossible, IsReadable, IsPlain;
    if commands != [] {
      StepsKeepReadable(m, commands[..|commands| - 1], others);
      StepKeepsReadable(Steps(m, commands[..|commands| - 1], others), commands[|commands| - 1], others);
    }
  }

  /** After any run of plain commands, reading the registry graph gives the map they describe. */
  lemma CommandsReadBack(commands: seq<Command>, db: Db, m: Registrations, others: set<Triple>, rows: seq<Triple>,
      node: Id, e: Entry)
    requires Represents(db.quads, m, others) && IsReadable(m)
    requires AllPossible(commands, others) && forall c | c in commands :: IsPlain(c)
    requires Updated(commands, db, others).Committed? && Reads(rows, Updated(commands, db, others).db.quads)
    ensures var now := Steps(m, commands, others);
      IsEntry(rows, node, e) <==> node in now && e == Entry(GraphOf(node), now[node].role, now[node].reg)
  {
    hide Represents, IsReadable, AllPossible, IsPlain, Reads, IsEntry, Steps, Updated;
    CommandsRefineMap(commands, db, m, others);
    StepsKeepReadable(m, commands, others);
    RegistrationsReadBack(rows, Updated(commands, db, others).db.quads, Steps(m, commands, others), others, node, e);
  }
}
