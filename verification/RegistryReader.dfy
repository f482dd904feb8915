/** Reading the registry graph on the client side, and checking it (registry.rs): the reader and
    the SQL fragments of `Registry` agree on a registry without problems. */
module RegistryReader {
  import opened Ids
  import opened Registry
  import Scopes

  /** What is said about a node: a predicate and an object. */
  datatype Prop = Prop(p: Id, o: Id)

  /** What a registration records besides its graph and role; targets and imports as sets. */
  datatype Registration = Registration(
    iri: Option<Id>,
    version: Option<string>,
    sha256: Option<string>,
    imports: set<Id>,
    appliesTo: set<Id>,
    active: bool,
    loadedAt: Option<string>)

  datatype Entry = Entry(graph: Id, role: Role, reg: Registration)

  /** `applies`: no target means every graph. */
  predicate Applies(reg: Registration, target: Id) {
    reg.appliesTo == {} || target in reg.appliesTo
  }

  const ALL_ROLES: seq<Role> := [Role.Ontology, Role.Shacl, Role.Shex]

  /** The state of reading one node: the registration, and whether "all graphs" was among its
      targets. */
  datatype Draft = Draft(reg: Registration, all: bool)

  const BLANK_DRAFT := Draft(Registration(None, None, None, {}, {}, true, None), false)

  function ReadProp(d: Draft, prop: Prop): Draft {
    var p, o := prop.p, prop.o;
    if p == ACTIVE && o in FALSES then d.(reg := d.reg.(active := false))
    else if p == APPLIES_TO && o == ALL_GRAPHS then d.(all := true)
    else if p == APPLIES_TO && o.Iri? then d.(reg := d.reg.(appliesTo := d.reg.appliesTo + {GraphOf(o)}))
    else if p == ONTOLOGY_IRI && o.Iri? then d.(reg := d.reg.(iri := Some(o)))
    else if p == VERSION && o.Literal? then d.(reg := d.reg.(version := Some(o.lex)))
    else if p == SHA256 && o.Literal? then d.(reg := d.reg.(sha256 := Some(o.lex)))
    else if p == LOADED_AT && o.Literal? then d.(reg := d.reg.(loadedAt := Some(o.lex)))
    else if p in {IMPORTS, OWL_IMPORTS} && o.Iri? then d.(reg := d.reg.(imports := d.reg.imports + {o}))
    else d
  }

  function ReadProps(props: seq<Prop>): Draft {
    if props == [] then BLANK_DRAFT else ReadProp(ReadProps(props[..|props| - 1]), props[|props| - 1])
  }

  /** "All graphs" overrides the targets beside it. */
  function Finished(d: Draft): Registration {
    if d.all then d.reg.(appliesTo := {}) else d.reg
  }

  predicate HasRole(props: seq<Prop>, role: Role) {
    Prop(TYPE, RoleClass(role)) in props
  }

  /** What the rows say about a node, in their order. */
  function PropsOf(rows: seq<Triple>, node: Id): seq<Prop> {
    if rows == [] then []
    else
      var front, last := PropsOf(rows[..|rows| - 1], node), rows[|rows| - 1];
      if last.s == node && last.p.Iri? then front + [Prop(last.p, last.o)] else front
  }

  predicate IsEntry(rows: seq<Triple>, node: Id, e: Entry) {
    && node.Iri? && HasRole(PropsOf(rows, node), e.role)
    && e.graph == GraphOf(node) && e.reg == Finished(ReadProps(PropsOf(rows, node)))
  }

  /** `entries_from_rows`: rows grouped by node, one entry for each role of a node. */
  method EntriesFromRows(rows: seq<Triple>) returns (entries: set<Entry>)
    ensures forall e :: e in entries <==> exists node :: IsEntry(rows, node, e)
  {
    hide GraphOf, RoleClass;
    var byNode: map<Id, seq<Prop>> := map[];
    for i := 0 to |rows|
      invariant forall node | node in byNode :: node.Iri? && byNode[node] == PropsOf(rows[..i], node)
      invariant forall node: Id | node.Iri? && node !in byNode :: PropsOf(rows[..i], node) == []
    {
      var row := rows[i];
      assert rows[..i + 1][..i] == rows[..i];
      if row.s.Iri? && row.p.Iri? {
        var props := if row.s in byNode then byNode[row.s] else [];
        byNode := byNode[row.s := props + [Prop(row.p, row.o)]];
      }
    }
    assert rows[..|rows|] == rows;
    entries := {};
    var nodes := byNode.Keys;
    while nodes != {}
      invariant nodes <= byNode.Keys
      invariant forall e :: e in entries <==> exists node :: node in byNode.Keys - nodes && IsEntry(rows, node, e)
      decreases nodes
    {
      var node :| node in nodes;
      var props := byNode[node];
      var reg := ReadAll(props);
      ghost var before := entries;
      for i := 0 to |ALL_ROLES|
        invariant forall e :: e in entries <==> e in before || (IsEntry(rows, node, e) && e.role in ALL_ROLES[..i])
      {
        if Prop(TYPE, RoleClass(ALL_ROLES[i])) in props {
          entries := entries + {Entry(GraphOf(node), ALL_ROLES[i], reg)};
        }
      }
      EveryRole();
      nodes := nodes - {node};
    }
    assert forall node, e | IsEntry(rows, node, e) :: node in byNode;
  }

  /** The loop over one node's properties. */
  method ReadAll(props: seq<Prop>) returns (reg: Registration)
    ensures reg == Finished(ReadProps(props))
  {
    var e, all := BLANK_DRAFT.reg, false;
    for i := 0 to |props|
      invariant ReadProps(props[..i]) == Draft(e, all)
    {
      assert props[..i + 1][..i] == props[..i];
      var p, o := props[i].p, props[i].o;
      if p == ACTIVE && o in FALSES {
        e := e.(active := false);
      } else if p == APPLIES_TO && o == ALL_GRAPHS {
        all := true;
      } else if p == APPLIES_TO && o.Iri? {
        e := e.(appliesTo := e.appliesTo + {GraphOf(o)});
      } else if p == ONTOLOGY_IRI && o.Iri? {
        e := e.(iri := Some(o));
      } else if p == VERSION && o.Literal? {
        e := e.(version := Some(o.lex));
      } else if p == SHA256 && o.Literal? {
        e := e.(sha256 := Some(o.lex));
      } else if p == LOADED_AT && o.Literal? {
        e := e.(loadedAt := Some(o.lex));
      } else if p in {IMPORTS, OWL_IMPORTS} && o.Iri? {
        e := e.(imports := e.imports + {o});
      }
    }
    assert props[..|props|] == props;
    reg := if all then e.(appliesTo := {}) else e;
  }

  lemma EveryRole()
    ensures forall role: Role :: role in ALL_ROLES[..|ALL_ROLES|]
  {
    assert ALL_ROLES[0] == Role.Ontology && ALL_ROLES[1] == Role.Shacl && ALL_ROLES[2] == Role.Shex;
    forall role: Role
      ensures role in ALL_ROLES
    {
      match role
      case Ontology =>
      case Shacl =>
      case Shex =>
    }
    assert ALL_ROLES[..|ALL_ROLES|] == ALL_ROLES;
  }

  // ------------------------------------------------------------------ what reading means

  /** The value of a property at most one of whose values is kept. */
  ghost predicate Keeps(props: seq<Prop>, p: Id, value: Option<string>) {
    && (value.Some? ==> exists prop :: prop in props && prop.p == p && prop.o.Literal? && prop.o.lex == value.value)
    && (value.None? ==> forall prop | prop in props && prop.p == p :: !prop.o.Literal?)
  }

  ghost predicate KeepsIri(props: seq<Prop>, value: Option<Id>) {
    && (value.Some? ==> Prop(ONTOLOGY_IRI, value.value) in props && value.value.Iri?)
    && (value.None? ==> forall prop | prop in props && prop.p == ONTOLOGY_IRI :: !prop.o.Iri?)
  }

  predicate IsTarget(prop: Prop, t: Id) {
    prop.p == APPLIES_TO && prop.o.Iri? && prop.o != ALL_GRAPHS && GraphOf(prop.o) == t
  }

  predicate IsImport(prop: Prop, i: Id) {
    prop.p in {IMPORTS, OWL_IMPORTS} && prop.o.Iri? && prop.o == i
  }

  ghost predicate KeepsTargets(props: seq<Prop>, targets: set<Id>, all: bool) {
    && (all <==> Prop(APPLIES_TO, ALL_GRAPHS) in props)
    && (forall t :: t in targets <==> exists prop :: prop in props && IsTarget(prop, t))
  }

  ghost predicate KeepsImports(props: seq<Prop>, imports: set<Id>) {
    forall i :: i in imports <==> exists prop :: prop in props && IsImport(prop, i)
  }

  ghost predicate KeepsActive(props: seq<Prop>, active: bool) {
    active <==> forall prop | prop in props && prop.p == ACTIVE :: prop.o !in FALSES
  }

  /** What a node's properties say, whatever their order. */
  ghost predicate Denotes(props: seq<Prop>, d: Draft) {
    && KeepsActive(props, d.reg.active)
    && KeepsTargets(props, d.reg.appliesTo, d.all)
    && KeepsImports(props, d.reg.imports)
    && KeepsIri(props, d.reg.iri)
    && Keeps(props, VERSION, d.reg.version) && Keeps(props, SHA256, d.reg.sha256)
    && Keeps(props, LOADED_AT, d.reg.loadedAt)
  }

  lemma {:induction false} ReadPropsDenote(props: seq<Prop>)
    ensures Denotes(props, ReadProps(props))
    decreases |props|
  {
    hide ReadProp;
    if props != [] {
      var front, last := props[..|props| - 1], props[|props| - 1];
      ReadPropsDenote(front);
      var d, next := ReadProps(front), ReadProps(props);
      assert forall prop :: prop in props <==> prop in front || prop == last;
      OnePropTexts(front, last, props, d);
      OnePropTime(front, last, props, d);
      OnePropIris(front, last, props, d);
      OnePropActive(front, last, props, d);
    }
  }

  lemma OnePropTexts(front: seq<Prop>, last: Prop, props: seq<Prop>, d: Draft)
    requires forall prop :: prop in props <==> prop in front || prop == last
    ensures Keeps(front, VERSION, d.reg.version) ==> Keeps(props, VERSION, ReadProp(d, last).reg.version)
    ensures Keeps(front, SHA256, d.reg.sha256) ==> Keeps(props, SHA256, ReadProp(d, last).reg.sha256)
  {
    hide GraphOf;
  }

  lemma OnePropTime(front: seq<Prop>, last: Prop, props: seq<Prop>, d: Draft)
    requires forall prop :: prop in props <==> prop in front || prop == last
    ensures Keeps(front, LOADED_AT, d.reg.loadedAt) ==> Keeps(props, LOADED_AT, ReadProp(d, last).reg.loadedAt)
  {
    hide GraphOf;
  }

  lemma OnePropIris(front: seq<Prop>, last: Prop, props: seq<Prop>, d: Draft)
    requires forall prop :: prop in props <==> prop in front || prop == last
    ensures KeepsImports(front, d.reg.imports) ==> KeepsImports(props, ReadProp(d, last).reg.imports)
    ensures KeepsIri(front, d.reg.iri) ==> KeepsIri(props, ReadProp(d, last).reg.iri)
  {
    hide GraphOf;
    var next := ReadProp(d, last);
    assert last in props;
    assert forall i :: i in next.reg.imports <==> i in d.reg.imports || IsImport(last, i);
    forall i
      ensures (exists prop :: prop in props && IsImport(prop, i))
        <==> (exists prop :: prop in front && IsImport(prop, i)) || IsImport(last, i)
    {
      if exists prop :: prop in front && IsImport(prop, i) {
        var prop :| prop in front && IsImport(prop, i);
        assert prop in props;
      }
    }
  }

  lemma OnePropActive(front: seq<Prop>, last: Prop, props: seq<Prop>, d: Draft)
    requires forall prop :: prop in props <==> prop in front || prop == last
    ensures KeepsActive(front, d.reg.active) ==> KeepsActive(props, ReadProp(d, last).reg.active)
    ensures KeepsTargets(front, d.reg.appliesTo, d.all) ==>
      KeepsTargets(props, ReadProp(d, last).reg.appliesTo, ReadProp(d, last).all)
  {
    hide GraphOf;
    var next := ReadProp(d, last);
    assert last in props;
    assert forall t :: t in next.reg.appliesTo <==> t in d.reg.appliesTo || IsTarget(last, t);
    forall t
      ensures (exists prop :: prop in props && IsTarget(prop, t))
        <==> (exists prop :: prop in front && IsTarget(prop, t)) || IsTarget(last, t)
    {
      if exists prop :: prop in front && IsTarget(prop, t) {
        var prop :| prop in front && IsTarget(prop, t);
        assert prop in props;
      }
    }
  }

  // ------------------------------------------------------------------ validation

  datatype Problem =
    | BlankName
    | NoRole
    | TooMany(p: Id)
    | NotIri(p: Id, o: Id)
    | WrongLiteral(p: Id, o: Id)
    | NotBoolean(o: Id)
    | NotDigest(o: Id)

  const PROPERTIES := [APPLIES_TO, ACTIVE, ONTOLOGY_IRI, VERSION, SHA256, LOADED_AT, IMPORTS, OWL_IMPORTS]
  const SINGLE := [ACTIVE, ONTOLOGY_IRI, VERSION, SHA256, LOADED_AT]
  const NAMES := [APPLIES_TO, ONTOLOGY_IRI, IMPORTS, OWL_IMPORTS]
  const LITERALS := [ACTIVE, VERSION, SHA256, LOADED_AT]

  function LiteralKind(p: Id): LiteralType {
    if p == ACTIVE then XsdBoolean else if p == LOADED_AT then XsdDateTime else XsdString
  }

  function Values(props: seq<Prop>, p: Id): seq<Id> {
    if props == [] then []
    else
      var front, last := Values(props[..|props| - 1], p), props[|props| - 1];
      if last.p == p then front + [last.o] else front
  }

  predicate IsTyped(props: seq<Prop>) {
    HasRole(props, Role.Ontology) || HasRole(props, Role.Shacl) || HasRole(props, Role.Shex)
      || Prop(TYPE, SYSTEM_GRAPH) in props
  }

  predicate IsDescribed(props: seq<Prop>) {
    exists prop | prop in props :: prop.p in PROPERTIES
  }

  predicate IsDigest(text: string) {
    |text| == 64 && forall i | 0 <= i < |text| :: '0' <= text[i] <= '9' || 'a' <= text[i] <= 'f'
  }

  predicate IsLiteralOf(o: Id, kind: LiteralType) {
    o.Literal? && o.kind == kind
  }

  /** What is wrong with the values of a property. */
  predicate Violated(props: seq<Prop>, problem: Problem) {
    match problem
    case TooMany(p) => p in SINGLE && |Values(props, p)| > 1
    case NotIri(p, o) => p in NAMES && o in Values(props, p) && !o.Iri?
    case WrongLiteral(p, o) => p in LITERALS && o in Values(props, p) && !IsLiteralOf(o, LiteralKind(p))
    case NotBoolean(o) => o in Values(props, ACTIVE) && IsLiteralOf(o, XsdBoolean)
      && o.lex !in ["true", "false", "1", "0"]
    case NotDigest(o) => o in Values(props, SHA256) && o.Literal? && !IsDigest(o.lex)
    case _ => false
  }

  /** What is wrong with a node that is a registration, or looks like one. */
  predicate Violates(node: Id, props: seq<Prop>, problem: Problem) {
    && (IsTyped(props) || IsDescribed(props))
    && match problem
       case BlankName => node.Blank?
       case NoRole => !IsTyped(props)
       case _ => Violated(props, problem)
  }

  /** The problems with the values of one property. */
  method ValueProblems(props: seq<Prop>, p: Id) returns (out: seq<Problem>)
    ensures forall problem :: problem in out <==> OfProperty(problem, p) && Violated(props, problem)
  {
    out := [];
    var values := Values(props, p);
    if p in SINGLE && |values| > 1 {
      out := out + [TooMany(p)];
    }
    for i := 0 to |values|
      invariant forall problem :: problem in out <==>
        OfProperty(problem, p) && Violated(props, problem) && (problem.TooMany? || problem.o in values[..i])
    {
      var o := values[i];
      ghost var before := out;
      if p in NAMES && !o.Iri? {
        out := out + [NotIri(p, o)];
      }
      if p in LITERALS && !IsLiteralOf(o, LiteralKind(p)) {
        out := out + [WrongLiteral(p, o)];
      }
      if p == ACTIVE && IsLiteralOf(o, XsdBoolean) && o.lex !in ["true", "false", "1", "0"] {
        out := out + [NotBoolean(o)];
      }
      if p == SHA256 && o.Literal? && !IsDigest(o.lex) {
        out := out + [NotDigest(o)];
      }
      assert values[..i + 1] == values[..i] + [o];
    }
    assert values[..|values|] == values;
  }

  /** The problem is about the values of this property. */
  predicate OfProperty(problem: Problem, p: Id) {
    match problem
    case TooMany(q) => q == p
    case NotIri(q, _) => q == p
    case WrongLiteral(q, _) => q == p
    case NotBoolean(_) => p == ACTIVE
    case NotDigest(_) => p == SHA256
    case _ => false
  }

  method NodeProblems(node: Id, props: seq<Prop>) returns (out: seq<Problem>)
    ensures forall problem :: problem in out <==> Violates(node, props, problem)
  {
    hide IsTyped, IsDescribed, Violated, OfProperty;
    out := [];
    if !IsTyped(props) && !IsDescribed(props) {
      return;
    }
    if node.Blank? {
      out := out + [BlankName];
    }
    if !IsTyped(props) {
      out := out + [NoRole];
    }
    ghost var general := out;
    for i := 0 to |PROPERTIES|
      invariant forall problem ::
        problem in out <==> problem in general || InProperties(problem, props, PROPERTIES[..i])
    {
      var more := ValueProblems(props, PROPERTIES[i]);
      assert PROPERTIES[..i + 1] == PROPERTIES[..i] + [PROPERTIES[i]];
      out := out + more;
    }
    assert PROPERTIES[..|PROPERTIES|] == PROPERTIES;
    EveryProperty(props);
  }

  ghost predicate InProperties(problem: Problem, props: seq<Prop>, ps: seq<Id>) {
    exists p :: p in ps && OfProperty(problem, p) && Violated(props, problem)
  }

  function PropertyOf(problem: Problem): Id {
    match problem
    case TooMany(p) => p
    case NotIri(p, _) => p
    case WrongLiteral(p, _) => p
    case NotDigest(_) => SHA256
    case _ => ACTIVE
  }

  /** Every problem with a value belongs to a registration property. */
  lemma EveryProperty(props: seq<Prop>)
    ensures forall problem: Problem | !problem.BlankName? && !problem.NoRole? ::
      InProperties(problem, props, PROPERTIES) <==> Violated(props, problem)
    ensures !InProperties(BlankName, props, PROPERTIES) && !InProperties(NoRole, props, PROPERTIES)
  {
    assert PROPERTIES[0] == APPLIES_TO && PROPERTIES[1] == ACTIVE && PROPERTIES[2] == ONTOLOGY_IRI
      && PROPERTIES[3] == VERSION;
    assert PROPERTIES[4] == SHA256 && PROPERTIES[5] == LOADED_AT && PROPERTIES[6] == IMPORTS
      && PROPERTIES[7] == OWL_IMPORTS;
    forall problem: Problem | !problem.BlankName? && !problem.NoRole? && Violated(props, problem)
      ensures InProperties(problem, props, PROPERTIES)
    {
      var p := PropertyOf(problem);
      assert p in PROPERTIES && OfProperty(problem, p);
    }
  }

  ghost predicate HasProblem(rows: seq<Triple>, node: Id, problem: Problem) {
    Violates(node, PropsOf(rows, node), problem)
  }

  /** `problems`: every violation, of every node. */
  method Problems(rows: seq<Triple>) returns (out: set<(Id, Problem)>)
    ensures forall node, problem :: (node, problem) in out <==> HasProblem(rows, node, problem)
  {
    hide IsTyped, IsDescribed, Violated;
    var nodes := set row | row in rows :: row.s;
    ghost var all := nodes;
    out := {};
    while nodes != {}
      invariant nodes <= all
      invariant forall node, problem ::
        (node, problem) in out <==> node in all - nodes && HasProblem(rows, node, problem)
      decreases nodes
    {
      var node :| node in nodes;
      var found := NodeProblems(node, PropsOf(rows, node));
      out := out + set problem | problem in found :: (node, problem);
      nodes := nodes - {node};
    }
    forall node | node !in all
      ensures PropsOf(rows, node) == []
    {
      NoProps(rows, node);
    }
    NothingIsFine();
  }

  lemma {:induction false} NoProps(rows: seq<Triple>, node: Id)
    requires forall row | row in rows :: row.s != node
    ensures PropsOf(rows, node) == []
    decreases |rows|
  {
    if rows != [] {
      NoProps(rows[..|rows| - 1], node);
    }
  }

  lemma NothingIsFine()
    ensures !IsTyped([]) && !IsDescribed([])
  {
  }

  // ------------------------------------------------------------------ reader and SQL agree

  /** The rows of the registry query: the registry graph's triples, in any order. */
  ghost predicate Reads(rows: seq<Triple>, quads: set<Quad>) {
    forall t: Triple :: t in rows <==> Quad(t.s, t.p, t.o, SCHEMA_GRAPH) in quads
  }

  lemma {:induction false} PropsAreRows(rows: seq<Triple>, node: Id, prop: Prop)
    ensures prop in PropsOf(rows, node) <==> prop.p.Iri? && Triple(node, prop.p, prop.o) in rows
    decreases |rows|
  {
    if rows != [] {
      var front, last := rows[..|rows| - 1], rows[|rows| - 1];
      PropsAreRows(front, node, prop);
      assert rows == front + [last];
    }
  }

  lemma {:induction false} ValuesAreProps(props: seq<Prop>, p: Id, o: Id)
    ensures o in Values(props, p) <==> Prop(p, o) in props
    decreases |props|
  {
    if props != [] {
      var front, last := props[..|props| - 1], props[|props| - 1];
      ValuesAreProps(front, p, o);
      assert props == front + [last];
    }
  }

  ghost predicate NoProblems(rows: seq<Triple>) {
    forall node, problem :: !HasProblem(rows, node, problem)
  }

  /** A property of a registration, or a role. */
  ghost predicate IsRegistration(p: Id, o: Id) {
    p in PROPERTIES || (p == TYPE && exists role :: o == RoleClass(role))
  }

  /** What validation gives the reader: registered nodes are IRIs, and so are their targets. */
  lemma SoundRegistrations(rows: seq<Triple>, quads: set<Quad>, node: Id)
    requires Reads(rows, quads) && NoProblems(rows)
    requires exists q | q in quads :: q.g == SCHEMA_GRAPH && q.s == node && IsRegistration(q.p, q.o)
    ensures !node.Blank?
    ensures forall q | q in quads && q.g == SCHEMA_GRAPH && q.s == node && q.p == APPLIES_TO :: q.o.Iri?
  {
    hide IsTyped, IsDescribed, Violated;
    var props := PropsOf(rows, node);
    var q :| q in quads && q.g == SCHEMA_GRAPH && q.s == node && IsRegistration(q.p, q.o);
    assert Triple(q.s, q.p, q.o) in rows;
    PropsAreRows(rows, node, Prop(q.p, q.o));
    CheckedNode(props, q.p, q.o);
    assert !HasProblem(rows, node, BlankName);
    forall t | t in quads && t.g == SCHEMA_GRAPH && t.s == node && t.p == APPLIES_TO
      ensures t.o.Iri?
    {
      assert Triple(t.s, t.p, t.o) in rows;
      PropsAreRows(rows, node, Prop(APPLIES_TO, t.o));
      ValuesAreProps(props, APPLIES_TO, t.o);
      assert !HasProblem(rows, node, NotIri(APPLIES_TO, t.o));
      TargetsAreNames(props, t.o);
    }
  }

  lemma CheckedNode(props: seq<Prop>, p: Id, o: Id)
    requires Prop(p, o) in props && IsRegistration(p, o)
    ensures IsTyped(props) || IsDescribed(props)
  {
    if p !in PROPERTIES {
      var role :| o == RoleClass(role);
      match role
      case Ontology =>
      case Shacl =>
      case Shex =>
    }
  }

  lemma TargetsAreNames(props: seq<Prop>, o: Id)
    ensures Violated(props, NotIri(APPLIES_TO, o)) <==> o in Values(props, APPLIES_TO) && !o.Iri?
  {
    assert NAMES[0] == APPLIES_TO;
  }

  /** Quads hold terms, and the default graph is not one. */
  predicate TermsOnly(quads: set<Quad>) {
    forall q | q in quads :: (q.s.Iri? || q.s.Blank?) && q.p.Iri? && q.o != DefaultGraph
  }

  /** An entry of the reader that contributes to its role. */
  ghost predicate ActiveEntry(rows: seq<Triple>, node: Id, e: Entry) {
    IsEntry(rows, node, e) && e.reg.active
  }

  /** The nodes with entries of a role are the registered ones, and active alike. */
  lemma EntriesAreActiveNodes(rows: seq<Triple>, quads: set<Quad>, node: Id, role: Role)
    requires Reads(rows, quads) && NoProblems(rows) && TermsOnly(quads)
    ensures (exists e :: ActiveEntry(rows, node, e) && e.role == role) <==> node in ActiveNodes(quads, role)
  {
    hide ReadProps, Violates, RoleClass, GraphOf, NoProblems;
    var props := PropsOf(rows, node);
    ReadPropsDenote(props);
    PropsAreRows(rows, node, Prop(TYPE, RoleClass(role)));
    var entry := Entry(GraphOf(node), role, Finished(ReadProps(props)));
    DeactivatedIsRead(rows, quads, node);
    assert node in RoleNodes(quads, role) <==> HasRole(props, role) by {
      assert Triple(node, TYPE, RoleClass(role)) in rows <==> Quad(node, TYPE, RoleClass(role), SCHEMA_GRAPH) in quads;
    }
    if node in RoleNodes(quads, role) {
      SoundRegistrations(rows, quads, node);
      assert node.Iri?;
      assert IsEntry(rows, node, entry);
    }
  }

  lemma DeactivatedIsRead(rows: seq<Triple>, quads: set<Quad>, node: Id)
    requires Reads(rows, quads)
    ensures KeepsActive(PropsOf(rows, node), !Deactivated(quads, node))
  {
    forall prop | prop in PropsOf(rows, node)
      ensures Quad(node, prop.p, prop.o, SCHEMA_GRAPH) in quads
    {
      PropsAreRows(rows, node, prop);
      assert Triple(node, prop.p, prop.o) in rows;
    }
    if Deactivated(quads, node) {
      var q :| q in quads && q.g == SCHEMA_GRAPH && q.s == node && q.p == ACTIVE && q.o in FALSES;
      assert Triple(q.s, q.p, q.o) in rows;
      PropsAreRows(rows, node, Prop(q.p, q.o));
    }
  }

  /** The reader's active (graph, role) pairs are those of the SQL fragment. */
  lemma ReaderFindsActiveGraphs(rows: seq<Triple>, quads: set<Quad>, role: Role, g: Id)
    requires Reads(rows, quads) && NoProblems(rows) && TermsOnly(quads)
    ensures (exists node, e :: ActiveEntry(rows, node, e) && e.role == role && e.graph == g)
       <==> (exists n :: n in ActiveNodes(quads, role) && GraphOf(n) == g)
  {
    hide ReadProps, Violates, RoleClass, NoProblems, ActiveNodes, PropsOf, Reads;
    if node, e :| ActiveEntry(rows, node, e) && e.role == role && e.graph == g {
      EntriesAreActiveNodes(rows, quads, node, role);
    }
    if n :| n in ActiveNodes(quads, role) && GraphOf(n) == g {
      EntriesAreActiveNodes(rows, quads, n, role);
      var e :| ActiveEntry(rows, n, e) && e.role == role;
      assert e.graph == g;
    }
  }

  /** Of a node without problems, the reader keeps exactly the SQL targets. */
  lemma TargetsAreRead(rows: seq<Triple>, quads: set<Quad>, node: Id)
    requires Reads(rows, quads) && NoProblems(rows) && node in ActiveNodes(quads, Role.Ontology)
    ensures KeepsTargets(PropsOf(rows, node), set t | t in Targets(quads) && t.0 == node :: t.1, node in ToAll(quads))
  {
    hide NoProblems, Violates;
    var props, targets := PropsOf(rows, node), set t | t in Targets(quads) && t.0 == node :: t.1;
    SoundRegistrations(rows, quads, node);
    PropsAreRows(rows, node, Prop(APPLIES_TO, ALL_GRAPHS));
    assert Triple(node, APPLIES_TO, ALL_GRAPHS) in rows <==> Quad(node, APPLIES_TO, ALL_GRAPHS, SCHEMA_GRAPH) in quads;
    forall prop | prop in props
      ensures Quad(node, prop.p, prop.o, SCHEMA_GRAPH) in quads
    {
      PropsAreRows(rows, node, prop);
      assert Triple(node, prop.p, prop.o) in rows;
    }
    forall t | t in targets
      ensures exists prop :: prop in props && IsTarget(prop, t)
    {
      var q :| q in quads && q.g == SCHEMA_GRAPH && q.s == node && q.p == APPLIES_TO && q.o != ALL_GRAPHS
        && GraphOf(q.o) == t;
      assert Triple(q.s, q.p, q.o) in rows;
      PropsAreRows(rows, node, Prop(q.p, q.o));
      assert IsTarget(Prop(q.p, q.o), t);
    }
    forall prop, t | prop in props && IsTarget(prop, t)
      ensures t in targets
    {
      assert (node, t) in Targets(quads);
    }
  }

  /** Node names are unambiguous: two registered nodes never name the same graph. */
  lemma NodesNameGraphs(quads: set<Quad>, a: Id, b: Id)
    requires TermsOnly(quads) && a in ActiveNodes(quads, Role.Ontology) && b in ActiveNodes(quads, Role.Ontology)
    ensures GraphOf(a) == GraphOf(b) ==> a == b
  {
  }

  /** An active ontology applies to a graph, as the reader says, exactly when the SQL mapping
      gives its graph the scope that graph's queries use. */
  lemma ReaderAgreesOnTargets(rows: seq<Triple>, quads: set<Quad>, node: Id, e: Entry, target: Id)
    requires Reads(rows, quads) && NoProblems(rows) && TermsOnly(quads)
    requires ActiveEntry(rows, node, e) && e.role == Role.Ontology
    ensures Applies(e.reg, target) <==> Mapping(e.graph, Scopes.OwnScope(quads, target)) in Direct(quads)
  {
    hide NoProblems, ReadProps, PropsOf, ActiveNodes, Reads, GraphOf, Targets, ToAll;
    EntriesAreActiveNodes(rows, quads, node, Role.Ontology);
    TargetsAreRead(rows, quads, node);
    ReadPropsDenote(PropsOf(rows, node));
    var mine, all := set t | t in Targets(quads) && t.0 == node :: t.1, node in ToAll(quads);
    var d := ReadProps(PropsOf(rows, node));
    SameTargets(PropsOf(rows, node), d.reg.appliesTo, d.all, mine, all);
    assert e.reg.appliesTo == if all then {} else mine;
    DirectScopes(quads, node, target, mine, all);
  }

  lemma SameTargets(props: seq<Prop>, a: set<Id>, x: bool, b: set<Id>, y: bool)
    requires KeepsTargets(props, a, x) && KeepsTargets(props, b, y)
    ensures a == b && x == y
  {
    assert forall t :: t in a <==> t in b;
  }

  lemma DirectScopes(quads: set<Quad>, node: Id, target: Id, mine: set<Id>, all: bool)
    requires TermsOnly(quads) && node in ActiveNodes(quads, Role.Ontology)
    requires mine == (set t | t in Targets(quads) && t.0 == node :: t.1) && all == (node in ToAll(quads))
    ensures Mapping(GraphOf(node), Scopes.OwnScope(quads, target)) in Direct(quads)
      <==> all || mine == {} || target in mine
  {
    hide ActiveNodes, ToAll;
    assert node in Global(quads) <==> all || mine == {} by {
      assert mine == {} <==> node !in (set t | t in Targets(quads) :: t.0) by {
        assert forall t | t in Targets(quads) && t.0 == node :: t.1 in mine;
      }
    }
    NoTargetIsAll(quads);
    forall n | n in ActiveNodes(quads, Role.Ontology) && GraphOf(n) == GraphOf(node)
      ensures n == node
    {
      NodesNameGraphs(quads, n, node);
    }
    assert target in mine <==> (node, target) in Specific(quads);
  }

  lemma NoTargetIsAll(quads: set<Quad>)
    requires TermsOnly(quads)
    ensures forall t | t in Targets(quads) :: t.1 != ALL_GRAPHS
  {
  }
}
