/** The registry graph as the SQL fragments read it: which graphs feed the schema closure, and
    to which graphs each of them applies (registry.rs). */
module Registry {
  import opened Ids
  import Fixpoint

  datatype Role = Ontology | Shacl | Shex

  function RoleClass(role: Role): Id {
    match role
    case Ontology => ONTOLOGY_GRAPH
    case Shacl => SHAPES_GRAPH
    case Shex => SHEX_GRAPH
  }

  /** The graph a registry node names. */
  function GraphOf(node: Id): Id {
    if node == DEFAULT_NODE then DefaultGraph else node
  }

  /** Whoever carries the type of the role, whatever else is said of it. */
  function RoleNodes(quads: set<Quad>, role: Role): set<Id> {
    set q | q in quads && q.g == SCHEMA_GRAPH && q.p == TYPE && q.o == RoleClass(role) :: q.s
  }

  predicate Deactivated(quads: set<Quad>, node: Id) {
    exists q | q in quads :: q.g == SCHEMA_GRAPH && q.s == node && q.p == ACTIVE && q.o in FALSES
  }

  function ActiveNodes(quads: set<Quad>, role: Role): set<Id> {
    set n | n in RoleNodes(quads, role) && !Deactivated(quads, n)
  }

  /** Whether `role` draws on graph `g`. With an empty registry that means any graph outside the
      system's own; the first registration narrows it to the active ones. */
  predicate InScope(quads: set<Quad>, role: Role, g: Id) {
    || (RoleNodes(quads, role) == {} && g !in SYSTEM_GRAPHS)
    || g in (set n | n in ActiveNodes(quads, role) :: GraphOf(n))
  }

  // ------------------------------------------------------------------ ontology axioms

  /** A graph whose axioms count in a scope. */
  datatype Mapping = Mapping(g: Id, scope: Id)

  datatype Axiom = Axiom(s: Id, p: Id, o: Id, scope: Id)

  /** The closure statements read triples of this shape. */
  predicate IsAxiom(p: Id, o: Id) {
    || p in {SUB_CLASS_OF, SUB_PROPERTY_OF, DOMAIN, RANGE, EQUIVALENT_CLASS, EQUIVALENT_PROPERTY, INVERSE_OF}
    || (p == TYPE && o in {SYMMETRIC, TRANSITIVE})
  }

  /** (node, graph) for every target that is not "all graphs". */
  function Targets(quads: set<Quad>): set<(Id, Id)> {
    set q | q in quads && q.g == SCHEMA_GRAPH && q.p == APPLIES_TO && q.o != ALL_GRAPHS :: (q.s, GraphOf(q.o))
  }

  function ToAll(quads: set<Quad>): set<Id> {
    set q | q in quads && q.g == SCHEMA_GRAPH && q.p == APPLIES_TO && q.o == ALL_GRAPHS :: q.s
  }

  /** Active ontologies for every graph: no specific target, or "all graphs" among them. */
  function Global(quads: set<Quad>): set<Id> {
    set n | n in ActiveNodes(quads, Ontology) && (n in ToAll(quads) || n !in (set t | t in Targets(quads) :: t.0))
  }

  function Specific(quads: set<Quad>): set<(Id, Id)> {
    set t | t in Targets(quads) && t.0 in ActiveNodes(quads, Ontology)
  }

  function Direct(quads: set<Quad>): set<Mapping> {
    (set n | n in Global(quads) :: Mapping(GraphOf(n), ALL_GRAPHS))
    + (set n, t | n in Global(quads) && t in Specific(quads) :: Mapping(GraphOf(n), t.1))
    + (set t | t in Specific(quads) :: Mapping(GraphOf(t.0), t.1))
  }

  /** Import edges from a graph to an IRI, from either place where an import can be stated. */
  function Imports(quads: set<Quad>): set<(Id, Id)> {
    (set q | q in quads && q.g == SCHEMA_GRAPH && q.p in {IMPORTS, OWL_IMPORTS} :: (GraphOf(q.s), q.o))
    + (set n, q | n in ActiveNodes(quads, Ontology) && q in quads && q.p == OWL_IMPORTS && q.g == GraphOf(n)
         :: (GraphOf(n), q.o))
  }

  /** (IRI, graph) for the names of each active ontology. */
  function Names(quads: set<Quad>): set<(Id, Id)> {
    (set n | n in ActiveNodes(quads, Ontology) :: (n, GraphOf(n)))
    + (set q | q in quads && q.g == SCHEMA_GRAPH && q.p == ONTOLOGY_IRI && q.s in ActiveNodes(quads, Ontology)
         :: (q.o, GraphOf(q.s)))
  }

  /** (importer, imported) between graphs. */
  function ImportEdges(quads: set<Quad>): set<(Id, Id)> {
    set i, n | i in Imports(quads) && n in Names(quads) && n.0 == i.1 :: (i.0, n.1)
  }

  function Follow(edges: set<(Id, Id)>, m: Mapping): set<Mapping> {
    set e | e in edges && e.0 == m.g :: Mapping(e.1, m.scope)
  }

  function FollowImports(edges: set<(Id, Id)>): Mapping -> set<Mapping> {
    (m: Mapping) => Follow(edges, m)
  }

  function MappingFrame(direct: set<Mapping>, edges: set<(Id, Id)>): set<Mapping> {
    direct + (set m, e | m in direct && e in edges :: Mapping(e.1, m.scope))
  }

  lemma MappingFrameHolds(direct: set<Mapping>, edges: set<(Id, Id)>)
    ensures Fixpoint.Bounded(direct, FollowImports(edges), MappingFrame(direct, edges))
  {
  }

  /** `reg_map`: the direct mapping, carried along imports (cycles included). */
  function ScopeMap(quads: set<Quad>): set<Mapping> {
    var direct, edges := Direct(quads), ImportEdges(quads);
    MappingFrameHolds(direct, edges);
    Fixpoint.Least(direct, FollowImports(edges), MappingFrame(direct, edges))
  }

  /** The ontology axioms with their scopes. */
  function OntologyAxioms(quads: set<Quad>): set<Axiom> {
    (set q, m | q in quads && m in ScopeMap(quads) && IsAxiom(q.p, q.o) && m.g == q.g :: Axiom(q.s, q.p, q.o, m.scope))
    + (set q | q in quads && IsAxiom(q.p, q.o) && RoleNodes(quads, Ontology) == {} && q.g !in SYSTEM_GRAPHS
         :: Axiom(q.s, q.p, q.o, ALL_GRAPHS))
  }

  // ------------------------------------------------------------------ which writes matter

  predicate IsRegistryQuad(q: Quad) {
    q.g == SCHEMA_GRAPH
  }

  /** Predicates that make a triple a schema triple whatever its object. */
  predicate IsSchemaIri(p: Id) {
    p in {SUB_CLASS_OF, SUB_PROPERTY_OF, DOMAIN, RANGE, EQUIVALENT_CLASS, EQUIVALENT_PROPERTY, INVERSE_OF, OWL_IMPORTS}
  }

  predicate IsAxiomClass(o: Id) {
    o in {SYMMETRIC, TRANSITIVE}
  }

  /** What the write path goes by: a quad of this kind asks for a rebuild of the closure. */
  predicate IsSchemaQuad(q: Quad) {
    IsRegistryQuad(q) || IsSchemaIri(q.p) || (q.p == TYPE && IsAxiomClass(q.o))
  }

  predicate IsOxl(id: Id) {
    id.Iri? && id.ns == Oxl
  }

  /** A registration triple, by its predicate and object. */
  predicate IsRegistryTriple(p: Id, o: Id) {
    IsOxl(p) || (p == TYPE && IsOxl(o))
  }

  /** What the closure really reads, of which `IsSchemaQuad` is an over-estimate: of the registry
      graph, registration triples only. */
  predicate FeedsClosure(q: Quad) {
    || IsSchemaIri(q.p)
    || (q.p == TYPE && IsAxiomClass(q.o))
    || (IsRegistryQuad(q) && IsRegistryTriple(q.p, q.o))
  }

  function SchemaPart(quads: set<Quad>): set<Quad> {
    set q | q in quads && FeedsClosure(q)
  }

  /** Nothing outside `FeedsClosure` reaches the ontology axioms. */
  lemma AxiomsReadSchemaPart(quads: set<Quad>)
    ensures OntologyAxioms(quads) == OntologyAxioms(SchemaPart(quads))
  {
    var part := SchemaPart(quads);
    RegistrationsAlike(quads);
    hide RoleNodes, Direct, ImportEdges;
    assert ScopeMap(quads) == ScopeMap(part);
    hide ScopeMap;
  }

  lemma RegistrationsAlike(quads: set<Quad>)
    ensures var part := SchemaPart(quads);
      && RoleNodes(quads, Ontology) == RoleNodes(part, Ontology)
      && Direct(quads) == Direct(part) && ImportEdges(quads) == ImportEdges(part)
  {
    var part := SchemaPart(quads);
    RolesReadRegistry(quads, part, Ontology);
    assert Targets(quads) == Targets(part);
    assert ToAll(quads) == ToAll(part);
    assert Imports(quads) == Imports(part);
    assert Names(quads) == Names(part);
    hide Targets, ToAll, Imports, Names, ActiveNodes, RoleNodes;
    assert Direct(quads) == Direct(part);
  }

  /** Two quad sets with the same registration triples have the same roles. */
  lemma RolesReadRegistry(quads: set<Quad>, part: set<Quad>, role: Role)
    requires forall q: Quad | IsRegistryQuad(q) && IsRegistryTriple(q.p, q.o) :: q in quads <==> q in part
    ensures RoleNodes(quads, role) == RoleNodes(part, role)
    ensures ActiveNodes(quads, role) == ActiveNodes(part, role)
  {
    forall n
      ensures Deactivated(quads, n) <==> Deactivated(part, n)
    {
    }
  }
}
