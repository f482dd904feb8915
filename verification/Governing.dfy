/** Which graphs govern a graph, said on registration and import triples, and that scope selection,
    the closure and forward chaining go by exactly their triples (registry.rs, reason.rs). */
module Governing {
  import opened Ids
  import opened Registry
  import opened Registrations
  import opened Walks
  import opened Closure
  import opened Scopes
  import opened Chaining
  import Fixpoint

  // ------------------------------------------------------------------ ontologies and imports

  predicate IsActiveOntology(quads: set<Quad>, n: Id) {
    IsActiveAs(quads, n, ONTOLOGY_GRAPH)
  }

  /** For all graphs, for no graph in particular, or for this one. */
  ghost predicate IsFor(quads: set<Quad>, n: Id, g: Id) {
    || Says(quads, n, APPLIES_TO, ALL_GRAPHS)
    || (forall target :: !Says(quads, n, APPLIES_TO, target))
    || exists target :: Says(quads, n, APPLIES_TO, target) && IsNodeOf(target, g)
  }

  /** The registry says that the graph imports the IRI, or the graph of an active ontology itself
      does. */
  ghost predicate ImportsIri(quads: set<Quad>, g: Id, iri: Id) {
    || (exists n :: IsNodeOf(n, g) && (Says(quads, n, IMPORTS, iri) || Says(quads, n, OWL_IMPORTS, iri)))
    || (exists n, s :: IsActiveOntology(quads, n) && IsNodeOf(n, g) && Quad(s, OWL_IMPORTS, iri, g) in quads)
  }

  /** The IRI is that of the node or its ontology's. */
  predicate IsIriOf(quads: set<Quad>, iri: Id, n: Id) {
    iri == n || Says(quads, n, ONTOLOGY_IRI, iri)
  }

  /** What graph `g` imports names an active ontology, whose graph is `h`. */
  ghost predicate ImportsGraph(quads: set<Quad>, g: Id, h: Id) {
    exists iri, n :: ImportsIri(quads, g, iri) && IsIriOf(quads, iri, n) && IsActiveOntology(quads, n) && IsNodeOf(n, h)
  }

  ghost predicate IsImportChain(quads: set<Quad>, w: seq<Id>) {
    w != [] && forall i | 0 < i < |w| :: ImportsGraph(quads, w[i - 1], w[i])
  }

  ghost predicate StartsFor(quads: set<Quad>, g: Id, h: Id) {
    exists n :: IsActiveOntology(quads, n) && IsFor(quads, n, g) && IsNodeOf(n, h)
  }

  /** A chain of imports leads from an active ontology for `g` to the graph `h`. */
  ghost predicate IsImportedFor(quads: set<Quad>, g: Id, h: Id) {
    exists w :: IsImportChain(quads, w) && StartsFor(quads, g, w[0]) && w[|w| - 1] == h
  }

  /** Without any ontology registered the data graphs govern every graph; then the ontologies for
      the graph do, and what they import. */
  ghost predicate Governs(quads: set<Quad>, h: Id, g: Id) {
    if forall n :: !Says(quads, n, TYPE, ONTOLOGY_GRAPH) then h != SCHEMA_GRAPH && h != VOCABULARY_GRAPH
    else IsImportedFor(quads, g, h)
  }

  /** The triples of the graphs that govern `g`, axioms or not. */
  ghost function GoverningTriples(quads: set<Quad>, g: Id): set<Triple> {
    set q | q in quads && Governs(quads, q.g, g) :: Triple(q.s, q.p, q.o)
  }

  // ------------------------------------------------------------------ the SQL fragments say the same

  lemma OntologiesOnTriples(quads: set<Quad>, n: Id)
    ensures n in ActiveNodes(quads, Ontology) <==> IsActiveOntology(quads, n)
  {
    hide ActiveNodes, IsActiveAs;
    ActiveOnTriples(quads, Ontology, n);
  }

  lemma NoOntologyOnTriples(quads: set<Quad>)
    ensures RoleNodes(quads, Ontology) == {} <==> forall n :: !Says(quads, n, TYPE, ONTOLOGY_GRAPH)
  {
    hide RoleNodes, Says;
    RegisteredOnTriples(quads, Ontology);
    assert RoleClass(Ontology) == ONTOLOGY_GRAPH;
  }

  lemma TargetsOnTriples(quads: set<Quad>, n: Id, g: Id)
    ensures (n, g) in Targets(quads) <==> exists target ::
      target != ALL_GRAPHS && Says(quads, n, APPLIES_TO, target) && GraphOf(target) == g
    ensures n in ToAll(quads) <==> Says(quads, n, APPLIES_TO, ALL_GRAPHS)
  {
    if (n, g) in Targets(quads) {
      var q :| q in quads && q.g == SCHEMA_GRAPH && q.p == APPLIES_TO && q.o != ALL_GRAPHS
        && (n, g) == (q.s, GraphOf(q.o));
      assert q == Quad(n, APPLIES_TO, q.o, SCHEMA_GRAPH);
    }
    if target :| target != ALL_GRAPHS && Says(quads, n, APPLIES_TO, target) && GraphOf(target) == g {
      var q := Quad(n, APPLIES_TO, target, SCHEMA_GRAPH);
      assert (q.s, GraphOf(q.o)) in Targets(quads);
    }
    if n in ToAll(quads) {
      var q :| q in quads && q.g == SCHEMA_GRAPH && q.p == APPLIES_TO && q.o == ALL_GRAPHS && q.s == n;
      assert q == Quad(n, APPLIES_TO, ALL_GRAPHS, SCHEMA_GRAPH);
    }
    if Says(quads, n, APPLIES_TO, ALL_GRAPHS) {
      var q := Quad(n, APPLIES_TO, ALL_GRAPHS, SCHEMA_GRAPH);
      assert q in quads && q.s == n;
    }
  }

  lemma AppliesOnTriples(quads: set<Quad>, n: Id, g: Id)
    ensures Applies(quads, n, g) <==> IsActiveOntology(quads, n) && IsFor(quads, n, g)
  {
    hide ActiveNodes, Targets, ToAll, IsActiveOntology, Says;
    OntologiesOnTriples(quads, n);
    forall h
      ensures (n, h) in Targets(quads) <==> exists target ::
        target != ALL_GRAPHS && Says(quads, n, APPLIES_TO, target) && IsNodeOf(target, h)
    {
      TargetsOnTriples(quads, n, h);
      forall target
        ensures IsNodeOf(target, h) <==> GraphOf(target) == h
      {
        NodesOfGraphs(target, h);
      }
    }
    TargetsOnTriples(quads, n, g);
    if forall target :: !Says(quads, n, APPLIES_TO, target) {
      forall t | t in Targets(quads)
        ensures t.0 != n
      {
        assert t.0 == n ==> (n, t.1) in Targets(quads);
      }
    }
    if target :| Says(quads, n, APPLIES_TO, target) && target != ALL_GRAPHS {
      NodesOfGraphs(target, GraphOf(target));
      assert (n, GraphOf(target)) in Targets(quads);
    }
  }

  lemma ImportsOnTriples(quads: set<Quad>, g: Id, iri: Id)
    ensures (g, iri) in Imports(quads) <==> ImportsIri(quads, g, iri)
  {
    hide ActiveNodes, IsActiveOntology, GraphOf, IsNodeOf;
    forall n
      ensures n in ActiveNodes(quads, Ontology) <==> IsActiveOntology(quads, n)
      ensures IsNodeOf(n, g) <==> GraphOf(n) == g
    {
      OntologiesOnTriples(quads, n);
      NodesOfGraphs(n, g);
    }
    if (g, iri) in Imports(quads) {
      if q :| q in quads && q.g == SCHEMA_GRAPH && q.p in {IMPORTS, OWL_IMPORTS} && (g, iri) == (GraphOf(q.s), q.o) {
        assert q == Quad(q.s, q.p, iri, SCHEMA_GRAPH) && IsNodeOf(q.s, g);
      } else {
        var n, q :| n in ActiveNodes(quads, Ontology) && q in quads && q.p == OWL_IMPORTS && q.g == GraphOf(n)
          && (g, iri) == (GraphOf(n), q.o);
        assert q == Quad(q.s, OWL_IMPORTS, iri, g) && IsNodeOf(n, g);
      }
    }
    if n :| IsNodeOf(n, g) && (Says(quads, n, IMPORTS, iri) || Says(quads, n, OWL_IMPORTS, iri)) {
      var q := Quad(n, if Says(quads, n, IMPORTS, iri) then IMPORTS else OWL_IMPORTS, iri, SCHEMA_GRAPH);
      assert q in quads && (GraphOf(q.s), q.o) == (g, iri);
    }
    if n, s :| IsActiveOntology(quads, n) && IsNodeOf(n, g) && Quad(s, OWL_IMPORTS, iri, g) in quads {
      var q := Quad(s, OWL_IMPORTS, iri, g);
      assert q in quads && n in ActiveNodes(quads, Ontology) && q.g == GraphOf(n);
    }
  }

  lemma NamesOnTriples(quads: set<Quad>, iri: Id, h: Id)
    ensures (iri, h) in Names(quads) <==> exists n ::
      IsIriOf(quads, iri, n) && IsActiveOntology(quads, n) && IsNodeOf(n, h)
  {
    hide ActiveNodes, IsActiveOntology, GraphOf, IsNodeOf;
    forall n
      ensures n in ActiveNodes(quads, Ontology) <==> IsActiveOntology(quads, n)
      ensures IsNodeOf(n, h) <==> GraphOf(n) == h
    {
      OntologiesOnTriples(quads, n);
      NodesOfGraphs(n, h);
    }
    if (iri, h) in Names(quads) {
      if n :| n in ActiveNodes(quads, Ontology) && (iri, h) == (n, GraphOf(n)) {
        assert IsIriOf(quads, iri, n) && IsActiveOntology(quads, n) && IsNodeOf(n, h);
      } else {
        var q :| q in quads && q.g == SCHEMA_GRAPH && q.p == ONTOLOGY_IRI && q.s in ActiveNodes(quads, Ontology)
          && (iri, h) == (q.o, GraphOf(q.s));
        assert q == Quad(q.s, ONTOLOGY_IRI, iri, SCHEMA_GRAPH);
        assert IsIriOf(quads, iri, q.s) && IsActiveOntology(quads, q.s) && IsNodeOf(q.s, h);
      }
    }
    if n :| IsIriOf(quads, iri, n) && IsActiveOntology(quads, n) && IsNodeOf(n, h) {
      if iri != n {
        var q := Quad(n, ONTOLOGY_IRI, iri, SCHEMA_GRAPH);
        assert q in quads && q.s in ActiveNodes(quads, Ontology) && (q.o, GraphOf(q.s)) == (iri, h);
      }
    }
  }

  /** An import edge is an import triple whose object names the next ontology. */
  lemma EdgesOnTriples(quads: set<Quad>, g: Id, h: Id)
    ensures (g, h) in ImportEdges(quads) <==> ImportsGraph(quads, g, h)
  {
    hide Imports, Names, ImportsIri, IsIriOf, IsActiveOntology, IsNodeOf;
    forall iri
      ensures (g, iri) in Imports(quads) <==> ImportsIri(quads, g, iri)
      ensures (iri, h) in Names(quads)
        <==> exists n :: IsIriOf(quads, iri, n) && IsActiveOntology(quads, n) && IsNodeOf(n, h)
    {
      ImportsOnTriples(quads, g, iri);
      NamesOnTriples(quads, iri, h);
    }
    if (g, h) in ImportEdges(quads) {
      var i, n :| i in Imports(quads) && n in Names(quads) && n.0 == i.1 && (g, h) == (i.0, n.1);
      assert i == (g, i.1) && n == (i.1, h);
    }
    if ImportsGraph(quads, g, h) {
      var iri, n :| ImportsIri(quads, g, iri) && IsIriOf(quads, iri, n) && IsActiveOntology(quads, n) && IsNodeOf(n, h);
      assert (g, iri) in Imports(quads) && (iri, h) in Names(quads);
    }
  }

  lemma StartsOnTriples(quads: set<Quad>, g: Id, h: Id)
    ensures h in (set n | n in ActiveNodes(quads, Ontology) && Applies(quads, n, g) :: GraphOf(n))
      <==> StartsFor(quads, g, h)
  {
    hide ActiveNodes, IsActiveOntology, GraphOf, IsNodeOf, Applies, IsFor;
    forall n
      ensures n in ActiveNodes(quads, Ontology) <==> IsActiveOntology(quads, n)
      ensures IsNodeOf(n, h) <==> GraphOf(n) == h
      ensures Applies(quads, n, g) <==> IsActiveOntology(quads, n) && IsFor(quads, n, g)
    {
      OntologiesOnTriples(quads, n);
      NodesOfGraphs(n, h);
      AppliesOnTriples(quads, n, g);
    }
  }

  lemma ChainExtends(quads: set<Quad>, g: Id, h: Id, k: Id)
    requires IsImportedFor(quads, g, h) && ImportsGraph(quads, h, k)
    ensures IsImportedFor(quads, g, k)
  {
    hide ImportsGraph, StartsFor;
    var w :| IsImportChain(quads, w) && StartsFor(quads, g, w[0]) && w[|w| - 1] == h;
    assert IsImportChain(quads, w + [k]);
  }

  lemma {:induction false} ChainsArrive(quads: set<Quad>, g: Id, w: seq<Id>)
    requires IsImportChain(quads, w) && StartsFor(quads, g, w[0])
    ensures w[|w| - 1] in ApplicableGraphs(quads, g)
    decreases |w|
  {
    hide ImportsGraph, StartsFor, ImportEdges, WithImports, Applies, ActiveNodes;
    var seed, edges := set n | n in ActiveNodes(quads, Ontology) && Applies(quads, n, g) ::
      GraphOf(n), ImportEdges(quads);
    WithImportsIsClosed(seed, edges);
    if |w| == 1 {
      StartsOnTriples(quads, g, w[0]);
    } else {
      ChainsArrive(quads, g, w[..|w| - 1]);
      EdgesOnTriples(quads, w[|w| - 2], w[|w| - 1]);
      assert ImportsGraph(quads, w[|w| - 2], w[|w| - 1]);
      assert w[|w| - 1] in Imported(edges, w[|w| - 2]);
    }
  }

  lemma ArrivalsHaveChains(quads: set<Quad>, g: Id)
    ensures forall h | h in ApplicableGraphs(quads, g) :: IsImportedFor(quads, g, h)
  {
    hide ImportsGraph, StartsFor, ImportEdges, Applies, ActiveNodes, IsImportedFor;
    var seed, edges := set n | n in ActiveNodes(quads, Ontology) && Applies(quads, n, g) ::
      GraphOf(n), ImportEdges(quads);
    ImportFrameHolds(seed, edges);
    var good := set h | h in ImportFrame(seed, edges) && IsImportedFor(quads, g, h);
    forall h | h in seed
      ensures h in good
    {
      StartsOnTriples(quads, g, h);
      StartIsImported(quads, g, h);
    }
    forall h | h in good
      ensures Imported(edges, h) <= good
    {
      forall k | k in Imported(edges, h)
        ensures k in good
      {
        EdgesOnTriples(quads, h, k);
        ChainExtends(quads, g, h, k);
      }
    }
    Fixpoint.LeastIsLeast(seed, ImportStep(edges), ImportFrame(seed, edges), good);
  }

  lemma StartIsImported(quads: set<Quad>, g: Id, h: Id)
    requires StartsFor(quads, g, h)
    ensures IsImportedFor(quads, g, h)
  {
    hide StartsFor;
    var w := [h];
    assert IsImportChain(quads, w) && StartsFor(quads, g, w[0]) && w[|w| - 1] == h;
  }

  /** The recursion over import edges finds exactly the graphs that chains of imports lead to. */
  lemma ApplicableOnTriples(quads: set<Quad>, g: Id, h: Id)
    ensures h in ApplicableGraphs(quads, g) <==> IsImportedFor(quads, g, h)
  {
    hide ApplicableGraphs, ImportsGraph, StartsFor;
    ArrivalsHaveChains(quads, g);
    if IsImportedFor(quads, g, h) {
      var w :| IsImportChain(quads, w) && StartsFor(quads, g, w[0]) && w[|w| - 1] == h;
      ChainsArrive(quads, g, w);
    }
  }

  // ------------------------------------------------------------------ axioms and other triples

  /** The axioms in use are those among the governing triples. */
  lemma AxiomsAmongGoverning(quads: set<Quad>, g: Id)
    ensures ApplicableAxioms(quads, g) == set t | t in GoverningTriples(quads, g) && IsAxiom(t.p, t.o)
  {
    hide ApplicableGraphs, IsImportedFor, RoleNodes;
    NoOntologyOnTriples(quads);
    forall h
      ensures h in ApplicableGraphs(quads, g) <==> IsImportedFor(quads, g, h)
    {
      ApplicableOnTriples(quads, g, h);
    }
    assert SYSTEM_GRAPHS == {SCHEMA_GRAPH, VOCABULARY_GRAPH};
    forall t
      ensures t in ApplicableAxioms(quads, g) <==> t in GoverningTriples(quads, g) && IsAxiom(t.p, t.o)
    {
      if t in ApplicableAxioms(quads, g) {
        var q :| q in quads && IsAxiom(q.p, q.o) && t == Triple(q.s, q.p, q.o) && Governs(quads, q.g, g);
      }
      if t in GoverningTriples(quads, g) && IsAxiom(t.p, t.o) {
        var q :| q in quads && Governs(quads, q.g, g) && t == Triple(q.s, q.p, q.o);
      }
    }
  }

  /** Whatever reads axioms reads no other triple. */
  lemma ReadersAlike(triples: set<Triple>, axioms: set<Triple>, owl: bool)
    requires axioms == set t | t in triples && IsAxiom(t.p, t.o)
    ensures ClassArcs(triples) == ClassArcs(axioms) && PropertyArcs(triples) == PropertyArcs(axioms)
    ensures OwlArcs(triples) == OwlArcs(axioms)
    ensures forall p, constraint, k | constraint in {DOMAIN, RANGE} ::
      Gives(triples, p, constraint, k) <==> Gives(axioms, p, constraint, k)
    ensures forall t :: Conclude(triples, owl, t) == Conclude(axioms, owl, t)
  {
    forall predicates, swap, inv | predicates
      <= {SUB_CLASS_OF, SUB_PROPERTY_OF, EQUIVALENT_CLASS, EQUIVALENT_PROPERTY, INVERSE_OF}
      ensures ArcsFrom(triples, predicates, swap, inv) == ArcsFrom(axioms, predicates, swap, inv)
    {
    }
    assert SymmetricArcs(triples) == SymmetricArcs(axioms);
    forall t
      ensures Conclude(triples, owl, t) == Conclude(axioms, owl, t)
    {
      RulesAlike(triples, axioms, t);
    }
    hide Reaches, ClassArcs;
    assert forall p, constraint, k | constraint in {DOMAIN, RANGE} ::
      Gives(triples, p, constraint, k) <==> Gives(axioms, p, constraint, k);
  }

  lemma RulesAlike(triples: set<Triple>, axioms: set<Triple>, t: Triple)
    requires axioms == set t | t in triples && IsAxiom(t.p, t.o)
    ensures PropertyRule(triples, t) == PropertyRule(axioms, t) && TypingRule(triples, t) == TypingRule(axioms, t)
    ensures ClassRule(triples, t) == ClassRule(axioms, t) && InverseRule(triples, t) == InverseRule(axioms, t)
  {
    forall x
      ensures x in axioms <==> x in triples && IsAxiom(x.p, x.o)
    {
    }
    PropertyRulesAlike(triples, axioms, t);
    ClassRulesAlike(triples, axioms, t);
  }

  lemma PropertyRulesAlike(triples: set<Triple>, axioms: set<Triple>, t: Triple)
    requires forall x :: x in axioms <==> x in triples && IsAxiom(x.p, x.o)
    ensures PropertyRule(triples, t) == PropertyRule(axioms, t) && TypingRule(triples, t) == TypingRule(axioms, t)
  {
  }

  lemma ClassRulesAlike(triples: set<Triple>, axioms: set<Triple>, t: Triple)
    requires forall x :: x in axioms <==> x in triples && IsAxiom(x.p, x.o)
    ensures ClassRule(triples, t) == ClassRule(axioms, t) && InverseRule(triples, t) == InverseRule(axioms, t)
  {
  }

  lemma EntailsAlike(triples: set<Triple>, axioms: set<Triple>, kind: Kind, sub: Id, sup: Id)
    requires axioms == set t | t in triples && IsAxiom(t.p, t.o)
    ensures Entails(triples, kind, sub, sup) <==> Entails(axioms, kind, sub, sup)
  {
    hide ClassArcs, PropertyArcs, OwlArcs, Gives, Linked, Reaches;
    ReadersAlike(triples, axioms, true);
  }

  lemma ChainedAlike(triples: set<Triple>, axioms: set<Triple>, owl: bool, base: set<Triple>)
    requires axioms == set t | t in triples && IsAxiom(t.p, t.o)
    ensures Chained(triples, owl, base) == Chained(axioms, owl, base)
  {
    hide Conclude;
    ReadersAlike(triples, axioms, owl);
    ChainedIsClosed(triples, owl, base);
    ChainedIsClosed(axioms, owl, base);
    UniverseHolds(triples, owl, base);
    UniverseHolds(axioms, owl, base);
    Fixpoint.LeastIsLeast(base, Chaining.Conclusions(triples, owl), Universe(triples, base),
      Chained(axioms, owl, base));
    Fixpoint.LeastIsLeast(base, Chaining.Conclusions(axioms, owl), Universe(axioms, base), Chained(triples, owl, base));
  }

  lemma StayPutAlike(triples: set<Triple>, axioms: set<Triple>, owl: bool)
    requires axioms == set t | t in triples && IsAxiom(t.p, t.o)
    ensures TypesStayPut(triples, owl) <==> TypesStayPut(axioms, owl)
  {
    hide Linked, ClassArcs, PropertyArcs, OwlArcs, Gives;
    ReadersAlike(triples, axioms, owl);
    assert forall p, q, inv :: Leads(triples, owl, p, q, inv) <==> Leads(axioms, owl, p, q, inv);
    hide Leads;
    assert forall p, k, subject :: TypesEnd(triples, owl, p, k, subject) <==> TypesEnd(axioms, owl, p, k, subject);
    hide TypesEnd;
    forall c, k
      ensures Entails(triples, Class, c, k) <==> Entails(axioms, Class, c, k)
    {
      EntailsAlike(triples, axioms, Class, c, k);
    }
    hide Entails;
    assert forall k :: Fed(triples, owl, k) <==> Fed(axioms, owl, k);
    hide Fed;
  }

  /** Scope selection against triples: the rows picked for a graph are what the triples of the
      graphs that govern it entail. */
  lemma SelectionFollowsImports(quads: set<Quad>, g: Id, kind: Kind, sub: Id, sup: Id)
    ensures TboxRow(kind, ScopeOf(LoadedScopes(Recomputed(quads)), g), sub, sup) in Recomputed(quads)
       <==> Entails(GoverningTriples(quads, g), kind, sub, sup)
  {
    hide Recomputed, Entails, ApplicableAxioms, GoverningTriples;
    SelectionIsExact(quads, g, kind, sub, sup);
    AxiomsAmongGoverning(quads, g);
    EntailsAlike(GoverningTriples(quads, g), ApplicableAxioms(quads, g), kind, sub, sup);
  }

  /** And the axioms under a graph's own scope are the axioms of the graphs that govern it. */
  lemma ScopeFollowsImports(quads: set<Quad>, g: Id)
    ensures AxiomsIn(OntologyAxioms(quads), OwnScope(quads, g)) == set t | t in GoverningTriples(quads, g)
      && IsAxiom(t.p, t.o)
  {
    hide ApplicableAxioms, GoverningTriples, OntologyAxioms;
    ScopeHoldsApplicableAxioms(quads, g);
    AxiomsAmongGoverning(quads, g);
  }
}
