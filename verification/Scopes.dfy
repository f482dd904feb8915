/** Scope selection: a reasoned pattern picks the closure rows of one scope for each graph, and
    those rows are the closure of exactly the ontologies that apply to the graph. Selection is
    spread over three places: the scopes written into `tbox_closure` (registry.rs), the list of
    scopes loaded from it (stats.rs) and the choice made per graph (reason.rs). A scope whose
    closure is empty leaves no row, so it is missing from the loaded list; the choice then falls
    back to the all-graphs scope. */
module Scopes {
  import opened Ids
  import opened Registry
  import opened Walks
  import opened Closure
  import Fixpoint

  /** `scopes_statement`: the specific scopes that have rows. */
  function LoadedScopes(tbox: set<TboxRow>): set<Id> {
    set r | r in tbox && r.scope != ALL_GRAPHS :: r.scope
  }

  /** `scope_of`: the scope used for the quads of graph `g`. */
  function ScopeOf(scopes: set<Id>, g: Id): Id {
    if g in scopes then g else ALL_GRAPHS
  }

  // ------------------------------------------------------------------ the reference reading

  /** Does the ontology registered at `node` apply to graph `g` of its own account? */
  predicate Applies(quads: set<Quad>, node: Id, g: Id) {
    && node in ActiveNodes(quads, Ontology)
    && (|| node in ToAll(quads)
        || (forall t | t in Targets(quads) :: t.0 != node)
        || (node, g) in Targets(quads))
  }

  function Imported(edges: set<(Id, Id)>, g: Id): set<Id> {
    set e | e in edges && e.0 == g :: e.1
  }

  function ImportStep(edges: set<(Id, Id)>): Id -> set<Id> {
    (g: Id) => Imported(edges, g)
  }

  function ImportFrame(seed: set<Id>, edges: set<(Id, Id)>): set<Id> {
    seed + set e | e in edges :: e.1
  }

  lemma ImportFrameHolds(seed: set<Id>, edges: set<(Id, Id)>)
    ensures Fixpoint.Bounded(seed, ImportStep(edges), ImportFrame(seed, edges))
  {
  }

  /** A set of graphs and everything they import, directly or not. */
  function WithImports(seed: set<Id>, edges: set<(Id, Id)>): set<Id> {
    ImportFrameHolds(seed, edges);
    Fixpoint.Least(seed, ImportStep(edges), ImportFrame(seed, edges))
  }

  /** Where the axioms for `g` come from: active ontologies targeting it and what they import. */
  function ApplicableGraphs(quads: set<Quad>, g: Id): set<Id> {
    WithImports(set n | n in ActiveNodes(quads, Ontology) && Applies(quads, n, g) :: GraphOf(n), ImportEdges(quads))
  }

  /** The axioms that hold in graph `g`. As long as the registry has no ontology all data graphs
      supply them, and from then on only the applicable ones. */
  function ApplicableAxioms(quads: set<Quad>, g: Id): set<Triple> {
    if RoleNodes(quads, Ontology) == {} then
      set q | q in quads && IsAxiom(q.p, q.o) && q.g !in SYSTEM_GRAPHS :: Triple(q.s, q.p, q.o)
    else
      set q | q in quads && IsAxiom(q.p, q.o) && q.g in ApplicableGraphs(quads, g) :: Triple(q.s, q.p, q.o)
  }

  // ------------------------------------------------------------------ the scope map

  function DirectIn(quads: set<Quad>, scope: Id): set<Id> {
    set m | m in Direct(quads) && m.scope == scope :: m.g
  }

  lemma ScopeMapIsClosed(quads: set<Quad>)
    ensures Direct(quads) <= ScopeMap(quads)
    ensures forall m | m in ScopeMap(quads) :: Follow(ImportEdges(quads), m) <= ScopeMap(quads)
  {
    var direct, edges := Direct(quads), ImportEdges(quads);
    MappingFrameHolds(direct, edges);
    Fixpoint.LeastIsClosed(direct, FollowImports(edges), MappingFrame(direct, edges));
  }

  lemma WithImportsIsClosed(seed: set<Id>, edges: set<(Id, Id)>)
    ensures seed <= WithImports(seed, edges)
    ensures forall g | g in WithImports(seed, edges) :: Imported(edges, g) <= WithImports(seed, edges)
  {
    ImportFrameHolds(seed, edges);
    Fixpoint.LeastIsClosed(seed, ImportStep(edges), ImportFrame(seed, edges));
  }

  /** One recursion over (graph, scope) pairs follows imports for every scope separately. */
  lemma ScopeMapByScope(quads: set<Quad>, h: Id, scope: Id)
    ensures Mapping(h, scope) in ScopeMap(quads) <==> h in WithImports(DirectIn(quads, scope), ImportEdges(quads))
  {
    MappedIsImported(quads);
    ImportedIsMapped(quads, scope);
  }

  lemma MappedIsImported(quads: set<Quad>)
    ensures forall m | m in ScopeMap(quads) :: m.g in WithImports(DirectIn(quads, m.scope), ImportEdges(quads))
  {
    hide Direct, ImportEdges;
    var direct, edges := Direct(quads), ImportEdges(quads);
    var good := set m | m in ScopeMap(quads) && m.g in WithImports(DirectIn(quads, m.scope), edges);
    ScopeMapIsClosed(quads);
    forall m | m in direct
      ensures m in good
    {
      WithImportsIsClosed(DirectIn(quads, m.scope), edges);
    }
    forall m | m in good
      ensures Follow(edges, m) <= good
    {
      WithImportsIsClosed(DirectIn(quads, m.scope), edges);
      forall n | n in Follow(edges, m)
        ensures n in good
      {
        assert n.g in Imported(edges, m.g);
      }
    }
    MappingFrameHolds(direct, edges);
    Fixpoint.LeastIsLeast(direct, FollowImports(edges), MappingFrame(direct, edges), good);
  }

  lemma ImportedIsMapped(quads: set<Quad>, scope: Id)
    ensures forall h | h in WithImports(DirectIn(quads, scope), ImportEdges(quads)) ::
      Mapping(h, scope) in ScopeMap(quads)
  {
    hide Direct, ImportEdges;
    var seed, edges := DirectIn(quads, scope), ImportEdges(quads);
    var good := set h | h in WithImports(seed, edges) && Mapping(h, scope) in ScopeMap(quads);
    ScopeMapIsClosed(quads);
    WithImportsIsClosed(seed, edges);
    forall h | h in good
      ensures Imported(edges, h) <= good
    {
      forall k | k in Imported(edges, h)
        ensures k in good
      {
        assert Mapping(k, scope) in Follow(edges, Mapping(h, scope));
      }
    }
    ImportFrameHolds(seed, edges);
    Fixpoint.LeastIsLeast(seed, ImportStep(edges), ImportFrame(seed, edges), good);
  }

  /** `t` is a specific target of some active ontology. */
  predicate IsTarget(quads: set<Quad>, t: Id) {
    exists s | s in Specific(quads) :: s.1 == t
  }

  lemma TargetsAreNotAll(quads: set<Quad>)
    ensures !IsTarget(quads, ALL_GRAPHS)
  {
  }

  /** Directly mapped to a target: the ontologies that apply to it. */
  lemma DirectInTarget(quads: set<Quad>, t: Id)
    requires IsTarget(quads, t)
    ensures DirectIn(quads, t) == set n | n in ActiveNodes(quads, Ontology) && Applies(quads, n, t) :: GraphOf(n)
  {
    TargetsAreNotAll(quads);
    var applying := set n | n in ActiveNodes(quads, Ontology) && Applies(quads, n, t) :: GraphOf(n);
    forall h | h in applying
      ensures h in DirectIn(quads, t)
    {
      var n :| n in ActiveNodes(quads, Ontology) && Applies(quads, n, t) && h == GraphOf(n);
      if n in Global(quads) {
        var s :| s in Specific(quads) && s.1 == t;
        assert Mapping(GraphOf(n), s.1) in Direct(quads);
      } else {
        assert (n, t) in Specific(quads);
        assert Mapping(GraphOf(n), t) in Direct(quads);
      }
    }
  }

  /** Directly mapped to all graphs: what applies to a graph no ontology targets. */
  lemma DirectInAll(quads: set<Quad>, g: Id)
    requires !IsTarget(quads, g)
    ensures DirectIn(quads, ALL_GRAPHS) == set n | n in ActiveNodes(quads, Ontology) && Applies(quads, n, g) ::
      GraphOf(n)
  {
    TargetsAreNotAll(quads);
    var applying := set n | n in ActiveNodes(quads, Ontology) && Applies(quads, n, g) :: GraphOf(n);
    forall h | h in applying
      ensures h in DirectIn(quads, ALL_GRAPHS)
    {
      var n :| n in ActiveNodes(quads, Ontology) && Applies(quads, n, g) && h == GraphOf(n);
      assert (n, g) in Targets(quads) ==> (n, g) in Specific(quads);
      assert n in Global(quads);
      assert Mapping(GraphOf(n), ALL_GRAPHS) in Direct(quads);
    }
  }

  // ------------------------------------------------------------------ scopes hold what applies

  /** The scope whose rows a graph should see, were no scope ever missing from the list. */
  function OwnScope(quads: set<Quad>, g: Id): Id {
    if IsTarget(quads, g) then g else ALL_GRAPHS
  }

  /** The axioms of a graph's own scope are the axioms that apply to it. */
  lemma ScopeHoldsApplicableAxioms(quads: set<Quad>, g: Id)
    ensures AxiomsIn(OntologyAxioms(quads), OwnScope(quads, g)) == ApplicableAxioms(quads, g)
  {
    hide ImportEdges, Direct, Applies, WithImports;
    var k := OwnScope(quads, g);
    if RoleNodes(quads, Ontology) == {} {
      NothingRegistered(quads, g);
    } else {
      var applying := set n | n in ActiveNodes(quads, Ontology) && Applies(quads, n, g) :: GraphOf(n);
      if IsTarget(quads, g) {
        DirectInTarget(quads, g);
      } else {
        DirectInAll(quads, g);
      }
      assert DirectIn(quads, k) == applying;
      forall h
        ensures Mapping(h, k) in ScopeMap(quads) <==> h in ApplicableGraphs(quads, g)
      {
        ScopeMapByScope(quads, h, k);
      }
      MappedAxioms(quads, g, k);
    }
  }

  lemma NothingRegistered(quads: set<Quad>, g: Id)
    requires RoleNodes(quads, Ontology) == {}
    ensures ScopeMap(quads) == {} && OwnScope(quads, g) == ALL_GRAPHS
    ensures AxiomsIn(OntologyAxioms(quads), ALL_GRAPHS) == ApplicableAxioms(quads, g)
  {
    assert ActiveNodes(quads, Ontology) == {};
    assert Direct(quads) == {};
    MappingFrameHolds({}, ImportEdges(quads));
    Fixpoint.LeastIsLeast({}, FollowImports(ImportEdges(quads)), MappingFrame({}, ImportEdges(quads)), {});
    forall t | t in ApplicableAxioms(quads, g)
      ensures t in AxiomsIn(OntologyAxioms(quads), ALL_GRAPHS)
    {
      assert Axiom(t.s, t.p, t.o, ALL_GRAPHS) in OntologyAxioms(quads);
    }
  }

  lemma MappedAxioms(quads: set<Quad>, g: Id, k: Id)
    requires RoleNodes(quads, Ontology) != {}
    requires forall h :: Mapping(h, k) in ScopeMap(quads) <==> h in ApplicableGraphs(quads, g)
    ensures AxiomsIn(OntologyAxioms(quads), k) == ApplicableAxioms(quads, g)
  {
    hide ScopeMap, ApplicableGraphs, RoleNodes;
    forall t | t in ApplicableAxioms(quads, g)
      ensures t in AxiomsIn(OntologyAxioms(quads), k)
    {
      var q :| q in quads && IsAxiom(q.p, q.o) && q.g in ApplicableGraphs(quads, g) && t == Triple(q.s, q.p, q.o);
      var m := Mapping(q.g, k);
      assert m in ScopeMap(quads) && m.g == q.g;
      assert Axiom(q.s, q.p, q.o, m.scope) in OntologyAxioms(quads);
    }
    forall t | t in AxiomsIn(OntologyAxioms(quads), k)
      ensures t in ApplicableAxioms(quads, g)
    {
      var x :| x in OntologyAxioms(quads) && x.scope == k && t == Triple(x.s, x.p, x.o);
      var q, m :| q in quads && m in ScopeMap(quads) && IsAxiom(q.p, q.o) && m.g == q.g
                  && x == Axiom(q.s, q.p, q.o, m.scope);
      assert m == Mapping(q.g, k);
    }
  }

  /** What applies to every graph applies to a targeted graph too: the all-graphs axioms are in
      every specific scope. */
  lemma AllGraphsAxiomsEverywhere(quads: set<Quad>, g: Id)
    ensures AxiomsIn(OntologyAxioms(quads), ALL_GRAPHS) <= ApplicableAxioms(quads, g)
  {
    hide ImportEdges, WithImports, Applies;
    if RoleNodes(quads, Ontology) == {} {
      NothingRegistered(quads, g);
    } else if IsTarget(quads, g) {
      TargetsAreNotAll(quads);
      ScopeHoldsApplicableAxioms(quads, ALL_GRAPHS);
      AppliesMore(quads, g);
      WithImportsMono(set n | n in ActiveNodes(quads, Ontology) && Applies(quads, n, ALL_GRAPHS) :: GraphOf(n),
                      set n | n in ActiveNodes(quads, Ontology) && Applies(quads, n, g) :: GraphOf(n),
                      ImportEdges(quads));
      assert ApplicableGraphs(quads, ALL_GRAPHS) <= ApplicableGraphs(quads, g);
    } else {
      ScopeHoldsApplicableAxioms(quads, g);
    }
  }

  lemma AppliesMore(quads: set<Quad>, g: Id)
    ensures forall n | Applies(quads, n, ALL_GRAPHS) :: Applies(quads, n, g)
  {
    TargetsAreNotAll(quads);
    forall n | Applies(quads, n, ALL_GRAPHS)
      ensures Applies(quads, n, g)
    {
      assert (n, ALL_GRAPHS) in Targets(quads) ==> (n, ALL_GRAPHS) in Specific(quads);
    }
  }

  lemma WithImportsMono(small: set<Id>, big: set<Id>, edges: set<(Id, Id)>)
    requires small <= big
    ensures WithImports(small, edges) <= WithImports(big, edges)
  {
    WithImportsIsClosed(big, edges);
    ImportFrameHolds(small, edges);
    Fixpoint.LeastIsLeast(small, ImportStep(edges), ImportFrame(small, edges), WithImports(big, edges));
  }

  // ------------------------------------------------------------------ more axioms entail more

  lemma ArcsMono(small: set<Triple>, big: set<Triple>)
    requires small <= big
    ensures ClassArcs(small) <= ClassArcs(big)
    ensures PropertyArcs(small) <= PropertyArcs(big)
    ensures OwlArcs(small) <= OwlArcs(big)
  {
    forall predicates, swap, inv
      ensures ArcsFrom(small, predicates, swap, inv) <= ArcsFrom(big, predicates, swap, inv)
    {
    }
    assert SymmetricArcs(small) <= SymmetricArcs(big);
  }

  lemma ReachesMono(small: set<Arc>, big: set<Arc>, a: Id, b: Id)
    requires small <= big && Reaches(small, a, b)
    ensures Reaches(big, a, b)
  {
    if a != b {
      LinkedMono(small, big, a, b, false);
    }
  }

  lemma GivesMono(small: set<Triple>, big: set<Triple>, property: Id, constraint: Id, class_: Id)
    requires small <= big && Gives(small, property, constraint, class_)
    ensures Gives(big, property, constraint, class_)
  {
    hide ClassArcs, Reaches;
    ArcsMono(small, big);
    var x :| x in small && x.p == constraint && x.s == property && Reaches(ClassArcs(small), x.o, class_);
    ReachesMono(ClassArcs(small), ClassArcs(big), x.o, class_);
  }

  lemma EntailsMono(small: set<Triple>, big: set<Triple>, kind: Kind, sub: Id, sup: Id)
    requires small <= big && Entails(small, kind, sub, sup)
    ensures Entails(big, kind, sub, sup)
  {
    hide ClassArcs, PropertyArcs, OwlArcs, Gives, Reaches, Linked;
    ArcsMono(small, big);
    match kind {
      case Class => LinkedMono(ClassArcs(small), ClassArcs(big), sub, sup, false);
      case Property => LinkedMono(PropertyArcs(small), PropertyArcs(big), sub, sup, false);
      case OwlSame => LinkedMono(OwlArcs(small), OwlArcs(big), sub, sup, false);
      case OwlInverse => LinkedMono(OwlArcs(small), OwlArcs(big), sub, sup, true);
      case Transitive =>
      case SubjectType => ThroughMono(small, big, PropertyArcs(small), PropertyArcs(big), sub, DOMAIN, sup);
      case ObjectType => ThroughMono(small, big, PropertyArcs(small), PropertyArcs(big), sub, RANGE, sup);
      case OwlSubjectType =>
        if exists q :: Reaches(OwlArcs(small), sub, q) && Gives(small, q, DOMAIN, sup) {
          ThroughMono(small, big, OwlArcs(small), OwlArcs(big), sub, DOMAIN, sup);
        } else {
          ThroughInverseMono(small, big, OwlArcs(small), OwlArcs(big), sub, RANGE, sup);
        }
      case OwlObjectType =>
        if exists q :: Reaches(OwlArcs(small), sub, q) && Gives(small, q, RANGE, sup) {
          ThroughMono(small, big, OwlArcs(small), OwlArcs(big), sub, RANGE, sup);
        } else {
          ThroughInverseMono(small, big, OwlArcs(small), OwlArcs(big), sub, DOMAIN, sup);
        }
    }
  }

  lemma ThroughMono(small: set<Triple>, big: set<Triple>, arcs: set<Arc>, more: set<Arc>, sub: Id, constraint: Id,
      sup: Id)
    requires small <= big && arcs <= more
    requires exists q :: Reaches(arcs, sub, q) && Gives(small, q, constraint, sup)
    ensures exists q :: Reaches(more, sub, q) && Gives(big, q, constraint, sup)
  {
    var q :| Reaches(arcs, sub, q) && Gives(small, q, constraint, sup);
    ReachesMono(arcs, more, sub, q);
    GivesMono(small, big, q, constraint, sup);
  }

  lemma ThroughInverseMono(small: set<Triple>, big: set<Triple>, arcs: set<Arc>, more: set<Arc>, sub: Id,
      constraint: Id, sup: Id)
    requires small <= big && arcs <= more
    requires exists q :: Linked(arcs, sub, q, true) && Gives(small, q, constraint, sup)
    ensures exists q :: Linked(more, sub, q, true) && Gives(big, q, constraint, sup)
  {
    var q :| Linked(arcs, sub, q, true) && Gives(small, q, constraint, sup);
    LinkedMono(arcs, more, sub, q, true);
    GivesMono(small, big, q, constraint, sup);
  }

  // ------------------------------------------------------------------ the theorem

  /** Scope selection is exact: the rows picked for graph `g` are the closure of the axioms that
      apply to `g`, whether or not its own scope made it into the loaded list. */
  lemma SelectionIsExact(quads: set<Quad>, g: Id, kind: Kind, sub: Id, sup: Id)
    ensures TboxRow(kind, ScopeOf(LoadedScopes(Recomputed(quads)), g), sub, sup) in Recomputed(quads)
       <==> Entails(ApplicableAxioms(quads, g), kind, sub, sup)
  {
    hide Rebuilt, Entails, OntologyAxioms, ApplicableAxioms;
    var axioms, tbox, own := OntologyAxioms(quads), Recomputed(quads), OwnScope(quads, g);
    var picked := ScopeOf(LoadedScopes(tbox), g);
    StepsRebuild(axioms, {});
    ScopeHoldsApplicableAxioms(quads, g);
    RowsAreEntailments(axioms, TboxRow(kind, own, sub, sup));
    if picked != own {
      RowsAreEntailments(axioms, TboxRow(kind, picked, sub, sup));
      if picked == ALL_GRAPHS {
        // The graph's own scope has no rows at all, so the all-graphs scope has none either.
        assert TboxRow(kind, own, sub, sup) in tbox ==> own in LoadedScopes(tbox);
        AllGraphsAxiomsEverywhere(quads, g);
        if Entails(AxiomsIn(axioms, ALL_GRAPHS), kind, sub, sup) {
          EntailsMono(AxiomsIn(axioms, ALL_GRAPHS), ApplicableAxioms(quads, g), kind, sub, sup);
        }
      } else {
        // Only targeted graphs have rows of their own.
        var r :| r in tbox && r.scope != ALL_GRAPHS && r.scope == g;
        RowsAreEntailments(axioms, r);
        UntargetedHasNoAxioms(quads, g);
        NothingFromNothing(r.kind, r.sub, r.sup);
      }
    }
  }

  lemma UntargetedHasNoAxioms(quads: set<Quad>, k: Id)
    requires k != ALL_GRAPHS && !IsTarget(quads, k)
    ensures AxiomsIn(OntologyAxioms(quads), k) == {}
  {
    hide ImportEdges, RoleNodes;
    forall h
      ensures Mapping(h, k) !in ScopeMap(quads)
    {
      assert DirectIn(quads, k) == {};
      ScopeMapByScope(quads, h, k);
      ImportFrameHolds({}, ImportEdges(quads));
      Fixpoint.LeastIsLeast({}, ImportStep(ImportEdges(quads)), ImportFrame({}, ImportEdges(quads)), {});
    }
    hide ScopeMap;
    forall x | x in OntologyAxioms(quads)
      ensures x.scope != k
    {
      assert forall m | m in ScopeMap(quads) :: m == Mapping(m.g, m.scope) && m.scope != k;
    }
  }

  lemma NothingFromNothing(kind: Kind, sub: Id, sup: Id)
    ensures !Entails({}, kind, sub, sup)
  {
    assert OwlArcs({}) == {} && PropertyArcs({}) == {} && ClassArcs({}) == {};
    forall a, b, inv
      ensures !Linked({}, a, b, inv)
    {
      NoWalkWithoutArcs(a, b, inv);
    }
  }
}
