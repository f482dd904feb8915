/** Registrations as triples of the registry graph, and what the SQL fragments make of them
    (registry.rs). */
module Registrations {
  import opened Ids
  import opened Registry

  /** The registry node of a graph: the graph itself, or the stand-in for the default graph. */
  predicate IsNodeOf(node: Id, g: Id) {
    (node == DEFAULT_NODE && g == DefaultGraph) || (node != DEFAULT_NODE && g == node)
  }

  predicate Says(quads: set<Quad>, s: Id, p: Id, o: Id) {
    Quad(s, p, o, SCHEMA_GRAPH) in quads
  }

  /** Registered under this class and not switched off. */
  predicate IsActiveAs(quads: set<Quad>, n: Id, class_: Id) {
    && Says(quads, n, TYPE, class_)
    && !Says(quads, n, ACTIVE, Literal("false", XsdBoolean)) && !Says(quads, n, ACTIVE, Literal("0", XsdBoolean))
  }

  lemma NodesOfGraphs(n: Id, g: Id)
    ensures IsNodeOf(n, g) <==> GraphOf(n) == g
  {
  }

  lemma RolesOnTriples(quads: set<Quad>, role: Role, n: Id)
    ensures n in RoleNodes(quads, role) <==> Says(quads, n, TYPE, RoleClass(role))
  {
    hide RoleClass;
    if n in RoleNodes(quads, role) {
      var q :| q in quads && q.g == SCHEMA_GRAPH && q.p == TYPE && q.o == RoleClass(role) && q.s == n;
      assert q == Quad(n, TYPE, RoleClass(role), SCHEMA_GRAPH);
    }
    if Says(quads, n, TYPE, RoleClass(role)) {
      var q := Quad(n, TYPE, RoleClass(role), SCHEMA_GRAPH);
      assert q in quads && q.s == n;
    }
  }

  lemma ActiveOnTriples(quads: set<Quad>, role: Role, n: Id)
    ensures n in ActiveNodes(quads, role) <==> IsActiveAs(quads, n, RoleClass(role))
  {
    hide RoleClass, RoleNodes;
    RolesOnTriples(quads, role, n);
    if Deactivated(quads, n) {
      var q :| q in quads && q.g == SCHEMA_GRAPH && q.s == n && q.p == ACTIVE && q.o in FALSES;
      assert q == Quad(n, ACTIVE, q.o, SCHEMA_GRAPH);
    }
    forall o | o in FALSES && Says(quads, n, ACTIVE, o)
      ensures Deactivated(quads, n)
    {
      var q := Quad(n, ACTIVE, o, SCHEMA_GRAPH);
      assert q in quads && q.s == n;
    }
  }

  lemma RegisteredOnTriples(quads: set<Quad>, role: Role)
    ensures RoleNodes(quads, role) == {} <==> forall n :: !Says(quads, n, TYPE, RoleClass(role))
  {
    hide RoleClass, RoleNodes, Says;
    forall n
      ensures n in RoleNodes(quads, role) <==> Says(quads, n, TYPE, RoleClass(role))
    {
      RolesOnTriples(quads, role, n);
    }
  }
}
