/** Query rewriting: the derived table of entailed triples that stands for a triple pattern, and
    the pushing of a pattern's constants into its arms (reason.rs). */
module Entailments {
  import opened Ids
  import opened Walks
  import opened Closure
  import opened Scopes
  import Fixpoint

  datatype Reasoning = NoReasoning | RdfsReasoning | OwlQl

  /** `Keep` leaves each quad in its graph; `Merge` is the RDF merge of some or all graphs, as
      the default graph. */
  datatype GraphFilter = Keep | Merge(graphs: Option<set<Id>>)

  /** What a rewritten pattern reads. */
  datatype Entailment = Entailment(
    base: set<Quad>,
    tbox: set<TboxRow>,
    reasoning: Reasoning,
    transitive: set<Id>,
    scopes: set<Id>,
    filter: GraphFilter)
  {
    function Out(g: Id): Id {
      if filter.Keep? then g else DefaultGraph
    }

    predicate Reads(g: Id) {
      filter.Merge? && filter.graphs.Some? ==> g in filter.graphs.value
    }

    function SameKind(): Kind {
      if reasoning.OwlQl? then OwlSame else Property
    }

    function SubjectKind(): Kind {
      if reasoning.OwlQl? then OwlSubjectType else SubjectType
    }

    function ObjectKind(): Kind {
      if reasoning.OwlQl? then OwlObjectType else ObjectType
    }

    /** The closure row is one this quad's graph may use. */
    predicate Uses(x: Quad, r: TboxRow, kind: Kind) {
      x in base && Reads(x.g) && r in tbox && r.kind == kind && r.scope == ScopeOf(scopes, x.g)
    }
  }

  /** A pattern position: unbound, or equal to a constant. */
  predicate Fits(constant: Option<Id>, x: Id) {
    constant.None? || constant.value == x
  }

  function Restrict(quads: set<Quad>, s: Option<Id>, p: Option<Id>, o: Option<Id>): set<Quad> {
    set q | q in quads && Fits(s, q.s) && Fits(p, q.p) && Fits(o, q.o)
  }

  // ------------------------------------------------------------------ the arms

  function AssertedArm(c: Entailment, s: Option<Id>, p: Option<Id>, o: Option<Id>): set<Quad> {
    set x | x in c.base && c.Reads(x.g) && Fits(p, x.p) && Fits(s, x.s) && Fits(o, x.o) ::
      Quad(x.s, x.p, x.o, c.Out(x.g))
  }

  function SameArm(c: Entailment, s: Option<Id>, p: Option<Id>, o: Option<Id>): set<Quad> {
    set x, r | x in c.base && r in c.tbox && c.Uses(x, r, c.SameKind()) && x.p == r.sub
               && Fits(p, r.sup) && Fits(s, x.s) && Fits(o, x.o)
      :: Quad(x.s, r.sup, x.o, c.Out(x.g))
  }

  function InverseArm(c: Entailment, s: Option<Id>, p: Option<Id>, o: Option<Id>): set<Quad> {
    if !c.reasoning.OwlQl? then {} else
    set x, r | x in c.base && r in c.tbox && c.Uses(x, r, OwlInverse) && x.p == r.sub && NonLiteral(x.o)
               && Fits(p, r.sup) && Fits(s, x.o) && Fits(o, x.s)
      :: Quad(x.o, r.sup, x.s, c.Out(x.g))
  }

  /** The closure itself answers subclass and sub-property patterns, in the default graph. */
  function SchemaArm(c: Entailment, kind: Kind, property: Id, s: Option<Id>, o: Option<Id>): set<Quad> {
    set r | r in c.tbox && r.kind == kind && Fits(s, r.sub) && Fits(o, r.sup) ::
      Quad(r.sub, property, r.sup, DefaultGraph)
  }

  function SuperclassArm(c: Entailment, s: Option<Id>, o: Option<Id>): set<Quad> {
    set x, r | x in c.base && r in c.tbox && c.Uses(x, r, Class) && x.p == TYPE && r.sub == x.o && Fits(s, x.s)
      && Fits(o, r.sup)
      :: Quad(x.s, TYPE, r.sup, c.Out(x.g))
  }

  function SubjectArm(c: Entailment, s: Option<Id>, o: Option<Id>): set<Quad> {
    set x, r | x in c.base && r in c.tbox && c.Uses(x, r, c.SubjectKind()) && x.p == r.sub && Fits(s, x.s)
      && Fits(o, r.sup)
      :: Quad(x.s, TYPE, r.sup, c.Out(x.g))
  }

  function ObjectArm(c: Entailment, s: Option<Id>, o: Option<Id>): set<Quad> {
    set x, r | x in c.base && r in c.tbox && c.Uses(x, r, c.ObjectKind()) && x.p == r.sub && NonLiteral(x.o)
               && Fits(s, x.o) && Fits(o, r.sup)
      :: Quad(x.o, TYPE, r.sup, c.Out(x.g))
  }

  /** `type_arms` without the asserted types. */
  function TypeArms(c: Entailment, s: Option<Id>, o: Option<Id>): set<Quad> {
    SuperclassArm(c, s, o) + SubjectArm(c, s, o) + ObjectArm(c, s, o)
  }

  /** What the base says of `pid` through sub-property and inverse rows. */
  function OrdinaryArms(c: Entailment, pid: Id, s: Option<Id>, o: Option<Id>): set<Quad> {
    AssertedArm(c, s, Some(pid), o) + SameArm(c, s, Some(pid), o) + InverseArm(c, s, Some(pid), o)
  }

  /** What the closure itself says of `pid`. */
  function SchemaArms(c: Entailment, pid: Id, s: Option<Id>, o: Option<Id>): set<Quad> {
    if pid == SUB_CLASS_OF then SchemaArm(c, Class, pid, s, o)
    else if pid == SUB_PROPERTY_OF then SchemaArm(c, Property, pid, s, o)
    else {}
  }

  /** `prop_arms`; the walk of a transitive property comes on top. */
  function PropertyArms(c: Entailment, pid: Id, s: Option<Id>, o: Option<Id>): set<Quad> {
    OrdinaryArms(c, pid, s, o) + SchemaArms(c, pid, s, o)
  }

  // ------------------------------------------------------------------ transitive properties

  /** Is `pid` transitive in the scope of graph `g`? */
  predicate Declared(c: Entailment, pid: Id, g: Id) {
    exists r | r in c.tbox :: r.kind == Transitive && r.sub == pid && r.scope == ScopeOf(c.scopes, g)
  }

  /** `u`: the triples the closure of `pid` is taken over. */
  function Links(c: Entailment, pid: Id): set<Edge> {
    set z | z in PropertyArms(c, pid, None, None) && (c.scopes == {} || Declared(c, pid, z.g)) ::
      Edge(z.g, z.s, z.o, false)
  }

  datatype Node = Node(id: Id, g: Id)

  function Onward(edges: set<Edge>, n: Node): set<Node> {
    set e | e in edges && e.scope == n.g && e.a == n.id :: Node(e.b, e.scope)
  }

  function Backward(edges: set<Edge>, n: Node): set<Node> {
    set e | e in edges && e.scope == n.g && e.b == n.id :: Node(e.a, e.scope)
  }

  function OnwardStep(edges: set<Edge>): Node -> set<Node> {
    (n: Node) => Onward(edges, n)
  }

  function BackwardStep(edges: set<Edge>): Node -> set<Node> {
    (n: Node) => Backward(edges, n)
  }

  function Ends(edges: set<Edge>): set<Node> {
    (set e | e in edges :: Node(e.a, e.scope)) + (set e | e in edges :: Node(e.b, e.scope))
  }

  function After(edges: set<Edge>, s: Id): set<Node> {
    set e | e in edges && e.a == s :: Node(e.b, e.scope)
  }

  function Before(edges: set<Edge>, o: Id): set<Node> {
    set e | e in edges && e.b == o :: Node(e.a, e.scope)
  }

  lemma EndsHold(edges: set<Edge>, s: Id)
    ensures Fixpoint.Bounded(After(edges, s), OnwardStep(edges), Ends(edges))
    ensures Fixpoint.Bounded(Before(edges, s), BackwardStep(edges), Ends(edges))
  {
  }

  /** The walk from a constant subject. */
  function ReachableFrom(edges: set<Edge>, s: Id): set<Node> {
    EndsHold(edges, s);
    Fixpoint.Least(After(edges, s), OnwardStep(edges), Ends(edges))
  }

  /** The walk back from a constant object. */
  function ReachableTo(edges: set<Edge>, o: Id): set<Node> {
    EndsHold(edges, o);
    Fixpoint.Least(Before(edges, o), BackwardStep(edges), Ends(edges))
  }

  /** The recursive part: from a bound subject forwards, else from a bound object backwards, else
      the whole closure. */
  function Recursion(edges: set<Edge>, pid: Id, s: Option<Id>, o: Option<Id>): set<Quad> {
    match (s, o)
    case (Some(s), _) => set n | n in ReachableFrom(edges, s) && Fits(o, n.id) :: Quad(s, pid, n.id, n.g)
    case (None, Some(o)) => set n | n in ReachableTo(edges, o) :: Quad(n.id, pid, o, n.g)
    case (None, None) => set e | e in Compose(edges) :: Quad(e.a, pid, e.b, e.scope)
  }

  /** `transitive`: the recursive closure where the property is declared, and its ordinary arms
      in the graphs whose scope does not declare it. */
  function TransitiveArms(c: Entailment, pid: Id, s: Option<Id>, o: Option<Id>): set<Quad> {
    Recursion(Links(c, pid), pid, s, o)
    + if c.scopes == {} then {} else set z | z in PropertyArms(c, pid, s, o) && !Declared(c, pid, z.g)
  }

  function AllTransitiveArms(c: Entailment, s: Option<Id>, o: Option<Id>): set<Quad> {
    if !c.reasoning.OwlQl? then {} else set pid, z | pid in c.transitive && z in TransitiveArms(c, pid, s, o) :: z
  }

  // ------------------------------------------------------------------ the derived table

  function UnboundSource(c: Entailment, s: Option<Id>, o: Option<Id>): set<Quad> {
    AssertedArm(c, s, None, o) + SameArm(c, s, None, o) + InverseArm(c, s, None, o)
    + SchemaArm(c, Class, SUB_CLASS_OF, s, o) + SchemaArm(c, Property, SUB_PROPERTY_OF, s, o)
    + TypeArms(c, s, o) + AllTransitiveArms(c, s, o)
  }

  /** `source`: the rows the rewritten pattern ranges over. */
  function Source(c: Entailment, s: Option<Id>, p: Option<Id>, o: Option<Id>): set<Quad> {
    if c.reasoning.NoReasoning? then AssertedArm(c, s, p, o)
    else match p
      case None => UnboundSource(c, s, o)
      case Some(pid) =>
        if pid == TYPE then AssertedArm(c, s, p, o) + TypeArms(c, s, o)
        else if c.reasoning.OwlQl? && pid in c.transitive then TransitiveArms(c, pid, s, o)
        else PropertyArms(c, pid, s, o)
  }
}
