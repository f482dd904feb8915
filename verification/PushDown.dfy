/** Constant push-down: the derived table for a pattern with constants is the unbound derived
    table filtered by them, recursive walks included, except for `rdf:type` patterns when
    `rdf:type` itself is entailed by a property axiom. */
module PushDown {
  import opened Ids
  import opened Walks
  import opened Closure
  import opened Entailments
  import Fixpoint

  // ------------------------------------------------------------------ walks from an endpoint

  lemma ReachableFromIsClosed(edges: set<Edge>, s: Id)
    ensures After(edges, s) <= ReachableFrom(edges, s)
    ensures forall n | n in ReachableFrom(edges, s) :: Onward(edges, n) <= ReachableFrom(edges, s)
  {
    EndsHold(edges, s);
    Fixpoint.LeastIsClosed(After(edges, s), OnwardStep(edges), Ends(edges));
  }

  lemma ReachableToIsClosed(edges: set<Edge>, o: Id)
    ensures Before(edges, o) <= ReachableTo(edges, o)
    ensures forall n | n in ReachableTo(edges, o) :: Backward(edges, n) <= ReachableTo(edges, o)
  {
    EndsHold(edges, o);
    Fixpoint.LeastIsClosed(Before(edges, o), BackwardStep(edges), Ends(edges));
  }

  predicate Direct(edges: set<Edge>) {
    forall e | e in edges :: !e.inv
  }

  /** Walking forwards from `s` finds the closure's pairs that start at `s`. */
  lemma ForwardWalk(edges: set<Edge>, s: Id, n: Node)
    requires Direct(edges)
    ensures n in ReachableFrom(edges, s) <==> Linked(ArcsOf(edges, n.g), s, n.id, false)
  {
    if n in ReachableFrom(edges, s) {
      ForwardIsLinked(edges, s);
    }
    if Linked(ArcsOf(edges, n.g), s, n.id, false) {
      var w :| IsWalk(ArcsOf(edges, n.g), w, s, n.id);
      LinkedIsForward(edges, s, n, w);
    }
  }

  lemma ForwardIsLinked(edges: set<Edge>, s: Id)
    requires Direct(edges)
    ensures forall n | n in ReachableFrom(edges, s) :: Linked(ArcsOf(edges, n.g), s, n.id, false)
  {
    var good := set n | n in ReachableFrom(edges, s) && Linked(ArcsOf(edges, n.g), s, n.id, false);
    ReachableFromIsClosed(edges, s);
    forall n | n in After(edges, s)
      ensures n in good
    {
      var e :| e in edges && e.a == s && n == Node(e.b, e.scope);
      LinkedArc(ArcsOf(edges, n.g), Arc(e.a, e.b, e.inv));
    }
    forall n, m | n in good && m in Onward(edges, n)
      ensures m in good
    {
      OnwardKeepsLinks(edges, s, n, m);
    }
    EndsHold(edges, s);
    Fixpoint.LeastIsLeast(After(edges, s), OnwardStep(edges), Ends(edges), good);
  }

  lemma OnwardKeepsLinks(edges: set<Edge>, s: Id, n: Node, m: Node)
    requires Direct(edges) && Linked(ArcsOf(edges, n.g), s, n.id, false) && m in Onward(edges, n)
    ensures Linked(ArcsOf(edges, m.g), s, m.id, false)
  {
    var e :| e in edges && e.scope == n.g && e.a == n.id && m == Node(e.b, e.scope);
    LinkedAppend(ArcsOf(edges, n.g), s, n.id, false, Arc(e.a, e.b, e.inv));
  }

  lemma {:induction false} LinkedIsForward(edges: set<Edge>, s: Id, n: Node, w: seq<Arc>)
    requires IsWalk(ArcsOf(edges, n.g), w, s, n.id)
    ensures n in ReachableFrom(edges, s)
    decreases |w|
  {
    ReachableFromIsClosed(edges, s);
    var e, v := LinkedLast(ArcsOf(edges, n.g), s, n.id, w);
    if v == [] {
      assert n in After(edges, s);
    } else {
      var m := Node(e.a, n.g);
      LinkedIsForward(edges, s, m, v);
      assert n in Onward(edges, m);
    }
  }

  /** Walking backwards from `o` finds the closure's pairs that end at `o`. */
  lemma BackwardWalk(edges: set<Edge>, o: Id, n: Node)
    requires Direct(edges)
    ensures n in ReachableTo(edges, o) <==> Linked(ArcsOf(edges, n.g), n.id, o, false)
  {
    if n in ReachableTo(edges, o) {
      BackwardIsLinked(edges, o);
    }
    if Linked(ArcsOf(edges, n.g), n.id, o, false) {
      var w :| IsWalk(ArcsOf(edges, n.g), w, n.id, o);
      LinkedIsBackward(edges, o, n, w);
    }
  }

  lemma BackwardIsLinked(edges: set<Edge>, o: Id)
    requires Direct(edges)
    ensures forall n | n in ReachableTo(edges, o) :: Linked(ArcsOf(edges, n.g), n.id, o, false)
  {
    var good := set n | n in ReachableTo(edges, o) && Linked(ArcsOf(edges, n.g), n.id, o, false);
    ReachableToIsClosed(edges, o);
    forall n | n in Before(edges, o)
      ensures n in good
    {
      var e :| e in edges && e.b == o && n == Node(e.a, e.scope);
      LinkedArc(ArcsOf(edges, n.g), Arc(e.a, e.b, e.inv));
    }
    forall n, m | n in good && m in Backward(edges, n)
      ensures m in good
    {
      BackwardKeepsLinks(edges, o, n, m);
    }
    EndsHold(edges, o);
    Fixpoint.LeastIsLeast(Before(edges, o), BackwardStep(edges), Ends(edges), good);
  }

  lemma BackwardKeepsLinks(edges: set<Edge>, o: Id, n: Node, m: Node)
    requires Direct(edges) && Linked(ArcsOf(edges, n.g), n.id, o, false) && m in Backward(edges, n)
    ensures Linked(ArcsOf(edges, m.g), m.id, o, false)
  {
    var e :| e in edges && e.scope == n.g && e.b == n.id && m == Node(e.a, e.scope);
    LinkedArc(ArcsOf(edges, n.g), Arc(e.a, e.b, e.inv));
    LinkedJoin(ArcsOf(edges, n.g), m.id, n.id, o, false, false);
  }

  lemma {:induction false} LinkedIsBackward(edges: set<Edge>, o: Id, n: Node, w: seq<Arc>)
    requires IsWalk(ArcsOf(edges, n.g), w, n.id, o)
    ensures n in ReachableTo(edges, o)
    decreases |w|
  {
    ReachableToIsClosed(edges, o);
    var m := Node(w[0].b, n.g);
    assert w[0] in ArcsOf(edges, n.g);
    if |w| == 1 {
      assert n in Before(edges, o);
    } else {
      assert IsWalk(ArcsOf(edges, n.g), w[1..], m.id, o);
      LinkedIsBackward(edges, o, m, w[1..]);
      assert n in Backward(edges, m);
    }
  }

  /** The recursion seeded by a constant endpoint is the full closure, filtered. */
  lemma RecursionPushDown(edges: set<Edge>, pid: Id, s: Option<Id>, o: Option<Id>)
    requires Direct(edges)
    ensures Recursion(edges, pid, s, o) == Restrict(Recursion(edges, pid, None, None), s, Some(pid), o)
  {
    forall q
      ensures q in Recursion(edges, pid, s, o) <==> q in Restrict(Recursion(edges, pid, None, None), s, Some(pid), o)
    {
      RecursionRow(edges, pid, None, None, q);
      RecursionRow(edges, pid, s, o, q);
    }
  }

  lemma RecursionRow(edges: set<Edge>, pid: Id, s: Option<Id>, o: Option<Id>, q: Quad)
    requires Direct(edges)
    ensures q in Recursion(edges, pid, s, o)
       <==> q.p == pid && Fits(s, q.s) && Fits(o, q.o) && Linked(ArcsOf(edges, q.g), q.s, q.o, false)
  {
    hide Linked, ReachableFrom, ReachableTo, Compose;
    match (s, o) {
      case (Some(s), _) => ForwardWalk(edges, s, Node(q.o, q.g));
      case (None, Some(o)) => BackwardWalk(edges, o, Node(q.s, q.g));
      case (None, None) =>
        ComposeFindsWalks(edges, q.g, q.s, q.o, false);
        ComposeFindsWalks(edges, q.g, q.s, q.o, true);
        DirectWalksAreEven(ArcsOf(edges, q.g), q.s, q.o);
        if q in Recursion(edges, pid, None, None) {
          var e :| e in Compose(edges) && q == Quad(e.a, pid, e.b, e.scope);
          assert e == Edge(q.g, q.s, q.o, e.inv);
        }
    }
  }

  // ------------------------------------------------------------------ the arms

  /** Every arm filters as its constants say. */
  lemma ArmsPushDown(c: Entailment, s: Option<Id>, p: Option<Id>, o: Option<Id>)
    ensures AssertedArm(c, s, p, o) == Restrict(AssertedArm(c, None, None, None), s, p, o)
    ensures SameArm(c, s, p, o) == Restrict(SameArm(c, None, None, None), s, p, o)
    ensures InverseArm(c, s, p, o) == Restrict(InverseArm(c, None, None, None), s, p, o)
  {
  }

  lemma SchemaPushDown(c: Entailment, kind: Kind, property: Id, s: Option<Id>, p: Option<Id>, o: Option<Id>)
    ensures (if Fits(p, property) then SchemaArm(c, kind, property, s, o) else {})
         == Restrict(SchemaArm(c, kind, property, None, None), s, p, o)
  {
  }

  lemma TypePushDown(c: Entailment, s: Option<Id>, p: Option<Id>, o: Option<Id>)
    ensures (if Fits(p, TYPE) then TypeArms(c, s, o) else {}) == Restrict(TypeArms(c, None, None), s, p, o)
  {
    assert (if Fits(p, TYPE) then SuperclassArm(c, s, o) else {}) == Restrict(SuperclassArm(c, None, None), s, p, o);
    assert (if Fits(p, TYPE) then SubjectArm(c, s, o) else {}) == Restrict(SubjectArm(c, None, None), s, p, o);
    assert (if Fits(p, TYPE) then ObjectArm(c, s, o) else {}) == Restrict(ObjectArm(c, None, None), s, p, o);
  }

  /** Everything entailed without types and transitivity, for every property. */
  function PlainArms(c: Entailment): set<Quad> {
    AssertedArm(c, None, None, None) + SameArm(c, None, None, None) + InverseArm(c, None, None, None)
    + SchemaArm(c, Class, SUB_CLASS_OF, None, None) + SchemaArm(c, Property, SUB_PROPERTY_OF, None, None)
  }

  lemma PropertyPushDown(c: Entailment, pid: Id, s: Option<Id>, o: Option<Id>)
    ensures PropertyArms(c, pid, s, o) == Restrict(PlainArms(c), s, Some(pid), o)
  {
    hide AssertedArm, SameArm, InverseArm, SchemaArm;
    ArmsPushDown(c, s, Some(pid), o);
    SchemaPushDown(c, Class, SUB_CLASS_OF, s, Some(pid), o);
    SchemaPushDown(c, Property, SUB_PROPERTY_OF, s, Some(pid), o);
  }

  lemma TransitivePushDown(c: Entailment, pid: Id, s: Option<Id>, o: Option<Id>)
    ensures TransitiveArms(c, pid, s, o) == Restrict(TransitiveArms(c, pid, None, None), s, Some(pid), o)
  {
    hide PropertyArms, PlainArms, Recursion;
    RecursionPushDown(Links(c, pid), pid, s, o);
    PropertyPushDown(c, pid, s, o);
    PropertyPushDown(c, pid, None, None);
  }

  /** The transitive arms contain the ordinary ones. */
  lemma TransitiveContainsProperty(c: Entailment, pid: Id, s: Option<Id>, o: Option<Id>)
    ensures PropertyArms(c, pid, s, o) <= TransitiveArms(c, pid, s, o)
  {
    hide PropertyArms, PlainArms, Recursion;
    PropertyPushDown(c, pid, s, o);
    PropertyPushDown(c, pid, None, None);
    forall q | q in PropertyArms(c, pid, s, o)
      ensures q in TransitiveArms(c, pid, s, o)
    {
      assert q in PropertyArms(c, pid, None, None);
      if c.scopes == {} || Declared(c, pid, q.g) {
        assert Edge(q.g, q.s, q.o, false) in Links(c, pid);
        LinkedArc(ArcsOf(Links(c, pid), q.g), Arc(q.s, q.o, false));
        RecursionRow(Links(c, pid), pid, s, o, q);
      }
    }
  }

  lemma AllTransitivePushDown(c: Entailment, s: Option<Id>, o: Option<Id>)
    ensures AllTransitiveArms(c, s, o) == Restrict(AllTransitiveArms(c, None, None), s, None, o)
  {
    hide TransitiveArms;
    if c.reasoning.OwlQl? {
      forall q
        ensures q in AllTransitiveArms(c, s, o) <==> q in Restrict(AllTransitiveArms(c, None, None), s, None, o)
      {
        forall pid
          ensures q in TransitiveArms(c, pid, s, o) <==> q in Restrict(TransitiveArms(c, pid, None, None), s, None, o)
        {
          TransitivePushDown(c, pid, s, o);
          TransitivePushDown(c, pid, None, None);
        }
      }
    }
  }

  function TransitiveArmsIfAny(c: Entailment, pid: Id, s: Option<Id>, o: Option<Id>): set<Quad> {
    if c.reasoning.OwlQl? && pid in c.transitive then TransitiveArms(c, pid, s, o) else {}
  }

  lemma AllTransitiveAt(c: Entailment, pid: Id, s: Option<Id>, o: Option<Id>)
    ensures Restrict(AllTransitiveArms(c, None, None), s, Some(pid), o) == TransitiveArmsIfAny(c, pid, s, o)
  {
    hide TransitiveArms;
    forall q: Id
      ensures TransitiveArms(c, q, None, None) == Restrict(TransitiveArms(c, q, None, None), None, Some(q), None)
    {
      TransitivePushDown(c, q, None, None);
    }
    TransitivePushDown(c, pid, s, o);
  }

  /** The unbound derived table, at one property. */
  lemma UnboundAt(c: Entailment, pid: Id, s: Option<Id>, o: Option<Id>)
    ensures Restrict(UnboundSource(c, None, None), s, Some(pid), o)
         == PropertyArms(c, pid, s, o) + (if pid == TYPE then TypeArms(c, s, o) else {})
           + TransitiveArmsIfAny(c, pid, s, o)
  {
    hide AssertedArm, SameArm, InverseArm, SchemaArm, PropertyArms, TypeArms, AllTransitiveArms, TransitiveArmsIfAny;
    PropertyPushDown(c, pid, s, o);
    TypePushDown(c, s, Some(pid), o);
    AllTransitiveAt(c, pid, s, o);
    assert UnboundSource(c, None, None) == PlainArms(c) + TypeArms(c, None, None) + AllTransitiveArms(c, None, None);
  }

  lemma UnboundPushDown(c: Entailment, s: Option<Id>, o: Option<Id>)
    ensures UnboundSource(c, s, o) == Restrict(UnboundSource(c, None, None), s, None, o)
  {
    hide AssertedArm, SameArm, InverseArm, SchemaArm, TypeArms, AllTransitiveArms;
    ArmsPushDown(c, s, None, o);
    SchemaPushDown(c, Class, SUB_CLASS_OF, s, None, o);
    SchemaPushDown(c, Property, SUB_PROPERTY_OF, s, None, o);
    TypePushDown(c, s, None, o);
    AllTransitivePushDown(c, s, o);
  }

  // ------------------------------------------------------------------ the theorem

  /** A scope that some graph uses. */
  predicate Selectable(c: Entailment, scope: Id) {
    scope == ALL_GRAPHS || scope in c.scopes
  }

  /** No property axiom entails `rdf:type` triples, and `rdf:type` is not transitive. */
  predicate TypeIsQuiet(c: Entailment) {
    && (forall r | r in c.tbox && r.kind == c.SameKind() && r.sup == TYPE && r.sub != TYPE :: !Selectable(c, r.scope))
    && (c.reasoning.OwlQl? ==>
          && (forall r | r in c.tbox && r.kind == OwlInverse && r.sup == TYPE :: !Selectable(c, r.scope))
          && (TYPE in c.transitive ==>
                && c.scopes != {}
                && forall r | r in c.tbox && r.kind == Transitive && r.sub == TYPE :: !Selectable(c, r.scope)))
  }

  /** Asking for the constants gives what asking for everything and filtering gives. */
  predicate PushesDown(c: Entailment, s: Option<Id>, p: Option<Id>, o: Option<Id>) {
    Source(c, s, p, o) == Restrict(Source(c, None, None, None), s, p, o)
  }

  /** With quiet types, the property arms of `rdf:type` are its asserted triples. */
  lemma QuietTypes(c: Entailment, s: Option<Id>, o: Option<Id>)
    requires TypeIsQuiet(c)
    ensures PropertyArms(c, TYPE, s, o) == AssertedArm(c, s, Some(TYPE), o)
    ensures TransitiveArmsIfAny(c, TYPE, s, o) <= PropertyArms(c, TYPE, s, o)
  {
    assert InverseArm(c, s, Some(TYPE), o) == {};
    assert forall q | q in SameArm(c, s, Some(TYPE), o) :: q in AssertedArm(c, s, Some(TYPE), o);
    assert PropertyArms(c, TYPE, s, o) == AssertedArm(c, s, Some(TYPE), o);
    if c.reasoning.OwlQl? && TYPE in c.transitive {
      hide PropertyArms, Recursion;
      assert forall g :: !Declared(c, TYPE, g);
      assert Links(c, TYPE) == {};
      NoRecursion(TYPE, s, o);
    }
  }

  lemma NoRecursion(pid: Id, s: Option<Id>, o: Option<Id>)
    ensures Recursion({}, pid, s, o) == {}
  {
    hide Recursion;
    forall q
      ensures q !in Recursion({}, pid, s, o)
    {
      RecursionRow({}, pid, s, o, q);
      assert ArcsOf({}, q.g) == {};
      NoWalkWithoutArcs(q.s, q.o, false);
    }
  }

  /** Constants can be pushed into the arms, for every pattern but `rdf:type` ones without any
      condition, and for those when types are quiet. */
  lemma ConstantsPushDown(c: Entailment, s: Option<Id>, p: Option<Id>, o: Option<Id>)
    requires c.reasoning.NoReasoning? || p != Some(TYPE) || TypeIsQuiet(c)
    ensures PushesDown(c, s, p, o)
  {
    hide AssertedArm, PropertyArms, TypeArms, UnboundSource, TransitiveArms, TypeIsQuiet;
    if c.reasoning.NoReasoning? {
      ArmsPushDown(c, s, p, o);
    } else if p.None? {
      UnboundPushDown(c, s, o);
    } else {
      UnboundAt(c, p.value, s, o);
      TransitiveContainsProperty(c, p.value, s, o);
      if p.value == TYPE {
        QuietTypes(c, s, o);
      }
    }
  }

  /** The constants of a pattern with a property only filter it, `rdf:type` included. */
  lemma EndsPushDown(c: Entailment, s: Option<Id>, p: Id, o: Option<Id>)
    requires !c.reasoning.NoReasoning?
    ensures Source(c, s, Some(p), o) == Restrict(Source(c, None, Some(p), None), s, Some(p), o)
  {
    hide AssertedArm, PropertyArms, TypeArms, TransitiveArms, PlainArms;
    if p == TYPE {
      ArmsPushDown(c, s, Some(p), o);
      ArmsPushDown(c, None, Some(p), None);
      TypePushDown(c, s, Some(p), o);
    } else {
      PropertyPushDown(c, p, s, o);
      PropertyPushDown(c, p, None, None);
      TransitivePushDown(c, p, s, o);
    }
  }
}
