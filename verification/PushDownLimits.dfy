/** Where constant push-down stops: for `rdf:type` patterns it holds for every store exactly when
    no property axiom entails `rdf:type` triples. Each way of breaking that has a store of one or
    two quads that shows it. */
module PushDownLimits {
  import opened Ids
  import opened Walks
  import opened Closure
  import opened Entailments
  import opened PushDown

  /** From some number on, no IRI of this namespace is in a finite set of ids. */
  lemma {:induction false} UnusedIris(ids: set<Id>) returns (n: nat)
    ensures forall m | m >= n :: Iri(OtherNs, m) !in ids
  {
    if ids == {} {
      n := 0;
    } else {
      var id :| id in ids;
      n := UnusedIris(ids - {id});
      if id.Iri? && id.local >= n {
        n := id.local + 1;
      }
    }
  }

  function Sups(tbox: set<TboxRow>): set<Id> {
    set r | r in tbox :: r.sup
  }

  /** Neither asserted nor given by the typing arms: a triple whose object no closure row names. */
  lemma NotTyped(c: Entailment, q: Quad)
    requires q.o !in Sups(c.tbox)
    requires Quad(q.s, TYPE, q.o, q.g) !in c.base
    requires c.filter.Keep? && q.p == TYPE && !c.reasoning.NoReasoning?
    ensures q !in Source(c, None, Some(TYPE), None)
  {
  }

  /** With a noisy `rdf:type`, some store tells the pushed pattern from the filtered one. */
  lemma NoisyTypesBreakPushDown(c: Entailment)
    requires !c.reasoning.NoReasoning? && !TypeIsQuiet(c)
    ensures exists base: set<Quad> :: !PushesDown(c.(base := base, filter := Keep), None, Some(TYPE), None)
  {
    var n := UnusedIris(Sups(c.tbox) + {TYPE});
    var x, y, z := Iri(OtherNs, n), Iri(OtherNs, n + 1), Iri(OtherNs, n + 2);
    assert x !in Sups(c.tbox) && y !in Sups(c.tbox) && z !in Sups(c.tbox);
    if r :| r in c.tbox && r.kind == c.SameKind() && r.sup == TYPE && r.sub != TYPE && Selectable(c, r.scope) {
      BreakBySuper(c, r, x, y);
    } else if r :| c.reasoning.OwlQl? && r in c.tbox && r.kind == OwlInverse && r.sup == TYPE &&
                   Selectable(c, r.scope) {
      BreakByInverse(c, r, x, y);
    } else if c.scopes == {} {
      BreakByChain(c, ALL_GRAPHS, x, y, z);
    } else {
      var r :| r in c.tbox && r.kind == Transitive && r.sub == TYPE && Selectable(c, r.scope);
      BreakByChain(c, r.scope, x, y, z);
    }
  }

  /** A super-property row: one triple of the sub-property. */
  lemma BreakBySuper(c: Entailment, r: TboxRow, x: Id, y: Id)
    requires !c.reasoning.NoReasoning? && y !in Sups(c.tbox)
    requires r in c.tbox && r.kind == c.SameKind() && r.sup == TYPE && r.sub != TYPE && Selectable(c, r.scope)
    ensures exists base: set<Quad> :: !PushesDown(c.(base := base, filter := Keep), None, Some(TYPE), None)
  {
    var given, q := Quad(x, r.sub, y, r.scope), Quad(x, TYPE, y, r.scope);
    var d := c.(base := {given}, filter := Keep);
    NotTyped(d, q);
    assert d.Uses(given, r, d.SameKind());
    assert q in SameArm(d, None, None, None);
    assert q in Restrict(Source(d, None, None, None), None, Some(TYPE), None);
    assert !PushesDown(c.(base := {given}, filter := Keep), None, Some(TYPE), None);
  }

  /** An inverse row, the symmetry of `rdf:type` included. */
  lemma BreakByInverse(c: Entailment, r: TboxRow, x: Id, y: Id)
    requires c.reasoning.OwlQl? && x !in Sups(c.tbox) && x != y && y.Iri?
    requires r in c.tbox && r.kind == OwlInverse && r.sup == TYPE && Selectable(c, r.scope)
    ensures exists base: set<Quad> :: !PushesDown(c.(base := base, filter := Keep), None, Some(TYPE), None)
  {
    var given, q := Quad(x, r.sub, y, r.scope), Quad(y, TYPE, x, r.scope);
    var d := c.(base := {given}, filter := Keep);
    NotTyped(d, q);
    assert d.Uses(given, r, OwlInverse);
    assert q in InverseArm(d, None, None, None);
    assert q in Restrict(Source(d, None, None, None), None, Some(TYPE), None);
    assert !PushesDown(c.(base := {given}, filter := Keep), None, Some(TYPE), None);
  }

  /** A transitive `rdf:type`: a chain of two type triples. */
  lemma BreakByChain(c: Entailment, g: Id, x: Id, y: Id, z: Id)
    requires c.reasoning.OwlQl? && TYPE in c.transitive && z !in Sups(c.tbox) && x != y && y != z && x != z
    requires c.scopes == {} || exists r | r in c.tbox ::
      r.kind == Transitive && r.sub == TYPE && r.scope == g && Selectable(c, r.scope)
    ensures exists base: set<Quad> :: !PushesDown(c.(base := base, filter := Keep), None, Some(TYPE), None)
  {
    var one, two, q := Quad(x, TYPE, y, g), Quad(y, TYPE, z, g), Quad(x, TYPE, z, g);
    var d := c.(base := {one, two}, filter := Keep);
    NotTyped(d, q);
    ChainIsClosed(d, g, x, y, z);
    assert q in AllTransitiveArms(d, None, None);
    assert q in Restrict(Source(d, None, None, None), None, Some(TYPE), None);
    assert !PushesDown(c.(base := {one, two}, filter := Keep), None, Some(TYPE), None);
  }

  lemma ChainIsClosed(d: Entailment, g: Id, x: Id, y: Id, z: Id)
    requires d.filter.Keep? && Quad(x, TYPE, y, g) in d.base && Quad(y, TYPE, z, g) in d.base
    requires d.scopes == {} || Declared(d, TYPE, g)
    ensures Quad(x, TYPE, z, g) in TransitiveArms(d, TYPE, None, None)
  {
    var links := Links(d, TYPE);
    assert Quad(x, TYPE, y, g) in AssertedArm(d, None, Some(TYPE), None);
    assert Quad(y, TYPE, z, g) in AssertedArm(d, None, Some(TYPE), None);
    assert Edge(g, x, y, false) in links && Edge(g, y, z, false) in links;
    LinkedArc(ArcsOf(links, g), Arc(x, y, false));
    LinkedAppend(ArcsOf(links, g), x, y, false, Arc(y, z, false));
    RecursionRow(links, TYPE, None, None, Quad(x, TYPE, z, g));
  }

  /** Push-down of `rdf:type` patterns holds on every store if and only if types are quiet. */
  lemma TypePushDownExactly(c: Entailment)
    requires !c.reasoning.NoReasoning?
    ensures TypeIsQuiet(c)
       <==> forall base: set<Quad>, filter, s, o :: PushesDown(c.(base := base, filter := filter), s, Some(TYPE), o)
  {
    if TypeIsQuiet(c) {
      forall base: set<Quad>, filter, s, o
        ensures PushesDown(c.(base := base, filter := filter), s, Some(TYPE), o)
      {
        var d := c.(base := base, filter := filter);
        assert TypeIsQuiet(d);
        ConstantsPushDown(d, s, Some(TYPE), o);
      }
    } else {
      NoisyTypesBreakPushDown(c);
    }
  }
}
