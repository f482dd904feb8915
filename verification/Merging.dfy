/** What a pattern answers when graphs are merged into the default graph: the union of what each
    derives, except for a property closed transitively, which goes by the default graph's axioms. */
module Merging {
  import opened Ids
  import opened Walks
  import opened Registry
  import opened Closure
  import opened Scopes
  import opened Entailments
  import opened PushDown
  import opened Rewriting
  import Fixpoint

  predicate InMerge(graphs: Option<set<Id>>, g: Id) {
    graphs.None? || g in graphs.value
  }

  /** Some graph that is merged has this triple among these quads. */
  ghost predicate InSome(quads: set<Quad>, graphs: Option<set<Id>>, t: Triple) {
    exists g :: InMerge(graphs, g) && InGraph(t, g) in quads
  }

  function Merged(c: Entailment, graphs: Option<set<Id>>): Entailment {
    c.(filter := Merge(graphs))
  }

  lemma MergeAsserted(c: Entailment, graphs: Option<set<Id>>, s: Option<Id>, p: Id, o: Option<Id>, t: Triple)
    requires c.filter.Keep?
    ensures InGraph(t, DefaultGraph) in AssertedArm(Merged(c, graphs), s, Some(p), o)
       <==> InSome(AssertedArm(c, s, Some(p), o), graphs, t)
  {
    if InGraph(t, DefaultGraph) in AssertedArm(Merged(c, graphs), s, Some(p), o) {
      var x :| x in c.base && Merged(c, graphs).Reads(x.g) && Triple(x.s, x.p, x.o) == t;
      assert InGraph(t, x.g) in AssertedArm(c, s, Some(p), o);
    }
  }

  lemma MergeSame(c: Entailment, graphs: Option<set<Id>>, s: Option<Id>, p: Id, o: Option<Id>, t: Triple)
    requires c.filter.Keep?
    ensures InGraph(t, DefaultGraph) in SameArm(Merged(c, graphs), s, Some(p), o)
       <==> InSome(SameArm(c, s, Some(p), o), graphs, t)
  {
    if InGraph(t, DefaultGraph) in SameArm(Merged(c, graphs), s, Some(p), o) {
      var x, r :| x in c.base && r in c.tbox && Merged(c, graphs).Uses(x, r, c.SameKind())
        && x.p == r.sub && t == Triple(x.s, r.sup, x.o);
      assert InGraph(t, x.g) in SameArm(c, s, Some(p), o);
    }
  }

  lemma MergeInverse(c: Entailment, graphs: Option<set<Id>>, s: Option<Id>, p: Id, o: Option<Id>, t: Triple)
    requires c.filter.Keep?
    ensures InGraph(t, DefaultGraph) in InverseArm(Merged(c, graphs), s, Some(p), o)
       <==> InSome(InverseArm(c, s, Some(p), o), graphs, t)
  {
    if InGraph(t, DefaultGraph) in InverseArm(Merged(c, graphs), s, Some(p), o) {
      var x, r :| x in c.base && r in c.tbox && Merged(c, graphs).Uses(x, r, OwlInverse)
        && x.p == r.sub && NonLiteral(x.o) && t == Triple(x.o, r.sup, x.s);
      assert InGraph(t, x.g) in InverseArm(c, s, Some(p), o);
    }
  }

  lemma MergeSuperclass(c: Entailment, graphs: Option<set<Id>>, s: Option<Id>, o: Option<Id>, t: Triple)
    requires c.filter.Keep?
    ensures InGraph(t, DefaultGraph) in SuperclassArm(Merged(c, graphs), s, o)
       <==> InSome(SuperclassArm(c, s, o), graphs, t)
  {
    if InGraph(t, DefaultGraph) in SuperclassArm(Merged(c, graphs), s, o) {
      var x, r :| x in c.base && r in c.tbox && Merged(c, graphs).Uses(x, r, Class)
        && x.p == TYPE && r.sub == x.o && t == Triple(x.s, TYPE, r.sup);
      assert InGraph(t, x.g) in SuperclassArm(c, s, o);
    }
  }

  lemma MergeSubject(c: Entailment, graphs: Option<set<Id>>, s: Option<Id>, o: Option<Id>, t: Triple)
    requires c.filter.Keep?
    ensures InGraph(t, DefaultGraph) in SubjectArm(Merged(c, graphs), s, o)
       <==> InSome(SubjectArm(c, s, o), graphs, t)
  {
    if InGraph(t, DefaultGraph) in SubjectArm(Merged(c, graphs), s, o) {
      var x, r :| x in c.base && r in c.tbox && Merged(c, graphs).Uses(x, r, c.SubjectKind())
        && x.p == r.sub && t == Triple(x.s, TYPE, r.sup);
      assert InGraph(t, x.g) in SubjectArm(c, s, o);
    }
  }

  lemma MergeObject(c: Entailment, graphs: Option<set<Id>>, s: Option<Id>, o: Option<Id>, t: Triple)
    requires c.filter.Keep?
    ensures InGraph(t, DefaultGraph) in ObjectArm(Merged(c, graphs), s, o)
       <==> InSome(ObjectArm(c, s, o), graphs, t)
  {
    if InGraph(t, DefaultGraph) in ObjectArm(Merged(c, graphs), s, o) {
      var x, r :| x in c.base && r in c.tbox && Merged(c, graphs).Uses(x, r, c.ObjectKind())
        && x.p == r.sub && NonLiteral(x.o) && t == Triple(x.o, TYPE, r.sup);
      assert InGraph(t, x.g) in ObjectArm(c, s, o);
    }
  }

  /** A property answered by its arms: neither schema vocabulary nor closed transitively. */
  predicate Ordinary(c: Entailment, p: Id) {
    p !in {SUB_CLASS_OF, SUB_PROPERTY_OF} && (p == TYPE || !(c.reasoning.OwlQl? && p in c.transitive))
  }

  /** Merging graphs into the default graph merges what is derived in each of them, with its own
      scope's axioms: nothing is derived across graphs. */
  lemma MergeIsUnion(c: Entailment, graphs: Option<set<Id>>, s: Option<Id>, o: Option<Id>, t: Triple)
    requires c.filter.Keep? && !c.reasoning.NoReasoning? && Ordinary(c, t.p)
    ensures InGraph(t, DefaultGraph) in Source(Merged(c, graphs), s, Some(t.p), o)
       <==> InSome(Source(c, s, Some(t.p), o), graphs, t)
  {
    hide AssertedArm, SameArm, InverseArm, SuperclassArm, SubjectArm, ObjectArm;
    MergeAsserted(c, graphs, s, t.p, o, t);
    MergeSame(c, graphs, s, t.p, o, t);
    MergeInverse(c, graphs, s, t.p, o, t);
    MergeSuperclass(c, graphs, s, o, t);
    MergeSubject(c, graphs, s, o, t);
    MergeObject(c, graphs, s, o, t);
  }

  // ------------------------------------------------------------------ properties closed transitively

  /** What the arms of a property give in the merged graphs, as arcs of one graph. */
  function MergedArcs(c: Entailment, graphs: Option<set<Id>>, p: Id): set<Arc> {
    set z | z in PropertyArms(c, p, None, None) && (InMerge(graphs, z.g) || z in SchemaArms(c, p, None, None)) ::
      Arc(z.s, z.o, false)
  }

  lemma ArmsOfMerge(c: Entailment, graphs: Option<set<Id>>, t: Triple)
    requires c.filter.Keep?
    ensures InGraph(t, DefaultGraph) in PropertyArms(Merged(c, graphs), t.p, None, None)
       <==> InSome(PropertyArms(c, t.p, None, None), graphs, t) ||
            InGraph(t, DefaultGraph) in SchemaArms(c, t.p, None, None)
  {
    hide AssertedArm, SameArm, InverseArm;
    MergeAsserted(c, graphs, None, t.p, None, t);
    MergeSame(c, graphs, None, t.p, None, t);
    MergeInverse(c, graphs, None, t.p, None, t);
  }

  lemma ArcsOfMerge(c: Entailment, graphs: Option<set<Id>>, p: Id)
    requires c.filter.Keep?
    ensures ArmArcs(Merged(c, graphs), p, DefaultGraph) == MergedArcs(c, graphs, p)
  {
    hide PropertyArms;
    forall a: Arc
      ensures a in ArmArcs(Merged(c, graphs), p, DefaultGraph) <==> a in MergedArcs(c, graphs, p)
    {
      var t := Triple(a.a, p, a.b);
      ArmsOfMerge(c, graphs, t);
      ArmsHaveProperty(Merged(c, graphs), p);
      ArmsHaveProperty(c, p);
      SchemaRowsAreArms(c, p);
      if a in ArmArcs(Merged(c, graphs), p, DefaultGraph) {
        var z :| z in PropertyArms(Merged(c, graphs), p, None, None) && z.g == DefaultGraph
          && a == Arc(z.s, z.o, false);
        assert z == InGraph(t, DefaultGraph);
      }
      if a in MergedArcs(c, graphs, p) {
        var z :| z in PropertyArms(c, p, None, None) && (InMerge(graphs, z.g) || z in SchemaArms(c, p, None, None))
          && a == Arc(z.s, z.o, false);
        assert z == InGraph(t, z.g);
        assert InGraph(t, DefaultGraph) in PropertyArms(Merged(c, graphs), p, None, None);
      }
    }
  }

  lemma ArmsHaveProperty(c: Entailment, p: Id)
    ensures forall z | z in PropertyArms(c, p, None, None) :: z.p == p
  {
  }

  lemma SchemaRowsAreArms(c: Entailment, p: Id)
    ensures SchemaArms(c, p, None, None) <= PropertyArms(c, p, None, None)
    ensures forall z | z in SchemaArms(c, p, None, None) :: z.g == DefaultGraph
  {
  }

  /** The ontologies that apply to the graph declare the property transitive. */
  predicate Declares(quads: set<Quad>, g: Id, p: Id) {
    Triple(p, TYPE, TRANSITIVE) in ApplicableAxioms(quads, g)
  }

  /** What a merged pattern answers: the union of what the property's arms give in the merged
      graphs, closed transitively, across graphs, when the default graph's ontologies say so. */
  ghost predicate IsMergedAnswer(c: Entailment, quads: set<Quad>, graphs: Option<set<Id>>, t: Triple) {
    var arcs := MergedArcs(c, graphs, t.p);
    if c.reasoning.OwlQl? && Declares(quads, DefaultGraph, t.p) then Linked(arcs, t.s, t.o, false)
    else Arc(t.s, t.o, false) in arcs
  }

  lemma DeclaredMeansDeclares(c: Entailment, quads: set<Quad>, g: Id, p: Id)
    requires ReadsStore(c, quads) && c.filter.Keep? && c.reasoning.OwlQl?
    ensures p in c.transitive && (c.scopes == {} || Declared(c, p, g)) <==> Declares(quads, g, p)
  {
    hide Recomputed, ApplicableAxioms, PicksClosureOf;
    var empty := c.(base := {});
    StoreIsComparable(empty, quads, g);
    ClosedMeansDeclared(empty, g, ApplicableAxioms(quads, g), p);
  }

  /** Without constants. */
  lemma MergedTable(c: Entailment, quads: set<Quad>, graphs: Option<set<Id>>, t: Triple)
    requires ReadsStore(c, quads) && c.filter.Keep? && !c.reasoning.NoReasoning? && t.p != TYPE
    ensures InGraph(t, DefaultGraph) in Source(Merged(c, graphs), None, Some(t.p), None)
      <==> IsMergedAnswer(c, quads, graphs, t)
  {
    hide PropertyArms, Declared, Recursion, Linked, Recomputed, ApplicableAxioms, MergedArcs;
    var m := Merged(c, graphs);
    ArcsOfMerge(c, graphs, t.p);
    ArmsHaveProperty(m, t.p);
    assert InGraph(t, DefaultGraph) in PropertyArms(m, t.p, None, None)
      <==> Arc(t.s, t.o, false) in ArmArcs(m, t.p, DefaultGraph);
    if c.reasoning.OwlQl? {
      DeclaredMeansDeclares(c, quads, DefaultGraph, t.p);
      assert Declared(m, t.p, DefaultGraph) == Declared(c, t.p, DefaultGraph) by {
        DeclaredAlike(c, m, t.p, DefaultGraph);
      }
      if t.p in c.transitive {
        RecursionRow(Links(m, t.p), t.p, None, None, InGraph(t, DefaultGraph));
        if Declares(quads, DefaultGraph, t.p) {
          LinksAreArms(m, t.p, DefaultGraph);
          if Arc(t.s, t.o, false) in ArmArcs(m, t.p, DefaultGraph) {
            LinkedArc(ArmArcs(m, t.p, DefaultGraph), Arc(t.s, t.o, false));
          }
        } else {
          NoLinksIn(m, t.p, DefaultGraph);
        }
      }
    }
  }

  lemma DeclaredAlike(c: Entailment, m: Entailment, p: Id, g: Id)
    requires c.tbox == m.tbox && c.scopes == m.scopes
    ensures Declared(c, p, g) == Declared(m, p, g)
  {
  }

  /** A merged pattern with a property other than `rdf:type`, under any constants. */
  lemma MergeFollowsDefaultGraph(c: Entailment, quads: set<Quad>, graphs: Option<set<Id>>, s: Option<Id>,
      o: Option<Id>, t: Triple)
    requires ReadsStore(c, quads) && c.filter.Keep? && !c.reasoning.NoReasoning? && t.p != TYPE
    ensures InGraph(t, DefaultGraph) in Source(Merged(c, graphs), s, Some(t.p), o)
       <==> Entailments.Fits(s, t.s) && Entailments.Fits(o, t.o) && IsMergedAnswer(c, quads, graphs, t)
  {
    hide Source, Recomputed, IsMergedAnswer;
    EndsPushDown(Merged(c, graphs), s, t.p, o);
    MergedTable(c, quads, graphs, t);
  }

  // ------------------------------------------------------------------ when merging is still a union

  /** The merged pattern has the triple exactly when some merged graph's own pattern has it. */
  ghost predicate IsUnion(c: Entailment, graphs: Option<set<Id>>, s: Option<Id>, o: Option<Id>, t: Triple) {
    InGraph(t, DefaultGraph) in Source(Merged(c, graphs), s, Some(t.p), o) <==>
    InSome(Source(c, s, Some(t.p), o), graphs, t)
  }

  /** Either neither the default graph nor a merged one closes the property, or all do, and there
      is one graph at most to merge. */
  ghost predicate MergesEvenly(quads: set<Quad>, graphs: Option<set<Id>>, p: Id) {
    if Declares(quads, DefaultGraph, p) then
      && (forall g | InMerge(graphs, g) :: Declares(quads, g, p))
      && (forall g, h | InMerge(graphs, g) && InMerge(graphs, h) :: g == h)
    else forall g | InMerge(graphs, g) :: !Declares(quads, g, p)
  }

  /** What a graph answers by itself. */
  lemma KeptTable(c: Entailment, quads: set<Quad>, g: Id, t: Triple)
    requires ReadsStore(c, quads) && c.filter.Keep? && c.reasoning.OwlQl? && ValidSubjects(c.base)
    requires t.p !in {TYPE, SUB_CLASS_OF, SUB_PROPERTY_OF}
    ensures InGraph(t, g) in Source(c, None, Some(t.p), None) <==>
      if Declares(quads, g, t.p) then Linked(ArmArcs(c, t.p, g), t.s, t.o, false)
        else Arc(t.s, t.o, false) in ArmArcs(c, t.p, g)
  {
    hide Recomputed, ApplicableAxioms, PicksClosureOf, Source, Linked, PropertyArms;
    StoreIsComparable(c, quads, g);
    PropertySource(c, g, ApplicableAxioms(quads, g), t);
    ArmsHaveProperty(c, t.p);
    assert InGraph(t, g) in PropertyArms(c, t.p, None, None) <==> Arc(t.s, t.o, false) in ArmArcs(c, t.p, g);
  }

  lemma ArcsByGraph(c: Entailment, graphs: Option<set<Id>>, p: Id)
    requires p !in {SUB_CLASS_OF, SUB_PROPERTY_OF}
    ensures forall a :: a in MergedArcs(c, graphs, p) <==> exists g :: InMerge(graphs, g) && a in ArmArcs(c, p, g)
  {
    hide PropertyArms;
  }

  lemma EvenTables(c: Entailment, quads: set<Quad>, graphs: Option<set<Id>>, t: Triple)
    requires ReadsStore(c, quads) && c.filter.Keep? && c.reasoning.OwlQl? && ValidSubjects(c.base)
    requires t.p !in {TYPE, SUB_CLASS_OF, SUB_PROPERTY_OF} && MergesEvenly(quads, graphs, t.p)
    ensures IsUnion(c, graphs, None, None, t)
  {
    hide Recomputed, Declares, Source, Linked, ArmArcs, MergedArcs;
    MergedTable(c, quads, graphs, t);
    ArcsByGraph(c, graphs, t.p);
    forall g
      ensures InGraph(t, g) in Source(c, None, Some(t.p), None) <==>
        if Declares(quads, g, t.p) then Linked(ArmArcs(c, t.p, g), t.s, t.o, false)
          else Arc(t.s, t.o, false) in ArmArcs(c, t.p, g)
    {
      KeptTable(c, quads, g, t);
    }
    if Declares(quads, DefaultGraph, t.p) {
      if g :| InMerge(graphs, g) {
        assert forall a :: a in MergedArcs(c, graphs, t.p) <==> a in ArmArcs(c, t.p, g);
        assert MergedArcs(c, graphs, t.p) == ArmArcs(c, t.p, g);
        assert InSome(Source(c, None, Some(t.p), None), graphs, t)
          <==> InGraph(t, g) in Source(c, None, Some(t.p), None);
      } else {
        assert MergedArcs(c, graphs, t.p) == {};
        NoWalkWithoutArcs(t.s, t.o, false);
      }
    }
  }

  /** Under that condition merging is a union for a transitive property too. */
  lemma EvenMergeIsUnion(c: Entailment, quads: set<Quad>, graphs: Option<set<Id>>, s: Option<Id>, o: Option<Id>,
      t: Triple)
    requires ReadsStore(c, quads) && c.filter.Keep? && c.reasoning.OwlQl? && ValidSubjects(c.base)
    requires t.p !in {TYPE, SUB_CLASS_OF, SUB_PROPERTY_OF} && MergesEvenly(quads, graphs, t.p)
    ensures IsUnion(c, graphs, s, o, t)
  {
    hide Recomputed, Source, MergesEvenly;
    EvenTables(c, quads, graphs, t);
    EndsPushDown(Merged(c, graphs), s, t.p, o);
    EndsPushDown(c, s, t.p, o);
  }

  const X := Iri(OtherNs, 0)
  const Y := Iri(OtherNs, 1)
  const Z := Iri(OtherNs, 2)

  /** A step from X to Y in one graph, and one from Y to Z in the same graph or another. */
  function TwoSteps(p: Id, g: Id, h: Id): set<Quad> {
    {Quad(X, p, Y, g), Quad(Y, p, Z, h)}
  }

  lemma AssertedIsArc(c: Entailment, x: Quad)
    requires c.filter.Keep? && x in c.base
    ensures Arc(x.s, x.o, false) in ArmArcs(c, x.p, x.g)
  {
    assert x in AssertedArm(c, None, Some(x.p), None);
  }

  /** The quads of a graph as arcs, either way round. */
  function BaseArcs(base: set<Quad>, g: Id): set<Arc> {
    (set x | x in base && x.g == g :: Arc(x.s, x.o, false)) + (set x | x in base && x.g == g :: Arc(x.o, x.s, false))
  }

  lemma ArcsComeFromBase(c: Entailment, p: Id, g: Id)
    requires c.filter.Keep? && p !in {SUB_CLASS_OF, SUB_PROPERTY_OF}
    ensures ArmArcs(c, p, g) <= BaseArcs(c.base, g)
  {
  }

  lemma ArmsOfTwoSteps(c: Entailment, p: Id, g: Id, h: Id)
    requires c.filter.Keep? && c.base == TwoSteps(p, g, h) && p !in {SUB_CLASS_OF, SUB_PROPERTY_OF}
    ensures Arc(X, Y, false) in ArmArcs(c, p, g) && Arc(Y, Z, false) in ArmArcs(c, p, h)
    ensures forall k, a | a in ArmArcs(c, p, k) ::
      (k == g && (a == Arc(X, Y, false) || a == Arc(Y, X, false)))
        || (k == h && (a == Arc(Y, Z, false) || a == Arc(Z, Y, false)))
  {
    hide ArmArcs;
    AssertedIsArc(c, Quad(X, p, Y, g));
    AssertedIsArc(c, Quad(Y, p, Z, h));
    forall k
      ensures ArmArcs(c, p, k) <= BaseArcs(c.base, k)
    {
      ArcsComeFromBase(c, p, k);
    }
  }

  /** Some base tells the merged pattern from the union. */
  ghost predicate SomeUneven(c: Entailment, graphs: Option<set<Id>>, p: Id) {
    exists base, t: Triple :: ValidSubjects(base) && t.p == p && !IsUnion(c.(base := base), graphs, None, None, t)
  }

  /** A merged graph that closes the property, and a default graph that does not, or the other way
      round: two steps in that graph. */
  lemma OneGraphIsUneven(c: Entailment, quads: set<Quad>, graphs: Option<set<Id>>, p: Id, g: Id)
    requires ReadsStore(c, quads) && c.filter.Keep? && c.reasoning.OwlQl? && p !in {TYPE, SUB_CLASS_OF, SUB_PROPERTY_OF}
    requires InMerge(graphs, g) && Declares(quads, g, p) != Declares(quads, DefaultGraph, p)
    ensures SomeUneven(c, graphs, p)
  {
    hide Recomputed, Declares, Source, Linked, ArmArcs, MergedArcs;
    var d, t := c.(base := TwoSteps(p, g, g)), Triple(X, p, Z);
    ArmsOfTwoSteps(d, p, g, g);
    ArcsByGraph(d, graphs, p);
    MergedTable(d, quads, graphs, t);
    forall k
      ensures InGraph(t, k) in Source(d, None, Some(p), None) <==> k == g && Declares(quads, g, p)
    {
      KeptTable(d, quads, k, t);
      TwoStepsLink(ArmArcs(d, p, g));
      if k != g {
        assert ArmArcs(d, p, k) == {};
        NoWalkWithoutArcs(X, Z, false);
      }
    }
    TwoStepsLink(MergedArcs(d, graphs, p));
    assert Arc(X, Z, false) !in MergedArcs(d, graphs, p);
    assert InSome(Source(d, None, Some(p), None), graphs, t) <==> Declares(quads, g, p);
    assert !IsUnion(d, graphs, None, None, t);
  }

  lemma TwoStepsLink(arcs: set<Arc>)
    ensures Arc(X, Y, false) in arcs && Arc(Y, Z, false) in arcs ==> Linked(arcs, X, Z, false)
  {
    if Arc(X, Y, false) in arcs && Arc(Y, Z, false) in arcs {
      LinkedArc(arcs, Arc(X, Y, false));
      LinkedAppend(arcs, X, Y, false, Arc(Y, Z, false));
    }
  }

  lemma LinkHasEnds(arcs: set<Arc>, a: Id, b: Id, inv: bool)
    ensures Linked(arcs, a, b, inv) ==> (exists e :: e in arcs && e.a == a) && (exists e :: e in arcs && e.b == b)
  {
    if Linked(arcs, a, b, inv) {
      var w :| IsWalk(arcs, w, a, b) && inv == (Inverses(w) % 2 == 1);
      assert w[0] in arcs && w[|w| - 1] in arcs;
    }
  }

  /** A closing default graph and two graphs: a step in each. */
  lemma TwoGraphsAreUneven(c: Entailment, quads: set<Quad>, graphs: Option<set<Id>>, p: Id, g: Id, h: Id)
    requires ReadsStore(c, quads) && c.filter.Keep? && c.reasoning.OwlQl? && p !in {TYPE, SUB_CLASS_OF, SUB_PROPERTY_OF}
    requires InMerge(graphs, g) && InMerge(graphs, h) && g != h && Declares(quads, DefaultGraph, p)
    ensures SomeUneven(c, graphs, p)
  {
    hide Recomputed, Declares, Source, ArmArcs, MergedArcs;
    var d, t := c.(base := TwoSteps(p, g, h)), Triple(X, p, Z);
    ArmsOfTwoSteps(d, p, g, h);
    ArcsByGraph(d, graphs, p);
    MergedTable(d, quads, graphs, t);
    TwoStepsLink(MergedArcs(d, graphs, p));
    forall k
      ensures InGraph(t, k) !in Source(d, None, Some(p), None)
    {
      KeptTable(d, quads, k, t);
      LinkHasEnds(ArmArcs(d, p, k), X, Z, false);
    }
    assert !IsUnion(d, graphs, None, None, t);
  }

  /** Over every base and under any constants, merging graphs is the union of what each derives,
      if and only if the property merges evenly, or the regime closes none. */
  lemma MergeIsUnionExactly(c: Entailment, quads: set<Quad>, graphs: Option<set<Id>>, p: Id)
    requires ReadsStore(c, quads) && c.filter.Keep? && !c.reasoning.NoReasoning?
      && p !in {TYPE, SUB_CLASS_OF, SUB_PROPERTY_OF}
    ensures (c.reasoning.OwlQl? ==> MergesEvenly(quads, graphs, p)) <==>
      forall base, s, o, t: Triple | ValidSubjects(base) && t.p == p :: IsUnion(c.(base := base), graphs, s, o, t)
  {
    hide Recomputed, Declares, Source;
    if c.reasoning.OwlQl? ==> MergesEvenly(quads, graphs, p) {
      forall base, s, o, t: Triple | ValidSubjects(base) && t.p == p
        ensures IsUnion(c.(base := base), graphs, s, o, t)
      {
        if c.reasoning.OwlQl? {
          EvenMergeIsUnion(c.(base := base), quads, graphs, s, o, t);
        } else {
          MergeIsUnion(c.(base := base), graphs, s, o, t);
        }
      }
    } else if g :| InMerge(graphs, g) && Declares(quads, g, p) != Declares(quads, DefaultGraph, p) {
      OneGraphIsUneven(c, quads, graphs, p, g);
    } else {
      var g, h :| InMerge(graphs, g) && InMerge(graphs, h) && g != h;
      TwoGraphsAreUneven(c, quads, graphs, p, g, h);
    }
  }

  // ------------------------------------------------------------------ a store that does not

  const P := Iri(OtherNs, 3)
  const G := Iri(OtherNs, 4)
  const ONTOLOGY := Iri(OtherNs, 5)

  /** An ontology for the graph G alone that declares P transitive, and two steps of P in G. */
  const SCOPED_STORE: set<Quad> := {
    Quad(ONTOLOGY, TYPE, RoleClass(Ontology), SCHEMA_GRAPH), Quad(ONTOLOGY, APPLIES_TO, G, SCHEMA_GRAPH),
    Quad(P, TYPE, TRANSITIVE, ONTOLOGY), Quad(X, P, Y, G), Quad(Y, P, Z, G)
  }

  lemma ScopedRegistry()
    ensures RoleNodes(SCOPED_STORE, Ontology) == {ONTOLOGY} && ActiveNodes(SCOPED_STORE, Ontology) == {ONTOLOGY}
    ensures Targets(SCOPED_STORE) == {(ONTOLOGY, G)} && ToAll(SCOPED_STORE) == {}
  {
    assert forall q | q in SCOPED_STORE && q.g == SCHEMA_GRAPH && q.p == APPLIES_TO :: q.s == ONTOLOGY && q.o == G;
    assert Quad(ONTOLOGY, APPLIES_TO, G, SCHEMA_GRAPH) in SCOPED_STORE;
    assert Quad(ONTOLOGY, TYPE, RoleClass(Ontology), SCHEMA_GRAPH) in SCOPED_STORE;
    assert forall q | q in SCOPED_STORE :: q.p != ACTIVE;
  }

  lemma ScopedImports()
    ensures ImportEdges(SCOPED_STORE) == {}
  {
    assert forall q | q in SCOPED_STORE :: q.p !in {IMPORTS, OWL_IMPORTS};
    hide Names, ActiveNodes;
    assert Imports(SCOPED_STORE) == {};
  }

  /** The graphs of the ontologies that apply to a graph. */
  function Applying(quads: set<Quad>, g: Id): set<Id> {
    set n | n in ActiveNodes(quads, Ontology) && Applies(quads, n, g) :: GraphOf(n)
  }

  lemma OnlyGDeclares()
    ensures Declares(SCOPED_STORE, G, P) && !Declares(SCOPED_STORE, DefaultGraph, P)
  {
    hide ImportEdges, ActiveNodes, RoleNodes, Targets, ToAll;
    ScopedRegistry();
    ScopedImports();
    assert Quad(P, TYPE, TRANSITIVE, ONTOLOGY) in SCOPED_STORE;
    hide SCOPED_STORE;
    assert Applying(SCOPED_STORE, DefaultGraph) == {};
    assert GraphOf(ONTOLOGY) in Applying(SCOPED_STORE, G);
    WithImportsIsClosed(Applying(SCOPED_STORE, G), {});
    ImportFrameHolds({}, {});
    Fixpoint.LeastIsLeast({}, ImportStep({}), ImportFrame({}, {}), {});
    assert ApplicableGraphs(SCOPED_STORE, DefaultGraph) == {};
  }

  /** A pattern read from that store, under OWL QL. */
  function ScopedQuery(): Entailment {
    var tbox := Recomputed(SCOPED_STORE);
    Entailment(SCOPED_STORE, tbox, OwlQl, TransitiveProperties(tbox), LoadedScopes(tbox), Keep)
  }

  /** In G itself P leads from X to Z; with all graphs merged it does not. */
  lemma MergeLosesTransitivity()
    ensures var c, t := ScopedQuery(), Triple(X, P, Z);
      && ReadsStore(c, SCOPED_STORE)
      && InGraph(t, G) in Source(c, None, Some(P), None)
      && InGraph(t, DefaultGraph) !in Source(Merged(c, None), None, Some(P), None)
  {
    hide Recomputed, Source, Declares, Linked, PropertyArms;
    var c, t := ScopedQuery(), Triple(X, P, Z);
    OnlyGDeclares();
    KeptTable(c, SCOPED_STORE, G, t);
    MergedTable(c, SCOPED_STORE, None, t);
    StepsOfScoped(c);
    TwoStepsLink(ArmArcs(c, P, G));
    ArcsByGraph(c, None, P);
  }

  lemma StepsOfScoped(c: Entailment)
    requires c.filter.Keep? && c.base == SCOPED_STORE
    ensures Arc(X, Y, false) in ArmArcs(c, P, G) && Arc(Y, Z, false) in ArmArcs(c, P, G)
    ensures forall g :: Arc(X, Z, false) !in ArmArcs(c, P, g)
  {
    hide ArmArcs;
    AssertedIsArc(c, Quad(X, P, Y, G));
    AssertedIsArc(c, Quad(Y, P, Z, G));
    forall g
      ensures Arc(X, Z, false) !in ArmArcs(c, P, g)
    {
      ArcsComeFromBase(c, P, g);
    }
  }
}
