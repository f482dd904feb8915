/** The compiled shape index `shapes_index` (shapes.rs): what its rebuild reads. */
module Shapes {
  import opened Ids
  import opened Registry

  /** The dictionary, and the parts of SQL the index leans on without caring how they choose:
      which row a scalar subquery returns, and MAX over texts and over numbers. */
  datatype Dictionary = Dictionary(
    lex: Id -> Option<string>,
    number: Id -> Option<int>,
    first: set<Id> -> Option<Id>,
    maxText: set<string> -> Option<string>,
    maxNumber: set<int> -> Option<int>)

  const SHAPE_PREDICATES := {
    SH_TARGET_CLASS, SH_PROPERTY, SH_PATH, SH_DATATYPE, SH_MIN_COUNT, SH_MAX_COUNT, SH_PATTERN, SH_CLASS, SH_NODE, SH_IN
  }

  /** What the write path goes by: a quad of this kind asks for a rebuild of the index. */
  predicate IsShapeQuad(q: Quad) {
    IsRegistryQuad(q) || q.p in SHAPE_PREDICATES
  }

  /** What the index really reads, of which `IsShapeQuad` is an over-estimate. */
  predicate FeedsShapes(q: Quad) {
    (IsRegistryQuad(q) && IsRegistryTriple(q.p, q.o)) || q.p in SHAPE_PREDICATES
  }

  function ShapePart(quads: set<Quad>): set<Quad> {
    set q | q in quads && FeedsShapes(q)
  }

  /** The triples with this predicate in the graphs that may hold shapes. */
  function ShapeTriples(quads: set<Quad>, p: Id): set<Triple> {
    set q | q in quads && q.p == p && InScope(quads, Role.Shacl, q.g) :: Triple(q.s, q.p, q.o)
  }

  /** A property shape, as declared. */
  datatype Declared = Declared(target: Id, shape: Id, path: Id)

  function DeclaredShapes(quads: set<Quad>): set<Declared> {
    set t, pr, pa | t in ShapeTriples(quads, SH_TARGET_CLASS) && pr in ShapeTriples(quads, SH_PROPERTY)
      && pa in ShapeTriples(quads, SH_PATH)
                    && pr.s == t.s && pa.s == pr.o
      :: Declared(t.o, pr.o, pa.o)
  }

  function Objects(quads: set<Quad>, shape: Id, p: Id): set<Id> {
    set t | t in ShapeTriples(quads, p) && t.s == shape :: t.o
  }

  /** The constraint a property shape carries: the first object with a text, its text. */
  function TextOf(d: Dictionary, quads: set<Quad>, shape: Id, p: Id): Option<string> {
    var first := d.first(set o | o in Objects(quads, shape, p) && d.lex(o).Some?);
    if first.Some? then d.lex(first.value) else None
  }

  function NumberOf(d: Dictionary, quads: set<Quad>, shape: Id, p: Id): Option<int> {
    var first := d.first(Objects(quads, shape, p));
    if first.Some? then d.number(first.value) else None
  }

  function IsRelationship(quads: set<Quad>, shape: Id): bool {
    Objects(quads, shape, SH_CLASS) + Objects(quads, shape, SH_NODE) != {}
  }

  /** One row of `shapes_index`. */
  datatype ShapeRow = ShapeRow(
    target: string, path: string,
    valueType: Option<string>, min: Option<int>, max: Option<int>, pattern: Option<string>, relationship: bool)

  /** The shapes declared for a target and path, whatever terms spell them. */
  function Group(d: Dictionary, quads: set<Quad>, target: Option<string>, path: Option<string>): set<Id> {
    set x | x in DeclaredShapes(quads) && d.lex(x.target) == target && d.lex(x.path) == path :: x.shape
  }

  function Texts(d: Dictionary, quads: set<Quad>, shapes: set<Id>, p: Id): set<string> {
    set x | x in shapes && TextOf(d, quads, x, p).Some? :: TextOf(d, quads, x, p).value
  }

  function Numbers(d: Dictionary, quads: set<Quad>, shapes: set<Id>, p: Id): set<int> {
    set x | x in shapes && NumberOf(d, quads, x, p).Some? :: NumberOf(d, quads, x, p).value
  }

  function MergedRow(d: Dictionary, quads: set<Quad>, target: string, path: string): ShapeRow {
    var shapes := Group(d, quads, Some(target), Some(path));
    ShapeRow(
      target, path,
      d.maxText(Texts(d, quads, shapes, SH_DATATYPE)),
      d.maxNumber(Numbers(d, quads, shapes, SH_MIN_COUNT)),
      d.maxNumber(Numbers(d, quads, shapes, SH_MAX_COUNT)),
      d.maxText(Texts(d, quads, shapes, SH_PATTERN)),
      exists x | x in shapes :: IsRelationship(quads, x))
  }

  /** The index rebuilt from the quads: shapes grouped by target and path, merged field by field. */
  function RebuiltIndex(d: Dictionary, quads: set<Quad>): set<ShapeRow> {
    set x | x in DeclaredShapes(quads) && d.lex(x.target).Some? && d.lex(x.path).Some?
      :: MergedRow(d, quads, d.lex(x.target).value, d.lex(x.path).value)
  }

  /** Nothing outside `FeedsShapes` reaches the index. */
  lemma IndexReadsShapePart(d: Dictionary, quads: set<Quad>)
    ensures RebuiltIndex(d, quads) == RebuiltIndex(d, ShapePart(quads))
  {
    hide ShapeTriples, MergedRow, DeclaredShapes;
    var part := ShapePart(quads);
    forall p | p in SHAPE_PREDICATES
      ensures ShapeTriples(quads, p) == ShapeTriples(part, p)
    {
      TriplesReadShapePart(quads, p);
    }
    DeclaredAlike(quads, part);
    forall target, path
      ensures MergedRow(d, quads, target, path) == MergedRow(d, part, target, path)
    {
      MergedAlike(d, quads, part, target, path);
    }
  }

  lemma TriplesReadShapePart(quads: set<Quad>, p: Id)
    requires p in SHAPE_PREDICATES
    ensures ShapeTriples(quads, p) == ShapeTriples(ShapePart(quads), p)
  {
    RolesReadRegistry(quads, ShapePart(quads), Role.Shacl);
  }

  lemma DeclaredAlike(quads: set<Quad>, part: set<Quad>)
    requires forall p | p in SHAPE_PREDICATES :: ShapeTriples(quads, p) == ShapeTriples(part, p)
    ensures DeclaredShapes(quads) == DeclaredShapes(part)
  {
    hide ShapeTriples;
  }

  lemma MergedAlike(d: Dictionary, quads: set<Quad>, part: set<Quad>, target: string, path: string)
    requires forall p | p in SHAPE_PREDICATES :: ShapeTriples(quads, p) == ShapeTriples(part, p)
    ensures MergedRow(d, quads, target, path) == MergedRow(d, part, target, path)
  {
    hide ShapeTriples, DeclaredShapes;
    DeclaredAlike(quads, part);
    var shapes := Group(d, quads, Some(target), Some(path));
    assert shapes == Group(d, part, Some(target), Some(path));
    forall p | p in SHAPE_PREDICATES
      ensures Texts(d, quads, shapes, p) == Texts(d, part, shapes, p)
      ensures Numbers(d, quads, shapes, p) == Numbers(d, part, shapes, p)
    {
      forall x
        ensures Objects(quads, x, p) == Objects(part, x, p)
      {
      }
    }
    forall x
      ensures IsRelationship(quads, x) == IsRelationship(part, x)
    {
      assert SH_CLASS in SHAPE_PREDICATES && SH_NODE in SHAPE_PREDICATES;
    }
  }

  // ------------------------------------------------------------------ terms that come and go

  function ShapeTerms(quads: set<Quad>): set<Id> {
    (set q | q in quads && q.p in SHAPE_PREDICATES :: q.s) + (set q | q in quads && q.p in SHAPE_PREDICATES :: q.o)
  }

  /** The two differ at most in terms that no shape mentions; a scalar subquery returns one of
      its rows. */
  ghost predicate SpellAlike(d: Dictionary, e: Dictionary, quads: set<Quad>) {
    && (forall x | x in ShapeTerms(quads) :: d.lex(x) == e.lex(x) && d.number(x) == e.number(x))
    && (forall s :: d.first(s) == e.first(s) && (d.first(s).Some? ==> d.first(s).value in s))
    && d.maxText == e.maxText && d.maxNumber == e.maxNumber
  }

  /** Terms that no shape mentions may come into the dictionary and go out of it. */
  lemma IndexReadsShapeTerms(d: Dictionary, e: Dictionary, quads: set<Quad>)
    requires SpellAlike(d, e, quads)
    ensures RebuiltIndex(d, quads) == RebuiltIndex(e, quads)
  {
    hide DeclaredShapes, MergedRow, ShapeTerms;
    DeclaredOverShapeTerms(quads);
    forall target, path
      ensures MergedRow(d, quads, target, path) == MergedRow(e, quads, target, path)
    {
      MergedSpellAlike(d, e, quads, target, path);
    }
  }

  lemma DeclaredOverShapeTerms(quads: set<Quad>)
    ensures forall x | x in DeclaredShapes(quads) :: x.target in ShapeTerms(quads) && x.path in ShapeTerms(quads)
  {
  }

  lemma ObjectsSpellAlike(d: Dictionary, e: Dictionary, quads: set<Quad>, shape: Id, p: Id)
    requires SpellAlike(d, e, quads) && p in SHAPE_PREDICATES
    ensures TextOf(d, quads, shape, p) == TextOf(e, quads, shape, p)
      && NumberOf(d, quads, shape, p) == NumberOf(e, quads, shape, p)
  {
    assert Objects(quads, shape, p) <= ShapeTerms(quads);
    hide Objects, ShapeTerms;
    assert (set o | o in Objects(quads, shape, p) && d.lex(o).Some?) == set o | o in Objects(quads, shape, p)
      && e.lex(o).Some?;
  }

  lemma MergedSpellAlike(d: Dictionary, e: Dictionary, quads: set<Quad>, target: string, path: string)
    requires SpellAlike(d, e, quads)
    ensures MergedRow(d, quads, target, path) == MergedRow(e, quads, target, path)
  {
    DeclaredOverShapeTerms(quads);
    forall shape, p | p in SHAPE_PREDICATES
      ensures TextOf(d, quads, shape, p) == TextOf(e, quads, shape, p)
        && NumberOf(d, quads, shape, p) == NumberOf(e, quads, shape, p)
    {
      ObjectsSpellAlike(d, e, quads, shape, p);
    }
    hide DeclaredShapes, TextOf, NumberOf, ShapeTerms, IsRelationship;
    var shapes := Group(d, quads, Some(target), Some(path));
    assert shapes == Group(e, quads, Some(target), Some(path));
    forall p | p in SHAPE_PREDICATES
      ensures Texts(d, quads, shapes, p) == Texts(e, quads, shapes, p)
        && Numbers(d, quads, shapes, p) == Numbers(e, quads, shapes, p)
    {
    }
  }
}
