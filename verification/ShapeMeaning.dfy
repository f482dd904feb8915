/** What the rows of the shape index say, on the shapes' own triples (shapes.rs). */
module ShapeMeaning {
  import opened Ids
  import opened Registry
  import opened Registrations
  import opened Shapes
  import SortKeys

  // ------------------------------------------------------------------ shapes as triples

  /** Without any graph registered for shapes every data graph may hold them; then the registered
      and active ones do. */
  ghost predicate MayHoldShapes(quads: set<Quad>, g: Id) {
    if forall n :: !Says(quads, n, TYPE, SHAPES_GRAPH) then g != SCHEMA_GRAPH && g != VOCABULARY_GRAPH
    else exists n :: IsActiveAs(quads, n, SHAPES_GRAPH) && IsNodeOf(n, g)
  }

  ghost predicate Carries(quads: set<Quad>, s: Id, p: Id, o: Id) {
    exists g :: MayHoldShapes(quads, g) && Quad(s, p, o, g) in quads
  }

  /** A property shape of a node shape for this target, about this path. */
  ghost predicate IsShapeFor(d: Dictionary, quads: set<Quad>, target: string, path: string, shape: Id) {
    exists node, tt, pt ::
      && Carries(quads, node, SH_TARGET_CLASS, tt) && Carries(quads, node, SH_PROPERTY, shape)
      && Carries(quads, shape, SH_PATH, pt) && d.lex(tt) == Some(target) && d.lex(pt) == Some(path)
  }

  /** The SQL functions: a scalar subquery returns a row if there is one, MAX the greatest. */
  ghost predicate MeansSql(d: Dictionary) {
    && (forall s :: (d.first(s).None? <==> s == {}) && (d.first(s).Some? ==> d.first(s).value in s))
    && (forall s :: (d.maxNumber(s).None? <==> s == {})
          && (d.maxNumber(s).Some? ==> d.maxNumber(s).value in s && forall n | n in s :: n <= d.maxNumber(s).value))
    && (forall s :: (d.maxText(s).None? <==> s == {})
          && (d.maxText(s).Some? ==> d.maxText(s).value in s && forall x | x in s ::
            !SortKeys.Less(d.maxText(s).value, x)))
  }

  /** The count is one that a shape carries, and no shape with just one value carries a greater. */
  ghost predicate IsGreatestCount(d: Dictionary, quads: set<Quad>, row: ShapeRow, p: Id, count: Option<int>) {
    && (count.Some? ==> exists shape, o ::
          IsShapeFor(d, quads, row.target, row.path, shape) && Carries(quads, shape, p, o) && d.number(o) == count)
    && forall shape, o ::
         IsShapeFor(d, quads, row.target, row.path, shape) && IsOnlyValue(quads, shape, p, o) && d.number(o).Some?
         ==> count.Some? && d.number(o).value <= count.value
  }

  ghost predicate IsOnlyValue(quads: set<Quad>, shape: Id, p: Id, o: Id) {
    Carries(quads, shape, p, o) && forall other | Carries(quads, shape, p, other) :: other == o
  }

  /** Likewise for the texts of terms that have one. */
  ghost predicate IsGreatestText(d: Dictionary, quads: set<Quad>, row: ShapeRow, p: Id, text: Option<string>) {
    && (text.Some? ==> exists shape, o ::
          IsShapeFor(d, quads, row.target, row.path, shape) && Carries(quads, shape, p, o) && d.lex(o) == text)
    && forall shape, o ::
         IsShapeFor(d, quads, row.target, row.path, shape) && IsOnlyValue(quads, shape, p, o) && d.lex(o).Some?
         ==> text.Some? && !SortKeys.Less(text.value, d.lex(o).value)
  }

  ghost predicate HasRelationship(d: Dictionary, quads: set<Quad>, row: ShapeRow) {
    exists shape, o ::
      IsShapeFor(d, quads, row.target, row.path, shape)
        && (Carries(quads, shape, SH_CLASS, o) || Carries(quads, shape, SH_NODE, o))
  }

  /** What a row says of its target and path. */
  ghost predicate RowMeans(d: Dictionary, quads: set<Quad>, row: ShapeRow) {
    && IsGreatestCount(d, quads, row, SH_MIN_COUNT, row.min) && IsGreatestCount(d, quads, row, SH_MAX_COUNT, row.max)
    && IsGreatestText(d, quads, row, SH_DATATYPE, row.valueType)
    && IsGreatestText(d, quads, row, SH_PATTERN, row.pattern)
    && (row.relationship <==> HasRelationship(d, quads, row))
  }

  ghost predicate IsDeclared(d: Dictionary, quads: set<Quad>, target: string, path: string) {
    exists shape :: IsShapeFor(d, quads, target, path, shape)
  }

  /** One row for each target and path that a shape declares, and no other. */
  ghost predicate IndexMeans(d: Dictionary, quads: set<Quad>, index: set<ShapeRow>) {
    && (forall row | row in index :: RowMeans(d, quads, row))
    && (forall target, path ::
          IsDeclared(d, quads, target, path) <==>
          exists row :: row in index && row.target == target && row.path == path)
    && (forall one, two | one in index && two in index && one.target == two.target && one.path == two.path ::
      one == two)
  }

  // ------------------------------------------------------------------ the rebuilt index means that

  lemma ShapeGraphsOnTriples(quads: set<Quad>, n: Id)
    ensures n in ActiveNodes(quads, Role.Shacl) <==> IsActiveAs(quads, n, SHAPES_GRAPH)
    ensures RoleNodes(quads, Role.Shacl) == {} <==> forall k :: !Says(quads, k, TYPE, SHAPES_GRAPH)
  {
    hide ActiveNodes, IsActiveAs, RoleNodes, Says;
    ActiveOnTriples(quads, Role.Shacl, n);
    RegisteredOnTriples(quads, Role.Shacl);
    assert RoleClass(Role.Shacl) == SHAPES_GRAPH;
  }

  lemma GraphsOfShapes(quads: set<Quad>, g: Id)
    ensures InScope(quads, Role.Shacl, g) <==> MayHoldShapes(quads, g)
  {
    hide ActiveNodes, RoleNodes, IsActiveAs, GraphOf, IsNodeOf, Says;
    forall n
      ensures n in ActiveNodes(quads, Role.Shacl) <==> IsActiveAs(quads, n, SHAPES_GRAPH)
      ensures RoleNodes(quads, Role.Shacl) == {} <==> forall k :: !Says(quads, k, TYPE, SHAPES_GRAPH)
      ensures IsNodeOf(n, g) <==> GraphOf(n) == g
    {
      ShapeGraphsOnTriples(quads, n);
      NodesOfGraphs(n, g);
    }
    ShapeGraphsOnTriples(quads, g);
    ActiveMeansRegistered(quads);
    assert forall n | n in ActiveNodes(quads, Role.Shacl) :: RoleNodes(quads, Role.Shacl) != {};
  }

  lemma ActiveMeansRegistered(quads: set<Quad>)
    ensures forall n | n in ActiveNodes(quads, Role.Shacl) :: n in RoleNodes(quads, Role.Shacl)
  {
  }

  lemma CarriedTriples(quads: set<Quad>, s: Id, p: Id, o: Id)
    ensures Triple(s, p, o) in ShapeTriples(quads, p) <==> Carries(quads, s, p, o)
  {
    hide InScope, MayHoldShapes;
    forall g
      ensures InScope(quads, Role.Shacl, g) <==> MayHoldShapes(quads, g)
    {
      GraphsOfShapes(quads, g);
    }
    if Triple(s, p, o) in ShapeTriples(quads, p) {
      var q :| q in quads && q.p == p && InScope(quads, Role.Shacl, q.g) && Triple(s, p, o) == Triple(q.s, q.p, q.o);
      assert q == Quad(s, p, o, q.g);
    }
    if g :| MayHoldShapes(quads, g) && Quad(s, p, o, g) in quads {
      var q := Quad(s, p, o, g);
      assert q in quads && InScope(quads, Role.Shacl, q.g);
    }
  }

  lemma CarriedObjects(quads: set<Quad>, shape: Id, p: Id, o: Id)
    ensures o in Objects(quads, shape, p) <==> Carries(quads, shape, p, o)
  {
    hide ShapeTriples, Carries;
    CarriedTriples(quads, shape, p, o);
    if o in Objects(quads, shape, p) {
      var t :| t in ShapeTriples(quads, p) && t.s == shape && t.o == o;
      ShapeTriplesHave(quads, p);
      assert t == Triple(shape, p, o);
    }
    if Carries(quads, shape, p, o) {
      var t := Triple(shape, p, o);
      assert t in ShapeTriples(quads, p) && t.s == shape;
    }
  }

  lemma ShapeTriplesHave(quads: set<Quad>, p: Id)
    ensures forall t | t in ShapeTriples(quads, p) :: t.p == p
  {
  }

  lemma AllCarried(quads: set<Quad>, p: Id)
    ensures forall t | t in ShapeTriples(quads, p) :: t.p == p && Carries(quads, t.s, p, t.o)
  {
    hide ShapeTriples, Carries;
    ShapeTriplesHave(quads, p);
    forall t | t in ShapeTriples(quads, p)
      ensures Carries(quads, t.s, p, t.o)
    {
      assert t == Triple(t.s, p, t.o);
      CarriedTriples(quads, t.s, p, t.o);
    }
  }

  /** A property shape declared for these terms. */
  ghost predicate IsDeclaredShape(quads: set<Quad>, tt: Id, pt: Id, shape: Id) {
    exists node :: Carries(quads, node, SH_TARGET_CLASS, tt) && Carries(quads, node, SH_PROPERTY, shape)
      && Carries(quads, shape, SH_PATH, pt)
  }

  lemma DeclaredOnTriples(quads: set<Quad>, x: Declared)
    ensures x in DeclaredShapes(quads) <==> IsDeclaredShape(quads, x.target, x.path, x.shape)
  {
    hide ShapeTriples, Carries;
    if x in DeclaredShapes(quads) {
      var t, pr, pa :| t in ShapeTriples(quads, SH_TARGET_CLASS) && pr in ShapeTriples(quads, SH_PROPERTY)
        && pa in ShapeTriples(quads, SH_PATH) && pr.s == t.s && pa.s == pr.o && x == Declared(t.o, pr.o, pa.o);
      AllCarried(quads, SH_TARGET_CLASS);
      AllCarried(quads, SH_PROPERTY);
      AllCarried(quads, SH_PATH);
      assert Carries(quads, t.s, SH_TARGET_CLASS, x.target) && Carries(quads, t.s, SH_PROPERTY, x.shape);
    }
    if node :| Carries(quads, node, SH_TARGET_CLASS, x.target) && Carries(quads, node, SH_PROPERTY, x.shape)
               && Carries(quads, x.shape, SH_PATH, x.path) {
      CarriedTriples(quads, node, SH_TARGET_CLASS, x.target);
      CarriedTriples(quads, node, SH_PROPERTY, x.shape);
      CarriedTriples(quads, x.shape, SH_PATH, x.path);
      var t, pr, pa := Triple(node, SH_TARGET_CLASS, x.target), Triple(node, SH_PROPERTY, x.shape),
        Triple(x.shape, SH_PATH, x.path);
      assert Declared(t.o, pr.o, pa.o) in DeclaredShapes(quads);
    }
  }

  lemma GroupIsShapes(d: Dictionary, quads: set<Quad>, target: string, path: string, shape: Id)
    ensures shape in Group(d, quads, Some(target), Some(path)) <==> IsShapeFor(d, quads, target, path, shape)
  {
    hide DeclaredShapes, Carries;
    if shape in Group(d, quads, Some(target), Some(path)) {
      var x :| x in DeclaredShapes(quads) && d.lex(x.target) == Some(target) && d.lex(x.path) == Some(path)
        && x.shape == shape;
      DeclaredOnTriples(quads, x);
    }
    if IsShapeFor(d, quads, target, path, shape) {
      var node, tt, pt :| Carries(quads, node, SH_TARGET_CLASS, tt) && Carries(quads, node, SH_PROPERTY, shape)
        && Carries(quads, shape, SH_PATH, pt) && d.lex(tt) == Some(target) && d.lex(pt) == Some(path);
      var x := Declared(tt, shape, pt);
      DeclaredOnTriples(quads, x);
      assert x in DeclaredShapes(quads) && x.shape == shape && d.lex(x.target) == Some(target)
        && d.lex(x.path) == Some(path);
    }
  }

  lemma CountMeans(d: Dictionary, quads: set<Quad>, row: ShapeRow, p: Id)
    requires MeansSql(d)
    ensures IsGreatestCount(d, quads, row, p,
      d.maxNumber(Numbers(d, quads, Group(d, quads, Some(row.target), Some(row.path)), p)))
  {
    hide Group, Objects, IsShapeFor, Carries;
    var shapes := Group(d, quads, Some(row.target), Some(row.path));
    forall shape
      ensures shape in shapes <==> IsShapeFor(d, quads, row.target, row.path, shape)
    {
      GroupIsShapes(d, quads, row.target, row.path, shape);
    }
    forall shape, o
      ensures o in Objects(quads, shape, p) <==> Carries(quads, shape, p, o)
    {
      CarriedObjects(quads, shape, p, o);
    }
    var numbers := Numbers(d, quads, shapes, p);
    var count := d.maxNumber(numbers);
    if count.Some? {
      var shape :| shape in shapes && NumberOf(d, quads, shape, p).Some?
        && NumberOf(d, quads, shape, p).value == count.value;
      var o := d.first(Objects(quads, shape, p)).value;
      assert IsShapeFor(d, quads, row.target, row.path, shape) && Carries(quads, shape, p, o) && d.number(o) == count;
    }
    forall shape, o | IsShapeFor(d, quads, row.target, row.path, shape) && IsOnlyValue(quads, shape, p, o)
      && d.number(o).Some?
      ensures count.Some? && d.number(o).value <= count.value
    {
      assert Objects(quads, shape, p) == {o};
      assert NumberOf(d, quads, shape, p) == d.number(o);
      assert d.number(o).value in numbers;
    }
  }

  lemma TextMeans(d: Dictionary, quads: set<Quad>, row: ShapeRow, p: Id)
    requires MeansSql(d)
    ensures IsGreatestText(d, quads, row, p,
      d.maxText(Texts(d, quads, Group(d, quads, Some(row.target), Some(row.path)), p)))
  {
    hide Group, Objects, IsShapeFor, Carries, SortKeys.Less;
    var shapes := Group(d, quads, Some(row.target), Some(row.path));
    forall shape
      ensures shape in shapes <==> IsShapeFor(d, quads, row.target, row.path, shape)
    {
      GroupIsShapes(d, quads, row.target, row.path, shape);
    }
    forall shape, o
      ensures o in Objects(quads, shape, p) <==> Carries(quads, shape, p, o)
    {
      CarriedObjects(quads, shape, p, o);
    }
    var texts := Texts(d, quads, shapes, p);
    var text := d.maxText(texts);
    if text.Some? {
      var shape :| shape in shapes && TextOf(d, quads, shape, p).Some?
        && TextOf(d, quads, shape, p).value == text.value;
      var o := d.first(set o | o in Objects(quads, shape, p) && d.lex(o).Some?).value;
      assert IsShapeFor(d, quads, row.target, row.path, shape) && Carries(quads, shape, p, o) && d.lex(o) == text;
    }
    forall shape, o | IsShapeFor(d, quads, row.target, row.path, shape) && IsOnlyValue(quads, shape, p, o)
      && d.lex(o).Some?
      ensures text.Some? && !SortKeys.Less(text.value, d.lex(o).value)
    {
      assert (set o | o in Objects(quads, shape, p) && d.lex(o).Some?) == {o};
      assert TextOf(d, quads, shape, p) == d.lex(o);
      assert d.lex(o).value in texts;
    }
  }

  lemma RelationshipMeans(d: Dictionary, quads: set<Quad>, row: ShapeRow)
    ensures (exists x | x in Group(d, quads, Some(row.target), Some(row.path)) :: IsRelationship(quads, x))
      <==> HasRelationship(d, quads, row)
  {
    hide Group, Objects, IsShapeFor, Carries;
    forall shape
      ensures shape in Group(d, quads, Some(row.target), Some(row.path))
        <==> IsShapeFor(d, quads, row.target, row.path, shape)
    {
      GroupIsShapes(d, quads, row.target, row.path, shape);
    }
    forall shape, p, o
      ensures o in Objects(quads, shape, p) <==> Carries(quads, shape, p, o)
    {
      CarriedObjects(quads, shape, p, o);
    }
    if x :| x in Group(d, quads, Some(row.target), Some(row.path)) && IsRelationship(quads, x) {
      var o :| o in Objects(quads, x, SH_CLASS) + Objects(quads, x, SH_NODE);
      assert IsShapeFor(d, quads, row.target, row.path, x);
    }
    if shape, o :| IsShapeFor(d, quads, row.target, row.path, shape) &&
                   (Carries(quads, shape, SH_CLASS, o) || Carries(quads, shape, SH_NODE, o)) {
      assert o in Objects(quads, shape, SH_CLASS) + Objects(quads, shape, SH_NODE);
    }
  }

  lemma RowsAreDeclared(d: Dictionary, quads: set<Quad>, target: string, path: string)
    ensures IsDeclared(d, quads, target, path) <==> MergedRow(d, quads, target, path) in RebuiltIndex(d, quads)
  {
    hide Texts, Numbers, IsRelationship, IsShapeFor, DeclaredShapes;
    forall shape
      ensures shape in Group(d, quads, Some(target), Some(path)) <==> IsShapeFor(d, quads, target, path, shape)
    {
      GroupIsShapes(d, quads, target, path, shape);
    }
    if shape :| IsShapeFor(d, quads, target, path, shape) {
      var x :| x in DeclaredShapes(quads) && d.lex(x.target) == Some(target) && d.lex(x.path) == Some(path)
        && x.shape == shape;
      assert MergedRow(d, quads, d.lex(x.target).value, d.lex(x.path).value) in RebuiltIndex(d, quads);
    }
    if MergedRow(d, quads, target, path) in RebuiltIndex(d, quads) {
      var x :| x in DeclaredShapes(quads) && d.lex(x.target).Some? && d.lex(x.path).Some?
        && MergedRow(d, quads, target, path) == MergedRow(d, quads, d.lex(x.target).value, d.lex(x.path).value);
      assert x.shape in Group(d, quads, Some(target), Some(path));
    }
  }

  /** The rebuilt index has one row for each target and path that shapes declare, and the row
      merges what they say, field by field. */
  lemma RebuiltIndexMeans(d: Dictionary, quads: set<Quad>)
    requires MeansSql(d)
    ensures IndexMeans(d, quads, RebuiltIndex(d, quads))
  {
    hide Group, Texts, Numbers, IsRelationship, IsShapeFor, DeclaredShapes, IsGreatestCount, IsGreatestText,
      HasRelationship,
         MeansSql;
    var index := RebuiltIndex(d, quads);
    forall row | row in index
      ensures row == MergedRow(d, quads, row.target, row.path) && RowMeans(d, quads, row)
    {
      var x :| x in DeclaredShapes(quads) && d.lex(x.target).Some? && d.lex(x.path).Some?
        && row == MergedRow(d, quads, d.lex(x.target).value, d.lex(x.path).value);
      CountMeans(d, quads, row, SH_MIN_COUNT);
      CountMeans(d, quads, row, SH_MAX_COUNT);
      TextMeans(d, quads, row, SH_DATATYPE);
      TextMeans(d, quads, row, SH_PATTERN);
      RelationshipMeans(d, quads, row);
    }
    forall target, path
      ensures IsDeclared(d, quads, target, path)
        <==> exists row :: row in index && row.target == target && row.path == path
    {
      RowsAreDeclared(d, quads, target, path);
      assert MergedRow(d, quads, target, path).target == target && MergedRow(d, quads, target, path).path == path;
    }
  }
}
