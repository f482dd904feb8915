/** The OWL 2 RL rules of one materialization round (reason.rs; the rules are those of OWL 2
    Profiles, section 4.3). Each is one INSERT ... SELECT over `a`, the triples asserted and
    inferred so far in any graph. */
module OwlRules {
  import opened Ids
  import Fixpoint

  datatype Rule =
    | EqSym | EqTrans | EqRepS | EqRepP | EqRepO
    | PrpDom | PrpRng | PrpFp | PrpIfp | PrpSymp | PrpTrp
    | PrpSpo1 | PrpEqp1 | PrpEqp2 | PrpInv1 | PrpInv2
    | CaxSco | CaxEqc1 | CaxEqc2 | ScmSco | ScmEqc1
    | ClsThing | ClsHv1 | ClsHv2 | ClsSvf1 | ClsSvf2 | ClsAvf
    | ClsInt1 | ClsInt2 | ClsUni | PrpSpo2

  /** The statements of a round, in order. */
  const ROUND := [
    EqSym, EqTrans, EqRepS, EqRepP, EqRepO,
    PrpDom, PrpRng, PrpFp, PrpIfp, PrpSymp, PrpTrp,
    PrpSpo1, PrpEqp1, PrpEqp2, PrpInv1, PrpInv2,
    CaxSco, CaxEqc1, CaxEqc2, ScmSco, ScmEqc1,
    ClsThing, ClsHv1, ClsHv2, ClsSvf1, ClsSvf2, ClsAvf,
    ClsInt1, ClsInt2, ClsUni, PrpSpo2
  ]

  // ------------------------------------------------------------------ RDF lists

  /** A cell of the list starting at `head`, and its item. */
  datatype Cell = Cell(head: Id, node: Id, item: Id)

  function FirstCells(a: set<Triple>): set<Cell> {
    set x | x in a && x.p == FIRST :: Cell(x.s, x.s, x.o)
  }

  function NextCells(a: set<Triple>, c: Cell): set<Cell> {
    set r, f | r in a && f in a && r.s == c.node && r.p == REST && f.s == r.o && f.p == FIRST :: Cell(c.head, r.o, f.o)
  }

  function NextCell(a: set<Triple>): Cell -> set<Cell> {
    (c: Cell) => NextCells(a, c)
  }

  function CellFrame(a: set<Triple>): set<Cell> {
    set x, y | x in a && y in a :: Cell(x.s, y.s, y.o)
  }

  lemma CellFrameHolds(a: set<Triple>)
    ensures Fixpoint.Bounded(FirstCells(a), NextCell(a), CellFrame(a))
  {
    forall c | c in CellFrame(a)
      ensures NextCells(a, c) <= CellFrame(a)
    {
      var x, y :| x in a && y in a && c == Cell(x.s, y.s, y.o);
      forall n | n in NextCells(a, c)
        ensures n in CellFrame(a)
      {
        var r, f :| r in a && f in a && f.s == r.o && n == Cell(c.head, r.o, f.o);
        assert n == Cell(x.s, f.s, f.o);
      }
    }
  }

  /** `l(head, node, item)`: the members of every list, through rdf:first and rdf:rest. */
  function Cells(a: set<Triple>): set<Cell> {
    CellFrameHolds(a);
    Fixpoint.Least(FirstCells(a), NextCell(a), CellFrame(a))
  }

  /** The members of the lists that `property` gives to `class_`. */
  function Items(a: set<Triple>, class_: Id, property: Id): set<Id> {
    set x, c | x in a && c in Cells(a) && x.p == property && x.s == class_ && c.head == x.o :: c.item
  }

  // ------------------------------------------------------------------ property chains

  /** The `i`-th property of the chain of `chain` (counting from 1). */
  datatype Place = Place(head: Id, node: Id, i: nat)

  function FirstPlaces(a: set<Triple>): set<Place> {
    set x | x in a && x.p == FIRST :: Place(x.s, x.s, 1)
  }

  /** The counter stops at the number of triples, past every place of a list without a cycle. */
  function NextPlaces(a: set<Triple>, c: Place): set<Place> {
    if c.i > |a| then {} else
    set r | r in a && r.s == c.node && r.p == REST && r.o != NIL :: Place(c.head, r.o, c.i + 1)
  }

  function NextPlace(a: set<Triple>): Place -> set<Place> {
    (c: Place) => NextPlaces(a, c)
  }

  function Nodes(a: set<Triple>): set<Id> {
    (set x | x in a :: x.s) + (set x | x in a :: x.o)
  }

  function PlaceFrame(a: set<Triple>): set<Place> {
    set h, n, i: nat | h in Nodes(a) && n in Nodes(a) && i <= |a| + 1 :: Place(h, n, i)
  }

  lemma PlaceFrameHolds(a: set<Triple>)
    ensures Fixpoint.Bounded(FirstPlaces(a), NextPlace(a), PlaceFrame(a))
  {
    forall x | x in a
      ensures |a| >= 1
    {
      assert a != {};
    }
  }

  /** `ix(head, node, i)`. */
  function Places(a: set<Triple>): set<Place> {
    PlaceFrameHolds(a);
    Fixpoint.Least(FirstPlaces(a), NextPlace(a), PlaceFrame(a))
  }

  /** `steps(chain, i, prop)`: the `i`-th property of a chain. */
  datatype Step = Step(chain: Id, i: nat, property: Id)

  function Steps(a: set<Triple>): set<Step> {
    set x, c, f | x in a && c in Places(a) && f in a && x.p == CHAIN && c.head == x.o && f.s == c.node && f.p == FIRST
      :: Step(x.s, c.i, f.o)
  }

  /** `w(chain, start, i, cur)`: from `start`, the first `i` properties of the chain lead to `cur`. */
  datatype Trail = Trail(chain: Id, start: Id, i: nat, cur: Id)

  function FirstTrails(a: set<Triple>, steps: set<Step>): set<Trail> {
    set st, t | st in steps && t in a && st.i == 1 && t.p == st.property :: Trail(st.chain, t.s, 1, t.o)
  }

  function NextTrails(a: set<Triple>, steps: set<Step>, w: Trail): set<Trail> {
    set st, t | st in steps && t in a && st.chain == w.chain && st.i == w.i + 1 && t.s == w.cur && t.p == st.property
      :: Trail(w.chain, w.start, w.i + 1, t.o)
  }

  function NextTrail(a: set<Triple>, steps: set<Step>): Trail -> set<Trail> {
    (w: Trail) => NextTrails(a, steps, w)
  }

  function TrailFrame(a: set<Triple>, steps: set<Step>): set<Trail> {
    set st, x, y | st in steps && x in a && y in a :: Trail(st.chain, x.s, st.i, y.o)
  }

  lemma TrailFrameHolds(a: set<Triple>, steps: set<Step>)
    ensures Fixpoint.Bounded(FirstTrails(a, steps), NextTrail(a, steps), TrailFrame(a, steps))
  {
    forall w | w in TrailFrame(a, steps)
      ensures NextTrails(a, steps, w) <= TrailFrame(a, steps)
    {
      var st, x, y :| st in steps && x in a && y in a && w == Trail(st.chain, x.s, st.i, y.o);
      forall n | n in NextTrails(a, steps, w)
        ensures n in TrailFrame(a, steps)
      {
        var st', t :| st' in steps && t in a && st'.chain == w.chain && st'.i == w.i + 1
          && n == Trail(w.chain, w.start, w.i + 1, t.o);
        assert n == Trail(st'.chain, x.s, st'.i, t.o);
      }
    }
  }

  function Trails(a: set<Triple>): set<Trail> {
    var steps := Steps(a);
    TrailFrameHolds(a, steps);
    Fixpoint.Least(FirstTrails(a, steps), NextTrail(a, steps), TrailFrame(a, steps))
  }

  // ------------------------------------------------------------------ the rules

  function Equality(rule: Rule, a: set<Triple>): set<Triple> {
    match rule
    case EqSym => set x | x in a && x.p == SAME_AS :: Triple(x.o, SAME_AS, x.s)
    case EqTrans => set x, y | x in a && y in a && x.p == SAME_AS && y.s == x.o && y.p == SAME_AS ::
      Triple(x.s, SAME_AS, y.o)
    case EqRepS => set e, t | e in a && t in a && e.p == SAME_AS && t.s == e.s && NonLiteral(e.o) ::
      Triple(e.o, t.p, t.o)
    case EqRepP => set e, t | e in a && t in a && e.p == SAME_AS && t.p == e.s && e.o.Iri? :: Triple(t.s, e.o, t.o)
    case EqRepO => set e, t | e in a && t in a && e.p == SAME_AS && t.o == e.s :: Triple(t.s, t.p, e.o)
    case _ => {}
  }

  function Properties(rule: Rule, a: set<Triple>): set<Triple> {
    match rule
    case PrpDom => set d, t | d in a && t in a && d.p == DOMAIN && t.p == d.s :: Triple(t.s, TYPE, d.o)
    case PrpRng => set d, t | d in a && t in a && d.p == RANGE && t.p == d.s && NonLiteral(t.o) ::
      Triple(t.o, TYPE, d.o)
    case PrpFp =>
      set f, t, u | f in a && t in a && u in a && f.p == TYPE && f.o == FUNCTIONAL && t.p == f.s && u.p == f.s
                    && u.s == t.s && t.o != u.o && NonLiteral(t.o) && NonLiteral(u.o)
        :: Triple(t.o, SAME_AS, u.o)
    case PrpIfp =>
      set f, t, u | f in a && t in a && u in a && f.p == TYPE && f.o == INVERSE_FUNCTIONAL && t.p == f.s && u.p == f.s
                    && u.o == t.o && t.s != u.s
        :: Triple(t.s, SAME_AS, u.s)
    case PrpSymp =>
      set f, t | f in a && t in a && f.p == TYPE && f.o == SYMMETRIC && t.p == f.s && NonLiteral(t.o) ::
        Triple(t.o, t.p, t.s)
    case PrpTrp =>
      set f, t, u | f in a && t in a && u in a && f.p == TYPE && f.o == TRANSITIVE && t.p == f.s && u.p == f.s
        && u.s == t.o
        :: Triple(t.s, t.p, u.o)
    case PrpSpo1 => set x, t | x in a && t in a && x.p == SUB_PROPERTY_OF && t.p == x.s :: Triple(t.s, x.o, t.o)
    case PrpEqp1 => set x, t | x in a && t in a && x.p == EQUIVALENT_PROPERTY && t.p == x.s :: Triple(t.s, x.o, t.o)
    case PrpEqp2 => set x, t | x in a && t in a && x.p == EQUIVALENT_PROPERTY && t.p == x.o :: Triple(t.s, x.s, t.o)
    case PrpInv1 => set x, t | x in a && t in a && x.p == INVERSE_OF && t.p == x.s && NonLiteral(t.o) ::
      Triple(t.o, x.o, t.s)
    case PrpInv2 => set x, t | x in a && t in a && x.p == INVERSE_OF && t.p == x.o && NonLiteral(t.o) ::
      Triple(t.o, x.s, t.s)
    case PrpSpo2 =>
      set w | w in Trails(a) && (forall st | st in Steps(a) && st.chain == w.chain :: st.i <= w.i) ::
        Triple(w.start, w.chain, w.cur)
    case _ => {}
  }

  function ClassAxioms(rule: Rule, a: set<Triple>): set<Triple> {
    match rule
    case CaxSco => set x, t | x in a && t in a && x.p == SUB_CLASS_OF && t.p == TYPE && t.o == x.s ::
      Triple(t.s, TYPE, x.o)
    case CaxEqc1 => set x, t | x in a && t in a && x.p == EQUIVALENT_CLASS && t.p == TYPE && t.o == x.s ::
      Triple(t.s, TYPE, x.o)
    case CaxEqc2 => set x, t | x in a && t in a && x.p == EQUIVALENT_CLASS && t.p == TYPE && t.o == x.o ::
      Triple(t.s, TYPE, x.s)
    case ScmSco => set x, y | x in a && y in a && x.p == SUB_CLASS_OF && y.s == x.o && y.p == SUB_CLASS_OF ::
      Triple(x.s, SUB_CLASS_OF, y.o)
    case ScmEqc1 =>
      (set x | x in a && x.p == EQUIVALENT_CLASS :: Triple(x.s, SUB_CLASS_OF, x.o))
      + (set x | x in a && x.p == EQUIVALENT_CLASS :: Triple(x.o, SUB_CLASS_OF, x.s))
    case ClsThing =>
      (set x | x in a && NonLiteral(x.s) :: Triple(x.s, TYPE, THING))
        + {Triple(THING, TYPE, CLASS), Triple(NOTHING, TYPE, CLASS)}
    case _ => {}
  }

  /** (restriction, property): `owl:onProperty`. */
  function OnProperty(a: set<Triple>): set<Triple> {
    set x | x in a && x.p == ON_PROPERTY
  }

  function Restrictions(rule: Rule, a: set<Triple>): set<Triple> {
    match rule
    case ClsHv1 =>
      set v, on, t | v in a && on in OnProperty(a) && t in a && v.p == HAS_VALUE && on.s == v.s && t.p == TYPE
        && t.o == v.s
        :: Triple(t.s, on.o, v.o)
    case ClsHv2 =>
      set v, on, t | v in a && on in OnProperty(a) && t in a && v.p == HAS_VALUE && on.s == v.s && t.p == on.o
        && t.o == v.o
        :: Triple(t.s, TYPE, v.s)
    case ClsSvf1 =>
      set v, on, t | v in a && on in OnProperty(a) && t in a && v.p == SOME_VALUES && on.s == v.s && t.p == on.o
                     && Triple(t.o, TYPE, v.o) in a
        :: Triple(t.s, TYPE, v.s)
    case ClsSvf2 =>
      set v, on, t | v in a && on in OnProperty(a) && t in a && v.p == SOME_VALUES && on.s == v.s && t.p == on.o
        && v.o == THING
        :: Triple(t.s, TYPE, v.s)
    case ClsAvf =>
      set v, on, t | v in a && on in OnProperty(a) && t in a && v.p == ALL_VALUES && on.s == v.s && t.p == on.o
                     && Triple(t.s, TYPE, v.s) in a && NonLiteral(t.o)
        :: Triple(t.o, TYPE, v.o)
    case _ => {}
  }

  function Lists(rule: Rule, a: set<Triple>): set<Triple> {
    match rule
    case ClsInt1 =>
      // Grouped by class and subject: as many distinct members matched as the class has.
      set x, t | x in a && t in a && x.p == INTERSECTION && t.p == TYPE && t.o in Items(a, x.s, INTERSECTION)
                 && (forall i | i in Items(a, x.s, INTERSECTION) :: Triple(t.s, TYPE, i) in a)
        :: Triple(t.s, TYPE, x.s)
    case ClsInt2 =>
      set x, c, t | x in a && c in Cells(a) && t in a && x.p == INTERSECTION && c.head == x.o && t.p == TYPE
        && t.o == x.s
        :: Triple(t.s, TYPE, c.item)
    case ClsUni =>
      set x, c, t | x in a && c in Cells(a) && t in a && x.p == UNION && c.head == x.o && t.p == TYPE && t.o == c.item
        :: Triple(t.s, TYPE, x.s)
    case _ => {}
  }

  /** The rows a rule's SELECT returns. */
  function Conclusions(rule: Rule, a: set<Triple>): set<Triple> {
    Equality(rule, a) + Properties(rule, a) + ClassAxioms(rule, a) + Restrictions(rule, a) + Lists(rule, a)
  }

  // ------------------------------------------------------------------ monotone rules

  /** The rules that never withdraw a conclusion when triples are added: all but the list
      intersection, which wants every member matched, and the property chain, which wants the
      longest place. */
  predicate IsMonotone(rule: Rule) {
    !rule.ClsInt1? && !rule.PrpSpo2?
  }

  lemma CellsMono(a: set<Triple>, b: set<Triple>)
    requires a <= b
    ensures Cells(a) <= Cells(b)
  {
    CellFrameHolds(a);
    CellFrameHolds(b);
    Fixpoint.LeastIsClosed(FirstCells(b), NextCell(b), CellFrame(b));
    Fixpoint.LeastIsLeast(FirstCells(a), NextCell(a), CellFrame(a), Cells(b));
  }

  lemma RulesAreMonotone(rule: Rule, a: set<Triple>, b: set<Triple>)
    requires IsMonotone(rule) && a <= b
    ensures Conclusions(rule, a) <= Conclusions(rule, b)
  {
    hide Cells;
    CellsMono(a, b);
    assert OnProperty(a) <= OnProperty(b);
    EqualityMono(rule, a, b);
    PropertiesMono(rule, a, b);
    assert ClassAxioms(rule, a) <= ClassAxioms(rule, b);
    RestrictionsMono(rule, a, b);
    assert Lists(rule, a) <= Lists(rule, b);
  }

  lemma EqualityMono(rule: Rule, a: set<Triple>, b: set<Triple>)
    requires a <= b
    ensures Equality(rule, a) <= Equality(rule, b)
  {
  }

  lemma PropertiesMono(rule: Rule, a: set<Triple>, b: set<Triple>)
    requires IsMonotone(rule) && a <= b
    ensures Properties(rule, a) <= Properties(rule, b)
  {
  }

  lemma RestrictionsMono(rule: Rule, a: set<Triple>, b: set<Triple>)
    requires a <= b
    ensures Restrictions(rule, a) <= Restrictions(rule, b)
  {
  }
}
