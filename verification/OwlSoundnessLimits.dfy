/** Why the rules that read lists ask for proper ones: a property with two chains, and a list with
    more to it than is stored, have models in which what the rules conclude fails. */
module OwlSoundnessLimits {
  import opened Ids
  import opened OwlRules
  import opened OwlLists
  import opened OwlSemantics
  import opened OwlClosure

  // ------------------------------------------------------------------ models made of facts

  /** What holds by itself of equality, and of the classes of everything and nothing. */
  predicate Given(p: Id, x: Id, y: Id) {
    || (p == SAME_AS && x == y)
    || (p == TYPE && y == THING)
    || (p == TYPE && y == CLASS && x in {THING, NOTHING})
    || (p == SUB_CLASS_OF && x in {THING, NOTHING} && y in {THING, NOTHING} && !(x == THING && y == NOTHING))
    || (p == EQUIVALENT_CLASS && x == y && x in {THING, NOTHING})
  }

  predicate Holds(facts: set<Triple>, p: Id, x: Id, y: Id) {
    Triple(x, p, y) in facts || Given(p, x, y)
  }

  /** Every id denotes itself, and what is related is what the facts say. */
  function FactsModel(facts: set<Triple>): Interpretation<Id> {
    Interpretation((x: Id) => x, (p: Id, x: Id, y: Id) => Holds(facts, p, x, y))
  }

  /** Facts that say nothing with the vocabulary of the other semantic conditions. */
  predicate Modest(facts: set<Triple>) {
    forall t | t in facts ::
      && t.p !in {SAME_AS, DOMAIN, RANGE, SUB_PROPERTY_OF, EQUIVALENT_PROPERTY, INVERSE_OF, SUB_CLASS_OF,
                  EQUIVALENT_CLASS, HAS_VALUE, SOME_VALUES, ALL_VALUES, UNION}
      && (t.p == TYPE ==> t.o !in {THING, NOTHING, CLASS, FUNCTIONAL, INVERSE_FUNCTIONAL, SYMMETRIC, TRANSITIVE})
  }

  lemma ModestFactsModel(facts: set<Triple>)
    requires Modest(facts) && ListsMean(FactsModel(facts)) && ChainsMean(FactsModel(facts))
    ensures IsModel(FactsModel(facts)) && Satisfies(FactsModel(facts), facts)
  {
    hide ListsMean, ChainsMean, EqualityMeans, TypingMeans, PropertiesMean, PropertyAxiomsMean, RestrictionsMean,
         ClassAxiomsMean, Modest;
    EqualityOfFacts(facts);
    PropertiesOfFacts(facts);
    AxiomsOfFacts(facts);
    RestrictionsOfFacts(facts);
    ClassesOfFacts(facts);
  }

  lemma EqualityOfFacts(facts: set<Triple>)
    requires Modest(facts)
    ensures EqualityMeans(FactsModel(facts)) && TypingMeans(FactsModel(facts))
  {
  }

  lemma PropertiesOfFacts(facts: set<Triple>)
    requires Modest(facts)
    ensures PropertiesMean(FactsModel(facts))
  {
    var i := FactsModel(facts);
    forall p, x | p in {FUNCTIONAL, INVERSE_FUNCTIONAL, SYMMETRIC, TRANSITIVE}
      ensures !i.Instance(p, x)
    {
    }
  }

  lemma AxiomsOfFacts(facts: set<Triple>)
    requires Modest(facts)
    ensures PropertyAxiomsMean(FactsModel(facts))
  {
  }

  lemma RestrictionsOfFacts(facts: set<Triple>)
    requires Modest(facts)
    ensures RestrictionsMean(FactsModel(facts))
  {
  }

  lemma ClassesOfFacts(facts: set<Triple>)
    requires Modest(facts)
    ensures ClassAxiomsMean(FactsModel(facts))
  {
    var i := FactsModel(facts);
    assert forall x :: i.Instance(THING, x) && !i.Instance(NOTHING, x);
    assert forall c :: i.IsClass(c) <==> c in {THING, NOTHING};
    assert Includes(i, NOTHING, THING) && Includes(i, THING, THING) && Includes(i, NOTHING, NOTHING);
    assert !Includes(i, THING, NOTHING) by {
      assert i.Instance(THING, THING) && !i.Instance(NOTHING, THING);
    }
  }

  // ------------------------------------------------------------------ two chains for a property

  const P := Iri(OtherNs, 0)
  const Q1 := Iri(OtherNs, 1)
  const Q2 := Iri(OtherNs, 2)
  const R1 := Iri(OtherNs, 3)
  const R2 := Iri(OtherNs, 4)
  const X := Iri(OtherNs, 5)
  const Y := Iri(OtherNs, 6)
  const Z := Iri(OtherNs, 7)
  const L := Blank(0)
  const M := Blank(1)
  const K := Blank(2)
  const N := Blank(3)

  /** P is implied by Q1 then Q2, and by R1 then R2. */
  const TWO_CHAINS := {
    Triple(P, CHAIN, L), Triple(L, FIRST, Q1), Triple(L, REST, M), Triple(M, FIRST, Q2), Triple(M, REST, NIL),
    Triple(P, CHAIN, K), Triple(K, FIRST, R1), Triple(K, REST, N), Triple(N, FIRST, R2), Triple(N, REST, NIL),
    Triple(X, Q1, Y), Triple(Y, R2, Z)
  }

  const MIXED := Triple(X, P, Z)

  predicate IsItemOf(x: Id, y: Id) {
    (x == L && y == Q1) || (x == M && y == Q2) || (x == K && y == R1) || (x == N && y == R2)
  }

  predicate IsRestOf(x: Id, y: Id) {
    (x == L && y == M) || (x == M && y == NIL) || (x == K && y == N) || (x == N && y == NIL)
  }

  /** The facts about lists and steps. */
  lemma ReadTwoChains(t: Triple)
    requires t in TWO_CHAINS
    ensures t.p == CHAIN ==> t.s == P && (t.o == L || t.o == K)
    ensures t.p == FIRST ==> IsItemOf(t.s, t.o)
    ensures t.p == REST ==> IsRestOf(t.s, t.o)
    ensures t.p !in {Q2, R1, INTERSECTION, UNION}
  {
  }

  lemma ThirdNode(a: set<Triple>, w: seq<Id>)
    requires IsChainPath(a, w) && |w| > 2
    ensures Triple(w[0], REST, w[1]) in a && Triple(w[1], REST, w[2]) in a && w[2] != NIL
  {
  }

  lemma TwoChainsEnd(a: set<Triple>)
    requires a == TWO_CHAINS
    ensures IsChainLength(a, P, 2)
  {
    forall t | t in a
      ensures t.p == REST ==> IsRestOf(t.s, t.o)
      ensures t.p == CHAIN ==> t.o == L || t.o == K
    {
      ReadTwoChains(t);
    }
    hide TWO_CHAINS;
    forall j: nat, q | IsStep(a, P, j, q)
      ensures j <= 2
    {
      var w :| IsChainPath(a, w) && |w| == j && Triple(P, CHAIN, w[0]) in a && Triple(w[j - 1], FIRST, q) in a;
      if j > 2 {
        ThirdNode(a, w);
      }
    }
  }

  lemma TwoChainsHave(a: set<Triple>)
    requires a == TWO_CHAINS
    ensures Triple(P, CHAIN, L) in a && Triple(L, FIRST, Q1) in a && Triple(X, Q1, Y) in a
    ensures Triple(P, CHAIN, K) in a && Triple(K, FIRST, R1) in a && Triple(K, REST, N) in a
      && Triple(N, FIRST, R2) in a
    ensures Triple(Y, R2, Z) in a
  {
  }

  lemma HasItemBy(a: set<Triple>, t: Triple)
    requires t in a && t.p == FIRST
    ensures HasItem(a, t.s) && |a| >= 1
  {
  }

  lemma MixedIsConcluded()
    ensures MIXED in Properties(PrpSpo2, TWO_CHAINS)
  {
    hide TWO_CHAINS, IsChainLength, Properties;
    var a, nodes, one, two := TWO_CHAINS, [X, Y, Z], [L], [K, N];
    TwoChainsHave(a);
    HasItemBy(a, Triple(L, FIRST, Q1));
    HasItemBy(a, Triple(K, FIRST, R1));
    assert IsChainPath(a, one) && IsChainPath(a, two);
    assert IsStep(a, P, 1, Q1) && IsStep(a, P, 2, R2);
    assert StepTaken(a, P, 1, X, Y) && StepTaken(a, P, 2, Y, Z);
    assert FollowsChain(a, P, nodes);
    TwoChainsEnd(a);
    ChainConcludes(a, P, nodes);
  }

  lemma TwoChainsRelate(x: Id, y: Id)
    ensures var i := FactsModel(TWO_CHAINS);
      && (i.Related(CHAIN, x, y) ==> x == P && (y == L || y == K))
      && (i.Related(FIRST, x, y) ==> IsItemOf(x, y))
      && (i.Related(REST, x, y) ==> IsRestOf(x, y))
      && !i.Related(Q2, x, y) && !i.Related(R1, x, y) && !i.Related(INTERSECTION, x, y) && !i.Related(UNION, x, y)
  {
    hide TWO_CHAINS;
    forall p | Triple(x, p, y) in TWO_CHAINS
      ensures p == CHAIN ==> x == P && (y == L || y == K)
      ensures p == FIRST ==> IsItemOf(x, y)
      ensures p == REST ==> IsRestOf(x, y)
      ensures p !in {Q2, R1, INTERSECTION, UNION}
    {
      ReadTwoChains(Triple(x, p, y));
    }
  }

  lemma TwoChainsAreModest()
    ensures Modest(TWO_CHAINS) && MIXED !in TWO_CHAINS
  {
  }

  lemma TwoChainsModel()
    ensures IsModel(FactsModel(TWO_CHAINS)) && Satisfies(FactsModel(TWO_CHAINS), TWO_CHAINS)
    ensures !FactsModel(TWO_CHAINS).Says(MIXED)
  {
    hide TWO_CHAINS, Modest, IsModel, ChainsMean;
    var i := FactsModel(TWO_CHAINS);
    TwoChainsAreModest();
    forall x, y
      ensures i.Related(CHAIN, x, y) ==> y == L || y == K
      ensures i.Related(FIRST, x, y) ==> IsItemOf(x, y)
      ensures i.Related(REST, x, y) ==> IsRestOf(x, y)
      ensures !i.Related(Q2, x, y) && !i.Related(R1, x, y) && !i.Related(INTERSECTION, x, y) && !i.Related(UNION, x, y)
    {
      TwoChainsRelate(x, y);
    }
    ChainsOfTwo(i);
    assert ListsMean(i);
    ModestFactsModel(TWO_CHAINS);
  }

  lemma NotFollowed(i: Interpretation<Id>, properties: seq<Id>, nodes: seq<Id>, k: nat)
    requires k < |properties| && forall x, y :: !i.Related(properties[k], x, y)
    ensures !Follows(i, properties, nodes)
  {
    if Follows(i, properties, nodes) {
      FollowsAt(i, properties, nodes, k);
    }
  }

  lemma FollowsAt(i: Interpretation<Id>, properties: seq<Id>, nodes: seq<Id>, k: nat)
    requires Follows(i, properties, nodes) && k < |properties|
    ensures i.Related(properties[k], nodes[k], nodes[k + 1])
  {
  }

  /** No walk follows either chain. */
  lemma ChainsOfTwo(i: Interpretation<Id>)
    requires i.den(CHAIN) == CHAIN && i.den(FIRST) == FIRST && i.den(REST) == REST && i.den(NIL) == NIL
    requires forall x, y | i.Related(CHAIN, x, y) :: y == L || y == K
    requires forall x, y | i.Related(FIRST, x, y) ::
      IsItemOf(x, y)
    requires forall x, y | i.Related(REST, x, y) ::
      IsRestOf(x, y)
    requires forall x, y :: !i.Related(Q2, x, y) && !i.Related(R1, x, y)
    ensures ChainsMean(i)
  {
    forall p, list, properties, nodes: seq<Id> |
      i.Related(CHAIN, p, list) && IsSequence(i, list, properties) && properties != []
      ensures !Follows(i, properties, nodes)
    {
      var rest :| i.Related(REST, list, rest) && IsSequence(i, rest, properties[1..]);
      if list == L {
        assert |properties| > 1 && properties[1] == properties[1..][0] == Q2;
        NotFollowed(i, properties, nodes, 1);
      } else {
        assert properties[0] == R1;
        NotFollowed(i, properties, nodes, 0);
      }
    }
  }

  /** With two chains for a property, `prp-spo2` takes the first step of one and the second of the
      other, and concludes what neither chain gives. */
  lemma ChainsAreMixed()
    ensures MIXED in Conclusions(PrpSpo2, TWO_CHAINS)
    ensures IsModel(FactsModel(TWO_CHAINS)) && Satisfies(FactsModel(TWO_CHAINS), TWO_CHAINS)
    ensures !FactsModel(TWO_CHAINS).Says(MIXED)
  {
    hide Properties, IsModel, Satisfies;
    MixedIsConcluded();
    TwoChainsModel();
    GroupsConclude(PrpSpo2, TWO_CHAINS);
  }

  // ------------------------------------------------------------------ a list that goes on

  const C := Iri(OtherNs, 8)
  const A := Iri(OtherNs, 9)
  const B := Iri(OtherNs, 10)

  /** C is the intersection of a list of which only the first item is stored, and X is an A. */
  const PART := {Triple(C, INTERSECTION, L), Triple(L, FIRST, A), Triple(X, TYPE, A)}

  /** The list goes on with B, and X is none. */
  const WHOLE := PART + {Triple(L, REST, M), Triple(M, FIRST, B), Triple(M, REST, NIL)}

  const EARLY := Triple(X, TYPE, C)

  lemma EarlyIsConcluded()
    ensures EARLY in Lists(ClsInt1, PART)
  {
    var path := [L];
    assert HasItem(PART, L) by {
      var t := Triple(L, FIRST, A);
      assert t in PART;
    }
    assert IsListPath(PART, path) && IsMember(PART, L, A);
    assert IsPartOf(PART, C, A);
    ItemsArePartsOf(PART, C, A);
    assert forall t | t in PART :: t.p != REST;
    forall m | m in Items(PART, C, INTERSECTION)
      ensures Triple(X, TYPE, m) in PART
    {
      ItemsArePartsOf(PART, C, m);
      var list :| Triple(C, INTERSECTION, list) in PART && IsMember(PART, list, m);
      var w :| IsListPath(PART, w) && w[0] == list && Triple(w[|w| - 1], FIRST, m) in PART;
      assert |w| > 1 ==> Triple(w[0], REST, w[1]) in PART;
    }
    hide Items, Lists;
    IntersectionConcludes(PART, Triple(C, INTERSECTION, L), Triple(X, TYPE, A));
  }

  lemma ReadWhole(t: Triple)
    requires t in WHOLE
    ensures t.p == INTERSECTION ==> t.s == C && t.o == L
    ensures t.p == FIRST ==> (t.s == L && t.o == A) || (t.s == M && t.o == B)
    ensures t.p == REST ==> (t.s == L && t.o == M) || (t.s == M && t.o == NIL)
    ensures t.p != CHAIN && t.p != UNION && (t.p == TYPE ==> t.o != B && t.o != C)
  {
  }

  lemma WholeRelates(x: Id, y: Id)
    ensures var i := FactsModel(WHOLE);
      && (i.Related(INTERSECTION, x, y) ==> x == C && y == L)
      && (i.Related(FIRST, x, y) ==> (x == L && y == A) || (x == M && y == B))
      && (i.Related(REST, x, y) ==> (x == L && y == M) || (x == M && y == NIL))
      && !i.Related(CHAIN, x, y) && !i.Related(UNION, x, y) && !i.Related(TYPE, x, B) && !i.Related(TYPE, x, C)
  {
    hide WHOLE;
    forall p, o | Triple(x, p, o) in WHOLE
      ensures p == INTERSECTION ==> x == C && o == L
      ensures p == FIRST ==> (x == L && o == A) || (x == M && o == B)
      ensures p == REST ==> (x == L && o == M) || (x == M && o == NIL)
      ensures p != CHAIN && p != UNION && (p == TYPE ==> o != B && o != C)
    {
      ReadWhole(Triple(x, p, o));
    }
  }

  lemma WholeIsModest()
    ensures Modest(WHOLE) && PART <= WHOLE
  {
  }

  lemma ListOfWhole(i: Interpretation<Id>)
    requires i.den(INTERSECTION) == INTERSECTION && i.den(UNION) == UNION && i.den(TYPE) == TYPE
    requires i.den(FIRST) == FIRST && i.den(REST) == REST && i.den(NIL) == NIL
    requires forall x, y :: (i.Related(INTERSECTION, x, y) ==> x == C && y == L) && !i.Related(UNION, x, y)
    requires forall x, y | i.Related(FIRST, x, y) :: (x == L && y == A) || (x == M && y == B)
    requires forall x, y | i.Related(REST, x, y) :: (x == L && y == M) || (x == M && y == NIL)
    requires forall x :: !i.Related(TYPE, x, B) && !i.Related(TYPE, x, C)
    ensures ListsMean(i)
  {
    forall c, list, items, x | i.Related(INTERSECTION, c, list) && IsSequence(i, list, items)
      ensures i.Instance(c, x) <==> InAll(i, items, x)
    {
      assert items != [];
      var rest :| i.Related(REST, list, rest) && IsSequence(i, rest, items[1..]);
      assert |items| > 1 && items[1..][0] == B;
      assert !i.Instance(items[1], x);
    }
  }

  /** When a list has more to it than is stored, `cls-int1` concludes too much. */
  lemma PartialListsMislead()
    ensures EARLY in Conclusions(ClsInt1, PART)
    ensures IsModel(FactsModel(WHOLE)) && Satisfies(FactsModel(WHOLE), PART) && !FactsModel(WHOLE).Says(EARLY)
  {
    EarlyIsConcluded();
    GroupsConclude(ClsInt1, PART);
    hide WHOLE, PART, Modest, IsModel, ListsMean, Conclusions, Lists;
    var i := FactsModel(WHOLE);
    WholeIsModest();
    forall x, y
      ensures i.Related(INTERSECTION, x, y) ==> x == C && y == L
      ensures i.Related(FIRST, x, y) ==> (x == L && y == A) || (x == M && y == B)
      ensures i.Related(REST, x, y) ==> (x == L && y == M) || (x == M && y == NIL)
      ensures !i.Related(CHAIN, x, y) && !i.Related(UNION, x, y)
    {
      WholeRelates(x, y);
    }
    forall x
      ensures !i.Related(TYPE, x, B) && !i.Related(TYPE, x, C)
    {
      WholeRelates(x, B);
    }
    ListOfWhole(i);
    assert ChainsMean(i);
    ModestFactsModel(WHOLE);
  }
}
