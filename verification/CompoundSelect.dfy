/** `UNION ALL` of many SELECTs under a limit on the terms of one compound (sql.rs). */
module CompoundSelect {

  /** A term of a compound: a SELECT, or `SELECT * FROM` a compound of its own. */
  datatype Select = Leaf(sql: string) | Nested(terms: seq<Select>)

  /** The SELECTs of a term, in the order their rows come. */
  function Flatten(s: Select): seq<string> {
    match s
    case Leaf(sql) => [sql]
    case Nested(terms) => FlattenAll(terms)
  }

  function FlattenAll(terms: seq<Select>): seq<string> {
    if terms == [] then [] else Flatten(terms[0]) + FlattenAll(terms[1..])
  }

  /** Every compound inside has at least two terms and at most `k`. */
  predicate Fits(s: Select, k: nat) {
    s.Nested? ==> 2 <= |s.terms| <= k && AllFit(s.terms, k)
  }

  predicate AllFit(terms: seq<Select>, k: nat) {
    forall i | 0 <= i < |terms| :: Fits(terms[i], k)
  }

  /** How deep compounds are nested. */
  function Height(s: Select): nat {
    if s.Leaf? then 0 else 1 + HeightAll(s.terms)
  }

  function HeightAll(terms: seq<Select>): nat {
    if terms == [] then 0
    else
      var first, rest := Height(terms[0]), HeightAll(terms[1..]);
      if first > rest then first else rest
  }

  function Power(k: nat, n: nat): nat {
    if n == 0 then 1 else k * Power(k, n - 1)
  }

  lemma {:induction false} FlattenConcat(a: seq<Select>, b: seq<Select>)
    ensures FlattenAll(a + b) == FlattenAll(a) + FlattenAll(b)
    decreases |a|
  {
    if a == [] {
      assert a + b == b;
    } else {
      assert (a + b)[1..] == a[1..] + b;
      FlattenConcat(a[1..], b);
    }
  }

  lemma {:induction false} HeightIsMost(terms: seq<Select>, h: nat)
    ensures HeightAll(terms) <= h <==> forall i | 0 <= i < |terms| :: Height(terms[i]) <= h
    decreases |terms|
  {
    if terms != [] {
      HeightIsMost(terms[1..], h);
      assert forall i | 0 < i < |terms| :: terms[i] == terms[1..][i - 1];
    }
  }

  predicate IsWhole(i: nat, groups: nat, k: nat) {
    i == groups * k
  }

  /** How many chunks `n` terms make. */
  function Rounded(n: nat, k: nat): nat
    requires k > 0
  {
    (n + k - 1) / k
  }

  function GroupOf(chunk: seq<Select>): Select
    requires chunk != []
  {
    if |chunk| == 1 then chunk[0] else Nested(chunk)
  }

  lemma GroupIsFine(chunk: seq<Select>, k: nat, height: nat)
    requires 0 < |chunk| <= k && AllFit(chunk, k) && forall j | 0 <= j < |chunk| :: Height(chunk[j]) <= height
    ensures Fits(GroupOf(chunk), k) && FlattenAll([GroupOf(chunk)]) == FlattenAll(chunk)
      && Height(GroupOf(chunk)) <= height + 1
  {
    HeightIsMost(chunk, height);
    assert [GroupOf(chunk)][1..] == [];
    assert [chunk[0]] + chunk[1..] == chunk;
  }

  lemma NothingIsWhole(k: nat)
    requires k >= 2
    ensures IsWhole(0, 0, k) && Rounded(0, k) == 0
  {
  }

  lemma NothingFlattens()
    ensures FlattenAll([]) == []
  {
  }

  /** One pass: chunks of `k`, each a nested compound; a last chunk of one term stays itself. */
  method Group(terms: seq<Select>, k: nat) returns (groups: seq<Select>)
    requires k >= 2 && AllFit(terms, k)
    ensures AllFit(groups, k) && FlattenAll(groups) == FlattenAll(terms)
    ensures |groups| == Rounded(|terms|, k)
    ensures HeightAll(groups) <= HeightAll(terms) + 1
  {
    groups := [];
    hide Flatten, FlattenAll, Height, HeightAll, Fits, GroupOf, IsWhole, Rounded;
    NothingIsWhole(k);
    var i := 0;
    ghost var height := HeightAll(terms);
    NothingFlattens();
    HeightIsMost(terms, height);
    while i < |terms|
      invariant 0 <= i <= |terms| && AllFit(groups, k)
      invariant FlattenAll(groups) == FlattenAll(terms[..i])
      invariant i < |terms| ==> IsWhole(i, |groups|, k)
      invariant i == |terms| ==> |groups| == Rounded(|terms|, k)
      invariant forall j | 0 <= j < |groups| :: Height(groups[j]) <= height + 1
    {
      var end := if i + k <= |terms| then i + k else |terms|;
      var chunk := terms[i..end];
      var group := GroupOf(chunk);
      assert forall j | 0 <= j < |chunk| :: chunk[j] == terms[i + j];
      GroupIsFine(chunk, k, height);
      FlattenConcat(groups, [group]);
      FlattenConcat(terms[..i], chunk);
      assert terms[..i] + chunk == terms[..end];
      GroupCount(i, |groups|, k, end, |terms|);
      groups := groups + [group];
      i := end;
    }
    assert terms[..i] == terms;
    HeightIsMost(groups, height + 1);
  }

  /** Whole chunks so far, and the count at the end. */
  lemma GroupCount(i: nat, groups: nat, k: nat, end: nat, n: nat)
    requires k >= 2 && i < n && IsWhole(i, groups, k) && end == if i + k <= n then i + k else n
    ensures end < n ==> IsWhole(end, groups + 1, k)
    ensures end == n ==> groups + 1 == Rounded(n, k)
  {
    if end == n {
      Quotient(groups + 1, k, n - i - 1);
    }
  }

  lemma Quotient(q: nat, k: nat, r: nat)
    requires r < k
    ensures (q * k + r) / k == q
  {
    var x := q * k + r;
    var d := x / k;
    assert d * k + x % k == x;
    if d < q {
      Ordered(d + 1, q, k);
    } else if d > q {
      Ordered(q + 1, d, k);
    }
  }

  lemma Ordered(a: nat, b: nat, k: nat)
    requires a <= b
    ensures a * k <= b * k
  {
  }

  /** `union_all`: no compound has more than `max(limit, 2)` terms, the SELECTs come in order, and
      the nesting is no deeper than the terms demand. */
  method UnionAll(parts: seq<string>, maxTerms: nat) returns (compound: seq<Select>)
    ensures var k := if maxTerms < 2 then 2 else maxTerms;
      && |compound| <= k && AllFit(compound, k) && FlattenAll(compound) == parts
      && (|parts| > k ==> Power(k, HeightAll(compound)) < |parts|)
      && (|parts| <= k ==> HeightAll(compound) == 0)
  {
    var k := if maxTerms < 2 then 2 else maxTerms;
    compound := seq(|parts|, i requires 0 <= i < |parts| => Leaf(parts[i]));
    hide Flatten, FlattenAll, Height, HeightAll, Fits, IsBounded, Rounded, Power;
    LeavesFlatten(parts, compound);
    StartsBounded(k, |parts|);
    ghost var passes, leaves := 0, compound;
    while |compound| > k
      invariant AllFit(compound, k) && FlattenAll(compound) == parts && HeightAll(compound) <= passes
      invariant |parts| > 0 ==> IsBounded(k, passes, |compound|, |parts|)
      invariant if |parts| > k then |compound| >= 2 else passes == 0 && compound == leaves
      decreases |compound|
    {
      ghost var n := |compound|;
      compound := Group(compound, k);
      FewerGroups(n, k, |compound|);
      OnePass(k, passes, n, |compound|, |parts|);
      passes := passes + 1;
    }
    if |parts| > k {
      ShallowEnough(k, HeightAll(compound), passes, |compound|, |parts|);
    }
  }

  lemma StartsBounded(k: nat, n: nat)
    ensures n > 0 ==> IsBounded(k, 0, n, n)
  {
  }

  /** After so many passes, so many terms at most. */
  predicate IsBounded(k: nat, passes: nat, terms: nat, total: nat) {
    Power(k, passes) * (terms - 1) <= total - 1
  }

  /** A pass divides what is left by `k`. */
  lemma OnePass(k: nat, passes: nat, n: nat, groups: nat, total: nat)
    requires 2 <= groups && k * (groups - 1) < n && IsBounded(k, passes, n, total)
    ensures IsBounded(k, passes + 1, groups, total)
  {
    var p, g := Power(k, passes), groups - 1;
    Associates(k, p, g);
    Ordered2(k * g, n - 1, p);
  }

  lemma Associates(k: nat, p: nat, g: nat)
    ensures k * p * g == p * (k * g)
  {
  }

  lemma Ordered2(a: nat, b: nat, p: nat)
    requires a <= b
    ensures p * a <= p * b
  {
  }

  lemma ShallowEnough(k: nat, height: nat, passes: nat, terms: nat, total: nat)
    requires k >= 1 && height <= passes && terms >= 2 && IsBounded(k, passes, terms, total)
    ensures Power(k, height) < total
  {
    PowerGrows(k, height, passes);
    Ordered2(1, terms - 1, Power(k, passes));
  }

  lemma {:induction false} PowerGrows(k: nat, a: nat, b: nat)
    requires k >= 1 && a <= b
    ensures 1 <= Power(k, a) <= Power(k, b)
    decreases b
  {
    if a < b {
      PowerGrows(k, a, b - 1);
      Ordered(1, k, Power(k, b - 1));
    } else if a > 0 {
      PowerGrows(k, a - 1, b - 1);
      Ordered(1, k, Power(k, a - 1));
    }
  }

  lemma {:induction false} LeavesFlatten(parts: seq<string>, leaves: seq<Select>)
    requires |leaves| == |parts| && forall i | 0 <= i < |parts| :: leaves[i] == Leaf(parts[i])
    ensures FlattenAll(leaves) == parts && HeightAll(leaves) == 0 && forall k :: AllFit(leaves, k)
    decreases |parts|
  {
    if parts != [] {
      LeavesFlatten(parts[1..], leaves[1..]);
      assert [parts[0]] + parts[1..] == parts;
    }
  }

  /** Grouping makes progress. */
  lemma FewerGroups(n: nat, k: nat, groups: nat)
    requires k >= 2 && n > k && groups == Rounded(n, k)
    ensures 2 <= groups < n && k * (groups - 1) < n
  {
    var x := n + k - 1;
    assert x / k * k + x % k == x && x % k < k;
    assert groups * k <= x;
    assert k * (groups - 1) == groups * k - k;
    if groups < 2 {
      Ordered(groups, 1, k);
    }
    if groups >= n {
      Ordered(n, groups, k);
      Ordered(2, k, n);
    }
  }
}
