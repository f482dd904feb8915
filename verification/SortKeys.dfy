/** Sort keys of terms, and which terms they put in the right order (encoding.rs). */
module SortKeys {
  import opened Ids
  import opened Encoding

  /** The order of strings: by the first difference, a prefix before what it begins. */
  predicate Less(a: string, b: string) {
    if b == [] then false
    else if a == [] then true
    else if a[0] != b[0] then a[0] < b[0]
    else Less(a[1..], b[1..])
  }

  // ------------------------------------------------------------------ numbers

  /** A 64-bit floating-point number, by its bits. */
  datatype Double = Double(negative: bool, exponent: nat, mantissa: nat)

  function Pow2(n: nat): nat {
    if n == 0 then 1 else 2 * Pow2(n - 1)
  }

  const MANTISSAS: nat := 0x10_0000_0000_0000
  const SIGN: nat := 0x8000_0000_0000_0000

  /** The fields fit their 11 and 52 bits, and it is a number: finite or infinite. */
  predicate IsNumber(x: Double) {
    x.exponent < 2048 && x.mantissa < MANTISSAS && (x.exponent == 2047 ==> x.mantissa == 0)
  }

  type Number = x: Double | IsNumber(x) witness Double(false, 0, 0)

  /** The absolute value, in units of the least positive number, 2 to the power -1074; infinity
      counts as the power of two after the finite ones. */
  function Scaled(exponent: nat, mantissa: nat): nat {
    if exponent == 0 then mantissa else (MANTISSAS + mantissa) * Pow2(exponent - 1)
  }

  function Value(x: Double): int {
    var magnitude: int := Scaled(x.exponent, x.mantissa);
    if x.negative then -magnitude else magnitude
  }

  /** `to_bits`. */
  function Bits(x: Number): nat {
    (if x.negative then SIGN else 0) + x.exponent * MANTISSAS + x.mantissa
  }

  /** The bit transform: all bits flipped for a negative number, else the sign bit set. */
  function NumberKey(x: Number): (key: nat)
    ensures key < 2 * SIGN {
    if x.negative then 2 * SIGN - 1 - Bits(x) else Bits(x) + SIGN
  }

  lemma {:induction false} PowersArePositive(n: nat)
    ensures Pow2(n) >= 1
  {
    if n > 0 {
      PowersArePositive(n - 1);
    }
  }

  lemma {:induction false} PowersGrow(a: nat, b: nat)
    requires a <= b
    ensures Pow2(a) <= Pow2(b)
  {
    if a < b {
      PowersGrow(a, b - 1);
    }
  }

  lemma Product(a: nat, b: nat, k: nat)
    requires a < b && k >= 1
    ensures a * k < b * k
  {
  }

  lemma ProductLe(a: nat, b: nat, k: nat)
    requires a <= b
    ensures k * a <= k * b
  {
  }

  /** Exponent first, then mantissa: the order of absolute values. */
  lemma ScaledGrows(e: nat, m: nat, f: nat, n: nat)
    requires m < MANTISSAS && n < MANTISSAS && (e < f || (e == f && m < n))
    ensures Scaled(e, m) < Scaled(f, n)
  {
    if e == f {
      if e > 0 {
        PowersArePositive(e - 1);
        Product(MANTISSAS + m, MANTISSAS + n, Pow2(e - 1));
      }
    } else {
      BelowNext(e, m);
      PowersGrow(e, f - 1);
      ProductLe(Pow2(e), Pow2(f - 1), MANTISSAS);
      ProductLe(MANTISSAS, MANTISSAS + n, Pow2(f - 1));
    }
  }

  lemma BelowNext(e: nat, m: nat)
    requires m < MANTISSAS
    ensures Scaled(e, m) < MANTISSAS * Pow2(e)
  {
    if e > 0 {
      PowersArePositive(e - 1);
      Product(MANTISSAS + m, 2 * MANTISSAS, Pow2(e - 1));
      Doubled(MANTISSAS, Pow2(e - 1));
    }
  }

  lemma Doubled(a: nat, k: nat)
    ensures 2 * a * k == a * (2 * k)
  {
  }

  /** The bits of the absolute value are in its order. */
  lemma MagnitudeOrder(e: nat, m: nat, f: nat, n: nat)
    requires m < MANTISSAS && n < MANTISSAS
    ensures Scaled(e, m) < Scaled(f, n) <==> e * MANTISSAS + m < f * MANTISSAS + n
    ensures Scaled(e, m) == Scaled(f, n) <==> e == f && m == n
  {
    if e < f || (e == f && m < n) {
      ScaledGrows(e, m, f, n);
    } else if f < e || n < m {
      ScaledGrows(f, n, e, m);
    }
  }

  /** The bit transform orders numbers by value, with -0 just below +0. */
  lemma NumberKeysSort(x: Number, y: Number)
    ensures NumberKey(x) < NumberKey(y)
      <==> Value(x) < Value(y) || (Value(x) == 0 && Value(y) == 0 && x.negative && !y.negative)
  {
    hide Scaled;
    MagnitudeOrder(x.exponent, x.mantissa, y.exponent, y.mantissa);
    MagnitudeOrder(y.exponent, y.mantissa, x.exponent, x.mantissa);
    MagnitudeOrder(0, 0, x.exponent, x.mantissa);
    MagnitudeOrder(0, 0, y.exponent, y.mantissa);
    ZeroIsZero();
    assert x.exponent * MANTISSAS + x.mantissa < SIGN && y.exponent * MANTISSAS + y.mantissa < SIGN;
  }

  lemma ZeroIsZero()
    ensures Scaled(0, 0) == 0
  {
  }

  // ------------------------------------------------------------------ hexadecimal

  function HexDigit(n: nat): char
    requires n < 16
  {
    "0123456789abcdef"[n]
  }

  /** `n` in `k` lower-case hexadecimal digits. */
  function Hex(n: nat, k: nat): string {
    if k == 0 then [] else Hex(n / 16, k - 1) + [HexDigit(n % 16)]
  }

  function Pow16(k: nat): nat {
    if k == 0 then 1 else 16 * Pow16(k - 1)
  }

  /** Strings that begin alike compare by what follows. */
  lemma {:induction false} SameLengthOrder(a: string, b: string, x: string, y: string)
    requires |a| == |b|
    ensures Less(a + x, b + y) <==> Less(a, b) || (a == b && Less(x, y))
    decreases |a|
  {
    if a == [] {
      assert a + x == x && b + y == y;
    } else {
      assert (a + x)[1..] == a[1..] + x && (b + y)[1..] == b[1..] + y;
      SameLengthOrder(a[1..], b[1..], x, y);
      assert a == [a[0]] + a[1..] && b == [b[0]] + b[1..];
    }
  }

  lemma HexDigitsOrder(i: nat, j: nat)
    requires i < 16 && j < 16
    ensures Less([HexDigit(i)], [HexDigit(j)]) <==> i < j
    ensures HexDigit(i) == HexDigit(j) <==> i == j
  {
  }

  /** Fixed-width hexadecimal is in numeric order. */
  lemma {:induction false} HexOrder(n: nat, m: nat, k: nat)
    requires n < Pow16(k) && m < Pow16(k)
    ensures |Hex(n, k)| == |Hex(m, k)| == k
    ensures Less(Hex(n, k), Hex(m, k)) <==> n < m
    ensures Hex(n, k) == Hex(m, k) <==> n == m
  {
    if k > 0 {
      hide HexDigit, Less;
      HexOrder(n / 16, m / 16, k - 1);
      HexDigitsOrder(n % 16, m % 16);
      SameLengthOrder(Hex(n / 16, k - 1), Hex(m / 16, k - 1), [HexDigit(n % 16)], [HexDigit(m % 16)]);
      var a, b := Hex(n, k), Hex(m, k);
      assert a[..k - 1] == Hex(n / 16, k - 1) && b[..k - 1] == Hex(m / 16, k - 1);
      assert a[k - 1] == HexDigit(n % 16) && b[k - 1] == HexDigit(m % 16);
    }
  }

  // ------------------------------------------------------------------ keys

  const U1 := '\U{0001}'
  const U2 := '\U{0002}'

  const LANG_STRING := "http://www.w3.org/1999/02/22-rdf-syntax-ns#langString"
  const DIR_LANG_STRING := "http://www.w3.org/1999/02/22-rdf-syntax-ns#dirLangString"

  function DatatypeOf(l: Literal): string {
    match l
    case Simple(_) => XSD_STRING
    case Tagged(_, _) => LANG_STRING
    case Directed(_, _, _) => DIR_LANG_STRING
    case Typed(_, dt) => dt
  }

  /** The number a literal is sorted by, if it is numeric and has one. */
  type Numbers = Literal -> Option<Number>

  function IriKey(iri: string): string {
    "1" + iri
  }

  function SubjectKey(s: Subject): string {
    match s
    case IriSubject(iri) => IriKey(iri)
    case BlankSubject(name) => "0" + name
  }

  function SortKey(t: Term, numbers: Numbers): string {
    match t
    case BlankNode(name) => "0" + name
    case NamedNode(iri) => IriKey(iri)
    case LiteralTerm(l) =>
      if numbers(l).Some? then "2" + Hex(NumberKey(numbers(l).value), 16)
      else "3" + l.lex + [U1] + DatatypeOf(l)
    case TripleOf(s, p, o) => "4" + SubjectKey(s) + [U2] + IriKey(p) + [U2] + SortKey(o, numbers)
  }

  /** Blank nodes, IRIs, numbers, other literals, triple terms. */
  function Kind(t: Term, numbers: Numbers): nat {
    match t
    case BlankNode(_) => 0
    case NamedNode(_) => 1
    case LiteralTerm(l) => if numbers(l).Some? then 2 else 3
    case TripleOf(_, _, _) => 4
  }

  lemma KeysBeginWithKind(t: Term, numbers: Numbers)
    ensures SortKey(t, numbers) != [] && SortKey(t, numbers)[0] == ['0', '1', '2', '3', '4'][Kind(t, numbers)]
  {
    hide Hex, DatatypeOf, NumberKey;
  }

  /** The kinds come in their order. */
  lemma KindsSort(a: Term, b: Term, numbers: Numbers)
    requires Kind(a, numbers) < Kind(b, numbers)
    ensures Less(SortKey(a, numbers), SortKey(b, numbers))
  {
    hide SortKey;
    KeysBeginWithKind(a, numbers);
    KeysBeginWithKind(b, numbers);
  }

  lemma SixteenDigits()
    ensures Pow16(16) == 2 * SIGN
  {
    assert Pow16(4) == 0x10000;
    assert Pow16(8) == 0x10000 * Pow16(4);
    assert Pow16(12) == 0x10000 * Pow16(8);
    assert Pow16(16) == 0x10000 * Pow16(12);
  }

  /** Numbers are ordered by value. */
  lemma NumbersSort(a: Literal, b: Literal, numbers: Numbers)
    requires numbers(a).Some? && numbers(b).Some?
    ensures var x, y := numbers(a).value, numbers(b).value;
      Less(SortKey(LiteralTerm(a), numbers), SortKey(LiteralTerm(b), numbers))
      <==> Value(x) < Value(y) || (Value(x) == 0 && Value(y) == 0 && x.negative && !y.negative)
  {
    hide Hex, NumberKey, Value, Less;
    var x, y := numbers(a).value, numbers(b).value;
    NumberKeysSort(x, y);
    SixteenDigits();
    HexOrder(NumberKey(x), NumberKey(y), 16);
    SameLengthOrder("2", "2", Hex(NumberKey(x), 16), Hex(NumberKey(y), 16));
    NeverLess("2");
  }

  lemma {:induction false} NeverLess(a: string)
    ensures !Less(a, a)
    decreases |a|
  {
    if a != [] {
      NeverLess(a[1..]);
    }
  }

  /** No character up to this one. */
  predicate Above(s: string, c: char) {
    forall i | 0 <= i < |s| :: s[i] > c
  }

  /** A separator below every character of the first parts makes the order lexicographic. */
  lemma {:induction false} SeparatedOrder(a: string, b: string, c: char, x: string, y: string)
    requires Above(a, c) && Above(b, c)
    ensures Less(a + [c] + x, b + [c] + y) <==> Less(a, b) || (a == b && Less(x, y))
    decreases |a|
  {
    var left, right := a + [c] + x, b + [c] + y;
    if a != [] && b != [] {
      assert left[0] == a[0] && right[0] == b[0];
      assert left[1..] == a[1..] + [c] + x && right[1..] == b[1..] + [c] + y;
      SeparatedOrder(a[1..], b[1..], c, x, y);
      assert a == [a[0]] + a[1..] && b == [b[0]] + b[1..];
    } else {
      assert a == [] ==> left[0] == c && left[1..] == x;
      assert b == [] ==> right[0] == c && right[1..] == y;
      assert a != [] ==> left[0] == a[0];
      assert b != [] ==> right[0] == b[0];
    }
  }

  function SubjectText(s: Subject): string {
    match s
    case IriSubject(iri) => iri
    case BlankSubject(name) => name
  }

  predicate IsClean(t: Term) {
    t.TripleOf? ==> Above(SubjectText(t.s), U2) && Above(t.p, U2)
  }

  /** The first different part decides. */
  predicate TripleBefore(a: Term, b: Term, numbers: Numbers)
    requires a.TripleOf? && b.TripleOf?
  {
    var sa, sb, pa, pb := SubjectKey(a.s), SubjectKey(b.s), IriKey(a.p), IriKey(b.p);
    if sa != sb then Less(sa, sb)
    else if pa != pb then Less(pa, pb)
    else Less(SortKey(a.o, numbers), SortKey(b.o, numbers))
  }

  lemma TripleKeyIs(t: Term, numbers: Numbers)
    requires t.TripleOf?
    ensures SortKey(t, numbers) == "4" + (SubjectKey(t.s) + [U2] + (IriKey(t.p) + [U2] + SortKey(t.o, numbers)))
  {
    hide SubjectKey, IriKey;
  }

  lemma CleanKeys(t: Term)
    requires t.TripleOf? && IsClean(t)
    ensures Above(SubjectKey(t.s), U2) && Above(IriKey(t.p), U2)
  {
  }

  /** Triple terms are ordered by subject, then predicate, then object, at any depth. */
  lemma TriplesSort(a: Term, b: Term, numbers: Numbers)
    requires a.TripleOf? && b.TripleOf? && IsClean(a) && IsClean(b)
    ensures Less(SortKey(a, numbers), SortKey(b, numbers)) <==> TripleBefore(a, b, numbers)
  {
    hide Less, SortKey, SubjectKey, IriKey, Above, IsClean;
    var sa, sb, pa, pb, oa, ob := SubjectKey(a.s), SubjectKey(b.s), IriKey(a.p), IriKey(b.p), SortKey(a.o, numbers),
      SortKey(b.o, numbers);
    TripleKeyIs(a, numbers);
    TripleKeyIs(b, numbers);
    CleanKeys(a);
    CleanKeys(b);
    SameLengthOrder("4", "4", sa + [U2] + (pa + [U2] + oa), sb + [U2] + (pb + [U2] + ob));
    SeparatedOrder(sa, sb, U2, pa + [U2] + oa, pb + [U2] + ob);
    SeparatedOrder(pa, pb, U2, oa, ob);
    NeverLess("4");
    LessIsTotal(sa, sb);
    LessIsTotal(pa, pb);
  }

  /** The keys of two literals order them by lexical form, then datatype. */
  predicate SortsByText(a: Literal, b: Literal, numbers: Numbers) {
    Less(SortKey(LiteralTerm(a), numbers), SortKey(LiteralTerm(b), numbers))
    <==> Less(a.lex, b.lex) || (a.lex == b.lex && Less(DatatypeOf(a), DatatypeOf(b)))
  }

  /** Literals that are not numbers sort by lexical form, then datatype, if no lexical form has a
      character up to U+0001. */
  lemma OtherLiteralsSort(a: Literal, b: Literal, numbers: Numbers)
    requires numbers(a).None? && numbers(b).None? && Above(a.lex, U1) && Above(b.lex, U1)
    ensures SortsByText(a, b, numbers)
  {
    hide Less, DatatypeOf;
    var x, y := a.lex + [U1] + DatatypeOf(a), b.lex + [U1] + DatatypeOf(b);
    assert SortKey(LiteralTerm(a), numbers) == "3" + x && SortKey(LiteralTerm(b), numbers) == "3" + y;
    SameLengthOrder("3", "3", x, y);
    NeverLess("3");
    SeparatedOrder(a.lex, b.lex, U1, DatatypeOf(a), DatatypeOf(b));
  }

  // ------------------------------------------------------------------ texts with control characters

  /** The scheme of an IRI, or the end of one (section 3.1 of RFC 3986). */
  predicate HasScheme(s: string) {
    s != [] && (s[0] == ':' || (IsSchemeChar(s[0]) && HasScheme(s[1..])))
  }

  predicate IsSchemeChar(c: char) {
    'a' <= c <= 'z' || 'A' <= c <= 'Z' || '0' <= c <= '9' || c in "+-."
  }

  predicate IsAbsoluteIri(s: string) {
    HasScheme(s) && s[0] !in ":0123456789+-." && Above(s, ' ')
  }

  /** Whatever datatype an RDF literal can have. */
  predicate HasIriDatatype(l: Literal) {
    l.Typed? ==> IsAbsoluteIri(l.dt)
  }

  lemma {:induction false} SchemeEndsAt(s: string, k: nat)
    requires k < |s| && s[k] == ':' && forall i | 0 <= i < k :: IsSchemeChar(s[i])
    ensures HasScheme(s)
    decreases k
  {
    if k > 0 {
      SchemeEndsAt(s[1..], k - 1);
    }
  }

  lemma HttpIsScheme(s: string)
    requires |s| > 4 && s[0] == 'h' && s[1] == 't' && s[2] == 't' && s[3] == 'p' && s[4] == ':'
    ensures HasScheme(s)
  {
    SchemeEndsAt(s, 4);
  }

  lemma FixedDatatypes()
    ensures HasScheme(XSD_STRING) && HasScheme(LANG_STRING) && HasScheme(DIR_LANG_STRING)
  {
    hide HasScheme;
    HttpIsScheme(XSD_STRING);
    HttpIsScheme(LANG_STRING);
    HttpIsScheme(DIR_LANG_STRING);
  }

  /** The text comes after every scheme: its first character other than `z` is beyond `z`. */
  predicate PastSchemes(s: string) {
    s != [] && (s[0] > 'z' || (s[0] == 'z' && PastSchemes(s[1..])))
  }

  lemma {:induction false} SchemesStayBelow(d: string, s: string, t: string)
    requires HasScheme(d) && PastSchemes(s)
    ensures !Less(s + t, d)
    decreases |s|
  {
    assert (s + t)[0] == s[0] && (s + t)[1..] == s[1..] + t;
    if s[0] == 'z' && d[0] == 'z' {
      SchemesStayBelow(d[1..], s[1..], t);
    }
  }

  /** An IRI that comes after a text which is not past all schemes. */
  function LaterIri(s: string): string {
    if s != [] && s[0] == 'z' then "z" + LaterIri(s[1..]) else "z:"
  }

  lemma {:induction false} LaterIriIsLater(s: string, t: string)
    requires !PastSchemes(s)
    ensures IsAbsoluteIri(LaterIri(s)) && LaterIri(s)[0] == 'z' && Less(s + [U1] + t, LaterIri(s))
    decreases |s|
  {
    var text, later := s + [U1] + t, LaterIri(s);
    if s != [] && s[0] == 'z' {
      LaterIriIsLater(s[1..], t);
      assert text[0] == 'z' && text[1..] == s[1..] + [U1] + t;
      assert later[0] == 'z' && later[1..] == LaterIri(s[1..]);
    } else {
      assert text[0] == if s == [] then U1 else s[0];
      assert "z:"[1..] == ":";
    }
  }

  /** The numeric datatypes are `http` IRIs. */
  predicate KnowsNumbers(numbers: Numbers, l: Literal) {
    numbers(l).Some? ==> l.Typed? && l.dt != [] && l.dt[0] == 'h'
  }

  /** The first character up to `c` in a string that has one. */
  lemma {:induction false} FirstUpTo(s: string, c: char) returns (i: nat)
    requires !Above(s, c)
    ensures i < |s| && s[i] <= c && Above(s[..i], c)
    decreases |s|
  {
    var front := s[..|s| - 1];
    if Above(front, c) {
      i := |s| - 1;
    } else {
      i := FirstUpTo(front, c);
      assert front[..i] == s[..i];
    }
  }

  /** A proper prefix comes before, at any place. */
  lemma {:induction false} PrefixIsLess(a: string, b: string)
    requires b != []
    ensures Less(a, a + b) && !Less(a + b, a)
    decreases |a|
  {
    if a != [] {
      assert (a + b)[1..] == a[1..] + b;
      PrefixIsLess(a[1..], b);
    }
  }

  /** What follows a character up to `c` does not matter against a text without any, unless that
      text stops there. */
  lemma {:induction false} TailIsIdle(a: string, b: string, c: char, s: string)
    requires Above(a, c) && Above(b, c) && s != [] && s[0] <= c && a != b
    ensures Less(a + s, b) <==> Less(a, b)
    decreases |a|
  {
    if a == [] {
      assert a + s == s;
    } else if b != [] {
      assert (a + s)[0] == a[0] && (a + s)[1..] == a[1..] + s;
      if a[0] == b[0] {
        assert a == [a[0]] + a[1..] && b == [b[0]] + b[1..];
        TailIsIdle(a[1..], b[1..], c, s);
      }
    }
  }

  /** A literal with U+0001 in its text is misplaced only beside the literals that stop there and
      whose datatype comes after the rest of it. */
  lemma SeparatorInText(a: Literal, b: Literal, i: nat, numbers: Numbers)
    requires i < |a.lex| && a.lex[i] == U1 && Above(a.lex[..i], U1) && Above(b.lex, U1)
    requires numbers(a).None? && numbers(b).None?
    ensures SortsByText(a, b, numbers)
       <==> !(b.lex == a.lex[..i] && Less(a.lex[i + 1..] + [U1] + DatatypeOf(a), DatatypeOf(b)))
  {
    hide Less, DatatypeOf;
    var front, tail := a.lex[..i], a.lex[i + 1..];
    var x, y := front + [U1] + (tail + [U1] + DatatypeOf(a)), b.lex + [U1] + DatatypeOf(b);
    assert a.lex == front + ([U1] + tail);
    assert a.lex + [U1] + DatatypeOf(a) == x;
    assert SortKey(LiteralTerm(a), numbers) == "3" + x && SortKey(LiteralTerm(b), numbers) == "3" + y;
    SameLengthOrder("3", "3", x, y);
    NeverLess("3");
    SeparatedOrder(front, b.lex, U1, tail + [U1] + DatatypeOf(a), DatatypeOf(b));
    if b.lex == front {
      PrefixIsLess(front, [U1] + tail);
      NeverLess(front);
    } else {
      TailIsIdle(front, b.lex, U1, [U1] + tail);
      assert a.lex != b.lex;
    }
  }

  /** U+0000 puts a literal before the one that stops there. */
  lemma NulSortsWrong(a: Literal, b: Literal, i: nat, numbers: Numbers)
    requires i < |a.lex| && a.lex[i] < U1 && b.lex == a.lex[..i] && numbers(a).None? && numbers(b).None?
    ensures !SortsByText(a, b, numbers)
  {
    hide Less, DatatypeOf;
    var front, x, y := a.lex[..i], a.lex[i..] + [U1] + DatatypeOf(a), [U1] + DatatypeOf(b);
    assert a.lex == front + a.lex[i..];
    assert SortKey(LiteralTerm(a), numbers) == ("3" + front) + x
      && SortKey(LiteralTerm(b), numbers) == ("3" + front) + y;
    SameLengthOrder("3" + front, "3" + front, x, y);
    HeadsDecide(x, y);
    PrefixIsLess(front, a.lex[i..]);
  }

  lemma HeadsDecide(a: string, b: string)
    requires a != [] && b != [] && a[0] < b[0]
    ensures Less(a, b)
  {
  }

  /** The first character of the text up to U+0001, if any, is U+0001 with a rest past all schemes. */
  predicate TextIsSafe(s: string) {
    forall i | 0 <= i < |s| && Above(s[..i], U1) :: s[i] > U1 || (s[i] == U1 && PastSchemes(s[i + 1..]))
  }

  /** Clean literals: what every literal should be in order with. */
  predicate IsCleanLiteral(l: Literal, numbers: Numbers) {
    numbers(l).None? && Above(l.lex, U1) && HasIriDatatype(l)
  }

  lemma SafeTextsSort(a: Literal, b: Literal, numbers: Numbers)
    requires numbers(a).None? && TextIsSafe(a.lex) && IsCleanLiteral(b, numbers)
    ensures SortsByText(a, b, numbers)
  {
    hide SortsByText, PastSchemes, HasScheme, Less;
    if Above(a.lex, U1) {
      OtherLiteralsSort(a, b, numbers);
    } else {
      var i := FirstUpTo(a.lex, U1);
      FixedDatatypes();
      assert a.lex[i] == U1;
      assert a.lex[i + 1..] + [U1] + DatatypeOf(a) == a.lex[i + 1..] + ([U1] + DatatypeOf(a));
      SchemesStayBelow(DatatypeOf(b), a.lex[i + 1..], [U1] + DatatypeOf(a));
      SeparatorInText(a, b, i, numbers);
    }
  }

  /** The clean literal that shows an unsafe text out of order. */
  lemma UnsafeTextsSortWrong(a: Literal, numbers: Numbers) returns (b: Literal)
    requires numbers(a).None? && !TextIsSafe(a.lex) && forall l :: KnowsNumbers(numbers, l)
    ensures IsCleanLiteral(b, numbers) && !SortsByText(a, b, numbers)
  {
    assert !PastSchemes([]);
    hide SortsByText, PastSchemes, HasScheme, Less;
    var i :| 0 <= i < |a.lex| && Above(a.lex[..i], U1)
      && !(a.lex[i] > U1 || (a.lex[i] == U1 && PastSchemes(a.lex[i + 1..])));
    if a.lex[i] == U1 {
      LaterIriIsLater(a.lex[i + 1..], DatatypeOf(a));
      b := Typed(a.lex[..i], LaterIri(a.lex[i + 1..]));
      assert KnowsNumbers(numbers, b);
      SeparatorInText(a, b, i, numbers);
    } else {
      LaterIriIsLater([], []);
      b := Typed(a.lex[..i], LaterIri([]));
      assert KnowsNumbers(numbers, b);
      NulSortsWrong(a, b, i, numbers);
    }
  }

  /** Exactly the literals with a safe text sort by text against every clean one. */
  lemma TextsSortExactly(a: Literal, numbers: Numbers)
    requires numbers(a).None? && forall l :: KnowsNumbers(numbers, l)
    ensures TextIsSafe(a.lex) <==> forall b | IsCleanLiteral(b, numbers) :: SortsByText(a, b, numbers)
  {
    hide SortsByText, TextIsSafe, IsCleanLiteral;
    if TextIsSafe(a.lex) {
      forall b | IsCleanLiteral(b, numbers)
        ensures SortsByText(a, b, numbers)
      {
        SafeTextsSort(a, b, numbers);
      }
    } else {
      var b := UnsafeTextsSortWrong(a, numbers);
    }
  }

  /** The order of strings is total, so sorting by key is a sort of terms. */
  lemma {:induction false} LessIsTotal(a: string, b: string)
    ensures a == b || Less(a, b) || Less(b, a)
    ensures !(Less(a, b) && Less(b, a)) && !(a == b && Less(a, b))
    decreases |a|
  {
    if a != [] && b != [] {
      LessIsTotal(a[1..], b[1..]);
      assert a == [a[0]] + a[1..] && b == [b[0]] + b[1..];
    }
  }

  // ------------------------------------------------------------------ IRIs, blank nodes, components

  /** IRIs are in the order of their texts, and so are blank nodes. */
  lemma NamesSort(a: string, b: string, numbers: Numbers)
    ensures Less(SortKey(NamedNode(a), numbers), SortKey(NamedNode(b), numbers)) <==> Less(a, b)
    ensures Less(SortKey(BlankNode(a), numbers), SortKey(BlankNode(b), numbers)) <==> Less(a, b)
  {
    hide Less;
    SameLengthOrder("1", "1", a, b);
    SameLengthOrder("0", "0", a, b);
    NeverLess("0");
    NeverLess("1");
  }

  /** Blank nodes before IRIs, then by text. */
  predicate SubjectBefore(a: Subject, b: Subject) {
    match (a, b)
    case (BlankSubject(x), BlankSubject(y)) => Less(x, y)
    case (IriSubject(x), IriSubject(y)) => Less(x, y)
    case (BlankSubject(_), IriSubject(_)) => true
    case (IriSubject(_), BlankSubject(_)) => false
  }

  lemma SubjectsSort(a: Subject, b: Subject)
    ensures Less(SubjectKey(a), SubjectKey(b)) <==> SubjectBefore(a, b)
    ensures SubjectKey(a) == SubjectKey(b) <==> a == b
  {
    var x, y := SubjectText(a), SubjectText(b);
    SameLengthOrder("1", "1", x, y);
    SameLengthOrder("0", "0", x, y);
    NeverLess("0");
    NeverLess("1");
    assert SubjectKey(a)[1..] == x && SubjectKey(b)[1..] == y;
  }

  /** Triple terms by their components: subject, then predicate, then object. */
  lemma TriplesSortByComponents(a: Term, b: Term, numbers: Numbers)
    requires a.TripleOf? && b.TripleOf? && IsClean(a) && IsClean(b)
    ensures Less(SortKey(a, numbers), SortKey(b, numbers)) <==>
      if a.s != b.s then SubjectBefore(a.s, b.s)
      else if a.p != b.p then Less(a.p, b.p)
      else Less(SortKey(a.o, numbers), SortKey(b.o, numbers))
  {
    hide Less, SortKey, SubjectKey, IsClean, SubjectBefore;
    TriplesSort(a, b, numbers);
    SubjectsSort(a.s, b.s);
    SameLengthOrder("1", "1", a.p, b.p);
    NeverLess("1");
    assert IriKey(a.p)[1..] == a.p && IriKey(b.p)[1..] == b.p;
  }
}
