/** Terms as 64-bit integers and dictionary rows, and back (encoding.rs). An id is a 4-bit tag
    over a 59-bit payload: a hash of a key for most kinds, the value itself for canonical
    integers and booleans. */
module Encoding {
  import opened Ids

  datatype Subject = IriSubject(iri: string) | BlankSubject(name: string)

  datatype Literal =
    | Simple(lex: string)
    | Tagged(lex: string, lang: string)
    | Directed(lex: string, lang: string, rtl: bool)
    | Typed(lex: string, dt: string)

  datatype Term =
    | NamedNode(iri: string)
    | BlankNode(name: string)
    | LiteralTerm(literal: Literal)
    | TripleOf(s: Subject, p: string, o: Term)

  const XSD_STRING := "http://www.w3.org/2001/XMLSchema#string"
  const XSD_INTEGER := "http://www.w3.org/2001/XMLSchema#integer"
  const XSD_BOOLEAN := "http://www.w3.org/2001/XMLSchema#boolean"

  // ------------------------------------------------------------------ ids

  datatype Tag =
    | DefaultTag | IriTag | BlankTag | StringTag | LangTag | TypedTag | IntegerTag | BooleanTag | TripleTag | DirLangTag

  function Code(tag: Tag): nat {
    match tag
    case DefaultTag => 0
    case IriTag => 1
    case BlankTag => 2
    case StringTag => 3
    case LangTag => 4
    case TypedTag => 5
    case IntegerTag => 6
    case BooleanTag => 7
    case TripleTag => 9
    case DirLangTag => 10
  }

  function TagOf(id: int): Option<Tag> {
    match (id / PAYLOADS) % 16
    case 0 => Some(DefaultTag)
    case 1 => Some(IriTag)
    case 2 => Some(BlankTag)
    case 3 => Some(StringTag)
    case 4 => Some(LangTag)
    case 5 => Some(TypedTag)
    case 6 => Some(IntegerTag)
    case 7 => Some(BooleanTag)
    case 9 => Some(TripleTag)
    case 10 => Some(DirLangTag)
    case _ => None
  }

  function Payload(id: int): nat {
    id % PAYLOADS
  }

  function Make(tag: Tag, payload: int): int {
    Code(tag) * PAYLOADS + payload % PAYLOADS
  }

  /** Tag and payload come back out, and the sign bit stays clear. */
  lemma MakeSplits(tag: Tag, payload: int)
    ensures TagOf(Make(tag, payload)) == Some(tag)
    ensures Payload(Make(tag, payload)) == payload % PAYLOADS
    ensures 0 <= Make(tag, payload) < 16 * PAYLOADS
  {
    var low := payload % PAYLOADS;
    assert (Code(tag) * PAYLOADS + low) / PAYLOADS == Code(tag);
  }

  /** What a hash is taken of: a tag and NUL-joined text, or the ids of a triple term's parts. */
  datatype Key = TextKey(tag: Tag, text: string) | TripleKey(s: int, p: int, o: int)

  type Hash = Key -> nat

  const NUL := '\0'

  function Hashed(h: Hash, tag: Tag, text: string): int {
    Make(tag, h(TextKey(tag, text)))
  }

  const INT_OFFSET: int := PAYLOADS / 2

  /** `integer_id`: none outside the range that the payload can hold. */
  function IntegerId(value: int): Option<int> {
    if -INT_OFFSET <= value < INT_OFFSET then Some(Make(IntegerTag, value + INT_OFFSET)) else None
  }

  function BooleanId(value: bool): int {
    Make(BooleanTag, if value then 1 else 0)
  }

  // ------------------------------------------------------------------ decimal numerals

  function Digit(n: nat): char
    requires n < 10
  {
    "0123456789"[n]
  }

  function Digits(n: nat): string {
    if n < 10 then [Digit(n)] else Digits(n / 10) + [Digit(n % 10)]
  }

  /** How an integer is printed. */
  function Decimal(v: int): string {
    if v < 0 then "-" + Digits(-v) else Digits(v)
  }

  function DigitValue(c: char): Option<nat> {
    if '0' <= c <= '9' then Some(c as int - '0' as int) else None
  }

  function ParseDigits(s: string): Option<nat> {
    if s == [] then None
    else match DigitValue(s[|s| - 1])
      case None => None
      case Some(d) =>
        if |s| == 1 then Some(d)
        else match ParseDigits(s[..|s| - 1])
          case None => None
          case Some(n) => Some(n * 10 + d)
  }

  const I64: int := 0x8000_0000_0000_0000

  /** The value of a sign and digits. */
  function ParseSigned(s: string): Option<int> {
    var negative := s != [] && s[0] == '-';
    var digits := ParseDigits(if s != [] && (s[0] == '-' || s[0] == '+') then s[1..] else s);
    if digits.None? then None
    else
      var sign: int := if negative then -1 else 1;
      Some(sign * digits.value)
  }

  /** How a signed 64-bit integer is parsed: a sign, digits, in range. */
  function Parse(s: string): Option<int> {
    var parsed := ParseSigned(s);
    if parsed.Some? && -I64 <= parsed.value < I64 then parsed else None
  }

  lemma {:induction false} ParseDigitsPrints(n: nat)
    ensures ParseDigits(Digits(n)) == Some(n) && Digits(n) != [] && '0' <= Digits(n)[0] <= '9'
  {
    if n >= 10 {
      ParseDigitsPrints(n / 10);
      assert Digits(n)[..|Digits(n)| - 1] == Digits(n / 10);
    }
  }

  /** Printing and parsing are inverse on 64-bit integers, so equal numerals are equal numbers. */
  lemma ParsePrints(v: int)
    requires -I64 <= v < I64
    ensures Parse(Decimal(v)) == Some(v)
  {
    ParseDigitsPrints(if v < 0 then -v else v);
    if v < 0 {
      assert Decimal(v)[1..] == Digits(-v);
    }
  }

  // ------------------------------------------------------------------ encoding literals

  /** The columns of `terms` a term is decoded from. */
  datatype TermRow = TermRow(id: int, lex: string, dt: Option<string>, lang: Option<string>, dir: Option<int>)

  /** A row of `triple_terms`. */
  datatype TripleRow = TripleRow(id: int, s: int, p: int, o: int)

  /** The inline integer a literal spells canonically, if it does. */
  function InlineInteger(l: Literal): Option<int> {
    if l.Typed? && l.dt == XSD_INTEGER && Parse(l.lex).Some? && Decimal(Parse(l.lex).value) == l.lex
    then IntegerId(Parse(l.lex).value) else None
  }

  function InlineBoolean(l: Literal): Option<int> {
    if l.Typed? && l.dt == XSD_BOOLEAN && l.lex == "true" then Some(BooleanId(true))
    else if l.Typed? && l.dt == XSD_BOOLEAN && l.lex == "false" then Some(BooleanId(false))
    else None
  }

  function Direction(rtl: bool): string {
    if rtl then "rtl" else "ltr"
  }

  /** `encode_literal`: the id, and the row to store when the value is not in the id. */
  function EncodeLiteral(h: Hash, l: Literal): (int, Option<TermRow>) {
    match l
    case Directed(lex, lang, rtl) =>
      var id := Hashed(h, DirLangTag, lang + [NUL] + Direction(rtl) + [NUL] + lex);
      (id, Some(TermRow(id, lex, None, Some(lang), Some(if rtl then 2 else 1))))
    case Tagged(lex, lang) =>
      var id := Hashed(h, LangTag, lang + [NUL] + lex);
      (id, Some(TermRow(id, lex, None, Some(lang), None)))
    case Simple(lex) =>
      var id := Hashed(h, StringTag, lex);
      (id, Some(TermRow(id, lex, None, None, None)))
    case Typed(lex, dt) =>
      if InlineInteger(l).Some? then (InlineInteger(l).value, None)
      else if InlineBoolean(l).Some? then (InlineBoolean(l).value, None)
      else
        var id := Hashed(h, TypedTag, dt + [NUL] + lex);
        (id, Some(TermRow(id, lex, Some(dt), None, None)))
  }

  function SubjectId(h: Hash, s: Subject): int {
    match s
    case IriSubject(iri) => Hashed(h, IriTag, iri)
    case BlankSubject(name) => Hashed(h, BlankTag, name)
  }

  /** `term_id`: a triple term hashes the ids of its parts. */
  function TermId(h: Hash, t: Term): int {
    match t
    case NamedNode(iri) => Hashed(h, IriTag, iri)
    case BlankNode(name) => Hashed(h, BlankTag, name)
    case LiteralTerm(l) => EncodeLiteral(h, l).0
    case TripleOf(s, p, o) => Make(TripleTag, h(TripleKey(SubjectId(h, s), Hashed(h, IriTag, p), TermId(h, o))))
  }

  // ------------------------------------------------------------------ decoding

  function DecodeInline(id: int): Option<Term> {
    if TagOf(id) == Some(IntegerTag) then Some(LiteralTerm(Typed(Decimal(Payload(id) - INT_OFFSET), XSD_INTEGER)))
    else if TagOf(id) == Some(BooleanTag)
      then Some(LiteralTerm(Typed(if Payload(id) != 0 then "true" else "false", XSD_BOOLEAN)))
    else None
  }

  /** A typed literal; `xsd:string` is the simple literal. */
  function NewTyped(lex: string, dt: string): Literal {
    if dt == XSD_STRING then Simple(lex) else Typed(lex, dt)
  }

  /** `decode_row`; `None` stands for the corruption error. */
  function DecodeRow(r: TermRow): Option<Term> {
    match TagOf(r.id)
    case Some(IriTag) => Some(NamedNode(r.lex))
    case Some(BlankTag) => Some(BlankNode(r.lex))
    case Some(StringTag) => Some(LiteralTerm(Simple(r.lex)))
    case Some(LangTag) => if r.lang.None? then None else Some(LiteralTerm(Tagged(r.lex, r.lang.value)))
    case Some(DirLangTag) => if r.lang.None? then None
      else Some(LiteralTerm(Directed(r.lex, r.lang.value, r.dir == Some(2))))
    case Some(TypedTag) => if r.dt.None? then None else Some(LiteralTerm(NewTyped(r.lex, r.dt.value)))
    case Some(IntegerTag) => DecodeInline(r.id)
    case Some(BooleanTag) => DecodeInline(r.id)
    case _ => None
  }

  /** `make_triple`, from decoded parts. */
  function MakeTriple(s: Term, p: Term, o: Term): Option<Term> {
    if !p.NamedNode? then None
    else match s
      case NamedNode(iri) => Some(TripleOf(IriSubject(iri), p.iri, o))
      case BlankNode(name) => Some(TripleOf(BlankSubject(name), p.iri, o))
      case _ => None
  }

  function SubjectTerm(s: Subject): Term {
    match s
    case IriSubject(iri) => NamedNode(iri)
    case BlankSubject(name) => BlankNode(name)
  }

  /** No literal spells `xsd:string` out: that is a simple literal. */
  predicate ValidTerm(t: Term) {
    match t
    case LiteralTerm(Typed(_, dt)) => dt != XSD_STRING
    case TripleOf(_, _, o) => ValidTerm(o)
    case _ => true
  }

  /** The row `EncodedRows` records for a term of its own (parts of triple terms aside). */
  function RowOf(h: Hash, t: Term): Option<TermRow> {
    match t
    case NamedNode(iri) => Some(TermRow(Hashed(h, IriTag, iri), iri, None, None, None))
    case BlankNode(name) => Some(TermRow(Hashed(h, BlankTag, name), name, None, None, None))
    case LiteralTerm(l) => EncodeLiteral(h, l).1
    case TripleOf(_, _, _) => None
  }

  /** A term that is not a triple decodes from its row, or, having none, from its id alone. */
  lemma PlainTermsDecode(h: Hash, t: Term)
    requires ValidTerm(t) && !t.TripleOf?
    ensures match RowOf(h, t)
            case Some(row) => row.id == TermId(h, t) && DecodeRow(row) == Some(t) && DecodeInline(row.id) == None
            case None => DecodeInline(TermId(h, t)) == Some(t)
  {
    hide Parse, Decimal;
    match t
    case NamedNode(iri) => MakeSplits(IriTag, h(TextKey(IriTag, iri)));
    case BlankNode(name) => MakeSplits(BlankTag, h(TextKey(BlankTag, name)));
    case LiteralTerm(l) => LiteralsDecode(h, l);
  }

  lemma LiteralsDecode(h: Hash, l: Literal)
    requires ValidTerm(LiteralTerm(l))
    ensures match EncodeLiteral(h, l)
            case (id, Some(row)) => row.id == id && DecodeRow(row) == Some(LiteralTerm(l)) && DecodeInline(id) == None
            case (id, None) => DecodeInline(id) == Some(LiteralTerm(l))
  {
    hide Parse, Decimal, Make, TagOf, Payload, Hashed;
    match l
    case Simple(lex) => HashedTag(h, StringTag, lex);
    case Tagged(lex, lang) => HashedTag(h, LangTag, lang + [NUL] + lex);
    case Directed(lex, lang, rtl) => HashedTag(h, DirLangTag, lang + [NUL] + Direction(rtl) + [NUL] + lex);
    case Typed(lex, dt) =>
      HashedTag(h, TypedTag, dt + [NUL] + lex);
      if InlineInteger(l).Some? {
        MakeSplits(IntegerTag, Parse(lex).value + INT_OFFSET);
      }
      MakeSplits(BooleanTag, 0);
      MakeSplits(BooleanTag, 1);
  }

  lemma HashedTag(h: Hash, tag: Tag, text: string)
    ensures TagOf(Hashed(h, tag, text)) == Some(tag)
  {
    MakeSplits(tag, h(TextKey(tag, text)));
  }

  /** Inline integers sort by value: id order is numeric order. */
  lemma InlineIntegersSort(a: int, b: int)
    requires IntegerId(a).Some? && IntegerId(b).Some?
    ensures a < b <==> IntegerId(a).value < IntegerId(b).value
  {
  }

  // ------------------------------------------------------------------ keys

  predicate NoNul(s: string) {
    NUL !in s
  }

  /** The first separator splits a joined text. */
  lemma SplitAt(c: char, a: string, b: string, x: string, y: string)
    requires c !in a && c !in b && a + [c] + x == b + [c] + y
    ensures a == b && x == y
  {
    var left, right := a + [c] + x, b + [c] + y;
    assert left[|a|] == c && right[|b|] == c;
    assert |a| == |b|;
    assert left[..|a|] == a && right[..|b|] == b;
    assert left[|a| + 1..] == x && right[|b| + 1..] == y;
  }

  /** The text hashed for a literal that is not inline. */
  function LiteralText(l: Literal): string {
    match l
    case Simple(lex) => lex
    case Tagged(lex, lang) => lang + [NUL] + lex
    case Directed(lex, lang, rtl) => lang + [NUL] + Direction(rtl) + [NUL] + lex
    case Typed(lex, dt) => dt + [NUL] + lex
  }

  predicate CleanLiteral(l: Literal) {
    match l
    case Simple(_) => true
    case Tagged(_, lang) => NoNul(lang)
    case Directed(_, lang, _) => NoNul(lang)
    case Typed(_, dt) => NoNul(dt)
  }

  /** Two literals of a kind with the same key are the same literal: only hashes can collide. */
  lemma LiteralKeysAreInjective(a: Literal, b: Literal)
    requires CleanLiteral(a) && CleanLiteral(b) && LiteralText(a) == LiteralText(b)
    requires (a.Simple? && b.Simple?) || (a.Tagged? && b.Tagged?) || (a.Directed? && b.Directed?)
      || (a.Typed? && b.Typed?)
    ensures a == b
  {
    match a
    case Simple(_) =>
    case Tagged(lex, lang) => SplitAt(NUL, lang, b.lang, lex, b.lex);
    case Typed(lex, dt) => SplitAt(NUL, dt, b.dt, lex, b.lex);
    case Directed(lex, lang, rtl) =>
      var rest, rest' := Direction(rtl) + [NUL] + lex, Direction(b.rtl) + [NUL] + b.lex;
      assert LiteralText(a) == lang + [NUL] + rest && LiteralText(b) == b.lang + [NUL] + rest';
      SplitAt(NUL, lang, b.lang, rest, rest');
      SplitAt(NUL, Direction(rtl), Direction(b.rtl), lex, b.lex);
      assert Direction(rtl)[0] == Direction(b.rtl)[0];
  }
}
