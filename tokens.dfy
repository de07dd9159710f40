/** Source positions and the lexical items a parse stream hands out
    (src/token.rs: Ident, SingleCharPunct, Spacing, Literal, LiteralValue). */
module Tokens {

  /** Rust's `usize`: byte offsets are machine words. */
  type usize = x: int | 0 <= x < 0x1_0000_0000_0000_0000
  const USIZE_MAX: usize := 0xFFFF_FFFF_FFFF_FFFF

  /** Rust's `i64`, the payload of an integer literal. */
  type i64 = x: int | -0x8000_0000_0000_0000 <= x < 0x8000_0000_0000_0000

  /** The identifier of a source file; the shared file itself is not modelled. */
  type SourceId = string

  /** A half-open byte range of one source. */
  datatype Span = Span(start: usize, end: usize, source: SourceId)

  /** The 34 single-character punctuation kinds, in table order. */
  datatype PunctKind =
    | Bang | Colon | Equal | SemiColon | LAngle | RAngle | Plus | Dash | Asterisk | Slash
    | Percent | Dot | Comma | LeftParen | RightParen | LeftBracket | RightBracket
    | LeftBrace | RightBrace | At | Caret | BackTick | Pipe | Ampersand | Tilde | Tilde2
    | Backslash | Question | Hash | Pound | Dollar | Space | UnderScore | NewLine

  /** Whether the character after a punct is itself punctuation. */
  datatype Spacing = Alone | Joint

  datatype Ident = Ident(name: string, span: Span)

  datatype SingleCharPunct = SingleCharPunct(kind: PunctKind, spacing: Spacing, span: Span)

  /** An `f64`, kept as its IEEE-754 bit pattern; no arithmetic is modelled. */
  datatype Float = Float(bits: bv64)

  datatype LiteralValue = Int(i: i64) | FloatValue(f: Float) | Str(s: string) | Char(c: char)

  datatype Literal = Literal(value: LiteralValue, span: Span)

  /** One item of a parse stream. `End` terminates every stream and carries the
      span of the end of the input. */
  datatype TokenTree =
    | IdentTree(ident: Ident)
    | PunctTree(punct: SingleCharPunct)
    | LiteralTree(literal: Literal)
    | WhiteSpaceTree(text: string, span: Span)
    | ErrorTree(span: Span)
    | End(span: Span)

  /** `TokenTree::span()`. */
  function SpanOf(t: TokenTree): Span
  {
    match t
    case IdentTree(i) => i.span
    case PunctTree(p) => p.span
    case LiteralTree(l) => l.span
    case WhiteSpaceTree(_, sp) => sp
    case ErrorTree(sp) => sp
    case End(sp) => sp
  }

  predicate IsJointPunct(t: TokenTree)
  {
    t.PunctTree? && t.punct.spacing == Joint
  }

  // ---------------------------------------------------------------------------
  // The hand-written PartialEq impls: equality that ignores spans.

  /** `impl PartialEq for Ident`: only the text is compared. */
  predicate IdentEq(a: Ident, b: Ident): (eq: bool)
    ensures eq <==> a.(span := b.span) == b
  {
    a.name == b.name
  }

  /** `impl PartialEq for SingleCharPunct`: kind and spacing, not the span. */
  predicate PunctEq(a: SingleCharPunct, b: SingleCharPunct): (eq: bool)
    ensures eq <==> a.(span := b.span) == b
  {
    a.kind == b.kind && a.spacing == b.spacing
  }

  /** True when the bit pattern is a NaN (all exponent bits set, non-zero mantissa). */
  predicate IsNaN(f: Float)
  {
    f.bits & 0x7FF0_0000_0000_0000 == 0x7FF0_0000_0000_0000 && f.bits & 0x000F_FFFF_FFFF_FFFF != 0
  }

  /** IEEE-754 `==` on binary64: NaN equals nothing, +0 equals -0, otherwise bitwise. */
  predicate FloatEq(a: Float, b: Float): (eq: bool)
    ensures a == b ==> (eq <==> !IsNaN(a))
    ensures eq && a != b ==> a.bits & 0x7FFF_FFFF_FFFF_FFFF == 0 && b.bits & 0x7FFF_FFFF_FFFF_FFFF == 0
  {
    !IsNaN(a) && !IsNaN(b) &&
    (a.bits == b.bits || (a.bits & 0x7FFF_FFFF_FFFF_FFFF == 0 && b.bits & 0x7FFF_FFFF_FFFF_FFFF == 0))
  }

  /** The derived `PartialEq for LiteralValue`. */
  predicate LiteralValueEq(a: LiteralValue, b: LiteralValue): (eq: bool)
    ensures !a.FloatValue? ==> (eq <==> a == b)
    ensures eq ==> a.FloatValue? == b.FloatValue?
  {
    match (a, b)
    case (Int(x), Int(y)) => x == y
    case (FloatValue(x), FloatValue(y)) => FloatEq(x, y)
    case (Str(x), Str(y)) => x == y
    case (Char(x), Char(y)) => x == y
    case _ => false
  }

  /** `impl PartialEq for Literal`: only the value is compared. */
  predicate LiteralEq(a: Literal, b: Literal)
  {
    LiteralValueEq(a.value, b.value)
  }

  /** The three span-blind equalities hold between tokens that differ only in their span. */
  lemma EqualityIgnoresSpan(i: Ident, p: SingleCharPunct, l: Literal, sp: Span)
    requires !(l.value.FloatValue? && IsNaN(l.value.f))
    ensures IdentEq(i, i.(span := sp))
    ensures PunctEq(p, p.(span := sp))
    ensures LiteralEq(l, l.(span := sp))
  {
  }

  /** Punct equality tells a joint punct from an alone one of the same kind. */
  lemma PunctEqSeesSpacing(p: SingleCharPunct)
    ensures !PunctEq(p.(spacing := Joint), p.(spacing := Alone))
  {
  }

  /** Literal equality is not reflexive: a NaN float literal differs from itself. */
  lemma NaNLiteralDiffersFromItself(sp: Span)
    ensures var nan := Literal(FloatValue(Float(0x7FF8_0000_0000_0000)), sp);
            !LiteralEq(nan, nan)
  {
  }

  /** Positive and negative zero literals are equal although their bits differ. */
  lemma SignedZerosAreEqual(sp: Span, sp': Span)
    ensures LiteralEq(Literal(FloatValue(Float(0)), sp), Literal(FloatValue(Float(0x8000_0000_0000_0000)), sp'))
  {
  }
}
