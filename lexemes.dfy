/** The non-punctuation token types the example grammars parse: identifiers
    (src/token.rs `Ident`), integer, float and string literals, keywords, and the
    lookahead that collects the display strings of failed probes into one error.
    Apart from `Ident::parse` these types live outside the modelled files; their
    contracts here are the ones the grammars rely on: a literal or keyword
    probe succeeds exactly on an entry of that shape and consumes it. */
module Lexemes {
  import opened Tokens
  import opened Errors
  import opened Cursor

  /** The display strings these token types contribute to an `UnexpectedToken`. */
  const IDENT_DISPLAY: string := "an identifier"
  const FLOAT_DISPLAY: string := "a float literal"
  const INT_DISPLAY: string := "an integer literal"
  const STRING_DISPLAY: string := "a string literal"

  predicate IsIdentAt(s: Stream, pos: nat)
  {
    pos < |s.entries| && s.entries[pos].IdentTree?
  }

  /** A keyword is an identifier entry with the keyword's text. */
  predicate IsKeywordAt(s: Stream, pos: nat, keyword: string)
  {
    IsIdentAt(s, pos) && s.entries[pos].ident.name == keyword
  }

  predicate IsFloatAt(s: Stream, pos: nat)
  {
    pos < |s.entries| && s.entries[pos].LiteralTree? && s.entries[pos].literal.value.FloatValue?
  }

  predicate IsIntAt(s: Stream, pos: nat)
  {
    pos < |s.entries| && s.entries[pos].LiteralTree? && s.entries[pos].literal.value.Int?
  }

  predicate IsStrAt(s: Stream, pos: nat)
  {
    pos < |s.entries| && s.entries[pos].LiteralTree? && s.entries[pos].literal.value.Str?
  }

  /** `Ident::parse`: the next entry must be an identifier; any other entry
      reaches `todo!()`, so callers must not ask for one there. */
  function IdentAt(s: Stream, pos: nat): (r: Step<Ident>)
    requires pos < |s.entries| ==> s.entries[pos].IdentTree?
    ensures r.Done? <==> pos < |s.entries|
    ensures r.Done? ==> r.value == s.entries[pos].ident && r.next == pos + 1
    ensures r.Failed? ==> r.error == NewError(s.source, EndOfFile(EofSpan(s)))
  {
    match CurrentAt(s, pos)
    case Err(e) => Failed(e)
    case Ok(t) => Done(t.ident, pos + 1)
  }

  /** An identifier where a grammar requires one, with a non-identifier reported
      as an unexpected token; this is the total counterpart of `IdentAt`. */
  function ExpectIdentAt(s: Stream, pos: nat): (r: Step<Ident>)
    ensures r.Done? <==> IsIdentAt(s, pos)
    ensures r.Done? ==> r.value == s.entries[pos].ident && r.next == pos + 1
    ensures IsIdentAt(s, pos) ==> IdentAt(s, pos) == r
  {
    match CurrentAt(s, pos)
    case Err(e) => Failed(e)
    case Ok(t) =>
      if t.IdentTree? then Done(t.ident, pos + 1)
      else Failed(Unexpected(s.source, IDENT_DISPLAY, SpanOf(t)))
  }

  /** As written, `Ident::parse` is defined only where an identifier, or the end
      of the stream, is: on any other entry it reaches `todo!()`, which is
      outside `IdentAt`'s precondition. `ExpectIdentAt` reports that entry. */
  lemma NonIdentReachesTodo(s: Stream, pos: nat)
    requires pos < |s.entries| && !s.entries[pos].IdentTree?
    ensures !(pos < |s.entries| ==> s.entries[pos].IdentTree?)
    ensures ExpectIdentAt(s, pos) == Failed(Unexpected(s.source, IDENT_DISPLAY, SpanOf(s.entries[pos])))
  {
  }

  /** The `Parse` impl of a keyword type: the identifier with the keyword's text,
      anything else reported as an unexpected token. */
  function KeywordAt(s: Stream, pos: nat, keyword: string): (r: Step<Ident>)
    ensures r.Done? <==> IsKeywordAt(s, pos, keyword)
    ensures r.Done? ==> r.value == s.entries[pos].ident && r.next == pos + 1
    ensures pos < |s.entries| && r.Failed? ==> r.error == Unexpected(s.source, keyword, SpanOf(s.entries[pos]))
  {
    match CurrentAt(s, pos)
    case Err(e) => Failed(e)
    case Ok(t) =>
      if t.IdentTree? && t.ident.name == keyword then Done(t.ident, pos + 1)
      else Failed(Unexpected(s.source, keyword, SpanOf(t)))
  }

  /** `lookahead.error()`: one `UnexpectedToken` listing every probed display, at
      the entry the probes looked at. */
  function LookaheadError(s: Stream, pos: nat, expected: set<string>): (e: Error)
    ensures |e| == 1
    ensures pos < |s.entries| ==> e[0].kind == UnexpectedToken(expected, SpanOf(s.entries[pos]))
  {
    match CurrentAt(s, pos)
    case Err(e) => e
    case Ok(t) => NewError(s.source, UnexpectedToken(expected, SpanOf(t)))
  }

  /** `Ident::parse` on the cursor. */
  method ParseIdent(input: ParseStream) returns (r: Result<Ident>)
    requires input.Valid()
    requires input.pos < |input.stream.entries| ==> input.stream.entries[input.pos].IdentTree?
    modifies input
    ensures input.Valid() && input.soft == old(input.soft)
    ensures Follows(r, input.pos, IdentAt(input.stream, old(input.pos)))
  {
    var token := input.Next();
    if token.Err? {
      return Err(token.error);
    }
    r := Ok(token.value.ident);
  }

  /** An identifier required by a grammar, on the cursor; the cursor stays put on failure. */
  method ExpectIdent(input: ParseStream) returns (r: Result<Ident>)
    requires input.Valid()
    modifies input
    ensures input.Valid() && input.soft == old(input.soft)
    ensures Follows(r, input.pos, ExpectIdentAt(input.stream, old(input.pos)))
    ensures r.Err? ==> input.pos == old(input.pos)
  {
    var token := input.Current();
    if token.Err? {
      return Err(token.error);
    }
    if !token.value.IdentTree? {
      return Err(Unexpected(input.stream.source, IDENT_DISPLAY, SpanOf(token.value)));
    }
    r := ParseIdent(input);
  }

  /** A keyword parsed on the cursor; the cursor stays put on failure. */
  method ParseKeyword(input: ParseStream, keyword: string) returns (r: Result<Ident>)
    requires input.Valid()
    modifies input
    ensures input.Valid() && input.soft == old(input.soft)
    ensures Follows(r, input.pos, KeywordAt(input.stream, old(input.pos), keyword))
  {
    var token := input.Current();
    if token.Err? {
      return Err(token.error);
    }
    if !(token.value.IdentTree? && token.value.ident.name == keyword) {
      return Err(Unexpected(input.stream.source, keyword, SpanOf(token.value)));
    }
    var _ := input.Next();
    r := Ok(token.value.ident);
  }

  /** `input.peek(keyword)`: whether the entry at the cursor is that keyword. */
  method PeekKeyword(input: ParseStream, keyword: string) returns (b: bool)
    requires input.Valid()
    ensures b == IsKeywordAt(input.stream, input.pos, keyword)
  {
    var token := input.Current();
    b := token.Ok? && token.value.IdentTree? && token.value.ident.name == keyword;
  }
}
