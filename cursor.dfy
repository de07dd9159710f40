/** The parse-stream cursor the parsers of src/token.rs, examples/calc.rs and
    examples/lox.rs advance. The cursor type itself lives outside the modelled
    files; this module states the few behaviours those parsers rely on:
    `current`, `next`, `get`, `is_empty`, `add_error`, restoring a saved position
    (what `parse`/`try_parse` do when an attempt fails), balanced groups and the
    entry point that parses a whole stream. */
module Cursor {
  import opened Tokens
  import opened Errors
  import PunctTable

  /** A token stream: what the tokenizer produced for one source, `End`-terminated. */
  datatype Stream = Stream(source: SourceId, entries: seq<TokenTree>)

  /** The outcome of running a parser from a position: the value and the position
      after it, or the error. A failed attempt carries no position because every
      caller that survives a failure restores the one it saved. */
  datatype Step<T> = Done(value: T, next: nat) | Failed(error: Error)

  /** The span `EndOfFile` reports: that of the terminating entry. */
  function EofSpan(s: Stream): Span
  {
    if |s.entries| > 0 then SpanOf(s.entries[|s.entries| - 1]) else Span(0, 0, s.source)
  }

  /** `current()`: the entry at the cursor, `EndOfFile` past the end. */
  function CurrentAt(s: Stream, pos: nat): (r: Result<TokenTree>)
    ensures r.Ok? <==> pos < |s.entries|
    ensures r.Ok? ==> r.value == s.entries[pos]
  {
    if pos < |s.entries| then Ok(s.entries[pos]) else Err(NewError(s.source, EndOfFile(EofSpan(s))))
  }

  /** `get(offset)`: the entry `offset` places from the cursor. */
  function GetAt(s: Stream, pos: nat, offset: int): (r: Result<TokenTree>)
    ensures r.Ok? <==> 0 <= pos + offset < |s.entries|
  {
    if 0 <= pos + offset < |s.entries| then Ok(s.entries[pos + offset])
    else Err(NewError(s.source, EndOfFile(EofSpan(s))))
  }

  /** `is_empty()`: the cursor stands on the terminating `End` (or past it). */
  predicate IsEmptyAt(s: Stream, pos: nat)
  {
    pos >= |s.entries| || s.entries[pos].End?
  }

  /** A method's result and the cursor's new position agree with a step:
      on success the value and the position, on failure the error. */
  predicate Follows<T(==)>(r: Result<T>, pos: nat, o: Step<T>)
  {
    match o
    case Done(v, n) => r == Ok(v) && pos == n
    case Failed(e) => r == Err(e)
  }

  /** A cursor over one stream: the position and the errors recorded with
      `add_error`, which do not stop the parse. */
  class ParseStream {
    const stream: Stream
    var pos: nat
    var soft: seq<SingleError>

    ghost predicate Valid()
      reads this
    {
      pos <= |stream.entries|
    }

    constructor (s: Stream)
      ensures stream == s && pos == 0 && soft == []
      ensures Valid()
    {
      stream := s;
      pos := 0;
      soft := [];
    }

    method Current() returns (r: Result<TokenTree>)
      requires Valid()
      ensures r == CurrentAt(stream, pos)
    {
      if pos < |stream.entries| {
        r := Ok(stream.entries[pos]);
      } else {
        r := Err(NewError(stream.source, EndOfFile(EofSpan(stream))));
      }
    }

    /** `next()`: the entry at the cursor, which is consumed. */
    method Next() returns (r: Result<TokenTree>)
      requires Valid()
      modifies this`pos
      ensures Valid()
      ensures r == CurrentAt(stream, old(pos))
      ensures pos == if r.Ok? then old(pos) + 1 else old(pos)
    {
      r := Current();
      if r.Ok? {
        pos := pos + 1;
      }
    }

    method Get(offset: int) returns (r: Result<TokenTree>)
      requires Valid()
      ensures r == GetAt(stream, pos, offset)
    {
      if 0 <= pos + offset < |stream.entries| {
        r := Ok(stream.entries[pos + offset]);
      } else {
        r := Err(NewError(stream.source, EndOfFile(EofSpan(stream))));
      }
    }

    method IsEmpty() returns (b: bool)
      requires Valid()
      ensures b == IsEmptyAt(stream, pos)
    {
      b := pos >= |stream.entries| || stream.entries[pos].End?;
    }

    /** `add_error`: record a failure without stopping the parse. */
    method AddError(e: Error)
      modifies this`soft
      ensures soft == old(soft) + e
    {
      soft := soft + e;
    }

    /** Put back a position and error list saved before an attempt that failed. */
    method Restore(p: nat, errors: seq<SingleError>)
      requires p <= |stream.entries|
      modifies this
      ensures Valid() && pos == p && soft == errors
    {
      pos := p;
      soft := errors;
    }
  }

  // ---------------------------------------------------------------------------
  // Groups. The stream is flat: `(` and `)` are punct entries, and a group is
  // the run between an opening delimiter and the close that balances it.

  datatype Delimiter = Parenthesis | Brace | Bracket

  function OpenKind(d: Delimiter): PunctKind
  {
    match d
    case Parenthesis => LeftParen
    case Brace => LeftBrace
    case Bracket => LeftBracket
  }

  function CloseKind(d: Delimiter): PunctKind
  {
    match d
    case Parenthesis => RightParen
    case Brace => RightBrace
    case Bracket => RightBracket
  }

  predicate IsPunctOf(t: TokenTree, k: PunctKind)
  {
    t.PunctTree? && t.punct.kind == k
  }

  /** The entry at `pos` is a punct of kind `k`. */
  predicate IsPunctAt(s: Stream, pos: nat, k: PunctKind)
  {
    pos < |s.entries| && IsPunctOf(s.entries[pos], k)
  }

  /** The index of the close delimiter that balances `depth` opens still pending,
      scanning from `i`. */
  function MatchingClose(es: seq<TokenTree>, d: Delimiter, i: nat, depth: nat): (r: Option<nat>)
    decreases |es| - i
    ensures r.Some? ==> i <= r.value < |es| && IsPunctOf(es[r.value], CloseKind(d))
  {
    if i >= |es| then None
    else if IsPunctOf(es[i], OpenKind(d)) then MatchingClose(es, d, i + 1, depth + 1)
    else if IsPunctOf(es[i], CloseKind(d)) then
      (if depth == 0 then Some(i) else MatchingClose(es, d, i + 1, depth - 1))
    else MatchingClose(es, d, i + 1, depth)
  }

  /** A parsed group: its delimiter spans and its interior as a stream of its own,
      terminated by an `End` at the closing delimiter. */
  datatype Group = Group(delimiter: Delimiter, open: Span, close: Span, inner: seq<TokenTree>)

  /** `Group<D>::parse`. */
  function GroupAt(d: Delimiter, s: Stream, pos: nat): (r: Step<Group>)
    ensures r.Done? ==> pos < r.next <= |s.entries| && |r.value.inner| < |s.entries|
    ensures r.Done? ==> IsPunctOf(s.entries[pos], OpenKind(d)) && IsPunctOf(s.entries[r.next - 1], CloseKind(d))
  {
    match CurrentAt(s, pos)
    case Err(e) => Failed(e)
    case Ok(t) =>
      if !IsPunctOf(t, OpenKind(d)) then
        Failed(Unexpected(s.source, [PunctTable.KindChar(OpenKind(d))], SpanOf(t)))
      else
        match MatchingClose(s.entries, d, pos + 1, 0)
        case None => Failed(NewError(s.source, UnterminatedGroup(SpanOf(t), EofSpan(s))))
        case Some(c) =>
          var close := SpanOf(s.entries[c]);
          Done(Group(d, SpanOf(t), close, s.entries[pos + 1..c] + [End(close)]), c + 1)
  }

  /** `Group::remove_whitespace`: the interior without its whitespace entries. */
  function RemoveWhitespace(es: seq<TokenTree>): (r: seq<TokenTree>)
    ensures |r| <= |es|
    ensures forall i :: 0 <= i < |r| ==> !r[i].WhiteSpaceTree?
    ensures forall t :: t in r <==> t in es && !t.WhiteSpaceTree?
    ensures forall t :: multiset(r)[t] == if t.WhiteSpaceTree? then 0 else multiset(es)[t]
  {
    if es == [] then []
    else
      assert es == [es[0]] + es[1..];
      if es[0].WhiteSpaceTree? then RemoveWhitespace(es[1..])
      else [es[0]] + RemoveWhitespace(es[1..])
  }

  /** Removal keeps the order of the entries it keeps: the interior of two
      runs of entries is the interior of the first followed by that of the second. */
  lemma {:induction false} RemoveWhitespaceAppend(a: seq<TokenTree>, b: seq<TokenTree>)
    ensures RemoveWhitespace(a + b) == RemoveWhitespace(a) + RemoveWhitespace(b)
  {
    if a == [] {
      assert a + b == b;
    } else {
      var ab := a + b;
      assert ab[0] == a[0] && ab[1..] == a[1..] + b;
      RemoveWhitespaceAppend(a[1..], b);
      var tail := RemoveWhitespace(a[1..]);
      if !a[0].WhiteSpaceTree? {
        assert [a[0]] + (tail + RemoveWhitespace(b)) == ([a[0]] + tail) + RemoveWhitespace(b);
      }
    }
  }

  /** The interior of a group as the stream a nested parse runs on (whitespace
      removed, which the entry point does in any case). */
  function Interior(s: Stream, g: Group): (inner: Stream)
    ensures |inner.entries| <= |g.inner|
  {
    Stream(s.source, RemoveWhitespace(g.inner))
  }

  /** `parse(stream)` after the parser ran from the start: it must have used up
      the whole stream, otherwise the entry it stopped at is unexpected. */
  function Complete<T>(s: Stream, o: Step<T>): (r: Result<T>)
    ensures r.Ok? <==> o.Done? && IsEmptyAt(s, o.next)
  {
    match o
    case Failed(e) => Err(e)
    case Done(v, n) =>
      if IsEmptyAt(s, n) then Ok(v)
      else Err(NewError(s.source, UnexpectedToken({}, SpanOf(s.entries[n]))))
  }

  /** Parse a group off the cursor, restoring the position when that fails. */
  method ParseGroup(input: ParseStream, d: Delimiter) returns (r: Result<Group>)
    requires input.Valid()
    modifies input
    ensures input.Valid() && input.soft == old(input.soft)
    ensures Follows(r, input.pos, GroupAt(d, input.stream, old(input.pos)))
    ensures r.Err? ==> input.pos == old(input.pos)
  {
    var o := GroupAt(d, input.stream, input.pos);
    match o
    case Failed(e) =>
      r := Err(e);
    case Done(g, n) =>
      r := Ok(g);
      input.Restore(n, input.soft);
  }
}
