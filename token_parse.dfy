/** The parse contracts of the punctuation tokens of src/token.rs: single-character
    punctuation, the two- and three-character operators assembled from joint
    singles at parse time, pairs `(T1, T2)`, `Space2`, `Space4` and `Option<T>`.

    Every token type is a value of `TokenType`, a closed table the parse functions
    dispatch on. Each parser is specified by a function from a stream and a position
    to a `Step`, and the methods on `ParseStream` are proved to follow it. */
module TokenParse {
  import opened Tokens
  import opened Errors
  import opened PunctTable
  import opened Cursor

  datatype TokenType =
    | Single(kind: PunctKind)
    | Double(op2: Composite2)
    | Triple(op3: Composite3)
    | Pair(first: TokenType, second: TokenType)
    | Space2
    | Space4

  /** What a token parse yields: a span, or the two halves of a pair. */
  datatype Parsed = Leaf(span: Span) | Both(first: Parsed, second: Parsed)

  function Max(a: nat, b: nat): nat
  {
    if a < b then b else a
  }

  /** A rank that decreases from a token type to the types it is assembled from. */
  function Height(t: TokenType): nat
  {
    match t
    case Single(_) => 0
    case Double(_) => 1
    case Triple(_) => 1
    case Pair(a, b) => 1 + Max(Height(a), Height(b))
    case Space2 => 2
    case Space4 => 4
  }

  /** `Punct::display()`: the text a token stands for, which is also what an
      `UnexpectedToken` error says was expected. */
  function Display(t: TokenType): string
  {
    match t
    case Single(k) => [KindChar(k)]
    case Double(c) => Name2(c)
    case Triple(c) => Name3(c)
    case Pair(a, b) => Display(a) + Display(b)
    case Space2 => "  "
    case Space4 => "    "
  }

  /** The shape of the value a token type yields: a pair yields both halves,
      everything else one span. */
  predicate Conforms(t: TokenType, v: Parsed)
  {
    match t
    case Pair(a, b) => v.Both? && Conforms(a, v.first) && Conforms(b, v.second)
    case _ => v.Leaf?
  }

  function StartOf(v: Parsed): usize
  {
    match v
    case Leaf(sp) => sp.start
    case Both(a, _) => StartOf(a)
  }

  function EndOf(v: Parsed): usize
  {
    match v
    case Leaf(sp) => sp.end
    case Both(_, b) => EndOf(b)
  }

  // ---------------------------------------------------------------------------
  // Specification functions.

  /** A single-character punct: the next entry is consumed, and it must be a punct
      of that kind (its spacing does not matter). */
  function SingleAt(k: PunctKind, s: Stream, pos: nat): (r: Step<Parsed>)
    ensures r.Done? <==> pos < |s.entries| && IsPunctOf(s.entries[pos], k)
    ensures r.Done? ==> r.next == pos + 1 && r.value == Leaf(s.entries[pos].punct.span)
    ensures r.Failed? ==> r.error == if pos < |s.entries|
                                     then Unexpected(s.source, [KindChar(k)], SpanOf(s.entries[pos]))
                                     else NewError(s.source, EndOfFile(EofSpan(s)))
  {
    match CurrentAt(s, pos)
    case Err(e) => Failed(e)
    case Ok(t) =>
      if IsPunctOf(t, k) then Done(Leaf(t.punct.span), pos + 1)
      else Failed(Unexpected(s.source, [KindChar(k)], SpanOf(t)))
  }

  /** `from_tokens_impl` of a two-character operator: the current entry must be a
      joint punct, then both components are parsed. */
  function DoubleRawAt(c: Composite2, s: Stream, pos: nat): (r: Step<Parsed>)
  {
    match CurrentAt(s, pos)
    case Err(e) => Failed(e)
    case Ok(t) =>
      if !IsJointPunct(t) then Failed(EmptyError())
      else
        match SingleAt(Components2(c).0, s, pos)
        case Failed(e) => Failed(e)
        case Done(p1, n1) =>
          match SingleAt(Components2(c).1, s, n1)
          case Failed(e) => Failed(e)
          case Done(p2, n2) => Done(Leaf(Span(p1.span.start, p2.span.end, p1.span.source)), n2)
  }

  /** A two-character operator: two adjacent puncts of the component kinds, the
      first of them joint. Any failure after the current entry was read is
      reported as that operator being expected at the current entry. */
  function DoubleAt(c: Composite2, s: Stream, pos: nat): (r: Step<Parsed>)
    ensures r.Done? <==>
              pos + 1 < |s.entries| && IsJointPunct(s.entries[pos]) &&
              IsPunctOf(s.entries[pos], Components2(c).0) && IsPunctOf(s.entries[pos + 1], Components2(c).1)
    ensures r.Done? ==>
              r.next == pos + 2 &&
              r.value == Leaf(Span(s.entries[pos].punct.span.start, s.entries[pos + 1].punct.span.end,
                                   s.entries[pos].punct.span.source))
    ensures r.Failed? ==> r.error == if pos < |s.entries|
                                     then Unexpected(s.source, Name2(c), SpanOf(s.entries[pos]))
                                     else NewError(s.source, EndOfFile(EofSpan(s)))
  {
    match CurrentAt(s, pos)
    case Err(e) => Failed(e)
    case Ok(t) =>
      match DoubleRawAt(c, s, pos)
      case Failed(_) => Failed(Unexpected(s.source, Name2(c), SpanOf(t)))
      case Done(v, n) => Done(v, n)
  }

  /** `from_tokens_impl` of a three-character operator. Both spacing checks look
      at the current entry, so only the first component's spacing is examined. */
  function TripleRawAt(c: Composite3, s: Stream, pos: nat): (r: Step<Parsed>)
  {
    match CurrentAt(s, pos)
    case Err(e) => Failed(e)
    case Ok(t) =>
      if !IsJointPunct(t) then Failed(EmptyError())
      else if !IsJointPunct(t) then Failed(EmptyError())
      else
        match SingleAt(Components3(c).0, s, pos)
        case Failed(e) => Failed(e)
        case Done(p1, n1) =>
          match SingleAt(Components3(c).1, s, n1)
          case Failed(e) => Failed(e)
          case Done(_, n2) =>
            match SingleAt(Components3(c).2, s, n2)
            case Failed(e) => Failed(e)
            case Done(p3, n3) => Done(Leaf(Span(p1.span.start, p3.span.end, p1.span.source)), n3)
  }

  /** A three-character operator: three adjacent puncts of the component kinds,
      the first joint; the second may be alone. */
  function TripleAt(c: Composite3, s: Stream, pos: nat): (r: Step<Parsed>)
    ensures r.Done? <==>
              pos + 2 < |s.entries| && IsJointPunct(s.entries[pos]) &&
              IsPunctOf(s.entries[pos], Components3(c).0) && IsPunctOf(s.entries[pos + 1], Components3(c).1) &&
              IsPunctOf(s.entries[pos + 2], Components3(c).2)
    ensures r.Done? ==>
              r.next == pos + 3 &&
              r.value == Leaf(Span(s.entries[pos].punct.span.start, s.entries[pos + 2].punct.span.end,
                                   s.entries[pos].punct.span.source))
    ensures r.Failed? ==> r.error == if pos < |s.entries|
                                     then Unexpected(s.source, Name3(c), SpanOf(s.entries[pos]))
                                     else NewError(s.source, EndOfFile(EofSpan(s)))
  {
    match CurrentAt(s, pos)
    case Err(e) => Failed(e)
    case Ok(t) =>
      match TripleRawAt(c, s, pos)
      case Failed(_) => Failed(Unexpected(s.source, Name3(c), SpanOf(t)))
      case Done(v, n) => Done(v, n)
  }

  /** The raw parse of any token type. */
  function TokenAt(t: TokenType, s: Stream, pos: nat): (r: Step<Parsed>)
    decreases Height(t), 2
    ensures r.Done? ==> pos < r.next <= |s.entries| && Conforms(t, r.value)
  {
    match t
    case Single(k) => SingleAt(k, s, pos)
    case Double(c) => DoubleAt(c, s, pos)
    case Triple(c) => TripleAt(c, s, pos)
    case Pair(a, b) => PairAt(a, b, s, pos)
    case Space2 => Space2At(s, pos)
    case Space4 => Space4At(s, pos)
  }

  /** `parse_joint_impl`: parse `a`, require the last entry it consumed to be a
      joint punct, then parse `b`. */
  function PairRawAt(a: TokenType, b: TokenType, s: Stream, pos: nat): (r: Step<Parsed>)
    decreases 1 + Max(Height(a), Height(b)), 0
    ensures r.Done? ==> pos < r.next <= |s.entries| && Conforms(Pair(a, b), r.value)
  {
    match TokenAt(a, s, pos)
    case Failed(e) => Failed(e)
    case Done(v1, n1) =>
      match GetAt(s, n1, -1)
      case Err(e) => Failed(e)
      case Ok(prev) =>
        if !IsJointPunct(prev) then Failed(EmptyError())
        else
          match TokenAt(b, s, n1)
          case Failed(e) => Failed(e)
          case Done(v2, n2) => Done(Both(v1, v2), n2)
  }

  /** A pair `(T1, T2)`: `T1`, joint to `T2`. Every failure after the current
      entry was read names the pair's display at the current entry. */
  function PairAt(a: TokenType, b: TokenType, s: Stream, pos: nat): (r: Step<Parsed>)
    decreases 1 + Max(Height(a), Height(b)), 1
    ensures r.Done? ==> pos < r.next <= |s.entries| && Conforms(Pair(a, b), r.value)
    ensures r.Done? <==>
              TokenAt(a, s, pos).Done? && IsJointPunct(s.entries[TokenAt(a, s, pos).next - 1]) &&
              TokenAt(b, s, TokenAt(a, s, pos).next).Done?
    ensures r.Failed? ==> r.error == if pos < |s.entries|
                                     then Unexpected(s.source, Display(a) + Display(b), SpanOf(s.entries[pos]))
                                     else NewError(s.source, EndOfFile(EofSpan(s)))
  {
    PairRawDoneIff(a, b, s, pos);
    match CurrentAt(s, pos)
    case Err(e) => Failed(e)
    case Ok(t) =>
      match PairRawAt(a, b, s, pos)
      case Failed(_) => Failed(Unexpected(s.source, Display(Pair(a, b)), SpanOf(t)))
      case Done(v, n) => Done(v, n)
  }

  /** `parse_joint_impl` succeeds exactly when `T1` parses, the last entry it
      consumed is `Joint`, and `T2` parses after it. */
  lemma PairRawDoneIff(a: TokenType, b: TokenType, s: Stream, pos: nat)
    decreases 1 + Max(Height(a), Height(b)), 1, 1
    ensures PairRawAt(a, b, s, pos).Done? <==>
              TokenAt(a, s, pos).Done? && IsJointPunct(s.entries[TokenAt(a, s, pos).next - 1]) &&
              TokenAt(b, s, TokenAt(a, s, pos).next).Done?
  {
    match TokenAt(a, s, pos)
    case Failed(_) =>
    case Done(v1, n1) => PairRawDoneAfter(a, b, s, pos, v1, n1);
  }

  lemma PairRawDoneAfter(a: TokenType, b: TokenType, s: Stream, pos: nat, v1: Parsed, n1: nat)
    requires TokenAt(a, s, pos) == Done(v1, n1)
    decreases 1 + Max(Height(a), Height(b)), 1, 0
    ensures PairRawAt(a, b, s, pos).Done? <==> IsJointPunct(s.entries[n1 - 1]) && TokenAt(b, s, n1).Done?
  {
    assert GetAt(s, n1, -1) == Ok(s.entries[n1 - 1]);
  }

  /** `Space2`: the pair of two spaces, as one span in the stream's source. */
  function Space2At(s: Stream, pos: nat): (r: Step<Parsed>)
    decreases 2, 1
    ensures r.Done? ==> pos < r.next <= |s.entries| && r.value.Leaf?
    ensures r.Done? <==> PairAt(Single(Space), Single(Space), s, pos).Done?
    ensures r.Failed? ==> r.error == PairAt(Single(Space), Single(Space), s, pos).error
  {
    match PairAt(Single(Space), Single(Space), s, pos)
    case Failed(e) => Failed(e)
    case Done(v, n) => Done(Leaf(Span(StartOf(v), EndOf(v), s.source)), n)
  }

  /** `Space4`: the pair of two `Space2`s, as one span in the stream's source. */
  function Space4At(s: Stream, pos: nat): (r: Step<Parsed>)
    decreases 4, 1
    ensures r.Done? ==> pos < r.next <= |s.entries| && r.value.Leaf?
    ensures r.Done? <==> PairAt(Space2, Space2, s, pos).Done?
    ensures r.Failed? ==> r.error == PairAt(Space2, Space2, s, pos).error
  {
    match PairAt(Space2, Space2, s, pos)
    case Failed(e) => Failed(e)
    case Done(v, n) => Done(Leaf(Span(StartOf(v), EndOf(v), s.source)), n)
  }

  /** `Option<T>::parse`: never fails; absent leaves the position where it was. */
  function OptionAt(t: TokenType, s: Stream, pos: nat): (r: Step<Option<Parsed>>)
    ensures r.Done?
    ensures r.value.Some? <==> TokenAt(t, s, pos).Done?
    ensures r.value.Some? ==> r.value.value == TokenAt(t, s, pos).value && r.next == TokenAt(t, s, pos).next
    ensures r.value.None? ==> r.next == pos
  {
    match TokenAt(t, s, pos)
    case Failed(_) => Done(None, pos)
    case Done(v, n) => Done(Some(v), n)
  }

  /** A single-character punct is present exactly when the entry at the cursor
      is a punct of that kind, and it takes up that one entry. */
  lemma SingleIsOneEntry(k: PunctKind, s: Stream, pos: nat)
    ensures TokenAt(Single(k), s, pos).Done? <==> IsPunctAt(s, pos, k)
    ensures TokenAt(Single(k), s, pos).Done? ==> TokenAt(Single(k), s, pos).next == pos + 1
    ensures OptionAt(Single(k), s, pos).value.Some? <==> IsPunctAt(s, pos, k)
    ensures OptionAt(Single(k), s, pos).next == if OptionAt(Single(k), s, pos).value.Some? then pos + 1 else pos
  {
  }

  // ---------------------------------------------------------------------------
  // Properties of the token parsers.

  /** The entries of `es` from `pos` on are puncts whose characters spell `d`. */
  predicate Spells(es: seq<TokenTree>, pos: nat, d: string)
    decreases |d|
  {
    if d == [] then pos <= |es|
    else pos < |es| && es[pos].PunctTree? && KindChar(es[pos].punct.kind) == d[0] && Spells(es, pos + 1, d[1..])
  }

  lemma {:induction false} SpellsConcat(es: seq<TokenTree>, pos: nat, da: string, db: string)
    requires Spells(es, pos, da) && Spells(es, pos + |da|, db)
    decreases |da|
    ensures Spells(es, pos, da + db)
  {
    if da == [] {
      assert da + db == db;
    } else {
      SpellsConcat(es, pos + 1, da[1..], db);
      assert (da + db)[1..] == da[1..] + db;
    }
  }

  /** The entries a successful parse consumes are puncts that spell the token's
      display, one character per entry. */
  lemma {:induction false} ConsumedEntriesSpellDisplay(t: TokenType, s: Stream, pos: nat)
    requires TokenAt(t, s, pos).Done?
    decreases Height(t), 2
    ensures TokenAt(t, s, pos).next == pos + |Display(t)|
    ensures Spells(s.entries, pos, Display(t))
  {
    match t
    case Single(k) => SingleSpellsDisplay(k, s, pos);
    case Double(c) => DoubleSpellsDisplay(c, s, pos);
    case Triple(c) => TripleSpellsDisplay(c, s, pos);
    case Pair(a, b) => PairSpellsDisplay(a, b, s, pos);
    case Space2 => Space2SpellsDisplay(s, pos);
    case Space4 => Space4SpellsDisplay(s, pos);
  }

  lemma SingleSpellsDisplay(k: PunctKind, s: Stream, pos: nat)
    requires TokenAt(Single(k), s, pos).Done?
    ensures TokenAt(Single(k), s, pos).next == pos + |Display(Single(k))|
    ensures Spells(s.entries, pos, Display(Single(k)))
  {
    assert Spells(s.entries, pos + 1, Display(Single(k))[1..]);
  }

  lemma {:induction false} Space2SpellsDisplay(s: Stream, pos: nat)
    requires TokenAt(Space2, s, pos).Done?
    decreases Height(Space2), 1
    ensures TokenAt(Space2, s, pos).next == pos + |Display(Space2)|
    ensures Spells(s.entries, pos, Display(Space2))
  {
    assert TokenAt(Space2, s, pos).next == PairAt(Single(Space), Single(Space), s, pos).next;
    PairSpellsDisplay(Single(Space), Single(Space), s, pos);
  }

  lemma {:induction false} Space4SpellsDisplay(s: Stream, pos: nat)
    requires TokenAt(Space4, s, pos).Done?
    decreases Height(Space4), 1
    ensures TokenAt(Space4, s, pos).next == pos + |Display(Space4)|
    ensures Spells(s.entries, pos, Display(Space4))
  {
    assert TokenAt(Space4, s, pos).next == PairAt(Space2, Space2, s, pos).next;
    PairSpellsDisplay(Space2, Space2, s, pos);
  }

  lemma DoubleSpellsDisplay(c: Composite2, s: Stream, pos: nat)
    requires TokenAt(Double(c), s, pos).Done?
    ensures TokenAt(Double(c), s, pos).next == pos + |Display(Double(c))|
    ensures Spells(s.entries, pos, Display(Double(c)))
  {
    assert TokenAt(Double(c), s, pos) == DoubleAt(c, s, pos);
    NamesSpellComponents(c, HashHashHash);
    var d := Name2(c);
    assert Spells(s.entries, pos + 2, d[1..][1..]);
  }

  lemma TripleSpellsDisplay(c: Composite3, s: Stream, pos: nat)
    requires TokenAt(Triple(c), s, pos).Done?
    ensures TokenAt(Triple(c), s, pos).next == pos + |Display(Triple(c))|
    ensures Spells(s.entries, pos, Display(Triple(c)))
  {
    assert TokenAt(Triple(c), s, pos) == TripleAt(c, s, pos);
    NamesSpellComponents(BangEqual, c);
    var d := Name3(c);
    assert Spells(s.entries, pos + 3, d[1..][1..][1..]);
    assert Spells(s.entries, pos + 2, d[1..][1..]);
  }

  lemma {:induction false} PairSpellsDisplay(a: TokenType, b: TokenType, s: Stream, pos: nat)
    requires PairAt(a, b, s, pos).Done?
    decreases 1 + Max(Height(a), Height(b)), 0
    ensures PairAt(a, b, s, pos).next == pos + |Display(a) + Display(b)|
    ensures Spells(s.entries, pos, Display(a) + Display(b))
  {
    PairParts(a, b, s, pos);
    var n1 := TokenAt(a, s, pos).next;
    ConsumedEntriesSpellDisplay(a, s, pos);
    ConsumedEntriesSpellDisplay(b, s, n1);
    SpellsJoin(s.entries, pos, n1, TokenAt(b, s, n1).next, Display(a), Display(b));
  }

  /** Two spellings that meet end to end spell the concatenation. */
  lemma SpellsJoin(es: seq<TokenTree>, pos: nat, mid: nat, end: nat, da: string, db: string)
    requires mid == pos + |da| && end == mid + |db|
    requires Spells(es, pos, da) && Spells(es, mid, db)
    ensures end == pos + |da + db| && Spells(es, pos, da + db)
  {
    SpellsConcat(es, pos, da, db);
  }

  /** A pair that parses is its first half, then its second half from where the
      first ended. */
  lemma PairParts(a: TokenType, b: TokenType, s: Stream, pos: nat)
    requires PairAt(a, b, s, pos).Done?
    ensures TokenAt(a, s, pos).Done? && TokenAt(b, s, TokenAt(a, s, pos).next).Done?
    ensures PairAt(a, b, s, pos).next == TokenAt(b, s, TokenAt(a, s, pos).next).next
  {
    assert PairRawAt(a, b, s, pos).Done?;
  }

  /** Every failure of a token parse at an entry of the stream is one
      `UnexpectedToken` naming exactly the token's display at that entry. */
  lemma FailureNamesDisplay(t: TokenType, s: Stream, pos: nat)
    requires pos < |s.entries| && TokenAt(t, s, pos).Failed?
    ensures TokenAt(t, s, pos).error == Unexpected(s.source, Display(t), SpanOf(s.entries[pos]))
  {
    match t
    case Single(_) =>
    case Double(_) =>
    case Triple(_) =>
    case Pair(_, _) =>
    case Space2 =>
      assert Display(Space2) == Display(Single(Space)) + Display(Single(Space));
    case Space4 =>
      assert Display(Space4) == Display(Space2) + Display(Space2);
  }

  /** A three-character operator parses the same whatever the spacing of its
      second entry: only the first entry's spacing is examined. */
  lemma TripleIgnoresSecondSpacing(c: Composite3, s: Stream, pos: nat, sp: Spacing)
    requires pos + 1 < |s.entries| && s.entries[pos + 1].PunctTree?
    ensures var p := s.entries[pos + 1].punct;
            var s' := s.(entries := s.entries[pos + 1 := PunctTree(p.(spacing := sp))]);
            TripleAt(c, s, pos) == TripleAt(c, s', pos)
  {
    var p := s.entries[pos + 1].punct;
    var s' := s.(entries := s.entries[pos + 1 := PunctTree(p.(spacing := sp))]);
    if TripleAt(c, s, pos).Done? {
      assert TripleAt(c, s', pos).Done?;
    }
  }

  /** A two-character operator, in contrast, rejects an alone first component. */
  lemma DoubleRejectsAloneFirst(c: Composite2, s: Stream, pos: nat)
    requires pos < |s.entries| && s.entries[pos].PunctTree? && s.entries[pos].punct.spacing == Alone
    ensures DoubleAt(c, s, pos) == Failed(Unexpected(s.source, Name2(c), s.entries[pos].punct.span))
  {
  }

  /** `Space4` and the pair of two `Space2`s accept the same streams, and `Space2`
      and the pair of two spaces likewise, with the same displays. */
  lemma SpacesAreJointPairs(s: Stream, pos: nat)
    ensures Space4At(s, pos).Done? == TokenAt(Pair(Space2, Space2), s, pos).Done?
    ensures Space2At(s, pos).Done? == TokenAt(Pair(Single(Space), Single(Space)), s, pos).Done?
    ensures Display(Space4) == Display(Pair(Space2, Space2))
    ensures Display(Space2) == Display(Pair(Single(Space), Single(Space)))
  {
  }

  // ---------------------------------------------------------------------------
  // The parsers on the cursor.

  /** `input.parse::<T>()`: run the raw parse and put the cursor back when it fails. */
  method ParseToken(input: ParseStream, t: TokenType) returns (r: Result<Parsed>)
    requires input.Valid()
    modifies input
    decreases Height(t), 3
    ensures input.Valid() && input.soft == old(input.soft)
    ensures Follows(r, input.pos, TokenAt(t, input.stream, old(input.pos)))
    ensures r.Err? ==> input.pos == old(input.pos)
  {
    var start := input.pos;
    r := RawParse(input, t);
    if r.Err? {
      input.Restore(start, input.soft);
    }
  }

  /** `T::parse` for every token type. On failure the cursor may have moved. */
  method RawParse(input: ParseStream, t: TokenType) returns (r: Result<Parsed>)
    requires input.Valid()
    modifies input
    decreases Height(t), 2
    ensures input.Valid() && input.soft == old(input.soft)
    ensures Follows(r, input.pos, TokenAt(t, input.stream, old(input.pos)))
  {
    match t
    case Single(k) => r := ParseSingle(input, k);
    case Double(c) => r := ParseDouble(input, c);
    case Triple(c) => r := ParseTriple(input, c);
    case Pair(a, b) => r := ParsePair(input, a, b);
    case Space2 => r := ParseSpace2(input);
    case Space4 => r := ParseSpace4(input);
  }

  method ParseSingle(input: ParseStream, k: PunctKind) returns (r: Result<Parsed>)
    requires input.Valid()
    modifies input
    ensures input.Valid() && input.soft == old(input.soft)
    ensures Follows(r, input.pos, SingleAt(k, input.stream, old(input.pos)))
  {
    var token := input.Next();
    if token.Err? {
      return Err(token.error);
    }
    var tree := token.value;
    if tree.PunctTree? && tree.punct.kind == k {
      r := Ok(Leaf(tree.punct.span));
    } else {
      r := Err(Unexpected(input.stream.source, [KindChar(k)], SpanOf(tree)));
    }
  }

  method DoubleFromTokens(input: ParseStream, c: Composite2) returns (r: Result<Parsed>)
    requires input.Valid()
    modifies input
    decreases 1, 0
    ensures input.Valid() && input.soft == old(input.soft)
    ensures Follows(r, input.pos, DoubleRawAt(c, input.stream, old(input.pos)))
  {
    var current := input.Current();
    if current.Err? {
      return Err(current.error);
    }
    if !IsJointPunct(current.value) {
      return Err(EmptyError());
    }
    var start := ParseToken(input, Single(Components2(c).0));
    if start.Err? {
      return Err(start.error);
    }
    var end := ParseToken(input, Single(Components2(c).1));
    if end.Err? {
      return Err(end.error);
    }
    r := Ok(Leaf(Span(start.value.span.start, end.value.span.end, start.value.span.source)));
  }

  method ParseDouble(input: ParseStream, c: Composite2) returns (r: Result<Parsed>)
    requires input.Valid()
    modifies input
    decreases 1, 1
    ensures input.Valid() && input.soft == old(input.soft)
    ensures Follows(r, input.pos, DoubleAt(c, input.stream, old(input.pos)))
  {
    var current := input.Current();
    if current.Err? {
      return Err(current.error);
    }
    var span := SpanOf(current.value);
    r := DoubleFromTokens(input, c);
    if r.Err? {
      r := Err(Unexpected(input.stream.source, Name2(c), span));
    }
  }

  method TripleFromTokens(input: ParseStream, c: Composite3) returns (r: Result<Parsed>)
    requires input.Valid()
    modifies input
    decreases 1, 0
    ensures input.Valid() && input.soft == old(input.soft)
    ensures Follows(r, input.pos, TripleRawAt(c, input.stream, old(input.pos)))
  {
    var current := input.Current();
    if current.Err? {
      return Err(current.error);
    }
    if !IsJointPunct(current.value) {
      return Err(EmptyError());
    }
    current := input.Current();
    if !IsJointPunct(current.value) {
      return Err(EmptyError());
    }
    var p1 := ParseToken(input, Single(Components3(c).0));
    if p1.Err? {
      return Err(p1.error);
    }
    var p2 := ParseToken(input, Single(Components3(c).1));
    if p2.Err? {
      return Err(p2.error);
    }
    var p3 := ParseToken(input, Single(Components3(c).2));
    if p3.Err? {
      return Err(p3.error);
    }
    r := Ok(Leaf(Span(p1.value.span.start, p3.value.span.end, p1.value.span.source)));
  }

  method ParseTriple(input: ParseStream, c: Composite3) returns (r: Result<Parsed>)
    requires input.Valid()
    modifies input
    decreases 1, 1
    ensures input.Valid() && input.soft == old(input.soft)
    ensures Follows(r, input.pos, TripleAt(c, input.stream, old(input.pos)))
  {
    var current := input.Current();
    if current.Err? {
      return Err(current.error);
    }
    var span := SpanOf(current.value);
    r := TripleFromTokens(input, c);
    if r.Err? {
      r := Err(Unexpected(input.stream.source, Name3(c), span));
    }
  }

  method PairJoint(input: ParseStream, a: TokenType, b: TokenType) returns (r: Result<Parsed>)
    requires input.Valid()
    modifies input
    decreases 1 + Max(Height(a), Height(b)), 0
    ensures input.Valid() && input.soft == old(input.soft)
    ensures Follows(r, input.pos, PairRawAt(a, b, input.stream, old(input.pos)))
  {
    var t1 := ParseToken(input, a);
    if t1.Err? {
      return Err(t1.error);
    }
    var prev := input.Get(-1);
    match prev {
      case Err(e) =>
        return Err(e);
      case Ok(p) =>
        if !IsJointPunct(p) {
          return Err(EmptyError());
        }
    }
    var t2 := ParseToken(input, b);
    if t2.Err? {
      return Err(t2.error);
    }
    r := Ok(Both(t1.value, t2.value));
  }

  method ParsePair(input: ParseStream, a: TokenType, b: TokenType) returns (r: Result<Parsed>)
    requires input.Valid()
    modifies input
    decreases 1 + Max(Height(a), Height(b)), 1
    ensures input.Valid() && input.soft == old(input.soft)
    ensures Follows(r, input.pos, PairAt(a, b, input.stream, old(input.pos)))
  {
    var current := input.Current();
    if current.Err? {
      return Err(current.error);
    }
    var span := SpanOf(current.value);
    r := PairJoint(input, a, b);
    if r.Err? {
      r := Err(Unexpected(input.stream.source, Display(a) + Display(b), span));
    }
  }

  method ParseSpace2(input: ParseStream) returns (r: Result<Parsed>)
    requires input.Valid()
    modifies input
    decreases 2, 1
    ensures input.Valid() && input.soft == old(input.soft)
    ensures Follows(r, input.pos, Space2At(input.stream, old(input.pos)))
  {
    var pair := ParseToken(input, Pair(Single(Space), Single(Space)));
    if pair.Err? {
      return Err(pair.error);
    }
    r := Ok(Leaf(Span(StartOf(pair.value), EndOf(pair.value), input.stream.source)));
  }

  method ParseSpace4(input: ParseStream) returns (r: Result<Parsed>)
    requires input.Valid()
    modifies input
    decreases 4, 1
    ensures input.Valid() && input.soft == old(input.soft)
    ensures Follows(r, input.pos, Space4At(input.stream, old(input.pos)))
  {
    var pair := ParseToken(input, Pair(Space2, Space2));
    if pair.Err? {
      return Err(pair.error);
    }
    r := Ok(Leaf(Span(StartOf(pair.value), EndOf(pair.value), input.stream.source)));
  }

  /** `Option<T>::parse`: `try_parse`, turning a failure into absent. */
  method ParseOption(input: ParseStream, t: TokenType) returns (r: Option<Parsed>)
    requires input.Valid()
    modifies input
    ensures input.Valid() && input.soft == old(input.soft)
    ensures Follows(Ok(r), input.pos, OptionAt(t, input.stream, old(input.pos)))
  {
    var attempt := ParseToken(input, t);
    if attempt.Ok? {
      r := Some(attempt.value);
    } else {
      r := None;
    }
  }

  /** `input.peek(T)`: whether `T` parses here; the cursor does not move. */
  method Peek(input: ParseStream, t: TokenType) returns (b: bool)
    requires input.Valid()
    modifies input
    ensures input.Valid() && input.pos == old(input.pos) && input.soft == old(input.soft)
    ensures b == TokenAt(t, input.stream, input.pos).Done?
  {
    var start := input.pos;
    var attempt := ParseToken(input, t);
    b := attempt.Ok?;
    input.Restore(start, input.soft);
  }
}
