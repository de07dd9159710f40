/** The expression grammar of the Lox example (examples/lox.rs, `impl Expr`):
    assignment, the binary levels `or`, `and`, equality, comparison, term and
    factor, unary operators, calls and property access, and primaries.

    Each grammar function is specified by a function from a stream, a position
    and the errors recorded so far with `add_error` to an `Outcome`; the
    methods on `ParseStream` mirror the source's loops and recursion and are
    proved to follow those functions. The six binary levels share one loop,
    driven by each level's operator table. */
module LoxExpr {
  import opened Tokens
  import opened Errors
  import opened Cursor
  import opened TokenParse
  import opened Lexemes
  import opened LoxAst
  import PunctTable

  /** `mod kw`: the reserved words. */
  const KEYWORDS: set<string> :=
    {"and", "class", "else", "false", "for", "fun", "if", "nil", "or", "print", "return",
     "super", "this", "true", "var", "while"}

  /** The candidates `primary`'s lookahead collects: `super` and `this` are probed
      with `input.peek`, so they are not among them. */
  const PRIMARY_EXPECTED: set<string> :=
    {"false", "true", "nil", FLOAT_DISPLAY, INT_DISPLAY, STRING_DISPLAY, IDENT_DISPLAY, "("}

  const INVALID_TARGET: string := "Invalid assignment target"
  const TOO_MANY_ARGUMENTS: string := "Can't have more than 254 arguments"

  /** The argument or parameter count from which an error is recorded. */
  const MAX_LIST: nat := 255

  /** The outcome of a parse from a position with errors `soft` already
      recorded: the value, the position after it and the recorded errors, or the
      error that stopped it. */
  datatype Outcome<T> = Parsed(value: T, next: nat, soft: Error) | Stopped(error: Error)

  /** On success the parse moved forward within the stream and recorded errors
      were only appended to. */
  predicate Advances<T>(r: Outcome<T>, s: Stream, pos: nat, soft: Error)
  {
    r.Parsed? ==> pos < r.next <= |s.entries| && soft <= r.soft
  }

  /** A method's result and the cursor's new state agree with an outcome. */
  predicate Tracks<T(==)>(r: Result<T>, pos: nat, soft: Error, o: Outcome<T>)
  {
    match o
    case Parsed(v, n, sf) => r == Ok(v) && pos == n && soft == sf
    case Stopped(e) => r == Err(e)
  }

  /** `parse(stream)` for a parser run on a stream of its own from its start:
      it succeeds only when the stream was used up and no error was recorded;
      otherwise the recorded errors, then any leftover entry, are reported. */
  function Finish<T>(s: Stream, o: Outcome<T>): (r: Result<T>)
    ensures r.Ok? <==> o.Parsed? && IsEmptyAt(s, o.next) && o.soft == []
    ensures o.Stopped? ==> r == Err(o.error)
    ensures r.Ok? ==> r.value == o.value
    ensures o.Parsed? && r.Err? ==> o.soft <= r.error
  {
    match o
    case Stopped(e) => Err(e)
    case Parsed(v, n, sf) =>
      if !IsEmptyAt(s, n) then Err(sf + NewError(s.source, UnexpectedToken({}, SpanOf(s.entries[n]))))
      else if sf != [] then Err(sf)
      else Ok(v)
  }

  /** `Parentheses::delimiters()`: the span from the opening to the closing parenthesis. */
  function ParenSpan(g: Group): Span
  {
    Span(g.open.start, g.close.end, g.open.source)
  }

  /** `kw::ident`: an identifier that is not a keyword. */
  function KwIdentAt(s: Stream, pos: nat): (r: Step<Ident>)
    ensures r.Done? <==> IsIdentAt(s, pos) && s.entries[pos].ident.name !in KEYWORDS
    ensures r.Done? ==> r.value == s.entries[pos].ident && r.next == pos + 1
  {
    match ExpectIdentAt(s, pos)
    case Failed(e) => Failed(e)
    case Done(i, n) => if i.name in KEYWORDS then Failed(Unexpected(s.source, IDENT_DISPLAY, i.span)) else Done(i, n)
  }

  // ---------------------------------------------------------------------------
  // Operator tables.

  /** How a level recognises an operator: a keyword, or a punctuation token. */
  datatype Probe = Word(keyword: string) | Mark(token: TokenType)

  /** What a level builds from its operator and two operands. */
  datatype Combiner = MakeBinary(op: BinaryOp) | MakeLogical(lop: LogicalOp)

  datatype Infix = Infix(probe: Probe, combiner: Combiner)

  function Combine(c: Combiner, left: Expr, right: Expr): Expr
  {
    match c
    case MakeBinary(op) => Binary(op, left, right)
    case MakeLogical(lop) => Logical(lop, left, right)
  }

  /** `Punct!["=="]`: two `=` puncts, the first joint. */
  const EQUAL_EQUAL: TokenType := Pair(Single(PunctKind.Equal), Single(PunctKind.Equal))

  /** `comparison` as the source orders its probes: `>` before `>=` and `<`
      before `<=`. */
  const COMPARISON_AS_WRITTEN: seq<Infix> :=
    [Infix(Mark(Single(RAngle)), MakeBinary(Greater)),
     Infix(Mark(Double(PunctTable.GreaterEqual)), MakeBinary(BinaryOp.GreaterEqual)),
     Infix(Mark(Single(LAngle)), MakeBinary(Less)),
     Infix(Mark(Double(PunctTable.LessEqual)), MakeBinary(BinaryOp.LessEqual))]

  /** `comparison` with each two-character operator probed before its
      one-character prefix. */
  const COMPARISON: seq<Infix> :=
    [Infix(Mark(Double(PunctTable.GreaterEqual)), MakeBinary(BinaryOp.GreaterEqual)),
     Infix(Mark(Single(RAngle)), MakeBinary(Greater)),
     Infix(Mark(Double(PunctTable.LessEqual)), MakeBinary(BinaryOp.LessEqual)),
     Infix(Mark(Single(LAngle)), MakeBinary(Less))]

  /** The operators of level 6 (`or`) down to level 1 (`factor`), in the order
      each level probes them. */
  function OperatorsOf(level: nat): seq<Infix>
    requires 1 <= level <= 6
  {
    if level == 6 then [Infix(Word("or"), MakeLogical(Or))]
    else if level == 5 then [Infix(Word("and"), MakeLogical(And))]
    else if level == 4 then
      [Infix(Mark(EQUAL_EQUAL), MakeBinary(BinaryOp.Equal)),
       Infix(Mark(Double(PunctTable.BangEqual)), MakeBinary(NotEqual))]
    else if level == 3 then COMPARISON_AS_WRITTEN
    else if level == 2 then
      [Infix(Mark(Single(Plus)), MakeBinary(Add)), Infix(Mark(Single(Dash)), MakeBinary(Sub))]
    else
      [Infix(Mark(Single(Asterisk)), MakeBinary(Mul)), Infix(Mark(Single(Slash)), MakeBinary(Div))]
  }

  /** Whether a probe's token is at `pos`, and the position after it. */
  function ProbeAt(p: Probe, s: Stream, pos: nat): (r: Option<nat>)
    ensures r.Some? ==> pos < r.value <= |s.entries|
  {
    match p
    case Word(k) => if IsKeywordAt(s, pos, k) then Some(pos + 1) else None
    case Mark(t) => if TokenAt(t, s, pos).Done? then Some(TokenAt(t, s, pos).next) else None
  }

  /** Operator `i` of a table is present at `pos`, after `n`, and none before it is. */
  predicate FirstPresent(ops: seq<Infix>, s: Stream, pos: nat, i: nat, n: nat)
  {
    i < |ops| && ProbeAt(ops[i].probe, s, pos) == Some(n) &&
    forall j :: 0 <= j < i ==> ProbeAt(ops[j].probe, s, pos).None?
  }

  /** The first operator of a table present at `pos`, in table order. */
  function FirstMatch(ops: seq<Infix>, s: Stream, pos: nat): (r: Option<(Combiner, nat)>)
    ensures r.Some? ==> pos < r.value.1 <= |s.entries|
    ensures r.None? <==> forall i :: 0 <= i < |ops| ==> ProbeAt(ops[i].probe, s, pos).None?
    ensures r.Some? ==> exists i: nat :: FirstPresent(ops, s, pos, i, r.value.1) && ops[i].combiner == r.value.0
  {
    if ops == [] then None
    else
      match ProbeAt(ops[0].probe, s, pos)
      case Some(n) =>
        assert FirstPresent(ops, s, pos, 0, n);
        Some((ops[0].combiner, n))
      case None =>
        var r := FirstMatch(ops[1..], s, pos);
        FirstMatchTail(ops, s, pos, r);
        r
  }

  /** Skipping an absent first operator shifts every index by one. */
  lemma FirstMatchTail(ops: seq<Infix>, s: Stream, pos: nat, r: Option<(Combiner, nat)>)
    requires ops != [] && ProbeAt(ops[0].probe, s, pos).None?
    requires r.None? <==> forall i :: 0 <= i < |ops| - 1 ==> ProbeAt(ops[1..][i].probe, s, pos).None?
    requires r.Some? ==> exists i: nat :: FirstPresent(ops[1..], s, pos, i, r.value.1) && ops[1..][i].combiner == r.value.0
    ensures r.None? <==> forall i :: 0 <= i < |ops| ==> ProbeAt(ops[i].probe, s, pos).None?
    ensures r.Some? ==> exists i: nat :: FirstPresent(ops, s, pos, i, r.value.1) && ops[i].combiner == r.value.0
  {
    assert forall i :: 1 <= i < |ops| ==> ops[i] == ops[1..][i - 1];
    if r.Some? {
      var i: nat :| FirstPresent(ops[1..], s, pos, i, r.value.1) && ops[1..][i].combiner == r.value.0;
      assert FirstPresent(ops, s, pos, i + 1, r.value.1);
    }
  }

  /** Looking for the first operator from index `i` on: either operator `i` is
      present, or the search goes on from `i + 1`. */
  lemma FirstMatchStep(ops: seq<Infix>, s: Stream, pos: nat, i: nat)
    requires i < |ops|
    ensures FirstMatch(ops[i..], s, pos) ==
              if ProbeAt(ops[i].probe, s, pos).Some? then Some((ops[i].combiner, ProbeAt(ops[i].probe, s, pos).value))
              else FirstMatch(ops[i + 1..], s, pos)
  {
    assert ops[i..][0] == ops[i] && ops[i..][1..] == ops[i + 1..];
  }

  // ---------------------------------------------------------------------------
  // Specification functions. The ranks in the `decreases` clauses order the
  // functions that call each other at the same position; a nested parse runs on
  // a strictly shorter stream.

  /** `parse(stream)` of an expression. */
  function ExprOf(s: Stream): (r: Result<Expr>)
    decreases |s.entries|, |s.entries| + 1, 0
    ensures var o := AssignmentAt(s, 0, []);
            (r.Ok? <==> o.Parsed? && IsEmptyAt(s, o.next) && o.soft == []) && (r.Ok? ==> r.value == o.value)
  {
    Finish(s, AssignmentAt(s, 0, []))
  }

  /** `assignment` (what `Expr::parse` runs): an `or`-level expression, and if a
      `=` follows, the assigned value, parsed as an assignment in turn. A
      variable becomes `Assign` and a property access `Set`; any other target is
      kept as it is and "Invalid assignment target" is recorded at the `=`. */
  function AssignmentAt(s: Stream, pos: nat, soft: Error): (r: Outcome<Expr>)
    decreases |s.entries|, |s.entries| - pos, 30
    ensures Advances(r, s, pos, soft)
  {
    match LevelAt(6, s, pos, soft)
    case Stopped(e) => Stopped(e)
    case Parsed(x, n, sf) =>
      if !IsPunctAt(s, n, PunctKind.Equal) then Parsed(x, n, sf)
      else
        match AssignmentAt(s, n + 1, sf)
        case Stopped(e) => Stopped(e)
        case Parsed(v, m, sf2) =>
          if x.Variable? then Parsed(Assign(x.name, v), m, sf2)
          else if x.Get? then Parsed(Set(x.obj, x.name, v), m, sf2)
          else Parsed(x, m, sf2 + NewError(s.source, Custom(INVALID_TARGET, s.entries[n].punct.span)))
  }

  /** One binary level (`or`, `and`, `equality`, `comparison`, `term`,
      `factor`): an operand of the level below, then the level's loop. */
  function LevelAt(level: nat, s: Stream, pos: nat, soft: Error): (r: Outcome<Expr>)
    requires 1 <= level <= 6
    decreases |s.entries|, |s.entries| - pos, 13 + 2 * level
    ensures Advances(r, s, pos, soft)
  {
    match OperandAt(level, s, pos, soft)
    case Stopped(e) => Stopped(e)
    case Parsed(x, n, sf) => LevelLoop(level, OperatorsOf(level), s, n, x, sf)
  }

  /** The operand of a level: the next level down, `unary` below `factor`. */
  function OperandAt(level: nat, s: Stream, pos: nat, soft: Error): (r: Outcome<Expr>)
    requires 1 <= level <= 6
    decreases |s.entries|, |s.entries| - pos, 12 + 2 * level
    ensures Advances(r, s, pos, soft)
  {
    if level == 1 then UnaryAt(s, pos, soft) else LevelAt(level - 1, s, pos, soft)
  }

  /** The loop of a level with `acc` parsed so far: while one of the operators is
      present, parse the next operand and combine. It stops, without consuming
      anything, at the first position where no operator is present. */
  function LevelLoop(level: nat, ops: seq<Infix>, s: Stream, pos: nat, acc: Expr, soft: Error): (r: Outcome<Expr>)
    requires 1 <= level <= 6 && pos <= |s.entries|
    decreases |s.entries|, |s.entries| - pos, 13 + 2 * level
    ensures r.Parsed? ==> pos <= r.next <= |s.entries| && soft <= r.soft
    ensures r.Parsed? ==> FirstMatch(ops, s, r.next).None?
  {
    match FirstMatch(ops, s, pos)
    case None => Parsed(acc, pos, soft)
    case Some((c, q)) =>
      match OperandAt(level, s, q, soft)
      case Stopped(e) => Stopped(e)
      case Parsed(y, n, sf) =>
        LevelLoop(level, ops, s, n, Combine(c, acc, y), sf)
  }

  /** `unary`: each leading `-` or `!` wraps what follows; otherwise a call. */
  function UnaryAt(s: Stream, pos: nat, soft: Error): (r: Outcome<Expr>)
    decreases |s.entries|, |s.entries| - pos, 13
    ensures Advances(r, s, pos, soft)
  {
    if IsPunctAt(s, pos, Dash) then
      match UnaryAt(s, pos + 1, soft)
      case Stopped(e) => Stopped(e)
      case Parsed(x, n, sf) => Parsed(Unary(Neg, x), n, sf)
    else if IsPunctAt(s, pos, Bang) then
      match UnaryAt(s, pos + 1, soft)
      case Stopped(e) => Stopped(e)
      case Parsed(x, n, sf) => Parsed(Unary(Not, x), n, sf)
    else CallAt(s, pos, soft)
  }

  /** `call`: a primary followed by any number of argument lists and `.name`
      accesses, applied left to right. */
  function CallAt(s: Stream, pos: nat, soft: Error): (r: Outcome<Expr>)
    decreases |s.entries|, |s.entries| - pos, 12
    ensures Advances(r, s, pos, soft)
  {
    match PrimaryAt(s, pos, soft)
    case Stopped(e) => Stopped(e)
    case Parsed(x, n, sf) => CallLoop(s, n, x, sf)
  }

  function CallLoop(s: Stream, pos: nat, acc: Expr, soft: Error): (r: Outcome<Expr>)
    requires pos <= |s.entries|
    decreases |s.entries|, |s.entries| - pos, 12
    ensures r.Parsed? ==> pos <= r.next <= |s.entries| && soft <= r.soft
    ensures r.Parsed? ==> !IsPunctAt(s, r.next, LeftParen) && !IsPunctAt(s, r.next, Dot)
  {
    if IsPunctAt(s, pos, LeftParen) then
      match FinishCallAt(s, pos, acc, soft)
      case Stopped(e) => Stopped(e)
      case Parsed(x, n, sf) => CallLoop(s, n, x, sf)
    else if IsPunctAt(s, pos, Dot) then
      match ExpectIdentAt(s, pos + 1)
      case Failed(e) => Stopped(e)
      case Done(name, n) => CallLoop(s, n, Get(acc, name), soft)
    else Parsed(acc, pos, soft)
  }

  /** `finish_call`: the parenthesised arguments, parsed as a stream of their own
      with a trailing comma allowed. A call with 255 or more arguments is still
      built, and "Can't have more than 254 arguments" is recorded at the
      parentheses. */
  function FinishCallAt(s: Stream, pos: nat, callee: Expr, soft: Error): (r: Outcome<Expr>)
    decreases |s.entries|, |s.entries| - pos, 10
    ensures Advances(r, s, pos, soft)
    ensures r.Parsed? ==> r.value.Call? && r.value.callee == callee
    ensures r.Parsed? ==> r.soft == if |r.value.arguments| >= MAX_LIST
                                    then soft + NewError(s.source, Custom(TOO_MANY_ARGUMENTS, r.value.paren))
                                    else soft
  {
    match GroupAt(Parenthesis, s, pos)
    case Failed(e) => Stopped(e)
    case Done(g, n) => CallOfGroup(s, g, n, callee, soft)
  }

  /** The call whose arguments are the interior of the parenthesised group `g`,
      with the cursor after the group at `n`. */
  function CallOfGroup(s: Stream, g: Group, n: nat, callee: Expr, soft: Error): (r: Outcome<Expr>)
    requires |g.inner| < |s.entries|
    decreases |s.entries|, 0, 0
    ensures r.Parsed? ==> r.next == n && r.value.Call? && r.value.callee == callee
    ensures r.Parsed? ==> r.soft == if |r.value.arguments| >= MAX_LIST
                                    then soft + NewError(s.source, Custom(TOO_MANY_ARGUMENTS, r.value.paren))
                                    else soft
  {
    match ArgumentsOf(Interior(s, g))
    case Err(e) => Stopped(e)
    case Ok(args) =>
      var paren := ParenSpan(g);
      Parsed(Call(callee, paren, args), n,
             if |args| >= MAX_LIST then soft + NewError(s.source, Custom(TOO_MANY_ARGUMENTS, paren)) else soft)
  }

  /** `Punctuated::parse_separated_trailing.parse(stream)` of expressions. */
  function ArgumentsOf(s: Stream): (r: Result<seq<Expr>>)
    decreases |s.entries|, |s.entries| + 1, 0
  {
    Finish(s, ArgumentsAt(s, 0, []))
  }

  /** A comma-separated list of expressions, possibly empty, possibly with a
      trailing comma. */
  function ArgumentsAt(s: Stream, pos: nat, soft: Error): (r: Outcome<seq<Expr>>)
    requires pos <= |s.entries|
    decreases |s.entries|, |s.entries| - pos, 32
    ensures r.Parsed? ==> pos <= r.next <= |s.entries| && soft <= r.soft
    ensures r.Parsed? && r.next == pos ==> r.value == []
  {
    if IsEmptyAt(s, pos) then Parsed([], pos, soft)
    else
      match AssignmentAt(s, pos, soft)
      case Stopped(e) => Stopped(e)
      case Parsed(x, n, sf) => ArgumentsLoop(s, n, [x], sf)
  }

  /** The loop after the first item: a comma then either the end of the stream
      (a trailing comma) or the next item. Items are only appended. */
  function ArgumentsLoop(s: Stream, pos: nat, acc: seq<Expr>, soft: Error): (r: Outcome<seq<Expr>>)
    requires pos <= |s.entries|
    decreases |s.entries|, |s.entries| - pos, 32
    ensures r.Parsed? ==> pos <= r.next <= |s.entries| && soft <= r.soft
    ensures r.Parsed? ==> acc <= r.value
    ensures r.Parsed? && r.next == pos ==> r.value == acc
  {
    if !IsPunctAt(s, pos, Comma) then Parsed(acc, pos, soft)
    else if IsEmptyAt(s, pos + 1) then Parsed(acc, pos + 1, soft)
    else
      match AssignmentAt(s, pos + 1, soft)
      case Stopped(e) => Stopped(e)
      case Parsed(x, n, sf) => ArgumentsLoop(s, n, acc + [x], sf)
  }

  /** `super` followed by `.` and the name of the method (the keyword is at `pos`). */
  function SuperAt(s: Stream, pos: nat): (r: Step<Ident>)
    requires IsKeywordAt(s, pos, "super")
    ensures r.Done? <==> IsPunctAt(s, pos + 1, Dot) && IsIdentAt(s, pos + 2)
    ensures r.Done? ==> r.value == s.entries[pos + 2].ident && r.next == pos + 3
  {
    if IsPunctAt(s, pos + 1, Dot) then ExpectIdentAt(s, pos + 2)
    else Failed(SingleAt(Dot, s, pos + 1).error)
  }

  /** `super` as the source parses it: the keyword, then `Ident::parse` directly,
      which is only defined when an identifier (or the end) follows. */
  function SuperAsWrittenAt(s: Stream, pos: nat): (r: Step<Ident>)
    requires IsKeywordAt(s, pos, "super")
    requires pos + 1 < |s.entries| ==> s.entries[pos + 1].IdentTree?
    ensures r.Done? <==> pos + 1 < |s.entries|
    ensures r.Done? ==> r.value == s.entries[pos + 1].ident && r.next == pos + 2
  {
    IdentAt(s, pos + 1)
  }

  /** `super` as the grammar runs it: the method name read from the entry
      right after the keyword, as the source does. Where `Ident::parse` would
      reach `todo!()` that entry is reported as an unexpected token. */
  function SuperNameAt(s: Stream, pos: nat): (r: Step<Ident>)
    requires IsKeywordAt(s, pos, "super")
    ensures (pos + 1 < |s.entries| ==> s.entries[pos + 1].IdentTree?) ==> r == SuperAsWrittenAt(s, pos)
    ensures r.Done? <==> IsIdentAt(s, pos + 1)
  {
    ExpectIdentAt(s, pos + 1)
  }

  /** `primary`: a keyword constant, a literal, `super.name`, `this`, a variable
      or a parenthesised expression parsed as a stream of its own. Anything
      else is reported by the lookahead, listing the candidates it probed. */
  function PrimaryAt(s: Stream, pos: nat, soft: Error): (r: Outcome<Expr>)
    decreases |s.entries|, |s.entries| - pos, 11
    ensures Advances(r, s, pos, soft)
    ensures r.Parsed? ==> r.soft == soft
    ensures IsKeywordAt(s, pos, "false") ==> r == Parsed(Lit(FalseLit), pos + 1, soft)
    ensures IsKeywordAt(s, pos, "true") ==> r == Parsed(Lit(TrueLit), pos + 1, soft)
    ensures IsKeywordAt(s, pos, "nil") ==> r == Parsed(Lit(NilLit), pos + 1, soft)
    ensures IsKeywordAt(s, pos, "this") ==> r == Parsed(This, pos + 1, soft)
    ensures IsFloatAt(s, pos) ==> r == Parsed(Lit(FloatLit(s.entries[pos].literal.value.f)), pos + 1, soft)
    ensures IsIntAt(s, pos) ==> r == Parsed(Lit(IntLit(s.entries[pos].literal.value.i)), pos + 1, soft)
    ensures IsStrAt(s, pos) ==> r == Parsed(Lit(StrLit(s.entries[pos].literal.value.s)), pos + 1, soft)
    ensures IsPunctAt(s, pos, LeftParen) ==>
              (r.Parsed? <==> GroupingAt(s, pos).Done?) &&
              (r.Parsed? ==> r.value == GroupingAt(s, pos).value && r.next == GroupingAt(s, pos).next)
    ensures IsKeywordAt(s, pos, "super") ==>
              (r.Parsed? <==> IsIdentAt(s, pos + 1)) &&
              (r.Parsed? ==> r.value == Super(s.entries[pos + 1].ident) && r.next == pos + 2)
    ensures IsIdentAt(s, pos) && s.entries[pos].ident.name !in KEYWORDS ==>
              r == Parsed(Variable(s.entries[pos].ident), pos + 1, soft)
    ensures (!IsIdentAt(s, pos) && !IsFloatAt(s, pos) && !IsIntAt(s, pos) && !IsStrAt(s, pos) &&
             !IsPunctAt(s, pos, LeftParen)) ==> r == Stopped(LookaheadError(s, pos, PRIMARY_EXPECTED))
  {
    if IsKeywordAt(s, pos, "false") then Parsed(Lit(FalseLit), pos + 1, soft)
    else if IsKeywordAt(s, pos, "true") then Parsed(Lit(TrueLit), pos + 1, soft)
    else if IsKeywordAt(s, pos, "nil") then Parsed(Lit(NilLit), pos + 1, soft)
    else if IsFloatAt(s, pos) then Parsed(Lit(FloatLit(s.entries[pos].literal.value.f)), pos + 1, soft)
    else if IsIntAt(s, pos) then Parsed(Lit(IntLit(s.entries[pos].literal.value.i)), pos + 1, soft)
    else if IsStrAt(s, pos) then Parsed(Lit(StrLit(s.entries[pos].literal.value.s)), pos + 1, soft)
    else if IsKeywordAt(s, pos, "super") then
      match SuperNameAt(s, pos)
      case Failed(e) => Stopped(e)
      case Done(name, n) => Parsed(Super(name), n, soft)
    else if IsKeywordAt(s, pos, "this") then Parsed(This, pos + 1, soft)
    else if IsIdentAt(s, pos) then
      match KwIdentAt(s, pos)
      case Failed(e) => Stopped(e)
      case Done(name, n) => Parsed(Variable(name), n, soft)
    else if IsPunctAt(s, pos, LeftParen) then
      match GroupingAt(s, pos)
      case Failed(e) => Stopped(e)
      case Done(x, n) => Parsed(x, n, soft)
    else Stopped(LookaheadError(s, pos, PRIMARY_EXPECTED))
  }

  /** A parenthesised expression: the group, with its interior parsed as an
      expression stream of its own. */
  function GroupingAt(s: Stream, pos: nat): (r: Step<Expr>)
    decreases |s.entries|, |s.entries| - pos, 10
    ensures r.Done? ==> pos < r.next <= |s.entries| && IsPunctAt(s, pos, LeftParen)
    ensures r.Done? ==> GroupAt(Parenthesis, s, pos).Done? && r.next == GroupAt(Parenthesis, s, pos).next
    ensures GroupAt(Parenthesis, s, pos).Failed? ==> r == Failed(GroupAt(Parenthesis, s, pos).error)
    ensures GroupAt(Parenthesis, s, pos).Done? ==>
              var inner := ExprOf(Interior(s, GroupAt(Parenthesis, s, pos).value));
              (r.Done? <==> inner.Ok?) && (r.Done? ==> r.value == inner.value)
  {
    match GroupAt(Parenthesis, s, pos)
    case Failed(e) => Failed(e)
    case Done(g, n) =>
      match ExprOf(Interior(s, g))
      case Err(e) => Failed(e)
      case Ok(x) => Done(x, n)
  }

  // ---------------------------------------------------------------------------
  // Properties.

  /** Assignment groups to the right: in `a = b = c` the value assigned to `a`
      is the assignment `b = c`. */
  lemma AssignmentGroupsRight(s: Stream, pos: nat, soft: Error, a: Ident, b: Ident, c: Expr)
    requires LevelAt(6, s, pos, soft) == Parsed(Variable(a), pos + 1, soft) && IsPunctAt(s, pos + 1, PunctKind.Equal)
    requires LevelAt(6, s, pos + 2, soft) == Parsed(Variable(b), pos + 3, soft) && IsPunctAt(s, pos + 3, PunctKind.Equal)
    requires AssignmentAt(s, pos + 4, soft).Parsed? && AssignmentAt(s, pos + 4, soft).value == c
    ensures AssignmentAt(s, pos, soft) ==
              Parsed(Assign(a, Assign(b, c)), AssignmentAt(s, pos + 4, soft).next, AssignmentAt(s, pos + 4, soft).soft)
  {
    assert AssignmentAt(s, pos + 2, soft) ==
             Parsed(Assign(b, c), AssignmentAt(s, pos + 4, soft).next, AssignmentAt(s, pos + 4, soft).soft);
  }

  /** Every binary level groups to the left: in `a op1 b op2 c`, where both
      operators belong to the level, the first operation is the left operand of
      the second. */
  lemma LevelGroupsLeft(level: nat, s: Stream, pos: nat, soft: Error)
    requires 1 <= level <= 6
    requires var a := OperandAt(level, s, pos, soft);
             a.Parsed? && FirstMatch(OperatorsOf(level), s, a.next).Some? &&
             var m1 := FirstMatch(OperatorsOf(level), s, a.next).value;
             var b := OperandAt(level, s, m1.1, a.soft);
             b.Parsed? && FirstMatch(OperatorsOf(level), s, b.next).Some? &&
             var m2 := FirstMatch(OperatorsOf(level), s, b.next).value;
             var c := OperandAt(level, s, m2.1, b.soft);
             c.Parsed? && FirstMatch(OperatorsOf(level), s, c.next).None?
    ensures var a := OperandAt(level, s, pos, soft);
            var m1 := FirstMatch(OperatorsOf(level), s, a.next).value;
            var b := OperandAt(level, s, m1.1, a.soft);
            var m2 := FirstMatch(OperatorsOf(level), s, b.next).value;
            var c := OperandAt(level, s, m2.1, b.soft);
            LevelAt(level, s, pos, soft) ==
              Parsed(Combine(m2.0, Combine(m1.0, a.value, b.value), c.value), c.next, c.soft)
  {
    var ops := OperatorsOf(level);
    var a := OperandAt(level, s, pos, soft);
    var m1 := FirstMatch(ops, s, a.next).value;
    var b := OperandAt(level, s, m1.1, a.soft);
    var m2 := FirstMatch(ops, s, b.next).value;
    var c := OperandAt(level, s, m2.1, b.soft);
    var ab := Combine(m1.0, a.value, b.value);
    var abc := Combine(m2.0, ab, c.value);
    assert LevelLoop(level, ops, s, c.next, abc, c.soft) == Parsed(abc, c.next, c.soft);
    assert LevelLoop(level, ops, s, b.next, ab, b.soft) == Parsed(abc, c.next, c.soft);
    assert LevelLoop(level, ops, s, a.next, a.value, a.soft) == Parsed(abc, c.next, c.soft);
  }

  /** An invalid assignment target does not stop the parse: the target is kept
      as parsed, the value is parsed and dropped, and exactly one error is
      recorded, at the `=`. A variable or property target records nothing. */
  lemma InvalidTargetIsRecorded(s: Stream, pos: nat, soft: Error)
    requires LevelAt(6, s, pos, soft).Parsed?
    requires var n := LevelAt(6, s, pos, soft).next; IsPunctAt(s, n, PunctKind.Equal) && AssignmentAt(s, n + 1, LevelAt(6, s, pos, soft).soft).Parsed?
    ensures var x := LevelAt(6, s, pos, soft).value;
            var n := LevelAt(6, s, pos, soft).next;
            var v := AssignmentAt(s, n + 1, LevelAt(6, s, pos, soft).soft);
            var r := AssignmentAt(s, pos, soft);
            r.Parsed? && r.next == v.next &&
            (x.Variable? ==> r.value == Assign(x.name, v.value) && r.soft == v.soft) &&
            (x.Get? ==> r.value == Set(x.obj, x.name, v.value) && r.soft == v.soft) &&
            (!x.Variable? && !x.Get? ==>
               r.value == x && r.soft == v.soft + [SingleError(s.source, Custom(INVALID_TARGET, s.entries[n].punct.span))])
  {
  }

  /** Without a `=` after it, an `or`-level expression is the whole
      assignment, and a failure of the value after a `=` is the failure of
      the assignment. */
  lemma AssignmentWithoutEqual(s: Stream, pos: nat, soft: Error)
    ensures var x := LevelAt(6, s, pos, soft);
            x.Parsed? && !IsPunctAt(s, x.next, PunctKind.Equal) ==> AssignmentAt(s, pos, soft) == x
    ensures var x := LevelAt(6, s, pos, soft);
            x.Stopped? ==> AssignmentAt(s, pos, soft) == x
    ensures var x := LevelAt(6, s, pos, soft);
            x.Parsed? && IsPunctAt(s, x.next, PunctKind.Equal) && AssignmentAt(s, x.next + 1, x.soft).Stopped? ==>
              AssignmentAt(s, pos, soft) == AssignmentAt(s, x.next + 1, x.soft)
  {
  }

  /** A `>` joint to the `=` after it: the two entries of `>=`. */
  predicate JointGreaterEqualAt(s: Stream, pos: nat)
  {
    pos + 1 < |s.entries| && IsJointPunct(s.entries[pos]) &&
    IsPunctOf(s.entries[pos], RAngle) && IsPunctOf(s.entries[pos + 1], PunctKind.Equal)
  }

  /** A `>=` token pair (a joint `>` then `=`) as the source's comparison sees it:
      the `>` probe matches first and takes only the `>`, and the `=` left
      behind cannot begin an operand, so the comparison stops with an error. */
  lemma GreaterEqualSplitAsWritten(s: Stream, pos: nat, acc: Expr, soft: Error)
    requires JointGreaterEqualAt(s, pos)
    ensures FirstMatch(COMPARISON_AS_WRITTEN, s, pos) == Some((MakeBinary(Greater), pos + 1))
    ensures LevelLoop(3, COMPARISON_AS_WRITTEN, s, pos, acc, soft).Stopped?
  {
    SingleIsOneEntry(RAngle, s, pos);
    assert ProbeAt(COMPARISON_AS_WRITTEN[0].probe, s, pos) == Some(pos + 1);
    NothingStartsAt(s, pos + 1, soft, 3);
  }

  /** The same pair with the two-character operator probed first: it is taken as
      one `>=`, and the comparison continues after it. */
  lemma GreaterEqualWhole(s: Stream, pos: nat)
    requires JointGreaterEqualAt(s, pos)
    ensures FirstMatch(COMPARISON, s, pos) == Some((MakeBinary(BinaryOp.GreaterEqual), pos + 2))
  {
    assert TokenAt(Double(PunctTable.GreaterEqual), s, pos) == DoubleAt(PunctTable.GreaterEqual, s, pos);
  }

  /** One round of a level's loop that ends it: the operator found at `pos`,
      the operand after it, and no operator after that. */
  lemma LevelLoopOnce(level: nat, ops: seq<Infix>, s: Stream, pos: nat, acc: Expr, soft: Error, c: Combiner, q: nat)
    requires 1 <= level <= 6 && pos <= |s.entries|
    requires FirstMatch(ops, s, pos) == Some((c, q))
    requires OperandAt(level, s, q, soft).Parsed?
    requires FirstMatch(ops, s, OperandAt(level, s, q, soft).next).None?
    ensures var y := OperandAt(level, s, q, soft);
            LevelLoop(level, ops, s, pos, acc, soft) == Parsed(Combine(c, acc, y.value), y.next, y.soft)
  {
    var y := OperandAt(level, s, q, soft);
    assert LevelLoop(level, ops, s, y.next, Combine(c, acc, y.value), y.soft) ==
             Parsed(Combine(c, acc, y.value), y.next, y.soft);
  }

  /** After `x`, the comparison loop takes `>=` and `y` and stops. */
  lemma ComparisonLoopOfGreaterEqual(s: Stream, p1: nat, sf: Error, x: Expr, y: Expr, n: nat, sf2: Error)
    requires JointGreaterEqualAt(s, p1)
    requires LevelAt(2, s, p1 + 2, sf) == Parsed(y, n, sf2) && FirstMatch(COMPARISON, s, n).None?
    ensures LevelLoop(3, COMPARISON, s, p1, x, sf) == Parsed(Binary(BinaryOp.GreaterEqual, x, y), n, sf2)
  {
    GreaterEqualWhole(s, p1);
    assert OperandAt(3, s, p1 + 2, sf) == LevelAt(2, s, p1 + 2, sf);
    LevelLoopOnce(3, COMPARISON, s, p1, x, sf, MakeBinary(BinaryOp.GreaterEqual), p1 + 2);
  }

  /** `comparison` with the corrected probe order: the operand level, then
      the loop over `COMPARISON`. */
  function ComparisonAt(s: Stream, pos: nat, soft: Error): (r: Outcome<Expr>)
    ensures Advances(r, s, pos, soft)
    ensures r.Parsed? ==> FirstMatch(COMPARISON, s, r.next).None?
  {
    match LevelAt(2, s, pos, soft)
    case Stopped(e) => Stopped(e)
    case Parsed(x, n, sf) => LevelLoop(3, COMPARISON, s, n, x, sf)
  }

  /** As written, a comparison `x >= y` never parses: after `x`, the `>`
      probe takes the `>` alone and no operand begins at the `=`. */
  lemma ComparisonOfGreaterEqualAsWritten(s: Stream, p0: nat, soft: Error, x: Expr, p1: nat, sf: Error)
    requires LevelAt(2, s, p0, soft) == Parsed(x, p1, sf) && JointGreaterEqualAt(s, p1)
    ensures LevelAt(3, s, p0, soft).Stopped?
  {
    GreaterEqualSplitAsWritten(s, p1, x, sf);
    assert OperandAt(3, s, p0, soft) == LevelAt(2, s, p0, soft);
  }

  /** With the corrected order a comparison `x >= y` parses whole: given the
      operands on either side of the `>=`, it builds `Binary(GreaterEqual, x, y)`. */
  lemma ComparisonOfGreaterEqual(s: Stream, p0: nat, soft: Error, x: Expr, p1: nat, sf: Error, y: Expr, n: nat, sf2: Error)
    requires LevelAt(2, s, p0, soft) == Parsed(x, p1, sf) && JointGreaterEqualAt(s, p1)
    requires LevelAt(2, s, p1 + 2, sf) == Parsed(y, n, sf2) && FirstMatch(COMPARISON, s, n).None?
    ensures ComparisonAt(s, p0, soft) == Parsed(Binary(BinaryOp.GreaterEqual, x, y), n, sf2)
  {
    ComparisonLoopOfGreaterEqual(s, p1, sf, x, y, n, sf2);
  }

  /** The entries no expression can begin with: a lone `=`, and the keywords
      that are neither a constant, `super` nor `this`. */
  predicate CannotBeginExpr(s: Stream, pos: nat)
  {
    IsPunctAt(s, pos, PunctKind.Equal) ||
    (IsIdentAt(s, pos) && s.entries[pos].ident.name in KEYWORDS - {"false", "true", "nil", "super", "this"})
  }

  /** No primary, and so no unary, begins at such an entry. */
  lemma NoUnaryStartsAt(s: Stream, pos: nat, soft: Error)
    requires CannotBeginExpr(s, pos)
    ensures UnaryAt(s, pos, soft).Stopped?
  {
    if IsIdentAt(s, pos) {
      assert KwIdentAt(s, pos).Failed?;
    }
    assert PrimaryAt(s, pos, soft).Stopped?;
  }

  /** No level can begin at such an entry: every operand parse there stops. */
  lemma {:induction false} NothingStartsAt(s: Stream, pos: nat, soft: Error, level: nat)
    requires CannotBeginExpr(s, pos) && 1 <= level <= 6
    ensures OperandAt(level, s, pos, soft).Stopped?
    decreases level
  {
    if level == 1 {
      NoUnaryStartsAt(s, pos, soft);
    } else {
      NothingStartsAt(s, pos, soft, level - 1);
    }
  }

  /** Nor can an assignment, which is what `Expr::parse` runs. */
  lemma NoExpressionStartsAt(s: Stream, pos: nat, soft: Error)
    requires CannotBeginExpr(s, pos)
    ensures AssignmentAt(s, pos, soft).Stopped?
  {
    NothingStartsAt(s, pos, soft, 6);
  }

  /** As written, `super.name` reaches `todo!()`: the entry after `super` is the
      `.`, which `Ident::parse` is not defined on. The corrected `SuperAt`
      accepts exactly `super . identifier`. */
  lemma SuperDotReachesTodo(s: Stream, pos: nat)
    requires IsKeywordAt(s, pos, "super") && IsPunctAt(s, pos + 1, Dot)
    ensures !(pos + 1 < |s.entries| ==> s.entries[pos + 1].IdentTree?)
    ensures SuperAt(s, pos).Done? <==> IsIdentAt(s, pos + 2)
  {
  }

  /** So, as the grammar runs it, no `super.name` expression parses: the `.`
      after the keyword is not a name. */
  lemma SuperDotStops(s: Stream, pos: nat, soft: Error)
    requires IsKeywordAt(s, pos, "super") && IsPunctAt(s, pos + 1, Dot)
    ensures PrimaryAt(s, pos, soft).Stopped?
  {
  }

  /** A trailing comma is absorbed: a comma followed by the end of the stream
      closes the list with the items parsed so far. */
  lemma TrailingCommaAbsorbed(s: Stream, pos: nat, acc: seq<Expr>, soft: Error)
    requires IsPunctAt(s, pos, Comma) && IsEmptyAt(s, pos + 1)
    ensures ArgumentsLoop(s, pos, acc, soft) == Parsed(acc, pos + 1, soft)
  {
  }

  // ---------------------------------------------------------------------------
  // The parser on the cursor.

  /** `Parser::parse(stream)` once the parser has run on a cursor of its own. */
  method Conclude<T(==)>(input: ParseStream, x: Result<T>, ghost o: Outcome<T>) returns (r: Result<T>)
    requires input.Valid() && Tracks(x, input.pos, input.soft, o)
    ensures r == Finish(input.stream, o)
  {
    if x.Err? {
      return x;
    }
    var empty := input.IsEmpty();
    if !empty {
      return Err(input.soft + NewError(input.stream.source, UnexpectedToken({}, SpanOf(input.stream.entries[input.pos]))));
    }
    if input.soft != [] {
      return Err(input.soft);
    }
    r := x;
  }

  method KwIdent(input: ParseStream) returns (r: Result<Ident>)
    requires input.Valid()
    modifies input
    ensures input.Valid() && input.soft == old(input.soft)
    ensures Follows(r, input.pos, KwIdentAt(input.stream, old(input.pos)))
  {
    var name := ExpectIdent(input);
    if name.Err? {
      return name;
    }
    if name.value.name in KEYWORDS {
      return Err(Unexpected(input.stream.source, IDENT_DISPLAY, name.value.span));
    }
    r := name;
  }

  /** `parse(stream)` of an expression, on a cursor of its own. */
  method ParseExprStream(s: Stream) returns (r: Result<Expr>)
    decreases |s.entries|, |s.entries| + 1, 0
    ensures r == ExprOf(s)
  {
    var input := new ParseStream(s);
    var x := Assignment(input);
    r := Conclude(input, x, AssignmentAt(s, 0, []));
  }

  method Assignment(input: ParseStream) returns (r: Result<Expr>)
    requires input.Valid()
    modifies input
    decreases |input.stream.entries|, |input.stream.entries| - input.pos, 30
    ensures input.Valid()
    ensures Tracks(r, input.pos, input.soft, AssignmentAt(input.stream, old(input.pos), old(input.soft)))
  {
    var expr := Level(input, 6);
    if expr.Err? {
      return expr;
    }
    SingleIsOneEntry(PunctKind.Equal, input.stream, input.pos);
    var equals := Peek(input, Single(PunctKind.Equal));
    if !equals {
      return expr;
    }
    var token := ParseToken(input, Single(PunctKind.Equal));
    var value := Assignment(input);
    if value.Err? {
      return value;
    }
    if expr.value.Variable? {
      return Ok(Assign(expr.value.name, value.value));
    } else if expr.value.Get? {
      return Ok(Set(expr.value.obj, expr.value.name, value.value));
    }
    input.AddError(NewError(input.stream.source, Custom(INVALID_TARGET, token.value.span)));
    r := expr;
  }

  /** Consumes the operator `p` if it is present at the cursor. */
  method MatchProbe(input: ParseStream, p: Probe) returns (found: bool)
    requires input.Valid()
    modifies input
    ensures input.Valid() && input.soft == old(input.soft)
    ensures found == ProbeAt(p, input.stream, old(input.pos)).Some?
    ensures input.pos == if found then ProbeAt(p, input.stream, old(input.pos)).value else old(input.pos)
  {
    match p {
      case Word(k) =>
        found := PeekKeyword(input, k);
        if found {
          var _ := input.Next();
        }
      case Mark(t) =>
        found := Peek(input, t);
        if found {
          var _ := ParseToken(input, t);
        }
    }
  }

  /** The probes of one level's operators, in table order: the first present is
      consumed and its combiner returned. */
  method MatchOperator(input: ParseStream, ops: seq<Infix>) returns (c: Option<Combiner>)
    requires input.Valid()
    modifies input
    ensures input.Valid() && input.soft == old(input.soft)
    ensures FirstMatch(ops, input.stream, old(input.pos)) == if c.Some? then Some((c.value, input.pos)) else None
    ensures c.None? ==> input.pos == old(input.pos)
  {
    var i := 0;
    while i < |ops|
      invariant 0 <= i <= |ops|
      invariant input.Valid() && input.pos == old(input.pos) && input.soft == old(input.soft)
      invariant FirstMatch(ops, input.stream, input.pos) == FirstMatch(ops[i..], input.stream, input.pos)
    {
      FirstMatchStep(ops, input.stream, input.pos, i);
      var found := MatchProbe(input, ops[i].probe);
      if found {
        return Some(ops[i].combiner);
      }
      i := i + 1;
    }
    c := None;
  }

  /** One binary level: an operand, then while an operator is present, the next
      operand combined with what was parsed so far. */
  method Level(input: ParseStream, level: nat) returns (r: Result<Expr>)
    requires input.Valid() && 1 <= level <= 6
    modifies input
    decreases |input.stream.entries|, |input.stream.entries| - input.pos, 13 + 2 * level
    ensures input.Valid()
    ensures Tracks(r, input.pos, input.soft, LevelAt(level, input.stream, old(input.pos), old(input.soft)))
  {
    ghost var start, soft0 := input.pos, input.soft;
    var first;
    if level == 1 {
      first := UnaryExpr(input);
    } else {
      first := Level(input, level - 1);
    }
    if first.Err? {
      return first;
    }
    var expr := first.value;
    var ops := OperatorsOf(level);
    while true
      invariant input.Valid() && start < input.pos
      invariant LevelAt(level, input.stream, start, soft0) == LevelLoop(level, ops, input.stream, input.pos, expr, input.soft)
      decreases |input.stream.entries| - input.pos
    {
      var c := MatchOperator(input, ops);
      if c.None? {
        break;
      }
      var y;
      if level == 1 {
        y := UnaryExpr(input);
      } else {
        y := Level(input, level - 1);
      }
      if y.Err? {
        return y;
      }
      expr := Combine(c.value, expr, y.value);
    }
    r := Ok(expr);
  }

  method UnaryExpr(input: ParseStream) returns (r: Result<Expr>)
    requires input.Valid()
    modifies input
    decreases |input.stream.entries|, |input.stream.entries| - input.pos, 13
    ensures input.Valid()
    ensures Tracks(r, input.pos, input.soft, UnaryAt(input.stream, old(input.pos), old(input.soft)))
  {
    SingleIsOneEntry(Dash, input.stream, input.pos);
    SingleIsOneEntry(Bang, input.stream, input.pos);
    var minus := Peek(input, Single(Dash));
    if minus {
      var _ := ParseToken(input, Single(Dash));
      var x := UnaryExpr(input);
      if x.Err? {
        return x;
      }
      return Ok(Unary(Neg, x.value));
    }
    var bang := Peek(input, Single(Bang));
    if bang {
      var _ := ParseToken(input, Single(Bang));
      var x := UnaryExpr(input);
      if x.Err? {
        return x;
      }
      return Ok(Unary(Not, x.value));
    }
    r := CallExpr(input);
  }

  method CallExpr(input: ParseStream) returns (r: Result<Expr>)
    requires input.Valid()
    modifies input
    decreases |input.stream.entries|, |input.stream.entries| - input.pos, 12
    ensures input.Valid()
    ensures Tracks(r, input.pos, input.soft, CallAt(input.stream, old(input.pos), old(input.soft)))
  {
    var first := Primary(input);
    if first.Err? {
      return first;
    }
    r := CallTail(input, first.value);
  }

  /** The calls and property accesses that follow a primary expression. */
  method CallTail(input: ParseStream, first: Expr) returns (r: Result<Expr>)
    requires input.Valid()
    modifies input
    decreases |input.stream.entries|, |input.stream.entries| - input.pos, 12
    ensures input.Valid()
    ensures Tracks(r, input.pos, input.soft, CallLoop(input.stream, old(input.pos), first, old(input.soft)))
  {
    ghost var start, soft0 := input.pos, input.soft;
    var expr := first;
    while true
      invariant input.Valid() && start <= input.pos
      invariant CallLoop(input.stream, start, first, soft0) == CallLoop(input.stream, input.pos, expr, input.soft)
      decreases |input.stream.entries| - input.pos
    {
      SingleIsOneEntry(LeftParen, input.stream, input.pos);
      SingleIsOneEntry(Dot, input.stream, input.pos);
      var paren := Peek(input, Single(LeftParen));
      if paren {
        var call := FinishCall(input, expr);
        if call.Err? {
          return call;
        }
        expr := call.value;
      } else {
        var dot := Peek(input, Single(Dot));
        if !dot {
          break;
        }
        var _ := ParseToken(input, Single(Dot));
        var name := ExpectIdent(input);
        if name.Err? {
          return Err(name.error);
        }
        expr := Get(expr, name.value);
      }
    }
    r := Ok(expr);
  }

  method FinishCall(input: ParseStream, callee: Expr) returns (r: Result<Expr>)
    requires input.Valid()
    modifies input
    decreases |input.stream.entries|, |input.stream.entries| - input.pos, 10
    ensures input.Valid()
    ensures Tracks(r, input.pos, input.soft, FinishCallAt(input.stream, old(input.pos), callee, old(input.soft)))
  {
    var contents := ParseGroup(input, Parenthesis);
    if contents.Err? {
      return Err(contents.error);
    }
    r := CallWithGroup(input, contents.value, callee);
  }

  /** The call whose arguments are the interior of `g`, the group just parsed. */
  method CallWithGroup(input: ParseStream, g: Group, callee: Expr) returns (r: Result<Expr>)
    requires input.Valid() && |g.inner| < |input.stream.entries|
    modifies input
    decreases |input.stream.entries|, 0, 0
    ensures input.Valid()
    ensures Tracks(r, input.pos, input.soft, CallOfGroup(input.stream, g, old(input.pos), callee, old(input.soft)))
  {
    var arguments := ParseArgumentsStream(Interior(input.stream, g));
    if arguments.Err? {
      return Err(arguments.error);
    }
    var paren := ParenSpan(g);
    if |arguments.value| >= MAX_LIST {
      input.AddError(NewError(input.stream.source, Custom(TOO_MANY_ARGUMENTS, paren)));
    }
    r := Ok(Call(callee, paren, arguments.value));
  }

  /** `Punctuated::parse_separated_trailing.parse(stream)`, on a cursor of its own. */
  method ParseArgumentsStream(s: Stream) returns (r: Result<seq<Expr>>)
    decreases |s.entries|, |s.entries| + 1, 0
    ensures r == ArgumentsOf(s)
  {
    var input := new ParseStream(s);
    var items := Arguments(input);
    r := Conclude(input, items, ArgumentsAt(s, 0, []));
  }

  method Arguments(input: ParseStream) returns (r: Result<seq<Expr>>)
    requires input.Valid()
    modifies input
    decreases |input.stream.entries|, |input.stream.entries| - input.pos, 32
    ensures input.Valid()
    ensures Tracks(r, input.pos, input.soft, ArgumentsAt(input.stream, old(input.pos), old(input.soft)))
  {
    var empty := input.IsEmpty();
    if empty {
      return Ok([]);
    }
    var first := Assignment(input);
    if first.Err? {
      return Err(first.error);
    }
    r := ArgumentsTail(input, [first.value]);
  }

  /** The items after the first: a comma, then the end or the next item. */
  method ArgumentsTail(input: ParseStream, firsts: seq<Expr>) returns (r: Result<seq<Expr>>)
    requires input.Valid()
    modifies input
    decreases |input.stream.entries|, |input.stream.entries| - input.pos, 32
    ensures input.Valid()
    ensures Tracks(r, input.pos, input.soft, ArgumentsLoop(input.stream, old(input.pos), firsts, old(input.soft)))
  {
    ghost var start, soft0 := input.pos, input.soft;
    var items := firsts;
    while true
      invariant input.Valid() && start <= input.pos
      invariant ArgumentsLoop(input.stream, start, firsts, soft0) == ArgumentsLoop(input.stream, input.pos, items, input.soft)
      decreases |input.stream.entries| - input.pos
    {
      SingleIsOneEntry(Comma, input.stream, input.pos);
      var comma := ParseOption(input, Single(Comma));
      if comma.None? {
        break;
      }
      var done := input.IsEmpty();
      if done {
        break;
      }
      var x := Assignment(input);
      if x.Err? {
        return Err(x.error);
      }
      items := items + [x.value];
    }
    r := Ok(items);
  }

  /** `super` and the method name right after it, on the cursor. */
  method ParseSuper(input: ParseStream) returns (r: Result<Ident>)
    requires input.Valid() && IsKeywordAt(input.stream, input.pos, "super")
    modifies input
    ensures input.Valid() && input.soft == old(input.soft)
    ensures Follows(r, input.pos, SuperNameAt(input.stream, old(input.pos)))
  {
    var _ := input.Next();
    r := ExpectIdent(input);
  }

  /** A parenthesised expression on the cursor. */
  method Grouping(input: ParseStream) returns (r: Result<Expr>)
    requires input.Valid()
    modifies input
    decreases |input.stream.entries|, |input.stream.entries| - input.pos, 10
    ensures input.Valid() && input.soft == old(input.soft)
    ensures Follows(r, input.pos, GroupingAt(input.stream, old(input.pos)))
  {
    var group := ParseGroup(input, Parenthesis);
    if group.Err? {
      return Err(group.error);
    }
    r := ParseExprStream(Interior(input.stream, group.value));
  }

  method Primary(input: ParseStream) returns (r: Result<Expr>)
    requires input.Valid()
    modifies input
    decreases |input.stream.entries|, |input.stream.entries| - input.pos, 11
    ensures input.Valid()
    ensures Tracks(r, input.pos, input.soft, PrimaryAt(input.stream, old(input.pos), old(input.soft)))
  {
    var s := input.stream;
    var expected: set<string> := {};
    var isFalse := PeekKeyword(input, "false");
    if isFalse {
      var _ := input.Next();
      return Ok(Lit(FalseLit));
    }
    expected := expected + {"false"};
    var isTrue := PeekKeyword(input, "true");
    if isTrue {
      var _ := input.Next();
      return Ok(Lit(TrueLit));
    }
    expected := expected + {"true"};
    var isNil := PeekKeyword(input, "nil");
    if isNil {
      var _ := input.Next();
      return Ok(Lit(NilLit));
    }
    expected := expected + {"nil"};
    if IsFloatAt(s, input.pos) {
      var t := input.Next();
      return Ok(Lit(FloatLit(t.value.literal.value.f)));
    }
    expected := expected + {FLOAT_DISPLAY};
    if IsIntAt(s, input.pos) {
      var t := input.Next();
      return Ok(Lit(IntLit(t.value.literal.value.i)));
    }
    expected := expected + {INT_DISPLAY};
    if IsStrAt(s, input.pos) {
      var t := input.Next();
      return Ok(Lit(StrLit(t.value.literal.value.s)));
    }
    expected := expected + {STRING_DISPLAY};
    var isSuper := PeekKeyword(input, "super");
    if isSuper {
      var name := ParseSuper(input);
      if name.Err? {
        return Err(name.error);
      }
      return Ok(Super(name.value));
    }
    var isThis := PeekKeyword(input, "this");
    if isThis {
      var _ := input.Next();
      return Ok(This);
    }
    if IsIdentAt(s, input.pos) {
      var name := KwIdent(input);
      if name.Err? {
        return Err(name.error);
      }
      return Ok(Variable(name.value));
    }
    expected := expected + {IDENT_DISPLAY};
    SingleIsOneEntry(LeftParen, s, input.pos);
    var paren := Peek(input, Single(LeftParen));
    if paren {
      var x := Grouping(input);
      if x.Err? {
        return Err(x.error);
      }
      return Ok(x.value);
    }
    expected := expected + {"("};
    assert expected == PRIMARY_EXPECTED;
    r := Err(LookaheadError(s, input.pos, expected));
  }
}
