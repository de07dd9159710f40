/** The calculator grammar of examples/calc.rs: sums of products of signed
    primaries, where a primary is a float or integer literal or a parenthesised
    expression. Each grammar function is specified by a function from a stream
    and a position to a `Step`, and the methods on `ParseStream` that mirror the
    source's loops and recursion are proved to follow it. */
module Calc {
  import opened Tokens
  import opened Errors
  import opened Cursor
  import opened TokenParse
  import opened Lexemes

  /** The literal a number came from. */
  datatype Number = FloatNum(f: Float) | IntNum(i: i64)

  datatype Expr =
    | Num(n: Number)
    | Neg(operand: Expr)
    | Mul(left: Expr, right: Expr)
    | Div(left: Expr, right: Expr)
    | Mod(left: Expr, right: Expr)
    | Add(left: Expr, right: Expr)
    | Sub(left: Expr, right: Expr)

  /** What `lookahead.error()` in `primary` lists as expected. */
  const PRIMARY_EXPECTED: set<string> := {FLOAT_DISPLAY, INT_DISPLAY, "("}

  // ---------------------------------------------------------------------------
  // Specification functions. The ranks in the `decreases` clauses order the
  // functions that call each other at the same position; a nested parse runs on
  // a strictly shorter stream.

  /** `Expr::parse` as the entry point on a whole stream. */
  function ParseExpr(s: Stream): (r: Result<Expr>)
    decreases |s.entries|, |s.entries| + 1, 0
    ensures s.entries == [] ==> r.Err?
    ensures var o := AdditionAt(s, 0);
            (r.Ok? <==> o.Done? && IsEmptyAt(s, o.next)) && (r.Ok? ==> r.value == o.value)
  {
    Complete(s, AdditionAt(s, 0))
  }

  /** `addition`: a factor followed by any number of `+ factor` / `- factor`. */
  function AdditionAt(s: Stream, pos: nat): (r: Step<Expr>)
    decreases |s.entries|, |s.entries| - pos, 5
    ensures r.Done? ==> pos < r.next <= |s.entries|
  {
    match FactorAt(s, pos)
    case Failed(e) => Failed(e)
    case Done(x, n) => AdditionLoop(s, n, x)
  }

  /** The loop of `addition` with `acc` parsed so far. It stops at the first entry
      that is neither `+` nor `-`, without consuming it. */
  function AdditionLoop(s: Stream, pos: nat, acc: Expr): (r: Step<Expr>)
    requires pos <= |s.entries|
    decreases |s.entries|, |s.entries| - pos, 4
    ensures r.Done? ==> pos <= r.next <= |s.entries|
    ensures r.Done? ==> !IsPunctAt(s, r.next, Plus) && !IsPunctAt(s, r.next, Dash)
    ensures r.Done? && r.next == pos ==> r.value == acc
  {
    if IsPunctAt(s, pos, Plus) then
      match FactorAt(s, pos + 1)
      case Failed(e) => Failed(e)
      case Done(y, n) => AdditionLoop(s, n, Add(acc, y))
    else if IsPunctAt(s, pos, Dash) then
      match FactorAt(s, pos + 1)
      case Failed(e) => Failed(e)
      case Done(y, n) => AdditionLoop(s, n, Sub(acc, y))
    else Done(acc, pos)
  }

  /** `factor`: a unary followed by any number of `* unary`, `/ unary`, `% unary`. */
  function FactorAt(s: Stream, pos: nat): (r: Step<Expr>)
    decreases |s.entries|, |s.entries| - pos, 3
    ensures r.Done? ==> pos < r.next <= |s.entries|
  {
    match UnaryAt(s, pos)
    case Failed(e) => Failed(e)
    case Done(x, n) => FactorLoop(s, n, x)
  }

  function FactorLoop(s: Stream, pos: nat, acc: Expr): (r: Step<Expr>)
    requires pos <= |s.entries|
    decreases |s.entries|, |s.entries| - pos, 2
    ensures r.Done? ==> pos <= r.next <= |s.entries|
    ensures r.Done? ==>
              !IsPunctAt(s, r.next, Asterisk) && !IsPunctAt(s, r.next, Slash) && !IsPunctAt(s, r.next, Percent)
    ensures r.Done? && r.next == pos ==> r.value == acc
  {
    if IsPunctAt(s, pos, Asterisk) then
      match UnaryAt(s, pos + 1)
      case Failed(e) => Failed(e)
      case Done(y, n) => FactorLoop(s, n, Mul(acc, y))
    else if IsPunctAt(s, pos, Slash) then
      match UnaryAt(s, pos + 1)
      case Failed(e) => Failed(e)
      case Done(y, n) => FactorLoop(s, n, Div(acc, y))
    else if IsPunctAt(s, pos, Percent) then
      match UnaryAt(s, pos + 1)
      case Failed(e) => Failed(e)
      case Done(y, n) => FactorLoop(s, n, Mod(acc, y))
    else Done(acc, pos)
  }

  /** `unary`: each leading `-` wraps what follows in a negation. */
  function UnaryAt(s: Stream, pos: nat): (r: Step<Expr>)
    decreases |s.entries|, |s.entries| - pos, 1
    ensures r.Done? ==> pos < r.next <= |s.entries|
  {
    if IsPunctAt(s, pos, Dash) then
      match UnaryAt(s, pos + 1)
      case Failed(e) => Failed(e)
      case Done(x, n) => Done(Neg(x), n)
    else PrimaryAt(s, pos)
  }

  /** `primary`: a float literal, an integer literal, or a parenthesised
      expression parsed as a stream of its own; anything else is reported as an
      unexpected token listing all three. */
  function PrimaryAt(s: Stream, pos: nat): (r: Step<Expr>)
    decreases |s.entries|, |s.entries| - pos, 0
    ensures r.Done? ==> pos < r.next <= |s.entries|
    ensures IsFloatAt(s, pos) ==> r == Done(Num(FloatNum(s.entries[pos].literal.value.f)), pos + 1)
    ensures IsIntAt(s, pos) ==> r == Done(Num(IntNum(s.entries[pos].literal.value.i)), pos + 1)
    ensures !IsFloatAt(s, pos) && !IsIntAt(s, pos) && !IsPunctAt(s, pos, LeftParen) ==>
              r == Failed(LookaheadError(s, pos, PRIMARY_EXPECTED))
  {
    if IsFloatAt(s, pos) then Done(Num(FloatNum(s.entries[pos].literal.value.f)), pos + 1)
    else if IsIntAt(s, pos) then Done(Num(IntNum(s.entries[pos].literal.value.i)), pos + 1)
    else if IsPunctAt(s, pos, LeftParen) then
      match GroupAt(Parenthesis, s, pos)
      case Failed(e) => Failed(e)
      case Done(g, n) =>
        match ParseExpr(Interior(s, g))
        case Err(e) => Failed(e)
        case Ok(x) => Done(x, n)
    else Failed(LookaheadError(s, pos, PRIMARY_EXPECTED))
  }

  // ---------------------------------------------------------------------------
  // Properties.

  /** `-` applied `k` times. */
  function Negated(k: nat, x: Expr): Expr
  {
    if k == 0 then x else Neg(Negated(k - 1, x))
  }

  /** A run of `k` leading minus signs yields `k` nested negations of the primary
      that follows them, or that primary's failure. */
  lemma {:induction false} LeadingMinusesNest(s: Stream, pos: nat, k: nat)
    decreases k
    requires pos + k <= |s.entries|
    requires forall i :: pos <= i < pos + k ==> IsPunctAt(s, i, Dash)
    requires !IsPunctAt(s, pos + k, Dash)
    ensures UnaryAt(s, pos) == match PrimaryAt(s, pos + k)
                               case Failed(e) => Failed(e)
                               case Done(x, n) => Done(Negated(k, x), n)
  {
    if k > 0 {
      LeadingMinusesNest(s, pos + 1, k - 1);
      assert IsPunctAt(s, pos, Dash);
    }
  }

  /** `+` and `-` group to the left: in `x0 op1 x1 op2 x2`, where both
      operators are `+` or `-`, the first operation is the left operand of the
      second. */
  lemma AdditionGroupsLeft(s: Stream, p0: nat, p1: nat, p2: nat, p3: nat, op1: Operator, op2: Operator,
                           x0: Expr, x1: Expr, x2: Expr)
    requires (op1 == Sum || op1 == Difference) && (op2 == Sum || op2 == Difference)
    requires FactorAt(s, p0) == Done(x0, p1) && IsPunctAt(s, p1, OperatorKind(op1))
    requires FactorAt(s, p1 + 1) == Done(x1, p2) && IsPunctAt(s, p2, OperatorKind(op2))
    requires FactorAt(s, p2 + 1) == Done(x2, p3) && !IsPunctAt(s, p3, Plus) && !IsPunctAt(s, p3, Dash)
    ensures AdditionAt(s, p0) == Done(Apply(op2, Apply(op1, x0, x1), x2), p3)
  {
    AdditionLoopStep(s, p1, x0, op1);
    AdditionLoopStep(s, p2, Apply(op1, x0, x1), op2);
    AdditionLoopStops(s, p3, Apply(op2, Apply(op1, x0, x1), x2));
  }

  /** `*`, `/` and `%` group to the left: in `x0 op1 x1 op2 x2`, where both
      operators are among them, the first operation is the left operand of the
      second. */
  lemma FactorGroupsLeft(s: Stream, p0: nat, p1: nat, p2: nat, p3: nat, op1: Operator, op2: Operator,
                         x0: Expr, x1: Expr, x2: Expr)
    requires op1 == Product || op1 == Quotient || op1 == Remainder
    requires op2 == Product || op2 == Quotient || op2 == Remainder
    requires UnaryAt(s, p0) == Done(x0, p1) && IsPunctAt(s, p1, OperatorKind(op1))
    requires UnaryAt(s, p1 + 1) == Done(x1, p2) && IsPunctAt(s, p2, OperatorKind(op2))
    requires UnaryAt(s, p2 + 1) == Done(x2, p3)
    requires !IsPunctAt(s, p3, Asterisk) && !IsPunctAt(s, p3, Slash) && !IsPunctAt(s, p3, Percent)
    ensures FactorAt(s, p0) == Done(Apply(op2, Apply(op1, x0, x1), x2), p3)
  {
    FactorLoopStep(s, p1, x0, op1);
    FactorLoopStep(s, p2, Apply(op1, x0, x1), op2);
    FactorLoopStops(s, p3, Apply(op2, Apply(op1, x0, x1), x2));
  }

  /** `*`, `/` and `%` bind tighter than `+` and `-`: in `x0 op1 x1 op2 x2`,
      where `op1` is `+` or `-` and `op2` is `*`, `/` or `%`, the second
      operation is the right operand of the first. */
  lemma ProductBindsTighter(s: Stream, p0: nat, p1: nat, p2: nat, p3: nat, op1: Operator, op2: Operator,
                            x0: Expr, x1: Expr, x2: Expr)
    requires op1 == Sum || op1 == Difference
    requires op2 == Product || op2 == Quotient || op2 == Remainder
    requires UnaryAt(s, p0) == Done(x0, p1) && IsPunctAt(s, p1, OperatorKind(op1))
    requires UnaryAt(s, p1 + 1) == Done(x1, p2) && IsPunctAt(s, p2, OperatorKind(op2))
    requires UnaryAt(s, p2 + 1) == Done(x2, p3) && !IsPunctAt(s, p3, Plus) && !IsPunctAt(s, p3, Dash)
    requires !IsPunctAt(s, p3, Asterisk) && !IsPunctAt(s, p3, Slash) && !IsPunctAt(s, p3, Percent)
    ensures AdditionAt(s, p0) == Done(Apply(op1, x0, Apply(op2, x1, x2)), p3)
  {
    FactorLoopStops(s, p1, x0);
    assert FactorAt(s, p0) == Done(x0, p1);
    FactorLoopStep(s, p2, x1, op2);
    FactorLoopStops(s, p3, Apply(op2, x1, x2));
    assert FactorAt(s, p1 + 1) == Done(Apply(op2, x1, x2), p3);
    AdditionLoopStep(s, p1, x0, op1);
    AdditionLoopStops(s, p3, Apply(op1, x0, Apply(op2, x1, x2)));
  }

  /** A parenthesised expression is the expression of its interior: the group
      is parsed as a stream of its own that must be used up entirely. */
  lemma ParenthesesNest(s: Stream, pos: nat)
    requires IsPunctAt(s, pos, LeftParen)
    ensures GroupAt(Parenthesis, s, pos).Failed? ==> PrimaryAt(s, pos) == Failed(GroupAt(Parenthesis, s, pos).error)
    ensures GroupAt(Parenthesis, s, pos).Done? ==>
              var g := GroupAt(Parenthesis, s, pos).value;
              var inner := Interior(s, g);
              (PrimaryAt(s, pos).Done? <==> AdditionAt(inner, 0).Done? && IsEmptyAt(inner, AdditionAt(inner, 0).next)) &&
              (PrimaryAt(s, pos).Done? ==>
                 PrimaryAt(s, pos) == Done(AdditionAt(inner, 0).value, GroupAt(Parenthesis, s, pos).next))
  {
    assert !IsFloatAt(s, pos) && !IsIntAt(s, pos);
  }

  // ---------------------------------------------------------------------------
  // The parser on the cursor.

  /** `Expr::parse` on a stream of its own: `parse(group.into_token_stream())`. */
  method ParseStreamExpr(s: Stream) returns (r: Result<Expr>)
    decreases |s.entries|, |s.entries| + 1, 6
    ensures r == ParseExpr(s)
  {
    var input := new ParseStream(s);
    var x := Addition(input);
    if x.Err? {
      return Err(x.error);
    }
    var empty := input.IsEmpty();
    if !empty {
      return Err(NewError(s.source, UnexpectedToken({}, SpanOf(s.entries[input.pos]))));
    }
    r := Ok(x.value);
  }

  method Addition(input: ParseStream) returns (r: Result<Expr>)
    requires input.Valid()
    modifies input
    decreases |input.stream.entries|, |input.stream.entries| - input.pos, 5
    ensures input.Valid() && input.soft == old(input.soft)
    ensures Follows(r, input.pos, AdditionAt(input.stream, old(input.pos)))
  {
    var first := Factor(input);
    if first.Err? {
      return Err(first.error);
    }
    r := AdditionTail(input, first.value);
  }

  /** The loop of `addition`, from the factor parsed first. */
  method AdditionTail(input: ParseStream, first: Expr) returns (r: Result<Expr>)
    requires input.Valid()
    modifies input
    decreases |input.stream.entries|, |input.stream.entries| - input.pos, 4
    ensures input.Valid() && input.soft == old(input.soft)
    ensures Follows(r, input.pos, AdditionLoop(input.stream, old(input.pos), first))
  {
    ghost var start := input.pos;
    var expr := first;
    while true
      invariant input.Valid() && input.soft == old(input.soft)
      invariant start <= input.pos
      invariant AdditionLoop(input.stream, start, first) == AdditionLoop(input.stream, input.pos, expr)
      decreases |input.stream.entries| - input.pos
    {
      var op := AdditionOperator(input);
      if op.None? {
        break;
      }
      ghost var at := input.pos;
      AdditionLoopStep(input.stream, at - 1, expr, op.value);
      var y := Factor(input);
      if y.Err? {
        return Err(y.error);
      }
      expr := Apply(op.value, expr, y.value);
    }
    AdditionLoopStops(input.stream, input.pos, expr);
    r := Ok(expr);
  }

  /** The binary operators of the grammar. */
  datatype Operator = Sum | Difference | Product | Quotient | Remainder

  function Apply(op: Operator, left: Expr, right: Expr): Expr
  {
    match op
    case Sum => Add(left, right)
    case Difference => Sub(left, right)
    case Product => Mul(left, right)
    case Quotient => Div(left, right)
    case Remainder => Mod(left, right)
  }

  function OperatorKind(op: Operator): PunctKind
  {
    match op
    case Sum => Plus
    case Difference => Dash
    case Product => Asterisk
    case Quotient => Slash
    case Remainder => Percent
  }

  /** One iteration of `addition`'s loop on the operator found. */
  lemma AdditionLoopStep(s: Stream, pos: nat, acc: Expr, op: Operator)
    requires op == Sum || op == Difference
    requires IsPunctAt(s, pos, OperatorKind(op))
    ensures FactorAt(s, pos + 1).Failed? ==> AdditionLoop(s, pos, acc) == Failed(FactorAt(s, pos + 1).error)
    ensures FactorAt(s, pos + 1).Done? ==>
              AdditionLoop(s, pos, acc) == AdditionLoop(s, FactorAt(s, pos + 1).next, Apply(op, acc, FactorAt(s, pos + 1).value))
  {
  }

  /** `addition`'s loop ends where neither operator follows. */
  lemma AdditionLoopStops(s: Stream, pos: nat, acc: Expr)
    requires pos <= |s.entries| && !IsPunctAt(s, pos, Plus) && !IsPunctAt(s, pos, Dash)
    ensures AdditionLoop(s, pos, acc) == Done(acc, pos)
  {
  }

  /** The `Option<Punct![..]>` probes of one iteration of `addition`: the first
      of `+`, `-` present is consumed. */
  method AdditionOperator(input: ParseStream) returns (op: Option<Operator>)
    requires input.Valid()
    modifies input
    ensures input.Valid() && input.soft == old(input.soft)
    ensures op == Some(Sum) <==> IsPunctAt(input.stream, old(input.pos), Plus)
    ensures op == Some(Difference) <==> IsPunctAt(input.stream, old(input.pos), Dash)
    ensures op.None? || op == Some(Sum) || op == Some(Difference)
    ensures input.pos == if op.Some? then old(input.pos) + 1 else old(input.pos)
  {
    SingleIsOneEntry(Plus, input.stream, input.pos);
    SingleIsOneEntry(Dash, input.stream, input.pos);
    var plus := ParseOption(input, Single(Plus));
    if plus.Some? {
      return Some(Sum);
    }
    var minus := ParseOption(input, Single(Dash));
    if minus.Some? {
      return Some(Difference);
    }
    op := None;
  }

  /** One iteration of `factor`'s loop on the operator found. */
  lemma FactorLoopStep(s: Stream, pos: nat, acc: Expr, op: Operator)
    requires op == Product || op == Quotient || op == Remainder
    requires IsPunctAt(s, pos, OperatorKind(op))
    ensures UnaryAt(s, pos + 1).Failed? ==> FactorLoop(s, pos, acc) == Failed(UnaryAt(s, pos + 1).error)
    ensures UnaryAt(s, pos + 1).Done? ==>
              FactorLoop(s, pos, acc) == FactorLoop(s, UnaryAt(s, pos + 1).next, Apply(op, acc, UnaryAt(s, pos + 1).value))
  {
  }

  /** `factor`'s loop ends where no operator follows. */
  lemma FactorLoopStops(s: Stream, pos: nat, acc: Expr)
    requires pos <= |s.entries| && !IsPunctAt(s, pos, Asterisk) && !IsPunctAt(s, pos, Slash)
    requires !IsPunctAt(s, pos, Percent)
    ensures FactorLoop(s, pos, acc) == Done(acc, pos)
  {
  }

  /** The `Option<Punct![..]>` probes of one iteration of `factor`: the first of
      `*`, `/`, `%` present is consumed. */
  method FactorOperator(input: ParseStream) returns (op: Option<Operator>)
    requires input.Valid()
    modifies input
    ensures input.Valid() && input.soft == old(input.soft)
    ensures op == Some(Product) <==> IsPunctAt(input.stream, old(input.pos), Asterisk)
    ensures op == Some(Quotient) <==> IsPunctAt(input.stream, old(input.pos), Slash)
    ensures op == Some(Remainder) <==> IsPunctAt(input.stream, old(input.pos), Percent)
    ensures op.None? || op == Some(Product) || op == Some(Quotient) || op == Some(Remainder)
    ensures input.pos == if op.Some? then old(input.pos) + 1 else old(input.pos)
  {
    SingleIsOneEntry(Asterisk, input.stream, input.pos);
    SingleIsOneEntry(Slash, input.stream, input.pos);
    SingleIsOneEntry(Percent, input.stream, input.pos);
    var star := ParseOption(input, Single(Asterisk));
    if star.Some? {
      return Some(Product);
    }
    var slash := ParseOption(input, Single(Slash));
    if slash.Some? {
      return Some(Quotient);
    }
    var percent := ParseOption(input, Single(Percent));
    if percent.Some? {
      return Some(Remainder);
    }
    op := None;
  }

  method Factor(input: ParseStream) returns (r: Result<Expr>)
    requires input.Valid()
    modifies input
    decreases |input.stream.entries|, |input.stream.entries| - input.pos, 3
    ensures input.Valid() && input.soft == old(input.soft)
    ensures Follows(r, input.pos, FactorAt(input.stream, old(input.pos)))
  {
    var first := Unary(input);
    if first.Err? {
      return Err(first.error);
    }
    r := FactorTail(input, first.value);
  }

  /** The loop of `factor`, from the unary parsed first. */
  method FactorTail(input: ParseStream, first: Expr) returns (r: Result<Expr>)
    requires input.Valid()
    modifies input
    decreases |input.stream.entries|, |input.stream.entries| - input.pos, 2
    ensures input.Valid() && input.soft == old(input.soft)
    ensures Follows(r, input.pos, FactorLoop(input.stream, old(input.pos), first))
  {
    ghost var start := input.pos;
    var expr := first;
    while true
      invariant input.Valid() && input.soft == old(input.soft)
      invariant start <= input.pos
      invariant FactorLoop(input.stream, start, first) == FactorLoop(input.stream, input.pos, expr)
      decreases |input.stream.entries| - input.pos
    {
      var op := FactorOperator(input);
      if op.None? {
        break;
      }
      ghost var at := input.pos;
      FactorLoopStep(input.stream, at - 1, expr, op.value);
      var y := Unary(input);
      if y.Err? {
        return Err(y.error);
      }
      expr := Apply(op.value, expr, y.value);
    }
    FactorLoopStops(input.stream, input.pos, expr);
    r := Ok(expr);
  }

  method Unary(input: ParseStream) returns (r: Result<Expr>)
    requires input.Valid()
    modifies input
    decreases |input.stream.entries|, |input.stream.entries| - input.pos, 1
    ensures input.Valid() && input.soft == old(input.soft)
    ensures Follows(r, input.pos, UnaryAt(input.stream, old(input.pos)))
  {
    SingleIsOneEntry(Dash, input.stream, input.pos);
    var minus := ParseOption(input, Single(Dash));
    if minus.Some? {
      var x := Unary(input);
      if x.Err? {
        return Err(x.error);
      }
      r := Ok(Neg(x.value));
    } else {
      r := Primary(input);
    }
  }

  method Primary(input: ParseStream) returns (r: Result<Expr>)
    requires input.Valid()
    modifies input
    decreases |input.stream.entries|, |input.stream.entries| - input.pos, 0
    ensures input.Valid() && input.soft == old(input.soft)
    ensures Follows(r, input.pos, PrimaryAt(input.stream, old(input.pos)))
  {
    var expected: set<string> := {};
    if IsFloatAt(input.stream, input.pos) {
      var t := input.Next();
      return Ok(Num(FloatNum(t.value.literal.value.f)));
    }
    expected := expected + {FLOAT_DISPLAY};
    if IsIntAt(input.stream, input.pos) {
      var t := input.Next();
      return Ok(Num(IntNum(t.value.literal.value.i)));
    }
    expected := expected + {INT_DISPLAY};
    SingleIsOneEntry(LeftParen, input.stream, input.pos);
    var paren := Peek(input, Single(LeftParen));
    if paren {
      var g := ParseGroup(input, Parenthesis);
      if g.Err? {
        return Err(g.error);
      }
      var x := ParseStreamExpr(Interior(input.stream, g.value));
      if x.Err? {
        return Err(x.error);
      }
      return Ok(x.value);
    }
    expected := expected + {"("};
    assert expected == PRIMARY_EXPECTED;
    assert PrimaryAt(input.stream, input.pos) == Failed(LookaheadError(input.stream, input.pos, PRIMARY_EXPECTED));
    r := Err(LookaheadError(input.stream, input.pos, expected));
  }
}
