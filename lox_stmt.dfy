/** The statement grammar of the Lox example (examples/lox.rs, `impl Stmt`,
    `Function::parse`, `block` and `Ast::parse`): declarations, statements,
    function and class declarations, blocks, and the program loop that records
    a failed declaration, resynchronises and carries on, so that one pass
    reports every failure.

    As for expressions, each grammar function is specified by a function to an
    `Outcome`, and the methods on `ParseStream` are proved to follow them. */
module LoxStmt {
  import opened Tokens
  import opened Errors
  import opened Cursor
  import opened TokenParse
  import opened Lexemes
  import opened LoxAst
  import opened LoxExpr

  const TOO_MANY_PARAMETERS: string := "Can't have more than 254 parameters"

  /** The keywords `synchronise` stops before (`peek2_any!`). */
  const SYNC_KEYWORDS: set<string> := {"class", "for", "fun", "if", "print", "return", "var", "while"}

  /** The clauses inside the parentheses of a `for` (`ForInner`). */
  datatype ForClauses = ForClauses(initialiser: Option<Stmt>, condition: Expr, increment: Option<Expr>)

  /** A value followed by the `;` that ends it. */
  function Terminated<T>(s: Stream, pos: nat, value: T, soft: Error): (r: Outcome<T>)
    ensures r.Parsed? <==> IsPunctAt(s, pos, SemiColon)
    ensures r.Parsed? ==> r == Parsed(value, pos + 1, soft)
  {
    match SingleAt(SemiColon, s, pos)
    case Failed(e) => Stopped(e)
    case Done(_, n) => Parsed(value, n, soft)
  }

  // ---------------------------------------------------------------------------
  // Specification functions. Ranks continue those of the expression grammar.

  /** `expression_statement`: an expression and a `;`. */
  function ExpressionStmtAt(s: Stream, pos: nat, soft: Error): (r: Outcome<Stmt>)
    decreases |s.entries|, |s.entries| - pos, 40
    ensures Advances(r, s, pos, soft)
    ensures r.Parsed? ==> r.value.ExprStmt? && IsPunctAt(s, r.next - 1, SemiColon)
  {
    match AssignmentAt(s, pos, soft)
    case Stopped(e) => Stopped(e)
    case Parsed(x, n, sf) => Terminated(s, n, ExprStmt(x), sf)
  }

  /** `print_statement`: the keyword, an expression and a `;`. */
  function PrintAt(s: Stream, pos: nat, soft: Error): (r: Outcome<Stmt>)
    decreases |s.entries|, |s.entries| - pos, 45
    ensures Advances(r, s, pos, soft)
    ensures r.Parsed? ==> r.value.Print? && IsKeywordAt(s, pos, "print")
  {
    match KeywordAt(s, pos, "print")
    case Failed(e) => Stopped(e)
    case Done(_, p) =>
      match AssignmentAt(s, p, soft)
      case Stopped(e) => Stopped(e)
      case Parsed(x, n, sf) => Terminated(s, n, Print(x), sf)
  }

  /** `return_statement`: the keyword, the value (`nil` when a `;` follows at
      once) and a `;`. */
  function ReturnAt(s: Stream, pos: nat, soft: Error): (r: Outcome<Stmt>)
    decreases |s.entries|, |s.entries| - pos, 45
    ensures Advances(r, s, pos, soft)
    ensures r.Parsed? ==> r.value.Return? && IsKeywordAt(s, pos, "return")
    ensures IsKeywordAt(s, pos, "return") && IsPunctAt(s, pos + 1, SemiColon) ==>
              r == Parsed(Return(Lit(NilLit)), pos + 2, soft)
  {
    match KeywordAt(s, pos, "return")
    case Failed(e) => Stopped(e)
    case Done(_, p) =>
      if IsPunctAt(s, p, SemiColon) then Terminated(s, p, Return(Lit(NilLit)), soft)
      else
        match AssignmentAt(s, p, soft)
        case Stopped(e) => Stopped(e)
        case Parsed(x, n, sf) => Terminated(s, n, Return(x), sf)
  }

  /** `var_declaration`: the keyword, a name that is not a keyword, an optional
      `= initialiser` (`nil` without one) and a `;`. */
  function VarDeclAt(s: Stream, pos: nat, soft: Error): (r: Outcome<Stmt>)
    decreases |s.entries|, |s.entries| - pos, 44
    ensures Advances(r, s, pos, soft)
    ensures r.Parsed? ==> r.value.Var? && IsKeywordAt(s, pos, "var") && KwIdentAt(s, pos + 1).Done? &&
                          r.value.name == s.entries[pos + 1].ident
    ensures IsKeywordAt(s, pos, "var") && KwIdentAt(s, pos + 1).Done? && IsPunctAt(s, pos + 2, SemiColon) ==>
              r == Parsed(Var(s.entries[pos + 1].ident, Lit(NilLit)), pos + 3, soft)
  {
    match KeywordAt(s, pos, "var")
    case Failed(e) => Stopped(e)
    case Done(_, p) =>
      match KwIdentAt(s, p)
      case Failed(e) => Stopped(e)
      case Done(name, q) => VarInitAt(s, q, name, soft)
  }

  /** After the name: an optional `= initialiser` (`nil` without one) and a `;`. */
  function VarInitAt(s: Stream, pos: nat, name: Ident, soft: Error): (r: Outcome<Stmt>)
    decreases |s.entries|, |s.entries| - pos, 44
    ensures r.Parsed? ==> pos < r.next <= |s.entries| && soft <= r.soft && r.value.Var? && r.value.name == name
    ensures IsPunctAt(s, pos, SemiColon) ==> r == Parsed(Var(name, Lit(NilLit)), pos + 1, soft)
  {
    if IsPunctAt(s, pos, PunctKind.Equal) then
      match AssignmentAt(s, pos + 1, soft)
      case Stopped(e) => Stopped(e)
      case Parsed(x, n, sf) => Terminated(s, n, Var(name, x), sf)
    else Terminated(s, pos, Var(name, Lit(NilLit)), soft)
  }

  /** `while_statement`: the keyword, the parenthesised condition parsed as a
      stream of its own, and the body. */
  function WhileAt(s: Stream, pos: nat, soft: Error): (r: Outcome<Stmt>)
    decreases |s.entries|, |s.entries| - pos, 45
    ensures Advances(r, s, pos, soft)
    ensures r.Parsed? ==> r.value.While?
  {
    match KeywordAt(s, pos, "while")
    case Failed(e) => Stopped(e)
    case Done(_, p) =>
      match GroupingAt(s, p)
      case Failed(e) => Stopped(e)
      case Done(c, q) => WhileWithBody(c, StatementAt(s, q, soft))
  }

  /** The `while` loop on condition `c`, once its body is parsed; a body that
      stops stops the loop. */
  function WhileWithBody(c: Expr, body: Outcome<Stmt>): (r: Outcome<Stmt>)
    ensures r.Parsed? <==> body.Parsed?
    ensures r.Parsed? ==> r == Parsed(While(c, body.value), body.next, body.soft)
    ensures r.Stopped? ==> r.error == body.error
  {
    match body
    case Stopped(e) => Stopped(e)
    case Parsed(b, n, sf) => Parsed(While(c, b), n, sf)
  }

  /** `if_statement`: the keyword, the parenthesised condition parsed as a
      stream of its own, then the branches. */
  function IfAt(s: Stream, pos: nat, soft: Error): (r: Outcome<Stmt>)
    decreases |s.entries|, |s.entries| - pos, 45
    ensures Advances(r, s, pos, soft)
    ensures r.Parsed? ==> r.value.If?
  {
    match KeywordAt(s, pos, "if")
    case Failed(e) => Stopped(e)
    case Done(_, p) =>
      match GroupingAt(s, p)
      case Failed(e) => Stopped(e)
      case Done(c, q) => BranchesAsWrittenAt(s, q, c, soft)
  }

  /** The branches of an `if` on `condition`: the then branch, and when `else`
      follows it, the keyword and the else branch. */
  function BranchesAt(s: Stream, pos: nat, condition: Expr, soft: Error): (r: Outcome<Stmt>)
    decreases |s.entries|, |s.entries| - pos, 51
    ensures Advances(r, s, pos, soft)
    ensures r.Parsed? ==> r.value.If? && r.value.condition == condition
  {
    match StatementAt(s, pos, soft)
    case Stopped(e) => Stopped(e)
    case Parsed(t, m, sf) => ElseAt(s, m, condition, t, sf)
  }

  /** After the then branch `t`, ending at `pos`: when `else` follows, the
      keyword and the else branch; otherwise no else branch. */
  function ElseAt(s: Stream, pos: nat, condition: Expr, t: Stmt, soft: Error): (r: Outcome<Stmt>)
    requires pos <= |s.entries|
    decreases |s.entries|, |s.entries| - pos, 51
    ensures r.Parsed? ==> pos <= r.next <= |s.entries| && soft <= r.soft
    ensures r.Parsed? ==> r.value.If? && r.value.condition == condition
  {
    if !IsKeywordAt(s, pos, "else") then Parsed(If(condition, t, None), pos, soft)
    else
      match StatementAt(s, pos + 1, soft)
      case Stopped(e) => Stopped(e)
      case Parsed(f, n, sf) => Parsed(If(condition, t, Some(f)), n, sf)
  }

  /** The branches as the source parses them: the then branch, and when
      `else` follows it, the else branch parsed from the keyword itself,
      which is peeked but never consumed. */
  function BranchesAsWrittenAt(s: Stream, pos: nat, condition: Expr, soft: Error): (r: Outcome<Stmt>)
    decreases |s.entries|, |s.entries| - pos, 51
    ensures Advances(r, s, pos, soft)
    ensures r.Parsed? ==> r.value.If? && r.value.condition == condition
  {
    match StatementAt(s, pos, soft)
    case Stopped(e) => Stopped(e)
    case Parsed(t, m, sf) => ElseAsWrittenAt(s, m, condition, t, sf)
  }

  /** After the then branch `t`, ending at `pos`, as the source parses it:
      when `else` follows, a statement parsed at the keyword itself. */
  function ElseAsWrittenAt(s: Stream, pos: nat, condition: Expr, t: Stmt, soft: Error): (r: Outcome<Stmt>)
    requires pos <= |s.entries|
    decreases |s.entries|, |s.entries| - pos, 51
    ensures r.Parsed? ==> pos <= r.next <= |s.entries| && soft <= r.soft
    ensures r.Parsed? ==> r.value.If? && r.value.condition == condition
  {
    if !IsKeywordAt(s, pos, "else") then Parsed(If(condition, t, None), pos, soft)
    else
      match StatementAt(s, pos, soft)
      case Stopped(e) => Stopped(e)
      case Parsed(f, n, sf) => Parsed(If(condition, t, Some(f)), n, sf)
  }

  /** `for_statement`: the keyword, the clauses in parentheses parsed as a stream
      of their own, and the body, desugared into a `while` loop. */
  function ForAt(s: Stream, pos: nat, soft: Error): (r: Outcome<Stmt>)
    decreases |s.entries|, |s.entries| - pos, 45
    ensures Advances(r, s, pos, soft)
    ensures var k := KeywordAt(s, pos, "for");
            k.Done? && ForHeaderAt(s, k.next).Done? ==>
              var h := ForHeaderAt(s, k.next);
              var b := StatementAt(s, h.next, soft);
              (r.Parsed? <==> b.Parsed?) &&
              (b.Parsed? ==> r == Parsed(ForLoop(h.value.initialiser, h.value.condition, h.value.increment, b.value), b.next, b.soft))
  {
    match KeywordAt(s, pos, "for")
    case Failed(e) => Stopped(e)
    case Done(_, p) =>
      match ForHeaderAt(s, p)
      case Failed(e) => Stopped(e)
      case Done(fc, q) => ForWithBody(fc, StatementAt(s, q, soft))
  }

  /** The `while` loop a `for` with clauses `fc` desugars into, once its body
      is parsed; a body that stops stops the `for`. */
  function ForWithBody(fc: ForClauses, body: Outcome<Stmt>): (r: Outcome<Stmt>)
    ensures r.Parsed? <==> body.Parsed?
    ensures r.Parsed? ==>
              r == Parsed(ForLoop(fc.initialiser, fc.condition, fc.increment, body.value), body.next, body.soft)
    ensures r.Stopped? ==> r.error == body.error
  {
    match body
    case Stopped(e) => Stopped(e)
    case Parsed(b, n, sf) => Parsed(ForLoop(fc.initialiser, fc.condition, fc.increment, b), n, sf)
  }

  /** The clauses of a `for` in their parentheses, parsed as a stream of their own. */
  function ForHeaderAt(s: Stream, pos: nat): (r: Step<ForClauses>)
    decreases |s.entries|, |s.entries| - pos, 44
    ensures r.Done? ==> pos < r.next <= |s.entries|
  {
    match GroupAt(Parenthesis, s, pos)
    case Failed(e) => Failed(e)
    case Done(g, n) =>
      match ForClausesOf(Interior(s, g))
      case Err(e) => Failed(e)
      case Ok(fc) => Done(fc, n)
  }

  /** `parse(stream)` of a `ForInner`. */
  function ForClausesOf(s: Stream): (r: Result<ForClauses>)
    decreases |s.entries|, |s.entries| + 1, 0
    ensures var o := ForClausesAt(s, 0, []);
            (r.Ok? <==> o.Parsed? && IsEmptyAt(s, o.next) && o.soft == []) && (r.Ok? ==> r.value == o.value)
  {
    Finish(s, ForClausesAt(s, 0, []))
  }

  /** The initialiser of a `for`: none at a bare `;` (consumed), a variable
      declaration, or an expression statement. */
  function InitialiserAt(s: Stream, pos: nat, soft: Error): (r: Outcome<Option<Stmt>>)
    decreases |s.entries|, |s.entries| - pos, 45
    ensures Advances(r, s, pos, soft)
    ensures r.Parsed? ==> (r.value.None? <==> IsPunctAt(s, pos, SemiColon))
  {
    if IsPunctAt(s, pos, SemiColon) then Parsed(None, pos + 1, soft)
    else if IsKeywordAt(s, pos, "var") then
      match VarDeclAt(s, pos, soft)
      case Stopped(e) => Stopped(e)
      case Parsed(v, n, sf) => Parsed(Some(v), n, sf)
    else
      match ExpressionStmtAt(s, pos, soft)
      case Stopped(e) => Stopped(e)
      case Parsed(v, n, sf) => Parsed(Some(v), n, sf)
  }

  /** `ForInner::parse`: the initialiser, a condition (`true` when a `;` follows
      at once) with its `;`, and an increment unless the stream ends there. */
  function ForClausesAt(s: Stream, pos: nat, soft: Error): (r: Outcome<ForClauses>)
    decreases |s.entries|, |s.entries| - pos, 46
    ensures Advances(r, s, pos, soft)
    ensures r.Parsed? ==> (r.value.initialiser.None? <==> IsPunctAt(s, pos, SemiColon))
    ensures r.Parsed? && r.value.increment.None? ==> IsEmptyAt(s, r.next)
    ensures var i := InitialiserAt(s, pos, soft);
            r.Parsed? && i.Parsed? && IsPunctAt(s, i.next, SemiColon) ==> r.value.condition == Lit(TrueLit)
  {
    match InitialiserAt(s, pos, soft)
    case Stopped(e) => Stopped(e)
    case Parsed(initialiser, p, sf) =>
      var condition: Outcome<Expr> :=
        if IsPunctAt(s, p, SemiColon) then Parsed(Lit(TrueLit), p, sf) else AssignmentAt(s, p, sf);
      match condition
      case Stopped(e) => Stopped(e)
      case Parsed(c, q, sf2) =>
        match SingleAt(SemiColon, s, q)
        case Failed(e) => Stopped(e)
        case Done(_, m) =>
          if IsEmptyAt(s, m) then Parsed(ForClauses(initialiser, c, None), m, sf2)
          else
            match AssignmentAt(s, m, sf2)
            case Stopped(e) => Stopped(e)
            case Parsed(i, n, sf3) => Parsed(ForClauses(initialiser, c, Some(i)), n, sf3)
  }

  /** `statement`: the statement its first entry announces, a block in braces
      parsed as a stream of its own, or else an expression statement. */
  function StatementAt(s: Stream, pos: nat, soft: Error): (r: Outcome<Stmt>)
    decreases |s.entries|, |s.entries| - pos, 50
    ensures Advances(r, s, pos, soft)
  {
    if IsKeywordAt(s, pos, "if") then IfAt(s, pos, soft)
    else if IsKeywordAt(s, pos, "for") then ForAt(s, pos, soft)
    else if IsKeywordAt(s, pos, "print") then PrintAt(s, pos, soft)
    else if IsKeywordAt(s, pos, "return") then ReturnAt(s, pos, soft)
    else if IsKeywordAt(s, pos, "while") then WhileAt(s, pos, soft)
    else if IsPunctAt(s, pos, LeftBrace) then
      match BracedBlockAt(s, pos)
      case Failed(e) => Stopped(e)
      case Done(stmts, n) => Parsed(Block(stmts), n, soft)
    else ExpressionStmtAt(s, pos, soft)
  }

  /** `block.parse(stream)`. */
  function BlockOf(s: Stream): (r: Result<seq<Stmt>>)
    decreases |s.entries|, |s.entries| + 1, 0
    ensures IsEmptyAt(s, 0) ==> r == Ok([])
    ensures var o := BlockLoop(s, 0, [], []);
            (r.Ok? <==> o.Parsed? && o.soft == []) && (r.Ok? ==> r.value == o.value)
  {
    Finish(s, BlockLoop(s, 0, [], []))
  }

  /** A declaration that fails ends the block with its error: a block does
      not recover. */
  lemma BlockStopsAtFailure(s: Stream, pos: nat, acc: seq<Stmt>, soft: Error, e: Error)
    requires pos <= |s.entries| && !IsEmptyAt(s, pos) && DeclarationAt(s, pos, soft) == Stopped(e)
    ensures BlockLoop(s, pos, acc, soft) == Stopped(e)
  {
  }

  /** `block`: declarations until the stream is empty. */
  function BlockLoop(s: Stream, pos: nat, acc: seq<Stmt>, soft: Error): (r: Outcome<seq<Stmt>>)
    requires pos <= |s.entries|
    decreases |s.entries|, |s.entries| - pos, 65
    ensures r.Parsed? ==> pos <= r.next <= |s.entries| && soft <= r.soft
    ensures r.Parsed? ==> IsEmptyAt(s, r.next) && acc <= r.value
  {
    if IsEmptyAt(s, pos) then Parsed(acc, pos, soft)
    else
      match DeclarationAt(s, pos, soft)
      case Stopped(e) => Stopped(e)
      case Parsed(d, n, sf) => BlockLoop(s, n, acc + [d], sf)
  }

  /** `declaration`: a class, a function after `fun`, a variable, or a statement. */
  function DeclarationAt(s: Stream, pos: nat, soft: Error): (r: Outcome<Stmt>)
    decreases |s.entries|, |s.entries| - pos, 60
    ensures Advances(r, s, pos, soft)
  {
    if IsKeywordAt(s, pos, "class") then ClassDeclAt(s, pos, soft)
    else if IsKeywordAt(s, pos, "fun") then
      match FunctionAt(s, pos + 1, soft)
      case Stopped(e) => Stopped(e)
      case Parsed(f, n, sf) => Parsed(FunctionStmt(f), n, sf)
    else if IsKeywordAt(s, pos, "var") then VarDeclAt(s, pos, soft)
    else StatementAt(s, pos, soft)
  }

  /** `class_declaration`: the keyword, the name, an optional `< superclass`, and
      the methods in braces, parsed as a stream of their own. */
  function ClassDeclAt(s: Stream, pos: nat, soft: Error): (r: Outcome<Stmt>)
    decreases |s.entries|, |s.entries| - pos, 55
    ensures Advances(r, s, pos, soft)
    ensures r.Parsed? ==> r.value.Class? && r.soft == soft
    ensures r.Parsed? ==> (r.value.superclass.Some? <==> IsPunctAt(s, pos + 2, LAngle))
  {
    match KeywordAt(s, pos, "class")
    case Failed(e) => Stopped(e)
    case Done(_, p) =>
      match ExpectIdentAt(s, p)
      case Failed(e) => Stopped(e)
      case Done(name, q) =>
        match SuperclassAt(s, q)
        case Failed(e) => Stopped(e)
        case Done(sup, m) =>
          match BracedMethodsAt(s, m)
          case Failed(e) => Stopped(e)
          case Done(methods, n) => Parsed(Class(name, sup, methods), n, soft)
  }

  /** The body of a class: `parse_repeated.parse` of the interior of its braces. */
  function BracedMethodsAt(s: Stream, pos: nat): (r: Step<seq<Function>>)
    decreases |s.entries|, |s.entries| - pos, 54
    ensures r.Done? ==> pos < r.next <= |s.entries|
  {
    match GroupAt(Brace, s, pos)
    case Failed(e) => Failed(e)
    case Done(g, n) =>
      match MethodsOf(Interior(s, g))
      case Err(e) => Failed(e)
      case Ok(methods) => Done(methods, n)
  }

  /** An optional `< superclass`. */
  function SuperclassAt(s: Stream, pos: nat): (r: Step<Option<Ident>>)
    ensures r.Done? ==> r.next == if r.value.Some? then pos + 2 else pos
    ensures r.Done? ==> (r.value.Some? <==> IsPunctAt(s, pos, LAngle))
    ensures r.Done? && r.value.Some? ==> IsIdentAt(s, pos + 1) && r.value.value == s.entries[pos + 1].ident
  {
    if IsPunctAt(s, pos, LAngle) then
      match ExpectIdentAt(s, pos + 1)
      case Failed(e) => Failed(e)
      case Done(sup, m) => Done(Some(sup), m)
    else Done(None, pos)
  }

  /** `parse_repeated.parse(stream)` of the methods of a class. */
  function MethodsOf(s: Stream): (r: Result<seq<Function>>)
    decreases |s.entries|, |s.entries| + 1, 0
    ensures IsEmptyAt(s, 0) ==> r == Ok([])
    ensures var o := MethodsLoop(s, 0, [], []);
            (r.Ok? <==> o.Parsed? && o.soft == []) && (r.Ok? ==> r.value == o.value)
  {
    Finish(s, MethodsLoop(s, 0, [], []))
  }

  /** Functions until the stream is empty. */
  function MethodsLoop(s: Stream, pos: nat, acc: seq<Function>, soft: Error): (r: Outcome<seq<Function>>)
    requires pos <= |s.entries|
    decreases |s.entries|, |s.entries| - pos, 65
    ensures r.Parsed? ==> pos <= r.next <= |s.entries| && soft <= r.soft
    ensures r.Parsed? ==> IsEmptyAt(s, r.next) && acc <= r.value
  {
    if IsEmptyAt(s, pos) then Parsed(acc, pos, soft)
    else
      match FunctionAt(s, pos, soft)
      case Stopped(e) => Stopped(e)
      case Parsed(f, n, sf) => MethodsLoop(s, n, acc + [f], sf)
  }

  /** `Function::parse`: the name, the parameters in parentheses (a separated
      list of identifiers with no trailing comma), and the body in braces, each
      list parsed as a stream of its own. With 255 or more parameters the
      function is still built and "Can't have more than 254 parameters" is
      recorded at the parentheses. */
  function FunctionAt(s: Stream, pos: nat, soft: Error): (r: Outcome<Function>)
    decreases |s.entries|, |s.entries| - pos, 55
    ensures Advances(r, s, pos, soft)
    ensures r.Parsed? ==> IsIdentAt(s, pos) && r.value.name == s.entries[pos].ident
    ensures r.Parsed? ==> ParameterListAt(s, pos + 1).Done? && r.value.params == ParameterListAt(s, pos + 1).value.1
    ensures r.Parsed? ==>
              r.soft == if |r.value.params| >= MAX_LIST
                        then soft + NewError(s.source, Custom(TOO_MANY_PARAMETERS, ParenSpan(ParameterListAt(s, pos + 1).value.0)))
                        else soft
  {
    match ExpectIdentAt(s, pos)
    case Failed(e) => Stopped(e)
    case Done(name, p) =>
      match ParameterListAt(s, p)
      case Failed(e) => Stopped(e)
      case Done((g, params), q) => FunctionBodyAt(s, q, name, g, params, soft)
  }

  /** After the parameters `params` in the group `g`: the body in braces. More
      than 254 parameters records "Can't have more than 254 parameters" at the
      parentheses and goes on. */
  function FunctionBodyAt(s: Stream, pos: nat, name: Ident, g: Group, params: seq<Ident>, soft: Error): (r: Outcome<Function>)
    decreases |s.entries|, |s.entries| - pos, 55
    ensures r.Parsed? ==> pos < r.next <= |s.entries| && r.value.name == name && r.value.params == params
    ensures r.Parsed? ==>
              r.soft == if |params| >= MAX_LIST then soft + NewError(s.source, Custom(TOO_MANY_PARAMETERS, ParenSpan(g))) else soft
  {
    match BracedBlockAt(s, pos)
    case Failed(e) => Stopped(e)
    case Done(body, n) =>
      Parsed(Function(name, params, body), n,
             if |params| >= MAX_LIST then soft + NewError(s.source, Custom(TOO_MANY_PARAMETERS, ParenSpan(g))) else soft)
  }

  /** The parenthesised parameters of a function, with their group. */
  function ParameterListAt(s: Stream, pos: nat): (r: Step<(Group, seq<Ident>)>)
    ensures r.Done? ==> pos < r.next <= |s.entries|
  {
    match GroupAt(Parenthesis, s, pos)
    case Failed(e) => Failed(e)
    case Done(g, n) =>
      match ParametersOf(Interior(s, g))
      case Err(e) => Failed(e)
      case Ok(params) => Done((g, params), n)
  }

  /** A block in braces: `block.parse` of its interior. */
  function BracedBlockAt(s: Stream, pos: nat): (r: Step<seq<Stmt>>)
    decreases |s.entries|, |s.entries| - pos, 46
    ensures r.Done? ==> pos < r.next <= |s.entries|
  {
    match GroupAt(Brace, s, pos)
    case Failed(e) => Failed(e)
    case Done(g, n) =>
      match BlockOf(Interior(s, g))
      case Err(e) => Failed(e)
      case Ok(stmts) => Done(stmts, n)
  }

  /** `Punctuated::parse_separated.parse(stream)` of identifiers. */
  function ParametersOf(s: Stream): (r: Result<seq<Ident>>)
    ensures IsEmptyAt(s, 0) ==> r == Ok([])
    ensures var o := ParametersAt(s, 0, []);
            (r.Ok? <==> o.Parsed? && IsEmptyAt(s, o.next)) && (r.Ok? ==> r.value == o.value)
  {
    Finish(s, ParametersAt(s, 0, []))
  }

  /** A comma-separated list of identifiers, possibly empty; a comma must be
      followed by another identifier. */
  function ParametersAt(s: Stream, pos: nat, soft: Error): (r: Outcome<seq<Ident>>)
    requires pos <= |s.entries|
    ensures r.Parsed? ==> pos <= r.next <= |s.entries| && r.soft == soft
  {
    if IsEmptyAt(s, pos) then Parsed([], pos, soft)
    else
      match ExpectIdentAt(s, pos)
      case Failed(e) => Stopped(e)
      case Done(x, n) => ParametersLoop(s, n, [x], soft)
  }

  function ParametersLoop(s: Stream, pos: nat, acc: seq<Ident>, soft: Error): (r: Outcome<seq<Ident>>)
    requires pos <= |s.entries|
    decreases |s.entries| - pos
    ensures r.Parsed? ==> pos <= r.next <= |s.entries| && r.soft == soft && acc <= r.value
    ensures r.Parsed? ==> !IsPunctAt(s, r.next, Comma)
  {
    if !IsPunctAt(s, pos, Comma) then Parsed(acc, pos, soft)
    else
      match ExpectIdentAt(s, pos + 1)
      case Failed(e) => Stopped(e)
      case Done(x, n) => ParametersLoop(s, n, acc + [x], soft)
  }

  /** The condition `synchronise` stops at: a `;` at the cursor, or one of the
      statement keywords right after it. */
  predicate SyncPoint(s: Stream, pos: nat)
  {
    IsPunctAt(s, pos, SemiColon) || (IsIdentAt(s, pos + 1) && s.entries[pos + 1].ident.name in SYNC_KEYWORDS)
  }

  /** `synchronise`: skip entries until the stream is empty or a sync point is
      reached, then skip one more. */
  function SyncAt(s: Stream, pos: nat): (r: nat)
    requires pos <= |s.entries|
    decreases |s.entries| - pos
    ensures pos <= r <= |s.entries|
    ensures pos < |s.entries| ==> pos < r
    ensures forall i :: pos <= i < r - 1 ==> !IsEmptyAt(s, i) && !SyncPoint(s, i)
    ensures pos < r < |s.entries| ==> IsEmptyAt(s, r - 1) || SyncPoint(s, r - 1)
  {
    if IsEmptyAt(s, pos) || SyncPoint(s, pos) then (if pos < |s.entries| then pos + 1 else pos)
    else SyncAt(s, pos + 1)
  }

  /** The failures of the program's declarations, combined in order (`reduce`
      with `Error::with`). */
  function Combined(errors: seq<Error>): (e: Error)
    ensures errors != [] ==> errors[0] <= e
    ensures errors != [] ==> |errors[|errors| - 1]| <= |e| && e[|e| - |errors[|errors| - 1]|..] == errors[|errors| - 1]
  {
    if errors == [] then [] else With(Combined(errors[..|errors| - 1]), errors[|errors| - 1])
  }

  /** `Ast::parse` from `pos`, with the statements parsed and the failures
      recorded so far: while the stream is not empty, a declaration is parsed;
      one that fails is rolled back (position and recorded errors), its failure
      kept, and the cursor resynchronised. */
  function ProgramAt(s: Stream, pos: nat, stmts: seq<Stmt>, failures: seq<Error>, soft: Error): (r: Outcome<seq<Stmt>>)
    requires pos <= |s.entries|
    decreases |s.entries| - pos
    ensures r.Parsed? ==> failures == [] && stmts <= r.value && IsEmptyAt(s, r.next) && soft <= r.soft
  {
    if IsEmptyAt(s, pos) then
      (if failures == [] then Parsed(stmts, pos, soft) else Stopped(Combined(failures)))
    else
      match DeclarationAt(s, pos, soft)
      case Parsed(d, n, sf) => ProgramAt(s, n, stmts + [d], failures, sf)
      case Stopped(e) => ProgramAt(s, SyncAt(s, pos), stmts, failures + [e], soft)
  }

  /** `parse(stream)` of a whole program. */
  function AstOf(s: Stream): (r: Result<seq<Stmt>>)
    ensures IsEmptyAt(s, 0) ==> r == Ok([])
    ensures var o := ProgramAt(s, 0, [], [], []);
            (r.Ok? <==> o.Parsed? && o.soft == []) && (r.Ok? ==> r.value == o.value)
  {
    Finish(s, ProgramAt(s, 0, [], [], []))
  }

  // ---------------------------------------------------------------------------
  // Properties.

  /** Recovery: once a declaration has failed the program fails, and its error
      holds every recorded failure, in order, ahead of any later one. */
  lemma {:induction false} FailuresAreKept(s: Stream, pos: nat, stmts: seq<Stmt>, failures: seq<Error>, soft: Error)
    requires pos <= |s.entries|
    ensures failures != [] ==> ProgramAt(s, pos, stmts, failures, soft).Stopped?
    ensures ProgramAt(s, pos, stmts, failures, soft).Stopped? ==>
              Combined(failures) <= ProgramAt(s, pos, stmts, failures, soft).error
    decreases |s.entries| - pos
  {
    if !IsEmptyAt(s, pos) {
      match DeclarationAt(s, pos, soft)
      case Parsed(d, n, sf) =>
        FailuresAreKept(s, n, stmts + [d], failures, sf);
      case Stopped(e) =>
        FailuresAreKept(s, SyncAt(s, pos), stmts, failures + [e], soft);
        assert (failures + [e])[..|failures|] == failures;
        assert Combined(failures + [e]) == Combined(failures) + e;
    }
  }

  /** One failed declaration between two that parse: the program fails with
      exactly that declaration's error, after resynchronising to the next. */
  lemma OneFailureReported(s: Stream, e: Error, d1: Stmt, d3: Stmt, p1: nat, p2: nat, soft1: Error)
    requires 0 < p1 < p2 < |s.entries|
    requires !IsEmptyAt(s, 0) && !IsEmptyAt(s, p1) && !IsEmptyAt(s, p2)
    requires DeclarationAt(s, 0, []) == Parsed(d1, p1, soft1)
    requires DeclarationAt(s, p1, soft1) == Stopped(e)
    requires SyncAt(s, p1) == p2
    requires DeclarationAt(s, p2, soft1).Parsed? && IsEmptyAt(s, DeclarationAt(s, p2, soft1).next)
    ensures AstOf(s) == Err(e)
  {
    OneFailureStops(s, e, d1, p1, p2, soft1, DeclarationAt(s, p2, soft1).value, DeclarationAt(s, p2, soft1).next, DeclarationAt(s, p2, soft1).soft);
  }

  /** The program loop of `OneFailureReported`, with the last declaration's
      outcome named. */
  lemma OneFailureStops(s: Stream, e: Error, d1: Stmt, p1: nat, p2: nat, soft1: Error, d3: Stmt, n3: nat, soft3: Error)
    requires 0 < p1 < p2 < |s.entries|
    requires !IsEmptyAt(s, 0) && !IsEmptyAt(s, p1) && !IsEmptyAt(s, p2)
    requires DeclarationAt(s, 0, []) == Parsed(d1, p1, soft1)
    requires DeclarationAt(s, p1, soft1) == Stopped(e)
    requires SyncAt(s, p1) == p2
    requires DeclarationAt(s, p2, soft1) == Parsed(d3, n3, soft3) && IsEmptyAt(s, n3)
    ensures ProgramAt(s, 0, [], [], []) == Stopped(e)
  {
    SingleFailureAtEnd(s, n3, [d1] + [d3], e, soft3);
    assert ProgramAt(s, p2, [d1], [e], soft1) == Stopped(e);
    ProgramRecovers(s, p1, [d1], e, soft1);
    assert [] + [d1] == [d1];
  }

  /** A declaration that fails with `e` is dropped and the cursor resynchronised,
      with `e` the first recorded failure. */
  lemma ProgramRecovers(s: Stream, pos: nat, stmts: seq<Stmt>, e: Error, soft: Error)
    requires pos < |s.entries| && !IsEmptyAt(s, pos) && DeclarationAt(s, pos, soft) == Stopped(e)
    ensures ProgramAt(s, pos, stmts, [], soft) == ProgramAt(s, SyncAt(s, pos), stmts, [e], soft)
  {
    assert [] + [e] == [e];
  }

  /** At the end of the stream, a single recorded failure is the program's error. */
  lemma SingleFailureAtEnd(s: Stream, pos: nat, stmts: seq<Stmt>, e: Error, soft: Error)
    requires pos <= |s.entries| && IsEmptyAt(s, pos)
    ensures ProgramAt(s, pos, stmts, [e], soft) == Stopped(e)
  {
    assert [e][..0] == [];
    assert Combined([e]) == With([], e) == e;
  }

  /** No statement begins at `else`: it is not a statement keyword, and as an
      expression it is a keyword that `kw::ident` refuses. */
  lemma NoStatementAtElse(s: Stream, pos: nat, soft: Error)
    requires IsKeywordAt(s, pos, "else")
    ensures StatementAt(s, pos, soft).Stopped?
  {
    NoExpressionStartsAt(s, pos, soft);
  }

  /** As written, an `if` whose then branch is followed by `else` never parses:
      the else branch is parsed from the `else` keyword itself. */
  lemma IfElseStopsAsWritten(s: Stream, pos: nat, condition: Expr, soft: Error, t: Stmt, m: nat, sf: Error)
    requires StatementAt(s, pos, soft) == Parsed(t, m, sf) && IsKeywordAt(s, m, "else")
    ensures BranchesAsWrittenAt(s, pos, condition, soft).Stopped?
  {
    NoStatementAtElse(s, m, sf);
  }

  /** So no `if` statement with an else branch ever parses: whatever the
      stream, a parsed `if` has none. */
  lemma IfNeverHasElse(s: Stream, pos: nat, soft: Error)
    ensures IfAt(s, pos, soft).Parsed? ==> IfAt(s, pos, soft).value.elseBranch.None?
  {
    match KeywordAt(s, pos, "if")
    case Failed(_) =>
    case Done(_, p) =>
      match GroupingAt(s, p)
      case Failed(_) =>
      case Done(c, q) => BranchesNeverHaveElse(s, q, c, soft);
  }

  /** The branches as written never carry an else branch. */
  lemma BranchesNeverHaveElse(s: Stream, pos: nat, condition: Expr, soft: Error)
    ensures BranchesAsWrittenAt(s, pos, condition, soft).Parsed? ==>
              BranchesAsWrittenAt(s, pos, condition, soft).value.elseBranch.None?
  {
    match StatementAt(s, pos, soft)
    case Stopped(_) =>
    case Parsed(t, m, sf) =>
      if IsKeywordAt(s, m, "else") {
        NoStatementAtElse(s, m, sf);
      }
  }

  /** With the keyword consumed, the same branches parse, the else branch being
      the statement after `else`. */
  lemma IfElseParses(s: Stream, pos: nat, condition: Expr, soft: Error, t: Stmt, m: nat, sf: Error, f: Stmt, n: nat, sf2: Error)
    requires StatementAt(s, pos, soft) == Parsed(t, m, sf) && IsKeywordAt(s, m, "else")
    requires StatementAt(s, m + 1, sf) == Parsed(f, n, sf2)
    ensures BranchesAt(s, pos, condition, soft) == Parsed(If(condition, t, Some(f)), n, sf2)
  {
    ElseTaken(s, m, condition, t, sf, f, n, sf2);
  }

  /** An `else` after the then branch is consumed, and the else branch follows it. */
  lemma ElseTaken(s: Stream, m: nat, condition: Expr, t: Stmt, sf: Error, f: Stmt, n: nat, sf2: Error)
    requires IsKeywordAt(s, m, "else") && StatementAt(s, m + 1, sf) == Parsed(f, n, sf2)
    ensures ElseAt(s, m, condition, t, sf) == Parsed(If(condition, t, Some(f)), n, sf2)
  {
  }

  /** `for (;;)`: no initialiser, the condition `true`, no increment. */
  lemma EmptyForClauses(s: Stream)
    requires IsPunctAt(s, 0, SemiColon) && IsPunctAt(s, 1, SemiColon) && IsEmptyAt(s, 2)
    ensures ForClausesOf(s) == Ok(ForClauses(None, Lit(TrueLit), None))
  {
    assert ForClausesAt(s, 0, []) == Parsed(ForClauses(None, Lit(TrueLit), None), 2, []);
  }

  /** Parameters take no trailing comma: a comma at the end of the list stops the
      parse, where a call's arguments absorb it (`TrailingCommaAbsorbed`). */
  lemma ParametersRejectTrailingComma(s: Stream, pos: nat, acc: seq<Ident>, soft: Error)
    requires IsPunctAt(s, pos, Comma) && IsEmptyAt(s, pos + 1)
    ensures ParametersLoop(s, pos, acc, soft).Stopped?
  {
  }

  // ---------------------------------------------------------------------------
  // The parser on the cursor.

  method ExpressionStatement(input: ParseStream) returns (r: Result<Stmt>)
    requires input.Valid()
    modifies input
    decreases |input.stream.entries|, |input.stream.entries| - input.pos, 40
    ensures input.Valid()
    ensures Tracks(r, input.pos, input.soft, ExpressionStmtAt(input.stream, old(input.pos), old(input.soft)))
  {
    var x := Assignment(input);
    if x.Err? {
      return Err(x.error);
    }
    var semi := ParseToken(input, Single(SemiColon));
    if semi.Err? {
      return Err(semi.error);
    }
    r := Ok(ExprStmt(x.value));
  }

  method PrintStatement(input: ParseStream) returns (r: Result<Stmt>)
    requires input.Valid()
    modifies input
    decreases |input.stream.entries|, |input.stream.entries| - input.pos, 45
    ensures input.Valid()
    ensures Tracks(r, input.pos, input.soft, PrintAt(input.stream, old(input.pos), old(input.soft)))
  {
    var keyword := ParseKeyword(input, "print");
    if keyword.Err? {
      return Err(keyword.error);
    }
    var x := Assignment(input);
    if x.Err? {
      return Err(x.error);
    }
    var semi := ParseToken(input, Single(SemiColon));
    if semi.Err? {
      return Err(semi.error);
    }
    r := Ok(Print(x.value));
  }

  method ReturnStatement(input: ParseStream) returns (r: Result<Stmt>)
    requires input.Valid()
    modifies input
    decreases |input.stream.entries|, |input.stream.entries| - input.pos, 45
    ensures input.Valid()
    ensures Tracks(r, input.pos, input.soft, ReturnAt(input.stream, old(input.pos), old(input.soft)))
  {
    var keyword := ParseKeyword(input, "return");
    if keyword.Err? {
      return Err(keyword.error);
    }
    SingleIsOneEntry(SemiColon, input.stream, input.pos);
    var bare := Peek(input, Single(SemiColon));
    var value := Lit(NilLit);
    if !bare {
      var x := Assignment(input);
      if x.Err? {
        return Err(x.error);
      }
      value := x.value;
    }
    var semi := ParseToken(input, Single(SemiColon));
    if semi.Err? {
      return Err(semi.error);
    }
    r := Ok(Return(value));
  }

  method VarDeclaration(input: ParseStream) returns (r: Result<Stmt>)
    requires input.Valid()
    modifies input
    decreases |input.stream.entries|, |input.stream.entries| - input.pos, 44
    ensures input.Valid()
    ensures Tracks(r, input.pos, input.soft, VarDeclAt(input.stream, old(input.pos), old(input.soft)))
  {
    var keyword := ParseKeyword(input, "var");
    if keyword.Err? {
      return Err(keyword.error);
    }
    var name := KwIdent(input);
    if name.Err? {
      return Err(name.error);
    }
    r := VarInit(input, name.value);
  }

  method VarInit(input: ParseStream, name: Ident) returns (r: Result<Stmt>)
    requires input.Valid()
    modifies input
    decreases |input.stream.entries|, |input.stream.entries| - input.pos, 44
    ensures input.Valid()
    ensures Tracks(r, input.pos, input.soft, VarInitAt(input.stream, old(input.pos), name, old(input.soft)))
  {
    SingleIsOneEntry(PunctKind.Equal, input.stream, input.pos);
    var equals := Peek(input, Single(PunctKind.Equal));
    var initialiser := Lit(NilLit);
    if equals {
      var _ := ParseToken(input, Single(PunctKind.Equal));
      var x := Assignment(input);
      if x.Err? {
        return Err(x.error);
      }
      initialiser := x.value;
    }
    var semi := ParseToken(input, Single(SemiColon));
    if semi.Err? {
      return Err(semi.error);
    }
    r := Ok(Var(name, initialiser));
  }

  method WhileStatement(input: ParseStream) returns (r: Result<Stmt>)
    requires input.Valid()
    modifies input
    decreases |input.stream.entries|, |input.stream.entries| - input.pos, 45
    ensures input.Valid()
    ensures Tracks(r, input.pos, input.soft, WhileAt(input.stream, old(input.pos), old(input.soft)))
  {
    var keyword := ParseKeyword(input, "while");
    if keyword.Err? {
      return Err(keyword.error);
    }
    var condition := Grouping(input);
    if condition.Err? {
      return Err(condition.error);
    }
    var body := Statement(input);
    if body.Err? {
      return Err(body.error);
    }
    r := Ok(While(condition.value, body.value));
  }

  method IfStatement(input: ParseStream) returns (r: Result<Stmt>)
    requires input.Valid()
    modifies input
    decreases |input.stream.entries|, |input.stream.entries| - input.pos, 45
    ensures input.Valid()
    ensures Tracks(r, input.pos, input.soft, IfAt(input.stream, old(input.pos), old(input.soft)))
  {
    var keyword := ParseKeyword(input, "if");
    if keyword.Err? {
      return Err(keyword.error);
    }
    var condition := Grouping(input);
    if condition.Err? {
      return Err(condition.error);
    }
    r := Branches(input, condition.value);
  }

  method Branches(input: ParseStream, condition: Expr) returns (r: Result<Stmt>)
    requires input.Valid()
    modifies input
    decreases |input.stream.entries|, |input.stream.entries| - input.pos, 51
    ensures input.Valid()
    ensures Tracks(r, input.pos, input.soft, BranchesAsWrittenAt(input.stream, old(input.pos), condition, old(input.soft)))
  {
    var thenBranch := Statement(input);
    if thenBranch.Err? {
      return Err(thenBranch.error);
    }
    r := ElseBranch(input, condition, thenBranch.value);
  }

  method ElseBranch(input: ParseStream, condition: Expr, t: Stmt) returns (r: Result<Stmt>)
    requires input.Valid()
    modifies input
    decreases |input.stream.entries|, |input.stream.entries| - input.pos, 51
    ensures input.Valid()
    ensures Tracks(r, input.pos, input.soft, ElseAsWrittenAt(input.stream, old(input.pos), condition, t, old(input.soft)))
  {
    var hasElse := PeekKeyword(input, "else");
    if !hasElse {
      return Ok(If(condition, t, None));
    }
    var elseBranch := Statement(input);
    if elseBranch.Err? {
      return Err(elseBranch.error);
    }
    r := Ok(If(condition, t, Some(elseBranch.value)));
  }

  method ForStatement(input: ParseStream) returns (r: Result<Stmt>)
    requires input.Valid()
    modifies input
    decreases |input.stream.entries|, |input.stream.entries| - input.pos, 45
    ensures input.Valid()
    ensures Tracks(r, input.pos, input.soft, ForAt(input.stream, old(input.pos), old(input.soft)))
  {
    var keyword := ParseKeyword(input, "for");
    if keyword.Err? {
      return Err(keyword.error);
    }
    var clauses := ForHeader(input);
    if clauses.Err? {
      return Err(clauses.error);
    }
    var body := Statement(input);
    if body.Err? {
      return Err(body.error);
    }
    var fc := clauses.value;
    r := Ok(ForLoop(fc.initialiser, fc.condition, fc.increment, body.value));
  }

  method ForHeader(input: ParseStream) returns (r: Result<ForClauses>)
    requires input.Valid()
    modifies input
    decreases |input.stream.entries|, |input.stream.entries| - input.pos, 44
    ensures input.Valid() && input.soft == old(input.soft)
    ensures Follows(r, input.pos, ForHeaderAt(input.stream, old(input.pos)))
  {
    var group := ParseGroup(input, Parenthesis);
    if group.Err? {
      return Err(group.error);
    }
    r := ParseForClausesStream(Interior(input.stream, group.value));
  }

  /** `parse(stream)` of a `ForInner`, on a cursor of its own. */
  method ParseForClausesStream(s: Stream) returns (r: Result<ForClauses>)
    decreases |s.entries|, |s.entries| + 1, 0
    ensures r == ForClausesOf(s)
  {
    var input := new ParseStream(s);
    var clauses := ForClausesParse(input);
    r := Conclude(input, clauses, ForClausesAt(s, 0, []));
  }

  method ForInitialiser(input: ParseStream) returns (r: Result<Option<Stmt>>)
    requires input.Valid()
    modifies input
    decreases |input.stream.entries|, |input.stream.entries| - input.pos, 45
    ensures input.Valid()
    ensures Tracks(r, input.pos, input.soft, InitialiserAt(input.stream, old(input.pos), old(input.soft)))
  {
    SingleIsOneEntry(SemiColon, input.stream, input.pos);
    var bare := Peek(input, Single(SemiColon));
    if bare {
      var _ := ParseToken(input, Single(SemiColon));
      return Ok(None);
    }
    var isVar := PeekKeyword(input, "var");
    var st;
    if isVar {
      st := VarDeclaration(input);
    } else {
      st := ExpressionStatement(input);
    }
    if st.Err? {
      return Err(st.error);
    }
    r := Ok(Some(st.value));
  }

  method ForClausesParse(input: ParseStream) returns (r: Result<ForClauses>)
    requires input.Valid()
    modifies input
    decreases |input.stream.entries|, |input.stream.entries| - input.pos, 46
    ensures input.Valid()
    ensures Tracks(r, input.pos, input.soft, ForClausesAt(input.stream, old(input.pos), old(input.soft)))
  {
    var initialiser := ForInitialiser(input);
    if initialiser.Err? {
      return Err(initialiser.error);
    }
    SingleIsOneEntry(SemiColon, input.stream, input.pos);
    var noCondition := Peek(input, Single(SemiColon));
    var condition := Lit(TrueLit);
    if !noCondition {
      var c := Assignment(input);
      if c.Err? {
        return Err(c.error);
      }
      condition := c.value;
    }
    var semi := ParseToken(input, Single(SemiColon));
    if semi.Err? {
      return Err(semi.error);
    }
    var done := input.IsEmpty();
    if done {
      return Ok(ForClauses(initialiser.value, condition, None));
    }
    var increment := Assignment(input);
    if increment.Err? {
      return Err(increment.error);
    }
    r := Ok(ForClauses(initialiser.value, condition, Some(increment.value)));
  }

  method Statement(input: ParseStream) returns (r: Result<Stmt>)
    requires input.Valid()
    modifies input
    decreases |input.stream.entries|, |input.stream.entries| - input.pos, 50
    ensures input.Valid()
    ensures Tracks(r, input.pos, input.soft, StatementAt(input.stream, old(input.pos), old(input.soft)))
  {
    var isIf := PeekKeyword(input, "if");
    if isIf {
      r := IfStatement(input);
      return;
    }
    var isFor := PeekKeyword(input, "for");
    if isFor {
      r := ForStatement(input);
      return;
    }
    var isPrint := PeekKeyword(input, "print");
    if isPrint {
      r := PrintStatement(input);
      return;
    }
    var isReturn := PeekKeyword(input, "return");
    if isReturn {
      r := ReturnStatement(input);
      return;
    }
    var isWhile := PeekKeyword(input, "while");
    if isWhile {
      r := WhileStatement(input);
      return;
    }
    SingleIsOneEntry(LeftBrace, input.stream, input.pos);
    var isBlock := Peek(input, Single(LeftBrace));
    if isBlock {
      var stmts := BracedBlock(input);
      if stmts.Err? {
        return Err(stmts.error);
      }
      return Ok(Block(stmts.value));
    }
    r := ExpressionStatement(input);
  }

  method BracedBlock(input: ParseStream) returns (r: Result<seq<Stmt>>)
    requires input.Valid()
    modifies input
    decreases |input.stream.entries|, |input.stream.entries| - input.pos, 46
    ensures input.Valid() && input.soft == old(input.soft)
    ensures Follows(r, input.pos, BracedBlockAt(input.stream, old(input.pos)))
  {
    var group := ParseGroup(input, Brace);
    if group.Err? {
      return Err(group.error);
    }
    r := ParseBlockStream(Interior(input.stream, group.value));
  }

  /** `block.parse(stream)`, on a cursor of its own. */
  method ParseBlockStream(s: Stream) returns (r: Result<seq<Stmt>>)
    decreases |s.entries|, |s.entries| + 1, 0
    ensures r == BlockOf(s)
  {
    var input := new ParseStream(s);
    var stmts := BlockBody(input);
    r := Conclude(input, stmts, BlockLoop(s, 0, [], []));
  }

  /** `block`: declarations until the stream is empty. */
  method BlockBody(input: ParseStream) returns (r: Result<seq<Stmt>>)
    requires input.Valid()
    modifies input
    decreases |input.stream.entries|, |input.stream.entries| - input.pos, 65
    ensures input.Valid()
    ensures Tracks(r, input.pos, input.soft, BlockLoop(input.stream, old(input.pos), [], old(input.soft)))
  {
    ghost var start, soft0 := input.pos, input.soft;
    var statements: seq<Stmt> := [];
    while true
      invariant input.Valid() && start <= input.pos
      invariant BlockLoop(input.stream, start, [], soft0) == BlockLoop(input.stream, input.pos, statements, input.soft)
      decreases |input.stream.entries| - input.pos
    {
      var empty := input.IsEmpty();
      if empty {
        break;
      }
      var d := Declaration(input);
      if d.Err? {
        return Err(d.error);
      }
      statements := statements + [d.value];
    }
    r := Ok(statements);
  }

  method Declaration(input: ParseStream) returns (r: Result<Stmt>)
    requires input.Valid()
    modifies input
    decreases |input.stream.entries|, |input.stream.entries| - input.pos, 60
    ensures input.Valid()
    ensures Tracks(r, input.pos, input.soft, DeclarationAt(input.stream, old(input.pos), old(input.soft)))
  {
    var isClass := PeekKeyword(input, "class");
    if isClass {
      r := ClassDeclaration(input);
      return;
    }
    var isFun := PeekKeyword(input, "fun");
    if isFun {
      var _ := input.Next();
      var f := FunctionDecl(input);
      if f.Err? {
        return Err(f.error);
      }
      return Ok(FunctionStmt(f.value));
    }
    var isVar := PeekKeyword(input, "var");
    if isVar {
      r := VarDeclaration(input);
      return;
    }
    r := Statement(input);
  }

  method ClassDeclaration(input: ParseStream) returns (r: Result<Stmt>)
    requires input.Valid()
    modifies input
    decreases |input.stream.entries|, |input.stream.entries| - input.pos, 55
    ensures input.Valid()
    ensures Tracks(r, input.pos, input.soft, ClassDeclAt(input.stream, old(input.pos), old(input.soft)))
  {
    var keyword := ParseKeyword(input, "class");
    if keyword.Err? {
      return Err(keyword.error);
    }
    var name := ExpectIdent(input);
    if name.Err? {
      return Err(name.error);
    }
    var superclass := Superclass(input);
    if superclass.Err? {
      return Err(superclass.error);
    }
    var methods := BracedMethods(input);
    if methods.Err? {
      return Err(methods.error);
    }
    r := Ok(Class(name.value, superclass.value, methods.value));
  }

  method BracedMethods(input: ParseStream) returns (r: Result<seq<Function>>)
    requires input.Valid()
    modifies input
    decreases |input.stream.entries|, |input.stream.entries| - input.pos, 54
    ensures input.Valid() && input.soft == old(input.soft)
    ensures Follows(r, input.pos, BracedMethodsAt(input.stream, old(input.pos)))
  {
    var group := ParseGroup(input, Brace);
    if group.Err? {
      return Err(group.error);
    }
    r := ParseMethodsStream(Interior(input.stream, group.value));
  }

  method Superclass(input: ParseStream) returns (r: Result<Option<Ident>>)
    requires input.Valid()
    modifies input
    ensures input.Valid() && input.soft == old(input.soft)
    ensures Follows(r, input.pos, SuperclassAt(input.stream, old(input.pos)))
  {
    SingleIsOneEntry(LAngle, input.stream, input.pos);
    var hasSuper := Peek(input, Single(LAngle));
    if !hasSuper {
      return Ok(None);
    }
    var _ := ParseToken(input, Single(LAngle));
    var sup := ExpectIdent(input);
    if sup.Err? {
      return Err(sup.error);
    }
    r := Ok(Some(sup.value));
  }

  /** `parse_repeated.parse(stream)`, on a cursor of its own. */
  method ParseMethodsStream(s: Stream) returns (r: Result<seq<Function>>)
    decreases |s.entries|, |s.entries| + 1, 0
    ensures r == MethodsOf(s)
  {
    var input := new ParseStream(s);
    var methods := MethodsBody(input);
    r := Conclude(input, methods, MethodsLoop(s, 0, [], []));
  }

  method MethodsBody(input: ParseStream) returns (r: Result<seq<Function>>)
    requires input.Valid()
    modifies input
    decreases |input.stream.entries|, |input.stream.entries| - input.pos, 65
    ensures input.Valid()
    ensures Tracks(r, input.pos, input.soft, MethodsLoop(input.stream, old(input.pos), [], old(input.soft)))
  {
    ghost var start, soft0 := input.pos, input.soft;
    var methods: seq<Function> := [];
    while true
      invariant input.Valid() && start <= input.pos
      invariant MethodsLoop(input.stream, start, [], soft0) == MethodsLoop(input.stream, input.pos, methods, input.soft)
      decreases |input.stream.entries| - input.pos
    {
      var empty := input.IsEmpty();
      if empty {
        break;
      }
      var f := FunctionDecl(input);
      if f.Err? {
        return Err(f.error);
      }
      methods := methods + [f.value];
    }
    r := Ok(methods);
  }

  method FunctionDecl(input: ParseStream) returns (r: Result<Function>)
    requires input.Valid()
    modifies input
    decreases |input.stream.entries|, |input.stream.entries| - input.pos, 55
    ensures input.Valid()
    ensures Tracks(r, input.pos, input.soft, FunctionAt(input.stream, old(input.pos), old(input.soft)))
  {
    var name := ExpectIdent(input);
    if name.Err? {
      return Err(name.error);
    }
    var list := ParameterList(input);
    if list.Err? {
      return Err(list.error);
    }
    var (group, params) := list.value;
    r := FunctionBody(input, name.value, group, params);
  }

  method FunctionBody(input: ParseStream, name: Ident, group: Group, params: seq<Ident>) returns (r: Result<Function>)
    requires input.Valid()
    modifies input
    decreases |input.stream.entries|, |input.stream.entries| - input.pos, 55
    ensures input.Valid()
    ensures Tracks(r, input.pos, input.soft, FunctionBodyAt(input.stream, old(input.pos), name, group, params, old(input.soft)))
  {
    if |params| >= MAX_LIST {
      input.AddError(NewError(input.stream.source, Custom(TOO_MANY_PARAMETERS, ParenSpan(group))));
    }
    var body := BracedBlock(input);
    if body.Err? {
      return Err(body.error);
    }
    r := Ok(Function(name, params, body.value));
  }

  method ParameterList(input: ParseStream) returns (r: Result<(Group, seq<Ident>)>)
    requires input.Valid()
    modifies input
    ensures input.Valid() && input.soft == old(input.soft)
    ensures Follows(r, input.pos, ParameterListAt(input.stream, old(input.pos)))
  {
    var group := ParseGroup(input, Parenthesis);
    if group.Err? {
      return Err(group.error);
    }
    var params := ParseParametersStream(Interior(input.stream, group.value));
    if params.Err? {
      return Err(params.error);
    }
    r := Ok((group.value, params.value));
  }

  /** `Punctuated::parse_separated.parse(stream)`, on a cursor of its own. */
  method ParseParametersStream(s: Stream) returns (r: Result<seq<Ident>>)
    ensures r == ParametersOf(s)
  {
    var input := new ParseStream(s);
    var params := Parameters(input);
    r := Conclude(input, params, ParametersAt(s, 0, []));
  }

  method Parameters(input: ParseStream) returns (r: Result<seq<Ident>>)
    requires input.Valid()
    modifies input
    ensures input.Valid()
    ensures Tracks(r, input.pos, input.soft, ParametersAt(input.stream, old(input.pos), old(input.soft)))
  {
    var empty := input.IsEmpty();
    if empty {
      return Ok([]);
    }
    var first := ExpectIdent(input);
    if first.Err? {
      return Err(first.error);
    }
    r := ParametersTail(input, [first.value]);
  }

  /** The names after the first, each after a comma. */
  method ParametersTail(input: ParseStream, firsts: seq<Ident>) returns (r: Result<seq<Ident>>)
    requires input.Valid()
    modifies input
    ensures input.Valid()
    ensures Tracks(r, input.pos, input.soft, ParametersLoop(input.stream, old(input.pos), firsts, old(input.soft)))
  {
    ghost var start := input.pos;
    var params := firsts;
    while true
      invariant input.Valid() && input.soft == old(input.soft)
      invariant ParametersLoop(input.stream, start, firsts, old(input.soft)) == ParametersLoop(input.stream, input.pos, params, input.soft)
      decreases |input.stream.entries| - input.pos
    {
      SingleIsOneEntry(Comma, input.stream, input.pos);
      var comma := ParseOption(input, Single(Comma));
      if comma.None? {
        break;
      }
      var x := ExpectIdent(input);
      if x.Err? {
        return Err(x.error);
      }
      params := params + [x.value];
    }
    r := Ok(params);
  }

  /** Whether the cursor is at a sync point (`input.peek` and `peek2_any!`). */
  method AtSyncPoint(input: ParseStream) returns (b: bool)
    requires input.Valid()
    modifies input
    ensures input.Valid() && input.pos == old(input.pos) && input.soft == old(input.soft)
    ensures b == SyncPoint(input.stream, input.pos)
  {
    SingleIsOneEntry(SemiColon, input.stream, input.pos);
    var semi := Peek(input, Single(SemiColon));
    if semi {
      return true;
    }
    var s := input.stream;
    b := input.pos + 1 < |s.entries| && s.entries[input.pos + 1].IdentTree? &&
         s.entries[input.pos + 1].ident.name in SYNC_KEYWORDS;
  }

  /** `Ast::synchronise`. */
  method Synchronise(input: ParseStream)
    requires input.Valid()
    modifies input
    ensures input.Valid() && input.soft == old(input.soft)
    ensures input.pos == SyncAt(input.stream, old(input.pos))
  {
    while true
      invariant input.Valid() && input.soft == old(input.soft)
      invariant old(input.pos) <= input.pos
      invariant SyncAt(input.stream, old(input.pos)) == SyncAt(input.stream, input.pos)
      decreases |input.stream.entries| - input.pos
    {
      var empty := input.IsEmpty();
      if empty {
        break;
      }
      var stop := AtSyncPoint(input);
      if stop {
        break;
      }
      var _ := input.Next();
    }
    var _ := input.Next();
  }

  /** `Ast::parse`: declarations until the stream is empty; a failed one is
      rolled back, recorded, and followed by a resynchronisation. */
  method Program(input: ParseStream) returns (r: Result<seq<Stmt>>)
    requires input.Valid()
    modifies input
    ensures input.Valid()
    ensures Tracks(r, input.pos, input.soft, ProgramAt(input.stream, old(input.pos), [], [], old(input.soft)))
  {
    ghost var start, soft0 := input.pos, input.soft;
    var stmts: seq<Stmt> := [];
    var failures: seq<Error> := [];
    while true
      invariant input.Valid()
      invariant ProgramAt(input.stream, start, [], [], soft0) == ProgramAt(input.stream, input.pos, stmts, failures, input.soft)
      decreases |input.stream.entries| - input.pos
    {
      var empty := input.IsEmpty();
      if empty {
        break;
      }
      var saved, savedErrors := input.pos, input.soft;
      var d := Declaration(input);
      if d.Ok? {
        stmts := stmts + [d.value];
      } else {
        input.Restore(saved, savedErrors);
        Synchronise(input);
        failures := failures + [d.error];
      }
    }
    if failures != [] {
      return Err(Combined(failures));
    }
    r := Ok(stmts);
  }

  /** `parse(stream)` of a whole program, on a cursor of its own. */
  method ParseAstStream(s: Stream) returns (r: Result<seq<Stmt>>)
    ensures r == AstOf(s)
  {
    var input := new ParseStream(s);
    var stmts := Program(input);
    r := Conclude(input, stmts, ProgramAt(s, 0, [], [], []));
  }
}
