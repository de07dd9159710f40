/** The syntax tree of the Lox example (examples/lox.rs): expressions,
    statements and function declarations, and the desugaring of `for` into
    `while`. Operator and keyword tokens are represented by what they stand
    for; the spans the tree keeps are those of identifiers and of a call's
    parentheses. */
module LoxAst {
  import Tokens
  import opened Errors

  datatype BinaryOp = Mul | Div | Add | Sub | Equal | NotEqual | Greater | GreaterEqual | Less | LessEqual

  datatype LogicalOp = And | Or

  datatype UnaryOp = Neg | Not

  /** `Literal`: a keyword constant or a literal token's value. */
  datatype Literal =
    | FalseLit
    | FloatLit(f: Tokens.Float)
    | IntLit(i: Tokens.i64)
    | NilLit
    | StrLit(text: string)
    | TrueLit

  datatype Expr =
    | Assign(name: Tokens.Ident, value: Expr)
    | Binary(op: BinaryOp, left: Expr, right: Expr)
    | Call(callee: Expr, paren: Tokens.Span, arguments: seq<Expr>)
    | Get(obj: Expr, name: Tokens.Ident)
    | Lit(literal: Literal)
    | Logical(lop: LogicalOp, left: Expr, right: Expr)
    | Set(obj: Expr, name: Tokens.Ident, value: Expr)
    | Super(methodName: Tokens.Ident)
    | This
    | Unary(uop: UnaryOp, operand: Expr)
    | Variable(name: Tokens.Ident)

  datatype Function = Function(name: Tokens.Ident, params: seq<Tokens.Ident>, body: seq<Stmt>)

  datatype Stmt =
    | Block(stmts: seq<Stmt>)
    | Class(name: Tokens.Ident, superclass: Option<Tokens.Ident>, methods: seq<Function>)
    | ExprStmt(expr: Expr)
    | FunctionStmt(fun: Function)
    | If(condition: Expr, thenBranch: Stmt, elseBranch: Option<Stmt>)
    | Print(expr: Expr)
    | Return(value: Expr)
    | Var(name: Tokens.Ident, initialiser: Expr)
    | While(condition: Expr, body: Stmt)

  /** The loop `for (initialiser; condition; increment) body` stands for: the
      initialiser runs once before a `while` on the condition, whose body is
      the loop body followed by the increment. */
  function ForLoop(initialiser: Option<Stmt>, condition: Expr, increment: Option<Expr>, body: Stmt): (r: Stmt)
    ensures initialiser.None? ==> r.While? && r.condition == condition
    ensures initialiser.Some? ==> r.Block? && |r.stmts| == 2 && r.stmts[0] == initialiser.value
    ensures var loop := if initialiser.Some? then r.stmts[1] else r;
            loop.While? && loop.condition == condition &&
            loop.body == if increment.Some? then Block([body, ExprStmt(increment.value)]) else body
  {
    var step := if increment.Some? then Block([body, ExprStmt(increment.value)]) else body;
    var loop := While(condition, step);
    if initialiser.Some? then Block([initialiser.value, loop]) else loop
  }

  /** The statements a `for` loop runs, in the order it runs them on one pass
      through its body. */
  function OnePass(s: Stmt): seq<Stmt>
  {
    match s
    case Block(stmts) => stmts
    case _ => [s]
  }

  /** `for (;;) body` is `while (true) body`: with no clauses nothing is added
      around the body, and the missing condition is `true`. */
  lemma EmptyForIsWhileTrue(body: Stmt)
    ensures ForLoop(None, Lit(TrueLit), None, body) == While(Lit(TrueLit), body)
  {
  }

  /** The increment runs after the body on every pass, and the initialiser is
      not repeated inside the loop. */
  lemma IncrementFollowsBody(initialiser: Option<Stmt>, condition: Expr, increment: Expr, body: Stmt)
    ensures var r := ForLoop(initialiser, condition, Some(increment), body);
            var loop := if initialiser.Some? then r.stmts[1] else r;
            OnePass(loop.body) == [body, ExprStmt(increment)]
  {
  }
}
