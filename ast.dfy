/** The syntax tree (monkey_ast.py): immutable nodes with their
    `token_literal` and their `__str__` rendering.

    The statement classes and `Identifier` are those of the source. The
    evaluator also dispatches on integer literals, boolean literals, prefix
    and infix expressions, which monkey_ast.py does not declare;
    they appear here as further `Expression` variants carrying their token
    (as every node of the tree module does) and the fields the evaluator
    reads. The source gives no rendering for them, so
    rendering is defined for trees whose expressions are identifiers
    (`Renderable`). */
module Ast {
  import opened Wrappers
  import opened Tokens

  datatype Identifier = Identifier(token: Token, value: string)

  datatype Expression =
    | IdentExpr(identifier: Identifier)
    | IntegerLiteral(token: Token, value: int)
    | BooleanLiteral(token: Token, boolValue: bool)
    | PrefixExpression(token: Token, operator: string, right: Expression)
    | InfixExpression(token: Token, left: Expression, operator: string, right: Expression)

  /** A `LetStatement`'s name and value, a `ReturnStatement`'s value and an
      `ExpressionStatement`'s expression default to `None` in the source. */
  datatype Statement =
    | LetStatement(token: Token, name: Option<Identifier>, value: Option<Expression>)
    | ReturnStatement(token: Token, returnValue: Option<Expression>)
    | ExpressionStatement(token: Token, expression: Option<Expression>)

  datatype Program = Program(statements: seq<Statement>)

  // ---------------------------------------------------------------------
  // token_literal

  function StatementTokenLiteral(s: Statement): string {
    s.token.literal
  }

  /** A program's `token_literal` is its first statement's, or empty for an
      empty program. */
  function ProgramTokenLiteral(p: Program): (r: string)
    ensures |p.statements| > 0 ==> r == p.statements[0].token.literal
    ensures |p.statements| == 0 ==> r == ""
  {
    if |p.statements| > 0 then StatementTokenLiteral(p.statements[0]) else ""
  }

  // ---------------------------------------------------------------------
  // __str__

  /** The expressions the source knows how to render: identifiers, or none. */
  predicate RenderableExpression(e: Option<Expression>) {
    e.None? || e.value.IdentExpr?
  }

  predicate RenderableStatement(s: Statement) {
    match s
    case LetStatement(_, _, value) => RenderableExpression(value)
    case ReturnStatement(_, value) => RenderableExpression(value)
    case ExpressionStatement(_, expression) => RenderableExpression(expression)
  }

  predicate Renderable(p: Program) {
    forall s :: s in p.statements ==> RenderableStatement(s)
  }

  /** An Identifier renders as its value. */
  function IdentifierString(id: Identifier): string {
    id.value
  }

  /** `str(x) if x is not None else ''` for a renderable expression. */
  function OptionalExpressionString(e: Option<Expression>): string
    requires RenderableExpression(e)
  {
    match e
    case None => ""
    case Some(x) => IdentifierString(x.identifier)
  }

  /** `str(self.name)`: an absent name prints as Python's `None`. */
  function NameString(name: Option<Identifier>): string {
    match name
    case None => "None"
    case Some(id) => IdentifierString(id)
  }

  /** `__str__` of the three statement classes: a let or return statement
      starts with its token's literal and ends with `;`; an expression
      statement has no `;`. */
  function StatementString(s: Statement): (r: string)
    requires RenderableStatement(s)
    ensures !s.ExpressionStatement? ==> |r| > |s.token.literal| && r[..|s.token.literal|] == s.token.literal && r[|r| - 1] == ';'
    ensures s.ExpressionStatement? && s.expression.None? ==> r == ""
  {
    match s
    case LetStatement(token, name, value) =>
      token.literal + " " + NameString(name) + " = " + OptionalExpressionString(value) + ";"
    case ReturnStatement(token, value) =>
      token.literal + " " + OptionalExpressionString(value) + ";"
    case ExpressionStatement(_, expression) =>
      OptionalExpressionString(expression)
  }

  /** A program renders as its statements' renderings, one after the other
      with no separator. */
  function StatementsString(ss: seq<Statement>): string
    requires forall s :: s in ss ==> RenderableStatement(s)
  {
    if ss == [] then "" else StatementString(ss[0]) + StatementsString(ss[1..])
  }

  /** `Program.__str__`: an empty program renders as nothing, and a
      program of one statement as that statement. */
  function ProgramString(p: Program): (r: string)
    requires Renderable(p)
    ensures p.statements == [] ==> r == ""
    ensures |p.statements| == 1 ==> r == StatementString(p.statements[0])
  {
    assert |p.statements| == 1 ==> p.statements[1..] == [] && StatementsString(p.statements[1..]) == "";
    StatementsString(p.statements)
  }

  // ---------------------------------------------------------------------
  // Properties of the rendering

  /** A LetStatement renders as `<let literal> <name> = <value>;`, and a let
      statement without a value as `<let literal> <name> = ;`. */
  lemma LetString(token: Token, name: Identifier, value: Option<Identifier>)
    ensures var s := LetStatement(token, Some(name), if value.Some? then Some(IdentExpr(value.value)) else None);
            RenderableStatement(s) &&
            StatementString(s) == token.literal + " " + name.value + " = " +
              (if value.Some? then value.value.value else "") + ";"
  {
  }

  /** A ReturnStatement renders as `<literal> <value>;`, with nothing for an
      absent value. */
  lemma ReturnString(token: Token, value: Option<Identifier>)
    ensures var s := ReturnStatement(token, if value.Some? then Some(IdentExpr(value.value)) else None);
            RenderableStatement(s) &&
            StatementString(s) == token.literal + " " + (if value.Some? then value.value.value else "") + ";"
  {
  }

  /** An ExpressionStatement renders as its expression, or as nothing. */
  lemma ExpressionStatementString(token: Token, expression: Option<Identifier>)
    ensures var s := ExpressionStatement(token, if expression.Some? then Some(IdentExpr(expression.value)) else None);
            RenderableStatement(s) &&
            StatementString(s) == (if expression.Some? then expression.value.value else "")
  {
  }

  /** Rendering distributes over appending statement lists. */
  lemma {:induction false} StatementsStringAppend(a: seq<Statement>, b: seq<Statement>)
    requires forall s :: s in a ==> RenderableStatement(s)
    requires forall s :: s in b ==> RenderableStatement(s)
    ensures forall s :: s in a + b ==> RenderableStatement(s)
    ensures StatementsString(a + b) == StatementsString(a) + StatementsString(b)
  {
    if a == [] {
      assert a + b == b;
    } else {
      assert (a + b)[1..] == a[1..] + b;
      StatementsStringAppend(a[1..], b);
    }
  }

  /** Rendering a program of several statements is rendering each and
      joining the pieces. */
  lemma ProgramStringAppend(a: Program, b: Program)
    requires Renderable(a) && Renderable(b)
    ensures Renderable(Program(a.statements + b.statements))
    ensures ProgramString(Program(a.statements + b.statements)) == ProgramString(a) + ProgramString(b)
  {
    StatementsStringAppend(a.statements, b.statements);
  }

  /** The program of the repository's rendering test. */
  lemma RenderingExample()
    ensures var p := Program([LetStatement(
                        Token(Let, "let"),
                        Some(Identifier(Token(Ident, "my_var"), "my_var")),
                        Some(IdentExpr(Identifier(Token(Ident, "another_var"), "another_var"))))]);
            Renderable(p) && ProgramString(p) == "let my_var = another_var;"
  {
    var name, value := Identifier(Token(Ident, "my_var"), "my_var"), Identifier(Token(Ident, "another_var"), "another_var");
    var s := LetStatement(Token(Let, "let"), Some(name), Some(IdentExpr(value)));
    LetString(Token(Let, "let"), name, Some(value));
    assert [s][1..] == [];
    assert StatementsString([s]) == StatementString(s);
    RenderedText();
  }

  lemma RenderedText()
    ensures "let" + " " + "my_var" + " = " + "another_var" + ";" == "let my_var = another_var;"
  {
  }
}
