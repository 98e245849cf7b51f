/** The evaluator (evaluator.py): integer and boolean literals, the prefix
    operators `!` and `-`, integer arithmetic and comparison, boolean
    equality, NULL for every node it has no rule for, and the value of a
    program's last statement.

    Evaluation can give Python's `None` (an unknown prefix operator), so
    values are `Option<Object>`. The source raises on `None.typ` (when `-`
    or an infix operator meets such a value) and on integer division by
    zero; `Evaluable` names the trees where neither happens. */
module Evaluator {
  import opened Wrappers
  import opened Ast
  import opened Objects

  const NULL: Object := Null
  const TRUE: Object := Boolean(true)
  const FALSE: Object := Boolean(false)

  /** `native_bool_to_boolean_object`. */
  function NativeBoolToBooleanObject(b: bool): (r: Object)
    ensures r == TRUE <==> b
    ensures r == FALSE <==> !b
  {
    if b then TRUE else FALSE
  }

  // ---------------------------------------------------------------------
  // Arithmetic

  /** Python's `//`: the quotient rounded towards minus infinity, whatever
      the signs. Dafny's `/` rounds so that the remainder is never
      negative, which differs when the divisor is negative. */
  function FloorDiv(a: int, b: int): (q: int)
    requires b != 0
    ensures b > 0 ==> b * q <= a < b * q + b
    ensures b < 0 ==> b * q + b < a <= b * q
  {
    if b < 0 && a % b != 0 then a / b - 1 else a / b
  }

  /** Truthiness as `!` sees it: NULL and FALSE are false, every other value
      (and Python's `None`) is true. */
  predicate Truthy(v: Option<Object>) {
    !(v == Some(NULL) || v == Some(FALSE))
  }

  // ---------------------------------------------------------------------
  // Prefix operators

  /** `eval_bang_operator_expression`: the Boolean negation of the operand's
      truthiness. */
  function EvalBang(right: Option<Object>): (r: Object)
    ensures r == NativeBoolToBooleanObject(!Truthy(right))
  {
    if right == Some(TRUE) then FALSE
    else if right == Some(FALSE) then TRUE
    else if right == Some(NULL) then TRUE
    else FALSE
  }

  /** `eval_minus_prefix_operator_expression`: an Integer's negation; NULL
      for any other value. */
  function EvalMinus(right: Object): (r: Object)
    ensures right.Integer? ==> r.Integer? && r.value + right.value == 0
    ensures !right.Integer? ==> r == NULL
  {
    if right.Typ() != IntegerObj then
      TypTagsDistinct(right, Integer(0));
      NULL
    else
      TypTagsDistinct(right, Integer(0));
      Integer(-right.value)
  }

  /** Where `-` does not raise: the operand is a value, not `None`. */
  predicate PrefixDefined(operator: string, right: Option<Object>) {
    operator == "-" ==> right.Some?
  }

  /** `eval_prefix_expression`: `!` and `-` by their helpers, and Python's
      `None` for any other operator. */
  function EvalPrefix(operator: string, right: Option<Object>): (r: Option<Object>)
    requires PrefixDefined(operator, right)
    ensures r.None? <==> operator != "!" && operator != "-"
    ensures operator == "!" ==> r == Some(NativeBoolToBooleanObject(!Truthy(right)))
    ensures operator == "-" && right.value.Integer? ==> r == Some(Integer(-right.value.value))
    ensures operator == "-" && !right.value.Integer? ==> r == Some(NULL)
  {
    if operator == "!" then Some(EvalBang(right))
    else if operator == "-" then Some(EvalMinus(right.value))
    else None
  }

  // ---------------------------------------------------------------------
  // Infix operators

  /** `eval_integer_infix_expression` on two Integers. */
  function EvalIntegerInfix(operator: string, left: Object, right: Object): (r: Object)
    requires left.Integer? && right.Integer?
    requires operator == "/" ==> right.value != 0
    ensures operator == "/" ==> r.Integer? && FloorDiv(left.value, right.value) == r.value
    ensures operator in {"+", "-", "*", "/"} ==> r.Integer?
    ensures operator in {"<", ">", "==", "!="} ==> r.Boolean?
    ensures operator !in {"+", "-", "*", "/", "<", ">", "==", "!="} ==> r == NULL
  {
    var a, b := left.value, right.value;
    if operator == "+" then Integer(a + b)
    else if operator == "-" then Integer(a - b)
    else if operator == "*" then Integer(a * b)
    else if operator == "/" then Integer(FloorDiv(a, b))
    else if operator == "<" then NativeBoolToBooleanObject(a < b)
    else if operator == ">" then NativeBoolToBooleanObject(a > b)
    else if operator == "!=" then NativeBoolToBooleanObject(a != b)
    else if operator == "==" then NativeBoolToBooleanObject(a == b)
    else NULL
  }

  /** Where an infix expression does not raise: the left operand is a value;
      the right one too whenever the source reads its type (after an Integer
      or a Boolean on the left); and an integer division has a nonzero
      divisor. */
  predicate InfixDefined(operator: string, left: Option<Object>, right: Option<Object>) {
    && left.Some?
    && ((left.value.Integer? || left.value.Boolean?) ==> right.Some?)
    && (left.value.Integer? && right.Some? && right.value.Integer? && operator == "/" ==> right.value.value != 0)
  }

  /** `eval_infix_expression`: integer operators on two Integers; `==` and
      `!=` on two Booleans by value; NULL for everything else. */
  function EvalInfix(operator: string, left: Option<Object>, right: Option<Object>): (r: Object)
    requires InfixDefined(operator, left, right)
    ensures right.None? || !((left.value.Integer? && right.value.Integer?) || (left.value.Boolean? && right.value.Boolean?)) ==> r == NULL
    ensures right.Some? && left.value.Integer? && right.value.Integer? ==>
              r == EvalIntegerInfix(operator, left.value, right.value)
    ensures right.Some? && left.value.Boolean? && right.value.Boolean? ==>
              r == if operator == "==" then NativeBoolToBooleanObject(left.value == right.value)
                   else if operator == "!=" then NativeBoolToBooleanObject(left.value != right.value)
                   else NULL
  {
    var l := left.value;
    TypTagsDistinct(l, Integer(0));
    TypTagsDistinct(l, Boolean(false));
    if l.Typ() == IntegerObj && right.value.Typ() == IntegerObj then
      TypTagsDistinct(right.value, Integer(0));
      EvalIntegerInfix(operator, l, right.value)
    else if l.Typ() == BooleanObj && right.value.Typ() == BooleanObj then
      TypTagsDistinct(right.value, Boolean(false));
      if operator == "==" then NativeBoolToBooleanObject(l == right.value)
      else if operator == "!=" then NativeBoolToBooleanObject(l != right.value)
      else NULL
    else
      NULL
  }

  // ---------------------------------------------------------------------
  // eval

  /** The expressions whose evaluation does not raise. */
  predicate Evaluable(e: Expression)
    decreases e, 0
  {
    match e
    case PrefixExpression(_, operator, right) =>
      Evaluable(right) && PrefixDefined(operator, EvalExpression(right))
    case InfixExpression(_, left, operator, right) =>
      && Evaluable(left) && Evaluable(right)
      && InfixDefined(operator, EvalExpression(left), EvalExpression(right))
    case _ => true
  }

  /** `eval` on an expression. Identifiers have no rule in this evaluator
      and give NULL. The result is always one of the three values the
      evaluator knows, or `None` from an unknown prefix operator at the
      root. */
  function EvalExpression(e: Expression): (r: Option<Object>)
    requires Evaluable(e)
    decreases e, 1
    ensures r.Some? ==> r.value.HasInspect()
    ensures e.IdentExpr? ==> r == Some(NULL)
    ensures e.IntegerLiteral? ==> r == Some(Integer(e.value))
    ensures e.BooleanLiteral? ==> r == Some(if e.boolValue then TRUE else FALSE)
    ensures r.None? <==> e.PrefixExpression? && e.operator != "!" && e.operator != "-"
  {
    match e
    case IdentExpr(_) => Some(NULL)
    case IntegerLiteral(_, value) => Some(Integer(value))
    case BooleanLiteral(_, value) => Some(NativeBoolToBooleanObject(value))
    case PrefixExpression(_, operator, right) =>
      EvalPrefix(operator, EvalExpression(right))
    case InfixExpression(_, left, operator, right) =>
      Some(EvalInfix(operator, EvalExpression(left), EvalExpression(right)))
  }

  predicate EvaluableStatement(s: Statement) {
    s.ExpressionStatement? && s.expression.Some? ==> Evaluable(s.expression.value)
  }

  /** `eval` on a statement: an expression statement is its expression
      (NULL when it has none, as `eval(None)` has no rule); let and return
      statements have no rule and give NULL. */
  function EvalStatement(s: Statement): (r: Option<Object>)
    requires EvaluableStatement(s)
    ensures !s.ExpressionStatement? ==> r == Some(NULL)
    ensures s.ExpressionStatement? && s.expression.None? ==> r == Some(NULL)
    ensures s.ExpressionStatement? && s.expression.Some? ==> r == EvalExpression(s.expression.value)
  {
    match s
    case ExpressionStatement(_, Some(e)) => EvalExpression(e)
    case _ => Some(NULL)
  }

  /** `eval_statements`, and `eval` on a Program: evaluate the statements in
      order and give the last one's value. The source reads an unbound
      variable on an empty list, so the list is non-empty. */
  method EvalStatements(statements: seq<Statement>) returns (result: Option<Object>)
    requires |statements| > 0
    requires forall s :: s in statements ==> EvaluableStatement(s)
    ensures result == EvalStatement(statements[|statements| - 1])
  {
    result := EvalStatement(statements[0]);
    var i := 1;
    while i < |statements|
      invariant 1 <= i <= |statements|
      invariant result == EvalStatement(statements[i - 1])
    {
      result := EvalStatement(statements[i]);
      i := i + 1;
    }
  }

  // ---------------------------------------------------------------------
  // Properties

  /** `!` always gives a Boolean, and `!!x` is TRUE exactly when `x` is
      truthy. */
  lemma DoubleBang(v: Option<Object>)
    ensures EvalBang(v).Boolean?
    ensures EvalBang(Some(EvalBang(v))) == TRUE <==> Truthy(v)
    ensures EvalBang(Some(EvalBang(v))) == FALSE <==> !Truthy(v)
  {
  }

  /** `!` on the three singletons, and on an Integer. */
  lemma BangTable(n: int)
    ensures EvalBang(Some(TRUE)) == FALSE && EvalBang(Some(FALSE)) == TRUE
    ensures EvalBang(Some(NULL)) == TRUE && EvalBang(Some(Integer(n))) == FALSE
    ensures EvalBang(None) == FALSE
  {
  }

  /** Negating twice gives the Integer back. */
  lemma MinusInvolution(n: int)
    ensures EvalMinus(EvalMinus(Integer(n))) == Integer(n)
  {
  }

  /** Integer `+ - *` are the mathematical operations, `/` is floor
      division, and `< > == !=` give the Boolean of the comparison. */
  lemma IntegerArithmetic(a: int, b: int)
    ensures EvalIntegerInfix("+", Integer(a), Integer(b)) == Integer(a + b)
    ensures EvalIntegerInfix("-", Integer(a), Integer(b)) == Integer(a - b)
    ensures EvalIntegerInfix("*", Integer(a), Integer(b)) == Integer(a * b)
    ensures EvalIntegerInfix("<", Integer(a), Integer(b)) == NativeBoolToBooleanObject(a < b)
    ensures EvalIntegerInfix(">", Integer(a), Integer(b)) == NativeBoolToBooleanObject(a > b)
    ensures EvalIntegerInfix("==", Integer(a), Integer(b)) == NativeBoolToBooleanObject(a == b)
    ensures EvalIntegerInfix("!=", Integer(a), Integer(b)) == NativeBoolToBooleanObject(a != b)
  {
  }

  /** An infix expression of two integer literals evaluates to the native
      result: `+ - *` and the comparisons as in mathematics, `/` as floor
      division when the divisor is nonzero, and NULL for any other
      operator. */
  lemma IntegerLiteralInfix(t: Tokens.Token, t1: Tokens.Token, a: int, operator: string, t2: Tokens.Token, b: int)
    requires operator == "/" ==> b != 0
    ensures var e := InfixExpression(t, IntegerLiteral(t1, a), operator, IntegerLiteral(t2, b));
            && Evaluable(e)
            && EvalExpression(e) == Some(
                 if operator == "+" then Integer(a + b)
                 else if operator == "-" then Integer(a - b)
                 else if operator == "*" then Integer(a * b)
                 else if operator == "/" then Integer(FloorDiv(a, b))
                 else if operator == "<" then NativeBoolToBooleanObject(a < b)
                 else if operator == ">" then NativeBoolToBooleanObject(a > b)
                 else if operator == "==" then NativeBoolToBooleanObject(a == b)
                 else if operator == "!=" then NativeBoolToBooleanObject(a != b)
                 else NULL)
  {
    IntegerArithmetic(a, b);
  }

  /** Prefix operators on literals: `-n` is the negated integer and `--n`
      the integer itself; `!` of a boolean literal is its negation and `!`
      of an integer literal is FALSE; `-` of a boolean literal is NULL. */
  lemma PrefixLiterals(t: Tokens.Token, t1: Tokens.Token, n: int, b: bool)
    ensures var e := PrefixExpression(t, "-", IntegerLiteral(t1, n));
            Evaluable(e) && EvalExpression(e) == Some(Integer(-n))
    ensures var e := PrefixExpression(t, "-", PrefixExpression(t, "-", IntegerLiteral(t1, n)));
            Evaluable(e) && EvalExpression(e) == Some(Integer(n))
    ensures var e := PrefixExpression(t, "!", BooleanLiteral(t1, b));
            Evaluable(e) && EvalExpression(e) == Some(NativeBoolToBooleanObject(!b))
    ensures var e := PrefixExpression(t, "!", IntegerLiteral(t1, n));
            Evaluable(e) && EvalExpression(e) == Some(FALSE)
    ensures var e := PrefixExpression(t, "-", BooleanLiteral(t1, b));
            Evaluable(e) && EvalExpression(e) == Some(NULL)
  {
  }

  /** `<` and `>` are each other's converse, and `==` and `!=` each other's
      negation, on Integers and on Booleans alike. */
  lemma ComparisonDuality(left: Object, right: Object)
    requires (left.Integer? && right.Integer?) || (left.Boolean? && right.Boolean?)
    ensures left.Integer? ==> EvalInfix("<", Some(left), Some(right)) == EvalInfix(">", Some(right), Some(left))
    ensures EvalInfix("==", Some(left), Some(right)) == EvalBang(Some(EvalInfix("!=", Some(left), Some(right))))
    ensures EvalInfix("==", Some(left), Some(right)) == EvalInfix("==", Some(right), Some(left))
  {
  }

  /** Floor division rounds towards minus infinity for either sign; Dafny's
      own division does not for a negative divisor. */
  lemma FloorDivExamples()
    ensures FloorDiv(7, 2) == 3 && FloorDiv(-7, 2) == -4
    ensures FloorDiv(7, -2) == -4 && 7 / -2 == -3
    ensures FloorDiv(-7, -2) == 3
  {
  }

  // ---------------------------------------------------------------------
  // The repository's evaluator tests that this snapshot handles

  function IntLit(n: int): Expression {
    IntegerLiteral(Tokens.Token(Tokens.Int, ""), n)
  }

  function BoolLit(b: bool): Expression {
    BooleanLiteral(Tokens.Token(if b then Tokens.True else Tokens.False, ""), b)
  }

  function Prefix(operator: string, right: Expression): Expression {
    PrefixExpression(Tokens.Token(Tokens.Illegal, operator), operator, right)
  }

  function Infix(left: Expression, operator: string, right: Expression): Expression {
    InfixExpression(Tokens.Token(Tokens.Illegal, operator), left, operator, right)
  }

  /** `5 + 2 * 10` is 25 and `(5+10*2+15/3)*2+-10` is 50. */
  lemma ArithmeticExamples()
    ensures var e := Infix(IntLit(5), "+", Infix(IntLit(2), "*", IntLit(10)));
            Evaluable(e) && EvalExpression(e) == Some(Integer(25))
    ensures var sum := Infix(Infix(IntLit(5), "+", Infix(IntLit(10), "*", IntLit(2))), "+", Infix(IntLit(15), "/", IntLit(3)));
            var e := Infix(Infix(sum, "*", IntLit(2)), "+", Prefix("-", IntLit(10)));
            Evaluable(e) && EvalExpression(e) == Some(Integer(50))
  {
  }

  /** `!!5` is true, `(1<2) == true` is true and `false == (2>1)` is false. */
  lemma BooleanExamples()
    ensures var e := Prefix("!", Prefix("!", IntLit(5)));
            Evaluable(e) && EvalExpression(e) == Some(TRUE)
    ensures var e := Infix(Infix(IntLit(1), "<", IntLit(2)), "==", BoolLit(true));
            Evaluable(e) && EvalExpression(e) == Some(TRUE)
    ensures var e := Infix(BoolLit(false), "==", Infix(IntLit(2), ">", IntLit(1)));
            Evaluable(e) && EvalExpression(e) == Some(FALSE)
  {
  }
}
