# Monkey interpreter, early snapshot — a verified Dafny model

This project models an early Python snapshot of an interpreter for the
Monkey language. It covers these pieces:

- the token vocabulary and lookup tables;
- the cursor-based lexer;
- the two-token-window parser, which at this stage keeps only `let` and
  `return` statements;
- the syntax-tree nodes and their rendering;
- the expression evaluator over Integer, Boolean and Null values;
- the `len` built-in and its registry;
- the error helpers `new_error` and `is_error`.

Modules, one per source file:

| Dafny file | module | source |
|---|---|---|
| `wrappers.dfy` | `Wrappers` | the `Option` type standing for Python's `None` and for loops that never end |
| `tokens.dfy` | `Tokens` | `tokens.py` |
| `lexer.dfy` | `Lexing` | `lexer.py` |
| `ast.dfy` | `Ast` | `monkey_ast.py` |
| `parser.dfy` | `Parsing` | `parser.py` |
| `objects.dfy` | `Objects` | `monkey_object.py` |
| `utils.dfy` | `EvaluatorUtils` | `evaluator_utils.py` |
| `builtins.dfy` | `Builtins` | `monkey_builtins.py` |
| `evaluator.dfy` | `Evaluator` | `evaluator.py` |

The lexer and the parser change state step by step, so each is a class
with the source's fields and loops. Each class method is proved against a
function over positions:

- `Lexing.Step(input, p)` is the token `next_token` returns with the cursor
  at `p`, and where it leaves the cursor.
- `Parsing.ParseFrom(ts, i)` is what `parse_program` collects from token
  index `i` of the token stream `ts`.

The source's properties are proved as lemmas about those functions. The
tokens, the tree, the objects, the built-ins and most of the evaluator are
pure code. They are datatypes and functions. `eval_statements` is a `for`
loop, so it is a method with a loop invariant.

Where the parts of the repository disagree, the model follows the code of
the core files:

- The evaluator refers to integer literals, boolean literals, prefix and
  infix expression nodes, but the tree module does not define them. They
  are `Ast.Expression` variants carrying their token, as every node of the
  tree module does, and the fields the evaluator reads.
  The source gives them no rendering, so the tree is rendered only when its
  expressions are identifiers.
- The lexer produces a `STRING` token kind that the token module does not
  declare. It is `Tokens.TokenType.Str`, and its name is "STRING".
- The helper modules use String and Error objects that the object module
  does not declare. They are `Objects.Object.String` and
  `Objects.Object.Error`, with type tags "STRING" and "ERROR".
- The parser as written skips from `let x =` or `return` to the next `;`
  without parsing an expression. The model does the same. It does not
  follow the fuller grammar with expressions and optional semicolons.
- The parser stores each error as a message string. `Parsing.PeekErrorMessage`
  builds that string from the two token kinds.

## Model

| member | source | states |
|---|---|---|
| `Tokens.NameRoundTrip` | tokens.py:13-45 | each token kind's string constant names that kind and no other |
| `Tokens.NamesDistinct` | tokens.py:13-45 | the token-kind constants are pairwise distinct |
| `Tokens.ChTableLiterals` | tokens.py:48-64 | each one-character entry's literal is its key; the end sentinel maps to `Token(EOF, "")` |
| `Tokens.Ch2TableShape` | tokens.py:66-69 | each two-character key has length two, starts with a `peeking` character, and is its own literal |
| `Tokens.PeekingFallsBack` | tokens.py:81-84 | each `peeking` character also has a one-character entry |
| `Tokens.KeywordTableShape` | tokens.py:71-79 | each keyword is its own literal and never has the IDENT kind |
| `Lexing.IdentEnd` | lexer.py:21-25 | where `read_identifier` stops: the end of the maximal run of letters and `_` |
| `Lexing.NumberEnd` | lexer.py:27-31 | where `read_number` stops: the end of the maximal run of digits |
| `Lexing.IsAlpha` | lexer.py:83-84 | `is_alpha` holds of no digit, whitespace, `#` or quote, so the branches of `next_token` do not overlap |
| `Lexing.IsCommentTag` | lexer.py:86-87 | `is_comment_tag` holds exactly of `#`, which is neither whitespace nor a digit |
| `Lexing.CommentEnd` | lexer.py:77-81 | where `read_comment` stops: the next line feed, or the end of the input |
| `Lexing.StringEnd` | lexer.py:69-75 | where `read_string` stops: the next `"`, with no `"` between; `None` when there is none |
| `Lexing.SkipEnd` | lexer.py:42-46 | the skip loop stops at a character that is neither whitespace nor `#`, and does not move when the cursor is already on such a character |
| `Lexing.SkipEndBlank` | lexer.py:42-46 | everything the skip loop passes over is whitespace or inside a `#` comment, and where it stops is neither |
| `Lexing.SkipEndUnique` | lexer.py:42-46 | that first non-blank position is unique: any position with only blank text before it and not itself blank is where the loop stops |
| `Lexing.Step` | lexer.py:40-67 | `next_token` always moves the cursor forward; it yields EOF exactly when the skip loop reaches the end of the input; it has no result exactly when the token is an unterminated string |
| `Lexing.EofExactlyWhenBlank` | lexer.py:40-67 | `next_token` yields EOF exactly when everything from the cursor on is whitespace and comments |
| `Lexing.StepAtTokenStart` | lexer.py:42-67 | a token whose first character is at the cursor is read from there |
| `Lexing.TokenAt` | lexer.py:48-66 | scanning a token from its first character always moves past that character; it yields EOF exactly at the end of the input; it has no result exactly for an unterminated string |
| `Lexing.UpcomingShape` | lexer.py:40-67 | the token stream up to the first EOF ends with `Token(EOF, "")` and has no EOF before it |
| `Lexing.EofToken` | lexer.py:65-66 | the EOF token is always `Token(EOF, "")` |
| `Lexing.EofForever` | lexer.py:13-19 | once the input is exhausted, every later call gives `Token(EOF, "")` and moves the cursor by one |
| `Lexing.StepUpcoming` | lexer.py:40-67 | the token returned is the head of the stream, and the rest of the stream follows from the new cursor |
| `Lexing.Positions` | lexer.py:40-67 | the cursors the lexer passes through while it yields the stream start at the first cursor and hold at least two entries |
| `Lexing.PositionsTrace` | lexer.py:40-67 | from the `k`-th of those cursors, `next_token` returns the stream's `k`-th token and leaves the cursor at the next one |
| `Lexing.SkipIsNeutral` | lexer.py:42-46 | whitespace and comments before a token do not change the token |
| `Lexing.SpaceIsNeutral` | lexer.py:42-46 | one whitespace character before a token does not change the token |
| `Lexing.CommentIsNeutral` | lexer.py:77-81 | a `#` comment to the end of its line does not change the next token |
| `Lexing.IdentifierToken` | lexer.py:48-50 | an identifier token is the maximal letter/`_` run; its kind is the keyword's kind or IDENT |
| `Lexing.NumberToken` | lexer.py:51-53 | an INT token's literal is the maximal run of digits |
| `Lexing.OperatorLookahead` | lexer.py:58-64 | `==` and `!=` are single tokens and advance by two; otherwise `=` and `!` are one-character tokens |
| `Lexing.PairedOperator` | lexer.py:58-64 | `=` or `!` followed by `=` gives `==` or `!=` and advances by two |
| `Lexing.SingleOperator` | lexer.py:58-66 | `=` or `!` with no `=` after it gives ASSIGN or BANG and advances by one |
| `Lexing.IllegalToken` | lexer.py:65-66 | a character in no table gives `Token(ILLEGAL, ch)` and advances by exactly one |
| `Lexing.StringToken` | lexer.py:54-56 | a STRING literal is the text between the quotes; the cursor ends just past the closing quote |
| `Lexing.KeywordLiterals` | lexer.py:48-50 | a LET token is spelled `let` and a RETURN token `return` |
| `Lexing.UpcomingKeywordLiterals` | lexer.py:48-50 | the same holds for every token of the stream |
| `Lexing.Lexer.constructor` | lexer.py:5-11 | a new lexer has its cursor at 0 and satisfies the cursor invariant |
| `Lexing.Lexer.ReadChar` | lexer.py:13-19 | `position` becomes the old `read_position`; `read_position == position + 1`; `ch` is `input[position]` or the end sentinel |
| `Lexing.Lexer.PeekChar` | lexer.py:33-37 | the character after the current one, or the end sentinel |
| `Lexing.Lexer.ReadIdentifier` | lexer.py:21-25 | the loop stops at `IdentEnd` and returns the text it passed over |
| `Lexing.Lexer.ReadNumber` | lexer.py:27-31 | the loop stops at `NumberEnd` and returns the text it passed over |
| `Lexing.Lexer.ReadString` | lexer.py:69-75 | the loop stops on the closing quote and returns the text between the quotes |
| `Lexing.Lexer.ReadComment` | lexer.py:77-81 | the loop stops at `CommentEnd` |
| `Lexing.Lexer.SkipBlank` | lexer.py:42-46 | the skip loop leaves the cursor at `SkipEnd` of the old cursor and keeps the cursor invariant |
| `Lexing.Lexer.ReadSymbol` | lexer.py:57-66 | on a character that starts no identifier, number or string, the token returned and the new cursor are those of `Step` at the old cursor |
| `Lexing.Lexer.NextToken` | lexer.py:40-67 | the token returned and the new cursor are those of `Step` at the old cursor |
| `Ast.StatementString` | monkey_ast.py:40-65 | a let or return statement renders starting with its token's literal and ending with `;`; an expression statement without an expression renders as `""` |
| `Ast.ProgramString` | monkey_ast.py:80-81 | an empty program renders as `""`, and a one-statement program as that statement |
| `Ast.ProgramTokenLiteral` | monkey_ast.py:73-78 | a program's literal is its first statement's literal, or empty for an empty program |
| `Ast.LetString` | monkey_ast.py:40-41 | a let statement renders as `<literal> <name> = <value>;`, and as `<literal> <name> = ;` without a value, where `<literal>` is its token's literal (`let` for every lexed let token, by `Lexing.KeywordLiterals`) |
| `Ast.ReturnString` | monkey_ast.py:52-53 | a return statement renders as `<literal> <value>;`, with nothing for an absent value |
| `Ast.ExpressionStatementString` | monkey_ast.py:64-65 | an expression statement renders as its expression, or as `""` when it has none |
| `Ast.StatementsStringAppend` | monkey_ast.py:80-81 | rendering a statement list distributes over list concatenation |
| `Ast.ProgramStringAppend` | monkey_ast.py:80-81 | rendering the union of two programs is the two renderings joined with no separator |
| `Ast.RenderingExample` | ast_test.py:4-22 | the rendering test's program renders as `let my_var = another_var;` |
| `Parsing.SemicolonFrom` | parser.py:48-49 | where the skip-to-`;` loop stops: the first `;` at or after the cursor; `None` when there is none |
| `Parsing.ParseStatementAt` | parser.py:30-35 | parsing one statement never moves the cursor backwards and stays inside the stream |
| `Parsing.OtherStatementAt` | parser.py:30-35 | a token other than LET or RETURN gives no statement and no error, and the cursor stays put |
| `Parsing.LetSuccess` | parser.py:37-51 | a complete `let` gives a statement with the `let` token, the IDENT's literal as its name and no value; the cursor ends on the first `;`; no error is recorded |
| `Parsing.LetFailure` | parser.py:40-46 | a `let` missing its identifier or its `=` gives no statement and exactly one error, for whichever was missing first |
| `Parsing.ReturnSuccess` | parser.py:53-61 | a `return` gives a statement with the `return` token and no value; the cursor ends on a `;` |
| `Parsing.ParsedStatements` | parser.py:21-28 | `parse_program` keeps only let and return statements, each made from a matching token of the stream, in source order |
| `Parsing.ParseFromUnfold` | parser.py:21-28 | one round of the program loop: a statement, then the rest from the token after it |
| `Parsing.ParseAtEof` | parser.py:22 | parsing stops at EOF: nothing is collected from an EOF |
| `Parsing.ParseLetCases` | parser.py:37-51 | `parse_let_statement` has three outcomes: the IDENT error, the ASSIGN error, or the statement with the cursor on the first `;` |
| `Parsing.ParseFromStep` | parser.py:21-28 | a statement parse followed by a program parse after its last token makes a program parse |
| `Parsing.ParseRound` | parser.py:23-27 | from a non-EOF token the program parse is the statement there followed by the program parse after it |
| `Parsing.LetThenRest` | parser.py:21-28 | a complete `let` followed by the rest of a program gives its statement followed by the rest, with no error |
| `Parsing.TracesFeed` | parser.py:17-19 | every lexer call made through the window returns the stream's next token, also after EOF |
| `Parsing.Parser.constructor` | parser.py:7-15 | after construction, `cur_token` and `peek_token` are the lexer's first and second tokens, and `errors` is empty |
| `Parsing.Parser.NextToken` | parser.py:17-19 | the new `cur_token` is the old `peek_token`, and the new `peek_token` is the lexer's next token; the window stays on the stream |
| `Parsing.Parser.CurTokenIs` | parser.py:63-64 | true exactly when the current stream token has the given kind |
| `Parsing.Parser.PeekTokenIs` | parser.py:66-67 | true exactly when the next stream token has the given kind |
| `Parsing.Parser.PeekError` | parser.py:77-79 | appends exactly one message naming the expected kind and the peek kind; the window does not change |
| `Parsing.Parser.ExpectPeek` | parser.py:69-75 | on a match, advances once, returns true and adds no error; otherwise returns false, leaves the window unchanged and appends one message |
| `Parsing.Parser.SkipToSemicolon` | parser.py:48-49 | the window ends on the first `;` and no error is added |
| `Parsing.Parser.ParseLetStatement` | parser.py:37-51 | agrees with `ParseLet`: the same statement, the same errors appended, the same final cursor |
| `Parsing.Parser.ParseReturnStatement` | parser.py:53-61 | agrees with `ParseReturn` |
| `Parsing.Parser.ParseStatement` | parser.py:30-35 | agrees with `ParseStatementAt`: LET and RETURN dispatch to their parsers, any other token gives nothing |
| `Parsing.Parser.ParseAndAdvance` | parser.py:24-27 | one round of the loop moves the cursor forward, collects the statement, if any, and leaves the rest of the program parse still to be collected |
| `Parsing.Parser.ParseProgram` | parser.py:21-28 | the statements and the appended errors are those of `ParseFrom`; the errors are only appended to; it ends on EOF |
| `Objects.Object.Typ` | monkey_object.py:24-48 | each variant's tag is its own constant, and a tag names exactly one variant |
| `Objects.Object.Inspect` | monkey_object.py:28-52 | Integer text is canonical decimal (no leading zero, no `-0`), reads back as its value and starts with `-` exactly when the value is negative; Boolean text is `true`/`false`; Null text is `null` |
| `Objects.TagsDiffer` | monkey_object.py:3-5 | the type-tag constants are pairwise distinct |
| `Objects.TypTagsDistinct` | monkey_object.py:3-5 | two objects have the same type tag exactly when they are the same variant |
| `Objects.NatToString` | monkey_object.py:28-30 | decimal text is made of digits, at least one, with no leading zero unless it is `0` |
| `Objects.IntToString` | monkey_object.py:28-30 | `str` of an integer is canonical decimal text, with `-` exactly for a negative value |
| `Objects.CanonicalNatText` | monkey_object.py:28-30 | canonical digits are the decimal text of their own value |
| `Objects.CanonicalIntText` | monkey_object.py:28-30 | every canonical text is `str` of the integer it reads as, so `str` is the only canonical text of each integer |
| `Objects.NatRoundTrip` | monkey_object.py:28-30 | reading a natural number's decimal text gives the number back |
| `Objects.IntRoundTrip` | monkey_object.py:28-30 | parsing `str(value)` of an integer gives the integer back |
| `Objects.IntToStringInjective` | monkey_object.py:28-30 | distinct integers have distinct decimal texts |
| `EvaluatorUtils.Format` | evaluator_utils.py:4-5 | a format with no fields is its own text |
| `EvaluatorUtils.FormatExtraArguments` | evaluator_utils.py:4-5 | arguments beyond the fields do not change the text |
| `EvaluatorUtils.FormatLiteral` | evaluator_utils.py:4-5 | text without braces formats to itself |
| `EvaluatorUtils.FormatField` | evaluator_utils.py:4-5 | the first `{}` takes the first argument, and the rest of the format continues with the remaining arguments |
| `EvaluatorUtils.FormatOne` | evaluator_utils.py:4-5 | a one-field format with one argument is the text before, the argument, then the text after |
| `EvaluatorUtils.IsError` | evaluator_utils.py:7-10 | true exactly for a present value of the Error variant; `None` is not an error |
| `EvaluatorUtils.NewError` | evaluator_utils.py:4-5 | always an Error that `is_error` recognises, whose message is the formatted text |
| `EvaluatorUtils.ValuesAreNotErrors` | evaluator_utils.py:7-10 | Integer, Boolean and Null values are never errors |
| `Builtins.ArityMessage` | monkey_builtins.py:8-9 | the arity format filled in is `wrong number of arguments. got <n>, want 1` |
| `Builtins.TypeMessage` | monkey_builtins.py:12-13 | the type format filled in is `argument to 'len' not supported, got <TYPE>` |
| `Builtins.LenBuiltin` | monkey_builtins.py:7-13 | the arity check comes first; one String argument gives its length; any other single argument gives the type error; the result is always an Error or a non-negative Integer |
| `Builtins.RegistryContents` | monkey_builtins.py:16-20 | the registry holds exactly `len`, and calling that entry is `len_builtin` |
| `Builtins.LenExamples` | evaluator_test.py:242-244 | `len` of `""`, `"four"` and `"hello world"` is 0, 4 and 11 |
| `Builtins.LenTypeExample` | evaluator_test.py:245 | `len(1)` is the type error `got INTEGER` |
| `Builtins.LenArityExample` | evaluator_test.py:246 | `len("one", "two")` is the arity error `got 2, want 1` |
| `Evaluator.NativeBoolToBooleanObject` | evaluator.py:31-32 | the result is TRUE exactly when the argument is true, and FALSE exactly when it is false |
| `Evaluator.FloorDiv` | evaluator.py:78-79 | Python's `//`: the quotient rounded towards minus infinity, for either sign of the divisor |
| `Evaluator.EvalBang` | evaluator.py:42-50 | `!` gives the Boolean negation of the operand's truthiness, where only NULL and FALSE are falsy |
| `Evaluator.EvalMinus` | evaluator.py:52-56 | `-` gives an Integer's additive inverse, and NULL for any other value |
| `Evaluator.EvalPrefix` | evaluator.py:34-40 | `!` gives the Boolean of the operand's falsiness; `-` gives an Integer's negation and NULL for any other value; the result is `None` exactly for an operator other than `!` and `-` |
| `Evaluator.EvalIntegerInfix` | evaluator.py:71-89 | `/` is floor division; `+ - * /` give Integers, `< > == !=` give Booleans, and any other operator gives NULL |
| `Evaluator.EvalInfix` | evaluator.py:58-69 | two Integers go to the integer operators; two Booleans compare by value under `==` and `!=` and give NULL under other operators; every mix other than two Integers or two Booleans gives NULL |
| `Evaluator.EvalExpression` | evaluator.py:11-21 | results are always Integer, Boolean or Null; literals give their value; identifiers, which have no handler, give NULL; `None` comes exactly from an unknown prefix operator at the root |
| `Evaluator.EvalStatement` | evaluator.py:11-21 | an expression statement with an expression gives that expression's value; let and return statements, and expression statements with no expression, give NULL |
| `Evaluator.EvalStatements` | evaluator.py:23-29 | evaluating a non-empty statement list gives the value of its last statement |
| `Evaluator.DoubleBang` | evaluator.py:42-50 | `!` always gives a Boolean, and `!!x` is TRUE exactly when `x` is truthy |
| `Evaluator.BangTable` | evaluator.py:42-50 | `!TRUE` is FALSE, `!FALSE` and `!NULL` are TRUE, and `!` of an Integer or of `None` is FALSE |
| `Evaluator.MinusInvolution` | evaluator.py:52-56 | negating an Integer twice gives it back |
| `Evaluator.IntegerArithmetic` | evaluator.py:71-89 | Integer `+ - *` are the mathematical operations, and `< > == !=` give the Boolean of the comparison |
| `Evaluator.IntegerLiteralInfix` | evaluator.py:58-89 | an infix expression of two integer literals evaluates to the native result: `+ - *` and comparisons as in mathematics, `/` as floor division, NULL for other operators |
| `Evaluator.PrefixLiterals` | evaluator.py:34-56 | `-n` is the negation and `--n` is `n`; `!` negates a boolean literal and gives FALSE on an integer literal; `-` on a boolean literal is NULL |
| `Evaluator.ComparisonDuality` | evaluator.py:58-89 | `a < b` equals `b > a`; `==` is `!` of `!=`; `==` is symmetric on Integers and on Booleans |
| `Evaluator.FloorDivExamples` | evaluator.py:78-79 | `7//2` is 3, `-7//2` is -4, `7//-2` is -4, which differs from Dafny's -3, and `-7//-2` is 3 |
| `Evaluator.ArithmeticExamples` | evaluator_test.py:15-18 | `5 + 2 * 10` is 25 and `(5+10*2+15/3)*2+-10` is 50 |
| `Evaluator.BooleanExamples` | evaluator_test.py:62-81 | `!!5` is true, `(1<2) == true` is true and `false == (2>1)` is false |

## Left out

- The REPL and the command-line driver (`repl.py`, `monkey.py`): console and file I/O only.
- Behaviour that only the repository's tests exercise is left out, because this snapshot does not implement it. This covers environments, closures, assignment, loops, conditionals, arrays, hashes, string operators, the evaluator's runtime error messages, the other built-ins and the `[ ] : for in` tokens.
- Expression parsing: parser.py parses no expressions. It skips from `let x =` and `return` to the next `;`, and that is what the model does.
- Python exceptions are excluded by preconditions, not modelled:
  - `None.typ` when `-` or an infix operator receives `None`, and integer division by zero, are excluded by `Evaluator.Evaluable`.
  - The unbound `result` of `eval_statements` on an empty list is excluded by `|statements| > 0`.
  - Too few arguments to `str.format` are excluded by `Fields(fmt) <= |args|`.
- Non-termination is excluded by preconditions:
  - `read_string` never returns on an unterminated string.
  - The skip-to-`;` loops of the parser never return when no `;` is left, because the lexer yields EOF forever.
  - The lexer and parser methods therefore require `Step`, `Upcoming` or `ParseFrom` to be defined. Those functions return `None` exactly in these cases.
- `Parsing.Parser.constructor`: the parser model requires the lexer's whole stream to be lexable, with no unterminated string. `parse_program` reads the stream to EOF in any case.
- Unicode: `isalpha`, `isdigit` and `isspace` are restricted to ASCII. Python's ASCII whitespace includes the separators 0x1c to 0x1f.
- Object identity of the TRUE, FALSE and NULL singletons is modelled as value equality. For Integer and Boolean this is the same as dataclass equality, so no separate lemma states it.
- `Objects.Object.Inspect`: it is defined only for Integer, Boolean and Null. monkey_object.py defines no String or Error class, so it gives them no `inspect`.
- `EvaluatorUtils.NewError` and `EvaluatorUtils.Format`: only format strings whose replacement fields are all `{}` are modelled. Numbered or named fields and `{{`/`}}` escapes are left out. Arguments are passed already converted by `str`.
- `Builtins.LenBuiltin`: Python's `len` of a string counts code points. The model counts the characters of the Dafny string.
- The registry's `Builtin` objects are values of their own type, `Builtins.Builtin`, and not a variant of `Objects.Object`. evaluator.py never looks them up.
- `Ast.ProgramStringAppend` and the other rendering lemmas cover only trees whose expressions are identifiers. The source defines no `__str__` for the other expression nodes.
- The `print` output of the parser tests is not modelled.
