/** The parser (parser.py): a window of two tokens over the lexer, an
    append-only list of errors, and statement parsing for `let` and
    `return`.

    The functions before the class describe parsing over the token stream
    as a sequence `ts`, read through `At` so that past its end the stream is
    EOF (the lexer returns EOF forever). Index `i` is the position of the
    current token. A result of None means the source never returns: its
    skip-to-`;` loops spin forever on EOF when no `;` is left. */
module Parsing {
  import opened Wrappers
  import opened Tokens
  import opened Lexing
  import opened Ast

  /** The `i`-th token of the stream. */
  function At(ts: seq<Token>, i: nat): Token {
    if i < |ts| then ts[i] else Token(Eof, "")
  }

  /** The message `peek_error` records: the kind that was expected next and
      the kind of the peek token instead, by their string constants. */
  function PeekErrorMessage(expected: TokenType, got: TokenType): string {
    "expected next token to be " + expected.Name() + ", got " + got.Name() + " instead"
  }

  /** Where the loop `while not cur_token_is(SEMICOLON)` stops: the first
      `;` at or after `i`; None when there is none. */
  function SemicolonFrom(ts: seq<Token>, i: nat): (r: Option<nat>)
    decreases |ts| - i
    ensures r.Some? ==> i <= r.value < |ts| && ts[r.value].typ == Semicolon
    ensures r.Some? ==> forall k :: i <= k < r.value ==> ts[k].typ != Semicolon
    ensures r.None? ==> forall k :: i <= k < |ts| ==> ts[k].typ != Semicolon
  {
    if i >= |ts| then None
    else if ts[i].typ == Semicolon then Some(i)
    else SemicolonFrom(ts, i + 1)
  }

  /** What parsing one statement gives: the statement (None when the parse
      function returns None), the errors it records, and the index of the
      current token afterwards. */
  datatype Parsed = Parsed(statement: Option<Statement>, errors: seq<string>, next: nat)

  /** `parse_let_statement` with the current token at `i`. */
  function ParseLet(ts: seq<Token>, i: nat): Option<Parsed> {
    if At(ts, i + 1).typ != Ident then
      Some(Parsed(None, [PeekErrorMessage(Ident, At(ts, i + 1).typ)], i))
    else if At(ts, i + 2).typ != Assign then
      Some(Parsed(None, [PeekErrorMessage(Assign, At(ts, i + 2).typ)], i + 1))
    else
      match SemicolonFrom(ts, i + 2)
      case None => None
      case Some(k) =>
        var name := Identifier(At(ts, i + 1), At(ts, i + 1).literal);
        Some(Parsed(Some(LetStatement(At(ts, i), Some(name), None)), [], k))
  }

  /** `parse_return_statement` with the current token at `i`. */
  function ParseReturn(ts: seq<Token>, i: nat): Option<Parsed> {
    match SemicolonFrom(ts, i + 1)
    case None => None
    case Some(k) => Some(Parsed(Some(ReturnStatement(At(ts, i), None)), [], k))
  }

  /** `parse_statement`: dispatch on the current token's kind; other kinds
      give no statement and consume nothing. */
  function ParseStatementAt(ts: seq<Token>, i: nat): (r: Option<Parsed>)
    ensures r.Some? ==> i <= r.value.next
    ensures r.Some? && At(ts, i).typ != Eof ==> r.value.next < |ts|
  {
    match At(ts, i).typ
    case Let => ParseLet(ts, i)
    case Return => ParseReturn(ts, i)
    case _ => Some(Parsed(None, [], i))
  }

  /** A token that starts neither a let nor a return statement gives no
      statement and no error, and the cursor stays on it. */
  lemma OtherStatementAt(ts: seq<Token>, i: nat)
    requires At(ts, i).typ != Let && At(ts, i).typ != Return
    ensures ParseStatementAt(ts, i) == Some(Parsed(None, [], i))
  {
  }

  /** The statements and errors `parse_program` produces. */
  datatype ProgramParse = ProgramParse(statements: seq<Statement>, errors: seq<string>)

  function OptionToSeq<T>(o: Option<T>): seq<T> {
    if o.Some? then [o.value] else []
  }

  /** `parse_program` with the current token at `i`: parse a statement,
      keep it if there is one, step past it, until the current token is
      EOF. */
  function ParseFrom(ts: seq<Token>, i: nat): Option<ProgramParse>
    decreases |ts| - i
  {
    if At(ts, i).typ == Eof then Some(ProgramParse([], []))
    else
      match ParseStatementAt(ts, i)
      case None => None
      case Some(Parsed(s, e, j)) =>
        match ParseFrom(ts, j + 1)
        case None => None
        case Some(rest) => Some(ProgramParse(OptionToSeq(s) + rest.statements, e + rest.errors))
  }

  // ---------------------------------------------------------------------
  // Properties of statement and program parsing

  /** A successful `let`: the statement keeps the `let` token, its name is an
      Identifier of the IDENT token with that token's literal as value, its
      value is left unset, no error is recorded, and the current token
      afterwards is the first `;` after the `=`. */
  lemma LetSuccess(ts: seq<Token>, i: nat)
    requires At(ts, i).typ == Let && At(ts, i + 1).typ == Ident && At(ts, i + 2).typ == Assign
    requires SemicolonFrom(ts, i + 2).Some?
    ensures var k := SemicolonFrom(ts, i + 2).value;
            && ParseStatementAt(ts, i) ==
                 Some(Parsed(Some(LetStatement(At(ts, i), Some(Identifier(At(ts, i + 1), At(ts, i + 1).literal)), None)), [], k))
            && At(ts, k).typ == Semicolon
            && forall m :: i + 2 <= m < k ==> At(ts, m).typ != Semicolon
  {
  }

  /** A `let` without its identifier, or without its `=`, gives no
      statement and exactly one error naming what was expected and what came
      instead. */
  lemma LetFailure(ts: seq<Token>, i: nat)
    requires At(ts, i).typ == Let
    requires At(ts, i + 1).typ != Ident || At(ts, i + 2).typ != Assign
    ensures ParseStatementAt(ts, i).Some?
    ensures var p := ParseStatementAt(ts, i).value;
            && p.statement.None?
            && |p.errors| == 1
            && p.errors[0] == if At(ts, i + 1).typ != Ident then PeekErrorMessage(Ident, At(ts, i + 1).typ)
                              else PeekErrorMessage(Assign, At(ts, i + 2).typ)
  {
  }

  /** A `return` statement keeps the `return` token and no value, and the
      current token afterwards is the first `;` after it. */
  lemma ReturnSuccess(ts: seq<Token>, i: nat)
    requires At(ts, i).typ == Return && SemicolonFrom(ts, i + 1).Some?
    ensures var k := SemicolonFrom(ts, i + 1).value;
            && ParseStatementAt(ts, i) == Some(Parsed(Some(ReturnStatement(At(ts, i), None)), [], k))
            && At(ts, k).typ == Semicolon
  {
  }

  /** `s` appears in `ts` at or after `i`, in order. */
  ghost predicate TokensInOrder(ss: seq<Statement>, ts: seq<Token>, i: nat)
    decreases |ss|
  {
    ss == [] ||
    exists j :: i <= j < |ts| && ts[j] == ss[0].token && TokensInOrder(ss[1..], ts, j + 1)
  }

  lemma {:induction false} TokensInOrderWeaken(ss: seq<Statement>, ts: seq<Token>, i: nat, i': nat)
    requires i' <= i && TokensInOrder(ss, ts, i)
    ensures TokensInOrder(ss, ts, i')
    decreases |ss|
  {
    if ss != [] {
      var j :| i <= j < |ts| && ts[j] == ss[0].token && TokensInOrder(ss[1..], ts, j + 1);
      assert i' <= j;
    }
  }

  /** `parse_program` keeps only let and return statements, each made from a
      LET or RETURN token of the stream, in source order. */
  lemma {:induction false} ParsedStatements(ts: seq<Token>, i: nat)
    requires ParseFrom(ts, i).Some?
    ensures var r := ParseFrom(ts, i).value;
            && (forall s :: s in r.statements ==> SimpleStatement(s))
            && TokensInOrder(r.statements, ts, i)
    decreases |ts| - i
  {
    if At(ts, i).typ != Eof {
      ParseFromUnfold(ts, i);
      var p := ParseStatementAt(ts, i).value;
      var rest := ParseFrom(ts, p.next + 1).value;
      ParsedStatements(ts, p.next + 1);
      if p.statement.Some? {
        StatementAtShape(ts, i);
        PrependInOrder(p.statement.value, rest.statements, ts, i, p.next + 1);
        assert OptionToSeq(p.statement) == [p.statement.value];
      } else {
        TokensInOrderWeaken(rest.statements, ts, p.next + 1, i);
        assert OptionToSeq(p.statement) + rest.statements == rest.statements;
      }
    }
  }

  /** The statements `parse_program` keeps: a let statement with a name and
      no value, or a return statement with no value, each made from the
      token of its own kind. */
  predicate SimpleStatement(s: Statement) {
    (s.LetStatement? && s.token.typ == Let && s.name.Some? && s.value.None?) ||
    (s.ReturnStatement? && s.token.typ == Return && s.returnValue.None?)
  }

  /** A statement parsed at `i` is simple and made from the token at `i`. */
  lemma StatementAtShape(ts: seq<Token>, i: nat)
    requires ParseStatementAt(ts, i).Some? && ParseStatementAt(ts, i).value.statement.Some?
    ensures i < |ts|
    ensures var s := ParseStatementAt(ts, i).value.statement.value;
            SimpleStatement(s) && s.token == ts[i]
  {
  }

  /** A statement made from the token at `i`, before statements made from
      tokens at or after `j > i`, keeps the order. */
  lemma PrependInOrder(s: Statement, ss: seq<Statement>, ts: seq<Token>, i: nat, j: nat)
    requires i < j && i < |ts| && ts[i] == s.token && TokensInOrder(ss, ts, j)
    ensures TokensInOrder([s] + ss, ts, i)
  {
    TokensInOrderWeaken(ss, ts, j, i + 1);
    assert ([s] + ss)[1..] == ss;
  }

  /** One round of `parse_program`'s loop: the program parse from a non-EOF
      token is the statement there followed by the program parse after it. */
  lemma ParseFromUnfold(ts: seq<Token>, i: nat)
    requires At(ts, i).typ != Eof && ParseFrom(ts, i).Some?
    ensures ParseStatementAt(ts, i).Some?
    ensures var p := ParseStatementAt(ts, i).value;
            && ParseFrom(ts, p.next + 1).Some?
            && ParseFrom(ts, i).value ==
                 ProgramParse(OptionToSeq(p.statement) + ParseFrom(ts, p.next + 1).value.statements,
                              p.errors + ParseFrom(ts, p.next + 1).value.errors)
  {
  }

  /** A statement parse at `i` followed by a program parse after it makes
      a program parse at `i`. */
  lemma ParseFromStep(ts: seq<Token>, i: nat, s: Option<Statement>, e: seq<string>, j: nat, rest: ProgramParse)
    requires At(ts, i).typ != Eof && ParseStatementAt(ts, i) == Some(Parsed(s, e, j))
    requires ParseFrom(ts, j + 1) == Some(rest)
    ensures ParseFrom(ts, i) == Some(ProgramParse(OptionToSeq(s) + rest.statements, e + rest.errors))
  {
  }

  /** One round of `parse_program`'s loop, naming the statement parse at
      `i` and the program parse after it. */
  lemma ParseRound(ts: seq<Token>, i: nat, left: ProgramParse) returns (p: Parsed, rest: ProgramParse)
    requires At(ts, i).typ != Eof && ParseFrom(ts, i) == Some(left)
    ensures ParseStatementAt(ts, i) == Some(p) && i <= p.next < |ts|
    ensures ParseFrom(ts, p.next + 1) == Some(rest)
    ensures left == ProgramParse(OptionToSeq(p.statement) + rest.statements, p.errors + rest.errors)
  {
    ParseFromUnfold(ts, i);
    p := ParseStatementAt(ts, i).value;
    rest := ParseFrom(ts, p.next + 1).value;
  }

  lemma AppendAssociates<T>(a: seq<T>, b: seq<T>, c: seq<T>)
    ensures (a + b) + c == a + (b + c)
  {
  }

  /** Bookkeeping for one round of `parse_program`: moving one statement's
      result from the part still to parse to the part already collected
      leaves the whole unchanged. */
  lemma AccumulateStep(before: seq<Statement>, s: Option<Statement>, rest: seq<Statement>, after: seq<Statement>)
    requires s.Some? ==> after == before + [s.value]
    requires s.None? ==> after == before
    ensures before + (OptionToSeq(s) + rest) == after + rest
  {
    AppendAssociates(before, OptionToSeq(s), rest);
    assert s.None? ==> before + [] == before;
  }

  /** `parse_program` stops at the first EOF it reaches as current token:
      from an EOF it produces nothing. */
  lemma ParseAtEof(ts: seq<Token>, i: nat)
    requires At(ts, i).typ == Eof
    ensures ParseFrom(ts, i) == Some(ProgramParse([], []))
  {
  }

  /** The three outcomes of `parse_let_statement`, one per guard. */
  lemma ParseLetCases(ts: seq<Token>, i: nat)
    requires ParseLet(ts, i).Some?
    ensures var r := ParseLet(ts, i).value;
            && (At(ts, i + 1).typ != Ident ==> r == Parsed(None, [PeekErrorMessage(Ident, At(ts, i + 1).typ)], i))
            && (At(ts, i + 1).typ == Ident && At(ts, i + 2).typ != Assign ==>
                  r == Parsed(None, [PeekErrorMessage(Assign, At(ts, i + 2).typ)], i + 1))
            && (At(ts, i + 1).typ == Ident && At(ts, i + 2).typ == Assign ==>
                  && SemicolonFrom(ts, i + 2).Some?
                  && r == Parsed(Some(LetStatement(At(ts, i), Some(Identifier(At(ts, i + 1), At(ts, i + 1).literal)), None)),
                                 [], SemicolonFrom(ts, i + 2).value))
  {
  }

  /** A stream of well-formed let statements `let <x> = ... ;` parses to one
      LetStatement per statement, named after its IDENT token, with no
      error. The one-statement step. */
  lemma LetThenRest(ts: seq<Token>, i: nat)
    requires At(ts, i).typ == Let && At(ts, i + 1).typ == Ident && At(ts, i + 2).typ == Assign
    requires SemicolonFrom(ts, i + 2).Some?
    requires ParseFrom(ts, SemicolonFrom(ts, i + 2).value + 1).Some?
    ensures var k := SemicolonFrom(ts, i + 2).value;
            var rest := ParseFrom(ts, k + 1).value;
            ParseFrom(ts, i) == Some(ProgramParse(
              [LetStatement(At(ts, i), Some(Identifier(At(ts, i + 1), At(ts, i + 1).literal)), None)] + rest.statements,
              rest.errors))
  {
    LetSuccess(ts, i);
    var k := SemicolonFrom(ts, i + 2).value;
    var p, rest := ParseStatementAt(ts, i).value, ParseFrom(ts, k + 1).value;
    ParseFromStep(ts, i, p.statement, p.errors, p.next, rest);
    assert OptionToSeq(p.statement) == [p.statement.value];
    assert [] + rest.errors == rest.errors;
  }

  // ---------------------------------------------------------------------
  // The parser

  /** The lexer's cursor once it has returned `k` tokens, given the
      cursors `ps` it passes through up to the first EOF; after that EOF
      each further call moves it on by one. */
  function PositionOf(ps: seq<nat>, k: nat): nat
    requires |ps| >= 1
  {
    if k < |ps| - 1 then ps[k] else ps[|ps| - 1] + (k - (|ps| - 1))
  }

  /** The lexer's cursor after `k` calls; a name of its own so that the
      facts `Feeds` holds are used only where a proof asks for them. */
  function CursorAfter(ps: seq<nat>, k: nat): nat
    requires |ps| >= 1
  {
    PositionOf(ps, k)
  }

  /** Every call to the lexer, the `k`-th, returns the stream's `k`-th
      token, also past the EOF that ends the stream. */
  ghost predicate Feeds(input: string, ps: seq<nat>, ts: seq<Token>) {
    && |ps| >= 1
    && forall k: nat {:trigger CursorAfter(ps, k)} ::
         Step(input, CursorAfter(ps, k)) == Some(Lexed(At(ts, k), PositionOf(ps, k + 1)))
  }

  /** The cursors of a traced stream feed the parser the stream. */
  lemma TracesFeed(input: string, ps: seq<nat>, ts: seq<Token>)
    requires Traces(input, ps, ts)
    ensures Feeds(input, ps, ts)
  {
    forall k: nat
      ensures Step(input, CursorAfter(ps, k)) == Some(Lexed(At(ts, k), PositionOf(ps, k + 1)))
    {
      if k < |ts| {
        FeedWithin(input, ps, ts, k);
      } else {
        FeedBeyond(input, ps, ts, k);
      }
    }
  }

  /** Before the EOF that ends the stream, the `k`-th call returns the
      `k`-th token of the trace. */
  lemma FeedWithin(input: string, ps: seq<nat>, ts: seq<Token>, k: nat)
    requires Traces(input, ps, ts) && k < |ts|
    ensures Step(input, CursorAfter(ps, k)) == Some(Lexed(At(ts, k), PositionOf(ps, k + 1)))
  {
    assert CursorAfter(ps, k) == ps[k] && At(ts, k) == ts[k] && PositionOf(ps, k + 1) == ps[k + 1];
    assert Step(input, ps[k]) == Some(Lexed(ts[k], ps[k + 1]));
  }

  /** After that EOF, every call returns EOF again. */
  lemma FeedBeyond(input: string, ps: seq<nat>, ts: seq<Token>, k: nat)
    requires Traces(input, ps, ts) && k >= |ts|
    ensures Step(input, CursorAfter(ps, k)) == Some(Lexed(At(ts, k), PositionOf(ps, k + 1)))
  {
    var n := |ts|;
    assert Step(input, ps[n - 1]) == Some(Lexed(ts[n - 1], ps[n]));
    EofForever(input, ps[n - 1], k - n);
    assert CursorAfter(ps, k) == ps[n] + (k - n);
    assert PositionOf(ps, k + 1) == ps[n] + (k - n) + 1;
    assert At(ts, k) == Token(Eof, "");
  }

  class Parser {
    const lexer: Lexer
    var errors: seq<string>
    var curToken: Token
    var peekToken: Token

    /** The tokens the lexer gives from the parser's creation up to the
        first EOF. */
    ghost const stream: seq<Token>
    /** The lexer's cursors while it gives `stream`. */
    ghost const positions: seq<nat>
    /** The stream index of `curToken`; it starts at -2 because the
        constructor pulls two tokens before the window is full. */
    ghost var cursor: int

    /** The lexer is positioned just after the peek token of the window. */
    ghost predicate Linked()
      reads this, lexer
    {
      && lexer.Valid()
      && cursor >= -2
      && Feeds(lexer.input, positions, stream)
      && lexer.position == PositionOf(positions, cursor + 2)
    }

    /** The window holds the stream's tokens at `cursor` and `cursor + 1`. */
    ghost predicate Valid()
      reads this, lexer
    {
      && Linked()
      && cursor >= 0
      && curToken == At(stream, cursor)
      && peekToken == At(stream, cursor + 1)
    }

    /** After construction the current token is the lexer's first token and
        the peek token its second. The parser needs the lexer's whole
        stream to be lexable. */
    constructor (l: Lexer)
      requires l.Valid() && Upcoming(l.input, l.position).Some?
      modifies l
      ensures Valid() && lexer == l && errors == []
      ensures stream == old(Upcoming(l.input, l.position)).value && cursor == 0
      ensures curToken == At(stream, 0) && peekToken == At(stream, 1)
    {
      lexer := l;
      errors := [];
      curToken := Token(Illegal, "");
      peekToken := Token(Illegal, "");
      stream := Upcoming(l.input, l.position).value;
      positions := Positions(l.input, l.position);
      PositionsTrace(l.input, l.position);
      TracesFeed(l.input, Positions(l.input, l.position), Upcoming(l.input, l.position).value);
      cursor := -2;
      new;
      NextToken();
      NextToken();
    }

    /** `next_token`: shift the window by one token. */
    method NextToken()
      requires Linked()
      modifies this, lexer
      ensures Linked() && cursor == old(cursor) + 1
      ensures curToken == old(peekToken) && peekToken == At(stream, cursor + 1)
      ensures errors == old(errors)
      ensures old(Valid()) ==> Valid()
    {
      assert CursorAfter(positions, cursor + 2) == lexer.position;
      curToken := peekToken;
      peekToken := lexer.NextToken();
      cursor := cursor + 1;
    }

    /** `cur_token_is`. */
    predicate CurTokenIs(t: TokenType)
      reads this, lexer
      requires Valid()
      ensures CurTokenIs(t) <==> At(stream, cursor).typ == t
    {
      curToken.typ == t
    }

    /** `peek_token_is`. */
    predicate PeekTokenIs(t: TokenType)
      reads this, lexer
      requires Valid()
      ensures PeekTokenIs(t) <==> At(stream, cursor + 1).typ == t
    {
      peekToken.typ == t
    }

    /** `peek_error`: append one error naming the expected kind and the
        peek token's kind. */
    method PeekError(t: TokenType)
      modifies this
      ensures errors == old(errors) + [PeekErrorMessage(t, peekToken.typ)]
      ensures curToken == old(curToken) && peekToken == old(peekToken) && cursor == old(cursor)
    {
      var error := PeekErrorMessage(t, peekToken.typ);
      errors := errors + [error];
    }

    /** `expect_peek`: on a match advance once and report success; otherwise
        leave the window alone and record exactly one error. */
    method ExpectPeek(t: TokenType) returns (ok: bool)
      requires Valid()
      modifies this, lexer
      ensures Valid()
      ensures ok <==> old(peekToken).typ == t
      ensures ok ==> cursor == old(cursor) + 1 && curToken == old(peekToken) && errors == old(errors)
      ensures !ok ==> && cursor == old(cursor) && curToken == old(curToken) && peekToken == old(peekToken)
                      && errors == old(errors) + [PeekErrorMessage(t, old(peekToken).typ)]
                      && unchanged(lexer)
    {
      if PeekTokenIs(t) {
        NextToken();
        ok := true;
      } else {
        PeekError(t);
        ok := false;
      }
    }

    /** `while not cur_token_is(SEMICOLON): next_token()`. */
    method SkipToSemicolon()
      requires Valid() && SemicolonFrom(stream, cursor).Some?
      modifies this, lexer
      ensures Valid() && cursor == old(SemicolonFrom(stream, cursor)).value
      ensures errors == old(errors)
    {
      ghost var k := SemicolonFrom(stream, cursor).value;
      while !CurTokenIs(Semicolon)
        invariant Valid() && cursor <= k && SemicolonFrom(stream, cursor) == Some(k)
        invariant errors == old(errors)
        decreases k - cursor
      {
        NextToken();
      }
    }

    /** `parse_let_statement`. */
    method ParseLetStatement() returns (statement: Option<Statement>)
      requires Valid() && ParseLet(stream, cursor).Some?
      modifies this, lexer
      ensures Valid()
      ensures var p := old(ParseLet(stream, cursor)).value;
              statement == p.statement && errors == old(errors) + p.errors && cursor == p.next
    {
      ghost var i: nat := cursor;
      ghost var r := ParseLet(stream, i).value;
      ParseLetCases(stream, i);
      var token := curToken;
      var ok := ExpectPeek(Ident);
      if !ok {
        return None;
      }
      ghost var named := curToken;
      assert named == At(stream, i + 1);
      var name := Identifier(curToken, curToken.literal);
      ok := ExpectPeek(Assign);
      if !ok {
        return None;
      }
      assert At(stream, i + 2).typ == Assign;
      SkipToSemicolon();
      statement := Some(LetStatement(token, Some(name), None));
    }

    /** `parse_return_statement`. */
    method ParseReturnStatement() returns (statement: Option<Statement>)
      requires Valid() && ParseReturn(stream, cursor).Some?
      modifies this, lexer
      ensures Valid()
      ensures var p := old(ParseReturn(stream, cursor)).value;
              statement == p.statement && errors == old(errors) + p.errors && cursor == p.next
    {
      var token := curToken;
      NextToken();
      SkipToSemicolon();
      statement := Some(ReturnStatement(token, None));
    }

    /** `parse_statement`: LET and RETURN have parse functions, every other
        kind gives None. */
    method ParseStatement() returns (statement: Option<Statement>)
      requires Valid() && ParseStatementAt(stream, cursor).Some?
      modifies this, lexer
      ensures Valid()
      ensures var p := old(ParseStatementAt(stream, cursor)).value;
              statement == p.statement && errors == old(errors) + p.errors && cursor == p.next
    {
      match curToken.typ
      case Let => statement := ParseLetStatement();
      case Return => statement := ParseReturnStatement();
      case _ => statement := None;
    }

    /** One round of `parse_program`'s loop: parse the statement at the
        current token, then advance past its last token. What remains to
        parse is the rest of the program after that statement. */
    method ParseAndAdvance(ghost left: ProgramParse) returns (statement: Option<Statement>, ghost rest: ProgramParse)
      requires Valid() && curToken.typ != Eof && ParseFrom(stream, cursor) == Some(left)
      modifies this, lexer
      ensures Valid() && old(cursor) < cursor <= |stream| && ParseFrom(stream, cursor) == Some(rest)
      ensures left.statements == OptionToSeq(statement) + rest.statements
      ensures old(errors) + left.errors == errors + rest.errors
    {
      ghost var p, r := ParseRound(stream, cursor, left);
      ghost var logged := errors;
      statement := ParseStatement();
      AppendAssociates(logged, p.errors, r.errors);
      NextToken();
      assert cursor == p.next + 1;
      rest := r;
    }

    /** `parse_program`: parse statements until the current token is EOF,
        keeping those that parse functions return. */
    method ParseProgram() returns (program: Program)
      requires Valid() && ParseFrom(stream, cursor).Some?
      modifies this, lexer
      ensures Valid() && curToken.typ == Eof
      ensures var r := old(ParseFrom(stream, cursor)).value;
              program.statements == r.statements && errors == old(errors) + r.errors
    {
      ghost var total := ParseFrom(stream, cursor).value;
      ghost var left := total;
      var statements: seq<Statement> := [];
      while curToken.typ != Eof
        invariant Valid() && ParseFrom(stream, cursor) == Some(left)
        invariant total.statements == statements + left.statements
        invariant old(errors) + total.errors == errors + left.errors
        decreases |stream| - cursor
      {
        ghost var before, logged := statements, errors;
        var statement;
        statement, left := ParseAndAdvance(left);
        if statement.Some? {
          statements := statements + [statement.value];
        }
        AccumulateStep(before, statement, left.statements, statements);
      }
      ParseAtEof(stream, cursor);
      assert statements + [] == statements && errors + [] == errors;
      program := Program(statements);
    }
  }
}
