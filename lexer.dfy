/** The lexer (lexer.py): a cursor over the input string that produces one
    token per call to `NextToken`.

    The functions before the class say, character position by character
    position, what the scanner does: `Step(input, p)` is the token that
    `NextToken` returns when called with the cursor at `p`, together with
    the cursor position afterwards. The class `Lexer` is the scanner itself,
    with the source's fields and loops, and each of its methods is proved
    to agree with those functions. */
module Lexing {
  import opened Wrappers
  import opened Tokens

  // ---------------------------------------------------------------------
  // Character classes (Python's str predicates restricted to ASCII)

  /** `is_alpha`: an ASCII letter, or the underscore. No such character is
      a digit, whitespace, a comment tag or a quote, so the branches of
      `next_token` never overlap. */
  predicate IsAlpha(c: char): (r: bool)
    ensures r ==> !IsDigit(c) && !IsSpace(c) && !IsCommentTag(c) && c != '"'
  {
    'a' <= c <= 'z' || 'A' <= c <= 'Z' || c == '_'
  }

  /** `str.isdigit` on ASCII. */
  predicate IsDigit(c: char) {
    '0' <= c <= '9'
  }

  /** `str.isspace` on ASCII: tab, line feed, vertical tab, form feed,
      carriage return, the four separators 0x1c to 0x1f, and space. */
  predicate IsSpace(c: char) {
    9 <= c as int <= 13 || 28 <= c as int <= 32
  }

  /** `is_comment_tag`: the `#` that starts a comment, which is neither
      whitespace nor a digit. */
  predicate IsCommentTag(c: char): (r: bool)
    ensures r <==> c == '#'
    ensures r ==> !IsSpace(c) && !IsDigit(c)
  {
    c == '#'
  }

  /** What `ch` holds when the cursor is at `p`. */
  function CharAt(input: string, p: nat): LexChar {
    if p < |input| then Char(input[p]) else End
  }

  /** Python's `s[lo:hi]` for non-negative bounds. */
  function Slice(s: string, lo: nat, hi: nat): (r: string)
    ensures lo <= hi <= |s| ==> r == s[lo..hi]
    ensures |s| <= lo ==> r == []
  {
    var top := if hi < |s| then hi else |s|;
    var bottom := if lo < top then lo else top;
    s[bottom..top]
  }

  // ---------------------------------------------------------------------
  // Where each scanning loop stops

  /** Where `read_identifier` stops: the end of the run of letters and
      underscores that starts at `p`. */
  function IdentEnd(input: string, p: nat): (q: nat)
    decreases |input| - p
    ensures p <= q && (q == p || q <= |input|)
    ensures forall k :: p <= k < q ==> k < |input| && IsAlpha(input[k])
    ensures q < |input| ==> !IsAlpha(input[q])
  {
    if p < |input| && IsAlpha(input[p]) then IdentEnd(input, p + 1) else p
  }

  /** Where `read_number` stops: the end of the run of digits that starts
      at `p`. */
  function NumberEnd(input: string, p: nat): (q: nat)
    decreases |input| - p
    ensures p <= q && (q == p || q <= |input|)
    ensures forall k :: p <= k < q ==> k < |input| && IsDigit(input[k])
    ensures q < |input| ==> !IsDigit(input[q])
  {
    if p < |input| && IsDigit(input[p]) then NumberEnd(input, p + 1) else p
  }

  /** Where `read_comment`, called with the cursor at `p`, stops: at the
      first line feed after `p`, or at the end of the input. */
  function CommentEnd(input: string, p: nat): (q: nat)
    decreases |input| - p
    ensures p < q && (q == p + 1 || q <= |input|)
    ensures q < |input| ==> input[q] == '\n'
    ensures forall k :: p < k < q ==> k < |input| && input[k] != '\n'
  {
    if p + 1 >= |input| || input[p + 1] == '\n' then p + 1 else CommentEnd(input, p + 1)
  }

  /** Where `read_string`, called with the cursor on the opening quote at
      `p`, stops: at the next quote. None when there is none; the source
      then loops forever, reading the end sentinel. */
  function StringEnd(input: string, p: nat): (r: Option<nat>)
    decreases |input| - p
    ensures r.Some? ==> p < r.value < |input| && input[r.value] == '"'
    ensures r.Some? ==> forall k :: p < k < r.value ==> input[k] != '"'
    ensures r.None? ==> forall k :: p < k < |input| ==> input[k] != '"'
  {
    if p + 1 >= |input| then None
    else if input[p + 1] == '"' then Some(p + 1)
    else StringEnd(input, p + 1)
  }

  /** Where the skipping loop of `next_token` stops: past every whitespace
      character and every `#` comment at `p`. */
  function SkipEnd(input: string, p: nat): (q: nat)
    decreases |input| - p
    ensures p <= q && (q == p || q <= |input|)
    ensures q < |input| ==> !IsSpace(input[q]) && !IsCommentTag(input[q])
    ensures p < |input| && !IsSpace(input[p]) && !IsCommentTag(input[p]) ==> q == p
  {
    if p < |input| && IsSpace(input[p]) then SkipEnd(input, p + 1)
    else if p < |input| && IsCommentTag(input[p]) then SkipEnd(input, CommentEnd(input, p))
    else p
  }

  /** Position `k` lies in a `#` comment that starts at or after `p`: some
      `#` in `input[p..k + 1]` has no line feed after it up to `k`. */
  ghost predicate InComment(input: string, p: nat, k: nat) {
    && k < |input|
    && exists j :: p <= j <= k && input[j] == '#' && forall m :: j < m <= k ==> input[m] != '\n'
  }

  /** `input[p..q]` is made only of whitespace and `#` comments. */
  ghost predicate Blank(input: string, p: nat, q: nat) {
    forall k :: p <= k < q ==> k < |input| && (IsSpace(input[k]) || InComment(input, p, k))
  }

  /** The skip loop stops at the first character from `p` on that is
      neither whitespace nor part of a comment: everything it passes over
      is blank, and where it stops is not. This determines the stopping
      point: any later one would pass over a non-blank character. */
  lemma {:induction false} SkipEndBlank(input: string, p: nat)
    ensures var q := SkipEnd(input, p);
            && Blank(input, p, q)
            && (q < |input| ==> !IsSpace(input[q]) && !InComment(input, p, q))
    decreases |input| - p
  {
    var q := SkipEnd(input, p);
    if p < |input| && IsSpace(input[p]) {
      SkipEndBlank(input, p + 1);
      forall k | p + 1 <= k < q && InComment(input, p + 1, k)
        ensures InComment(input, p, k)
      {
        var j :| p + 1 <= j <= k && input[j] == '#' && forall m :: j < m <= k ==> input[m] != '\n';
      }
    } else if p < |input| && IsCommentTag(input[p]) {
      var c := CommentEnd(input, p);
      SkipEndBlank(input, c);
      forall k | p <= k < c && k < |input|
        ensures InComment(input, p, k)
      {
        assert forall m :: p < m <= k ==> input[m] != '\n';
      }
      forall k | c <= k < q && InComment(input, c, k)
        ensures InComment(input, p, k)
      {
        var j :| c <= j <= k && input[j] == '#' && forall m :: j < m <= k ==> input[m] != '\n';
      }
      if q < |input| {
        forall j | p <= j <= q && input[j] == '#'
          ensures exists m :: j < m <= q && input[m] == '\n'
        {
          if j < c {
            assert c <= q && input[c] == '\n';
          }
        }
      }
    }
  }

  /** The first non-blank position is unique: a position with only blank
      text before it, which is itself not blank, is where the skip stops. */
  lemma SkipEndUnique(input: string, p: nat, q: nat)
    requires p <= q <= |input| && Blank(input, p, q)
    requires q < |input| ==> !IsSpace(input[q]) && !InComment(input, p, q)
    ensures SkipEnd(input, p) == q
  {
    var s := SkipEnd(input, p);
    SkipEndBlank(input, p);
  }

  // ---------------------------------------------------------------------
  // The token produced at a cursor position

  /** What `peek_char` contributes to the two-character lookup key: the
      next character, or `str(0)` at the end of the input. */
  function PeekText(c: LexChar): string {
    match c
    case Char(x) => [x]
    case End => "0"
  }

  /** The ILLEGAL token's literal: the offending character. */
  function CharText(c: LexChar): string {
    match c
    case Char(x) => [x]
    case End => ""
  }

  /** `token_alpha_dict.get(literal, Token(IDENT, literal))`. */
  function LookupIdent(literal: string): Token {
    if literal in TokenAlphaDict then TokenAlphaDict[literal] else Token(Ident, literal)
  }

  /** A two-character lookup key is in the table only when a real `=`
      follows: at the end of the input the key ends in `0`. */
  lemma TwoCharKey(input: string, s: nat)
    requires s < |input|
    requires [input[s]] + PeekText(CharAt(input, s + 1)) in TokenCh2Dict
    ensures s + 1 < |input| && input[s + 1] == '='
  {
    var key := [input[s]] + PeekText(CharAt(input, s + 1));
    assert key == "==" || key == "!=";
    assert key[1] == '=';
  }

  /** A token and the cursor position after it. */
  datatype Lexed = Lexed(token: Token, next: nat)

  /** The token `next_token` returns with the cursor at `p`, and where it
      leaves the cursor; None when it never returns (an unterminated
      string literal). */
  function Step(input: string, p: nat): (r: Option<Lexed>)
    ensures r.Some? ==> p < r.value.next
    ensures r.Some? ==> (r.value.token.typ == Eof <==> |input| <= SkipEnd(input, p))
    ensures r.Some? && r.value.token.typ != Eof ==> r.value.next <= |input|
    ensures r.None? <==> (CharAt(input, SkipEnd(input, p)) == Char('"') && StringEnd(input, SkipEnd(input, p)).None?)
  {
    TokenAt(input, SkipEnd(input, p))
  }

  /** The token read once the skipping loop has stopped at `s`, and where
      the cursor ends up. */
  function TokenAt(input: string, s: nat): (r: Option<Lexed>)
    ensures r.Some? ==> s < r.value.next
    ensures r.Some? ==> (r.value.token.typ == Eof <==> |input| <= s)
    ensures r.Some? && r.value.token.typ != Eof ==> r.value.next <= |input|
    ensures r.None? <==> (CharAt(input, s) == Char('"') && StringEnd(input, s).None?)
  {
    var c := CharAt(input, s);
    if c.Char? && IsAlpha(c.c) then
      var e := IdentEnd(input, s);
      Some(Lexed(LookupIdent(input[s..e]), e))
    else if c.Char? && IsDigit(c.c) then
      var e := NumberEnd(input, s);
      Some(Lexed(Token(Int, input[s..e]), e))
    else if c == Char('"') then
      match StringEnd(input, s)
      case None => None
      case Some(q) => Some(Lexed(Token(Str, input[s + 1..q]), q + 1))
    else if c.Char? && c.c in Peeking && [c.c] + PeekText(CharAt(input, s + 1)) in TokenCh2Dict then
      TwoCharKey(input, s);
      Some(Lexed(TokenCh2Dict[[c.c] + PeekText(CharAt(input, s + 1))], s + 2))
    else
      Some(Lexed(SingleChar(c), s + 1))
  }

  /** A one-character token: the table entry, or ILLEGAL. */
  function SingleChar(c: LexChar): Token {
    if c in TokenChDict then TokenChDict[c] else Token(Illegal, CharText(c))
  }

  /** The tokens `next_token` returns from cursor `p` on, up to and
      including the first EOF (after which it returns EOF forever, see
      `EofForever`); None when it reaches an unterminated string. */
  function Upcoming(input: string, p: nat): Option<seq<Token>>
    decreases |input| - p
  {
    var l := Step(input, p);
    if l.None? then None
    else if l.value.token.typ == Eof then Some([l.value.token])
    else
      var rest := Upcoming(input, l.value.next);
      if rest.None? then None else Some([l.value.token] + rest.value)
  }

  // ---------------------------------------------------------------------
  // Properties of the token stream

  /** The EOF token is always `Token(EOF, "")`. */
  lemma EofToken(input: string, p: nat)
    requires Step(input, p).Some? && Step(input, p).value.token.typ == Eof
    ensures Step(input, p).value == Lexed(Token(Eof, ""), SkipEnd(input, p) + 1)
  {
  }

  /** `next_token` gives EOF exactly when everything from the cursor on is
      whitespace and comments. */
  lemma EofExactlyWhenBlank(input: string, p: nat)
    ensures (Step(input, p).Some? && Step(input, p).value.token.typ == Eof) <==> Blank(input, p, |input|)
  {
    SkipEndBlank(input, p);
    var q := SkipEnd(input, p);
    if q < |input| {
      assert !(IsSpace(input[q]) || InComment(input, p, q));
    }
  }

  /** A token whose first character is at the cursor is read from there:
      the skip loop does not move. */
  lemma StepAtTokenStart(input: string, p: nat)
    requires p < |input| && !IsSpace(input[p]) && !IsCommentTag(input[p])
    ensures Step(input, p) == TokenAt(input, p)
  {
  }

  /** Once the input is exhausted, every further call returns
      `Token(EOF, "")` and moves the cursor on by one. */
  lemma EofForever(input: string, p: nat, n: nat)
    requires Step(input, p).Some? && Step(input, p).value.token.typ == Eof
    ensures var q := Step(input, p).value.next;
            Step(input, q + n) == Some(Lexed(Token(Eof, ""), q + n + 1))
  {
    var q := Step(input, p).value.next;
    EofToken(input, p);
    assert SkipEnd(input, q + n) == q + n;
  }

  /** An upcoming stream ends with `Token(EOF, "")` and holds no EOF
      before its end. */
  lemma {:induction false} UpcomingShape(input: string, p: nat)
    requires Upcoming(input, p).Some?
    ensures var ts := Upcoming(input, p).value;
            |ts| >= 1 && ts[|ts| - 1] == Token(Eof, "")
    ensures var ts := Upcoming(input, p).value;
            forall k :: 0 <= k < |ts| - 1 ==> ts[k].typ != Eof
    decreases |input| - p
  {
    var l := Step(input, p).value;
    if l.token.typ == Eof {
      EofToken(input, p);
    } else {
      var rest := Upcoming(input, l.next).value;
      UpcomingShape(input, l.next);
      assert Upcoming(input, p).value == [l.token] + rest;
      ConsShape(l.token, rest);
    }
  }

  /** A non-EOF token in front of a stream that ends with its only EOF
      keeps that shape. */
  lemma ConsShape(t: Token, rest: seq<Token>)
    requires t.typ != Eof && |rest| >= 1 && rest[|rest| - 1] == Token(Eof, "")
    requires forall k :: 0 <= k < |rest| - 1 ==> rest[k].typ != Eof
    ensures var ts := [t] + rest;
            ts[|ts| - 1] == Token(Eof, "") && forall k :: 0 <= k < |ts| - 1 ==> ts[k].typ != Eof
  {
    var ts := [t] + rest;
    assert forall k :: 1 <= k < |ts| ==> ts[k] == rest[k - 1];
  }

  /** Stepping through an upcoming stream: the token returned is the
      stream's head, and the rest of the stream follows from the new
      cursor (at EOF the stream is EOF again). */
  lemma StepUpcoming(input: string, p: nat)
    requires Upcoming(input, p).Some?
    ensures Step(input, p).Some?
    ensures Step(input, p).value.token == Upcoming(input, p).value[0]
    ensures var s := Upcoming(input, p).value;
            Upcoming(input, Step(input, p).value.next) == Some(if |s| > 1 then s[1..] else s)
  {
    var l := Step(input, p).value;
    if l.token.typ == Eof {
      EofForever(input, p, 0);
      EofToken(input, p);
    }
  }

  /** `ps` are the cursors the lexer passes through while it returns the
      tokens `ts`, the last of which is EOF: from `ps[k]` it returns `ts[k]`
      and moves to `ps[k + 1]`. */
  ghost predicate Traces(input: string, ps: seq<nat>, ts: seq<Token>) {
    && |ts| >= 1 && |ps| == |ts| + 1
    && ts[|ts| - 1].typ == Eof
    && forall k {:trigger Step(input, ps[k])} :: 0 <= k < |ts| ==> Step(input, ps[k]) == Some(Lexed(ts[k], ps[k + 1]))
  }

  /** The cursors the lexer passes through from `p` while it returns the
      upcoming stream: `p`, then the cursor after each token. */
  ghost function Positions(input: string, p: nat): (ps: seq<nat>)
    requires Upcoming(input, p).Some?
    decreases |input| - p
    ensures |ps| >= 2 && ps[0] == p
  {
    var l := Step(input, p).value;
    if l.token.typ == Eof then [p, l.next] else [p] + Positions(input, l.next)
  }

  /** The cursors `Positions` lists trace the upcoming stream. */
  lemma {:induction false} PositionsTrace(input: string, p: nat)
    requires Upcoming(input, p).Some?
    ensures Traces(input, Positions(input, p), Upcoming(input, p).value)
    decreases |input| - p
  {
    UpcomingShape(input, p);
    var l := Step(input, p).value;
    if l.token.typ != Eof {
      PositionsTrace(input, l.next);
      TraceCons(input, p, l.token, Positions(input, l.next), Upcoming(input, l.next).value);
    }
  }

  /** A trace from the cursor a token moves to extends, by that token, to
      a trace from the cursor before it. */
  lemma TraceCons(input: string, p: nat, t: Token, ps: seq<nat>, ts: seq<Token>)
    requires Traces(input, ps, ts) && Step(input, p) == Some(Lexed(t, ps[0]))
    ensures Traces(input, [p] + ps, [t] + ts)
  {
    var ps', ts' := [p] + ps, [t] + ts;
    forall k | 0 <= k < |ts'|
      ensures Step(input, ps'[k]) == Some(Lexed(ts'[k], ps'[k + 1]))
    {
      if k > 0 {
        assert ps'[k] == ps[k - 1] && ps'[k + 1] == ps[k] && ts'[k] == ts[k - 1];
      }
    }
    assert ts'[|ts'| - 1] == ts[|ts| - 1];
  }

  /** Whitespace and comments produce no token: the token at `p` is the
      token after the skipped text. */
  lemma SkipIsNeutral(input: string, p: nat)
    ensures Step(input, SkipEnd(input, p)) == Step(input, p)
  {
    var s := SkipEnd(input, p);
    assert SkipEnd(input, s) == s;
  }

  /** A whitespace character before a token changes nothing. */
  lemma SpaceIsNeutral(input: string, p: nat)
    requires p < |input| && IsSpace(input[p])
    ensures Step(input, p) == Step(input, p + 1)
  {
  }

  /** A `#` comment up to the end of its line changes nothing. */
  lemma CommentIsNeutral(input: string, p: nat)
    requires p < |input| && IsCommentTag(input[p])
    ensures Step(input, p) == Step(input, CommentEnd(input, p))
  {
  }

  /** An identifier token is the maximal run of letters and underscores at
      the token start; it is a keyword's token when the run is in the
      keyword table, and IDENT otherwise. */
  lemma IdentifierToken(input: string, p: nat)
    requires var s := SkipEnd(input, p); s < |input| && IsAlpha(input[s])
    ensures var s := SkipEnd(input, p);
            exists q: nat ::
              && s < q <= |input|
              && Step(input, p) == Some(Lexed(LookupIdent(input[s..q]), q))
              && (forall k :: s <= k < q ==> IsAlpha(input[k]))
              && (q < |input| ==> !IsAlpha(input[q]))
    ensures var t := Step(input, p).value.token;
            t.typ == (if t.literal in TokenAlphaDict then TokenAlphaDict[t.literal].typ else Ident)
  {
    var s := SkipEnd(input, p);
    var q := IdentEnd(input, s);
    assert Step(input, p) == Some(Lexed(LookupIdent(input[s..q]), q));
    KeywordTableShape();
  }

  /** An INT token's literal is the maximal run of digits at the token
      start. */
  lemma NumberToken(input: string, p: nat)
    requires var s := SkipEnd(input, p); s < |input| && IsDigit(input[s])
    ensures var s := SkipEnd(input, p);
            exists q: nat ::
              && s < q <= |input|
              && Step(input, p) == Some(Lexed(Token(Int, input[s..q]), q))
              && (forall k :: s <= k < q ==> IsDigit(input[k]))
              && (q < |input| ==> !IsDigit(input[q]))
  {
    var s := SkipEnd(input, p);
    var q := NumberEnd(input, s);
    assert Step(input, p) == Some(Lexed(Token(Int, input[s..q]), q));
  }

  /** `=` and `!` followed by `=` are one two-character token and the
      cursor moves on by two; otherwise they are one-character tokens. */
  lemma OperatorLookahead(input: string, p: nat)
    requires var s := SkipEnd(input, p); s < |input| && input[s] in Peeking
    ensures var s := SkipEnd(input, p);
            var twice := s + 1 < |input| && input[s + 1] == '=';
            Step(input, p) ==
              if input[s] == '=' then
                (if twice then Some(Lexed(Token(Eq, "=="), s + 2)) else Some(Lexed(Token(Assign, "="), s + 1)))
              else
                (if twice then Some(Lexed(Token(NotEq, "!="), s + 2)) else Some(Lexed(Token(Bang, "!"), s + 1)))
  {
    var s := SkipEnd(input, p);
    if s + 1 < |input| && input[s + 1] == '=' {
      PairedOperator(input, p);
    } else {
      SingleOperator(input, p);
    }
  }

  /** `==` and `!=`: the two-character table entry. */
  lemma PairedOperator(input: string, p: nat)
    requires var s := SkipEnd(input, p); s + 1 < |input| && input[s] in Peeking && input[s + 1] == '='
    ensures var s := SkipEnd(input, p);
            Step(input, p) == Some(Lexed(if input[s] == '=' then Token(Eq, "==") else Token(NotEq, "!="), s + 2))
  {
    var s := SkipEnd(input, p);
    var x := input[s];
    assert x == '=' || x == '!';
    assert CharAt(input, s) == Char(x) && CharAt(input, s + 1) == Char('=');
    var key := [x] + PeekText(CharAt(input, s + 1));
    assert key == [x, '='];
    assert TokenCh2Dict[key] == if x == '=' then Token(Eq, "==") else Token(NotEq, "!=");
    StepTwoChar(input, p);
  }

  /** `=` and `!` with no `=` after them: the one-character table entry. */
  lemma SingleOperator(input: string, p: nat)
    requires var s := SkipEnd(input, p); s < |input| && input[s] in Peeking
    requires var s := SkipEnd(input, p); !(s + 1 < |input| && input[s + 1] == '=')
    ensures var s := SkipEnd(input, p);
            Step(input, p) == Some(Lexed(if input[s] == '=' then Token(Assign, "=") else Token(Bang, "!"), s + 1))
  {
    var s := SkipEnd(input, p);
    var x := input[s];
    assert x == '=' || x == '!';
    assert CharAt(input, s) == Char(x);
    var key := [x] + PeekText(CharAt(input, s + 1));
    assert key !in TokenCh2Dict by {
      if key in TokenCh2Dict {
        TwoCharKey(input, s);
      }
    }
    StepOneChar(input, p);
    assert SingleChar(Char(x)) == if x == '=' then Token(Assign, "=") else Token(Bang, "!");
  }

  /** A character in none of the tables, and not starting an identifier, a
      number or a string, is an ILLEGAL token of that character, and the
      cursor moves on by exactly one. */
  lemma IllegalToken(input: string, p: nat)
    requires var s := SkipEnd(input, p);
             && s < |input|
             && !IsAlpha(input[s]) && !IsDigit(input[s]) && input[s] != '"'
             && Char(input[s]) !in TokenChDict
    ensures var s := SkipEnd(input, p);
            Step(input, p) == Some(Lexed(Token(Illegal, [input[s]]), s + 1))
  {
    var s := SkipEnd(input, p);
    PeekingFallsBack();
    assert input[s] !in Peeking;
    StepOneChar(input, p);
    assert SingleChar(Char(input[s])) == Token(Illegal, [input[s]]);
  }

  // The branches of `next_token` after the skipping loop, one lemma each,
  // with the token start `s` and its character `c`.

  lemma StepIdent(input: string, p: nat)
    requires var c := CharAt(input, SkipEnd(input, p)); c.Char? && IsAlpha(c.c)
    ensures var s := SkipEnd(input, p);
            Step(input, p) == Some(Lexed(LookupIdent(Slice(input, s, IdentEnd(input, s))), IdentEnd(input, s)))
  {
  }

  lemma StepNumber(input: string, p: nat)
    requires var c := CharAt(input, SkipEnd(input, p)); c.Char? && IsDigit(c.c)
    ensures var s := SkipEnd(input, p);
            Step(input, p) == Some(Lexed(Token(Int, Slice(input, s, NumberEnd(input, s))), NumberEnd(input, s)))
  {
  }

  lemma StepString(input: string, p: nat)
    requires var s := SkipEnd(input, p); CharAt(input, s) == Char('"') && StringEnd(input, s).Some?
    ensures var s := SkipEnd(input, p); var q := StringEnd(input, s).value;
            Step(input, p) == Some(Lexed(Token(Str, input[s + 1..q]), q + 1))
  {
  }

  lemma StepTwoChar(input: string, p: nat)
    requires var s := SkipEnd(input, p); var c := CharAt(input, s);
             && c.Char? && c.c in Peeking && !IsAlpha(c.c) && !IsDigit(c.c) && c.c != '"'
             && [c.c] + PeekText(CharAt(input, s + 1)) in TokenCh2Dict
    ensures var s := SkipEnd(input, p); var c := CharAt(input, s);
            Step(input, p) == Some(Lexed(TokenCh2Dict[[c.c] + PeekText(CharAt(input, s + 1))], s + 2))
  {
  }

  lemma StepOneChar(input: string, p: nat)
    requires var c := CharAt(input, SkipEnd(input, p));
             && !(c.Char? && (IsAlpha(c.c) || IsDigit(c.c) || c.c == '"'))
             && !(c.Char? && c.c in Peeking && [c.c] + PeekText(CharAt(input, SkipEnd(input, p) + 1)) in TokenCh2Dict)
    ensures Step(input, p) == Some(Lexed(SingleChar(CharAt(input, SkipEnd(input, p))), SkipEnd(input, p) + 1))
  {
  }

  /** A STRING token's literal is exactly the text between the opening quote
      and the next quote, and the cursor ends just past the closing quote;
      without a closing quote the lexer never returns. */
  lemma StringToken(input: string, p: nat)
    requires var s := SkipEnd(input, p); s < |input| && input[s] == '"'
    ensures var s := SkipEnd(input, p);
            match Step(input, p)
            case None => forall k :: s < k < |input| ==> input[k] != '"'
            case Some(Lexed(t, q)) =>
              && s + 1 < q <= |input|
              && input[q - 1] == '"'
              && t == Token(Str, input[s + 1..q - 1])
              && '"' !in t.literal
  {
    var s := SkipEnd(input, p);
    match StringEnd(input, s)
    case None =>
    case Some(e) =>
      var lit := input[s + 1..e];
      assert forall i :: 0 <= i < |lit| ==> lit[i] == input[s + 1 + i];
  }

  /** The kind and literal of every keyword token agree: the lexer only
      produces LET tokens spelled `let` and RETURN tokens spelled `return`. */
  lemma KeywordLiterals(input: string, p: nat)
    requires Step(input, p).Some?
    ensures var t := Step(input, p).value.token;
            (t.typ == Let ==> t.literal == "let") && (t.typ == Return ==> t.literal == "return")
  {
    KeywordTableShape();
  }

  /** Every LET token of an upcoming stream is spelled `let`, every RETURN
      token `return`. */
  lemma {:induction false} UpcomingKeywordLiterals(input: string, p: nat)
    requires Upcoming(input, p).Some?
    ensures forall t :: t in Upcoming(input, p).value ==>
              (t.typ == Let ==> t.literal == "let") && (t.typ == Return ==> t.literal == "return")
    decreases |input| - p
  {
    KeywordLiterals(input, p);
    var l := Step(input, p).value;
    if l.token.typ != Eof {
      UpcomingKeywordLiterals(input, l.next);
    }
  }

  // ---------------------------------------------------------------------
  // The scanner

  class Lexer {
    const input: string
    var position: nat
    var readPosition: nat
    var ch: LexChar

    /** After every `read_char` the read position is one past the position
        and `ch` is the character at the position, or the end sentinel. */
    ghost predicate Valid()
      reads this
    {
      readPosition == position + 1 && ch == CharAt(input, position)
    }

    constructor (input: string)
      ensures Valid() && this.input == input && position == 0
    {
      this.input := input;
      position := 0;
      readPosition := 0;
      ch := End;
      new;
      ReadChar();
    }

    /** `read_char`: move the cursor on by one. */
    method ReadChar()
      modifies this
      ensures position == old(readPosition) && readPosition == old(readPosition) + 1
      ensures ch == CharAt(input, position)
      ensures Valid()
    {
      if readPosition >= |input| {
        ch := End;
      } else {
        ch := Char(input[readPosition]);
      }
      position := readPosition;
      readPosition := readPosition + 1;
    }

    /** `peek_char`: the character after the current one, without moving. */
    function PeekChar(): (c: LexChar)
      reads this
      requires Valid()
      ensures c == CharAt(input, position + 1)
    {
      if readPosition >= |input| then End else Char(input[readPosition])
    }

    /** `read_identifier`: consume the run of letters and underscores. */
    method ReadIdentifier() returns (literal: string)
      requires Valid()
      modifies this
      ensures Valid() && position == IdentEnd(input, old(position))
      ensures literal == Slice(input, old(position), position)
    {
      var start := position;
      while ch.Char? && IsAlpha(ch.c)
        invariant Valid() && start <= position
        invariant IdentEnd(input, position) == IdentEnd(input, start)
        decreases |input| - position
      {
        ReadChar();
      }
      literal := Slice(input, start, position);
    }

    /** `read_number`: consume the run of digits. */
    method ReadNumber() returns (literal: string)
      requires Valid()
      modifies this
      ensures Valid() && position == NumberEnd(input, old(position))
      ensures literal == Slice(input, old(position), position)
    {
      var start := position;
      while ch.Char? && IsDigit(ch.c)
        invariant Valid() && start <= position
        invariant NumberEnd(input, position) == NumberEnd(input, start)
        decreases |input| - position
      {
        ReadChar();
      }
      literal := Slice(input, start, position);
    }

    /** `read_string`: consume up to the next quote and return the text
        after the current character and before that quote. It only ends
        when such a quote exists. */
    method ReadString() returns (text: string)
      requires Valid() && StringEnd(input, position).Some?
      modifies this
      ensures Valid() && position == StringEnd(input, old(position)).value
      ensures text == input[old(position) + 1..position]
    {
      ghost var close := StringEnd(input, position).value;
      var start := position + 1;
      while true
        invariant Valid() && start - 1 <= position < close
        invariant StringEnd(input, position) == Some(close)
        decreases close - position
      {
        ReadChar();
        if ch == Char('"') {
          break;
        }
      }
      text := input[start..position];
    }

    /** `read_comment`: consume up to the end of the line or of the input. */
    method ReadComment()
      requires Valid()
      modifies this
      ensures Valid() && position == CommentEnd(input, old(position))
    {
      ghost var stop := CommentEnd(input, position);
      while true
        invariant Valid() && position < stop
        invariant CommentEnd(input, position) == stop
        decreases stop - position
      {
        ReadChar();
        if ch == End || ch == Char('\n') {
          break;
        }
      }
    }

    /** The loop at the head of `next_token`: skip whitespace and
        comments. */
    method SkipBlank()
      requires Valid()
      modifies this
      ensures Valid() && position == SkipEnd(input, old(position))
    {
      ghost var start := position;
      while ch.Char? && (IsSpace(ch.c) || IsCommentTag(ch.c))
        invariant Valid()
        invariant SkipEnd(input, position) == SkipEnd(input, start)
        decreases |input| - position
      {
        if IsCommentTag(ch.c) {
          ReadComment();
        } else {
          ReadChar();
        }
      }
    }

    /** The last branch of `next_token`: a two-character operator when the
        current and the next character form one, otherwise the
        one-character table entry or ILLEGAL. */
    method ReadSymbol() returns (tok: Token)
      requires Valid() && SkipEnd(input, position) == position
      requires !(ch.Char? && (IsAlpha(ch.c) || IsDigit(ch.c) || ch.c == '"'))
      modifies this
      ensures Valid()
      ensures Step(input, old(position)) == Some(Lexed(tok, position))
    {
      if ch.Char? && ch.c in Peeking {
        var nextCh := PeekChar();
        var key := [ch.c] + PeekText(nextCh);
        if key in TokenCh2Dict {
          StepTwoChar(input, position);
          tok := TokenCh2Dict[key];
          ReadChar();
          ReadChar();
          return;
        }
      }
      StepOneChar(input, position);
      tok := SingleChar(ch);
      ReadChar();
    }

    /** `next_token`: skip whitespace and comments, then read one token. */
    method NextToken() returns (tok: Token)
      requires Valid() && Step(input, position).Some?
      modifies this
      ensures Valid()
      ensures Step(input, old(position)) == Some(Lexed(tok, position))
    {
      ghost var start := position;
      SkipBlank();
      SkipIsNeutral(input, start);
      if ch.Char? && IsAlpha(ch.c) {
        StepIdent(input, position);
        var literal := ReadIdentifier();
        tok := LookupIdent(literal);
      } else if ch.Char? && IsDigit(ch.c) {
        StepNumber(input, position);
        var literal := ReadNumber();
        tok := Token(Int, literal);
      } else if ch == Char('"') {
        StepString(input, position);
        var text := ReadString();
        tok := Token(Str, text);
        ReadChar();
      } else {
        tok := ReadSymbol();
      }
    }
  }
}
