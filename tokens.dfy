/** Token kinds, the token record and the fixed lookup tables of the lexer
    (tokens.py). The source's kinds are plain string constants; here they are
    an enumeration whose `Name` is that constant, so messages that print a
    kind print the same text. */
module Tokens {
  import opened Wrappers

  datatype TokenType =
    | Illegal | Eof | Ident | Int | Str
    | Assign | Plus | Minus | Bang | Asterisk | Slash | Lt | Gt
    | Eq | NotEq
    | Comma | Semicolon
    | LParen | RParen | LBrace | RBrace
    | Function | Let | True | False | If | Else | Return
  {
    /** The string constant that names this kind in the source. `Str` is the
        kind of string literals, which the lexer uses but which tokens.py does
        not declare; it is named "STRING" here. */
    function Name(): string {
      match this
      case Illegal => "ILLEGAL"
      case Eof => "EOF"
      case Ident => "IDENT"
      case Int => "INT"
      case Str => "STRING"
      case Assign => "="
      case Plus => "+"
      case Minus => "-"
      case Bang => "!"
      case Asterisk => "*"
      case Slash => "/"
      case Lt => "<"
      case Gt => ">"
      case Eq => "=="
      case NotEq => "!="
      case Comma => ","
      case Semicolon => ";"
      case LParen => "("
      case RParen => ")"
      case LBrace => "{"
      case RBrace => "}"
      case Function => "FUNCTION"
      case Let => "LET"
      case True => "TRUE"
      case False => "FALSE"
      case If => "IF"
      case Else => "ELSE"
      case Return => "RETURN"
    }
  }

  /** The kind whose string constant is `name`, if any. */
  function KindNamed(name: string): Option<TokenType> {
    if name == "ILLEGAL" then Some(Illegal)
    else if name == "EOF" then Some(Eof)
    else if name == "IDENT" then Some(Ident)
    else if name == "INT" then Some(Int)
    else if name == "STRING" then Some(Str)
    else if name == "=" then Some(Assign)
    else if name == "+" then Some(Plus)
    else if name == "-" then Some(Minus)
    else if name == "!" then Some(Bang)
    else if name == "*" then Some(Asterisk)
    else if name == "/" then Some(Slash)
    else if name == "<" then Some(Lt)
    else if name == ">" then Some(Gt)
    else if name == "==" then Some(Eq)
    else if name == "!=" then Some(NotEq)
    else if name == "," then Some(Comma)
    else if name == ";" then Some(Semicolon)
    else if name == "(" then Some(LParen)
    else if name == ")" then Some(RParen)
    else if name == "{" then Some(LBrace)
    else if name == "}" then Some(RBrace)
    else if name == "FUNCTION" then Some(Function)
    else if name == "LET" then Some(Let)
    else if name == "TRUE" then Some(True)
    else if name == "FALSE" then Some(False)
    else if name == "IF" then Some(If)
    else if name == "ELSE" then Some(Else)
    else if name == "RETURN" then Some(Return)
    else None
  }

  /** Every kind's constant names that kind and no other. */
  lemma NameRoundTrip(t: TokenType)
    ensures KindNamed(t.Name()) == Some(t)
  {
    match t
    case Illegal =>
    case Eof =>
    case Ident =>
    case Int =>
    case Str =>
    case Assign =>
    case Plus =>
    case Minus =>
    case Bang =>
    case Asterisk =>
    case Slash =>
    case Lt =>
    case Gt =>
    case Eq =>
    case NotEq =>
    case Comma =>
    case Semicolon =>
    case LParen =>
    case RParen =>
    case LBrace =>
    case RBrace =>
    case Function =>
    case Let =>
    case True =>
    case False =>
    case If =>
    case Else =>
    case Return =>
  }

  /** The kind constants are pairwise distinct strings. */
  lemma NamesDistinct(a: TokenType, b: TokenType)
    ensures a.Name() == b.Name() <==> a == b
  {
    NameRoundTrip(a);
    NameRoundTrip(b);
  }

  /** A token: its kind and the text it was made from. */
  datatype Token = Token(typ: TokenType, literal: string)

  /** The lexer's current character: a character of the input, or the end
      sentinel (the integer 0 in the source, which no input character
      equals, not even NUL). */
  datatype LexChar = End | Char(c: char)

  /** `token_ch_dict`: one-character tokens, and the end sentinel. */
  const TokenChDict: map<LexChar, Token> := map[
    Char('=') := Token(Assign, "="),
    Char(';') := Token(Semicolon, ";"),
    Char('(') := Token(LParen, "("),
    Char(')') := Token(RParen, ")"),
    Char(',') := Token(Comma, ","),
    Char('+') := Token(Plus, "+"),
    Char('{') := Token(LBrace, "{"),
    Char('}') := Token(RBrace, "}"),
    Char('!') := Token(Bang, "!"),
    Char('-') := Token(Minus, "-"),
    Char('*') := Token(Asterisk, "*"),
    Char('/') := Token(Slash, "/"),
    Char('<') := Token(Lt, "<"),
    Char('>') := Token(Gt, ">"),
    End := Token(Eof, "")
  ]

  /** `token_ch2_dict`: the two-character operators. */
  const TokenCh2Dict: map<string, Token> := map[
    "==" := Token(Eq, "=="),
    "!=" := Token(NotEq, "!=")
  ]

  /** `token_alpha_dict`: the keywords. */
  const TokenAlphaDict: map<string, Token> := map[
    "let" := Token(Let, "let"),
    "fn" := Token(Function, "fn"),
    "true" := Token(True, "true"),
    "false" := Token(False, "false"),
    "if" := Token(If, "if"),
    "else" := Token(Else, "else"),
    "return" := Token(Return, "return")
  ]

  /** `peeking`: the characters that may start a two-character operator. */
  const Peeking: set<char> := {'=', '!'}

  /** A one-character entry's literal is its key; the end sentinel is EOF
      with an empty literal. */
  lemma ChTableLiterals()
    ensures forall k :: k in TokenChDict && k.Char? ==> TokenChDict[k].literal == [k.c]
    ensures End in TokenChDict && TokenChDict[End] == Token(Eof, "")
  {
  }

  /** Every two-character key is two characters long, starts with a peeking
      character, and is its own literal. */
  lemma Ch2TableShape()
    ensures forall k :: k in TokenCh2Dict ==> |k| == 2 && k[0] in Peeking && TokenCh2Dict[k].literal == k
  {
  }

  /** Every peeking character has a one-character entry to fall back on. */
  lemma PeekingFallsBack()
    ensures forall c :: c in Peeking ==> Char(c) in TokenChDict
  {
  }

  /** Every keyword is its own literal and is never a plain identifier. */
  lemma KeywordTableShape()
    ensures forall k :: k in TokenAlphaDict ==> TokenAlphaDict[k].literal == k && TokenAlphaDict[k].typ != Ident
  {
  }
}
