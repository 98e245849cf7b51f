/** Error helpers (evaluator_utils.py): building an Error value from a
    format string, and recognising Error values by their type tag. */
module EvaluatorUtils {
  import opened Wrappers
  import opened Objects

  // ---------------------------------------------------------------------
  // `str.format` with automatically numbered fields

  /** A format string whose only replacement fields are `{}`: every `{` is
      followed by `}`, and there is no other `}`. The messages the
      interpreter builds are all of this shape. */
  predicate PlainFormat(fmt: string)
    decreases |fmt|
  {
    if fmt == [] then true
    else if fmt[0] == '{' then |fmt| >= 2 && fmt[1] == '}' && PlainFormat(fmt[2..])
    else fmt[0] != '}' && PlainFormat(fmt[1..])
  }

  /** The number of `{}` fields. */
  function Fields(fmt: string): nat
    requires PlainFormat(fmt)
    decreases |fmt|
  {
    if fmt == [] then 0
    else if fmt[0] == '{' then 1 + Fields(fmt[2..])
    else Fields(fmt[1..])
  }

  /** `fmt.format(*args)`, each argument already turned into its text by
      `str`: every `{}` is replaced by the next argument. Arguments beyond
      the fields are ignored; too few arguments raise in Python, which the
      requires rules out. */
  function Format(fmt: string, args: seq<string>): (r: string)
    requires PlainFormat(fmt) && Fields(fmt) <= |args|
    ensures Fields(fmt) == 0 ==> r == fmt
    decreases |fmt|
  {
    if fmt == [] then ""
    else if fmt[0] == '{' then args[0] + Format(fmt[2..], args[1..])
    else
      assert [fmt[0]] + fmt[1..] == fmt;
      [fmt[0]] + Format(fmt[1..], args)
  }

  /** Arguments beyond the fields do not change the text. */
  lemma {:induction false} FormatExtraArguments(fmt: string, args: seq<string>)
    requires PlainFormat(fmt) && Fields(fmt) <= |args|
    ensures Format(fmt, args) == Format(fmt, args[..Fields(fmt)])
    decreases |fmt|
  {
    if fmt != [] {
      if fmt[0] == '{' {
        FormatExtraArguments(fmt[2..], args[1..]);
        assert args[..Fields(fmt)][1..] == args[1..][..Fields(fmt[2..])];
      } else {
        FormatExtraArguments(fmt[1..], args);
      }
    }
  }

  /** Text without braces. */
  predicate NoBraces(s: string) {
    forall k :: 0 <= k < |s| ==> s[k] != '{' && s[k] != '}'
  }

  /** Text without braces formats to itself, whatever the arguments. */
  lemma {:induction false} FormatLiteral(s: string, args: seq<string>)
    requires NoBraces(s)
    ensures PlainFormat(s) && Fields(s) == 0 && Format(s, args) == s
    decreases |s|
  {
    if s != [] {
      FormatLiteral(s[1..], args);
      assert [s[0]] + s[1..] == s;
    }
  }

  /** The first `{}` takes the first argument, and the rest of the format
      goes on with the remaining arguments. */
  lemma {:induction false} FormatField(a: string, b: string, x: string, rest: seq<string>)
    requires NoBraces(a) && PlainFormat(b) && Fields(b) <= |rest|
    ensures PlainFormat(a + "{}" + b) && Fields(a + "{}" + b) == Fields(b) + 1
    ensures Format(a + "{}" + b, [x] + rest) == a + x + Format(b, rest)
    decreases |a|
  {
    var fmt := a + "{}" + b;
    if a == [] {
      assert fmt == "{}" + b;
      FieldFirst(b, x, rest);
    } else {
      assert fmt[0] == a[0] && fmt[1..] == a[1..] + "{}" + b;
      FormatField(a[1..], b, x, rest);
      var tail := Format(b, rest);
      assert [a[0]] + (a[1..] + x + tail) == a + x + tail;
    }
  }

  /** A format that starts with `{}` takes the first argument there. */
  lemma FieldFirst(b: string, x: string, rest: seq<string>)
    requires PlainFormat(b) && Fields(b) <= |rest|
    ensures PlainFormat("{}" + b) && Fields("{}" + b) == Fields(b) + 1
    ensures Format("{}" + b, [x] + rest) == x + Format(b, rest)
  {
    var fmt := "{}" + b;
    assert fmt[2..] == b;
    assert ([x] + rest)[1..] == rest;
  }

  /** A one-field message: `before {} after` with one argument. */
  lemma FormatOne(before: string, after: string, x: string)
    requires NoBraces(before) && NoBraces(after)
    ensures PlainFormat(before + "{}" + after) && Fields(before + "{}" + after) == 1
    ensures Format(before + "{}" + after, [x]) == before + x + after
  {
    FormatLiteral(after, []);
    FormatField(before, after, x, []);
    assert [x] + [] == [x];
  }

  // ---------------------------------------------------------------------
  // new_error and is_error

  /** `is_error`: a value is an error when its type tag is ERROR; Python's
      `None` is not an error. */
  function IsError(obj: Option<Object>): (r: bool)
    ensures r <==> obj.Some? && obj.value.Error?
  {
    if obj.Some? then
      TypTagsDistinct(obj.value, Error(""));
      obj.value.Typ() == ErrorObj
    else
      false
  }

  /** `new_error`: an Error whose message is the formatted text; whatever
      the format and arguments, `is_error` recognises it. */
  function NewError(fmt: string, args: seq<string>): (r: Object)
    requires PlainFormat(fmt) && Fields(fmt) <= |args|
    ensures IsError(Some(r))
    ensures r.Error? && r.message == Format(fmt, args)
  {
    Error(Format(fmt, args))
  }

  /** Integer, Boolean and Null values are never errors. */
  lemma ValuesAreNotErrors(obj: Object)
    requires obj.Integer? || obj.Boolean? || obj.Null?
    ensures !IsError(Some(obj))
  {
  }
}
