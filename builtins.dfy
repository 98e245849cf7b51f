/** Built-in functions (monkey_builtins.py): `len` and the registry that
    maps names to built-ins. */
module Builtins {
  import opened Objects
  import opened EvaluatorUtils

  /** The native functions behind the registry's entries. */
  datatype BuiltinFunction = Len

  /** A built-in value: the native function it wraps. */
  datatype Builtin = Builtin(fn: BuiltinFunction)

  const ArityFormat: string := "wrong number of arguments. got {}, want 1"
  const TypeFormat: string := "argument to 'len' not supported, got {}"

  lemma ArityMessage(n: string)
    ensures PlainFormat(ArityFormat) && Fields(ArityFormat) == 1
    ensures Format(ArityFormat, [n]) == "wrong number of arguments. got " + n + ", want 1"
  {
    var before, after := "wrong number of arguments. got ", ", want 1";
    assert ArityFormat == before + "{}" + after;
    assert NoBraces(before);
    assert NoBraces(after);
    FormatOne(before, after, n);
  }

  lemma TypeMessage(t: string)
    ensures PlainFormat(TypeFormat) && Fields(TypeFormat) == 1
    ensures Format(TypeFormat, [t]) == "argument to 'len' not supported, got " + t
  {
    var before := "argument to 'len' not supported, got ";
    assert TypeFormat == before + "{}" + "";
    assert NoBraces(before);
    FormatOne(before, "", t);
    assert before + t + "" == before + t;
  }

  /** `len_builtin`: the length of its one String argument. A call with any
      other number of arguments is an arity error, which is checked first;
      a single argument of any other type is a type error. It never fails
      otherwise and never gives a negative length. */
  function LenBuiltin(args: seq<Object>): (r: Object)
    ensures r.Error? || (r.Integer? && r.value >= 0)
    ensures |args| != 1 ==> r == Error("wrong number of arguments. got " + IntToString(|args|) + ", want 1")
    ensures |args| == 1 && args[0].String? ==> r == Integer(|args[0].text|)
    ensures |args| == 1 && !args[0].String? ==> r == Error("argument to 'len' not supported, got " + args[0].Typ())
  {
    if |args| != 1 then
      ArityMessage(IntToString(|args|));
      NewError(ArityFormat, [IntToString(|args|)])
    else if args[0].String? then
      Integer(|args[0].text|)
    else
      TypeMessage(args[0].Typ());
      NewError(TypeFormat, [args[0].Typ()])
  }

  /** Calling a built-in with the given arguments. */
  function Apply(b: Builtin, args: seq<Object>): Object {
    match b.fn
    case Len => LenBuiltin(args)
  }

  /** `builtins`: the registry. */
  const Registry: map<string, Builtin> := map["len" := Builtin(Len)]

  /** The registry holds exactly `len`, and calling it is `len_builtin`. */
  lemma RegistryContents(args: seq<Object>)
    ensures Registry.Keys == {"len"}
    ensures Apply(Registry["len"], args) == LenBuiltin(args)
  {
  }

  /** The repository's `len` tests on strings. */
  lemma LenExamples()
    ensures LenBuiltin([String("")]) == Integer(0)
    ensures LenBuiltin([String("four")]) == Integer(4)
    ensures LenBuiltin([String("hello world")]) == Integer(11)
  {
    var empty, four, hello := [String("")], [String("four")], [String("hello world")];
    assert |empty| == 1 && empty[0].String? && |empty[0].text| == 0;
    assert |four| == 1 && four[0].String? && |four[0].text| == 4;
    assert |hello| == 1 && hello[0].String? && |hello[0].text| == 11;
  }

  /** The repository's type-error test case. */
  lemma LenTypeExample()
    ensures LenBuiltin([Integer(1)]) == Error("argument to 'len' not supported, got INTEGER")
  {
    var args := [Integer(1)];
    assert |args| == 1 && !args[0].String?;
    var m := "argument to 'len' not supported, got " + IntegerObj;
    assert m == "argument to 'len' not supported, got INTEGER";
    assert LenBuiltin(args) == Error(m);
  }

  /** The repository's arity-error test case. */
  lemma LenArityExample()
    ensures LenBuiltin([String("one"), String("two")]) == Error("wrong number of arguments. got 2, want 1")
  {
    var args := [String("one"), String("two")];
    assert |args| == 2;
    var m := "wrong number of arguments. got " + IntToString(2) + ", want 1";
    assert m == "wrong number of arguments. got 2, want 1" by {
      TwoText();
    }
    assert LenBuiltin(args) == Error(m);
  }

  lemma TwoText()
    ensures IntToString(2) == "2"
  {
    assert NatToString(2) == [DigitChar(2)];
  }
}
