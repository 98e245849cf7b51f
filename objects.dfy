/** Runtime values (monkey_object.py): Integer, Boolean and Null with their
    type tags and their `inspect` text. The evaluator's helper modules also
    use a String value and an Error value, which monkey_object.py does not
    declare; they appear here as two further variants carrying
    their one field. */
module Objects {
  import opened Wrappers

  /** The type-tag constants. */
  const IntegerObj: string := "INTEGER"
  const BooleanObj: string := "BOOLEAN"
  const NullObj: string := "NULL"
  const StringObj: string := "STRING"
  const ErrorObj: string := "ERROR"

  /** A runtime value. Dataclass equality of Integer and Boolean is the
      datatype's structural equality; the one Null instance is the value
      `Null`. */
  datatype Object =
    | Integer(value: int)
    | Boolean(boolValue: bool)
    | Null
    | String(text: string)
    | Error(message: string)
  {
    /** The `typ` property: each variant's own tag constant, which names
        that variant and no other. */
    function Typ(): (r: string)
      ensures r == IntegerObj <==> Integer?
      ensures r == BooleanObj <==> Boolean?
      ensures r == NullObj <==> Null?
      ensures r == StringObj <==> String?
      ensures r == ErrorObj <==> Error?
    {
      TagsDiffer();
      match this
      case Integer(_) => IntegerObj
      case Boolean(_) => BooleanObj
      case Null => NullObj
      case String(_) => StringObj
      case Error(_) => ErrorObj
    }

    /** The values whose `inspect` the object module defines. */
    predicate HasInspect() {
      Integer? || Boolean? || Null?
    }

    /** The `inspect` property: `str(value)` for an Integer, the lower-cased
        `str(value)` for a Boolean, and `null` for Null. An Integer's text is
        the one canonical decimal text that reads back as its value. */
    function Inspect(): (r: string)
      requires HasInspect()
      ensures Integer? ==> CanonicalInt(r) && ParseInt(r) == Some(value) && (r[0] == '-' <==> value < 0)
      ensures Boolean? ==> r == (if boolValue then "true" else "false")
      ensures Null? ==> r == "null"
    {
      match this
      case Integer(v) => IntRoundTrip(v); IntToString(v)
      case Boolean(b) => if b then "true" else "false"
      case Null => "null"
    }
  }

  /** The five tag constants are pairwise distinct. */
  lemma TagsDiffer()
    ensures IntegerObj != BooleanObj && IntegerObj != NullObj && IntegerObj != StringObj && IntegerObj != ErrorObj
    ensures BooleanObj != NullObj && BooleanObj != StringObj && BooleanObj != ErrorObj
    ensures NullObj != StringObj && NullObj != ErrorObj && StringObj != ErrorObj
  {
    assert IntegerObj[0] == 'I' && BooleanObj[0] == 'B' && NullObj[0] == 'N' && StringObj[0] == 'S' && ErrorObj[0] == 'E';
  }

  /** Two values with the same type tag are of the same variant: the tags
      are pairwise distinct. */
  lemma TypTagsDistinct(a: Object, b: Object)
    ensures a.Typ() == b.Typ() <==>
              ((a.Integer? && b.Integer?) || (a.Boolean? && b.Boolean?) || (a.Null? && b.Null?)
               || (a.String? && b.String?) || (a.Error? && b.Error?))
  {
  }

  // ---------------------------------------------------------------------
  // Decimal text of integers (Python's `str` on `int`)

  predicate IsDigitChar(c: char) {
    '0' <= c <= '9'
  }

  predicate AllDigits(s: string) {
    forall k :: 0 <= k < |s| ==> IsDigitChar(s[k])
  }

  function DigitChar(d: nat): (c: char)
    requires d < 10
    ensures IsDigitChar(c) && (c as int) - ('0' as int) == d
  {
    ('0' as int + d) as char
  }

  /** Decimal digits, at least one, with no leading zero unless the whole
      text is `0`. */
  predicate NoLeadingZero(s: string) {
    |s| >= 1 && AllDigits(s) && (s[0] == '0' ==> |s| == 1)
  }

  /** The text Python's `str` gives an integer: an optional `-` before
      canonical digits, and no `-0`. */
  predicate CanonicalInt(s: string) {
    |s| >= 1 && if s[0] == '-' then NoLeadingZero(s[1..]) && s[1..] != "0" else NoLeadingZero(s)
  }

  /** The decimal digits of `n`, most significant first, with no leading
      zero. */
  function NatToString(n: nat): (s: string)
    ensures NoLeadingZero(s)
    ensures (s[0] == '0') <==> n == 0
    decreases n
  {
    if n < 10 then [DigitChar(n)] else NatToString(n / 10) + [DigitChar(n % 10)]
  }

  /** `str(i)`: the decimal digits of `|i|`, after a `-` when `i` is
      negative. */
  function IntToString(i: int): (s: string)
    ensures CanonicalInt(s)
    ensures (s[0] == '-') <==> i < 0
  {
    if i < 0 then "-" + NatToString(-i) else NatToString(i)
  }

  function DigitOf(c: char): (d: nat)
    requires IsDigitChar(c)
    ensures d < 10
  {
    (c as int) - ('0' as int)
  }

  /** The value of a string of decimal digits, read left to right. */
  function DigitsValue(s: string): nat
    requires AllDigits(s)
  {
    if s == [] then 0
    else DigitsValue(s[..|s| - 1]) * 10 + DigitOf(s[|s| - 1])
  }

  /** Reading decimal text back: an optional `-` followed by at least one
      digit; None for anything else. */
  function ParseInt(s: string): Option<int> {
    if |s| >= 2 && s[0] == '-' && AllDigits(s[1..]) then
      var magnitude: int := DigitsValue(s[1..]);
      Some(-magnitude)
    else if |s| >= 1 && AllDigits(s) then
      Some(DigitsValue(s))
    else
      None
  }

  lemma {:induction false} NatRoundTrip(n: nat)
    ensures DigitsValue(NatToString(n)) == n
    decreases n
  {
    var s := NatToString(n);
    if n >= 10 {
      NatRoundTrip(n / 10);
      assert s[..|s| - 1] == NatToString(n / 10);
    }
  }

  /** Parsing an integer's decimal text gives the integer back. */
  lemma IntRoundTrip(i: int)
    ensures ParseInt(IntToString(i)) == Some(i)
  {
    var s := IntToString(i);
    if i < 0 {
      NatRoundTrip(-i);
      assert s[1..] == NatToString(-i);
    } else {
      NatRoundTrip(i);
      assert s == NatToString(i) && s[0] != '-';
    }
  }

  /** A non-empty digit string with a nonzero first digit has a positive
      value. */
  lemma {:induction false} LeadingDigitPositive(s: string)
    requires |s| >= 1 && AllDigits(s) && s[0] != '0'
    ensures DigitsValue(s) > 0
    decreases |s|
  {
    if |s| > 1 {
      var front := s[..|s| - 1];
      assert front[0] == s[0];
      LeadingDigitPositive(front);
    }
  }

  /** Canonical digits are the decimal text of their own value. */
  lemma {:induction false} CanonicalNatText(s: string)
    requires NoLeadingZero(s)
    ensures NatToString(DigitsValue(s)) == s
    decreases |s|
  {
    var last := s[|s| - 1];
    var front := s[..|s| - 1];
    if |s| == 1 {
      assert front == [];
      assert DigitChar(DigitOf(last)) == last;
    } else {
      assert front[0] == s[0];
      CanonicalNatText(front);
      LeadingDigitPositive(front);
      var n := DigitsValue(s);
      assert n / 10 == DigitsValue(front) && n % 10 == DigitOf(last);
      assert DigitChar(DigitOf(last)) == last;
      assert front + [last] == s;
    }
  }

  /** `str` is the only canonical text of an integer: a canonical text that
      reads back as `i` is `IntToString(i)`. */
  lemma CanonicalIntText(s: string)
    requires CanonicalInt(s)
    ensures ParseInt(s).Some? && IntToString(ParseInt(s).value) == s
  {
    if s[0] == '-' {
      CanonicalNatText(s[1..]);
      LeadingDigitPositive(s[1..]);
      assert "-" + s[1..] == s;
    } else {
      CanonicalNatText(s);
    }
  }

  /** Distinct integers have distinct decimal texts. */
  lemma IntToStringInjective(i: int, j: int)
    requires IntToString(i) == IntToString(j)
    ensures i == j
  {
    IntRoundTrip(i);
    IntRoundTrip(j);
  }
}
