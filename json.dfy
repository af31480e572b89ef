/** JSON-like Python values as the library passes them around, with the two
    conversions the library applies to them: `str(value)` and `int(value)`. */
module Json {
  import opened Wrappers

  /** A Python value that can appear in a document. `Null` is Python's `None`;
      a float is an opaque scalar carrying the text Python prints for it. */
  datatype Value =
    | Null
    | Bool(b: bool)
    | Int(n: int)
    | Float(text: string)
    | Str(s: string)
    | Arr(items: seq<Value>)
    | Obj(fields: seq<(string, Value)>)

  predicate IsDigit(c: char) { '0' <= c <= '9' }

  predicate AllDigits(s: string) { forall i :: 0 <= i < |s| ==> IsDigit(s[i]) }

  function DigitChar(d: nat): char
    requires d < 10
  {
    ('0' as int + d) as char
  }

  /** Decimal digits of a natural number, most significant first, no leading zeros. */
  function NatToString(n: nat): string
    decreases n
  {
    if n < 10 then [DigitChar(n)] else NatToString(n / 10) + [DigitChar(n % 10)]
  }

  /** `str(n)` for a Python int. */
  function IntToString(n: int): string
  {
    if n < 0 then "-" + NatToString(-n) else NatToString(n)
  }

  /** The number a string of decimal digits denotes. */
  function DigitsValue(s: string): nat
    requires AllDigits(s)
    decreases |s|
  {
    if s == [] then 0 else DigitsValue(s[..|s| - 1]) * 10 + (s[|s| - 1] as int - '0' as int)
  }

  /** `int(s)` for a Python str of an optional sign followed by ASCII
      decimal digits; `None` for any other str. Python also reads
      surrounding whitespace and underscores between digits, which this
      does not. */
  function ParseInt(s: string): Option<int>
  {
    if |s| > 0 && (s[0] == '-' || s[0] == '+') then
      if |s| > 1 && AllDigits(s[1..]) then
        Some(if s[0] == '-' then -(DigitsValue(s[1..]) as int) else DigitsValue(s[1..]) as int)
      else None
    else if |s| > 0 && AllDigits(s) then Some(DigitsValue(s))
    else None
  }

  /** `int(v)` on the values an API response can carry in an id field: an
      int, a bool (`True` is 1) or a str as above. Floats are opaque here,
      so `int()` of a float is not modelled and gives `None`. */
  function PyInt(v: Value): Option<int>
  {
    match v
    case Int(n) => Some(n)
    case Bool(b) => Some(if b then 1 else 0)
    case Str(s) => ParseInt(s)
    case _ => None
  }

  /** `str(v)`: a str is itself, containers print as their repr. */
  function ToString(v: Value): string
  {
    match v
    case Str(s) => s
    case Arr(_) => Repr(v)
    case Obj(_) => Repr(v)
    case _ => ScalarText(v)
  }

  /** What Python prints for a scalar that is not a str. */
  function ScalarText(v: Value): string
    requires !v.Str? && !v.Arr? && !v.Obj?
  {
    match v
    case Null => "None"
    case Bool(b) => if b then "True" else "False"
    case Int(n) => IntToString(n)
    case Float(text) => text
  }

  /** `repr(v)`; strings are quoted with single quotes, without escaping. */
  function Repr(v: Value): string
    decreases v, 1, 0
  {
    match v
    case Str(s) => "'" + s + "'"
    case Arr(items) => "[" + ReprItems(items, 0) + "]"
    case Obj(fields) => "{" + ReprFields(fields, 0) + "}"
    case _ => ScalarText(v)
  }

  function ReprItems(items: seq<Value>, i: nat): string
    requires i <= |items|
    decreases Arr(items), 0, |items| - i
  {
    if i == |items| then ""
    else (if i == 0 then "" else ", ") + Repr(items[i]) + ReprItems(items, i + 1)
  }

  function ReprFields(fields: seq<(string, Value)>, i: nat): string
    requires i <= |fields|
    decreases Obj(fields), 0, |fields| - i
  {
    if i == |fields| then ""
    else (if i == 0 then "" else ", ") + "'" + fields[i].0 + "': " + Repr(fields[i].1) + ReprFields(fields, i + 1)
  }

  /** The digits of `n` read back as a number give `n`. */
  lemma {:induction false} NatToStringDigits(n: nat)
    ensures |NatToString(n)| > 0 && AllDigits(NatToString(n))
    ensures DigitsValue(NatToString(n)) == n
    decreases n
  {
    var s := NatToString(n);
    if n >= 10 {
      NatToStringDigits(n / 10);
      var t := NatToString(n / 10);
      assert s == t + [DigitChar(n % 10)];
      assert s[..|s| - 1] == t;
    }
  }

  /** `int(str(n)) == n` for every Python int. */
  lemma ParseIntToString(n: int)
    ensures ParseInt(IntToString(n)) == Some(n)
    ensures PyInt(Str(ToString(Int(n)))) == Some(n)
  {
    var m: nat := if n < 0 then -n else n;
    NatToStringDigits(m);
    var t := NatToString(m);
    if n < 0 {
      assert IntToString(n) == "-" + t;
      assert ("-" + t)[1..] == t;
    } else {
      assert IsDigit(t[0]);
    }
  }
}
