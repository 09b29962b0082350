/**
 * The Python values that requests and configuration trees are made of, and the few
 * built-in conversions the system applies to them (`bool`, `str`, `int`, `str.lower`,
 * `str.isdigit`), restricted to ASCII text.
 */
module Values {
  import opened Wrappers

  /** A JSON-like Python value. Floats are the exact reals they denote. */
  datatype Value =
    | Null
    | Bool(b: bool)
    | Int(i: int)
    | Float(r: real)
    | Str(s: string)
    | List(items: seq<Value>)
    | Dict(fields: map<string, Value>)

  /** `bool(v)`: Python truthiness. */
  predicate Truthy(v: Value)
  {
    match v
    case Null => false
    case Bool(b) => b
    case Int(i) => i != 0
    case Float(r) => r != 0.0
    case Str(s) => |s| > 0
    case List(items) => |items| > 0
    case Dict(fields) => |fields| > 0
  }

  /** `type(v).__name__`, as Python's error messages spell it. */
  function TypeName(v: Value): string
  {
    match v
    case Null => "NoneType"
    case Bool(_) => "bool"
    case Int(_) => "int"
    case Float(_) => "float"
    case Str(_) => "str"
    case List(_) => "list"
    case Dict(_) => "dict"
  }

  /** `ch.isdigit()` on ASCII text. */
  predicate IsDigit(ch: char)
  {
    '0' <= ch <= '9'
  }

  /** `0x20 <= ord(ch) <= 0x7E`: printable ASCII. */
  predicate Printable(ch: char)
  {
    0x20 <= ch as int <= 0x7E
  }

  /** Every character is a digit (`str.isdigit()` also needs a non-empty string). */
  predicate AllDigits(s: string)
  {
    forall i :: 0 <= i < |s| ==> IsDigit(s[i])
  }

  /** The digit character of `d < 10`. */
  function DigitChar(d: nat): (ch: char)
    requires d < 10
    ensures IsDigit(ch)
  {
    ('0' as int + d) as char
  }

  /** The number a digit string spells in decimal, leading zeros allowed: `int(s)` on digits. */
  function DigitsValue(s: string): nat
    requires AllDigits(s)
  {
    if |s| == 0 then 0 else 10 * DigitsValue(s[..|s| - 1]) + (s[|s| - 1] as int - '0' as int)
  }

  /** The decimal digits of `n`, without leading zeros: `str(n)` for `n >= 0`. */
  function DecimalDigits(n: nat): (s: string)
    ensures |s| > 0 && AllDigits(s)
  {
    if n < 10 then [DigitChar(n)] else DecimalDigits(n / 10) + [DigitChar(n % 10)]
  }

  /** `str(n)` for an integer. */
  function IntText(n: int): string
  {
    if n < 0 then "-" + DecimalDigits(-n) else DecimalDigits(n)
  }

  /** `int(s)` for a string: an optional sign and at least one digit; anything else is a `ValueError`. */
  function ParseInt(s: string): (r: Result<int>)
  {
    if |s| > 0 && (s[0] == '-' || s[0] == '+') && |s| > 1 && AllDigits(s[1..]) then
      var magnitude: int := DigitsValue(s[1..]);
      Ok(if s[0] == '-' then -magnitude else magnitude)
    else if |s| > 0 && AllDigits(s) then Ok(DigitsValue(s))
    else Err(ValueError("invalid literal for int() with base 10: '" + s + "'"))
  }

  /** `str.lower()` on ASCII letters; other characters are kept. */
  function Lower(s: string): (t: string)
    ensures |t| == |s|
  {
    seq(|s|, i requires 0 <= i < |s| => if 'A' <= s[i] <= 'Z' then (s[i] as int + 32) as char else s[i])
  }

  /** `str(v)` for the values whose text the system relies on; other values are rendered by `render`. */
  function Text(v: Value, render: Value -> string): string
  {
    match v
    case Null => "None"
    case Bool(b) => if b then "True" else "False"
    case Int(i) => IntText(i)
    case Str(s) => s
    case _ => render(v)
  }

  /** `int(v)`: integers are kept, booleans are 0 or 1, strings are parsed, floats are truncated toward zero. */
  function IntOf(v: Value): Result<int>
  {
    match v
    case Int(i) => Ok(i)
    case Bool(b) => Ok(if b then 1 else 0)
    case Str(s) => ParseInt(s)
    case Float(r) => Ok(if r >= 0.0 then r.Floor else -((-r).Floor))
    case _ => Err(TypeError("int() argument must be a string, a bytes-like object or a real number, not '" + TypeName(v) + "'"))
  }

  /** Whether `needle` occurs in `s` as a character. */
  predicate HasChar(s: string, needle: char)
  {
    exists i :: 0 <= i < |s| && s[i] == needle
  }

  // ---------------------------------------------------------------------------
  // Properties

  lemma DigitValue(d: nat)
    requires d < 10
    ensures DigitChar(d) as int - '0' as int == d
  {
  }

  /** Reading back the decimal digits of `n` gives `n`: `int(str(n)) == n`. */
  lemma {:induction false} DigitsRoundTrip(n: nat)
    ensures DigitsValue(DecimalDigits(n)) == n
    decreases n
  {
    var s := DecimalDigits(n);
    if n < 10 {
      assert s[..0] == [];
    } else {
      DigitsRoundTrip(n / 10);
      assert s[..|s| - 1] == DecimalDigits(n / 10);
      DigitValue(n % 10);
    }
  }

  /** `int(str(n)) == n` for every integer. */
  lemma IntTextRoundTrip(n: int)
    ensures ParseInt(IntText(n)) == Ok(n)
  {
    if n < 0 {
      DigitsRoundTrip(-n);
      assert IntText(n)[1..] == DecimalDigits(-n);
    } else {
      DigitsRoundTrip(n);
    }
  }

  /** Lowercasing twice is lowercasing once. */
  lemma LowerIdempotent(s: string)
    ensures Lower(Lower(s)) == Lower(s)
  {
  }
}
