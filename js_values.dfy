/** The part of JavaScript's value semantics that the book service depends on:
    truthiness (`!x`), the `String(x)` conversion and `String.prototype.trim`. */
module JsValues {

  /** A JSON-like JavaScript value as it can arrive in a request body.
      Numbers are integers here; `Object` is any plain object, and `ownToString` says
      whether it has an own `toString` entry, which shadows `Object.prototype.toString`
      with a value that (coming from JSON) cannot be called. */
  datatype JsValue =
    | Undefined
    | Null
    | Bool(b: bool)
    | Num(n: int)
    | Str(s: string)
    | Arr(elems: seq<JsValue>)
    | Object(ownToString: bool)

  /** JavaScript truthiness: `undefined`, `null`, `false`, `0` and `""` are falsy;
      every array (also the empty one) and every object is truthy. */
  predicate Truthy(v: JsValue)
  {
    match v
    case Undefined => false
    case Null => false
    case Bool(b) => b
    case Num(n) => n != 0
    case Str(s) => s != ""
    case Arr(_) => true
    case Object(_) => true
  }

  /** The characters `trim` removes: ECMAScript WhiteSpace (tab, vertical tab,
      form feed, no-break space, byte order mark and the Zs category) and
      LineTerminator (line feed, carriage return, line and paragraph separators). */
  predicate IsJsSpace(c: char)
  {
    c == '\t' || c == '\n' || c == '\U{000B}' || c == '\U{000C}' || c == '\r' ||
    c == ' ' || c == '\U{00A0}' || c == '\U{1680}' ||
    ('\U{2000}' <= c <= '\U{200A}') ||
    c == '\U{2028}' || c == '\U{2029}' || c == '\U{202F}' || c == '\U{205F}' ||
    c == '\U{3000}' || c == '\U{FEFF}'
  }

  predicate AllSpace(s: string)
  {
    forall i :: 0 <= i < |s| ==> IsJsSpace(s[i])
  }

  /** No whitespace at either end: what `trim` guarantees of its result. */
  predicate IsTrimmed(s: string)
  {
    s == [] || (!IsJsSpace(s[0]) && !IsJsSpace(s[|s| - 1]))
  }

  /** The number of whitespace characters `s` starts with. */
  function LeadingSpace(s: string): (n: nat)
    ensures n <= |s|
    ensures forall k :: 0 <= k < n ==> IsJsSpace(s[k])
    ensures n < |s| ==> !IsJsSpace(s[n])
  {
    if |s| == 0 || !IsJsSpace(s[0]) then 0 else 1 + LeadingSpace(s[1..])
  }

  /** Where the whitespace `s` ends with begins. */
  function TrailingStart(s: string): (n: nat)
    ensures n <= |s|
    ensures forall k :: n <= k < |s| ==> IsJsSpace(s[k])
    ensures 0 < n ==> !IsJsSpace(s[n - 1])
  {
    if |s| == 0 || !IsJsSpace(s[|s| - 1]) then |s| else TrailingStart(s[..|s| - 1])
  }

  /** `String.prototype.trim`: drop the leading whitespace, then the trailing whitespace. */
  function Trim(s: string): string
  {
    var t := s[LeadingSpace(s)..];
    t[..TrailingStart(t)]
  }

  /** The characters `trim` cuts off at the front are all whitespace. */
  lemma LeadingPartIsSpace(s: string)
    ensures AllSpace(s[..LeadingSpace(s)])
  {
    var n := LeadingSpace(s);
    forall k | 0 <= k < n
      ensures IsJsSpace(s[..n][k])
    {
      assert s[..n][k] == s[k];
    }
  }

  /** The characters `trim` cuts off at the back are all whitespace. */
  lemma TrailingPartIsSpace(t: string)
    ensures AllSpace(t[TrailingStart(t)..])
  {
    var n := TrailingStart(t);
    forall k | 0 <= k < |t| - n
      ensures IsJsSpace(t[n..][k])
    {
      assert t[n..][k] == t[n + k];
    }
  }

  /** `trim` keeps a contiguous middle part of its argument, cuts off only
      whitespace on both sides, and leaves no whitespace at either end. */
  lemma TrimShape(s: string)
    ensures exists i, j :: 0 <= i <= j <= |s| && Trim(s) == s[i..j] && AllSpace(s[..i]) && AllSpace(s[j..])
    ensures IsTrimmed(Trim(s))
  {
    var i := LeadingSpace(s);
    var t := s[i..];
    var n := TrailingStart(t);
    var j := i + n;
    LeadingPartIsSpace(s);
    TrailingPartIsSpace(t);
    assert t[..n] == s[i..j];
    assert t[n..] == s[j..];
    if n > 0 {
      assert t[0] == s[i];
      assert !IsJsSpace(t[..n][0]) && !IsJsSpace(t[..n][n - 1]);
    }
  }

  /** A string with no whitespace at either end is left as it is by `trim`. */
  lemma TrimOfTrimmed(s: string)
    requires IsTrimmed(s)
    ensures Trim(s) == s
  {
    assert LeadingSpace(s) == 0 by {
      if s != [] {
        assert !IsJsSpace(s[0]);
      }
    }
    assert s[0..] == s;
    assert TrailingStart(s) == |s|;
  }

  /** Trimming twice is trimming once. */
  lemma TrimIdempotent(s: string)
    ensures Trim(Trim(s)) == Trim(s)
  {
    TrimShape(s);
    TrimOfTrimmed(Trim(s));
  }

  /** Decimal digits of a natural number, most significant first. */
  function NatToDecimal(n: nat): (r: string)
    ensures |r| > 0
    ensures forall i :: 0 <= i < |r| ==> '0' <= r[i] <= '9'
    decreases n
  {
    if n < 10 then [DigitChar(n)] else NatToDecimal(n / 10) + [DigitChar(n % 10)]
  }

  function DigitChar(d: nat): (c: char)
    requires d < 10
    ensures '0' <= c <= '9'
  {
    ['0', '1', '2', '3', '4', '5', '6', '7', '8', '9'][d]
  }

  /** `String(n)` for an integral number. */
  function IntToDecimal(n: int): string
  {
    if n < 0 then "-" + NatToDecimal(-n) else NatToDecimal(n)
  }

  /** Whether `String(v)` returns rather than throws. For an object, `ToPrimitive` with
      hint string calls `toString`; an own, non-callable `toString` makes it fall back
      to `valueOf`, whose `Object.prototype` version returns the object itself, so the
      conversion throws a `TypeError`. An array converts when all its elements do. */
  predicate Stringifiable(v: JsValue)
    decreases v
  {
    match v
    case Object(own) => !own
    case Arr(es) => forall i :: 0 <= i < |es| ==> Stringifiable(es[i])
    case _ => true
  }

  /** `String(v)`. An array becomes its elements joined by ",", where `undefined` and
      `null` elements become the empty string (`Array.prototype.toString`). */
  function ToJsString(v: JsValue): string
    requires Stringifiable(v)
    decreases v, 0
  {
    match v
    case Undefined => "undefined"
    case Null => "null"
    case Bool(b) => if b then "true" else "false"
    case Num(n) => IntToDecimal(n)
    case Str(s) => s
    case Arr(es) => JoinElements(es)
    case Object(_) => "[object Object]"
  }

  function JoinElements(es: seq<JsValue>): string
    requires forall i :: 0 <= i < |es| ==> Stringifiable(es[i])
    decreases es, 2
  {
    if |es| == 0 then ""
    else
      var first := ElementString(es[0]);
      if |es| == 1 then first else first + "," + JoinElements(es[1..])
  }

  function ElementString(e: JsValue): string
    requires Stringifiable(e)
    decreases e, 1
  {
    if e.Undefined? || e.Null? then "" else ToJsString(e)
  }

  /** A string of digits (possibly signed) holds no whitespace, so `String(n).trim()`
      is `String(n)`. */
  lemma NumberStringIsTrimmed(n: int)
    ensures Trim(ToJsString(Num(n))) == ToJsString(Num(n))
  {
    var d := NatToDecimal(if n < 0 then -n else n);
    assert !IsJsSpace(d[|d| - 1]);
    assert !IsJsSpace(d[0]);
    assert IsTrimmed(ToJsString(Num(n)));
    TrimOfTrimmed(ToJsString(Num(n)));
  }
}
