/** The slice of PHP's value semantics that the feed path builder relies on:
    boolean conversion ("truthiness"), string conversion, and implode(). */
module Php {

  /** A PHP value as far as the builder can observe it. Floats and objects are
      not modelled; an array is the sequence of its values in iteration order
      (its keys are never read by the builder). */
  datatype Value =
    | Null
    | Bool(b: bool)
    | Int(i: int)
    | Str(s: string)
    | Arr(items: seq<Value>)

  /** PHP's conversion to boolean: NULL, FALSE, 0, '' , '0' and the empty
      array are false, everything else is true. `empty($x)` on a set variable
      is its negation. */
  predicate Truthy(v: Value)
    ensures Truthy(v) <==> v !in {Null, Bool(false), Int(0), Str(""), Str("0"), Arr([])}
  {
    match v
    case Null => false
    case Bool(b) => b
    case Int(i) => i != 0
    case Str(s) => s != "" && s != "0"
    case Arr(items) => |items| > 0
  }

  predicate IsDigit(c: char) {
    '0' <= c <= '9'
  }

  function DigitChar(d: nat): (c: char)
    requires d < 10
    ensures IsDigit(c)
  {
    ('0' as int + d) as char
  }

  function DigitValue(c: char): (d: nat)
    requires IsDigit(c)
    ensures d < 10
  {
    c as int - '0' as int
  }

  /** Decimal text of a natural number, without leading zeros. */
  function NatToDecimal(n: nat): (r: string)
    ensures |r| >= 1
    ensures forall k :: 0 <= k < |r| ==> IsDigit(r[k])
    ensures r[0] == '0' <==> n == 0
    decreases n
  {
    if n < 10 then [DigitChar(n)]
    else NatToDecimal(n / 10) + [DigitChar(n % 10)]
  }

  /** The number a string of decimal digits denotes. */
  function DecimalValue(s: string): nat
    requires forall k :: 0 <= k < |s| ==> IsDigit(s[k])
  {
    if s == [] then 0
    else 10 * DecimalValue(s[..|s| - 1]) + DigitValue(s[|s| - 1])
  }

  /** Reading back the decimal text of a number gives the number. */
  lemma {:induction false} DecimalRoundTrip(n: nat)
    ensures DecimalValue(NatToDecimal(n)) == n
  {
    var s := NatToDecimal(n);
    if n >= 10 {
      assert s[..|s| - 1] == NatToDecimal(n / 10);
      DecimalRoundTrip(n / 10);
    }
  }

  /** PHP's string conversion of an integer. */
  function IntToDecimal(i: int): (r: string)
    ensures r != ""
    ensures r == "0" <==> i == 0
  {
    if i < 0 then "-" + NatToDecimal(-i) else NatToDecimal(i)
  }

  /** PHP's string conversion, as applied by `.=` and implode(). An array
      converts to the text "Array" (PHP also raises a notice). For every
      value that is not an array, it is false exactly when its text is ''
      or '0'. */
  function ToStr(v: Value): (r: string)
    ensures !v.Arr? ==> (Truthy(v) <==> r != "" && r != "0")
    ensures v.Arr? ==> r == "Array"
  {
    match v
    case Null => ""
    case Bool(b) => if b then "1" else ""
    case Int(i) => IntToDecimal(i)
    case Str(s) => s
    case Arr(_) => "Array"
  }

  /** The texts of an array's values, in order. */
  function Texts(items: seq<Value>): (ts: seq<string>)
    ensures |ts| == |items|
    ensures forall k :: 0 <= k < |items| ==> ts[k] == ToStr(items[k])
  {
    if items == [] then [] else [ToStr(items[0])] + Texts(items[1..])
  }

  /** The texts joined, with `glue` between neighbours. */
  function Join(glue: string, texts: seq<string>): string {
    if |texts| == 0 then ""
    else if |texts| == 1 then texts[0]
    else texts[0] + glue + Join(glue, texts[1..])
  }

  /** implode($glue, $pieces): the texts of the array's values in order,
      with the glue between neighbours (Php.CommaJoinRoundTrip: for the glue
      ',' and comma-free texts, splitting undoes it). On an argument that is
      not an array, PHP 5 warns and returns NULL, which appends as the empty
      string. */
  function Implode(glue: string, pieces: Value): (r: string)
    ensures !pieces.Arr? ==> r == ""
    ensures pieces.Arr? && |pieces.items| == 0 ==> r == ""
    ensures pieces.Arr? && |pieces.items| == 1 ==> r == ToStr(pieces.items[0])
  {
    match pieces
    case Arr(items) => Join(glue, Texts(items))
    case _ => ""
  }

  /** The inverse of joining with ',': the pieces between commas. */
  function SplitOnComma(s: string): (parts: seq<string>)
    ensures |parts| >= 1
    decreases |s|
  {
    if s == "" then [""]
    else
      var rest := SplitOnComma(s[1..]);
      if s[0] == ',' then [""] + rest
      else [[s[0]] + rest[0]] + rest[1..]
  }

  lemma {:induction false} SplitCommaFreePrefix(t: string, u: string)
    requires ',' !in t
    ensures SplitOnComma(t + "," + u) == [t] + SplitOnComma(u)
    decreases |t|
  {
    if t == "" {
      assert ("" + "," + u)[1..] == u;
    } else {
      assert (t + "," + u)[1..] == t[1..] + "," + u;
      SplitCommaFreePrefix(t[1..], u);
      assert [t[0]] + t[1..] == t;
    }
  }

  lemma {:induction false} SplitCommaFree(t: string)
    requires ',' !in t
    ensures SplitOnComma(t) == [t]
    decreases |t|
  {
    if t != "" {
      SplitCommaFree(t[1..]);
      assert [t[0]] + t[1..] == t;
    }
  }

  /** A non-empty list of comma-free texts, joined with ',', splits back on
      ',' into exactly that list. */
  lemma {:induction false} CommaJoinRoundTrip(texts: seq<string>)
    requires |texts| >= 1
    requires forall k :: 0 <= k < |texts| ==> ',' !in texts[k]
    ensures SplitOnComma(Join(",", texts)) == texts
    decreases |texts|
  {
    if |texts| == 1 {
      SplitCommaFree(texts[0]);
    } else {
      CommaJoinRoundTrip(texts[1..]);
      SplitCommaFreePrefix(texts[0], Join(",", texts[1..]));
      assert [texts[0]] + texts[1..] == texts;
    }
  }
}
