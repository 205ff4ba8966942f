/** The slice of JavaScript's value semantics that the storefront code relies
    on: truthiness, `||`, `String(v)`, property reads, `parseInt(s, 10)`,
    `trim()` and `toLowerCase()`. */
module JsValues {
  import opened Wrappers

  /** A JavaScript value. A number is carried as the text `String(n)` gives
      for it ("12", "4.5", "NaN", "1e+21"); see `Number` for integers. */
  datatype JsValue =
    | Undefined
    | Null
    | Bool(b: bool)
    | Num(text: string)
    | Str(s: string)
    | Array(elems: seq<JsValue>)
    | Object(fields: map<string, JsValue>)

  /** `v == null` (loose equality): true of null and undefined only. */
  predicate IsNullish(v: JsValue) {
    v.Undefined? || v.Null?
  }

  /** JavaScript truthiness. The falsy numbers are 0 (and -0, whose text is
      also "0") and NaN. */
  function Truthy(v: JsValue): (r: bool)
    ensures IsNullish(v) ==> !r
    ensures v.Array? || v.Object? ==> r
    ensures v.Str? ==> (r <==> v.s != "")
    ensures v.Bool? ==> r == v.b
    ensures v.Num? ==> (r <==> v.text != "0" && v.text != "NaN")
  {
    match v
    case Undefined => false
    case Null => false
    case Bool(b) => b
    case Num(t) => t != "0" && t != "NaN"
    case Str(s) => s != ""
    case Array(_) => true
    case Object(_) => true
  }

  /** `a || b`: the first operand when it is truthy, else the second. */
  function Or(a: JsValue, b: JsValue): (r: JsValue)
    ensures r == a || r == b
    ensures Truthy(r) <==> Truthy(a) || Truthy(b)
    ensures Truthy(a) ==> r == a
    ensures !Truthy(a) ==> r == b
  {
    if Truthy(a) then a else b
  }

  /** `String(v)` for plain data values. An array is joined with commas, its
      null and undefined elements written as empty strings. */
  function ToJsString(v: JsValue): (r: string)
    ensures v.Str? ==> r == v.s
    ensures v.Num? ==> r == v.text
    ensures v.Bool? ==> r == (if v.b then "true" else "false")
    ensures v.Array? && v.elems == [] ==> r == ""
    ensures v.Array? && |v.elems| == 1 && !IsNullish(v.elems[0]) ==> r == ToJsString(v.elems[0])
    ensures v.Array? && |v.elems| == 1 && IsNullish(v.elems[0]) ==> r == ""
    ensures v.Null? ==> r == "null"
    ensures v.Undefined? ==> r == "undefined"
    ensures v.Object? ==> r == "[object Object]"
    decreases v
  {
    match v
    case Undefined => "undefined"
    case Null => "null"
    case Bool(b) => if b then "true" else "false"
    case Num(t) => t
    case Str(s) => s
    case Array(elems) =>
      JoinWithComma(seq(|elems|, i requires 0 <= i < |elems| =>
        if IsNullish(elems[i]) then "" else ToJsString(elems[i])))
    case Object(_) => "[object Object]"
  }

  function JoinWithComma(parts: seq<string>): string {
    if |parts| == 0 then ""
    else if |parts| == 1 then parts[0]
    else parts[0] + "," + JoinWithComma(parts[1..])
  }

  /** `v[key]` for a key that is not a built-in property of strings or
      arrays. Reading a property of null or undefined throws a TypeError. */
  function Get(v: JsValue, key: string): (r: Result<JsValue>)
    ensures r.Failure? <==> IsNullish(v)
    ensures r.Failure? ==> r.error == "TypeError"
    ensures v.Object? && key in v.fields ==> r == Success(v.fields[key])
    ensures v.Object? && key !in v.fields ==> r == Success(Undefined)
    ensures !v.Object? && !IsNullish(v) ==> r == Success(Undefined)
  {
    match v
    case Undefined => Failure("TypeError")
    case Null => Failure("TypeError")
    case Object(fields) => Success(if key in fields then fields[key] else Undefined)
    case _ => Success(Undefined)
  }

  /** `items.map(f)` with a callback that may throw: the first exception
      escapes, otherwise every element is mapped in order. */
  function MapOrThrow<A, B>(f: A -> Result<B>, items: seq<A>): (r: Result<seq<B>>)
    ensures r.Success? <==> forall i :: 0 <= i < |items| ==> f(items[i]).Success?
    ensures r.Success? ==> |r.value| == |items|
    ensures r.Success? ==> forall i :: 0 <= i < |items| ==> f(items[i]) == Success(r.value[i])
    ensures r.Failure? ==> exists i :: FirstFailure(f, items, i, r.error)
  {
    if items == [] then Success([])
    else
      match f(items[0])
      case Failure(e) =>
        assert FirstFailure(f, items, 0, e);
        Failure(e)
      case Success(first) =>
        var rest := MapOrThrow(f, items[1..]);
        assert forall i :: 1 <= i < |items| ==> items[i] == items[1..][i - 1];
        if rest.Failure? then
          var k :| FirstFailure(f, items[1..], k, rest.error);
          assert FirstFailure(f, items, k + 1, rest.error);
          Failure(rest.error)
        else
          Success([first] + rest.value)
  }

  /** Element `i` is the first whose callback throws, and it throws `e`. */
  predicate FirstFailure<A, B>(f: A -> Result<B>, items: seq<A>, i: int, e: string) {
    0 <= i < |items| && f(items[i]) == Failure(e) &&
    forall j :: 0 <= j < i ==> f(items[j]).Success?
  }

  /** `s.startsWith(prefix)` */
  predicate StartsWith(s: string, prefix: string) {
    |prefix| <= |s| && s[..|prefix|] == prefix
  }

  // ---------------------------------------------------------------------
  // White space, trim() and toLowerCase()
  // ---------------------------------------------------------------------

  /** ECMAScript's WhiteSpace and LineTerminator code points: the characters
      `trim()` removes and `parseInt` skips. */
  predicate IsWhiteSpace(c: char) {
    var k := c as int;
    k == 0x09 || k == 0x0A || k == 0x0B || k == 0x0C || k == 0x0D || k == 0x20 ||
    k == 0xA0 || k == 0x1680 || (0x2000 <= k <= 0x200A) || k == 0x2028 ||
    k == 0x2029 || k == 0x202F || k == 0x205F || k == 0x3000 || k == 0xFEFF
  }

  /** `s.trimStart()`: drop leading white space. */
  function TrimStart(s: string): string {
    if |s| > 0 && IsWhiteSpace(s[0]) then TrimStart(s[1..]) else s
  }

  /** `s.trimEnd()`: drop trailing white space. */
  function TrimEnd(s: string): string {
    if |s| > 0 && IsWhiteSpace(s[|s| - 1]) then TrimEnd(s[..|s| - 1]) else s
  }

  /** `r` is the part of `s` from index `i` on, with only white space
      removed before it and after it. */
  predicate TrimmedAt(s: string, r: string, i: int) {
    0 <= i <= |s| - |r| && r == s[i..i + |r|] &&
    (forall k :: 0 <= k < i ==> IsWhiteSpace(s[k])) &&
    (forall k :: i + |r| <= k < |s| ==> IsWhiteSpace(s[k]))
  }

  /** `s.trim()`: `s` with only white space removed at either end, and what
      is left neither starts nor ends with white space. */
  function Trim(s: string): (r: string)
    ensures |r| <= |s|
    ensures exists i :: TrimmedAt(s, r, i)
    ensures r == [] || (!IsWhiteSpace(r[0]) && !IsWhiteSpace(r[|r| - 1]))
  {
    TrimmedAtStart(s);
    TrimEnd(TrimStart(s))
  }

  /** `trimEnd(trimStart(s))` is the part of `s` after the leading white
      space, with the trailing white space cut off. */
  lemma TrimmedAtStart(s: string)
    ensures var r := TrimEnd(TrimStart(s));
      |r| <= |s| && TrimmedAt(s, r, |s| - |TrimStart(s)|) &&
      (r == [] || (!IsWhiteSpace(r[0]) && !IsWhiteSpace(r[|r| - 1])))
  {
    TrimStartShape(s);
    TrimEndShape(TrimStart(s));
  }

  /** `trimStart` leaves the suffix that starts at the first character that
      is not white space. */
  lemma {:induction false} TrimStartShape(s: string)
    ensures var r := TrimStart(s);
      |r| <= |s| && r == s[|s| - |r|..] &&
      (r == [] || !IsWhiteSpace(r[0])) &&
      (forall i :: 0 <= i < |s| - |r| ==> IsWhiteSpace(s[i]))
  {
    if |s| > 0 && IsWhiteSpace(s[0]) {
      TrimStartShape(s[1..]);
    }
  }

  /** `trimEnd` leaves the prefix that ends at the last character that is
      not white space. */
  lemma {:induction false} TrimEndShape(s: string)
    ensures var r := TrimEnd(s);
      |r| <= |s| && r == s[..|r|] &&
      (r == [] || !IsWhiteSpace(r[|r| - 1])) &&
      (forall i :: |r| <= i < |s| ==> IsWhiteSpace(s[i]))
  {
    if |s| > 0 && IsWhiteSpace(s[|s| - 1]) {
      TrimEndShape(s[..|s| - 1]);
    }
  }

  function LowerChar(c: char): char {
    if 'A' <= c <= 'Z' then (c as int + 32) as char else c
  }

  /** `s.toLowerCase()` on ASCII letters; other characters are kept. */
  function ToLower(s: string): (r: string)
    ensures |r| == |s|
    ensures forall i :: 0 <= i < |s| ==> r[i] == LowerChar(s[i])
  {
    if s == [] then [] else [LowerChar(s[0])] + ToLower(s[1..])
  }

  // ---------------------------------------------------------------------
  // parseInt(s, 10) and the decimal text of an integer
  // ---------------------------------------------------------------------

  predicate IsDigit(c: char) {
    '0' <= c <= '9'
  }

  function DigitValue(c: char): (d: int)
    requires IsDigit(c)
    ensures 0 <= d <= 9
  {
    c as int - '0' as int
  }

  /** The number of leading decimal digits of `s`. */
  function DigitRun(s: string): (n: nat)
    ensures n <= |s|
    ensures forall i :: 0 <= i < n ==> IsDigit(s[i])
    ensures n < |s| ==> !IsDigit(s[n])
  {
    if |s| > 0 && IsDigit(s[0]) then 1 + DigitRun(s[1..]) else 0
  }

  /** The value of a string of decimal digits, most significant first. */
  function DigitsValue(ds: string): (v: nat)
    requires forall i :: 0 <= i < |ds| ==> IsDigit(ds[i])
  {
    if |ds| == 0 then 0
    else 10 * DigitsValue(ds[..|ds| - 1]) + DigitValue(ds[|ds| - 1])
  }

  /** `parseInt(s, 10)`: skip leading white space, read an optional sign and
      the longest run of decimal digits after it; `None` (NaN) when that run
      is empty. Radix 10 means no "0x" prefix is recognised. */
  function ParseInt(s: string): (r: Option<int>)
    ensures r.Some? <==> StartsWithDigit(AfterSign(TrimStart(s)))
    ensures r.Some? && r.value < 0 ==> |TrimStart(s)| > 0 && TrimStart(s)[0] == '-'
  {
    var t := TrimStart(s);
    if |t| > 0 && t[0] == '-' then
      match ParseDigits(AfterSign(t))
      case Some(v) => Some(-v)
      case None => None
    else ParseDigits(AfterSign(t))
  }

  /** `t` without its leading sign, if it has one. */
  function AfterSign(t: string): string {
    if |t| > 0 && (t[0] == '-' || t[0] == '+') then t[1..] else t
  }

  predicate StartsWithDigit(u: string) {
    |u| > 0 && IsDigit(u[0])
  }

  /** The value of the leading digit run of `u`; `None` when there is none. */
  function ParseDigits(u: string): (r: Option<int>)
    ensures r.Some? <==> StartsWithDigit(u)
    ensures r.Some? ==> r.value >= 0
  {
    var n := DigitRun(u);
    if n == 0 then None else Some(DigitsValue(u[..n]))
  }

  function DigitChar(d: int): (c: char)
    requires 0 <= d <= 9
    ensures IsDigit(c) && DigitValue(c) == d
  {
    ('0' as int + d) as char
  }

  /** The decimal digits of a natural number, without leading zeros. */
  function NatDigits(n: nat): (ds: string)
    ensures |ds| > 0 && IsDigit(ds[0])
    ensures forall i :: 0 <= i < |ds| ==> IsDigit(ds[i])
  {
    if n < 10 then [DigitChar(n)] else NatDigits(n / 10) + [DigitChar(n % 10)]
  }

  /** `String(n)` for an integer-valued number below 10^21 in magnitude. */
  function DecimalString(n: int): string {
    if n < 0 then "-" + NatDigits(-n) else NatDigits(n)
  }

  /** The JavaScript number with integer value `n`. */
  function Number(n: int): JsValue {
    Num(DecimalString(n))
  }

  /** Reading the digits of a natural number back gives the number. */
  lemma {:induction false} NatDigitsValue(n: nat)
    ensures DigitsValue(NatDigits(n)) == n
  {
    var ds := NatDigits(n);
    if n >= 10 {
      NatDigitsValue(n / 10);
      assert ds[..|ds| - 1] == NatDigits(n / 10);
    }
  }

  /** A string that starts and ends with something other than white space is
      not changed by `trim`. */
  lemma TrimNoSpace(s: string)
    requires s == [] || (!IsWhiteSpace(s[0]) && !IsWhiteSpace(s[|s| - 1]))
    ensures Trim(s) == s
  {
    TrimStartNoSpace(s);
  }

  /** A string that ends with something other than white space is not
      changed by `trimEnd`. */
  lemma TrimEndNoSpace(s: string)
    requires s == [] || !IsWhiteSpace(s[|s| - 1])
    ensures TrimEnd(s) == s
  {
  }

  /** `trim` removes one space on either side of a word. */
  lemma TrimPadded(w: string)
    requires |w| > 0 && !IsWhiteSpace(w[0]) && !IsWhiteSpace(w[|w| - 1])
    ensures Trim(" " + w + " ") == w
  {
    var s := " " + w + " ";
    assert s[1..] == w + " ";
    TrimStartNoSpace(w + " ");
    assert (w + " ")[..|w|] == w;
    TrimEndNoSpace(w);
  }

  /** `toLowerCase` works character by character, so it distributes over
      concatenation. */
  lemma {:induction false} ToLowerConcat(a: string, b: string)
    ensures ToLower(a + b) == ToLower(a) + ToLower(b)
  {
    var l, la, lb := ToLower(a + b), ToLower(a), ToLower(b);
    forall i | 0 <= i < |a + b|
      ensures l[i] == (la + lb)[i]
    {
      if i < |a| {
        assert (a + b)[i] == a[i];
      } else {
        assert (a + b)[i] == b[i - |a|];
      }
    }
    assert |l| == |la + lb|;
  }

  /** A string without upper-case ASCII letters is not changed by
      `toLowerCase`. */
  lemma {:induction false} ToLowerNoUpper(s: string)
    requires forall i :: 0 <= i < |s| ==> !('A' <= s[i] <= 'Z')
    ensures ToLower(s) == s
  {
    if s != [] {
      ToLowerNoUpper(s[1..]);
      assert s == [s[0]] + s[1..];
    }
  }

  /** A string that starts with something other than white space is not
      changed by `trimStart`. */
  lemma TrimStartNoSpace(s: string)
    requires s == [] || !IsWhiteSpace(s[0])
    ensures TrimStart(s) == s
  {
  }

  /** The digit run of digits followed by a non-digit is exactly those digits. */
  lemma DigitRunOfDigits(ds: string, rest: string)
    requires forall i :: 0 <= i < |ds| ==> IsDigit(ds[i])
    requires rest == [] || !IsDigit(rest[0])
    ensures DigitRun(ds + rest) == |ds|
    ensures (ds + rest)[..|ds|] == ds
  {
    var u := ds + rest;
    assert forall i :: 0 <= i < |ds| ==> u[i] == ds[i];
    assert |ds| < |u| ==> u[|ds|] == rest[0];
  }

  /** `parseInt` of text that starts with a digit reads its digit run. */
  lemma ParseIntUnsigned(u: string)
    requires |u| > 0 && IsDigit(u[0])
    ensures ParseInt(u) == ParseDigits(u)
  {
    TrimStartNoSpace(u);
  }

  /** `parseInt` of a minus sign and a digit negates the digit run. */
  lemma ParseIntNegative(u: string)
    requires |u| > 0 && IsDigit(u[0])
    ensures ParseDigits(u).Some? && ParseInt(['-'] + u) == Some(-ParseDigits(u).value)
  {
    var s := ['-'] + u;
    TrimStartNoSpace(s);
    assert s[1..] == u;
  }

  /** The leading digit run of digits followed by a non-digit is their value. */
  lemma ParseDigitsOfDigits(ds: string, rest: string)
    requires |ds| > 0 && forall i :: 0 <= i < |ds| ==> IsDigit(ds[i])
    requires rest == [] || !IsDigit(rest[0])
    ensures ParseDigits(ds + rest) == Some(DigitsValue(ds))
  {
    DigitRunOfDigits(ds, rest);
  }

  /** `parseInt` reads back the decimal text of any integer, whatever
      non-digit text follows it ("12.7" gives 12, "5px" gives 5). */
  lemma ParseIntDecimal(n: int, rest: string)
    requires rest == [] || !IsDigit(rest[0])
    ensures ParseInt(DecimalString(n) + rest) == Some(n)
  {
    var m: nat := if n < 0 then -n else n;
    var u := NatDigits(m) + rest;
    NatDigitsValue(m);
    ParseDigitsOfDigits(NatDigits(m), rest);
    if n < 0 {
      assert DecimalString(n) + rest == ['-'] + u;
      ParseIntNegative(u);
    } else {
      assert DecimalString(n) + rest == u;
      ParseIntUnsigned(u);
    }
  }

  /** `parseInt` gives NaN on a string whose first character after white
      space is neither a sign nor a digit. */
  lemma ParseIntNoDigits(s: string)
    requires var t := TrimStart(s); t == [] || (!IsDigit(t[0]) && t[0] != '-' && t[0] != '+')
    ensures ParseInt(s) == None
  {
  }
}
