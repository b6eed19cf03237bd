/**
 * The part of PHP's value semantics that the migrator relies on: loosely typed
 * values as stored in post meta or decoded from JSON, truthiness, `trim`,
 * `explode`, the lenient string-to-number casts and integer-to-string conversion.
 */
module Php {
  import opened Wrappers

  /** A PHP value as read from post meta or decoded JSON. Floats are not represented. */
  datatype Value = Null | Bool(b: bool) | Int(i: int) | Str(s: string) | Arr(items: seq<Value>)

  /** PHP's conversion to boolean, as in `if ($v)`; `empty($v)` is its negation. */
  predicate Truthy(v: Value) {
    match v
    case Null => false
    case Bool(b) => b
    case Int(i) => i != 0
    case Str(s) => s != "" && s != "0"
    case Arr(items) => items != []
  }

  // ---------------------------------------------------------------------------
  // trim()

  /** The characters `trim()` strips by default: space, \t, \n, \r, \0 and \x0B. */
  predicate IsTrimSpace(c: char) {
    c == ' ' || c == '\t' || c == '\n' || c == '\r' || c == '\0' || c == '\U{000B}'
  }

  /** Number of trim characters at the start of `s`. */
  function LeadingSpaces(s: string): (n: nat)
    ensures n <= |s|
    ensures forall i :: 0 <= i < n ==> IsTrimSpace(s[i])
    ensures n < |s| ==> !IsTrimSpace(s[n])
    decreases |s|
  {
    if s != [] && IsTrimSpace(s[0]) then
      var n := LeadingSpaces(s[1..]);
      assert forall i :: 1 <= i < n + 1 ==> s[i] == s[1..][i - 1];
      n + 1
    else 0
  }

  /** Length of `s` once its trailing trim characters are dropped. */
  function TrailingStart(s: string): (n: nat)
    ensures n <= |s|
    ensures forall i :: n <= i < |s| ==> IsTrimSpace(s[i])
    ensures n > 0 ==> !IsTrimSpace(s[n - 1])
    decreases |s|
  {
    if s != [] && IsTrimSpace(s[|s| - 1]) then
      var n := TrailingStart(s[..|s| - 1]);
      assert forall i :: n <= i < |s| - 1 ==> s[i] == s[..|s| - 1][i];
      n
    else |s|
  }

  /** `trim($s)`: the infix of `s` that neither starts nor ends with a trim character. */
  function Trim(s: string): (r: string)
    ensures |r| <= |s| - LeadingSpaces(s)
    ensures r == s[LeadingSpaces(s)..LeadingSpaces(s) + |r|]
    ensures r == [] || (!IsTrimSpace(r[0]) && !IsTrimSpace(r[|r| - 1]))
    ensures forall i :: LeadingSpaces(s) + |r| <= i < |s| ==> IsTrimSpace(s[i])
  {
    var a := LeadingSpaces(s);
    var t := s[a..];
    var b := TrailingStart(t);
    assert forall i :: a + b <= i < |s| ==> s[i] == t[i - a];
    assert t[..b] == s[a..a + b];
    assert b > 0 ==> t[..b][0] == s[a] && t[..b][b - 1] == t[b - 1];
    t[..b]
  }

  /** A string with no trim character at either end is its own trim. */
  lemma TrimUnchanged(s: string)
    requires s == [] || (!IsTrimSpace(s[0]) && !IsTrimSpace(s[|s| - 1]))
    ensures Trim(s) == s
  {
    assert LeadingSpaces(s) == 0;
    assert s[0..] == s;
  }

  /** Trimming whitespace padding returns what it surrounds. */
  lemma TrimPadding(pre: string, m: string, post: string)
    requires forall i :: 0 <= i < |pre| ==> IsTrimSpace(pre[i])
    requires forall i :: 0 <= i < |post| ==> IsTrimSpace(post[i])
    requires m != [] && !IsTrimSpace(m[0]) && !IsTrimSpace(m[|m| - 1])
    ensures Trim(pre + m + post) == m
  {
    var s := pre + m + post;
    assert forall i :: 0 <= i < |pre| ==> s[i] == pre[i];
    assert s[|pre|] == m[0];
    assert LeadingSpaces(s) == |pre|;
    var t := s[|pre|..];
    assert t == m + post;
    assert forall i :: |m| <= i < |t| ==> t[i] == post[i - |m|];
    assert t[|m| - 1] == m[|m| - 1];
    assert TrailingStart(t) == |m|;
    assert t[..|m|] == m;
  }

  /** Trimming twice is trimming once. */
  lemma TrimIdempotent(s: string)
    ensures Trim(Trim(s)) == Trim(s)
  {
    TrimUnchanged(Trim(s));
  }

  // ---------------------------------------------------------------------------
  // explode() and implode()

  /** `explode($d, $s)` for a one-character delimiter: the pieces between delimiters, in order. */
  function Explode(d: char, s: string): (parts: seq<string>)
    ensures |parts| >= 1
    ensures forall i :: 0 <= i < |parts| ==> d !in parts[i]
    decreases |s|
  {
    if s == [] then [""]
    else
      var rest := Explode(d, s[1..]);
      if s[0] == d then [""] + rest
      else
        assert forall i :: 1 <= i < |rest| ==> rest[1..][i - 1] == rest[i];
        [[s[0]] + rest[0]] + rest[1..]
  }

  /** `implode($d, $parts)`: the pieces joined by the delimiter. */
  function Join(parts: seq<string>, d: char): string
    decreases |parts|
  {
    if parts == [] then ""
    else if |parts| == 1 then parts[0]
    else parts[0] + [d] + Join(parts[1..], d)
  }

  /** Position of the first `d` in `s`, or `|s|` when there is none. */
  function IndexOf(d: char, s: string): (i: nat)
    ensures i <= |s|
    ensures d !in s[..i]
    ensures i < |s| ==> s[i] == d
    decreases |s|
  {
    if s == [] then 0
    else if s[0] == d then 0
    else
      var j := IndexOf(d, s[1..]);
      assert s[..j + 1] == [s[0]] + s[1..][..j];
      j + 1
  }

  /** Joining the pieces of a split gives back the original string. */
  lemma {:induction false} JoinExplode(d: char, s: string)
    ensures Join(Explode(d, s), d) == s
    decreases |s|
  {
    if s != [] {
      var rest := Explode(d, s[1..]);
      JoinExplode(d, s[1..]);
      if s[0] == d {
        assert Join([""] + rest, d) == "" + [d] + Join(rest, d) by {
          assert ([""] + rest)[1..] == rest;
        }
      } else if |rest| == 1 {
        assert Join(rest, d) == rest[0];
      } else {
        var parts := [[s[0]] + rest[0]] + rest[1..];
        assert parts[1..] == rest[1..];
        assert Join(rest, d) == rest[0] + [d] + Join(rest[1..], d);
      }
    }
  }

  /** A string without the delimiter explodes to itself alone. */
  lemma {:induction false} ExplodeWithout(d: char, a: string)
    requires d !in a
    ensures Explode(d, a) == [a]
    decreases |a|
  {
    if a != [] {
      ExplodeWithout(d, a[1..]);
      assert [a[0]] + a[1..] == a;
    }
  }

  /** Splitting at a delimiter: the piece before it, then the pieces of the rest. */
  lemma {:induction false} ExplodeAt(d: char, a: string, b: string)
    requires d !in a
    ensures Explode(d, a + [d] + b) == [a] + Explode(d, b)
    decreases |a|
  {
    if a == [] {
      assert a + [d] + b == [d] + b;
      assert ([d] + b)[1..] == b;
    } else {
      ExplodeAt(d, a[1..], b);
      assert (a + [d] + b)[1..] == a[1..] + [d] + b;
      assert [a[0]] + a[1..] == a;
    }
  }

  /** Three delimiter-free pieces joined by the delimiter split back into those pieces. */
  lemma ExplodeThree(d: char, a: string, b: string, c: string)
    requires d !in a && d !in b && d !in c
    ensures Explode(d, a + [d] + b + [d] + c) == [a, b, c]
  {
    assert a + [d] + b + [d] + c == a + [d] + (b + [d] + c);
    ExplodeAt(d, a, b + [d] + c);
    ExplodeAt(d, b, c);
    ExplodeWithout(d, c);
  }

  /** Splitting the join of delimiter-free pieces gives back the pieces. */
  lemma {:induction false} ExplodeJoin(d: char, parts: seq<string>)
    requires parts != []
    requires forall i :: 0 <= i < |parts| ==> d !in parts[i]
    ensures Explode(d, Join(parts, d)) == parts
    decreases |parts|
  {
    if |parts| == 1 {
      ExplodeWithout(d, parts[0]);
    } else {
      ExplodeJoin(d, parts[1..]);
      ExplodeAt(d, parts[0], Join(parts[1..], d));
      assert [parts[0]] + parts[1..] == parts;
    }
  }

  /** Splitting at the first delimiter: the text before it, then the pieces after it. */
  lemma ExplodeSplit(d: char, s: string)
    requires IndexOf(d, s) < |s|
    ensures Explode(d, s) == [s[..IndexOf(d, s)]] + Explode(d, s[IndexOf(d, s) + 1..])
  {
    var i := IndexOf(d, s);
    var a, b := s[..i], s[i + 1..];
    assert s == a + [d] + b;
    ExplodeAt(d, a, b);
  }

  /** The first piece is everything before the first delimiter; if there is a
      delimiter, the other pieces are those of the text after it. */
  lemma ExplodeFirst(d: char, s: string)
    ensures Explode(d, s)[0] == s[..IndexOf(d, s)]
    ensures |Explode(d, s)| >= 2 <==> d in s
    ensures IndexOf(d, s) < |s| ==> Explode(d, s)[1..] == Explode(d, s[IndexOf(d, s) + 1..])
  {
    var i := IndexOf(d, s);
    if i < |s| {
      ExplodeSplit(d, s);
      var rest := Explode(d, s[i + 1..]);
      assert ([s[..i]] + rest)[1..] == rest;
      assert s[i] in s;
    } else {
      assert s[..i] == s;
      ExplodeWithout(d, s);
    }
  }

  // ---------------------------------------------------------------------------
  // Numbers

  predicate IsDigit(c: char) { '0' <= c <= '9' }

  predicate AllDigits(s: string) { forall i :: 0 <= i < |s| ==> IsDigit(s[i]) }

  /** Value of a string of decimal digits. */
  function DigitsValue(ds: string): nat
    requires AllDigits(ds)
    decreases |ds|
  {
    if ds == [] then 0
    else DigitsValue(ds[..|ds| - 1]) * 10 + (ds[|ds| - 1] as int - '0' as int)
  }

  /** Length of the run of digits at the start of `s`. */
  function DigitRun(s: string): (n: nat)
    ensures n <= |s| && AllDigits(s[..n])
    ensures n < |s| ==> !IsDigit(s[n])
    decreases |s|
  {
    if s != [] && IsDigit(s[0]) then
      var n := DigitRun(s[1..]);
      assert s[..n + 1] == [s[0]] + s[1..][..n];
      n + 1
    else 0
  }

  function Pow10(n: nat): (p: nat)
    ensures p >= 1
  {
    if n == 0 then 1 else 10 * Pow10(n - 1)
  }

  /** The whitespace PHP skips before a leading number: space, \t, \n, \r, \v and \f. */
  predicate IsNumericSpace(c: char) {
    c == ' ' || c == '\t' || c == '\n' || c == '\r' || c == '\U{000B}' || c == '\U{000C}'
  }

  function SkipNumericSpace(s: string): (r: string)
    ensures |r| <= |s|
    ensures r == [] || !IsNumericSpace(r[0])
    decreases |s|
  {
    if s != [] && IsNumericSpace(s[0]) then SkipNumericSpace(s[1..]) else s
  }

  /** The leading number of a string: sign, whole digits, and digits after a '.'. */
  datatype Numeral = Numeral(negative: bool, whole: nat, fraction: nat, scale: nat)

  /** Reads the leading decimal number of `s` as PHP's casts do (exponents aside);
      a string that does not start with a number reads as zero. */
  function ReadNumeral(s: string): Numeral {
    var t := SkipNumericSpace(s);
    var signed := t != [] && (t[0] == '-' || t[0] == '+');
    var u := if signed then t[1..] else t;
    var w := DigitRun(u);
    var rest := u[w..];
    var f := if rest != [] && rest[0] == '.' then DigitRun(rest[1..]) else 0;
    Numeral(signed && t[0] == '-', DigitsValue(u[..w]), if f > 0 then DigitsValue(rest[1..][..f]) else 0, f)
  }

  /** `(int) $s` for a string: the leading number, truncated toward zero. */
  function StringToInt(s: string): int {
    var n := ReadNumeral(s);
    if n.negative then -(n.whole as int) else n.whole
  }

  /** `(float) $s` for a string: the leading number (exact, no rounding). */
  function StringToReal(s: string): real {
    NumeralValue(ReadNumeral(s))
  }

  /** The value a leading number spells. */
  function NumeralValue(n: Numeral): real {
    var magnitude := n.whole as real + n.fraction as real / Pow10(n.scale) as real;
    if n.negative then -magnitude else magnitude
  }

  /** `(int) $v` and `intval($v)`. */
  function ToInt(v: Value): int {
    match v
    case Null => 0
    case Bool(b) => if b then 1 else 0
    case Int(i) => i
    case Str(s) => StringToInt(s)
    case Arr(items) => if items == [] then 0 else 1
  }

  /** `(float) $v`. */
  function ToReal(v: Value): real {
    match v
    case Null => 0.0
    case Bool(b) => if b then 1.0 else 0.0
    case Int(i) => i as real
    case Str(s) => StringToReal(s)
    case Arr(items) => if items == [] then 0.0 else 1.0
  }

  /** Decimal digits of a natural number. */
  function NatToString(n: nat): (s: string)
    ensures s != [] && AllDigits(s)
  {
    var c := ('0' as int + n % 10) as char;
    if n < 10 then [c] else NatToString(n / 10) + [c]
  }

  /** PHP's integer-to-string conversion, as in `'Order #' . $id`. */
  function IntToString(i: int): string {
    if i < 0 then "-" + NatToString(-i) else NatToString(i)
  }

  lemma {:induction false} DigitsValueOfNatToString(n: nat)
    ensures DigitsValue(NatToString(n)) == n
  {
    var s := NatToString(n);
    if n >= 10 {
      DigitsValueOfNatToString(n / 10);
      assert s[..|s| - 1] == NatToString(n / 10);
    }
  }

  lemma ReadAllDigits(ds: string)
    requires ds != [] && AllDigits(ds)
    ensures ReadNumeral(ds) == Numeral(false, DigitsValue(ds), 0, 0)
  {
    assert !IsNumericSpace(ds[0]);
    assert DigitRun(ds) == |ds|;
    assert ds[..|ds|] == ds;
  }

  /** A string of digits casts to the number it spells. */
  lemma RealOfDigits(ds: string)
    requires ds != [] && AllDigits(ds)
    ensures StringToReal(ds) == DigitsValue(ds) as real
  {
    ReadAllDigits(ds);
    var n := Numeral(false, DigitsValue(ds), 0, 0);
    assert Pow10(0) == 1;
    assert NumeralValue(n) == DigitsValue(ds) as real;
  }

  /** Casting the decimal text of an integer back to int gives the integer. */
  lemma IntRoundTrip(i: int)
    ensures StringToInt(IntToString(i)) == i
  {
    if i < 0 {
      var ds := NatToString(-i);
      var s := "-" + ds;
      assert !IsNumericSpace(s[0]);
      assert s[1..] == ds;
      ReadAllDigits(ds);
      DigitsValueOfNatToString(-i);
    } else {
      ReadAllDigits(NatToString(i));
      DigitsValueOfNatToString(i);
    }
  }

  /** An uncaught `Throwable`: its message and the line of the migrator's source that raised it. */
  datatype Thrown = Thrown(message: string, line: nat)

  /** Coercion of a value passed where PHP requires a string argument:
      scalars convert, an array is a TypeError (None). */
  function StringArg(v: Value): Option<string> {
    match v
    case Null => Some("")
    case Bool(b) => Some(if b then "1" else "")
    case Int(i) => Some(IntToString(i))
    case Str(s) => Some(s)
    case Arr(_) => None
  }

  /** Conversion by string concatenation (`.`): an array becomes "Array". */
  function ConcatString(v: Value): string {
    match StringArg(v)
    case Some(s) => s
    case None => "Array"
  }

  /** The equality a meta query (`meta_value = ...`) applies: stored scalars compare as their text. */
  predicate SameMetaValue(a: Value, b: Value) {
    !a.Arr? && !b.Arr? && ConcatString(a) == ConcatString(b)
  }

  /** Every scalar matches itself in a meta query, whatever its PHP type. */
  lemma SameMetaValueReflexive(v: Value)
    requires !v.Arr?
    ensures SameMetaValue(v, v)
  {
  }

  /** An integer id and its decimal text match each other in a meta query. */
  lemma SameMetaValueIntText(i: int)
    ensures SameMetaValue(Int(i), Str(IntToString(i)))
  {
  }
}
