/** The JavaScript string and number built-ins the plugin relies on:
    `String.prototype.includes`, `split` on a one-character separator,
    `Number(text)`, `parseInt(text, 10)` and the decimal text of a number. */
module JsString {
  import opened Values

  /** `s.includes(sub)`: `sub` occurs somewhere in `s`. */
  predicate Includes(s: string, sub: string)
  {
    exists i :: 0 <= i <= |s| - |sub| && sub <= s[i..]
  }

  /** The window of `s` starting at `i` spells `sub`. */
  predicate OccursAt(s: string, sub: string, i: int)
  {
    0 <= i && i + |sub| <= |s| && s[i..i + |sub|] == sub
  }

  /** `includes` finds exactly the windows that spell `sub`. */
  lemma IncludesWindow(s: string, sub: string)
    ensures Includes(s, sub) <==> exists i :: OccursAt(s, sub, i)
  {
    if Includes(s, sub) {
      var i :| 0 <= i <= |s| - |sub| && sub <= s[i..];
      assert s[i..i + |sub|] == s[i..][..|sub|];
      assert OccursAt(s, sub, i);
    }
    if exists i :: OccursAt(s, sub, i) {
      var i :| OccursAt(s, sub, i);
      assert s[i..][..|sub|] == s[i..i + |sub|];
    }
  }

  /** The inverse of `Split`: the parts with one `sep` between neighbours. */
  function Join(parts: seq<string>, sep: char): string
  {
    if |parts| == 0 then ""
    else if |parts| == 1 then parts[0]
    else parts[0] + [sep] + Join(parts[1..], sep)
  }

  /** `s.split(sep)` for a one-character separator: the maximal runs between
      occurrences of `sep`, so there is always at least one part. */
  function Split(s: string, sep: char): (parts: seq<string>)
    ensures |parts| >= 1
    ensures forall k :: 0 <= k < |parts| ==> sep !in parts[k]
    ensures Join(parts, sep) == s
    decreases |s|
  {
    if |s| == 0 then [""]
    else
      var rest := Split(s[1..], sep);
      assert s == [s[0]] + s[1..];
      if s[0] == sep then
        JoinCons("", rest, sep);
        [""] + rest
      else
        var first := [s[0]] + rest[0];
        if |rest| == 1 then
          [first]
        else
          JoinCons(first, rest[1..], sep);
          JoinCons(rest[0], rest[1..], sep);
          assert [rest[0]] + rest[1..] == rest;
          [first] + rest[1..]
  }

  lemma JoinCons(a: string, rest: seq<string>, sep: char)
    requires |rest| >= 1
    ensures Join([a] + rest, sep) == a + [sep] + Join(rest, sep)
  {
    assert ([a] + rest)[1..] == rest;
  }

  lemma {:induction false} SplitWithoutSeparator(a: string, sep: char)
    requires sep !in a
    ensures Split(a, sep) == [a]
    decreases |a|
  {
    if |a| > 0 {
      SplitWithoutSeparator(a[1..], sep);
      assert [a[0]] + a[1..] == a;
    }
  }

  lemma {:induction false} SplitAtFirstSeparator(a: string, sep: char, t: string)
    requires sep !in a
    ensures Split(a + [sep] + t, sep) == [a] + Split(t, sep)
    decreases |a|
  {
    var s := a + [sep] + t;
    if |a| == 0 {
      assert s[1..] == t;
    } else {
      assert s[1..] == a[1..] + [sep] + t;
      SplitAtFirstSeparator(a[1..], sep, t);
      assert [a[0]] + a[1..] == a;
    }
  }

  /** Splitting undoes joining, for parts that do not contain the separator. */
  lemma {:induction false} SplitJoin(parts: seq<string>, sep: char)
    requires |parts| >= 1
    requires forall k :: 0 <= k < |parts| ==> sep !in parts[k]
    ensures Split(Join(parts, sep), sep) == parts
    decreases |parts|
  {
    if |parts| == 1 {
      SplitWithoutSeparator(parts[0], sep);
    } else {
      SplitJoin(parts[1..], sep);
      SplitAtFirstSeparator(parts[0], sep, Join(parts[1..], sep));
      assert [parts[0]] + parts[1..] == parts;
    }
  }

  // --- numbers -------------------------------------------------------------

  /** A JavaScript number as far as the plugin uses one: a non-negative integer or NaN. */
  datatype Number = Num(n: nat) | NaN

  /** Truthiness of a number: 0 and NaN are falsy. */
  predicate NumberTruthy(x: Option<Number>)
  {
    x.Some? && x.value.Num? && x.value.n != 0
  }

  predicate IsDigit(c: char)
  {
    '0' <= c <= '9'
  }

  predicate IsDigits(s: string)
  {
    forall i :: 0 <= i < |s| ==> IsDigit(s[i])
  }

  function DigitChar(d: nat): (c: char)
    requires d < 10
    ensures IsDigit(c)
  {
    ('0' as int + d) as char
  }

  function DigitValue(c: char): (d: nat)
    requires IsDigit(c)
    ensures d < 10
  {
    c as int - '0' as int
  }

  /** The value of a string of decimal digits; "" reads as 0. */
  function ParseDecimal(s: string): nat
    requires IsDigits(s)
  {
    if |s| == 0 then 0
    else 10 * ParseDecimal(s[..|s| - 1]) + DigitValue(s[|s| - 1])
  }

  /** `${n}`: the shortest decimal text of `n`. */
  function NatToString(n: nat): (s: string)
    ensures |s| >= 1 && IsDigits(s)
    ensures |s| > 1 ==> s[0] != '0'
    decreases n
  {
    if n < 10 then [DigitChar(n)]
    else
      var prefix := NatToString(n / 10);
      var s := prefix + [DigitChar(n % 10)];
      assert forall i :: 0 <= i < |prefix| ==> s[i] == prefix[i];
      s
  }

  /** Reading the decimal text of a number gives the number back. */
  lemma {:induction false} ParseNatToString(n: nat)
    ensures ParseDecimal(NatToString(n)) == n
    decreases n
  {
    var s := NatToString(n);
    if n >= 10 {
      ParseNatToString(n / 10);
      assert s[..|s| - 1] == NatToString(n / 10);
    }
  }

  /** The longest prefix of `s` made of decimal digits. */
  function DigitPrefix(s: string): (p: string)
    ensures p <= s && IsDigits(p)
    ensures |p| < |s| ==> !IsDigit(s[|p|])
    decreases |s|
  {
    if |s| == 0 || !IsDigit(s[0]) then ""
    else
      var rest := DigitPrefix(s[1..]);
      assert [s[0]] + s[1..] == s;
      [s[0]] + rest
  }

  /** `Number(s)` for decimal text: the value of a digit string ("" is 0), NaN otherwise. */
  function ToNumber(s: string): (x: Number)
    ensures x.Num? <==> IsDigits(s)
  {
    if IsDigits(s) then Num(ParseDecimal(s)) else NaN
  }

  /** `parseInt(s, 10)`: the value of the leading digits, NaN when there are none. */
  function ParseInt(s: string): (x: Number)
    ensures x == NaN <==> (|s| == 0 || !IsDigit(s[0]))
  {
    var p := DigitPrefix(s);
    if p == "" then NaN else Num(ParseDecimal(p))
  }

  /** `parseInt` reads a whole digit string. */
  lemma ParseIntOfDigits(s: string)
    requires |s| >= 1 && IsDigits(s)
    ensures ParseInt(s) == Num(ParseDecimal(s))
  {
    assert DigitPrefix(s) == s;
  }

  /** `x + k` on a number: NaN stays NaN. */
  function Plus(x: Number, k: nat): Number
  {
    match x
    case Num(n) => Num(n + k)
    case NaN => NaN
  }

  /** `${x}` for a number: a number prints as digit text that reads back as
      the number, and only NaN prints as something other than digits. */
  function NumberToString(x: Number): (s: string)
    ensures IsDigits(s) <==> x.Num?
    ensures x.Num? ==> ParseDecimal(s) == x.n
  {
    match x
    case Num(n) =>
      ParseNatToString(n);
      NatToString(n)
    case NaN =>
      assert !IsDigit("NaN"[0]);
      "NaN"
  }
}
