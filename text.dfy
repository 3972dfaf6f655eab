/** The JavaScript string operations the core relies on, written out:
    `String.prototype.trim`, `parseInt(s, 10)`, number-to-string conversion of
    integers, `indexOf`/`includes`, `replace` with a string pattern, and the
    joining of path segments. */
module Text {
  import opened Wrappers

  /** The ECMAScript WhiteSpace and LineTerminator code points: exactly what
      `trim` removes and what `parseInt` skips before the number. */
  predicate IsJsSpace(c: char) {
    || c == '\t' || c == '\n' || c == '\U{000B}' || c == '\U{000C}' || c == '\r'
    || c == ' ' || c == '\U{00A0}' || c == '\U{1680}'
    || ('\U{2000}' <= c <= '\U{200A}')
    || c == '\U{2028}' || c == '\U{2029}' || c == '\U{202F}' || c == '\U{205F}'
    || c == '\U{3000}' || c == '\U{FEFF}'
  }

  predicate AllSpace(s: string) {
    forall k :: 0 <= k < |s| ==> IsJsSpace(s[k])
  }

  /** `trimStart`: drops the leading white space, nothing else. */
  function TrimStart(s: string): (r: string)
    ensures |r| <= |s| && r == s[|s| - |r|..]
    ensures AllSpace(s[..|s| - |r|])
    ensures r != [] ==> !IsJsSpace(r[0])
  {
    if s != [] && IsJsSpace(s[0]) then
      var rest := s[1..];
      var r := TrimStart(rest);
      var n := |s| - |r|;
      assert rest[|rest| - |r|..] == s[n..];
      forall k | 0 <= k < n
        ensures IsJsSpace(s[..n][k])
      {
        if k > 0 {
          assert s[..n][k] == rest[..|rest| - |r|][k - 1];
        }
      }
      r
    else s
  }

  /** `trimEnd`: drops the trailing white space, nothing else. */
  function TrimEnd(s: string): (r: string)
    ensures |r| <= |s| && r == s[..|r|]
    ensures AllSpace(s[|r|..])
    ensures r != [] ==> !IsJsSpace(r[|r| - 1])
  {
    if s != [] && IsJsSpace(s[|s| - 1]) then
      var init := s[..|s| - 1];
      var r := TrimEnd(init);
      assert init[..|r|] == s[..|r|];
      forall k | 0 <= k < |s| - |r|
        ensures IsJsSpace(s[|r|..][k])
      {
        if k < |s| - 1 - |r| {
          assert s[|r|..][k] == init[|r|..][k];
        }
      }
      r
    else s
  }

  /** `trim`: drops the white space at both ends; what is left has white space
      on neither end and is empty exactly when the input is all white space. */
  function Trim(s: string): (r: string)
    ensures |r| <= |s|
    ensures r != [] ==> !IsJsSpace(r[0]) && !IsJsSpace(r[|r| - 1])
    ensures AllSpace(s) <==> r == []
  {
    var t := TrimStart(s);
    var r := TrimEnd(t);
    assert r == [] ==> AllSpace(s) by {
      if r == [] {
        assert s == s[..|s| - |t|] + t;
        assert AllSpace(t[|r|..]);
      }
    }
    r
  }

  lemma {:induction false} TrimStartPadded(w: string, s: string)
    requires AllSpace(w)
    requires s != [] ==> !IsJsSpace(s[0])
    ensures TrimStart(w + s) == s
  {
    if w != [] {
      assert (w + s)[1..] == w[1..] + s;
      TrimStartPadded(w[1..], s);
    }
  }

  lemma {:induction false} TrimEndPadded(s: string, w: string)
    requires AllSpace(w)
    requires s != [] ==> !IsJsSpace(s[|s| - 1])
    ensures TrimEnd(s + w) == s
  {
    if w != [] {
      assert (s + w)[..|s + w| - 1] == s + w[..|w| - 1];
      TrimEndPadded(s, w[..|w| - 1]);
    }
  }

  /** Whatever white space surrounds a value, `trim` gives the value back. */
  lemma TrimPadded(w1: string, s: string, w2: string)
    requires AllSpace(w1) && AllSpace(w2)
    requires s != [] ==> !IsJsSpace(s[0]) && !IsJsSpace(s[|s| - 1])
    ensures Trim(w1 + s + w2) == s
  {
    assert w1 + s + w2 == w1 + (s + w2);
    if s == [] {
      assert AllSpace(w1 + s + w2);
    } else {
      TrimStartPadded(w1, s + w2);
      TrimEndPadded(s, w2);
    }
  }

  // ---- decimal digits ----

  predicate IsDigit(c: char) { '0' <= c <= '9' }

  predicate AllDigits(s: string) {
    forall k :: 0 <= k < |s| ==> IsDigit(s[k])
  }

  function DigitChar(d: nat): (c: char)
    requires d < 10
    ensures IsDigit(c) && c as int - '0' as int == d
  {
    (d + '0' as int) as char
  }

  /** The value of a string of decimal digits. */
  function DecimalValue(ds: string): nat
    requires AllDigits(ds)
  {
    if ds == [] then 0
    else DecimalValue(ds[..|ds| - 1]) * 10 + (ds[|ds| - 1] as int - '0' as int)
  }

  /** The shortest decimal notation of `n`. JavaScript prints an integer this
      way only below 10^21 (larger ones come out in exponent form), and it holds
      integers exactly only up to 2^53; ports and counts stay far below both. */
  function NatToDecimal(n: nat): (r: string)
    ensures r != [] && AllDigits(r)
    ensures r[0] == '0' ==> n == 0 && r == "0"
  {
    if n < 10 then [DigitChar(n)] else NatToDecimal(n / 10) + [DigitChar(n % 10)]
  }

  lemma {:induction false} DecimalRoundTrip(n: nat)
    ensures DecimalValue(NatToDecimal(n)) == n
  {
    if n >= 10 {
      var prefix := NatToDecimal(n / 10);
      var r := prefix + [DigitChar(n % 10)];
      assert r[..|r| - 1] == prefix;
      DecimalRoundTrip(n / 10);
    }
  }

  /** `String(i)` / `${i}` for an integer below 10^21 in absolute value. */
  function IntToString(i: int): (r: string)
    ensures r != []
    ensures i >= 0 <==> AllDigits(r)
  {
    if i < 0 then
      var r := "-" + NatToDecimal(-i);
      assert r[0] == '-';
      r
    else NatToDecimal(i)
  }

  /** The JavaScript numbers the core handles: integers, taken as unbounded
      (exact only while they stay within 2^53), and the NaN that `parseInt`
      returns when there is no number to read. */
  datatype Num = Int(value: int) | NaN

  function NumToString(n: Num): string {
    match n
    case Int(i) => IntToString(i)
    case NaN => "NaN"
  }

  /** The longest prefix of `s` made of decimal digits. */
  function LeadingDigits(s: string): (r: string)
    ensures |r| <= |s| && r == s[..|r|] && AllDigits(r)
    ensures |r| < |s| ==> !IsDigit(s[|r|])
  {
    if s != [] && IsDigit(s[0]) then [s[0]] + LeadingDigits(s[1..]) else []
  }

  predicate NoDigit(s: string) {
    forall k :: 0 <= k < |s| ==> !IsDigit(s[k])
  }

  /** The digits at the start of `body` as a number; NaN when there are none. */
  function ParseDigits(body: string): Num {
    var ds := LeadingDigits(body);
    if ds == [] then NaN else Int(DecimalValue(ds))
  }

  /** An optional sign, then the digits. */
  function ParseSigned(t: string): Num {
    if t != [] && t[0] == '-' then
      match ParseDigits(t[1..])
      case NaN => NaN
      case Int(v) => Int(-v)
    else if t != [] && t[0] == '+' then ParseDigits(t[1..])
    else ParseDigits(t)
  }

  /** `parseInt(s, 10)`: skip leading white space, read an optional sign and then
      as many decimal digits as follow; NaN when there is no digit there. */
  function ParseInt(s: string): Num {
    ParseSigned(TrimStart(s))
  }

  /** A string with no decimal digit in it parses to NaN. */
  lemma ParseIntNoDigit(s: string)
    requires NoDigit(s)
    ensures ParseInt(s) == NaN
  {
    var t := TrimStart(s);
    if t != [] {
      assert t[0] == s[|s| - |t|];
      if |t| > 1 {
        assert t[1] == s[|s| - |t| + 1];
      }
    }
  }

  lemma {:induction false} LeadingDigitsStops(ds: string, rest: string)
    requires AllDigits(ds)
    requires rest != [] ==> !IsDigit(rest[0])
    ensures LeadingDigits(ds + rest) == ds
  {
    if ds != [] {
      assert (ds + rest)[1..] == ds[1..] + rest;
      LeadingDigitsStops(ds[1..], rest);
    }
  }

  /** Digits followed by a non-digit are read as their decimal value. */
  lemma ParseDigitsStops(ds: string, rest: string)
    requires ds != [] && AllDigits(ds)
    requires rest != [] ==> !IsDigit(rest[0])
    ensures ParseDigits(ds + rest) == Int(DecimalValue(ds))
  {
    LeadingDigitsStops(ds, rest);
  }

  /** Nothing to skip when the string starts with something other than white space. */
  lemma ParseIntNoSpace(t: string)
    requires t != [] && !IsJsSpace(t[0])
    ensures ParseInt(t) == ParseSigned(t)
  {
  }

  lemma ParseIntDigits(ds: string, rest: string)
    requires ds != [] && AllDigits(ds)
    requires rest != [] ==> !IsDigit(rest[0])
    ensures ParseInt(ds + rest) == Int(DecimalValue(ds))
  {
    var t := ds + rest;
    assert t[0] == ds[0];
    ParseIntNoSpace(t);
    ParseDigitsStops(ds, rest);
  }

  /** A leading minus sign negates what the digits after it say. */
  lemma ParseIntMinus(body: string, v: int)
    requires ParseDigits(body) == Int(v)
    ensures ParseInt("-" + body) == Int(-v)
  {
    var t := "-" + body;
    assert t[0] == '-' && t[1..] == body;
    ParseIntNoSpace(t);
  }

  /** Reading back a printed integer, followed by anything that does not start
      with a digit, gives the integer: `parseInt("4000abc") == 4000`. */
  lemma ParseIntAfterPrint(i: int, rest: string)
    requires rest != [] ==> !IsDigit(rest[0])
    ensures ParseInt(IntToString(i) + rest) == Int(i)
  {
    if i < 0 {
      var ds := NatToDecimal(-i);
      DecimalRoundTrip(-i);
      assert IntToString(i) + rest == "-" + (ds + rest);
      ParseDigitsStops(ds, rest);
      ParseIntMinus(ds + rest, -i);
    } else {
      DecimalRoundTrip(i);
      ParseIntDigits(NatToDecimal(i), rest);
    }
  }

  /** `parseInt(String(i), 10) == i`, for the integers whose printed form is
      plain decimal (below 10^21 and exact, in JavaScript). */
  lemma ParseIntRoundTrip(i: int)
    ensures ParseInt(IntToString(i)) == Int(i)
  {
    ParseIntAfterPrint(i, []);
    assert IntToString(i) + [] == IntToString(i);
  }

  // ---- searching and replacing ----

  predicate OccursAt(s: string, pat: string, i: nat) {
    i + |pat| <= |s| && s[i..i + |pat|] == pat
  }

  function IndexOfFrom(s: string, pat: string, from: nat): (r: Option<nat>)
    requires from <= |s|
    ensures r.Some? ==> from <= r.value && OccursAt(s, pat, r.value)
    ensures r.Some? ==> forall j :: from <= j < r.value ==> !OccursAt(s, pat, j)
    ensures r.None? ==> forall j :: from <= j ==> !OccursAt(s, pat, j)
    decreases |s| - from
  {
    if OccursAt(s, pat, from) then Some(from)
    else if from == |s| then None
    else IndexOfFrom(s, pat, from + 1)
  }

  /** `indexOf`: the position of the first occurrence of `pat` in `s`. */
  function IndexOf(s: string, pat: string): (r: Option<nat>)
    ensures r.Some? ==> OccursAt(s, pat, r.value)
    ensures r.Some? ==> forall j :: 0 <= j < r.value ==> !OccursAt(s, pat, j)
    ensures r.None? <==> forall j :: 0 <= j ==> !OccursAt(s, pat, j)
  {
    IndexOfFrom(s, pat, 0)
  }

  /** `includes`: `pat` occurs somewhere in `s`. */
  predicate Includes(s: string, pat: string) {
    IndexOf(s, pat).Some?
  }

  lemma IncludesAt(s: string, pat: string, i: nat)
    requires OccursAt(s, pat, i)
    ensures Includes(s, pat)
  {
  }

  /** `s.replace(pat, rep)` with a string pattern: only the FIRST occurrence of
      `pat` is replaced, wherever it is; without one the string is unchanged. */
  function ReplaceFirst(s: string, pat: string, rep: string): string {
    match IndexOf(s, pat)
    case None => s
    case Some(i) => s[..i] + rep + s[i + |pat|..]
  }

  // ---- paths ----

  /** `path.join(dir, name)` for a single plain file or directory name. */
  function PathJoin(dir: string, name: string): (r: string)
    ensures |r| >= |name| && r[|r| - |name|..] == name
    ensures dir != "" ==> |r| >= |dir| + |name| && r[..|dir|] == dir
  {
    if dir == "" then name
    else if dir[|dir| - 1] == '/' then dir + name
    else dir + "/" + name
  }

  /** Joining onto the same directory tells names apart. */
  lemma PathJoinInjective(dir: string, a: string, b: string)
    ensures PathJoin(dir, a) == PathJoin(dir, b) ==> a == b
  {
    if dir != "" && PathJoin(dir, a) == PathJoin(dir, b) {
      var k := if dir[|dir| - 1] == '/' then |dir| else |dir| + 1;
      assert PathJoin(dir, a)[k..] == a;
      assert PathJoin(dir, b)[k..] == b;
    }
  }
}
