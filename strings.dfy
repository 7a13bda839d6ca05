/**
 * The JavaScript and SQL string operations the application relies on:
 * `trim`, `LOWER`, `LIKE '%x%'`, `join`, `split(' ')`, `parseInt`,
 * number-to-text in template strings, and the ordering of `ORDER BY` on text.
 */
module Strings {
  import opened Wrappers

  /** JavaScript's WhiteSpace and LineTerminator characters, which `trim`, `parseInt` and `\s` skip. */
  predicate IsSpace(c: char) {
    var n := c as int;
    (9 <= n <= 13) || n == 32 || n == 0xA0 || n == 0x1680 || (0x2000 <= n <= 0x200A)
    || n == 0x2028 || n == 0x2029 || n == 0x202F || n == 0x205F || n == 0x3000 || n == 0xFEFF
  }

  predicate IsDigit(c: char) { '0' <= c <= '9' }

  predicate IsAsciiLower(c: char) { 'a' <= c <= 'z' }

  predicate IsAsciiUpper(c: char) { 'A' <= c <= 'Z' }

  predicate IsAsciiLetter(c: char) { IsAsciiLower(c) || IsAsciiUpper(c) }

  /** `s.trimStart()`: drops the leading white space and nothing else. */
  function TrimStart(s: string): (r: string)
    ensures |r| <= |s| && r == s[|s| - |r|..]
    ensures r != [] ==> !IsSpace(r[0])
    ensures forall i :: 0 <= i < |s| - |r| ==> IsSpace(s[i])
    decreases |s|
  {
    if s != [] && IsSpace(s[0]) then TrimStart(s[1..]) else s
  }

  /** `s.trimEnd()`: drops the trailing white space and nothing else. */
  function TrimEnd(s: string): (r: string)
    ensures |r| <= |s| && r == s[..|r|]
    ensures r != [] ==> !IsSpace(r[|r| - 1])
    ensures forall i :: |r| <= i < |s| ==> IsSpace(s[i])
    decreases |s|
  {
    if s != [] && IsSpace(s[|s| - 1]) then TrimEnd(s[..|s| - 1]) else s
  }

  /** `s.trim()`. */
  function Trim(s: string): string {
    TrimEnd(TrimStart(s))
  }

  /** Trimming twice is trimming once: a category the controller trimmed is left alone by the model's own trim. */
  lemma TrimIdempotent(s: string)
    ensures Trim(Trim(s)) == Trim(s)
  {
    var t := Trim(s);
    var u := TrimStart(s);
    if t != [] {
      assert t[0] == u[0];
      assert !IsSpace(t[0]);
    }
    assert TrimStart(t) == t;
  }

  /** A trimmed string neither starts nor ends with white space. */
  lemma TrimmedEnds(s: string)
    ensures Trim(s) != [] ==> !IsSpace(Trim(s)[0]) && !IsSpace(Trim(s)[|Trim(s)| - 1])
  {
    var u := TrimStart(s);
    var t := TrimEnd(u);
    if t != [] {
      assert t[0] == u[0];
    }
  }

  /** No white space at either end: what `trim` leaves alone. */
  predicate Bare(s: string) {
    s == [] || (!IsSpace(s[0]) && !IsSpace(s[|s| - 1]))
  }

  /** A bare string is its own trim. */
  lemma BareTrimmed(s: string)
    requires Bare(s)
    ensures Trim(s) == s
  {
    assert TrimStart(s) == s;
  }

  /** Whatever `trim` returns is bare. */
  lemma TrimmedBare(s: string)
    ensures Bare(Trim(s))
  {
    TrimmedEnds(s);
  }

  /** `LOWER`, on the ASCII letters. */
  function LowerChar(c: char): char {
    if 'A' <= c <= 'Z' then (c as int + 32) as char else c
  }

  function Lower(s: string): (r: string)
    ensures |r| == |s|
    ensures forall i :: 0 <= i < |s| ==> r[i] == LowerChar(s[i])
  {
    seq(|s|, i requires 0 <= i < |s| => LowerChar(s[i]))
  }

  predicate StartsWith(s: string, prefix: string) {
    |prefix| <= |s| && s[..|prefix|] == prefix
  }

  /** `part` occurs in `text` at position `i`. */
  predicate OccursAt(text: string, part: string, i: int) {
    0 <= i && i + |part| <= |text| && text[i..i + |part|] == part
  }

  /** `text LIKE '%' || part || '%'` for a `part` free of wildcards. */
  predicate Contains(text: string, part: string)
    decreases |text|
  {
    StartsWith(text, part) || (text != [] && Contains(text[1..], part))
  }

  /** `Contains` is the substring relation. */
  lemma {:induction false} ContainsIff(text: string, part: string)
    ensures Contains(text, part) <==> exists i :: OccursAt(text, part, i)
    decreases |text|
  {
    if StartsWith(text, part) {
      assert OccursAt(text, part, 0);
    } else if text == [] {
      forall i | OccursAt(text, part, i) ensures false {
      }
    } else {
      ContainsIff(text[1..], part);
      if Contains(text[1..], part) {
        var i :| OccursAt(text[1..], part, i);
        assert text[i + 1..i + 1 + |part|] == text[1..][i..i + |part|];
        assert OccursAt(text, part, i + 1);
      }
      forall i | OccursAt(text, part, i) ensures Contains(text[1..], part) {
        assert i != 0;
        assert text[1..][i - 1..i - 1 + |part|] == text[i..i + |part|];
        assert OccursAt(text[1..], part, i - 1);
      }
    }
  }

  /** `parts.join(sep)`. */
  function Join(parts: seq<string>, sep: string): string
    decreases |parts|
  {
    if |parts| == 0 then "" else if |parts| == 1 then parts[0] else parts[0] + sep + Join(parts[1..], sep)
  }

  /** `s.split(c)` for a one-character separator: the pieces between the separators, empty ones included. */
  function SplitOn(s: string, c: char): (r: seq<string>)
    ensures |r| >= 1
    ensures |r| == CountChar(s, c) + 1
    decreases |s|
  {
    if s == [] then [""]
    else if s[0] == c then [""] + SplitOn(s[1..], c)
    else
      var rest := SplitOn(s[1..], c);
      [[s[0]] + rest[0]] + rest[1..]
  }

  /** The longest prefix of `s` without `c`. */
  function TakeUntil(s: string, c: char): (r: string)
    ensures StartsWith(s, r) && c !in r
    ensures |r| < |s| ==> s[|r|] == c
    decreases |s|
  {
    if s == [] || s[0] == c then "" else [s[0]] + TakeUntil(s[1..], c)
  }

  /** The first piece of a split is the text before the first separator. */
  lemma {:induction false} SplitFirst(s: string, c: char)
    ensures SplitOn(s, c)[0] == TakeUntil(s, c)
    decreases |s|
  {
    if s != [] && s[0] != c {
      SplitFirst(s[1..], c);
    }
  }

  /** Splitting `p + [c] + t` where `p` has no separator yields `p` and then the pieces of `t`. */
  lemma {:induction false} SplitAfterWord(p: string, c: char, t: string)
    requires c !in p
    ensures SplitOn(p + [c] + t, c) == [p] + SplitOn(t, c)
    decreases |p|
  {
    var s := p + [c] + t;
    if p == [] {
      assert s[0] == c && s[1..] == t;
    } else {
      assert s[0] == p[0] && s[0] != c;
      assert s[1..] == p[1..] + [c] + t;
      SplitAfterWord(p[1..], c, t);
      assert [p[0]] + p[1..] == p;
    }
  }

  /** The number of occurrences of `c` in `s`. */
  function CountChar(s: string, c: char): nat
    decreases |s|
  {
    if s == [] then 0 else (if s[0] == c then 1 else 0) + CountChar(s[1..], c)
  }

  lemma {:induction false} CountCharAppend(a: string, b: string, c: char)
    ensures CountChar(a + b, c) == CountChar(a, c) + CountChar(b, c)
    decreases |a|
  {
    if a == [] {
      assert a + b == b;
    } else {
      assert (a + b)[1..] == a[1..] + b;
      CountCharAppend(a[1..], b, c);
    }
  }

  lemma {:induction false} CountCharAbsent(s: string, c: char)
    requires c !in s
    ensures CountChar(s, c) == 0
    decreases |s|
  {
    if s != [] {
      assert c !in s[1..] by {
        forall k | 0 <= k < |s[1..]| ensures s[1..][k] != c {
          assert s[1..][k] == s[k + 1];
        }
      }
      CountCharAbsent(s[1..], c);
    }
  }

  lemma {:induction false} CountCharPresent(s: string, c: char)
    requires c in s
    ensures CountChar(s, c) >= 1
    decreases |s|
  {
    if s[0] != c {
      assert c in s[1..] by {
        var k :| 0 <= k < |s| && s[k] == c;
        assert s[1..][k - 1] == c;
      }
      CountCharPresent(s[1..], c);
    }
  }

  function DigitChar(d: nat): (c: char)
    requires d < 10
    ensures IsDigit(c)
  {
    (48 + d) as char
  }

  /** The decimal text of a number, as a template string renders it. */
  function NatToString(n: nat): (r: string)
    ensures |r| >= 1
    ensures forall i :: 0 <= i < |r| ==> IsDigit(r[i])
    decreases n
  {
    if n < 10 then [DigitChar(n)] else NatToString(n / 10) + [DigitChar(n % 10)]
  }

  /** The value of a digit in base 10 or 16, as `parseInt` reads it. */
  function DigitValue(c: char, radix: nat): (r: Option<nat>)
    ensures r.Some? ==> r.value < radix
  {
    if '0' <= c <= '9' && (c as int - 48) < radix then Some(c as int - 48)
    else if radix == 16 && 'a' <= c <= 'f' then Some(c as int - 87)
    else if radix == 16 && 'A' <= c <= 'F' then Some(c as int - 55)
    else None
  }

  /** The longest prefix of `s` made of digits of the radix. */
  function LeadingDigits(s: string, radix: nat): (r: string)
    ensures StartsWith(s, r)
    ensures forall i :: 0 <= i < |r| ==> DigitValue(r[i], radix).Some?
    ensures |r| < |s| ==> DigitValue(s[|r|], radix).None?
    decreases |s|
  {
    if s == [] || DigitValue(s[0], radix).None? then "" else [s[0]] + LeadingDigits(s[1..], radix)
  }

  /** The value of a run of digits, most significant first; it is only applied to runs of digits of the radix. */
  function DigitsValue(ds: string, radix: nat): nat
    decreases |ds|
  {
    if ds == [] then 0
    else
      var last := match DigitValue(ds[|ds| - 1], radix) case Some(d) => d case None => 0;
      DigitsValue(ds[..|ds| - 1], radix) * radix + last
  }

  /** The sign `parseInt` reads at the start of `t`. */
  function Sign(t: string): int {
    if t != [] && t[0] == '-' then -1 else 1
  }

  /** `t` without its leading sign. */
  function Unsigned(t: string): string {
    if t != [] && (t[0] == '-' || t[0] == '+') then t[1..] else t
  }

  predicate HexPrefix(u: string) {
    |u| >= 2 && u[0] == '0' && (u[1] == 'x' || u[1] == 'X')
  }

  function RadixOf(u: string): nat {
    if HexPrefix(u) then 16 else 10
  }

  function DigitsPart(u: string): string {
    if HexPrefix(u) then u[2..] else u
  }

  /**
   * `parseInt(s)` with no radix: leading white space and one sign are skipped, `0x`/`0X` selects
   * base 16, and the longest run of digits that follows is read; with no digits the result is NaN (`None`).
   */
  function ParseInt(s: string): Option<int> {
    var t := TrimStart(s);
    var u := Unsigned(t);
    var ds := LeadingDigits(DigitsPart(u), RadixOf(u));
    if ds == [] then None else Some(Sign(t) * DigitsValue(ds, RadixOf(u)))
  }

  lemma {:induction false} DigitsOfNat(n: nat)
    ensures LeadingDigits(NatToString(n), 10) == NatToString(n)
    ensures DigitsValue(NatToString(n), 10) == n
    decreases n
  {
    var s := NatToString(n);
    LeadingDigitsAll(s, 10);
    if n >= 10 {
      DigitsOfNat(n / 10);
      assert s[..|s| - 1] == NatToString(n / 10);
    }
  }

  lemma {:induction false} LeadingDigitsAll(s: string, radix: nat)
    requires forall i :: 0 <= i < |s| ==> DigitValue(s[i], radix).Some?
    ensures LeadingDigits(s, radix) == s
    decreases |s|
  {
    if s != [] {
      LeadingDigitsAll(s[1..], radix);
    }
  }

  /** Text that starts with two decimal digits (or is one) has no white space, sign or `0x` for `parseInt` to skip. */
  lemma PlainDigits(s: string)
    requires |s| >= 1 && IsDigit(s[0]) && (|s| >= 2 ==> IsDigit(s[1]))
    ensures TrimStart(s) == s && Unsigned(s) == s && Sign(s) == 1
    ensures RadixOf(s) == 10 && DigitsPart(s) == s
  {
    assert !IsSpace(s[0]);
    assert !HexPrefix(s);
  }

  /** `parseInt` of a run of decimal digits is their value. */
  lemma ParseIntDigits(s: string)
    requires |s| >= 1 && forall i :: 0 <= i < |s| ==> IsDigit(s[i]) && DigitValue(s[i], 10).Some?
    ensures ParseInt(s) == Some(DigitsValue(s, 10))
  {
    assert IsDigit(s[0]);
    assert |s| >= 2 ==> IsDigit(s[1]);
    PlainDigits(s);
    LeadingDigitsAll(s, 10);
  }

  /** `parseInt` reads back the text a number renders to. */
  lemma ParseIntOfNat(n: nat)
    ensures ParseInt(NatToString(n)) == Some(n)
  {
    var s := NatToString(n);
    assert forall i :: 0 <= i < |s| ==> DigitValue(s[i], 10).Some?;
    ParseIntDigits(s);
    DigitsOfNat(n);
  }

  /** The order of `ORDER BY` on text, taken as code-point order. */
  predicate Less(a: string, b: string)
    decreases |a|
  {
    if a == [] then b != []
    else b != [] && (a[0] < b[0] || (a[0] == b[0] && Less(a[1..], b[1..])))
  }

  lemma {:induction false} LessIrreflexive(a: string)
    ensures !Less(a, a)
    decreases |a|
  {
    if a != [] {
      LessIrreflexive(a[1..]);
    }
  }

  lemma {:induction false} LessTransitive(a: string, b: string, c: string)
    requires Less(a, b) && Less(b, c)
    ensures Less(a, c)
    decreases |a|
  {
    if a != [] && a[0] == b[0] && b[0] == c[0] {
      LessTransitive(a[1..], b[1..], c[1..]);
    }
  }

  lemma {:induction false} LessTotal(a: string, b: string)
    requires a != b
    ensures Less(a, b) || Less(b, a)
    decreases |a|
  {
    if a != [] && b != [] && a[0] == b[0] {
      assert a == [a[0]] + a[1..] && b == [b[0]] + b[1..];
      LessTotal(a[1..], b[1..]);
    }
  }

  predicate StrictlySorted(s: seq<string>) {
    forall i, j :: 0 <= i < j < |s| ==> Less(s[i], s[j])
  }

  /** Inserts `x` into a strictly sorted list unless it is already there. */
  function InsertUnique(x: string, s: seq<string>): (r: seq<string>)
    decreases |s|
  {
    if s == [] then [x]
    else if x == s[0] then s
    else if Less(x, s[0]) then [x] + s
    else [s[0]] + InsertUnique(x, s[1..])
  }

  lemma {:induction false} InsertUniqueCorrect(x: string, s: seq<string>)
    requires StrictlySorted(s)
    ensures StrictlySorted(InsertUnique(x, s))
    ensures forall y :: y in InsertUnique(x, s) <==> y == x || y in s
    decreases |s|
  {
    if s == [] {
    } else if x == s[0] {
    } else if Less(x, s[0]) {
      var r := [x] + s;
      forall i, j | 0 <= i < j < |r| ensures Less(r[i], r[j]) {
        if i == 0 && j > 1 {
          LessTransitive(x, s[0], s[j - 1]);
        }
      }
    } else {
      LessTotal(x, s[0]);
      var t := InsertUnique(x, s[1..]);
      assert StrictlySorted(s[1..]) by {
        forall i, j | 0 <= i < j < |s[1..]| ensures Less(s[1..][i], s[1..][j]) {
          assert s[1..][i] == s[i + 1] && s[1..][j] == s[j + 1];
        }
      }
      InsertUniqueCorrect(x, s[1..]);
      var r := [s[0]] + t;
      forall i, j | 0 <= i < j < |r| ensures Less(r[i], r[j]) {
        if i == 0 {
          assert r[j] in t;
          assert r[j] == x || r[j] in s[1..];
          if r[j] != x {
            var k :| 0 <= k < |s[1..]| && s[1..][k] == r[j];
            assert s[k + 1] == r[j];
          }
        } else {
          assert r[i] == t[i - 1] && r[j] == t[j - 1];
        }
      }
    }
  }

  /** The distinct elements of `s`, in ascending order (`SELECT DISTINCT … ORDER BY`). */
  function SortedDistinct(s: seq<string>): seq<string>
    decreases |s|
  {
    if s == [] then [] else InsertUnique(s[|s| - 1], SortedDistinct(s[..|s| - 1]))
  }

  lemma {:induction false} SortedDistinctCorrect(s: seq<string>)
    ensures StrictlySorted(SortedDistinct(s))
    ensures forall y :: y in SortedDistinct(s) <==> y in s
    decreases |s|
  {
    if s != [] {
      var init := s[..|s| - 1];
      SortedDistinctCorrect(init);
      InsertUniqueCorrect(s[|s| - 1], SortedDistinct(init));
      assert s == init + [s[|s| - 1]];
      forall y | y in s ensures y == s[|s| - 1] || y in init {
      }
    }
  }

  /** A strictly sorted list has no duplicates. */
  lemma StrictlySortedDistinct(s: seq<string>)
    requires StrictlySorted(s)
    ensures forall i, j :: 0 <= i < j < |s| ==> s[i] != s[j]
  {
    forall i, j | 0 <= i < j < |s| ensures s[i] != s[j] {
      LessIrreflexive(s[i]);
    }
  }
}
