/**
 * The operations on Python byte strings that screen_away.py relies on,
 * over `string`: `endswith`, `split`, `rsplit(sep, n)[0]` and the
 * conversion `int(s)`.  The script calls neither `join`, `count` nor
 * `str()`: `Join`, `Count` and `IntToString` are here only to state the
 * properties of the others.
 */
module PyStr {
  import opened Wrappers

  /** `s.endswith(suffix)`. */
  predicate EndsWith(s: string, suffix: string) {
    |suffix| <= |s| && s[|s| - |suffix|..] == suffix
  }

  /** The number of occurrences of `c` in `s` (Python's `s.count(c)`), used to state `Split` and `RSplitFirst`. */
  function Count(s: string, c: char): nat {
    if s == [] then 0 else Count(s[..|s| - 1], c) + (if s[|s| - 1] == c then 1 else 0)
  }

  lemma {:induction false} CountAppend(a: string, b: string, c: char)
    ensures Count(a + b, c) == Count(a, c) + Count(b, c)
    decreases |b|
  {
    if b != [] {
      assert (a + b)[..|a + b| - 1] == a + b[..|b| - 1];
      CountAppend(a, b[..|b| - 1], c);
    } else {
      assert a + b == a;
    }
  }

  lemma {:induction false} CountAbsent(s: string, c: char)
    requires c !in s
    ensures Count(s, c) == 0
  {
    if s != [] {
      CountAbsent(s[..|s| - 1], c);
    }
  }

  // ---------------------------------------------------------------- split / join

  /** `s.find(c)`, as an option: the index of the first `c` in `s`. */
  function FirstIndex(s: string, c: char): (r: Option<nat>)
    ensures r.Some? ==> r.value < |s| && s[r.value] == c && c !in s[..r.value]
    ensures r.None? ==> c !in s
  {
    if s == [] then None
    else if s[0] == c then Some(0)
    else
      var r := FirstIndex(s[1..], c);
      assert s == [s[0]] + s[1..];
      if r.Some? then
        assert s[..r.value + 1] == [s[0]] + s[1..][..r.value];
        Some(r.value + 1)
      else None
  }

  /** `sep.join(parts)`, used to state the round trip of `Split`. */
  function Join(parts: seq<string>, sep: char): string {
    if |parts| == 0 then ""
    else if |parts| == 1 then parts[0]
    else parts[0] + [sep] + Join(parts[1..], sep)
  }

  /**
   * `s.split(sep)` for a one-character separator: one field more than there
   * are separators, none of them holding a separator, and joined back they
   * give `s` again.  An empty `s` gives `[""]`.
   */
  function Split(s: string, sep: char): (parts: seq<string>)
    ensures |parts| == Count(s, sep) + 1
    ensures forall i :: 0 <= i < |parts| ==> sep !in parts[i]
    ensures Join(parts, sep) == s
    decreases |s|
  {
    match FirstIndex(s, sep)
    case None =>
      CountAbsent(s, sep);
      [s]
    case Some(i) =>
      var rest := Split(s[i + 1..], sep);
      assert s == s[..i] + [sep] + s[i + 1..];
      CountAppend(s[..i] + [sep], s[i + 1..], sep);
      CountAppend(s[..i], [sep], sep);
      assert [sep][..0] == [];
      CountAbsent(s[..i], sep);
      assert ([s[..i]] + rest)[1..] == rest;
      [s[..i]] + rest
  }

  /** Where the first separator of `s` is, there `s` is split. */
  lemma SplitAtFirst(s: string, sep: char, n: nat)
    requires n < |s| && s[n] == sep && sep !in s[..n]
    ensures Split(s, sep) == [s[..n]] + Split(s[n + 1..], sep)
  {
  }

  /** The other half of the round trip: splitting a join of separator-free fields gives the fields back. */
  lemma {:induction false} SplitJoin(parts: seq<string>, sep: char)
    requires |parts| >= 1
    requires forall i :: 0 <= i < |parts| ==> sep !in parts[i]
    ensures Split(Join(parts, sep), sep) == parts
  {
    if |parts| == 1 {
      assert FirstIndex(parts[0], sep).None?;
    } else {
      var first, rest := parts[0], Join(parts[1..], sep);
      var s := first + [sep] + rest;
      assert s[..|first|] == first && s[|first| + 1..] == rest;
      SplitAtFirst(s, sep, |first|);
      SplitJoin(parts[1..], sep);
      assert parts == [first] + parts[1..];
    }
  }

  // ---------------------------------------------------------------- rsplit

  /** `s.rfind(c)`, as an option: the index of the last `c` in `s`. */
  function LastIndex(s: string, c: char): (r: Option<nat>)
    ensures r.Some? ==> r.value < |s| && s[r.value] == c && c !in s[r.value + 1..]
    ensures r.None? ==> c !in s
  {
    if s == [] then None
    else if s[|s| - 1] == c then Some(|s| - 1)
    else
      var r := LastIndex(s[..|s| - 1], c);
      assert s == s[..|s| - 1] + [s[|s| - 1]];
      if r.Some? then
        assert s[r.value + 1..] == s[..|s| - 1][r.value + 1..] + [s[|s| - 1]];
        r
      else r
  }

  /**
   * `s.rsplit(sep, n)[0]`: what is left of `s` once at most `n` fields are
   * split off its right end.  The result is a prefix of `s` that ends where
   * `s` ends or just before a separator, and it holds `n` separators fewer
   * than `s` (none when `s` has no more than `n`).  RSplitFirstUnique shows
   * that these three facts determine it.
   */
  function RSplitFirst(s: string, sep: char, n: nat): (r: string)
    ensures |r| <= |s| && r == s[..|r|]
    ensures |r| == |s| || s[|r|] == sep
    ensures Count(r, sep) == if Count(s, sep) >= n then Count(s, sep) - n else 0
    decreases n
  {
    if n == 0 then s
    else match LastIndex(s, sep)
      case None =>
        CountAbsent(s, sep);
        s
      case Some(i) =>
        assert s == s[..i] + [sep] + s[i + 1..];
        CountAppend(s[..i] + [sep], s[i + 1..], sep);
        CountAppend(s[..i], [sep], sep);
        assert [sep][..0] == [];
        CountAbsent(s[i + 1..], sep);
        RSplitFirst(s[..i], sep, n - 1)
  }

  /** Among the prefixes of `s` that are cut at a separator, a longer one holds more separators. */
  lemma CutCountIncreases(s: string, sep: char, short: nat, long: nat)
    requires short < long <= |s|
    requires s[short] == sep
    ensures Count(s[..short], sep) < Count(s[..long], sep)
  {
    assert s[..long] == s[..short] + ([sep] + s[short + 1..long]);
    CountAppend(s[..short], [sep] + s[short + 1..long], sep);
    CountAppend([sep], s[short + 1..long], sep);
    assert [sep][..0] == [];
  }

  lemma RSplitFirstUnique(s: string, sep: char, n: nat, p: string)
    requires |p| <= |s| && p == s[..|p|]
    requires |p| == |s| || s[|p|] == sep
    requires Count(p, sep) == if Count(s, sep) >= n then Count(s, sep) - n else 0
    ensures p == RSplitFirst(s, sep, n)
  {
    var r := RSplitFirst(s, sep, n);
    assert s[..|s|] == s;
    if |p| < |r| {
      CutCountIncreases(s, sep, |p|, |r|);
    } else if |r| < |p| {
      CutCountIncreases(s, sep, |r|, |p|);
    }
  }

  // ---------------------------------------------------------------- int()

  /** The characters Python's `isspace` accepts in a byte string. */
  predicate IsSpace(c: char) {
    c == ' ' || c == '\t' || c == '\n' || c == '\r' || c == '\U{000B}' || c == '\U{000C}'
  }

  /** `s` without its leading white space. */
  function TrimLeft(s: string): (r: string)
    ensures |r| <= |s| && r == s[|s| - |r|..]
    ensures forall i :: 0 <= i < |s| - |r| ==> IsSpace(s[i])
    ensures r == [] || !IsSpace(r[0])
  {
    if s != [] && IsSpace(s[0]) then TrimLeft(s[1..]) else s
  }

  /** `s` without its trailing white space. */
  function TrimRight(s: string): (r: string)
    ensures |r| <= |s| && r == s[..|r|]
    ensures forall i :: |r| <= i < |s| ==> IsSpace(s[i])
    ensures r == [] || !IsSpace(r[|r| - 1])
  {
    if s != [] && IsSpace(s[|s| - 1]) then TrimRight(s[..|s| - 1]) else s
  }

  /** `s.strip()`. */
  function Strip(s: string): string {
    TrimRight(TrimLeft(s))
  }

  predicate IsDigit(c: char) {
    '0' as int <= c as int <= '9' as int
  }

  predicate IsDigits(s: string) {
    |s| > 0 && forall i :: 0 <= i < |s| ==> IsDigit(s[i])
  }

  /** The value of a string of decimal digits, read most significant first. */
  function DigitsValue(s: string): nat
    requires forall i :: 0 <= i < |s| ==> IsDigit(s[i])
  {
    if s == [] then 0
    else
      assert IsDigit(s[|s| - 1]);
      DigitsValue(s[..|s| - 1]) * 10 + (s[|s| - 1] as int - '0' as int)
  }

  /**
   * `int(s)` in base 10: white space around an optional sign and at least
   * one decimal digit.  Anything else raises `ValueError`, which is `None`
   * here.
   */
  function ParseInt(s: string): Option<int> {
    var t := Strip(s);
    if |t| > 0 && (t[0] == '+' || t[0] == '-') then
      if IsDigits(t[1..]) then
        var v: int := DigitsValue(t[1..]);
        Some(if t[0] == '-' then -v else v)
      else None
    else if IsDigits(t) then Some(DigitsValue(t))
    else None
  }

  /** `str(n)` for a natural number. */
  function NatToString(n: nat): (r: string)
    ensures IsDigits(r) && DigitsValue(r) == n
  {
    var d := ('0' as int + n % 10) as char;
    if n < 10 then
      assert [d][..0] == [];
      [d]
    else
      var r := NatToString(n / 10) + [d];
      assert r[..|r| - 1] == NatToString(n / 10);
      r
  }

  /** `str(n)`. */
  function IntToString(n: int): string {
    if n < 0 then "-" + NatToString(-n) else NatToString(n)
  }

  /** `int(str(n)) == n`. */
  lemma IntToStringRoundTrip(n: int)
    ensures ParseInt(IntToString(n)) == Some(n)
  {
    var s := IntToString(n);
    assert Strip(s) == s by {
      assert !IsSpace(s[0]);
      assert TrimLeft(s) == s;
      assert !IsSpace(s[|s| - 1]);
    }
    if n < 0 {
      assert s[1..] == NatToString(-n);
    }
  }
}
