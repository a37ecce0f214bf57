/**
 * The Python string operations the system relies on (`str.split`, `str.join`,
 * `str.strip`, `str.replace`, `str.startswith`, `str.upper`, `int()`, `str()` of
 * an integer and the ordering of `<=` on strings), with the facts about them
 * that the rest of the model uses.
 */
module Strings {
  import opened Wrappers

  predicate StartsWith(s: string, prefix: string) {
    |prefix| <= |s| && s[..|prefix|] == prefix
  }

  predicate EndsWith(s: string, suffix: string) {
    |suffix| <= |s| && s[|s| - |suffix|..] == suffix
  }

  /** `t in s` for strings: `t` occurs somewhere in `s`. */
  predicate Contains(s: string, t: string)
    decreases |s|
  {
    StartsWith(s, t) || (s != [] && Contains(s[1..], t))
  }

  /** `s.replace(a, b)` for one-character `a` and `b`. */
  function ReplaceChar(s: string, a: char, b: char): (r: string)
    ensures |r| == |s|
    ensures forall i :: 0 <= i < |s| ==> r[i] == (if s[i] == a then b else s[i])
  {
    if s == [] then [] else [if s[0] == a then b else s[0]] + ReplaceChar(s[1..], a, b)
  }

  function StripLeft(s: string, c: char): (r: string)
    ensures |r| <= |s| && r == s[|s| - |r|..]
    ensures r == [] || r[0] != c
    ensures forall i :: 0 <= i < |s| - |r| ==> s[i] == c
  {
    if s != [] && s[0] == c then StripLeft(s[1..], c) else s
  }

  function StripRight(s: string, c: char): (r: string)
    ensures |r| <= |s| && r == s[..|r|]
    ensures r == [] || r[|r| - 1] != c
    ensures forall i :: |r| <= i < |s| ==> s[i] == c
  {
    if s != [] && s[|s| - 1] == c then StripRight(s[..|s| - 1], c) else s
  }

  /** Every character of a slice is a character of the whole string. */
  lemma SliceMembers(s: string, a: nat, b: nat)
    requires a <= b <= |s|
    ensures forall ch :: ch in s[a..b] ==> ch in s
  {
    forall ch | ch in s[a..b]
      ensures ch in s
    {
      var i :| 0 <= i < b - a && s[a..b][i] == ch;
      assert s[a + i] == ch;
    }
  }

  /** `s.strip(c)`: every leading and trailing `c` removed. */
  function Strip(s: string, c: char): (r: string)
    ensures r == [] || (r[0] != c && r[|r| - 1] != c)
    ensures forall ch :: ch in r ==> ch in s
  {
    var l := StripLeft(s, c);
    var r := StripRight(l, c);
    assert r != [] ==> r[0] == l[0];
    var k := |s| - |l|;
    assert r == s[k..k + |r|] by {
      assert r == l[..|r|] && l == s[k..];
    }
    SliceMembers(s, k, k + |r|);
    r
  }

  /** A string that `strip(c)` leaves unchanged. */
  lemma StripFixed(s: string, c: char)
    requires s == [] || (s[0] != c && s[|s| - 1] != c)
    ensures Strip(s, c) == s
  {
  }

  /** `s.split(c)`: never empty; `"".split(c) == [""]`. */
  function Split(s: string, c: char): (r: seq<string>)
    ensures |r| >= 1
  {
    if s == [] then [""]
    else if s[0] == c then [""] + Split(s[1..], c)
    else var t := Split(s[1..], c); [[s[0]] + t[0]] + t[1..]
  }

  /** `c.join(parts)`. */
  function Join(parts: seq<string>, c: char): (r: string)
  {
    if parts == [] then ""
    else if |parts| == 1 then parts[0]
    else parts[0] + [c] + Join(parts[1..], c)
  }

  lemma {:induction false} SplitNoSep(s: string, c: char)
    requires c !in s
    ensures Split(s, c) == [s]
  {
    if s != [] {
      assert s[0] != c by { assert s[0] in s; }
      assert c !in s[1..];
      SplitNoSep(s[1..], c);
      assert s == [s[0]] + s[1..];
    }
  }

  /** Splitting at one separator splits each side independently. */
  lemma {:induction false} SplitConcat(a: string, b: string, c: char)
    ensures Split(a + [c] + b, c) == Split(a, c) + Split(b, c)
  {
    if a == [] {
      assert a + [c] + b == [c] + b;
      assert ([c] + b)[1..] == b;
    } else {
      assert (a + [c] + b)[1..] == a[1..] + [c] + b;
      SplitConcat(a[1..], b, c);
    }
  }

  lemma {:induction false} JoinAppend(p: seq<string>, q: seq<string>, c: char)
    requires p != [] && q != []
    ensures Join(p + q, c) == Join(p, c) + [c] + Join(q, c)
  {
    if |p| == 1 {
      assert (p + q)[1..] == q;
    } else {
      assert (p + q)[1..] == p[1..] + q;
      JoinAppend(p[1..], q, c);
    }
  }

  /** `c.join(s.split(c)) == s`. */
  lemma {:induction false} JoinSplit(s: string, c: char)
    ensures Join(Split(s, c), c) == s
  {
    if s == [] {
    } else if s[0] == c {
      JoinSplit(s[1..], c);
      assert [c] + s[1..] == s;
    } else {
      JoinSplit(s[1..], c);
      var t := Split(s[1..], c);
      if |t| == 1 {
      } else {
        assert t == [t[0]] + t[1..];
        assert Join(t, c) == t[0] + [c] + Join(t[1..], c);
      }
    }
  }

  /** The position of the first `c` in `s`. */
  function IndexOf(s: string, c: char): (i: nat)
    requires c in s
    ensures i < |s| && s[i] == c && c !in s[..i]
  {
    if s[0] == c then 0 else 1 + IndexOf(s[1..], c)
  }

  /** The position of the last `c` in `s`. */
  function LastIndexOf(s: string, c: char): (i: nat)
    requires c in s
    ensures i < |s| && s[i] == c && c !in s[i + 1..]
  {
    if s[|s| - 1] == c then |s| - 1
    else
      assert c in s[..|s| - 1] by {
        var k :| 0 <= k < |s| && s[k] == c;
        assert s[..|s| - 1][k] == c;
      }
      LastIndexOf(s[..|s| - 1], c)
  }

  lemma LastIndexOfConcat(a: string, b: string, c: char)
    requires c !in b
    ensures c in a + [c] + b && LastIndexOf(a + [c] + b, c) == |a|
  {
    var s := a + [c] + b;
    assert s[|a|] == c;
    var i := LastIndexOf(s, c);
    assert s[i + 1..] == b[i - |a|..] || i < |a|;
  }

  /** `s.split(c, 1)` when it yields two parts: the text before and after the first `c`. */
  function SplitOnce(s: string, c: char): (r: Option<(string, string)>)
    ensures r.Some? <==> c in s
    ensures r.Some? ==> s == r.value.0 + [c] + r.value.1 && c !in r.value.0
  {
    if c !in s then None
    else
      var i := IndexOf(s, c);
      assert s == s[..i] + [c] + s[i + 1..];
      Some((s[..i], s[i + 1..]))
  }

  /** `s.rsplit(c, 1)` when it yields two parts: the text before and after the last `c`. */
  function RSplitOnce(s: string, c: char): (r: Option<(string, string)>)
    ensures r.Some? <==> c in s
    ensures r.Some? ==> s == r.value.0 + [c] + r.value.1 && c !in r.value.1
  {
    if c !in s then None
    else
      var i := LastIndexOf(s, c);
      assert s == s[..i] + [c] + s[i + 1..];
      Some((s[..i], s[i + 1..]))
  }

  lemma SplitOnceOf(a: string, b: string, c: char)
    requires c !in a
    ensures SplitOnce(a + [c] + b, c) == Some((a, b))
  {
    var s := a + [c] + b;
    IndexOfConcat(a, b, c);
    assert s[..|a|] == a && s[|a| + 1..] == b;
  }

  lemma RSplitOnceOf(a: string, b: string, c: char)
    requires c !in b
    ensures RSplitOnce(a + [c] + b, c) == Some((a, b))
  {
    var s := a + [c] + b;
    LastIndexOfConcat(a, b, c);
    assert s[..|a|] == a && s[|a| + 1..] == b;
  }

  /** `s.split(c, n)`: at most `n` splits, from the left. */
  function SplitN(s: string, c: char, n: nat): (r: seq<string>)
    ensures 1 <= |r| <= n + 1
  {
    if n == 0 || c !in s then [s]
    else var i := IndexOf(s, c); [s[..i]] + SplitN(s[i + 1..], c, n - 1)
  }

  lemma IndexOfConcat(a: string, b: string, c: char)
    requires c !in a
    ensures c in a + [c] + b && IndexOf(a + [c] + b, c) == |a|
  {
    var s := a + [c] + b;
    assert s[|a|] == c;
    var i := IndexOf(s, c);
    assert s[..i] == a[..i] || i > |a|;
  }

  /** Splitting `x + [c] + y` once yields `x` and `y` exactly when `x` holds no `c`. */
  lemma SplitOnceConcat(x: string, y: string, c: char, n: nat)
    requires n >= 1
    ensures c !in x ==> SplitN(x + [c] + y, c, n) == [x] + SplitN(y, c, n - 1)
    ensures c in x ==> SplitN(x + [c] + y, c, n)[0] == x[..IndexOf(x, c)]
  {
    var s := x + [c] + y;
    assert s[|x|] == c;
    if c !in x {
      IndexOfConcat(x, y, c);
      assert s[..|x|] == x;
      assert s[|x| + 1..] == y;
    } else {
      var j := IndexOf(x, c);
      assert s[j] == c;
      var i := IndexOf(s, c);
      assert s[..i] == x[..i] || i > j;
      assert s[..i] == x[..j];
    }
  }

  lemma SplitOnceStep(x: string, y: string, c: char, n: nat, rest: seq<string>)
    requires c !in x && n >= 1 && SplitN(y, c, n - 1) == rest
    ensures SplitN(x + [c] + y, c, n) == [x] + rest
  {
    SplitOnceConcat(x, y, c, n);
  }

  /** Three splits of a string with exactly three separators outside its last field. */
  lemma SplitN3Concat(a: string, b: string, d: string, e: string, c: char)
    requires c !in a && c !in b && c !in d
    ensures SplitN(a + [c] + (b + [c] + (d + [c] + e)), c, 3) == [a, b, d, e]
  {
    var t1 := d + [c] + e;
    var t2 := b + [c] + t1;
    SplitOnceStep(d, e, c, 1, [e]);
    SplitOnceStep(b, t1, c, 2, [d, e]);
    SplitOnceStep(a, t2, c, 3, [b, d, e]);
  }

  function DigitChar(d: nat): (ch: char)
    requires d < 10
    ensures '0' <= ch <= '9'
  {
    "0123456789"[d]
  }

  function DigitValue(ch: char): (d: nat)
    requires '0' <= ch <= '9'
    ensures d < 10
  {
    (ch as int - '0' as int) as nat
  }

  lemma DigitRoundTrip(d: nat)
    requires d < 10
    ensures DigitValue(DigitChar(d)) == d
  {
  }

  /** `str(n)` for a non-negative integer: its decimal digits. */
  function NatToString(n: nat): (s: string)
    ensures |s| >= 1
    ensures forall i :: 0 <= i < |s| ==> '0' <= s[i] <= '9'
  {
    if n < 10 then [DigitChar(n)] else NatToString(n / 10) + [DigitChar(n % 10)]
  }

  predicate IsDigits(s: string) {
    |s| >= 1 && forall i :: 0 <= i < |s| ==> '0' <= s[i] <= '9'
  }

  /** The value of a non-empty run of decimal digits. */
  function DigitsValue(s: string): nat
    requires IsDigits(s)
  {
    if |s| == 1 then DigitValue(s[0])
    else 10 * DigitsValue(s[..|s| - 1]) + DigitValue(s[|s| - 1])
  }

  /**
   * `int(s)` for the forms the system produces and reads back: an optional sign
   * followed by decimal digits. Anything else raises ValueError.
   */
  function ParseInt(s: string): (r: Result<int>)
    ensures r.Ok? ==> |s| >= 1
    ensures r.Err? ==> r.error == ValueError("invalid literal for int()")
  {
    if IsDigits(s) then Ok(DigitsValue(s))
    else if |s| >= 2 && s[0] == '-' && IsDigits(s[1..]) then Ok(0 - DigitsValue(s[1..]))
    else if |s| >= 2 && s[0] == '+' && IsDigits(s[1..]) then Ok(DigitsValue(s[1..]))
    else Err(ValueError("invalid literal for int()"))
  }

  lemma {:induction false} DigitsRoundTrip(n: nat)
    ensures IsDigits(NatToString(n)) && DigitsValue(NatToString(n)) == n
  {
    var s := NatToString(n);
    if n >= 10 {
      DigitsRoundTrip(n / 10);
      assert s[..|s| - 1] == NatToString(n / 10);
      DigitRoundTrip(n % 10);
    } else {
      DigitRoundTrip(n);
    }
  }

  /** `int(str(n)) == n`. */
  lemma ParseIntOfNat(n: nat)
    ensures ParseInt(NatToString(n)) == Ok(n)
  {
    DigitsRoundTrip(n);
  }

  /** `str(i)` for any integer. */
  function IntToString(i: int): (s: string)
    ensures |s| >= 1
  {
    if i >= 0 then NatToString(i) else "-" + NatToString(-i)
  }

  /** `int(str(i)) == i`. */
  lemma ParseIntOfInt(i: int)
    ensures ParseInt(IntToString(i)) == Ok(i)
  {
    if i >= 0 {
      ParseIntOfNat(i);
    } else {
      var s := IntToString(i);
      DigitsRoundTrip(-i);
      assert s[1..] == NatToString(-i);
      assert s[0] == '-';
    }
  }

  /** The decimal form of a number never contains a non-digit separator. */
  lemma NatToStringHasNo(n: nat, c: char)
    requires !('0' <= c <= '9')
    ensures c !in NatToString(n)
  {
  }

  lemma IntToStringHasNo(i: int, c: char)
    requires !('0' <= c <= '9') && c != '-'
    ensures c !in IntToString(i)
  {
    if i < 0 {
      NatToStringHasNo(-i, c);
    } else {
      NatToStringHasNo(i, c);
    }
  }

  /** Python's `a <= b` on strings: lexicographic by code point. */
  predicate LexLe(a: string, b: string) {
    |a| == 0 || (|b| > 0 && (a[0] < b[0] || (a[0] == b[0] && LexLe(a[1..], b[1..]))))
  }

  predicate LexLt(a: string, b: string) {
    LexLe(a, b) && a != b
  }

  lemma {:induction false} LexLeRefl(a: string)
    ensures LexLe(a, a)
  {
    if |a| > 0 {
      LexLeRefl(a[1..]);
    }
  }

  lemma {:induction false} LexLeAntisym(a: string, b: string)
    requires LexLe(a, b) && LexLe(b, a)
    ensures a == b
  {
    if |a| > 0 && |b| > 0 {
      LexLeAntisym(a[1..], b[1..]);
      assert a == [a[0]] + a[1..] && b == [b[0]] + b[1..];
    }
  }

  /** ASCII `str.upper()`. */
  function Upper(s: string): (r: string)
    ensures |r| == |s|
    ensures forall i :: 0 <= i < |s| ==>
      r[i] == (if 'a' <= s[i] <= 'z' then (s[i] as int - 32) as char else s[i])
  {
    if s == [] then []
    else [if 'a' <= s[0] <= 'z' then (s[0] as int - 32) as char else s[0]] + Upper(s[1..])
  }
}
