/**
 The string operations the dashboard builds its frame from, with Python's
 meaning: `' ' * n`, `str.ljust`, `str.rjust`, `''.join` and `str()` of an
 integer. The decimal rendering has a parser beside it, and the two are proved
 to be inverse.
 */
module Text {
  import opened Wrappers

  function Max(a: int, b: int): int
  {
    if a < b then b else a
  }

  /** `' ' * n`: n spaces, and the empty string when n is not positive. */
  function Spaces(n: int): (r: string)
    ensures |r| == Max(n, 0)
    ensures forall i :: 0 <= i < |r| ==> r[i] == ' '
    decreases n
  {
    if n <= 0 then "" else Spaces(n - 1) + " "
  }

  /** `s.ljust(n)`: s followed by spaces up to length n; a longer s is kept whole. */
  function Ljust(s: string, n: int): (r: string)
    ensures |r| == Max(|s|, n)
  {
    s + Spaces(n - |s|)
  }

  /** A left-justified string starts with the string and is padded with
      spaces only. */
  lemma LjustSpec(s: string, n: int)
    ensures Ljust(s, n)[..|s|] == s
    ensures forall i :: |s| <= i < |Ljust(s, n)| ==> Ljust(s, n)[i] == ' '
  {
    var r := Ljust(s, n);
    assert r == s + Spaces(n - |s|);
    assert forall i :: |s| <= i < |r| ==> r[i] == Spaces(n - |s|)[i - |s|];
  }

  /** `s.rjust(n)`: spaces up to length n followed by s; a longer s is kept whole. */
  function Rjust(s: string, n: int): (r: string)
    ensures |r| == Max(|s|, n)
  {
    Spaces(n - |s|) + s
  }

  /** A right-justified string ends with the string and is padded in front
      with spaces only. */
  lemma RjustSpec(s: string, n: int)
    ensures Rjust(s, n)[|Rjust(s, n)| - |s|..] == s
    ensures forall i :: 0 <= i < |Rjust(s, n)| - |s| ==> Rjust(s, n)[i] == ' '
  {
    var r := Rjust(s, n);
    assert r == Spaces(n - |s|) + s;
    assert forall i :: 0 <= i < |r| - |s| ==> r[i] == Spaces(n - |s|)[i];
  }

  /** `''.join(parts)`. */
  function Concat(parts: seq<string>): string
  {
    if parts == [] then "" else Concat(parts[..|parts| - 1]) + parts[|parts| - 1]
  }

  /** When every part has the same length w, the join is w times as long as
      there are parts. */
  lemma {:induction false} ConcatUniformLength(parts: seq<string>, w: nat)
    requires forall i :: 0 <= i < |parts| ==> |parts[i]| == w
    ensures |Concat(parts)| == |parts| * w
  {
    if parts != [] {
      var n := |parts| - 1;
      var front := parts[..n];
      assert forall i :: 0 <= i < |front| ==> front[i] == parts[i];
      ConcatUniformLength(front, w);
      assert |Concat(parts)| == |Concat(front)| + |parts[n]|;
      MulSucc(n, w);
    }
  }

  lemma MulSucc(n: nat, w: nat)
    ensures (n + 1) * w == n * w + w
  {
  }

  /** When every part has the same length w, part i occupies the characters
      of the join from i * w up to (i + 1) * w. */
  lemma {:induction false} ConcatUniformAt(parts: seq<string>, w: nat, i: nat)
    requires forall j :: 0 <= j < |parts| ==> |parts[j]| == w
    requires i < |parts|
    ensures i * w + w <= |Concat(parts)|
    ensures Concat(parts)[i * w..i * w + w] == parts[i]
  {
    var n := |parts| - 1;
    var front := parts[..n];
    assert forall j :: 0 <= j < |front| ==> front[j] == parts[j];
    var whole := Concat(front);
    assert Concat(parts) == whole + parts[n];
    var lo := i * w;
    ConcatUniformLength(front, w);
    assert |whole| == n * w;
    if i < n {
      ConcatUniformAt(front, w, i);
      SliceOfAppend(whole, parts[n], lo, lo + w);
    } else {
      assert lo == |whole|;
      SliceAfterAppend(whole, parts[n]);
    }
  }

  /** The part of a + b after a is b. */
  lemma SliceAfterAppend(a: string, b: string)
    ensures (a + b)[|a|..|a| + |b|] == b
  {
  }

  /** A slice that lies inside a's part of a + b is the slice of a. */
  lemma SliceOfAppend(a: string, b: string, lo: nat, hi: nat)
    requires lo <= hi <= |a|
    ensures (a + b)[lo..hi] == a[lo..hi]
  {
    assert forall k :: lo <= k < hi ==> (a + b)[k] == a[k];
  }

  predicate IsDigit(c: char)
  {
    '0' <= c <= '9'
  }

  predicate AllDigits(s: string)
  {
    forall i :: 0 <= i < |s| ==> IsDigit(s[i])
  }

  function DigitChar(d: nat): (c: char)
    requires d < 10
    ensures IsDigit(c)
  {
    ('0' as int + d) as char
  }

  function DigitValue(c: char): nat
    requires IsDigit(c)
  {
    c as int - '0' as int
  }

  /** `str(n)` of a non-negative integer: its decimal digits, most significant
      first, with no leading zero. */
  function NatStr(n: nat): (r: string)
    ensures |r| > 0 && AllDigits(r)
    ensures r[0] == '0' ==> n == 0
    decreases n
  {
    if n < 10 then [DigitChar(n)] else NatStr(n / 10) + [DigitChar(n % 10)]
  }

  /** `str(i)` of any integer: a minus sign before the digits of a negative one. */
  function IntStr(i: int): (r: string)
    ensures |r| > 0
    ensures forall k :: 0 <= k < |r| ==> IsDigit(r[k]) || (k == 0 && r[k] == '-')
  {
    if i < 0 then "-" + NatStr(-i) else NatStr(i)
  }

  /** The value of a string of decimal digits. */
  function DigitsValue(s: string): nat
    requires AllDigits(s)
  {
    if s == [] then 0 else DigitsValue(s[..|s| - 1]) * 10 + DigitValue(s[|s| - 1])
  }

  /** `int(s)` restricted to an optional minus sign followed by digits. */
  function ParseInt(s: string): Option<int>
  {
    if s != [] && s[0] == '-' then
      (if |s| > 1 && AllDigits(s[1..]) then Some(0 - DigitsValue(s[1..])) else None)
    else if s != [] && AllDigits(s) then Some(DigitsValue(s))
    else None
  }

  lemma {:induction false} NatStrValue(n: nat)
    ensures DigitsValue(NatStr(n)) == n
  {
    if n >= 10 {
      NatStrValue(n / 10);
      var s := NatStr(n);
      assert s[..|s| - 1] == NatStr(n / 10);
    }
  }

  /** Decimal rendering and parsing are inverse. */
  lemma IntStrRoundTrip(i: int)
    ensures ParseInt(IntStr(i)) == Some(i)
  {
    if i < 0 {
      NatStrValue(-i);
      assert IntStr(i)[1..] == NatStr(-i);
    } else {
      NatStrValue(i);
    }
  }

  /** The first occurrence of c in s, splitting s around it. */
  function SplitOn(s: string, c: char): (r: Option<(string, string)>)
    ensures r.Some? ==> s == r.value.0 + [c] + r.value.1 && c !in r.value.0
    ensures r.None? ==> c !in s
  {
    if s == [] then None
    else if s[0] == c then Some(([], s[1..]))
    else match SplitOn(s[1..], c)
      case None => None
      case Some((a, b)) => Some(([s[0]] + a, b))
  }

  lemma {:induction false} SplitOnFirst(a: string, c: char, b: string)
    requires c !in a
    ensures SplitOn(a + [c] + b, c) == Some((a, b))
  {
    var s := a + [c] + b;
    if a != [] {
      assert a[0] in a;
      assert s[1..] == a[1..] + [c] + b;
      SplitOnFirst(a[1..], c, b);
      assert [a[0]] + a[1..] == a;
    }
  }
}
