// Shared vocabulary for the whole model: optional values, results carrying
// an error message, numeric helpers standing in for Math.min/max/floor/round,
// and the few string operations (ASCII case folding, trimming, decimal
// rendering) that the services rely on.
module Util {

  datatype Option<T> = None | Some(value: T)
  {
    predicate IsSome() { Some? }

    function GetOr(default: T): T
    {
      match this
      case None => default
      case Some(v) => v
    }
  }

  /** A value or the message of the exception/error that replaced it. */
  datatype Result<T> = Ok(value: T) | Err(msg: string)

  function MinInt(a: int, b: int): (r: int)
    ensures r <= a && r <= b && (r == a || r == b)
  {
    if a <= b then a else b
  }

  function MaxInt(a: int, b: int): (r: int)
    ensures r >= a && r >= b && (r == a || r == b)
  {
    if a >= b then a else b
  }

  function MinReal(a: real, b: real): (r: real)
    ensures r <= a && r <= b && (r == a || r == b)
  {
    if a <= b then a else b
  }

  function MaxReal(a: real, b: real): (r: real)
    ensures r >= a && r >= b && (r == a || r == b)
  {
    if a >= b then a else b
  }

  /** max(lo, min(hi, x)), the clamp idiom used throughout the services. */
  function Clamp(x: real, lo: real, hi: real): (r: real)
    requires lo <= hi
    ensures lo <= r <= hi
    ensures lo <= x <= hi ==> r == x
    ensures x < lo ==> r == lo
    ensures x > hi ==> r == hi
  {
    MaxReal(lo, MinReal(hi, x))
  }

  /** Math.floor on a real. */
  function Floor(x: real): (r: int)
    ensures r as real <= x < r as real + 1.0
  {
    x.Floor
  }

  /** Math.round: the nearest integer, halves rounded towards +infinity. */
  function Round(x: real): (r: int)
    ensures r as real - 0.5 <= x < r as real + 0.5
  {
    (x + 0.5).Floor
  }

  /** Math.ceil on a real. */
  function Ceil(x: real): (r: int)
    ensures x <= r as real < x + 1.0
  {
    var f := x.Floor;
    if f as real == x then f else f + 1
  }

  function SumReal(s: seq<real>): real
  {
    if s == [] then 0.0 else SumReal(s[..|s| - 1]) + s[|s| - 1]
  }

  function SumInt(s: seq<int>): int
  {
    if s == [] then 0 else SumInt(s[..|s| - 1]) + s[|s| - 1]
  }

  lemma RatioInUnit(x: real, y: real)
    requires 0.0 <= x <= y && y > 0.0
    ensures 0.0 <= x / y <= 1.0
  {
    assert x / y * y == x;
  }

  lemma RatioPositive(x: real, y: real)
    requires x > 0.0 && y > 0.0
    ensures x / y > 0.0
  {
    assert x / y * y == x;
  }

  lemma MulMonotone(a: real, b: real, c: real)
    requires a <= b && c >= 0.0
    ensures a * c <= b * c && c * a <= c * b
  {
    assert b * c - a * c == (b - a) * c;
    assert c * a == a * c && c * b == b * c;
  }

  /** `Math.floor(draw * n)` for a `Math.random()` draw is an index below `n`. */
  lemma DrawIndex(draw: real, n: nat)
    requires 0.0 <= draw < 1.0 && n > 0
    ensures 0 <= Floor(draw * n as real) < n
  {
    var m := n as real;
    MulMonotone(0.0, draw, m);
    MulMonotone(1.0, m, 1.0 - draw);
    assert m - draw * m == m * (1.0 - draw);
    assert draw * m < m;
  }

  /** Arithmetic mean, 0 for an empty list (the `length > 0 ? sum / length : 0` idiom). */
  function MeanOrZero(s: seq<real>): real
  {
    if |s| == 0 then 0.0 else SumReal(s) / |s| as real
  }

  lemma {:induction false} SumRealBounds(s: seq<real>, lo: real, hi: real)
    requires forall i :: 0 <= i < |s| ==> lo <= s[i] <= hi
    ensures |s| as real * lo <= SumReal(s) <= |s| as real * hi
  {
    if s != [] {
      SumRealBounds(s[..|s| - 1], lo, hi);
    }
  }

  lemma MeanOrZeroBounds(s: seq<real>, lo: real, hi: real)
    requires |s| > 0
    requires forall i :: 0 <= i < |s| ==> lo <= s[i] <= hi
    ensures lo <= MeanOrZero(s) <= hi
  {
    SumRealBounds(s, lo, hi);
    var n := |s| as real;
    assert n * lo <= SumReal(s) <= n * hi;
    assert lo == (n * lo) / n;
    assert hi == (n * hi) / n;
  }

  lemma {:induction false} SumRealAppend(s: seq<real>, t: seq<real>)
    ensures SumReal(s + t) == SumReal(s) + SumReal(t)
  {
    if t == [] {
      assert s + t == s;
    } else {
      assert (s + t)[..|s + t| - 1] == s + t[..|t| - 1];
      SumRealAppend(s, t[..|t| - 1]);
    }
  }

  // ---- characters and strings -------------------------------------------

  predicate IsAsciiUpper(c: char) { 'A' <= c <= 'Z' }

  /** toLowerCase restricted to the ASCII letters; every other character is kept. */
  function ToLowerChar(c: char): (r: char)
    ensures IsAsciiUpper(c) ==> r as int == c as int + 32
    ensures !IsAsciiUpper(c) ==> r == c
  {
    if IsAsciiUpper(c) then (c as int + 32) as char else c
  }

  function ToLower(s: string): (r: string)
    ensures |r| == |s|
  {
    if s == [] then [] else [ToLowerChar(s[0])] + ToLower(s[1..])
  }

  lemma {:induction false} ToLowerAt(s: string)
    ensures forall i :: 0 <= i < |s| ==> ToLower(s)[i] == ToLowerChar(s[i])
  {
    if s != [] {
      ToLowerAt(s[1..]);
    }
  }

  /** Lower-casing twice is lower-casing once. */
  lemma {:induction false} ToLowerIdempotent(s: string)
    ensures ToLower(ToLower(s)) == ToLower(s)
  {
    if s != [] {
      ToLowerIdempotent(s[1..]);
      var t := ToLower(s);
      assert t == [ToLowerChar(s[0])] + ToLower(s[1..]);
      assert t[1..] == ToLower(s[1..]);
    }
  }

  /** The two notions of surrounding white space the code relies on. */
  datatype TrimSet = JavaTrimSet | JsTrimSet

  /**
   * Whether `trim` strips `c`: Java's String.trim() strips every code point
   * up to U+0020; JavaScript's String.prototype.trim() strips white space
   * and line terminators (their ASCII and Latin-1 members are listed).
   */
  predicate Strips(k: TrimSet, c: char)
  {
    match k
    case JavaTrimSet => c as int <= 32
    case JsTrimSet =>
      c == ' ' || c == '\t' || c == '\n' || c == '\r' || c as int == 11 || c as int == 12 || c as int == 160
  }

  /** The first index at or after `i` whose character is not stripped (|s| if none). */
  function SkipFrom(s: string, k: TrimSet, i: nat): (n: nat)
    requires i <= |s|
    ensures i <= n <= |s|
    decreases |s| - i
  {
    if i < |s| && Strips(k, s[i]) then SkipFrom(s, k, i + 1) else i
  }

  lemma {:induction false} SkipFromFacts(s: string, k: TrimSet, i: nat)
    requires i <= |s|
    ensures var n := SkipFrom(s, k, i);
      && (n < |s| ==> !Strips(k, s[n]))
      && (forall x :: i <= x < n ==> Strips(k, s[x]))
    decreases |s| - i
  {
    if i < |s| && Strips(k, s[i]) {
      SkipFromFacts(s, k, i + 1);
    }
  }

  /** The end of `s[..j]` once its stripped trailing characters are dropped. */
  function KeepUpTo(s: string, k: TrimSet, j: nat): (n: nat)
    requires j <= |s|
    ensures n <= j
  {
    if j > 0 && Strips(k, s[j - 1]) then KeepUpTo(s, k, j - 1) else j
  }

  lemma {:induction false} KeepUpToFacts(s: string, k: TrimSet, j: nat)
    requires j <= |s|
    ensures var n := KeepUpTo(s, k, j);
      && (n > 0 ==> !Strips(k, s[n - 1]))
      && (forall x :: n <= x < j ==> Strips(k, s[x]))
  {
    if j > 0 && Strips(k, s[j - 1]) {
      KeepUpToFacts(s, k, j - 1);
    }
  }

  /** `s` without its stripped leading and trailing characters. */
  function Trim(s: string, k: TrimSet): (r: string)
    ensures |r| <= |s|
  {
    var lo, hi := SkipFrom(s, k, 0), KeepUpTo(s, k, |s|);
    if lo >= hi then [] else s[lo..hi]
  }

  /** Trimming leaves nothing exactly for an all-white string, and otherwise ends on kept characters. */
  lemma TrimFacts(s: string, k: TrimSet)
    ensures Trim(s, k) == [] <==> forall i :: 0 <= i < |s| ==> Strips(k, s[i])
    ensures var r := Trim(s, k); r != [] ==> !Strips(k, r[0]) && !Strips(k, r[|r| - 1])
  {
    SkipFromFacts(s, k, 0);
    KeepUpToFacts(s, k, |s|);
  }

  function JavaTrim(s: string): (r: string)
    ensures |r| <= |s|
  {
    Trim(s, JavaTrimSet)
  }

  function JsTrim(s: string): (r: string)
    ensures |r| <= |s|
  {
    Trim(s, JsTrimSet)
  }

  /** Lower-casing then trimming, the normalisation applied to answers and transcripts. */
  function Normalize(s: string): string
  {
    JsTrim(ToLower(s))
  }

  function DigitChar(d: nat): (c: char)
    requires d < 10
    ensures '0' <= c <= '9'
  {
    ('0' as int + d) as char
  }

  /** Decimal rendering of a natural number (Number.prototype.toString / Long.toString). */
  function NatToString(n: nat): (r: string)
    ensures |r| >= 1
    ensures forall i :: 0 <= i < |r| ==> '0' <= r[i] <= '9'
    decreases n
  {
    if n < 10 then [DigitChar(n)] else NatToString(n / 10) + [DigitChar(n % 10)]
  }

  function IntToString(n: int): (r: string)
  {
    if n >= 0 then NatToString(n) else "-" + NatToString(-n)
  }

  lemma {:induction false} NatToStringLong(n: nat)
    requires n >= 10
    ensures |NatToString(n)| >= 2
  {
  }

  lemma {:induction false} NatToStringInjective(n: nat, m: nat)
    requires NatToString(n) == NatToString(m)
    ensures n == m
    decreases n
  {
    if n < 10 && m < 10 {
    } else if n < 10 {
      NatToStringLong(m);
    } else if m < 10 {
      NatToStringLong(n);
    } else {
      var a, b := NatToString(n), NatToString(m);
      assert a[|a| - 1] == DigitChar(n % 10) && b[|b| - 1] == DigitChar(m % 10);
      assert n % 10 == m % 10;
      assert NatToString(n / 10) == a[..|a| - 1];
      assert NatToString(m / 10) == b[..|b| - 1];
      NatToStringInjective(n / 10, m / 10);
    }
  }

  lemma IntToStringSign(n: int)
    ensures |IntToString(n)| >= 1
    ensures IntToString(n)[0] == '-' <==> n < 0
  {
  }

  /** Distinct integers render as distinct decimal strings. */
  lemma IntToStringInjective(n: int, m: int)
    requires IntToString(n) == IntToString(m)
    ensures n == m
  {
    IntToStringSign(n);
    IntToStringSign(m);
    if n >= 0 {
      NatToStringInjective(n, m);
    } else {
      var a, b := IntToString(n), IntToString(m);
      assert NatToString(-n) == a[1..] == b[1..] == NatToString(-m);
      NatToStringInjective(-n, -m);
    }
  }

  /** Array.prototype.includes / List.contains. */
  predicate Contains<T(==)>(s: seq<T>, x: T) { x in s }

  /** Keeps the last `n` elements, the `slice(-n)` idiom used for bounded histories. */
  function KeepLast<T>(s: seq<T>, n: nat): (r: seq<T>)
    ensures |r| == MinInt(|s|, n)
    ensures r == s[|s| - |r|..]
  {
    if |s| > n then s[|s| - n..] else s
  }

  /**
   * Array.prototype.slice(k): a negative `k` counts from the end, and both
   * bounds are clamped to the list, so `slice(-0)` is the whole list.
   */
  function SliceFrom<T>(s: seq<T>, k: int): (r: seq<T>)
    ensures |r| <= |s|
    ensures r == s[|s| - |r|..]
  {
    if k < 0 then s[MaxInt(0, |s| + k)..] else s[MinInt(k, |s|)..]
  }

  /**
   * A history after an element is pushed: once longer than `limit` it keeps
   * `slice(-limit)`, so a limit of 0 (`slice(-0)`, the whole list) keeps
   * everything.
   */
  function KeepNewest<T>(s: seq<T>, limit: int): (r: seq<T>)
    ensures |r| <= |s| && r == s[|s| - |r|..]
  {
    if |s| > limit then SliceFrom(s, -limit) else s
  }

  /** With a positive limit the history is cut to at most `limit` entries and its newest entry survives. */
  lemma KeepNewestFacts<T>(s: seq<T>, limit: int)
    ensures limit >= 1 ==> |KeepNewest(s, limit)| == MinInt(|s|, limit)
    ensures limit >= 1 && s != [] ==> KeepNewest(s, limit)[|KeepNewest(s, limit)| - 1] == s[|s| - 1]
    ensures limit == 0 ==> KeepNewest(s, limit) == s
  {
  }

  lemma KeepNewestBound<T>(s: seq<T>, limit: int)
    ensures limit >= 1 ==> |KeepNewest(s, limit)| <= limit
  {
  }

  /** No entry occurs again further down the list. */
  predicate Distinct<T(==)>(s: seq<T>)
  {
    s == [] || (s[0] !in s[1..] && Distinct(s[1..]))
  }

  lemma {:induction false} DistinctSnoc<T>(s: seq<T>, x: T)
    requires Distinct(s) && x !in s
    ensures Distinct(s + [x])
  {
    if s != [] {
      assert (s + [x])[1..] == s[1..] + [x];
      DistinctSnoc(s[1..], x);
    }
  }

  /** No two places hold the same entry: the same as `Distinct`, and cheaper to check on a literal list. */
  predicate Pairwise<T(==)>(s: seq<T>)
  {
    forall i, j :: 0 <= i < j < |s| ==> s[i] != s[j]
  }

  lemma {:induction false} PairwiseDistinct<T>(s: seq<T>)
    requires Pairwise(s)
    ensures Distinct(s)
  {
    if s != [] {
      assert forall i, j :: 0 <= i < j < |s| - 1 ==> s[1..][i] == s[i + 1] && s[1..][j] == s[j + 1];
      PairwiseDistinct(s[1..]);
      assert forall k :: 0 <= k < |s| - 1 ==> s[1..][k] == s[k + 1] && s[k + 1] != s[0];
    }
  }

  lemma {:induction false} DistinctPrefix(s: seq<string>, n: nat)
    requires Distinct(s) && n <= |s|
    ensures Distinct(s[..n])
  {
    if n > 0 {
      DistinctPrefix(s[1..], n - 1);
      assert s[..n][1..] == s[1..][..n - 1];
      assert forall x :: x in s[1..][..n - 1] ==> x in s[1..];
    }
  }

  lemma {:induction false} DistinctLast(s: seq<string>)
    requires Distinct(s) && s != []
    ensures s[|s| - 1] !in s[..|s| - 1]
  {
    if |s| > 1 {
      DistinctLast(s[1..]);
      assert s[1..][..|s| - 2] == s[1..|s| - 1];
      assert s[..|s| - 1] == [s[0]] + s[1..|s| - 1];
      assert s[|s| - 1] in s[1..];
    }
  }

  /**
   * `new Set(s)` read back in iteration order: every element once, at the
   * place of its first occurrence.
   */
  function Dedup<T(==,!new)>(s: seq<T>): (r: seq<T>)
    ensures forall x :: x in r <==> x in s
  {
    if s == [] then []
    else
      var d := Dedup(s[..|s| - 1]);
      assert forall x :: x in s <==> x in s[..|s| - 1] || x == s[|s| - 1];
      if s[|s| - 1] in d then d else d + [s[|s| - 1]]
  }

  lemma {:induction false} DedupDistinct<T(!new)>(s: seq<T>)
    ensures Distinct(Dedup(s))
  {
    if s != [] {
      DedupDistinct(s[..|s| - 1]);
      if s[|s| - 1] !in Dedup(s[..|s| - 1]) {
        DistinctSnoc(Dedup(s[..|s| - 1]), s[|s| - 1]);
      }
    }
  }

  /** `s.filter(x => x !== v)` on strings. */
  function Without(s: seq<string>, v: string): (r: seq<string>)
    ensures |r| <= |s|
  {
    if s == [] then [] else (if s[0] == v then [] else [s[0]]) + Without(s[1..], v)
  }

  lemma {:induction false} WithoutFacts(s: seq<string>, v: string)
    ensures forall x :: x in Without(s, v) <==> x in s && x != v
    ensures v !in s ==> Without(s, v) == s
  {
    if s != [] {
      WithoutFacts(s[1..], v);
      assert forall x :: x in s <==> x == s[0] || x in s[1..];
      if v !in s {
        assert s == [s[0]] + s[1..];
      }
    }
  }

  /** `a` is `b` with some entries left out, the rest in their order. */
  predicate Sublist<T(==)>(a: seq<T>, b: seq<T>)
    decreases |b|
  {
    a == [] || (b != [] && if a[0] == b[0] then Sublist(a[1..], b[1..]) else Sublist(a, b[1..]))
  }

  /** Leaving out one more entry at the end keeps a sub-list a sub-list. */
  lemma {:induction false} SublistSnocRight<T>(a: seq<T>, b: seq<T>, x: T)
    requires Sublist(a, b)
    ensures Sublist(a, b + [x])
    decreases |b|
  {
    if a != [] {
      assert (b + [x])[1..] == b[1..] + [x];
      if a[0] == b[0] {
        SublistSnocRight(a[1..], b[1..], x);
      } else {
        SublistSnocRight(a, b[1..], x);
      }
    }
  }

  /** Keeping one more entry at the end keeps a sub-list a sub-list. */
  lemma {:induction false} SublistSnocBoth<T>(a: seq<T>, b: seq<T>, x: T)
    requires Sublist(a, b)
    ensures Sublist(a + [x], b + [x])
    decreases |b|
  {
    assert (a + [x])[1..] == if a == [] then [] else a[1..] + [x];
    if b == [] {
      assert a == [];
    } else {
      assert (b + [x])[1..] == b[1..] + [x];
      if a == [] {
        if b[0] != x {
          SublistSnocBoth(a, b[1..], x);
        }
      } else if a[0] == b[0] {
        SublistSnocBoth(a[1..], b[1..], x);
      } else {
        SublistSnocBoth(a, b[1..], x);
      }
    }
  }

  /** Filtering keeps the order of what it keeps. */
  lemma {:induction false} WithoutSublist(s: seq<string>, v: string)
    ensures Sublist(Without(s, v), s)
  {
    if s != [] {
      WithoutSublist(s[1..], v);
      WithoutFacts(s[1..], v);
      var w := Without(s[1..], v);
      if s[0] != v {
        assert Without(s, v) == [s[0]] + w;
        assert Without(s, v)[1..] == w;
      } else {
        assert Without(s, v) == [] + w == w;
        if w != [] {
          assert w[0] in w;
          assert w[0] != s[0];
        }
      }
    }
  }

  lemma {:induction false} WithoutDistinct(s: seq<string>, v: string)
    requires Distinct(s)
    ensures Distinct(Without(s, v))
  {
    if s != [] {
      WithoutDistinct(s[1..], v);
      WithoutFacts(s[1..], v);
      var rest := Without(s[1..], v);
      if s[0] != v {
        assert Without(s, v) == [s[0]] + rest;
        assert ([s[0]] + rest)[1..] == rest;
      } else {
        assert Without(s, v) == [] + rest;
        assert [] + rest == rest;
      }
    }
  }

  /** The key list of a `Map`, in insertion order: each key of `m` once. */
  predicate OrderOf<V>(order: seq<string>, m: map<string, V>)
  {
    Distinct(order) && m.Keys == set k | k in order
  }

  /** `Map.set` on the key list: a new key goes last, a known key keeps its place. */
  function Remember(order: seq<string>, k: string): (r: seq<string>)
    ensures forall x :: x in r <==> x in order || x == k
  {
    if k in order then order else order + [k]
  }

  lemma RememberOrder<V>(order: seq<string>, m: map<string, V>, k: string, v: V)
    requires OrderOf(order, m)
    ensures OrderOf(Remember(order, k), m[k := v])
  {
    if k !in order {
      DistinctSnoc(order, k);
    }
  }

  lemma WithoutOrder<V>(order: seq<string>, m: map<string, V>, k: string)
    requires OrderOf(order, m)
    ensures OrderOf(Without(order, k), m - {k})
  {
    WithoutDistinct(order, k);
    WithoutFacts(order, k);
  }

  /** A list without duplicates has as many elements as it has distinct ones. */
  lemma {:induction false} DistinctCard(s: seq<string>)
    requires Distinct(s)
    ensures |set k | k in s| == |s|
  {
    if s != [] {
      DistinctCard(s[1..]);
      assert (set k | k in s) == {s[0]} + (set k | k in s[1..]);
    }
  }

  lemma OrderOfSize<V>(order: seq<string>, m: map<string, V>)
    requires OrderOf(order, m)
    ensures |m| == |order|
  {
    DistinctCard(order);
    assert |m| == |m.Keys|;
  }

  /** Array.prototype.filter. */
  function Filter<T>(s: seq<T>, p: T -> bool): (r: seq<T>)
    ensures |r| <= |s|
    ensures forall i :: 0 <= i < |r| ==> p(r[i])
    ensures forall i :: 0 <= i < |r| ==> r[i] in s
    ensures forall i :: 0 <= i < |s| && p(s[i]) ==> s[i] in r
  {
    if s == [] then [] else (if p(s[0]) then [s[0]] else []) + Filter(s[1..], p)
  }

  function Count<T>(s: seq<T>, p: T -> bool): (r: nat)
    ensures r <= |s|
  {
    |Filter(s, p)|
  }
}
