/** Helpers shared by the two in-memory simulators: random draws, clamps,
    the time value a JavaScript `Date` keeps, number formatting for ids,
    the bounded newest-first history both services keep, and the
    `filter`/`filter(..).length` idioms the services use for queries. */
module Common {

  datatype Option<T> = None | Some(value: T)

  /** A value `Math.random()` can return: uniform in [0, 1). */
  predicate IsDraw(r: real) {
    0.0 <= r < 1.0
  }

  predicate AllDraws(rs: seq<real>) {
    forall i :: 0 <= i < |rs| ==> IsDraw(rs[i])
  }

  // ---------------------------------------------------------------------------
  // Math.min / Math.max and the clamp `Math.max(lo, Math.min(hi, x))`

  function Min(a: real, b: real): (r: real)
    ensures r <= a && r <= b && (r == a || r == b)
  {
    if a <= b then a else b
  }

  function Max(a: real, b: real): (r: real)
    ensures a <= r && b <= r && (r == a || r == b)
  {
    if a <= b then b else a
  }

  /** `Math.max(0, x)` on an integer count: x itself unless it went below zero. */
  function AtLeastZero(x: int): (r: nat)
    ensures x <= r
    ensures 0 <= x ==> r == x
    ensures x < 0 ==> r == 0
  {
    if x < 0 then 0 else x
  }

  /** `Math.max(lo, Math.min(hi, x))`: x pulled back into [lo, hi]. */
  function Clamp(lo: real, hi: real, x: real): (r: real)
    requires lo <= hi
    ensures lo <= r <= hi
    ensures lo <= x <= hi ==> r == x
    ensures x < lo ==> r == lo
    ensures hi < x ==> r == hi
  {
    Max(lo, Min(hi, x))
  }

  // ---------------------------------------------------------------------------
  // Numbers turned into positions and times

  /** For a draw r and y >= 0, the product r * y lies in [0, y), or is 0 when y is. */
  lemma ScaledDraw(r: real, y: real)
    requires IsDraw(r) && 0.0 <= y
    ensures 0.0 <= r * y <= y
    ensures 0.0 < y ==> r * y < y
  {
    assert y - r * y == (1.0 - r) * y;
    assert 0.0 < y ==> (1.0 - r) * y > 0.0;
  }

  /** `Math.floor(r * n)` for a draw r: a position in a list of length n > 0. */
  function PickIndex(r: real, n: nat): (i: nat)
    requires IsDraw(r) && 0 < n
    ensures i < n
  {
    ScaledDraw(r, n as real);
    (r * n as real).Floor
  }

  /** The time value `new Date(x)` keeps for a number x of milliseconds:
      x truncated toward zero. */
  function TimeValue(x: real): (t: int)
    ensures 0.0 <= x ==> t as real <= x < t as real + 1.0
    ensures x < 0.0 ==> t as real - 1.0 < x <= t as real
  {
    if 0.0 <= x then x.Floor else -((-x).Floor)
  }

  /** `new Date(now - r * span)` for a draw r: a moment in the last `span`
      milliseconds before `now`. */
  function TimeWithin(now: int, span: nat, r: real): (t: int)
    requires IsDraw(r)
    ensures now - span <= t <= now
  {
    ScaledDraw(r, span as real);
    TimeValueWithin(now as real - r * span as real, now - span, now);
    TimeValue(now as real - r * span as real)
  }

  /** Truncation keeps a value between two integers that bound it. */
  lemma TimeValueWithin(x: real, lo: int, hi: int)
    requires lo as real <= x <= hi as real
    ensures lo <= TimeValue(x) <= hi
  {
  }

  // ---------------------------------------------------------------------------
  // Ids of the form `prefix-${Date.now()}`

  function DigitChar(d: nat): (c: char)
    requires d < 10
    ensures '0' <= c <= '9'
  {
    (('0' as int) + d) as char
  }

  function DigitValue(c: char): (d: nat)
    requires '0' <= c <= '9'
    ensures d < 10
  {
    (c as int) - ('0' as int)
  }

  /** Decimal digits of n, most significant first, without leading zeros. */
  function NatToString(n: nat): (s: string)
    ensures 0 < |s|
    ensures forall i :: 0 <= i < |s| ==> '0' <= s[i] <= '9'
    ensures s[0] == '0' <==> n == 0
    ensures 1 < |s| ==> s[0] != '0'
    decreases n
  {
    if n < 10 then [DigitChar(n)] else NatToString(n / 10) + [DigitChar(n % 10)]
  }

  /** A template literal `${n}` for an integer n. */
  function IntToString(n: int): (s: string)
    ensures 0 < |s|
    ensures (s[0] == '-') == (n < 0)
  {
    if n < 0 then "-" + NatToString(-n) else NatToString(n)
  }

  /** Reads back a string of decimal digits. */
  function ParseDigits(s: string): (n: nat)
    requires forall i :: 0 <= i < |s| ==> '0' <= s[i] <= '9'
    decreases |s|
  {
    if s == [] then 0 else 10 * ParseDigits(s[..|s| - 1]) + DigitValue(s[|s| - 1])
  }

  /** Formatting loses nothing: the digits read back as the number. */
  lemma {:induction false} NatToStringRoundTrip(n: nat)
    ensures ParseDigits(NatToString(n)) == n
    decreases n
  {
    var s := NatToString(n);
    if n >= 10 {
      NatToStringRoundTrip(n / 10);
      assert s[..|s| - 1] == NatToString(n / 10);
    }
  }

  /** Two counts formatted alike are equal. */
  lemma NatToStringInjective(m: nat, n: nat)
    requires NatToString(m) == NatToString(n)
    ensures m == n
  {
    NatToStringRoundTrip(m);
    NatToStringRoundTrip(n);
  }

  /** So two instants formatted alike are the same instant. */
  lemma IntToStringInjective(a: int, b: int)
    requires IntToString(a) == IntToString(b)
    ensures a == b
  {
    var sa, sb := IntToString(a), IntToString(b);
    assert (a < 0) == (b < 0) by {
      assert (sa[0] == '-') == (a < 0) && (sb[0] == '-') == (b < 0);
    }
    if a < 0 {
      assert sa[1..] == NatToString(-a) && sb[1..] == NatToString(-b);
      NatToStringInjective(-a, -b);
    } else {
      NatToStringInjective(a, b);
    }
  }

  // ---------------------------------------------------------------------------
  // The bounded newest-first history:
  //   list.unshift(x); if (list.length > cap) list = list.slice(0, cap);

  function BoundedPrepend<T>(x: T, s: seq<T>, cap: nat): (r: seq<T>)
    requires 0 < cap
    ensures |r| == if |s| < cap then |s| + 1 else cap
    ensures r[0] == x
    ensures r[1..] == s[..|r| - 1]
  {
    var grown := [x] + s;
    if |grown| > cap then grown[..cap] else grown
  }

  /** A history within its bound stays within it, and once full it keeps
      its length while the oldest entry falls off. */
  lemma BoundedPrependBound<T>(x: T, s: seq<T>, cap: nat)
    requires 0 < cap && |s| <= cap
    ensures |BoundedPrepend(x, s, cap)| <= cap
    ensures |s| == cap ==> BoundedPrepend(x, s, cap) == [x] + s[..cap - 1]
  {
    var r := BoundedPrepend(x, s, cap);
    if |s| == cap {
      assert r == [r[0]] + r[1..];
    }
  }

  function Reverse<T>(s: seq<T>): (r: seq<T>)
    ensures |r| == |s|
  {
    if s == [] then [] else Reverse(s[1..]) + [s[0]]
  }

  /** Position k of the reversal holds the k-th element from the end. */
  lemma {:induction false} ReverseIndex<T>(s: seq<T>)
    ensures forall k :: 0 <= k < |s| ==> Reverse(s)[k] == s[|s| - 1 - k]
  {
    if s != [] {
      ReverseIndex(s[1..]);
    }
  }

  /** The history after one bounded prepend per item of xs, xs[0] first. */
  function PrependEach<T>(xs: seq<T>, s: seq<T>, cap: nat): seq<T>
    requires 0 < cap
    decreases |xs|
  {
    if xs == [] then s else PrependEach(xs[1..], BoundedPrepend(xs[0], s, cap), cap)
  }

  /** After a run of prepends the history is the newest `cap` of all entries,
      newest first: the items in reverse order of arrival followed by the
      old history, cut to min(|xs| + |s|, cap). */
  lemma {:induction false} PrependEachNewest<T>(xs: seq<T>, s: seq<T>, cap: nat)
    requires 0 < cap && |s| <= cap
    ensures var m := if |xs| + |s| < cap then |xs| + |s| else cap;
            PrependEach(xs, s, cap) == (Reverse(xs) + s)[..m]
    decreases |xs|
  {
    var m := if |xs| + |s| < cap then |xs| + |s| else cap;
    if xs == [] {
      assert Reverse(xs) + s == s;
    } else {
      var once := BoundedPrepend(xs[0], s, cap);
      PrependEachNewest(xs[1..], once, cap);
      var a := Reverse(xs[1..]);
      assert Reverse(xs) == a + [xs[0]];
      assert m <= |a| + |once|;
      forall k | 0 <= k < m
        ensures (a + once)[k] == (Reverse(xs) + s)[k]
      {
        if k > |a| {
          assert (a + once)[k] == once[1..][k - |a| - 1];
        }
      }
    }
  }

  // ---------------------------------------------------------------------------
  // `list.filter(p)` and `list.filter(p).length`

  function Filter<T>(s: seq<T>, p: T -> bool): (r: seq<T>)
    ensures |r| <= |s|
    ensures forall i :: 0 <= i < |r| ==> r[i] in s && p(r[i])
    ensures forall i :: 0 <= i < |s| && p(s[i]) ==> s[i] in r
  {
    if s == [] then []
    else
      var rest := Filter(s[1..], p);
      assert forall i :: 1 <= i < |s| ==> s[i] == s[1..][i - 1];
      (if p(s[0]) then [s[0]] else []) + rest
  }

  /** Filtering keeps the order of the list: it distributes over concatenation. */
  lemma {:induction false} FilterConcat<T>(a: seq<T>, b: seq<T>, p: T -> bool)
    ensures Filter(a + b, p) == Filter(a, p) + Filter(b, p)
  {
    if a != [] {
      assert (a + b)[0] == a[0];
      assert (a + b)[1..] == a[1..] + b;
      FilterConcat(a[1..], b, p);
    } else {
      assert a + b == b;
    }
  }

  function Count<T>(s: seq<T>, p: T -> bool): (n: nat)
    ensures n <= |s|
  {
    if s == [] then 0 else (if p(s[0]) then 1 else 0) + Count(s[1..], p)
  }

  /** `filter(p).length` is the number of elements satisfying p. */
  lemma {:induction false} FilterLength<T>(s: seq<T>, p: T -> bool)
    ensures |Filter(s, p)| == Count(s, p)
  {
    if s != [] {
      FilterLength(s[1..], p);
    }
  }

  /** Counts of two properties no element has at once add up to at most the
      length of the list. */
  lemma {:induction false} CountDisjoint<T>(s: seq<T>, p: T -> bool, q: T -> bool)
    requires forall i :: 0 <= i < |s| ==> !(p(s[i]) && q(s[i]))
    ensures Count(s, p) + Count(s, q) <= |s|
  {
    if s != [] {
      CountDisjoint(s[1..], p, q);
    }
  }

  /** Counts of three pairwise exclusive properties add up to at most the
      length, and to exactly the length when every element has one of them. */
  lemma {:induction false} CountDisjoint3<T>(s: seq<T>, p: T -> bool, q: T -> bool, r: T -> bool)
    requires forall i :: 0 <= i < |s| ==> !(p(s[i]) && q(s[i])) && !(p(s[i]) && r(s[i])) && !(q(s[i]) && r(s[i]))
    ensures Count(s, p) + Count(s, q) + Count(s, r) <= |s|
    ensures (forall i :: 0 <= i < |s| ==> p(s[i]) || q(s[i]) || r(s[i])) ==>
              Count(s, p) + Count(s, q) + Count(s, r) == |s|
  {
    if s != [] {
      CountDisjoint3(s[1..], p, q, r);
    }
  }

  /** When every element satisfies p, p counts them all. */
  lemma {:induction false} CountEvery<T>(s: seq<T>, p: T -> bool)
    ensures (forall i :: 0 <= i < |s| ==> p(s[i])) ==> Count(s, p) == |s|
  {
    if s != [] {
      CountEvery(s[1..], p);
      assert forall i :: 1 <= i < |s| ==> s[i] == s[1..][i - 1];
    }
  }
}
