/** Python's sequence operations on strings and lists, written out: slices
    with negative and out-of-range bounds, extended slices with a step,
    `str.join`, `str.rstrip`, `str.startswith` and `s * n`. */
module PySeq {

  import opened Packets

  /** The position Python uses for the bound `i` of `s[i:j]` (step 1) on a
      sequence of length `n`: negative bounds count from the end, and every
      bound is clamped into 0..n. */
  function Bound(i: int, n: nat): (b: nat)
    ensures b <= n
    ensures 0 <= i <= n ==> b == i
    ensures i < 0 && 0 <= n + i ==> b == n + i
    ensures (i < 0 && n + i < 0 ==> b == 0) && (n < i ==> b == n)
  {
    if i < 0 then (if n + i < 0 then 0 else n + i) else if i > n then n else i
  }

  /** `s[i:j]`. */
  function Slice<T>(s: seq<T>, i: int, j: int): (r: seq<T>)
    ensures |r| <= |s|
    ensures 0 <= i <= j <= |s| ==> r == s[i..j]
  {
    var a, b := Bound(i, |s|), Bound(j, |s|);
    if a <= b then s[a..b] else []
  }

  /** `s[:k]`. */
  function Take<T>(s: seq<T>, k: int): (r: seq<T>)
    ensures r == Slice(s, 0, k)
    ensures 0 <= k <= |s| ==> r == s[..k]
  {
    s[..Bound(k, |s|)]
  }

  /** `s[k:]`. */
  function Drop<T>(s: seq<T>, k: int): (r: seq<T>)
    ensures r == Slice(s, k, |s|)
    ensures 0 <= k <= |s| ==> r == s[k..]
  {
    s[Bound(k, |s|)..]
  }

  /** Whatever the cut, `s[:k] + s[k:] == s`. */
  lemma TakeDrop<T>(s: seq<T>, k: int)
    ensures Take(s, k) + Drop(s, k) == s
    ensures |Take(s, k)| == Bound(k, |s|)
  {
  }

  /** The start or stop of an extended slice with a negative step, on a
      sequence of length `n`: a position in -1..n-1, where -1 stands for
      "before the first element". */
  function DownBound(i: int, n: nat): (b: int)
    ensures -1 <= b < n
  {
    var j := if i < 0 then i + n else i;
    if j < 0 then -1 else if j >= n then n - 1 else j
  }

  /** The elements at a, a+step, a+2*step, ... below b. */
  function Up<T>(s: seq<T>, a: nat, b: nat, step: nat): seq<T>
    requires b <= |s| && 0 < step
    decreases b - a
  {
    if a >= b then [] else [s[a]] + Up(s, a + step, b, step)
  }

  /** The elements at a, a+step, a+2*step, ... above b (step is negative). */
  function Down<T>(s: seq<T>, a: int, b: int, step: int): seq<T>
    requires -1 <= b && a < |s| && step < 0
    decreases a - b
  {
    if a <= b then [] else [s[a]] + Down(s, a + step, b, step)
  }

  /** `s[start:stop:step]`; `None` when Python raises ValueError (step 0). */
  function StepSlice<T>(s: seq<T>, start: int, stop: int, step: int): (r: Option<seq<T>>)
    ensures r.Some? <==> step != 0
    ensures step == 1 ==> r == Some(Slice(s, start, stop))
  {
    if step > 0 then
      UpUnit(s, Bound(start, |s|), Bound(stop, |s|));
      Some(Up(s, Bound(start, |s|), Bound(stop, |s|), step))
    else if step < 0 then Some(Down(s, DownBound(start, |s|), DownBound(stop, |s|), step))
    else None
  }

  /** Step 1 is the ordinary slice. */
  lemma {:induction false} UpUnit<T>(s: seq<T>, a: nat, b: nat)
    requires b <= |s|
    ensures Up(s, a, b, 1) == if a <= b then s[a..b] else []
    decreases b - a
  {
    if a < b {
      UpUnit(s, a + 1, b);
      assert s[a..b] == [s[a]] + s[a + 1..b];
    }
  }

  /** The k-th element of an upward extended slice is s[a + k*step], and it
      lies below b. */
  lemma {:induction false} UpAt<T>(s: seq<T>, a: nat, b: nat, step: nat, k: nat)
    requires b <= |s| && 0 < step
    requires k < |Up(s, a, b, step)|
    ensures a + k * step < b
    ensures Up(s, a, b, step)[k] == s[a + k * step]
    decreases b - a
  {
    if k > 0 {
      UpAt(s, a + step, b, step, k - 1);
      assert (a + step) + (k - 1) * step == a + k * step;
    }
  }

  /** An upward extended slice has an element for every position
      a + k*step below b, and no other. */
  lemma {:induction false} UpCount<T>(s: seq<T>, a: nat, b: nat, step: nat, k: nat)
    requires b <= |s| && 0 < step
    ensures k < |Up(s, a, b, step)| <==> a + k * step < b
    decreases b - a
  {
    if a < b && k > 0 {
      UpCount(s, a + step, b, step, k - 1);
      assert (a + step) + (k - 1) * step == a + k * step;
    }
  }

  /** A downward extended slice has an element for every position
      a + k*step above b, and no other. */
  lemma {:induction false} DownCount<T>(s: seq<T>, a: int, b: int, step: int, k: nat)
    requires -1 <= b && a < |s| && step < 0
    ensures k < |Down(s, a, b, step)| <==> b < a + k * step
    decreases a - b
  {
    if a > b && k > 0 {
      DownCount(s, a + step, b, step, k - 1);
      assert (a + step) + (k - 1) * step == a + k * step;
    }
  }

  /** The k-th element of a downward extended slice is s[a + k*step], and it
      lies above b. */
  lemma {:induction false} DownAt<T>(s: seq<T>, a: int, b: int, step: int, k: nat)
    requires -1 <= b && a < |s| && step < 0
    requires k < |Down(s, a, b, step)|
    ensures b < a + k * step < |s|
    ensures Down(s, a, b, step)[k] == s[a + k * step]
    decreases a - b
  {
    if k > 0 {
      DownAt(s, a + step, b, step, k - 1);
      assert (a + step) + (k - 1) * step == a + k * step;
    }
  }

  /** The reversal of a sequence, position by position. */
  function Reverse<T>(s: seq<T>): (r: seq<T>)
    ensures |r| == |s|
    ensures forall i :: 0 <= i < |s| ==> r[i] == s[|s| - 1 - i]
  {
    seq(|s|, i requires 0 <= i < |s| => s[|s| - 1 - i])
  }

  /** `s[::-1]`, Python's full slice with step -1, is the reversal. */
  lemma {:induction false} ReverseSlice<T>(s: seq<T>)
    ensures Down(s, |s| - 1, -1, -1) == Reverse(s)
  {
    var d := Down(s, |s| - 1, -1, -1);
    DownLength(s, |s| - 1);
    forall k | 0 <= k < |s| ensures d[k] == s[|s| - 1 - k] {
      DownAt(s, |s| - 1, -1, -1, k);
      assert (|s| - 1) + k * -1 == |s| - 1 - k;
    }
  }

  lemma {:induction false} DownLength<T>(s: seq<T>, a: int)
    requires -1 <= a < |s|
    ensures |Down(s, a, -1, -1)| == a + 1
    decreases a
  {
    if a > -1 {
      DownLength(s, a - 1);
    }
  }

  /** Reversing twice gives back the sequence. */
  lemma ReverseReverse<T>(s: seq<T>)
    ensures Reverse(Reverse(s)) == s
  {
  }

  /** The concatenation of a list of sequences: `''.join(parts)`. */
  function Concat<T>(parts: seq<seq<T>>): seq<T>
  {
    if parts == [] then [] else parts[0] + Concat(parts[1..])
  }

  lemma {:induction false} ConcatAppend<T>(a: seq<seq<T>>, b: seq<seq<T>>)
    ensures Concat(a + b) == Concat(a) + Concat(b)
  {
    if a != [] {
      assert (a + b)[0] == a[0];
      assert (a + b)[1..] == a[1..] + b;
      ConcatAppend(a[1..], b);
    } else {
      assert a + b == b;
    }
  }

  lemma ConcatOne<T>(x: seq<T>)
    ensures Concat([x]) == x
  {
    assert [x][1..] == [];
  }

  /** `sep.join(parts)`. */
  function JoinWith<T>(sep: seq<T>, parts: seq<seq<T>>): seq<T>
  {
    if parts == [] then []
    else if |parts| == 1 then parts[0]
    else parts[0] + sep + JoinWith(sep, parts[1..])
  }

  /** Joining one more part puts one separator before it. */
  lemma {:induction false} JoinWithAppend<T>(sep: seq<T>, parts: seq<seq<T>>, x: seq<T>)
    requires parts != []
    ensures JoinWith(sep, parts + [x]) == JoinWith(sep, parts) + sep + x
  {
    if |parts| == 1 {
      assert (parts + [x])[1..] == [x];
    } else {
      assert (parts + [x])[1..] == parts[1..] + [x];
      JoinWithAppend(sep, parts[1..], x);
    }
  }

  /** With an empty separator, joining is concatenation. */
  lemma {:induction false} JoinWithEmpty<T>(parts: seq<seq<T>>)
    ensures JoinWith([], parts) == Concat(parts)
  {
    if |parts| == 1 {
      assert parts[1..] == [];
    } else if parts != [] {
      JoinWithEmpty(parts[1..]);
    }
  }

  /** The joined length: every part, and one separator between neighbours. */
  lemma {:induction false} JoinWithLength<T>(sep: seq<T>, parts: seq<seq<T>>)
    ensures |JoinWith(sep, parts)| == |Concat(parts)| + (if parts == [] then 0 else (|parts| - 1) * |sep|)
  {
    if |parts| == 1 {
      assert parts[1..] == [];
    } else if parts != [] {
      JoinWithLength(sep, parts[1..]);
    }
  }

  /** `c * n`: n copies of c (none when n <= 0). */
  function Repeat<T>(c: T, n: int): (r: seq<T>)
    ensures |r| == if n <= 0 then 0 else n
    ensures forall i :: 0 <= i < |r| ==> r[i] == c
  {
    if n <= 0 then [] else seq(n, _ => c)
  }

  /** `s.startswith(prefix)`. */
  predicate StartsWith<T(==)>(s: seq<T>, prefix: seq<T>)
  {
    |prefix| <= |s| && s[..|prefix|] == prefix
  }

  /** `s.rstrip(c)` for a one-character strip set: the longest prefix of s
      that does not end with c. */
  function RStrip<T(==)>(s: seq<T>, c: T): (r: seq<T>)
    ensures |r| <= |s| && r == s[..|r|]
    ensures forall i :: |r| <= i < |s| ==> s[i] == c
    ensures r == [] || r[|r| - 1] != c
  {
    if s == [] || s[|s| - 1] != c then s else RStrip(s[..|s| - 1], c)
  }

  /** Stripping a concatenation: the tail decides unless it strips to nothing. */
  lemma {:induction false} RStripAppend<T>(a: seq<T>, b: seq<T>, c: T)
    ensures RStrip(a + b, c) == if RStrip(b, c) != [] then a + RStrip(b, c) else RStrip(a, c)
    decreases |b|
  {
    if b == [] {
      assert a + b == a;
    } else if b[|b| - 1] != c {
    } else {
      assert (a + b)[..|a + b| - 1] == a + b[..|b| - 1];
      RStripAppend(a, b[..|b| - 1], c);
    }
  }
}
