// Ramer-Douglas-Peucker simplification of a ride track, in place over a `keep` array.
// Distances are compared as squares of reals; the flat projection is a parameter.
module Simplify {
  datatype Coordinate = Coordinate(lat: real, lon: real)
  datatype FlatPoint = FlatPoint(x: real, y: real)

  /** The projection of a coordinate, given the latitude of the track's first point. */
  type Projection = (real, Coordinate) -> FlatPoint

  function Times(a: real, b: real): real {
    a * b
  }

  function Square(r: real): real {
    Times(r, r)
  }

  lemma TimesPositive(a: real, b: real)
    requires a > 0.0 && b > 0.0
    ensures Times(a, b) > 0.0
  {
  }

  lemma TimesNegated(a: real, b: real)
    ensures Times(-a, -b) == Times(a, b)
  {
  }

  /** The squared distance of `p` from the line through `a` and `b`, or from `a` when they coincide. */
  function Dist2(p: FlatPoint, a: FlatPoint, b: FlatPoint): real {
    var dx, dy := b.x - a.x, b.y - a.y;
    if dx == 0.0 && dy == 0.0 then
      Square(p.x - a.x) + Square(p.y - a.y)
    else
      LengthPositive(dx, dy);
      Square(Times(dy, p.x) - Times(dx, p.y) + Times(b.x, a.y) - Times(b.y, a.x)) / (Square(dx) + Square(dy))
  }

  lemma SquarePositive(r: real)
    ensures Square(r) >= 0.0 && (r != 0.0 ==> Square(r) > 0.0)
  {
    if r > 0.0 {
      TimesPositive(r, r);
    } else if r < 0.0 {
      TimesPositive(-r, -r);
      TimesNegated(r, r);
    }
  }

  lemma LengthPositive(dx: real, dy: real)
    requires dx != 0.0 || dy != 0.0
    ensures Square(dx) + Square(dy) > 0.0
  {
    SquarePositive(dx);
    SquarePositive(dy);
  }

  lemma QuotientNonNegative(a: real, b: real)
    requires a >= 0.0 && b > 0.0
    ensures a / b >= 0.0
  {
  }

  lemma Dist2NonNegative(p: FlatPoint, a: FlatPoint, b: FlatPoint)
    ensures Dist2(p, a, b) >= 0.0
  {
    var dx, dy := b.x - a.x, b.y - a.y;
    if dx == 0.0 && dy == 0.0 {
      SquarePositive(p.x - a.x);
      SquarePositive(p.y - a.y);
    } else {
      LengthPositive(dx, dy);
      var num := Times(dy, p.x) - Times(dx, p.y) + Times(b.x, a.y) - Times(b.y, a.x);
      SquarePositive(num);
      QuotientNonNegative(Square(num), Square(dx) + Square(dy));
    }
  }

  /** The distance that the split points are chosen by; the program uses `Dist2`. */
  type Metric = (FlatPoint, FlatPoint, FlatPoint) -> real

  ghost predicate NonNegative(d: Metric) {
    forall p, a, b :: d(p, a, b) >= 0.0
  }

  /** Whether a distance with square `d2` is above the tolerance. */
  predicate Exceeds(d2: real, epsilon: real) {
    epsilon < 0.0 || d2 > Square(epsilon)
  }

  // ---- The reference definition --------------------------------------------------------------

  function Deviation(d: Metric, pts: seq<FlatPoint>, f: nat, l: nat, i: nat): real
    requires f < |pts| && l < |pts| && i < |pts|
  {
    d(pts[i], pts[f], pts[l])
  }

  /** `m` is the first point between `f` and `k` that lies farthest from the chord from `f` to `l`. */
  predicate IsFarthest(d: Metric, pts: seq<FlatPoint>, f: nat, l: nat, k: nat, m: nat)
    requires l < |pts|
  {
    && f < m < k <= l
    && (forall j :: f < j < m ==> Deviation(d, pts, f, l, j) < Deviation(d, pts, f, l, m))
    && (forall j :: m < j < k ==> Deviation(d, pts, f, l, j) <= Deviation(d, pts, f, l, m))
  }

  function Farthest(d: Metric, pts: seq<FlatPoint>, f: nat, l: nat, k: nat): (m: nat)
    requires f + 1 < k <= l < |pts|
    ensures IsFarthest(d, pts, f, l, k, m)
  {
    if k == f + 2 then f + 1
    else
      var m := Farthest(d, pts, f, l, k - 1);
      if Deviation(d, pts, f, l, k - 1) > Deviation(d, pts, f, l, m) then k - 1 else m
  }

  lemma FarthestIsUnique(d: Metric, pts: seq<FlatPoint>, f: nat, l: nat, m: nat, m': nat)
    requires f + 1 < l < |pts| && IsFarthest(d, pts, f, l, l, m) && IsFarthest(d, pts, f, l, l, m')
    ensures m == m'
  {
    var a, b := Deviation(d, pts, f, l, m), Deviation(d, pts, f, l, m');
    assert a == b;
  }

  predicate Increasing(s: seq<nat>) {
    forall i, j :: 0 <= i < j < |s| ==> s[i] < s[j]
  }

  lemma JoinIncreasing(left: seq<nat>, m: nat, right: seq<nat>)
    requires Increasing(left) && Increasing(right)
    requires forall k :: 0 <= k < |left| ==> left[k] < m
    requires forall k :: 0 <= k < |right| ==> m < right[k]
    ensures Increasing(left + [m] + right)
  {
  }

  /** The points kept strictly between `f` and `l`, in order. */
  function Kept(d: Metric, pts: seq<FlatPoint>, f: nat, l: nat, epsilon: real): (s: seq<nat>)
    requires f <= l < |pts|
    ensures forall k :: 0 <= k < |s| ==> f < s[k] < l
    decreases l - f
  {
    if l <= f + 1 then []
    else
      var m := Farthest(d, pts, f, l, l);
      if Exceeds(Deviation(d, pts, f, l, m), epsilon)
      then Kept(d, pts, f, m, epsilon) + [m] + Kept(d, pts, m, l, epsilon)
      else []
  }

  lemma {:induction false} KeptIncreases(d: Metric, pts: seq<FlatPoint>, f: nat, l: nat, epsilon: real)
    requires f <= l < |pts|
    ensures Increasing(Kept(d, pts, f, l, epsilon))
    decreases l - f
  {
    if f + 1 < l {
      var m := Farthest(d, pts, f, l, l);
      if Exceeds(Deviation(d, pts, f, l, m), epsilon) {
        KeptIncreases(d, pts, f, m, epsilon);
        KeptIncreases(d, pts, m, l, epsilon);
        JoinIncreasing(Kept(d, pts, f, m, epsilon), m, Kept(d, pts, m, l, epsilon));
      }
    }
  }

  /** The kept points of a range together with its two ends. */
  function Chain(d: Metric, pts: seq<FlatPoint>, f: nat, l: nat, epsilon: real): (s: seq<nat>)
    requires f < l < |pts|
    ensures |s| >= 2 && s[0] == f && s[|s| - 1] == l
    ensures forall k :: 0 <= k < |s| ==> f <= s[k] <= l
  {
    [f] + Kept(d, pts, f, l, epsilon) + [l]
  }

  lemma ChainIncreases(d: Metric, pts: seq<FlatPoint>, f: nat, l: nat, epsilon: real)
    requires f < l < |pts|
    ensures Increasing(Chain(d, pts, f, l, epsilon))
  {
    KeptIncreases(d, pts, f, l, epsilon);
  }

  function Select<T>(s: seq<T>, idx: seq<nat>): (r: seq<T>)
    requires forall k :: 0 <= k < |idx| ==> idx[k] < |s|
    ensures |r| == |idx| && forall k :: 0 <= k < |idx| ==> r[k] == s[idx[k]]
  {
    seq(|idx|, k requires 0 <= k < |idx| => s[idx[k]])
  }

  function Project(track: seq<Coordinate>, proj: Projection): (pts: seq<FlatPoint>)
    requires track != []
    ensures |pts| == |track|
  {
    seq(|track|, i requires 0 <= i < |track| => proj(track[0].lat, track[i]))
  }

  function Simplified(track: seq<Coordinate>, epsilon: real, proj: Projection): seq<Coordinate> {
    if |track| < 3 then track
    else Select(track, Chain(Dist2, Project(track, proj), 0, |track| - 1, epsilon))
  }

  // ---- The program ---------------------------------------------------------------------------

  /** rdpRange: adds exactly the kept points of the open range to `keep`. */
  method RdpRange(d: Metric, pts: seq<FlatPoint>, first: nat, last: nat, epsilon: real, keep: array<bool>)
    requires NonNegative(d) && first <= last < |pts| == keep.Length
    modifies keep
    ensures forall i :: 0 <= i < keep.Length ==>
              (keep[i] <==> old(keep[i]) || i in Kept(d, pts, first, last, epsilon))
    decreases last - first
  {
    if last <= first + 1 {
      return;
    }
    var maxDist, maxIdx := -1.0, -1;
    var i := first + 1;
    while i < last
      invariant first < i <= last
      invariant i == first + 1 ==> maxDist == -1.0
      invariant i > first + 1 ==> maxIdx >= 0 && maxIdx == Farthest(d, pts, first, last, i) &&
                                  maxDist == Deviation(d, pts, first, last, maxIdx)
    {
      var dist := d(pts[i], pts[first], pts[last]);
      if dist > maxDist {
        maxDist := dist;
        maxIdx := i;
      }
      i := i + 1;
    }
    if Exceeds(maxDist, epsilon) {
      keep[maxIdx] := true;
      RdpRange(d, pts, first, maxIdx, epsilon, keep);
      RdpRange(d, pts, maxIdx, last, epsilon, keep);
    }
  }

  /** Copies the points whose flag is set, in order. */
  method Collect(track: seq<Coordinate>, keep: array<bool>, ghost idx: seq<nat>) returns (out: seq<Coordinate>)
    requires keep.Length == |track| && Increasing(idx)
    requires forall k :: 0 <= k < |idx| ==> idx[k] < |track|
    requires forall i :: 0 <= i < keep.Length ==> (keep[i] <==> i in idx)
    ensures out == Select(track, idx)
  {
    out := [];
    ghost var c := 0;
    var i := 0;
    while i < keep.Length
      invariant 0 <= i <= keep.Length && 0 <= c <= |idx|
      invariant forall k :: 0 <= k < c ==> idx[k] < i
      invariant forall k :: c <= k < |idx| ==> idx[k] >= i
      invariant out == Select(track, idx[..c])
    {
      if keep[i] {
        assert c < |idx| && idx[c] == i;
        assert idx[..c + 1] == idx[..c] + [idx[c]];
        out := out + [track[i]];
        c := c + 1;
      }
      i := i + 1;
    }
    AllTaken(idx, c, keep.Length);
    assert idx[..c] == idx;
  }

  /** No index is left when those left would all lie past the end. */
  lemma AllTaken(idx: seq<nat>, c: nat, n: nat)
    requires c <= |idx| && forall k :: 0 <= k < |idx| ==> idx[k] < n
    requires forall k :: c <= k < |idx| ==> idx[k] >= n
    ensures c == |idx|
  {
    assert idx != [] ==> idx[|idx| - 1] < n;
  }

  method SimplifyRDP(track: seq<Coordinate>, epsilon: real, proj: Projection) returns (out: seq<Coordinate>)
    ensures out == Simplified(track, epsilon, proj)
  {
    if |track| < 3 {
      return track;
    }
    var pts := Project(track, proj);
    var keep := new bool[|track|](_ => false);
    keep[0] := true;
    keep[|track| - 1] := true;
    forall p, a, b ensures Dist2(p, a, b) >= 0.0 {
      Dist2NonNegative(p, a, b);
    }
    RdpRange(Dist2, pts, 0, |pts| - 1, epsilon, keep);
    ChainIncreases(Dist2, pts, 0, |pts| - 1, epsilon);
    out := Collect(track, keep, Chain(Dist2, pts, 0, |pts| - 1, epsilon));
  }

  // ---- Results -------------------------------------------------------------------------------

  /** The result is a subsequence of the track with the same first and last point. */
  lemma {:induction false} KeepsEndpoints(track: seq<Coordinate>, epsilon: real, proj: Projection)
    requires track != []
    ensures var out := Simplified(track, epsilon, proj);
      && 0 < |out| <= |track| && out[0] == track[0] && out[|out| - 1] == track[|track| - 1]
      && exists idx :: Increasing(idx) && |idx| == |out| &&
           forall k :: 0 <= k < |out| ==> idx[k] < |track| && out[k] == track[idx[k]]
  {
    if |track| < 3 {
      var idx: seq<nat> := seq(|track|, k => k);
      assert Increasing(idx);
      assert forall k :: 0 <= k < |track| ==> idx[k] < |track| && track[k] == track[idx[k]];
    } else {
      var idx := Chain(Dist2, Project(track, proj), 0, |track| - 1, epsilon);
      ChainIncreases(Dist2, Project(track, proj), 0, |track| - 1, epsilon);
      IncreasingIsShort(idx, |track|);
    }
  }

  lemma {:induction false} IncreasingIsShort(s: seq<nat>, n: nat)
    requires Increasing(s) && forall k :: 0 <= k < |s| ==> s[k] < n
    ensures |s| <= n
  {
    if s != [] {
      IncreasingIsShort(s[..|s| - 1], s[|s| - 1]);
    }
  }

  /** Point `i` lies between the kept points `c[k]` and `c[k + 1]`, within tolerance of their chord. */
  predicate Bracketed(d: Metric, pts: seq<FlatPoint>, c: seq<nat>, epsilon: real, i: nat, k: nat) {
    && k + 1 < |c| && c[k] < i < c[k + 1] < |pts|
    && !Exceeds(Deviation(d, pts, c[k], c[k + 1], i), epsilon)
  }

  lemma ChainAtSplit(d: Metric, pts: seq<FlatPoint>, f: nat, l: nat, epsilon: real)
    requires f + 1 < l < |pts| && Exceeds(Deviation(d, pts, f, l, Farthest(d, pts, f, l, l)), epsilon)
    ensures var m := Farthest(d, pts, f, l, l);
      Chain(d, pts, f, l, epsilon) == Chain(d, pts, f, m, epsilon) + Chain(d, pts, m, l, epsilon)[1..]
  {
    var m := Farthest(d, pts, f, l, l);
    KeptAtSplit(d, pts, f, l, epsilon, m);
    EndsMeet(f, Kept(d, pts, f, m, epsilon), m, Kept(d, pts, m, l, epsilon), l);
  }

  lemma EndsMeet(f: nat, left: seq<nat>, m: nat, right: seq<nat>, l: nat)
    ensures [f] + (left + [m] + right) + [l] == ([f] + left + [m]) + ([m] + right + [l])[1..]
  {
  }

  lemma BracketInLeft(d: Metric, pts: seq<FlatPoint>, left: seq<nat>, right: seq<nat>, epsilon: real, i: nat, k: nat)
    requires Bracketed(d, pts, left, epsilon, i, k)
    ensures Bracketed(d, pts, left + right, epsilon, i, k)
  {
  }

  lemma BracketInRight(d: Metric, pts: seq<FlatPoint>, left: seq<nat>, right: seq<nat>, epsilon: real, i: nat, k: nat)
    requires Bracketed(d, pts, right, epsilon, i, k) && left != [] && left[|left| - 1] == right[0]
    ensures Bracketed(d, pts, left + right[1..], epsilon, i, |left| - 1 + k)
  {
    var c := left + right[1..];
    assert c[|left| - 1 + k] == right[k] && c[|left| + k] == right[k + 1];
  }

  /** A dropped point is within epsilon of the chord between the kept points on either side of it. */
  lemma {:induction false} DroppedIsClose(d: Metric, pts: seq<FlatPoint>, f: nat, l: nat, epsilon: real, i: nat) returns (k: nat)
    requires f < i < l < |pts| && i !in Kept(d, pts, f, l, epsilon)
    ensures Bracketed(d, pts, Chain(d, pts, f, l, epsilon), epsilon, i, k)
    decreases l - f
  {
    var m := Farthest(d, pts, f, l, l);
    if Exceeds(Deviation(d, pts, f, l, m), epsilon) {
      ChainAtSplit(d, pts, f, l, epsilon);
      KeptAtSplit(d, pts, f, l, epsilon, m);
      var left, right := Chain(d, pts, f, m, epsilon), Chain(d, pts, m, l, epsilon);
      if i < m {
        k := DroppedIsClose(d, pts, f, m, epsilon, i);
        BracketInLeft(d, pts, left, right[1..], epsilon, i, k);
      } else {
        var r := DroppedIsClose(d, pts, m, l, epsilon, i);
        BracketInRight(d, pts, left, right, epsilon, i, r);
        k := |left| - 1 + r;
      }
    } else {
      assert Chain(d, pts, f, l, epsilon) == [f, l];
      k := 0;
    }
  }

  /** The numbers from `a` up to but not including `b`. */
  function Range(a: nat, b: nat): (s: seq<nat>)
    requires a <= b
    ensures |s| == b - a && forall k :: 0 <= k < |s| ==> s[k] == a + k
  {
    seq(b - a, k requires k >= 0 => a + k)
  }

  /** `q` holds the points `sel` of `pts`, and between `a` and `b` exactly the kept points of `f` to `l`. */
  predicate Selects(d: Metric, pts: seq<FlatPoint>, f: nat, l: nat, epsilon: real, q: seq<FlatPoint>, sel: seq<nat>, a: nat, b: nat) {
    && f < l < |pts| && |q| == |sel|
    && (forall j :: 0 <= j < |sel| ==> sel[j] < |pts| && q[j] == pts[sel[j]])
    && a < b < |sel| && sel[a] == f && sel[b] == l
    && sel[a + 1..b] == Kept(d, pts, f, l, epsilon)
  }

  /** Among the kept points the same one is farthest again. */
  lemma SplitsAtTheSamePoint(d: Metric, pts: seq<FlatPoint>, f: nat, l: nat, epsilon: real, q: seq<FlatPoint>, sel: seq<nat>, a: nat, b: nat, c: nat)
    requires Selects(d, pts, f, l, epsilon, q, sel, a, b) && a < c < b && f + 1 < l && sel[c] == Farthest(d, pts, f, l, l)
    requires Selects(d, pts, f, sel[c], epsilon, q, sel, a, c) && Selects(d, pts, sel[c], l, epsilon, q, sel, c, b)
    ensures Farthest(d, q, a, b, b) == c
    ensures Deviation(d, q, a, b, c) == Deviation(d, pts, f, l, sel[c])
  {
    forall j | a < j < c ensures f < sel[j] < sel[c] {
      assert sel[j] == sel[a + 1..c][j - a - 1];
    }
    forall j | c < j < b ensures sel[c] < sel[j] < l {
      assert sel[j] == sel[c + 1..b][j - c - 1];
    }
    forall j | a < j < b ensures Deviation(d, q, a, b, j) == Deviation(d, pts, f, l, sel[j]) {
    }
    assert IsFarthest(d, q, a, b, b, c);
    FarthestIsUnique(d, q, a, b, c, Farthest(d, q, a, b, b));
  }

  /** The two halves of a split range are selected by the two halves of the selection. */
  lemma SelectsHalves(d: Metric, pts: seq<FlatPoint>, f: nat, l: nat, epsilon: real, q: seq<FlatPoint>, sel: seq<nat>, a: nat, b: nat)
    returns (c: nat)
    requires Selects(d, pts, f, l, epsilon, q, sel, a, b) && f + 1 < l
    requires Exceeds(Deviation(d, pts, f, l, Farthest(d, pts, f, l, l)), epsilon)
    ensures var m := Farthest(d, pts, f, l, l);
      && a < c < b && sel[c] == m
      && Selects(d, pts, f, m, epsilon, q, sel, a, c) && Selects(d, pts, m, l, epsilon, q, sel, c, b)
  {
    var m := Farthest(d, pts, f, l, l);
    var left, right := Kept(d, pts, f, m, epsilon), Kept(d, pts, m, l, epsilon);
    c := a + 1 + |left|;
    var mid := sel[a + 1..b];
    assert mid == left + [m] + right;
    assert sel[c] == mid[|left|];
    assert sel[a + 1..c] == mid[..|left|] == left;
    assert sel[c + 1..b] == mid[|left| + 1..] == right;
  }

  lemma KeptAtSplit(d: Metric, q: seq<FlatPoint>, a: nat, b: nat, epsilon: real, c: nat)
    requires a + 1 < b < |q| && c == Farthest(d, q, a, b, b) && Exceeds(Deviation(d, q, a, b, c), epsilon)
    ensures Kept(d, q, a, b, epsilon) == Kept(d, q, a, c, epsilon) + [c] + Kept(d, q, c, b, epsilon)
  {
  }

  lemma RangeJoin(a: nat, c: nat, b: nat)
    requires a <= c < b
    ensures Range(a, c) + [c] + Range(c + 1, b) == Range(a, b)
  {
  }

  lemma NothingKept(d: Metric, pts: seq<FlatPoint>, f: nat, l: nat, epsilon: real, q: seq<FlatPoint>, sel: seq<nat>, a: nat, b: nat)
    requires Selects(d, pts, f, l, epsilon, q, sel, a, b) && Kept(d, pts, f, l, epsilon) == []
    ensures Kept(d, q, a, b, epsilon) == Range(a + 1, b)
  {
    assert |sel[a + 1..b]| == 0;
  }

  /** Simplifying the kept points of a range keeps all of them. */
  lemma {:induction false} KeptStaysKept(d: Metric, pts: seq<FlatPoint>, f: nat, l: nat, epsilon: real, q: seq<FlatPoint>, sel: seq<nat>, a: nat, b: nat)
    requires Selects(d, pts, f, l, epsilon, q, sel, a, b)
    ensures Kept(d, q, a, b, epsilon) == Range(a + 1, b)
    decreases l - f
  {
    if f + 1 < l && Exceeds(Deviation(d, pts, f, l, Farthest(d, pts, f, l, l)), epsilon) {
      var m := Farthest(d, pts, f, l, l);
      var c := SelectsHalves(d, pts, f, l, epsilon, q, sel, a, b);
      KeptStaysKept(d, pts, f, m, epsilon, q, sel, a, c);
      KeptStaysKept(d, pts, m, l, epsilon, q, sel, c, b);
      SplitsAtTheSamePoint(d, pts, f, l, epsilon, q, sel, a, b, c);
      KeptAtSplit(d, q, a, b, epsilon, c);
      RangeJoin(a + 1, c, b);
    } else {
      NothingKept(d, pts, f, l, epsilon, q, sel, a, b);
    }
  }

  /** Projecting the selected points is selecting the projected points, because the first point stays. */
  lemma ProjectSelected(track: seq<Coordinate>, sel: seq<nat>, proj: Projection)
    requires |sel| >= 1 && sel[0] == 0 && forall k :: 0 <= k < |sel| ==> sel[k] < |track|
    ensures Project(Select(track, sel), proj) == Select(Project(track, proj), sel)
  {
  }

  lemma SelectAll(track: seq<Coordinate>)
    ensures Select(track, Range(0, |track|)) == track
  {
  }

  lemma ChainAgain(d: Metric, pts: seq<FlatPoint>, epsilon: real, sel: seq<nat>)
    requires |pts| >= 2 && sel == Chain(d, pts, 0, |pts| - 1, epsilon)
    ensures Chain(d, Select(pts, sel), 0, |sel| - 1, epsilon) == Range(0, |sel|)
  {
    ChainSelects(d, pts, epsilon);
    AllSurvive(d, pts, epsilon, Select(pts, sel), sel);
  }

  /** Simplifying twice with the same tolerance is simplifying once. */
  lemma {:induction false} Idempotent(track: seq<Coordinate>, epsilon: real, proj: Projection)
    ensures Simplified(Simplified(track, epsilon, proj), epsilon, proj) == Simplified(track, epsilon, proj)
  {
    if |track| >= 3 {
      var sel := Chain(Dist2, Project(track, proj), 0, |track| - 1, epsilon);
      ChainAgain(Dist2, Project(track, proj), epsilon, sel);
      ProjectSelected(track, sel, proj);
      SelectAll(Select(track, sel));
    }
  }

  lemma ChainSelects(d: Metric, pts: seq<FlatPoint>, epsilon: real)
    requires |pts| >= 2
    ensures var sel := Chain(d, pts, 0, |pts| - 1, epsilon);
            Selects(d, pts, 0, |pts| - 1, epsilon, Select(pts, sel), sel, 0, |sel| - 1)
  {
    var sel := Chain(d, pts, 0, |pts| - 1, epsilon);
    assert sel[1..|sel| - 1] == Kept(d, pts, 0, |pts| - 1, epsilon);
  }

  lemma ChainOfAll(d: Metric, q: seq<FlatPoint>, epsilon: real)
    requires |q| >= 2 && Kept(d, q, 0, |q| - 1, epsilon) == Range(1, |q| - 1)
    ensures Chain(d, q, 0, |q| - 1, epsilon) == Range(0, |q|)
  {
  }

  lemma AllSurvive(d: Metric, pts: seq<FlatPoint>, epsilon: real, q: seq<FlatPoint>, sel: seq<nat>)
    requires |pts| >= 2 && |sel| >= 2 && Selects(d, pts, 0, |pts| - 1, epsilon, q, sel, 0, |sel| - 1)
    ensures Chain(d, q, 0, |q| - 1, epsilon) == Range(0, |q|)
  {
    KeptStaysKept(d, pts, 0, |pts| - 1, epsilon, q, sel, 0, |sel| - 1);
    ChainOfAll(d, q, epsilon);
  }

  /** A looser tolerance never keeps a point that a tighter one drops. */
  lemma {:induction false} LooserKeepsLess(d: Metric, pts: seq<FlatPoint>, f: nat, l: nat, tight: real, loose: real, i: nat)
    requires f <= l < |pts| && tight <= loose && i in Kept(d, pts, f, l, loose)
    ensures i in Kept(d, pts, f, l, tight)
    decreases l - f
  {
    var m := Farthest(d, pts, f, l, l);
    assert tight >= 0.0 ==> Square(tight) <= Square(loose);
    if i in Kept(d, pts, f, m, loose) {
      LooserKeepsLess(d, pts, f, m, tight, loose, i);
    } else if i in Kept(d, pts, m, l, loose) {
      LooserKeepsLess(d, pts, m, l, tight, loose, i);
    }
  }
}
