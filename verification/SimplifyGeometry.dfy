// What the tolerance of a simplified track means: distances between points and lines of the plane, without
// the formula that the program computes them by.
module SimplifyGeometry {
  import opened Simplify

  /** The squared distance of two points. */
  function Gap2(p: FlatPoint, q: FlatPoint): real {
    (p.x - q.x) * (p.x - q.x) + (p.y - q.y) * (p.y - q.y)
  }

  /** The point `t` of the way from `a` to `b` on their line, or `a` itself when they coincide. */
  function OnLine(a: FlatPoint, b: FlatPoint, t: real): FlatPoint {
    FlatPoint(a.x + t * (b.x - a.x), a.y + t * (b.y - a.y))
  }

  // ---- The perpendicular ---------------------------------------------------------------------

  /** Pythagoras: `gap` is the squared distance of the vector (ux, uy) from `t` times (dx, dy). */
  lemma Pythagoras(ux: real, uy: real, dx: real, dy: real, t: real, len: real, cross: real, dot: real, gap: real)
    requires len == dx * dx + dy * dy && cross == dy * ux - dx * uy && dot == ux * dx + uy * dy
    requires gap == (ux - t * dx) * (ux - t * dx) + (uy - t * dy) * (uy - t * dy)
    ensures len * gap == cross * cross + (dot - t * len) * (dot - t * len)
  {
  }

  function Cross(p: FlatPoint, a: FlatPoint, b: FlatPoint): real {
    (b.y - a.y) * (p.x - a.x) - (b.x - a.x) * (p.y - a.y)
  }

  function Dot(p: FlatPoint, a: FlatPoint, b: FlatPoint): real {
    (p.x - a.x) * (b.x - a.x) + (p.y - a.y) * (b.y - a.y)
  }

  lemma OnLineGap(p: FlatPoint, a: FlatPoint, b: FlatPoint, t: real)
    ensures var dx, dy, ux, uy := b.x - a.x, b.y - a.y, p.x - a.x, p.y - a.y;
      Gap2(p, OnLine(a, b, t)) == (ux - t * dx) * (ux - t * dx) + (uy - t * dy) * (uy - t * dy)
  {
    var q := OnLine(a, b, t);
    assert p.x - q.x == p.x - a.x - t * (b.x - a.x) && p.y - q.y == p.y - a.y - t * (b.y - a.y);
  }

  lemma Gap2Length(a: FlatPoint, b: FlatPoint)
    ensures Gap2(a, b) == (b.x - a.x) * (b.x - a.x) + (b.y - a.y) * (b.y - a.y)
  {
  }

  lemma GapToLine(p: FlatPoint, a: FlatPoint, b: FlatPoint, t: real)
    ensures Gap2(a, b) * Gap2(p, OnLine(a, b, t)) ==
            Cross(p, a, b) * Cross(p, a, b) + (Dot(p, a, b) - t * Gap2(a, b)) * (Dot(p, a, b) - t * Gap2(a, b))
  {
    OnLineGap(p, a, b, t);
    Gap2Length(a, b);
    Pythagoras(p.x - a.x, p.y - a.y, b.x - a.x, b.y - a.y, t,
               Gap2(a, b), Cross(p, a, b), Dot(p, a, b), Gap2(p, OnLine(a, b, t)));
  }

  lemma NumeratorIsCross(p: FlatPoint, a: FlatPoint, b: FlatPoint)
    ensures (b.y - a.y) * p.x - (b.x - a.x) * p.y + b.x * a.y - b.y * a.x == Cross(p, a, b)
  {
  }

  lemma SquareNonNegative(x: real)
    ensures x * x >= 0.0 && (x != 0.0 ==> x * x > 0.0)
  {
  }

  lemma SquareIsProduct(x: real)
    ensures Square(x) == x * x
  {
  }

  lemma SumOfSquares(x: real, y: real, sum: real)
    requires (x != 0.0 || y != 0.0) && sum == x * x + y * y
    ensures sum > 0.0
  {
    SquarePositive(x);
    SquarePositive(y);
    SquareIsProduct(x);
    SquareIsProduct(y);
    assert sum == Square(x) + Square(y);
  }

  lemma ApartHasLength(a: FlatPoint, b: FlatPoint)
    requires a != b
    ensures Gap2(a, b) > 0.0
  {
    assert a.x != b.x || a.y != b.y;
    Gap2Length(a, b);
    SumOfSquares(b.x - a.x, b.y - a.y, Gap2(a, b));
  }

  /** Where the ends coincide, the distance is the one to that point. */
  lemma Dist2AtPoint(p: FlatPoint, a: FlatPoint)
    ensures Dist2(p, a, a) == Gap2(p, a)
  {
    SquareIsProduct(p.x - a.x);
    SquareIsProduct(p.y - a.y);
  }

  lemma QuotientTimes(num: real, len: real)
    requires len > 0.0
    ensures len * (num / len) == num
  {
  }

  lemma Dist2Unfolds(p: FlatPoint, a: FlatPoint, b: FlatPoint)
    requires a != b && Gap2(a, b) > 0.0
    ensures Dist2(p, a, b) == Cross(p, a, b) * Cross(p, a, b) / Gap2(a, b)
  {
    assert b.x - a.x != 0.0 || b.y - a.y != 0.0;
    Gap2Length(a, b);
    NumeratorIsCross(p, a, b);
    SquareIsProduct(b.x - a.x);
    SquareIsProduct(b.y - a.y);
    SquareIsProduct(Cross(p, a, b));
    TimesIsProduct(b.y - a.y, p.x);
    TimesIsProduct(b.x - a.x, p.y);
    TimesIsProduct(b.x, a.y);
    TimesIsProduct(b.y, a.x);
  }

  lemma TimesIsProduct(x: real, y: real)
    ensures Times(x, y) == x * y
  {
  }

  /** Elsewhere the formula is the square of the cross product over the length of the chord. */
  lemma Dist2IsQuotient(p: FlatPoint, a: FlatPoint, b: FlatPoint)
    requires a != b
    ensures Gap2(a, b) > 0.0 && Gap2(a, b) * Dist2(p, a, b) == Cross(p, a, b) * Cross(p, a, b)
  {
    ApartHasLength(a, b);
    Dist2Unfolds(p, a, b);
    QuotientTimes(Cross(p, a, b) * Cross(p, a, b), Gap2(a, b));
  }

  lemma CancelLength(len: real, x: real, y: real)
    requires len > 0.0
    ensures len * x <= len * y ==> x <= y
    ensures len * x == len * y ==> x == y
  {
  }

  lemma LineIsNoNearer(p: FlatPoint, a: FlatPoint, b: FlatPoint, t: real)
    requires a != b
    ensures Dist2(p, a, b) <= Gap2(p, OnLine(a, b, t))
    ensures t * Gap2(a, b) == Dot(p, a, b) ==> Dist2(p, a, b) == Gap2(p, OnLine(a, b, t))
  {
    Dist2IsQuotient(p, a, b);
    GapToLine(p, a, b, t);
    SquareNonNegative(Dot(p, a, b) - t * Gap2(a, b));
    CancelLength(Gap2(a, b), Dist2(p, a, b), Gap2(p, OnLine(a, b, t)));
  }

  /** The squared distance of `p` from the line: some point of it is that far, and none is nearer. */
  ghost predicate LeastGap(p: FlatPoint, a: FlatPoint, b: FlatPoint, d2: real, foot: real) {
    Gap2(p, OnLine(a, b, foot)) == d2 && forall t: real :: Gap2(p, OnLine(a, b, t)) >= d2
  }

  /** And the way there is at right angles to the line. */
  predicate Perpendicular(p: FlatPoint, a: FlatPoint, b: FlatPoint, foot: real) {
    Dot(p, OnLine(a, b, foot), FlatPoint(OnLine(a, b, foot).x + b.x - a.x, OnLine(a, b, foot).y + b.y - a.y)) == 0.0
  }

  /** What `Dist2` computes: the squared distance to the line, or to the one point when the ends coincide. */
  lemma {:induction false} Dist2IsLeastGap(p: FlatPoint, a: FlatPoint, b: FlatPoint) returns (foot: real)
    ensures LeastGap(p, a, b, Dist2(p, a, b), foot) && Perpendicular(p, a, b, foot)
  {
    if a == b {
      foot := 0.0;
      Dist2AtPoint(p, a);
      forall t: real ensures OnLine(a, b, t) == a {
      }
    } else {
      ApartHasLength(a, b);
      foot := Dot(p, a, b) / Gap2(a, b);
      QuotientTimes(Dot(p, a, b), Gap2(a, b));
      forall t: real ensures Gap2(p, OnLine(a, b, t)) >= Dist2(p, a, b) {
        LineIsNoNearer(p, a, b, t);
      }
      LineIsNoNearer(p, a, b, foot);
      FootIsPerpendicular(p, a, b, foot);
    }
  }

  lemma FootIsPerpendicular(p: FlatPoint, a: FlatPoint, b: FlatPoint, foot: real)
    requires foot * Gap2(a, b) == Dot(p, a, b)
    ensures Perpendicular(p, a, b, foot)
  {
    var dx, dy := b.x - a.x, b.y - a.y;
    var ux, uy := p.x - a.x, p.y - a.y;
    assert (ux - foot * dx) * dx + (uy - foot * dy) * dy == ux * dx + uy * dy - foot * (dx * dx + dy * dy);
    assert Gap2(a, b) == dx * dx + dy * dy;
  }

  // ---- The simplified track --------------------------------------------------------------------

  /** Point `i` of the track, projected at the latitude of its first point. */
  function Flat(track: seq<Coordinate>, proj: Projection, i: nat): FlatPoint
    requires i < |track|
  {
    proj(track[0].lat, track[i])
  }

  /** `idx` are the positions in the track of the points that stay. */
  predicate Stays(track: seq<Coordinate>, out: seq<Coordinate>, idx: seq<nat>) {
    && Increasing(idx) && |idx| == |out|
    && forall k :: 0 <= k < |idx| ==> idx[k] < |track| && out[k] == track[idx[k]]
  }

  /** A dropped point, and a place on the line through its kept neighbours that is within the tolerance. */
  predicate WithinTolerance(
      track: seq<Coordinate>, proj: Projection, idx: seq<nat>, epsilon: real, i: nat, k: nat, foot: real)
  {
    && i < |track| && k + 1 < |idx| && idx[k] < i < idx[k + 1] < |track|
    && Gap2(Flat(track, proj, i), OnLine(Flat(track, proj, idx[k]), Flat(track, proj, idx[k + 1]), foot)) <= epsilon * epsilon
  }

  function Indices(track: seq<Coordinate>, epsilon: real, proj: Projection): (idx: seq<nat>) {
    if |track| < 3 then Range(0, |track|) else Chain(Dist2, Project(track, proj), 0, |track| - 1, epsilon)
  }

  lemma IndicesStay(track: seq<Coordinate>, epsilon: real, proj: Projection)
    ensures Stays(track, Simplified(track, epsilon, proj), Indices(track, epsilon, proj))
  {
    if |track| >= 3 {
      ChainIncreases(Dist2, Project(track, proj), 0, |track| - 1, epsilon);
    }
  }

  lemma BracketHasFoot(
      track: seq<Coordinate>, proj: Projection, idx: seq<nat>, epsilon: real, i: nat, k: nat) returns (foot: real)
    requires track != [] && epsilon >= 0.0 && Bracketed(Dist2, Project(track, proj), idx, epsilon, i, k)
    ensures WithinTolerance(track, proj, idx, epsilon, i, k, foot)
  {
    var pts := Project(track, proj);
    foot := Dist2IsLeastGap(pts[i], pts[idx[k]], pts[idx[k + 1]]);
    SquareIsProduct(epsilon);
  }

  lemma DroppedHasFoot(track: seq<Coordinate>, epsilon: real, proj: Projection, i: nat) returns (k: nat, foot: real)
    requires i < |track| && |track| >= 3 && epsilon >= 0.0 && i !in Indices(track, epsilon, proj)
    ensures WithinTolerance(track, proj, Indices(track, epsilon, proj), epsilon, i, k, foot)
  {
    var pts, n := Project(track, proj), |track| - 1;
    var idx := Chain(Dist2, pts, 0, n, epsilon);
    assert idx[0] == 0 && idx[|idx| - 1] == n;
    k := DroppedIsClose(Dist2, pts, 0, n, epsilon, i);
    foot := BracketHasFoot(track, proj, idx, epsilon, i, k);
  }

  /** Every point that is gone lies within the tolerance of the line through the points kept on either side of it. */
  lemma {:induction false} DroppedIsNear(track: seq<Coordinate>, epsilon: real, proj: Projection, i: nat)
    returns (idx: seq<nat>, k: nat, foot: real)
    requires i < |track| && epsilon >= 0.0
    ensures Stays(track, Simplified(track, epsilon, proj), idx)
    ensures i in idx || WithinTolerance(track, proj, idx, epsilon, i, k, foot)
  {
    idx, k, foot := Indices(track, epsilon, proj), 0, 0.0;
    IndicesStay(track, epsilon, proj);
    if |track| < 3 {
      assert idx[i] == i;
    } else if i !in idx {
      k, foot := DroppedHasFoot(track, epsilon, proj, i);
    }
  }

  /** Point `i` was the farthest of the range from `a` to `b`, and too far. */
  predicate Farther(d: Metric, pts: seq<FlatPoint>, epsilon: real, a: nat, b: nat, i: nat) {
    && a < i < b < |pts| && Exceeds(Deviation(d, pts, a, b, i), epsilon)
    && forall j :: a < j < b ==> Deviation(d, pts, a, b, j) <= Deviation(d, pts, a, b, i)
  }

  predicate FartherBetween(d: Metric, pts: seq<FlatPoint>, epsilon: real, c: seq<nat>, a: nat, b: nat, i: nat) {
    a in c && b in c && Farther(d, pts, epsilon, a, b, i)
  }

  lemma FarthestExceeds(d: Metric, pts: seq<FlatPoint>, f: nat, l: nat, epsilon: real, i: nat)
    requires f < l < |pts| && i in Kept(d, pts, f, l, epsilon)
    ensures f + 1 < l && Exceeds(Deviation(d, pts, f, l, Farthest(d, pts, f, l, l)), epsilon)
  {
  }

  lemma SplitPointIsFar(d: Metric, pts: seq<FlatPoint>, f: nat, l: nat, epsilon: real)
    requires f + 1 < l < |pts| && Exceeds(Deviation(d, pts, f, l, Farthest(d, pts, f, l, l)), epsilon)
    ensures FartherBetween(d, pts, epsilon, Chain(d, pts, f, l, epsilon), f, l, Farthest(d, pts, f, l, l))
  {
    var c := Chain(d, pts, f, l, epsilon);
    assert c[0] == f && c[|c| - 1] == l;
    assert IsFarthest(d, pts, f, l, l, Farthest(d, pts, f, l, l));
  }

  lemma InOneHalf(i: nat, left: seq<nat>, m: nat, right: seq<nat>)
    requires i in left + [m] + right && i != m && i !in left
    ensures i in right
  {
  }

  /** A point that stays between the ends was the farthest of a range between two points that stay, and too far. */
  lemma {:induction false} KeptIsFar(d: Metric, pts: seq<FlatPoint>, f: nat, l: nat, epsilon: real, i: nat)
    returns (a: nat, b: nat)
    requires f < l < |pts| && i in Kept(d, pts, f, l, epsilon)
    ensures FartherBetween(d, pts, epsilon, Chain(d, pts, f, l, epsilon), a, b, i)
    decreases l - f
  {
    FarthestExceeds(d, pts, f, l, epsilon, i);
    var m := Farthest(d, pts, f, l, l);
    var left, right := Kept(d, pts, f, m, epsilon), Kept(d, pts, m, l, epsilon);
    KeptAtSplit(d, pts, f, l, epsilon, m);
    ChainAtSplit(d, pts, f, l, epsilon);
    if i == m {
      a, b := f, l;
      SplitPointIsFar(d, pts, f, l, epsilon);
    } else if i in left {
      a, b := KeptIsFar(d, pts, f, m, epsilon, i);
      FartherInHead(d, pts, epsilon, Chain(d, pts, f, m, epsilon), Chain(d, pts, m, l, epsilon), a, b, i);
    } else {
      InOneHalf(i, left, m, right);
      a, b := KeptIsFar(d, pts, m, l, epsilon, i);
      FartherInTail(d, pts, epsilon, Chain(d, pts, f, m, epsilon), Chain(d, pts, m, l, epsilon), a, b, i);
    }
  }

  lemma FartherInHead(d: Metric, pts: seq<FlatPoint>, epsilon: real, left: seq<nat>, right: seq<nat>, a: nat, b: nat, i: nat)
    requires right != [] && FartherBetween(d, pts, epsilon, left, a, b, i)
    ensures FartherBetween(d, pts, epsilon, left + right[1..], a, b, i)
  {
  }

  lemma FartherInTail(d: Metric, pts: seq<FlatPoint>, epsilon: real, left: seq<nat>, right: seq<nat>, a: nat, b: nat, i: nat)
    requires left != [] && right != [] && left[|left| - 1] == right[0] && FartherBetween(d, pts, epsilon, right, a, b, i)
    ensures FartherBetween(d, pts, epsilon, left + right[1..], a, b, i)
  {
    InTail(left, right, a);
    InTail(left, right, b);
  }

  lemma InTail(left: seq<nat>, right: seq<nat>, x: nat)
    requires left != [] && right != [] && left[|left| - 1] == right[0] && x in right
    ensures x in left + right[1..]
  {
    var k :| 0 <= k < |right| && right[k] == x;
    if k > 0 {
      assert right[1..][k - 1] == x;
    } else {
      assert left[|left| - 1] == x;
    }
  }

  /** A place where the track was split: the point is farther than the tolerance from the whole line, and no other is farther. */
  ghost predicate SplitAt(track: seq<Coordinate>, proj: Projection, epsilon: real, a: nat, b: nat, i: nat) {
    && a < i < b < |track|
    && (forall t: real :: Gap2(Flat(track, proj, i), OnLine(Flat(track, proj, a), Flat(track, proj, b), t)) > epsilon * epsilon)
    && forall j :: a < j < b ==> Nearer(track, proj, a, b, j, i)
  }

  /** Some place on the line is as near to point `j` as any is to point `i`. */
  ghost predicate Nearer(track: seq<Coordinate>, proj: Projection, a: nat, b: nat, j: nat, i: nat)
    requires a < |track| && b < |track| && j < |track| && i < |track|
  {
    exists s: real :: NoFarther(Flat(track, proj, j), Flat(track, proj, i), Flat(track, proj, a), Flat(track, proj, b), s)
  }

  ghost predicate NoFarther(q: FlatPoint, p: FlatPoint, a: FlatPoint, b: FlatPoint, s: real) {
    forall t: real :: Gap2(q, OnLine(a, b, s)) <= Gap2(p, OnLine(a, b, t))
  }

  lemma NearerByDist2(track: seq<Coordinate>, proj: Projection, a: nat, b: nat, j: nat, i: nat)
    requires a < |track| && b < |track| && j < |track| && i < |track|
    requires Dist2(Flat(track, proj, j), Flat(track, proj, a), Flat(track, proj, b)) <=
             Dist2(Flat(track, proj, i), Flat(track, proj, a), Flat(track, proj, b))
    ensures Nearer(track, proj, a, b, j, i)
  {
    var s := Dist2IsLeastGap(Flat(track, proj, j), Flat(track, proj, a), Flat(track, proj, b));
    var t := Dist2IsLeastGap(Flat(track, proj, i), Flat(track, proj, a), Flat(track, proj, b));
    assert NoFarther(Flat(track, proj, j), Flat(track, proj, i), Flat(track, proj, a), Flat(track, proj, b), s);
  }

  lemma FartherIsSplit(track: seq<Coordinate>, epsilon: real, proj: Projection, a: nat, b: nat, i: nat)
    requires track != [] && epsilon >= 0.0 && Farther(Dist2, Project(track, proj), epsilon, a, b, i)
    ensures SplitAt(track, proj, epsilon, a, b, i)
  {
    var pts := Project(track, proj);
    var foot := Dist2IsLeastGap(pts[i], pts[a], pts[b]);
    SquareIsProduct(epsilon);
    forall j | a < j < b ensures Nearer(track, proj, a, b, j, i) {
      assert Deviation(Dist2, pts, a, b, j) <= Deviation(Dist2, pts, a, b, i);
      NearerByDist2(track, proj, a, b, j, i);
    }
  }

  /** Every point that stays, the two ends apart, is there because the track was split at it. */
  lemma {:induction false} KeptIsSplit(track: seq<Coordinate>, epsilon: real, proj: Projection, k: nat)
    returns (idx: seq<nat>, a: nat, b: nat)
    requires |track| >= 3 && epsilon >= 0.0
    ensures Stays(track, Simplified(track, epsilon, proj), idx)
    ensures 0 < k < |idx| - 1 ==> a in idx && b in idx && SplitAt(track, proj, epsilon, a, b, idx[k])
  {
    idx, a, b := Indices(track, epsilon, proj), 0, 0;
    IndicesStay(track, epsilon, proj);
    if 0 < k < |idx| - 1 {
      var pts := Project(track, proj);
      assert idx[k] == Kept(Dist2, pts, 0, |track| - 1, epsilon)[k - 1];
      a, b := KeptIsFar(Dist2, pts, 0, |track| - 1, epsilon, idx[k]);
      FartherIsSplit(track, epsilon, proj, a, b, idx[k]);
    }
  }

  /** With a negative tolerance nothing is dropped. */
  lemma {:induction false} NegativeKeepsAll(d: Metric, pts: seq<FlatPoint>, f: nat, l: nat, epsilon: real, i: nat)
    requires f < i < l < |pts| && epsilon < 0.0
    ensures i in Kept(d, pts, f, l, epsilon)
    decreases l - f
  {
    var m := Farthest(d, pts, f, l, l);
    if i < m {
      NegativeKeepsAll(d, pts, f, m, epsilon, i);
    } else if i > m {
      NegativeKeepsAll(d, pts, m, l, epsilon, i);
    }
  }
}
