/**
 * Where a signal sits on its route: the segment lengths of the polyline, and
 * the walk over cumulative lengths that finds the segment holding a given
 * distance and the fraction of that segment already covered
 * (`Signal.draw` and `Signal3D.draw`).
 */
module ArcLength {
  import opened Js
  import opened Geometry

  /** The sum of a sequence, accumulated from the left as `totalLength += length` does. */
  function Sum(s: seq<real>): real
    decreases |s|
  {
    if s == [] then 0.0 else Sum(s[..|s| - 1]) + s[|s| - 1]
  }

  lemma SumSnoc(s: seq<real>, x: real)
    ensures Sum(s + [x]) == Sum(s) + x
  {
    assert (s + [x])[..|s|] == s;
  }

  predicate NonNegative(s: seq<real>) {
    forall k | 0 <= k < |s| :: s[k] >= 0.0
  }

  /** Partial sums of non-negative lengths grow with the prefix. */
  lemma {:induction false} PrefixSumsGrow(s: seq<real>, j: nat, k: nat)
    requires NonNegative(s) && j <= k <= |s|
    ensures Sum(s[..j]) <= Sum(s[..k])
    decreases k - j
  {
    if j < k {
      PrefixSumsGrow(s, j, k - 1);
      assert s[..k][..k - 1] == s[..k - 1];
    }
  }

  /** The lengths of the legs of a 2D polyline. */
  function Lengths2(norm: Norm2, path: seq<Point2>): (ls: seq<real>)
    ensures |ls| == if path == [] then 0 else |path| - 1
    ensures forall k | 0 <= k < |ls| :: ls[k] == Distance2(norm, path[k], path[k + 1])
  {
    if |path| <= 1 then [] else [Distance2(norm, path[0], path[1])] + Lengths2(norm, path[1..])
  }

  /** The lengths of the legs of a 3D polyline. */
  function Lengths3(norm: Norm3, path: seq<Point3>): (ls: seq<real>)
    ensures |ls| == if path == [] then 0 else |path| - 1
    ensures forall k | 0 <= k < |ls| :: ls[k] == Distance3(norm, path[k], path[k + 1])
  {
    if |path| <= 1 then [] else [Distance3(norm, path[0], path[1])] + Lengths3(norm, path[1..])
  }

  /** The first loop of `draw`: the leg lengths and their total. */
  method MeasurePath2(norm: Norm2, path: seq<Point2>) returns (lengths: seq<real>, total: real)
    ensures lengths == Lengths2(norm, path)
    ensures total == Sum(lengths)
  {
    lengths, total := [], 0.0;
    var i := 0;
    while i + 1 < |path|
      invariant path == [] ==> i == 0
      invariant path != [] ==> i < |path|
      invariant |lengths| == i
      invariant forall k | 0 <= k < i :: lengths[k] == Distance2(norm, path[k], path[k + 1])
      invariant total == Sum(lengths)
    {
      var length := Distance2(norm, path[i], path[i + 1]);
      SumSnoc(lengths, length);
      lengths, total := lengths + [length], total + length;
      i := i + 1;
    }
    var expected := Lengths2(norm, path);
    assert |lengths| == |expected|;
    forall k | 0 <= k < |lengths|
      ensures lengths[k] == expected[k]
    {
      assert lengths[k] == Distance2(norm, path[k], path[k + 1]);
      assert expected[k] == Distance2(norm, path[k], path[k + 1]);
    }
  }

  method MeasurePath3(norm: Norm3, path: seq<Point3>) returns (lengths: seq<real>, total: real)
    ensures lengths == Lengths3(norm, path)
    ensures total == Sum(lengths)
  {
    lengths, total := [], 0.0;
    var i := 0;
    while i + 1 < |path|
      invariant path == [] ==> i == 0
      invariant path != [] ==> i < |path|
      invariant |lengths| == i
      invariant forall k | 0 <= k < i :: lengths[k] == Distance3(norm, path[k], path[k + 1])
      invariant total == Sum(lengths)
    {
      var length := Distance3(norm, path[i], path[i + 1]);
      SumSnoc(lengths, length);
      lengths, total := lengths + [length], total + length;
      i := i + 1;
    }
    var expected := Lengths3(norm, path);
    assert |lengths| == |expected|;
    forall k | 0 <= k < |lengths|
      ensures lengths[k] == expected[k]
    {
      assert lengths[k] == Distance3(norm, path[k], path[k + 1]);
      assert expected[k] == Distance3(norm, path[k], path[k + 1]);
    }
  }

  /** A segment index and the fraction of that segment covered, as a JavaScript number. */
  datatype Locus = Locus(index: nat, fraction: Num)

  /**
   * The lookup as written: the first segment i whose end lies at or beyond the
   * target gives `(target - start) / length`; when no segment does, index 0
   * and fraction 0 remain.
   */
  function LocateFrom(ls: seq<real>, i: nat, current: real, target: real): Locus
    requires i <= |ls|
    decreases |ls| - i
  {
    if i == |ls| then Locus(0, Finite(0.0))
    else if current + ls[i] >= target then Locus(i, Divide(target - current, ls[i]))
    else LocateFrom(ls, i + 1, current + ls[i], target)
  }

  function Locate(ls: seq<real>, target: real): Locus {
    LocateFrom(ls, 0, 0.0, target)
  }

  /** The lookup with a zero-length segment read as fraction 0 instead of 0/0. */
  function LocateCorrectedFrom(ls: seq<real>, i: nat, current: real, target: real): Locus
    requires i <= |ls|
    decreases |ls| - i
  {
    if i == |ls| then Locus(0, Finite(0.0))
    else if current + ls[i] >= target then
      Locus(i, if ls[i] == 0.0 then Finite(0.0) else Finite((target - current) / ls[i]))
    else LocateCorrectedFrom(ls, i + 1, current + ls[i], target)
  }

  function LocateCorrected(ls: seq<real>, target: real): Locus {
    LocateCorrectedFrom(ls, 0, 0.0, target)
  }

  /** The loop of `draw` that walks the cumulative lengths, stopping at the first segment that reaches the target. */
  method FindSegment(ls: seq<real>, target: real) returns (index: nat, fraction: Num)
    ensures Locus(index, fraction) == Locate(ls, target)
  {
    var current := 0.0;
    index, fraction := 0, Finite(0.0);
    var i := 0;
    while i < |ls|
      invariant i <= |ls|
      invariant LocateFrom(ls, i, current, target) == Locate(ls, target)
    {
      if current + ls[i] >= target {
        index, fraction := i, Divide(target - current, ls[i]);
        break;
      }
      current := current + ls[i];
      i := i + 1;
    }
  }

  /** The same walk with the corrected division. */
  method FindSegmentCorrected(ls: seq<real>, target: real) returns (index: nat, fraction: real)
    ensures Locus(index, Finite(fraction)) == LocateCorrected(ls, target)
  {
    var current := 0.0;
    index, fraction := 0, 0.0;
    var i := 0;
    while i < |ls|
      invariant i <= |ls|
      invariant LocateCorrectedFrom(ls, i, current, target) == LocateCorrected(ls, target)
    {
      if current + ls[i] >= target {
        index := i;
        fraction := if ls[i] == 0.0 then 0.0 else (target - current) / ls[i];
        break;
      }
      current := current + ls[i];
      i := i + 1;
    }
  }

  /** The fraction of a segment [c, c + len] at which a target inside it lies. */
  lemma Hit(len: real, c: real, target: real)
    requires len >= 0.0 && c <= target <= c + len
    requires c < target || len > 0.0
    ensures len > 0.0
    ensures var d := Divide(target - c, len);
      d.Finite? && 0.0 <= d.v <= 1.0 && c + d.v * len == target
  {
    FractionInUnit(target - c, len);
    FractionTimesLength(target - c, len);
  }

  lemma FractionInUnit(x: real, y: real)
    requires 0.0 <= x <= y && y > 0.0
    ensures 0.0 <= x / y <= 1.0
  {
  }

  lemma FractionTimesLength(x: real, y: real)
    requires y != 0.0
    ensures x / y * y == x
  {
  }

  /** How far along the path a locus lies, when its fraction is finite. */
  function Position(ls: seq<real>, l: Locus): real
    requires l.index < |ls| && l.fraction.Finite?
  {
    Sum(ls[..l.index]) + l.fraction.v * ls[l.index]
  }

  /**
   * For a target between 0 and the total, the lookup lands on a segment of
   * positive length, with a finite fraction in [0, 1], at exactly the target
   * distance along the path -- unless the target is 0 and the first segment
   * has zero length.
   */
  lemma Locate_Spec(ls: seq<real>, target: real)
    requires NonNegative(ls) && |ls| > 0
    requires 0.0 <= target <= Sum(ls)
    requires ls[0] > 0.0 || target > 0.0
    ensures Locate(ls, target).index < |ls|
    ensures ls[Locate(ls, target).index] > 0.0
    ensures Locate(ls, target).fraction.Finite?
    ensures 0.0 <= Locate(ls, target).fraction.v <= 1.0
    ensures Position(ls, Locate(ls, target)) == target
  {
    assert ls[..0] == [];
    LocateFrom_Spec(ls, 0, 0.0, target);
  }

  lemma {:induction false} LocateFrom_Spec(ls: seq<real>, i: nat, c: real, target: real)
    requires NonNegative(ls) && i < |ls| && c == Sum(ls[..i])
    requires c <= target <= Sum(ls)
    requires c < target || ls[i] > 0.0
    ensures var l := LocateFrom(ls, i, c, target);
      && i <= l.index < |ls| && ls[l.index] > 0.0
      && l.fraction.Finite? && 0.0 <= l.fraction.v <= 1.0
      && Position(ls, l) == target
    decreases |ls| - i
  {
    assert ls[..i + 1][..i] == ls[..i];
    assert Sum(ls[..i + 1]) == c + ls[i];
    if i + 1 == |ls| {
      assert ls[..i + 1] == ls;
    }
    if c + ls[i] >= target {
      Hit(ls[i], c, target);
    } else {
      LocateFrom_Spec(ls, i + 1, c + ls[i], target);
    }
  }

  /** Whatever the target, the lookup names a segment of a non-empty path. */
  lemma Locate_Index(ls: seq<real>, target: real)
    requires |ls| > 0
    ensures Locate(ls, target).index < |ls|
  {
    LocateFrom_Index(ls, 0, 0.0, target);
  }

  lemma {:induction false} LocateFrom_Index(ls: seq<real>, i: nat, c: real, target: real)
    requires 0 < |ls| && i <= |ls|
    ensures LocateFrom(ls, i, c, target).index < |ls|
    decreases |ls| - i
  {
    if i < |ls| && c + ls[i] < target {
      LocateFrom_Index(ls, i + 1, c + ls[i], target);
    }
  }

  /** Progress 0 on a path whose first segment has length: the start of segment 0. */
  lemma Locate_Start(ls: seq<real>)
    requires |ls| > 0 && ls[0] > 0.0
    ensures Locate(ls, 0.0) == Locus(0, Finite(0.0))
  {
  }

  /** Progress 1 on a path whose last segment has length: the end of the last segment. */
  lemma Locate_End(ls: seq<real>)
    requires NonNegative(ls) && |ls| > 0 && ls[|ls| - 1] > 0.0
    ensures Locate(ls, Sum(ls)) == Locus(|ls| - 1, Finite(1.0))
  {
    assert ls[..0] == [];
    LocateFrom_End(ls, 0, 0.0);
  }

  lemma {:induction false} LocateFrom_End(ls: seq<real>, i: nat, c: real)
    requires NonNegative(ls) && i < |ls| && ls[|ls| - 1] > 0.0 && c == Sum(ls[..i])
    ensures LocateFrom(ls, i, c, Sum(ls)) == Locus(|ls| - 1, Finite(1.0))
    decreases |ls| - i
  {
    var last := |ls| - 1;
    assert ls[..i + 1][..i] == ls[..i];
    assert Sum(ls[..i + 1]) == c + ls[i];
    assert Sum(ls) == Sum(ls[..last]) + ls[last];
    if i < last {
      PrefixSumsGrow(ls, i + 1, last);
      LocateFrom_End(ls, i + 1, c + ls[i]);
    } else {
      SelfDivide(ls[last]);
    }
  }

  lemma SelfDivide(x: real)
    requires x != 0.0
    ensures x / x == 1.0
  {
  }

  lemma ScaleInRange(u: real, total: real)
    requires 0.0 <= u <= 1.0 && total >= 0.0
    ensures 0.0 <= u * total <= total
  {
  }

  lemma ScaleMonotone(u: real, v: real, total: real)
    requires u <= v && total >= 0.0
    ensures u * total <= v * total
  {
  }

  /** How far behind the head the trail starts, as a share of the path. */
  const TrailLength: real := 0.15

  /** `this.progress * totalLength`: the distance along the path where the head of a signal at `progress` sits. */
  function HeadTarget(progress: real, total: real): real {
    progress * total
  }

  /** The distance along a path of total length `total` where the trail of a signal at `progress` starts. */
  function TrailTarget(progress: real, total: real): real {
    Max(0.0, progress - TrailLength) * total
  }

  /**
   * The trail starts at progress max(0, progress - 0.15): both targets lie on
   * the path, the trail's no further along than the head's, so by
   * PositionMonotone the trail never lies ahead of the signal's head.
   */
  lemma TrailTargetsInRange(progress: real, total: real)
    requires 0.0 <= progress <= 1.0 && total >= 0.0
    ensures 0.0 <= TrailTarget(progress, total) <= HeadTarget(progress, total) <= total
  {
    ScaleInRange(progress, total);
    TrailTargetBehind(progress, total);
  }

  lemma TrailTargetBehind(progress: real, total: real)
    requires 0.0 <= progress <= 1.0 && total >= 0.0
    ensures 0.0 <= TrailTarget(progress, total) <= HeadTarget(progress, total)
  {
    if progress - TrailLength > 0.0 {
      ScaleMonotone(progress - TrailLength, progress, total);
      ScaleInRange(progress - TrailLength, total);
    } else {
      ScaleInRange(progress, total);
    }
  }

  /** A nearer target is located no further along the path. */
  lemma PositionMonotone(ls: seq<real>, t1: real, t2: real)
    requires NonNegative(ls) && |ls| > 0 && ls[0] > 0.0
    requires 0.0 <= t1 <= t2 <= Sum(ls)
    ensures Locate(ls, t1).index < |ls| && Locate(ls, t1).fraction.Finite?
    ensures Locate(ls, t2).index < |ls| && Locate(ls, t2).fraction.Finite?
    ensures Position(ls, Locate(ls, t1)) <= Position(ls, Locate(ls, t2))
  {
    Locate_Spec(ls, t1);
    Locate_Spec(ls, t2);
  }

  lemma FirstPositiveTotal(ls: seq<real>)
    requires NonNegative(ls) && |ls| > 0 && ls[0] > 0.0
    ensures Sum(ls) > 0.0
  {
    PrefixSumsGrow(ls, 1, |ls|);
    assert ls[..1] == [ls[0]] && ls[..1][..0] == [];
    assert ls[..|ls|] == ls;
  }

  /** A zero-length first segment at target 0 divides 0 by 0. */
  lemma Locate_ZeroFirstSegment(ls: seq<real>)
    requires |ls| > 0 && ls[0] == 0.0
    ensures Locate(ls, 0.0) == Locus(0, NaN)
  {
  }

  /** The corrected lookup always yields a finite fraction in [0, 1] on a segment in range. */
  lemma LocateCorrected_Spec(ls: seq<real>, target: real)
    requires NonNegative(ls) && |ls| > 0
    requires 0.0 <= target <= Sum(ls)
    ensures LocateCorrected(ls, target).index < |ls|
    ensures LocateCorrected(ls, target).fraction.Finite?
    ensures 0.0 <= LocateCorrected(ls, target).fraction.v <= 1.0
  {
    assert ls[..0] == [];
    LocateCorrectedFrom_Spec(ls, 0, 0.0, target);
  }

  lemma {:induction false} LocateCorrectedFrom_Spec(ls: seq<real>, i: nat, c: real, target: real)
    requires NonNegative(ls) && i < |ls| && c == Sum(ls[..i])
    requires c <= target <= Sum(ls)
    ensures var l := LocateCorrectedFrom(ls, i, c, target);
      l.index < |ls| && l.fraction.Finite? && 0.0 <= l.fraction.v <= 1.0
    decreases |ls| - i
  {
    assert ls[..i + 1][..i] == ls[..i];
    if i + 1 == |ls| {
      assert ls[..i + 1] == ls;
    }
    if c + ls[i] >= target {
      if ls[i] != 0.0 {
        FractionInUnit(target - c, ls[i]);
      }
    } else {
      LocateCorrectedFrom_Spec(ls, i + 1, c + ls[i], target);
    }
  }

  /** Wherever the lookup as written is well defined, the corrected one agrees with it. */
  lemma LocateCorrected_Agrees(ls: seq<real>, target: real)
    requires NonNegative(ls) && |ls| > 0
    requires 0.0 <= target <= Sum(ls)
    requires ls[0] > 0.0 || target > 0.0
    ensures LocateCorrected(ls, target) == Locate(ls, target)
  {
    assert ls[..0] == [];
    LocateFrom_Spec(ls, 0, 0.0, target);
    LocateCorrectedFrom_Agrees(ls, 0, 0.0, target);
  }

  lemma {:induction false} LocateCorrectedFrom_Agrees(ls: seq<real>, i: nat, c: real, target: real)
    requires i <= |ls|
    requires i < |ls| ==> c < target || ls[i] > 0.0
    requires NonNegative(ls)
    ensures LocateCorrectedFrom(ls, i, c, target) == LocateFrom(ls, i, c, target)
    decreases |ls| - i
  {
    if i < |ls| && c + ls[i] < target {
      LocateCorrectedFrom_Agrees(ls, i + 1, c + ls[i], target);
    }
  }

  /** The point a fraction f of the way from p1 to p2. */
  function Lerp2(p1: Point2, p2: Point2, f: real): (p: Point2)
    ensures f == 0.0 ==> p == p1
    ensures f == 1.0 ==> p == p2
  {
    Point2(p1.x + (p2.x - p1.x) * f, p1.y + (p2.y - p1.y) * f)
  }

  function Lerp3(p1: Point3, p2: Point3, f: real): (p: Point3)
    ensures f == 0.0 ==> p == p1
    ensures f == 1.0 ==> p == p2
  {
    Point3(p1.x + (p2.x - p1.x) * f, p1.y + (p2.y - p1.y) * f, p1.z + (p2.z - p1.z) * f)
  }
}
