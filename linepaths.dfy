/**
 * Line paths (roads, fire lines, ...) made of points in the world, and the
 * manager that keeps the registry of paths and finds the point nearest to a
 * position.
 */
module LinePaths {
  import opened GeoTransform
  import Mathf

  /** `LinePathPoint`: only its world position matters here. */
  class LinePathPoint {
    var worldPosition: Vector3

    constructor (worldPosition: Vector3)
      ensures this.worldPosition == worldPosition
    {
      this.worldPosition := worldPosition;
    }
  }

  /** `LinePath`: its points, in order. */
  class LinePath {
    var points: seq<LinePathPoint>

    constructor ()
      ensures points == []
    {
      points := [];
    }
  }

  /** `Vector3.SqrMagnitude(a - b)`. */
  function SqrDistance(a: Vector3, b: Vector3): (d: real)
    ensures d >= 0.0
  {
    var dx, dy, dz := a.x - b.x, a.y - b.y, a.z - b.z;
    dx * dx + dy * dy + dz * dz
  }

  /** Every point of the paths, path by path and in each path point by point. */
  ghost function AllPoints(paths: seq<LinePath>): seq<LinePathPoint>
    reads paths
  {
    if paths == [] then [] else AllPoints(paths[..|paths| - 1]) + paths[|paths| - 1].points
  }

  /** The squared distance of the `j`-th of `pts` to `position`. */
  ghost function DistAt(pts: seq<LinePathPoint>, position: Vector3, j: nat): real
    requires j < |pts|
    reads pts
  {
    SqrDistance(pts[j].worldPosition, position)
  }

  /**
   * `i` is the answer of the nearest-point scan over `pts`: its distance is
   * below the start bound `float.MaxValue`, every earlier point is strictly
   * farther and no later point is nearer (the first strict minimum).
   */
  ghost predicate FirstNearest(pts: seq<LinePathPoint>, position: Vector3, i: nat)
    reads pts
  {
    i < |pts| && DistAt(pts, position, i) < Mathf.FloatMax &&
    (forall j :: 0 <= j < i ==> DistAt(pts, position, j) > DistAt(pts, position, i)) &&
    (forall j :: i < j < |pts| ==> DistAt(pts, position, j) >= DistAt(pts, position, i))
  }

  /** No point of `pts` comes below the start bound, so the scan keeps nothing. */
  ghost predicate NoneNear(pts: seq<LinePathPoint>, position: Vector3)
    reads pts
  {
    forall j :: 0 <= j < |pts| ==> DistAt(pts, position, j) >= Mathf.FloatMax
  }

  /** At most one index is the first strict minimum, so the scan's answer is determined. */
  lemma FirstNearestUnique(pts: seq<LinePathPoint>, position: Vector3, i: nat, k: nat)
    requires FirstNearest(pts, position, i) && FirstNearest(pts, position, k)
    ensures i == k
  {
  }

  /** `paths` has no entry twice. */
  predicate NoDuplicates<T(==)>(paths: seq<T>) {
    forall i, j :: 0 <= i < j < |paths| ==> paths[i] != paths[j]
  }

  /** `List.IndexOf`: the position of the first occurrence of `x`. */
  function IndexOf<T(==)>(s: seq<T>, x: T): (i: nat)
    requires x in s
    ensures i < |s| && s[i] == x
    ensures forall j :: 0 <= j < i ==> s[j] != x
  {
    if s[0] == x then 0 else 1 + IndexOf(s[1..], x)
  }

  /** `List.Remove`: the first occurrence of `x` taken out, the rest kept in order. */
  function RemoveFirst<T(==)>(s: seq<T>, x: T): (r: seq<T>)
    requires x in s
    ensures |r| == |s| - 1
    ensures multiset(r) == multiset(s) - multiset{x}
  {
    var i := IndexOf(s, x);
    assert s == s[..i] + [x] + s[i + 1..];
    s[..i] + s[i + 1..]
  }

  /** Removing the only occurrence of `x` from a list without duplicates leaves no `x` and no duplicates. */
  lemma RemoveFirstOnly<T>(s: seq<T>, x: T)
    requires x in s && NoDuplicates(s)
    ensures x !in RemoveFirst(s, x) && NoDuplicates(RemoveFirst(s, x))
  {
    var i := IndexOf(s, x);
    var r := RemoveFirst(s, x);
    assert forall a :: 0 <= a < |r| ==> r[a] == s[if a < i then a else a + 1];
  }

  /** `LinePathManager`: the registry of paths. */
  class LinePathManager {
    var linePaths: seq<LinePath>

    constructor ()
      ensures linePaths == []
    {
      linePaths := [];
    }

    /** `Register`: a present path that is not yet listed is appended; anything else changes nothing. */
    method Register(path: LinePath?)
      modifies this`linePaths
      ensures path != null && path !in old(linePaths) ==> linePaths == old(linePaths) + [path]
      ensures path == null || path in old(linePaths) ==> linePaths == old(linePaths)
      ensures NoDuplicates(old(linePaths)) ==> NoDuplicates(linePaths)
    {
      if path != null && path !in linePaths {
        linePaths := linePaths + [path];
      }
    }

    /** `Unregister`: a listed path is removed (its first occurrence); anything else changes nothing. */
    method Unregister(path: LinePath?)
      modifies this`linePaths
      ensures path != null && path in old(linePaths) ==> linePaths == RemoveFirst(old(linePaths), path)
      ensures path == null || path !in old(linePaths) ==> linePaths == old(linePaths)
      ensures NoDuplicates(old(linePaths)) ==> NoDuplicates(linePaths) && (path != null ==> path !in linePaths)
    {
      if path != null && path in linePaths {
        if NoDuplicates(linePaths) {
          RemoveFirstOnly(linePaths, path);
        }
        var listed: LinePath := path;
        linePaths := RemoveFirst(linePaths, listed);
      }
    }

    /**
     * `GetNearestPoint`: the first point, in path order and then point
     * order, whose squared distance to `position` is strictly the smallest;
     * null when there is no point (or none closer than `float.MaxValue`).
     */
    method GetNearestPoint(position: Vector3) returns (best: LinePathPoint?)
      ensures best == null <==> NoneNear(AllPoints(linePaths), position)
      ensures best != null ==>
                exists i: nat :: FirstNearest(AllPoints(linePaths), position, i) && AllPoints(linePaths)[i] == best
    {
      best := null;
      var bestDist := Mathf.FloatMax;
      ghost var seen: seq<LinePathPoint> := [];
      ghost var at: nat := 0;
      for n := 0 to |linePaths|
        invariant seen == AllPoints(linePaths[..n])
        invariant ScanState(seen, position, best, bestDist, at)
      {
        var path := linePaths[n];
        assert linePaths[..n + 1][..n] == linePaths[..n];
        ghost var before := seen;
        for k := 0 to |path.points|
          invariant seen == before + path.points[..k]
          invariant ScanState(seen, position, best, bestDist, at)
        {
          var p := path.points[k];
          var d := SqrDistance(p.worldPosition, position);
          assert before + path.points[..k + 1] == seen + [p];
          ScanStep(seen, p, position, best, bestDist, at);
          if d < bestDist {
            bestDist := d;
            best := p;
            at := |seen|;
          }
          seen := seen + [p];
        }
        assert path.points[..|path.points|] == path.points;
      }
      assert linePaths[..|linePaths|] == linePaths;
    }
  }

  /**
   * The state of the nearest-point scan after the points `seen`: nothing kept
   * and every distance at or above the bound, or the first strict minimum at
   * `at` kept together with its distance.
   */
  ghost predicate ScanState(seen: seq<LinePathPoint>, position: Vector3, best: LinePathPoint?, bestDist: real, at: nat)
    reads seen
  {
    (best == null ==> bestDist == Mathf.FloatMax && NoneNear(seen, position)) &&
    (best != null ==> FirstNearest(seen, position, at) && seen[at] == best && bestDist == DistAt(seen, position, at))
  }

  /** One point of the scan: keeping it exactly when it is strictly nearer keeps the scan state. */
  lemma ScanStep(seen: seq<LinePathPoint>, p: LinePathPoint, position: Vector3, best: LinePathPoint?, bestDist: real, at: nat)
    requires ScanState(seen, position, best, bestDist, at)
    ensures var d := SqrDistance(p.worldPosition, position);
            if d < bestDist then ScanState(seen + [p], position, p, d, |seen|)
            else ScanState(seen + [p], position, best, bestDist, at)
  {
    var s := seen + [p];
    assert forall j :: 0 <= j < |seen| ==> DistAt(s, position, j) == DistAt(seen, position, j);
    assert DistAt(s, position, |seen|) == SqrDistance(p.worldPosition, position);
  }
}
