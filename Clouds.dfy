/** The point cloud buffer that both exporter functions transform and filter
    in place. Only the three coordinate rows are modelled. */
module Clouds {
  import opened Geometry
  import opened Masks

  /** Every point of s rotated by m. */
  function RotateAll(m: Mat3, s: seq<Vec3>): (r: seq<Vec3>)
    ensures |r| == |s|
  {
    seq(|s|, i requires 0 <= i < |s| => Apply(m, s[i]))
  }

  /** Every point of s shifted by t. */
  function TranslateAll(t: Vec3, s: seq<Vec3>): (r: seq<Vec3>)
    ensures |r| == |s|
  {
    seq(|s|, i requires 0 <= i < |s| => Add(s[i], t))
  }

  /** Every point of s moved from the pose's frame into its parent frame,
      as rotating and then translating the cloud does it. */
  function ForwardAll(pose: Pose, s: seq<Vec3>): (r: seq<Vec3>)
    ensures |r| == |s|
  {
    TranslateAll(pose.translation, RotateAll(pose.rotation, s))
  }

  /** Every point of s moved from a parent frame back into the pose's frame,
      as translating by the negated translation and then rotating by the
      transposed rotation does it. */
  function BackwardAll(pose: Pose, s: seq<Vec3>): (r: seq<Vec3>)
    ensures |r| == |s|
  {
    RotateAll(Transpose(pose.rotation), TranslateAll(Neg(pose.translation), s))
  }

  /** Moving the kept columns is moving all columns and then keeping them. */
  lemma {:induction false} SelectForwardAll(m: seq<bool>, s: seq<Vec3>, pose: Pose)
    requires |m| == |s|
    ensures ForwardAll(pose, Select(m, s)) == Select(m, ForwardAll(pose, s))
  {
    if m != [] {
      var n := |m| - 1;
      assert ForwardAll(pose, s)[..n] == ForwardAll(pose, s[..n]);
      SelectForwardAll(m[..n], s[..n], pose);
      var x := Select(m[..n], s[..n]);
      if m[n] {
        assert ForwardAll(pose, x + [s[n]]) == ForwardAll(pose, x) + [Forward(pose, s[n])];
      } else {
        assert x + [] == x;
      }
    }
  }

  class PointCloud {
    /** One column per point. */
    var points: array<Vec3>

    /** The cloud as loaded from its file. */
    constructor (cloud: seq<Vec3>)
      ensures fresh(points) && points[..] == cloud
    {
      points := new Vec3[|cloud|](i requires 0 <= i < |cloud| => cloud[i]);
    }

    /** Rotates every point in place by m. */
    method Rotate(m: Mat3)
      modifies points
      ensures points[..] == RotateAll(m, old(points[..]))
    {
      for i := 0 to points.Length
        invariant forall j :: 0 <= j < i ==> points[j] == Apply(m, old(points[j]))
        invariant forall j :: i <= j < points.Length ==> points[j] == old(points[j])
      {
        points[i] := Apply(m, points[i]);
      }
    }

    /** Shifts every point in place by t. */
    method Translate(t: Vec3)
      modifies points
      ensures points[..] == TranslateAll(t, old(points[..]))
    {
      for i := 0 to points.Length
        invariant forall j :: 0 <= j < i ==> points[j] == Add(old(points[j]), t)
        invariant forall j :: i <= j < points.Length ==> points[j] == old(points[j])
      {
        points[i] := Add(points[i], t);
      }
    }

    /** Replaces the buffer by the columns at which keep is true, in order. */
    method Filter(keep: seq<bool>)
      requires |keep| == points.Length
      modifies this
      ensures fresh(points) && points[..] == Select(keep, old(points[..]))
    {
      var kept := SelectMasked(keep, points[..]);
      points := new Vec3[|kept|](i requires 0 <= i < |kept| => kept[i]);
    }
  }
}
