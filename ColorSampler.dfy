/** Coloring a point cloud from one camera image: the point cloud is moved
    into the camera's frame, projected, masked to the points that fall inside
    the image with a one-pixel margin and in front of the camera, and each
    surviving point takes the color of its nearest pixel. */
module ColorSampler {
  import opened Wrappers
  import opened Geometry
  import opened Masks
  import opened Clouds
  import opened Images
  import opened Records

  /** The projection of view_points with normalize=True, column by column:
      the pixel coordinates that a camera with the given intrinsic matrix
      assigns to a point in the camera's frame. view_points is not part of
      this model, so it is a parameter. */
  type Projection = (Mat3, Vec3) -> UV

  /** The colors of the points one camera sees, and the mask of which
      points of the cloud those are. */
  datatype Sampling = Sampling(coloring: seq<Rgb>, mask: seq<bool>)

  /** The visibility test: in front of the camera and strictly inside the
      image with a one-pixel margin on every side. */
  predicate Visible(depth: real, p: UV, width: nat, height: nat) {
    depth > 0.0 && InsideMargin(p, width, height)
  }

  /** The cloud after the four frame steps, each done as the in-place
      rotate/translate pair it is in the exporter. */
  function CameraCloud(cloud: seq<Vec3>, csSrc: Pose, egoSrc: Pose, egoDst: Pose, csDst: Pose): (r: seq<Vec3>)
    ensures |r| == |cloud|
  {
    BackwardAll(csDst, BackwardAll(egoDst, ForwardAll(egoSrc, ForwardAll(csSrc, cloud))))
  }

  /** Doing the steps to the whole cloud moves each point along the chain
      sensor -> ego -> global -> ego -> camera. */
  lemma CameraCloudAt(cloud: seq<Vec3>, csSrc: Pose, egoSrc: Pose, egoDst: Pose, csDst: Pose, i: nat)
    requires i < |cloud|
    ensures CameraCloud(cloud, csSrc, egoSrc, egoDst, csDst)[i] == ToCamera(csSrc, egoSrc, egoDst, csDst, cloud[i])
  {
  }

  /** When the camera shares the point sensor's calibration and ego pose,
      the steps return the whole cloud to where it was. */
  lemma CameraCloudRoundTrip(cloud: seq<Vec3>, cs: Pose, ego: Pose)
    requires Orthonormal(cs.rotation) && Orthonormal(ego.rotation)
    ensures CameraCloud(cloud, cs, ego, ego, cs) == cloud
  {
    forall i | 0 <= i < |cloud|
      ensures CameraCloud(cloud, cs, ego, ego, cs)[i] == cloud[i]
    {
      CameraCloudAt(cloud, cs, ego, ego, cs, i);
      ChainRoundTrip(cs, ego, cloud[i]);
    }
  }

  /** The picture taken of a camera-frame cloud: the visibility mask, and
      the pixel colors of the visible points in cloud order. */
  function Picture(pts: seq<Vec3>, intrinsic: Mat3, im: Image, project: Projection): (s: Sampling)
    ensures |s.mask| == |pts| && |s.coloring| == Count(s.mask)
  {
    var uv := Map((p: Vec3) => project(intrinsic, p), pts);
    var mask := seq(|pts|, i requires 0 <= i < |pts| => Visible(pts[i].z, uv[i], im.width, im.height));
    var picked := Select(mask, uv);
    SelectAll(mask, uv, (p: UV) => InsideMargin(p, im.width, im.height));
    Sampling(seq(|picked|, k requires 0 <= k < |picked| => PixelAt(im, picked[k])), mask)
  }

  /** What a picture promises: one mask entry per point, true exactly for
      the visible points; one color per visible point; the color at the
      visible point's rank is the pixel nearest to its projection; and
      every color is a genuine 8-bit pixel. */
  lemma PictureProperties(pts: seq<Vec3>, intrinsic: Mat3, im: Image, project: Projection)
    ensures var s := Picture(pts, intrinsic, im, project);
      && |s.mask| == |pts|
      && (forall i :: 0 <= i < |pts| ==>
            (s.mask[i] <==> Visible(pts[i].z, project(intrinsic, pts[i]), im.width, im.height)))
      && |s.coloring| == Count(s.mask)
      && (forall i :: 0 <= i < |pts| && s.mask[i] ==>
            s.coloring[Rank(s.mask, i)] == PixelAt(im, project(intrinsic, pts[i])))
      && (forall k :: 0 <= k < |s.coloring| ==> IsPixel(s.coloring[k]))
  {
    var uv := Map((p: Vec3) => project(intrinsic, p), pts);
    var mask := seq(|pts|, i requires 0 <= i < |pts| => Visible(pts[i].z, uv[i], im.width, im.height));
    SelectAtAll(mask, uv);
  }

  /** Everything pointcloud_color_from_image reads, in the order it reads
      it, followed by the picture of the cloud in the camera's frame. */
  function ColorSpec(store: Store, project: Projection, pointsensorToken: string, cameraToken: string): (r: Result<Sampling, Error>)
    ensures r.Ok? ==>
      && pointsensorToken in store.sampleData
      && store.sampleData[pointsensorToken].filename in store.clouds
      && |r.value.mask| == |store.clouds[store.sampleData[pointsensorToken].filename]|
      && |r.value.coloring| == Count(r.value.mask)
      && (forall k :: 0 <= k < |r.value.coloring| ==> IsPixel(r.value.coloring[k]))
    ensures r.Err? ==> !r.error.InvalidChannel?
  {
    var cam :- store.GetSampleData(cameraToken);
    var pointsensor :- store.GetSampleData(pointsensorToken);
    var cloud :- store.LoadCloud(pointsensor.filename);
    var im :- store.LoadImage(cam.filename);
    var csSrc :- store.GetCalibratedSensor(pointsensor.calibratedSensorToken);
    var egoSrc :- store.GetEgoPose(pointsensor.egoPoseToken);
    var egoDst :- store.GetEgoPose(cam.egoPoseToken);
    var csDst :- store.GetCalibratedSensor(cam.calibratedSensorToken);
    var pts := CameraCloud(cloud, csSrc.pose, egoSrc, egoDst, csDst.pose);
    PictureProperties(pts, csDst.intrinsic, im, project);
    Ok(Picture(pts, csDst.intrinsic, im, project))
  }

  // ---------------------------------------------------------------------
  // The imperative operations

  /** `mask = np.logical_and(mask, cond)`. */
  method Narrow(mask: array<bool>, cond: seq<bool>)
    requires |cond| == mask.Length
    modifies mask
    ensures mask[..] == And(old(mask[..]), cond)
  {
    for i := 0 to mask.Length
      invariant forall j :: 0 <= j < i ==> mask[j] == (old(mask[j]) && cond[j])
      invariant forall j :: i <= j < mask.Length ==> mask[j] == old(mask[j])
    {
      mask[i] := mask[i] && cond[i];
    }
  }

  /** The mask, built as the exporter builds it: all true, then narrowed by
      each of the five conditions in turn. It is true at a point exactly when
      the point has positive depth and projects strictly inside the margin. */
  method VisibilityMask(depths: seq<real>, uv: seq<UV>, width: nat, height: nat) returns (mask: seq<bool>)
    requires |uv| == |depths|
    ensures |mask| == |depths|
    ensures forall i :: 0 <= i < |mask| ==> (mask[i] <==> Visible(depths[i], uv[i], width, height))
  {
    var n := |depths|;
    var m := new bool[n](_ => true);
    Narrow(m, seq(n, i requires 0 <= i < n => depths[i] > 0.0));
    Narrow(m, seq(n, i requires 0 <= i < n => uv[i].u > 1.0));
    Narrow(m, seq(n, i requires 0 <= i < n => uv[i].u < width as real - 1.0));
    Narrow(m, seq(n, i requires 0 <= i < n => uv[i].v > 1.0));
    Narrow(m, seq(n, i requires 0 <= i < n => uv[i].v < height as real - 1.0));
    mask := m[..];
  }

  /** The sampling loop: column k of the preallocated coloring receives the
      pixel that the k-th surviving point rounds to. The margin keeps every
      read inside the image. */
  method SamplePixels(im: Image, points: seq<UV>) returns (coloring: seq<Rgb>)
    requires forall k :: 0 <= k < |points| ==> InsideMargin(points[k], im.width, im.height)
    ensures |coloring| == |points|
    ensures forall k :: 0 <= k < |points| ==> coloring[k] == PixelAt(im, points[k])
  {
    var c := new Rgb[|points|](_ => Rgb(0, 0, 0));
    for k := 0 to |points|
      invariant forall j :: 0 <= j < k ==> c[j] == PixelAt(im, points[j])
    {
      var ix := PixelIndex(points[k], im.width, im.height);
      c[k] := im.rows[ix.1][ix.0];
    }
    coloring := c[..];
  }

  /** The four frame steps, in place: sensor to ego at the sensor's time,
      to global, to ego at the camera's time, to camera. */
  method MoveToCamera(pc: PointCloud, csSrc: Pose, egoSrc: Pose, egoDst: Pose, csDst: Pose)
    modifies pc.points
    ensures pc.points[..] == CameraCloud(old(pc.points[..]), csSrc, egoSrc, egoDst, csDst)
  {
    pc.Rotate(csSrc.rotation);
    pc.Translate(csSrc.translation);
    pc.Rotate(egoSrc.rotation);
    pc.Translate(egoSrc.translation);
    pc.Translate(Neg(egoDst.translation));
    pc.Rotate(Transpose(egoDst.rotation));
    pc.Translate(Neg(csDst.translation));
    pc.Rotate(Transpose(csDst.rotation));
  }

  /** Taking the picture of a camera-frame cloud: depths, projection, mask,
      selection of the visible columns and the sampling loop. */
  method TakePicture(pts: seq<Vec3>, intrinsic: Mat3, im: Image, project: Projection) returns (s: Sampling)
    ensures s == Picture(pts, intrinsic, im, project)
  {
    var depths := Map((p: Vec3) => p.z, pts);
    var uv := Map((p: Vec3) => project(intrinsic, p), pts);
    var mask := VisibilityMask(depths, uv, im.width, im.height);
    var picked := SelectMasked(mask, uv);
    SelectAll(mask, uv, (p: UV) => InsideMargin(p, im.width, im.height));
    var coloring := SamplePixels(im, picked);
    assert mask == seq(|pts|, i requires 0 <= i < |pts| => Visible(pts[i].z, uv[i], im.width, im.height));
    assert coloring == seq(|picked|, k requires 0 <= k < |picked| => PixelAt(im, picked[k]));
    s := Sampling(coloring, mask);
  }

  /** pointcloud_color_from_image: the lookups and loads, the frame steps on
      a fresh copy of the point sensor's cloud, and the picture. */
  method ColorFromImage(store: Store, project: Projection, pointsensorToken: string, cameraToken: string)
    returns (r: Result<Sampling, Error>)
    ensures r == ColorSpec(store, project, pointsensorToken, cameraToken)
  {
    var cam :- store.GetSampleData(cameraToken);
    var pointsensor :- store.GetSampleData(pointsensorToken);
    var cloud :- store.LoadCloud(pointsensor.filename);
    var im :- store.LoadImage(cam.filename);
    var csSrc :- store.GetCalibratedSensor(pointsensor.calibratedSensorToken);
    var egoSrc :- store.GetEgoPose(pointsensor.egoPoseToken);
    var egoDst :- store.GetEgoPose(cam.egoPoseToken);
    var csDst :- store.GetCalibratedSensor(cam.calibratedSensorToken);
    var pc := new PointCloud(cloud);
    MoveToCamera(pc, csSrc.pose, egoSrc, egoDst, csDst.pose);
    var s := TakePicture(pc.points[..], csDst.intrinsic, im, project);
    r := Ok(s);
  }
}
