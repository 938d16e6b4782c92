/** One frame of the export: the coloring buffer filled from the six
    cameras, the cloud moved into the ego frame, the distance filter applied
    to points and colors alike, the survivors moved into the global frame,
    and a vertex line emitted for every survivor that has a color. */
module FrameExport {
  import opened Wrappers
  import opened Geometry
  import opened Masks
  import opened Clouds
  import opened Images
  import opened Records
  import opened ColorSampler

  /** The cameras in the order in which their colors are merged. */
  const CameraChannels: seq<string> :=
    ["CAM_FRONT_LEFT", "CAM_FRONT", "CAM_FRONT_RIGHT", "CAM_BACK_LEFT", "CAM_BACK", "CAM_BACK_RIGHT"]

  /** The coloring buffer's initial entry: colored by no camera. */
  const Unset := Rgb(-1, -1, -1)

  /** A coloring buffer of n unset entries. */
  function Unsets(n: nat): (r: seq<Rgb>)
    ensures |r| == n
  {
    seq(n, _ => Unset)
  }

  /** An entry is written out only if none of its channels is -1. */
  predicate HasColor(c: Rgb) {
    !(c.r == -1 || c.g == -1 || c.b == -1)
  }

  /** A line of the output file: the header, or a vertex with its position
      and its color channels scaled into [0, 1]. */
  datatype Line = Header | Vertex(position: Vec3, r: real, g: real, b: real)

  /** The vertex line of a point and its color. */
  function VertexLine(p: Vec3, c: Rgb): Line {
    Vertex(p, c.r as real / 255.0, c.g as real / 255.0, c.b as real / 255.0)
  }

  function VertexOf(pc: (Vec3, Rgb)): Line {
    VertexLine(pc.0, pc.1)
  }

  /** A vertex line whose color channels all lie in [0, 1]. */
  predicate NormalizedVertex(l: Line) {
    l.Vertex? && 0.0 <= l.r <= 1.0 && 0.0 <= l.g <= 1.0 && 0.0 <= l.b <= 1.0
  }

  // ---------------------------------------------------------------------
  // Merging the cameras

  /** Every camera sampling is shaped for a cloud of n points. */
  predicate Fits(n: nat, cams: seq<Sampling>) {
    forall c :: 0 <= c < |cams| ==> |cams[c].mask| == n && |cams[c].coloring| == Count(cams[c].mask)
  }

  /** Every color sampled by every camera is an 8-bit pixel. */
  predicate Pixels(cams: seq<Sampling>) {
    forall c, k :: 0 <= c < |cams| && 0 <= k < |cams[c].coloring| ==> IsPixel(cams[c].coloring[k])
  }

  /** The buffer after each camera, in order, has scattered its colors into
      the points its mask selects. */
  function Merge(init: seq<Rgb>, cams: seq<Sampling>): (r: seq<Rgb>)
    requires Fits(|init|, cams)
    ensures |r| == |init|
  {
    if cams == [] then init
    else
      var last := cams[|cams| - 1];
      Scatter(Merge(init, cams[..|cams| - 1]), last.mask, last.coloring)
  }

  /** Merging one more camera scatters its colors into the merge so far. */
  lemma MergeSnoc(init: seq<Rgb>, cams: seq<Sampling>, s: Sampling)
    requires Fits(|init|, cams) && |s.mask| == |init| && |s.coloring| == Count(s.mask)
    ensures Fits(|init|, cams + [s])
    ensures Merge(init, cams + [s]) == Scatter(Merge(init, cams), s.mask, s.coloring)
  {
    assert (cams + [s])[..|cams|] == cams;
  }

  /** The last camera, in merge order, whose mask covers point i. */
  function LastCover(cams: seq<Sampling>, i: nat): (r: Option<nat>)
    requires forall c :: 0 <= c < |cams| ==> i < |cams[c].mask|
    ensures r.None? ==> forall c :: 0 <= c < |cams| ==> !cams[c].mask[i]
    ensures r.Some? ==>
      r.value < |cams| && cams[r.value].mask[i] &&
      forall d :: r.value < d < |cams| ==> !cams[d].mask[i]
  {
    if cams == [] then None
    else if cams[|cams| - 1].mask[i] then Some(|cams| - 1)
    else LastCover(cams[..|cams| - 1], i)
  }

  /** The last writer wins: after the merge, a point holds the color that
      the last camera covering it sampled for it, and its initial entry when
      no camera covers it. */
  lemma {:induction false} LastWriterWins(init: seq<Rgb>, cams: seq<Sampling>, i: nat)
    requires Fits(|init|, cams) && i < |init|
    ensures Merge(init, cams)[i] ==
      match LastCover(cams, i)
      case None => init[i]
      case Some(c) => cams[c].coloring[Rank(cams[c].mask, i)]
  {
    if cams != [] {
      var n := |cams| - 1;
      var last := cams[n];
      ScatterAt(Merge(init, cams[..n]), last.mask, last.coloring, i);
      if !last.mask[i] {
        LastWriterWins(init, cams[..n], i);
      }
    }
  }

  /** A merged entry is either fully set, to a pixel some camera sampled, or
      still fully unset; it is set exactly when some camera covers the point. */
  lemma MergedEntry(n: nat, cams: seq<Sampling>, i: nat)
    requires Fits(n, cams) && Pixels(cams) && i < n
    ensures var c := Merge(Unsets(n), cams)[i];
      && (HasColor(c) <==> LastCover(cams, i).Some?)
      && (HasColor(c) ==> IsPixel(c))
      && (!HasColor(c) ==> c == Unset)
  {
    LastWriterWins(Unsets(n), cams, i);
  }

  /** After the merge, the points that carry a color are exactly the points
      some camera saw; the emission filter therefore writes a point exactly
      when a camera saw it. */
  lemma ColoredIffSeen(n: nat, cams: seq<Sampling>)
    requires Fits(n, cams) && Pixels(cams)
    ensures Map(HasColor, Merge(Unsets(n), cams)) ==
      seq(n, i requires 0 <= i < n => exists c :: 0 <= c < |cams| && cams[c].mask[i])
  {
    forall i | 0 <= i < n
      ensures HasColor(Merge(Unsets(n), cams)[i]) <==> exists c :: 0 <= c < |cams| && cams[c].mask[i]
    {
      MergedEntry(n, cams, i);
    }
  }

  // ---------------------------------------------------------------------
  // Distance filter and emission

  /** The distance test of the filter, on squared distances: with d the
      distance of p from the origin, min <= d and d <= max. */
  predicate WithinRange(p: Vec3, minDist: real, maxDist: real) {
    (minDist <= 0.0 || minDist * minDist <= Norm2(p)) && 0.0 <= maxDist && Norm2(p) <= maxDist * maxDist
  }

  /** Squaring preserves the order of non-negative reals. */
  lemma SquareOrder(a: real, b: real)
    requires 0.0 <= a && 0.0 <= b
    ensures a <= b <==> a * a <= b * b
  {
    if a <= b {
      assert a * a <= a * b;
      assert a * b <= b * b;
    } else {
      calc {
        b * b;
      <= a * b;
      <  a * a;
      }
    }
  }

  /** The squared test keeps exactly the points whose distance d from the
      origin lies in [min, max], both ends included. */
  lemma WithinRangeIsDistance(p: Vec3, minDist: real, maxDist: real, d: real)
    requires d >= 0.0 && d * d == Norm2(p)
    ensures WithinRange(p, minDist, maxDist) <==> minDist <= d <= maxDist
  {
    if minDist > 0.0 {
      SquareOrder(minDist, d);
    }
    if maxDist >= 0.0 {
      SquareOrder(d, maxDist);
    }
  }

  /** The filter's mask over a cloud in the ego frame. */
  function KeepMask(s: seq<Vec3>, minDist: real, maxDist: real): (r: seq<bool>)
    ensures |r| == |s|
  {
    seq(|s|, i requires 0 <= i < |s| => WithinRange(s[i], minDist, maxDist))
  }

  /** The vertex lines of the points whose color is set, in point order. */
  function Emit(points: seq<Vec3>, colors: seq<Rgb>): seq<Line>
    requires |points| == |colors|
  {
    if points == [] then []
    else
      var n := |points| - 1;
      Emit(points[..n], colors[..n]) + (if HasColor(colors[n]) then [VertexLine(points[n], colors[n])] else [])
  }

  /** Emission is a filter: it keeps the vertex lines of the colored points. */
  lemma {:induction false} EmitIsSelect(points: seq<Vec3>, colors: seq<Rgb>)
    requires |points| == |colors|
    ensures Emit(points, colors) == Select(Map(HasColor, colors), Map(VertexOf, Zip(points, colors)))
  {
    if points != [] {
      var n := |points| - 1;
      EmitIsSelect(points[..n], colors[..n]);
      var hm := Map(HasColor, colors);
      var vs := Map(VertexOf, Zip(points, colors));
      assert hm[..n] == Map(HasColor, colors[..n]);
      assert vs[..n] == Map(VertexOf, Zip(points[..n], colors[..n]));
      assert hm[n] == HasColor(colors[n]) && vs[n] == VertexLine(points[n], colors[n]);
      assert Select(hm, vs) == Select(hm[..n], vs[..n]) + (if hm[n] then [vs[n]] else []);
    }
  }

  /** Every emitted line is a vertex with its color scaled into [0, 1] when
      every set color is a pixel. */
  lemma {:induction false} EmitNormalized(points: seq<Vec3>, colors: seq<Rgb>)
    requires |points| == |colors|
    requires forall i :: 0 <= i < |colors| && HasColor(colors[i]) ==> IsPixel(colors[i])
    ensures forall l :: l in Emit(points, colors) ==> NormalizedVertex(l)
  {
    if points != [] {
      var n := |points| - 1;
      EmitNormalized(points[..n], colors[..n]);
    }
  }

  /** The lines of one frame, given the cloud as loaded, its merged coloring,
      the point sensor's calibration and the ego pose: move into the ego
      frame, filter points and colors by distance, move the survivors into
      the global frame, emit. */
  function FrameLines(cloud: seq<Vec3>, coloring: seq<Rgb>, cs: Pose, ego: Pose, minDist: real, maxDist: real): seq<Line>
    requires |coloring| == |cloud|
  {
    var inEgo := ForwardAll(cs, cloud);
    var keep := KeepMask(inEgo, minDist, maxDist);
    Emit(ForwardAll(ego, Select(keep, inEgo)), Select(keep, coloring))
  }

  /** A frame writes, in point order, the vertex line of exactly those
      points that pass the distance filter (measured in the ego frame) and
      have a color; each line holds the point in the global frame and its
      own color, since one mask filters points and colors alike. */
  lemma FrameLinesSelect(cloud: seq<Vec3>, coloring: seq<Rgb>, cs: Pose, ego: Pose, minDist: real, maxDist: real)
    requires |coloring| == |cloud|
    ensures var inEgo := ForwardAll(cs, cloud);
      FrameLines(cloud, coloring, cs, ego, minDist, maxDist) ==
      Select(And(KeepMask(inEgo, minDist, maxDist), Map(HasColor, coloring)),
             Map(VertexOf, Zip(ForwardAll(ego, inEgo), coloring)))
  {
    var inEgo := ForwardAll(cs, cloud);
    var keep := KeepMask(inEgo, minDist, maxDist);
    var world := ForwardAll(ego, inEgo);
    SelectForwardAll(keep, inEgo, ego);
    EmitIsSelect(Select(keep, world), Select(keep, coloring));
    SelectMap(keep, coloring, HasColor);
    SelectZip(keep, world, coloring);
    SelectMap(keep, Zip(world, coloring), VertexOf);
    SelectSelect(keep, Map(HasColor, coloring), Map(VertexOf, Zip(world, coloring)));
  }

  /** A point is written exactly when it passes the distance filter in the
      ego frame and some camera saw it, with its global-frame position and
      the merged color. */
  lemma FrameWritesSeen(cloud: seq<Vec3>, cams: seq<Sampling>, cs: Pose, ego: Pose, minDist: real, maxDist: real)
    requires Fits(|cloud|, cams) && Pixels(cams)
    ensures var n := |cloud|;
      var inEgo := ForwardAll(cs, cloud);
      var seen := seq(n, i requires 0 <= i < n => exists c :: 0 <= c < |cams| && cams[c].mask[i]);
      FrameLines(cloud, Merge(Unsets(n), cams), cs, ego, minDist, maxDist) ==
      Select(And(KeepMask(inEgo, minDist, maxDist), seen),
             Map(VertexOf, Zip(ForwardAll(ego, inEgo), Merge(Unsets(n), cams))))
  {
    FrameLinesSelect(cloud, Merge(Unsets(|cloud|), cams), cs, ego, minDist, maxDist);
    ColoredIffSeen(|cloud|, cams);
  }

  /** The lines of a frame whose set colors are pixels are all vertex lines
      with colors in [0, 1]. */
  lemma FrameLinesNormalized(cloud: seq<Vec3>, coloring: seq<Rgb>, cs: Pose, ego: Pose, minDist: real, maxDist: real)
    requires |coloring| == |cloud|
    requires forall i :: 0 <= i < |coloring| && HasColor(coloring[i]) ==> IsPixel(coloring[i])
    ensures forall l :: l in FrameLines(cloud, coloring, cs, ego, minDist, maxDist) ==> NormalizedVertex(l)
  {
    var inEgo := ForwardAll(cs, cloud);
    var keep := KeepMask(inEgo, minDist, maxDist);
    SelectAll(keep, coloring, (c: Rgb) => HasColor(c) ==> IsPixel(c));
    EmitNormalized(ForwardAll(ego, Select(keep, inEgo)), Select(keep, coloring));
  }

  // ---------------------------------------------------------------------
  // The frame as it reads the record store

  /** The frame's point cloud was sampled by every camera: each sampling of
      the point sensor's cloud has one mask entry per point and pixel colors. */
  predicate SamplesCloud(store: Store, lidarToken: string, s: Sampling) {
    && lidarToken in store.sampleData
    && store.sampleData[lidarToken].filename in store.clouds
    && |s.mask| == |store.clouds[store.sampleData[lidarToken].filename]|
    && |s.coloring| == Count(s.mask)
    && (forall k :: 0 <= k < |s.coloring| ==> IsPixel(s.coloring[k]))
  }

  /** One camera's sampling of the frame's cloud: the camera's token from
      the sample, then the camera's picture. */
  function CameraSampling(store: Store, project: Projection, sample: SampleRecord, lidarToken: string, channel: string)
    : (r: Result<Sampling, Error>)
    ensures r.Ok? ==> SamplesCloud(store, lidarToken, r.value)
    ensures r.Err? ==> !r.error.InvalidChannel?
  {
    var cameraToken :- ChannelToken(sample, channel);
    ColorSpec(store, project, lidarToken, cameraToken)
  }

  /** The cameras' samplings, channel by channel in the given order; the
      first failure ends it. */
  function CameraSamplings(store: Store, project: Projection, sample: SampleRecord, lidarToken: string, channels: seq<string>)
    : (r: Result<seq<Sampling>, Error>)
    ensures r.Ok? ==> |r.value| == |channels| && forall c :: 0 <= c < |r.value| ==> SamplesCloud(store, lidarToken, r.value[c])
    ensures r.Err? ==> !r.error.InvalidChannel?
  {
    if channels == [] then Ok([])
    else
      var done :- CameraSamplings(store, project, sample, lidarToken, channels[..|channels| - 1]);
      var s :- CameraSampling(store, project, sample, lidarToken, channels[|channels| - 1]);
      Ok(done + [s])
  }

  /** Entry c of the samplings is the sampling of the camera on channel c,
      so merge order is channel order. */
  lemma {:induction false} SamplingsInOrder(store: Store, project: Projection, sample: SampleRecord, lidarToken: string, channels: seq<string>, c: nat)
    requires CameraSamplings(store, project, sample, lidarToken, channels).Ok? && c < |channels|
    ensures CameraSampling(store, project, sample, lidarToken, channels[c]) ==
      Ok(CameraSamplings(store, project, sample, lidarToken, channels).value[c])
  {
    var n := |channels| - 1;
    SamplingsLast(store, project, sample, lidarToken, channels);
    if c < n {
      SamplingsInOrder(store, project, sample, lidarToken, channels[..n], c);
      assert channels[..n][c] == channels[c];
    }
  }

  /** A successful list of samplings is the samplings of all channels but
      the last, followed by the last channel's sampling. */
  lemma SamplingsLast(store: Store, project: Projection, sample: SampleRecord, lidarToken: string, channels: seq<string>)
    requires CameraSamplings(store, project, sample, lidarToken, channels).Ok? && channels != []
    ensures var n := |channels| - 1;
      var done := CameraSamplings(store, project, sample, lidarToken, channels[..n]);
      var last := CameraSampling(store, project, sample, lidarToken, channels[n]);
      done.Ok? && last.Ok? &&
      CameraSamplings(store, project, sample, lidarToken, channels).value == done.value + [last.value]
  {
  }

  /** One more channel: its camera's sampling is appended, or its failure
      ends the list. */
  lemma SamplingsStep(store: Store, project: Projection, sample: SampleRecord, lidarToken: string, channels: seq<string>, c: nat)
    requires c < |channels|
    ensures CameraSamplings(store, project, sample, lidarToken, channels[..c + 1]) ==
      var done :- CameraSamplings(store, project, sample, lidarToken, channels[..c]);
      var s :- CameraSampling(store, project, sample, lidarToken, channels[c]);
      Ok(done + [s])
  {
    assert channels[..c + 1][..c] == channels[..c];
  }

  /** A failure on a prefix of the channels is the failure of all of them. */
  lemma {:induction false} SamplingsFailEarly(store: Store, project: Projection, sample: SampleRecord, lidarToken: string, channels: seq<string>, c: nat)
    requires c <= |channels|
    requires CameraSamplings(store, project, sample, lidarToken, channels[..c]).Err?
    ensures CameraSamplings(store, project, sample, lidarToken, channels) == CameraSamplings(store, project, sample, lidarToken, channels[..c])
  {
    if c < |channels| {
      var n := |channels| - 1;
      assert channels[..n][..c] == channels[..c];
      SamplingsFailEarly(store, project, sample, lidarToken, channels[..n], c);
    } else {
      assert channels[..c] == channels;
    }
  }

  /** The samplings of a successful frame fit the point sensor's cloud. */
  lemma SamplingsFit(store: Store, project: Projection, sample: SampleRecord, lidarToken: string, channels: seq<string>)
    requires lidarToken in store.sampleData && store.sampleData[lidarToken].filename in store.clouds
    requires CameraSamplings(store, project, sample, lidarToken, channels).Ok?
    ensures var cams := CameraSamplings(store, project, sample, lidarToken, channels).value;
      Fits(|store.clouds[store.sampleData[lidarToken].filename]|, cams) && Pixels(cams)
  {
  }

  /** The merged coloring of a frame whose cloud has n points. */
  function FrameColoring(store: Store, project: Projection, sample: SampleRecord, lidarToken: string, n: nat)
    : (r: Result<seq<Rgb>, Error>)
    requires lidarToken in store.sampleData && store.sampleData[lidarToken].filename in store.clouds
    requires n == |store.clouds[store.sampleData[lidarToken].filename]|
    ensures r.Ok? ==> |r.value| == n
    ensures r.Err? ==> !r.error.InvalidChannel?
  {
    var cams :- CameraSamplings(store, project, sample, lidarToken, CameraChannels);
    SamplingsFit(store, project, sample, lidarToken, CameraChannels);
    Ok(Merge(Unsets(n), cams))
  }

  /** Everything one frame reads, in the order it reads it, and its lines. */
  function FrameSpec(store: Store, project: Projection, sd: SampleData, minDist: real, maxDist: real)
    : (r: Result<seq<Line>, Error>)
    ensures r.Err? ==> !r.error.InvalidChannel?
  {
    var sample :- store.GetSample(sd.sampleToken);
    var lidarToken := sd.token;
    var lidar :- store.GetSampleData(lidarToken);
    var cloud :- store.LoadCloud(lidar.filename);
    var coloring :- FrameColoring(store, project, sample, lidarToken, |cloud|);
    var cs :- store.GetCalibratedSensor(lidar.calibratedSensorToken);
    var ego :- store.GetEgoPose(lidar.egoPoseToken);
    Ok(FrameLines(cloud, coloring, cs.pose, ego, minDist, maxDist))
  }

  /** A merged coloring has every set entry a pixel. */
  lemma FrameColoringPixels(store: Store, project: Projection, sample: SampleRecord, lidarToken: string, n: nat)
    requires lidarToken in store.sampleData && store.sampleData[lidarToken].filename in store.clouds
    requires n == |store.clouds[store.sampleData[lidarToken].filename]|
    requires FrameColoring(store, project, sample, lidarToken, n).Ok?
    ensures var c := FrameColoring(store, project, sample, lidarToken, n).value;
      |c| == n && forall i :: 0 <= i < n && HasColor(c[i]) ==> IsPixel(c[i])
  {
    var cams := CameraSamplings(store, project, sample, lidarToken, CameraChannels).value;
    SamplingsFit(store, project, sample, lidarToken, CameraChannels);
    forall i | 0 <= i < n
      ensures HasColor(Merge(Unsets(n), cams)[i]) ==> IsPixel(Merge(Unsets(n), cams)[i])
    {
      MergedEntry(n, cams, i);
    }
  }

  /** Every line a successful frame writes is a vertex with its color
      channels in [0, 1]. */
  lemma FrameSpecNormalized(store: Store, project: Projection, sd: SampleData, minDist: real, maxDist: real)
    requires FrameSpec(store, project, sd, minDist, maxDist).Ok?
    ensures forall l :: l in FrameSpec(store, project, sd, minDist, maxDist).value ==> NormalizedVertex(l)
  {
    var sample := store.GetSample(sd.sampleToken).value;
    var lidar := store.GetSampleData(sd.token).value;
    var cloud := store.LoadCloud(lidar.filename).value;
    FrameColoringPixels(store, project, sample, sd.token, |cloud|);
    var coloring := FrameColoring(store, project, sample, sd.token, |cloud|).value;
    var cs := store.GetCalibratedSensor(lidar.calibratedSensorToken).value;
    var ego := store.GetEgoPose(lidar.egoPoseToken).value;
    FrameLinesNormalized(cloud, coloring, cs.pose, ego, minDist, maxDist);
  }

  // ---------------------------------------------------------------------
  // The imperative operations

  /** The distance filter's mask, point by point. */
  method DistanceMask(points: seq<Vec3>, minDist: real, maxDist: real) returns (keep: seq<bool>)
    ensures keep == KeepMask(points, minDist, maxDist)
  {
    var k := new bool[|points|];
    for i := 0 to |points|
      invariant forall j :: 0 <= j < i ==> k[j] == WithinRange(points[j], minDist, maxDist)
    {
      k[i] := WithinRange(points[i], minDist, maxDist);
    }
    keep := k[..];
  }

  /** The write loop: walks points and colors together and emits a vertex
      line for each point none of whose color channels is -1. */
  method EmitLines(points: seq<Vec3>, colors: seq<Rgb>) returns (lines: seq<Line>)
    requires |points| == |colors|
    ensures lines == Emit(points, colors)
  {
    lines := [];
    for i := 0 to |points|
      invariant lines == Emit(points[..i], colors[..i])
    {
      assert points[..i + 1][..i] == points[..i] && colors[..i + 1][..i] == colors[..i];
      var c := colors[i];
      if c.r == -1 || c.g == -1 || c.b == -1 {
        // a point without a color is skipped
      } else {
        lines := lines + [VertexLine(points[i], c)];
      }
    }
    assert points[..|points|] == points && colors[..|colors|] == colors;
  }

  /** One camera of the coloring loop: its token from the sample, then
      pointcloud_color_from_image. */
  method SampleCamera(store: Store, project: Projection, sample: SampleRecord, lidarToken: string, channel: string)
    returns (r: Result<Sampling, Error>)
    ensures r == CameraSampling(store, project, sample, lidarToken, channel)
  {
    var cameraToken :- ChannelToken(sample, channel);
    r := ColorFromImage(store, project, lidarToken, cameraToken);
  }

  /** The coloring loop: a buffer of n unset entries, into which each camera
      in turn scatters the colors it sampled; a later camera overwrites an
      earlier one. */
  method MergeCameraColors(store: Store, project: Projection, sample: SampleRecord, lidarToken: string, n: nat)
    returns (r: Result<seq<Rgb>, Error>)
    requires lidarToken in store.sampleData && store.sampleData[lidarToken].filename in store.clouds
    requires n == |store.clouds[store.sampleData[lidarToken].filename]|
    ensures r == FrameColoring(store, project, sample, lidarToken, n)
  {
    var coloring := new Rgb[n](_ => Unset);
    assert coloring[..] == Unsets(n);
    ghost var cams: seq<Sampling> := [];
    for c := 0 to |CameraChannels|
      invariant CameraSamplings(store, project, sample, lidarToken, CameraChannels[..c]) == Ok(cams)
      invariant Fits(n, cams)
      invariant coloring[..] == Merge(Unsets(n), cams)
    {
      SamplingsStep(store, project, sample, lidarToken, CameraChannels, c);
      var s := SampleCamera(store, project, sample, lidarToken, CameraChannels[c]);
      if s.Err? {
        SamplingsFailEarly(store, project, sample, lidarToken, CameraChannels, c + 1);
        return Err(s.error);
      }
      MergeSnoc(Unsets(n), cams, s.value);
      ScatterInPlace(coloring, s.value.mask, s.value.coloring);
      cams := cams + [s.value];
    }
    assert CameraChannels[..|CameraChannels|] == CameraChannels;
    r := Ok(coloring[..]);
  }

  /** One iteration of the export loop: the lookups and loads, the coloring,
      the move into the ego frame, the distance filter on points and colors,
      the move into the global frame and the write loop. */
  method ProcessFrame(store: Store, project: Projection, sd: SampleData, minDist: real, maxDist: real)
    returns (r: Result<seq<Line>, Error>)
    ensures r == FrameSpec(store, project, sd, minDist, maxDist)
  {
    var sample :- store.GetSample(sd.sampleToken);
    var lidarToken := sd.token;
    var lidar :- store.GetSampleData(lidarToken);
    var cloud :- store.LoadCloud(lidar.filename);
    var pc := new PointCloud(cloud);
    var coloring :- MergeCameraColors(store, project, sample, lidarToken, pc.points.Length);
    var cs :- store.GetCalibratedSensor(lidar.calibratedSensorToken);
    pc.Rotate(cs.pose.rotation);
    pc.Translate(cs.pose.translation);
    var keep := DistanceMask(pc.points[..], minDist, maxDist);
    pc.Filter(keep);
    var kept := SelectMasked(keep, coloring);
    var ego :- store.GetEgoPose(lidar.egoPoseToken);
    pc.Rotate(ego.rotation);
    pc.Translate(ego.translation);
    var lines := EmitLines(pc.points[..], kept);
    r := Ok(lines);
  }
}
