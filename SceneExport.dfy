/** export_scene_pointcloud: the channel check, the lookups that find the
    scene's first record on the channel, and the loop that writes the header
    and then each frame's lines while following the `next` links. */
module SceneExport {
  import opened Wrappers
  import opened Records
  import opened ColorSampler
  import opened FrameExport

  /** The point-sensor channels a scene can be exported from. */
  const ValidChannels: seq<string> :=
    ["LIDAR_TOP", "RADAR_FRONT", "RADAR_FRONT_RIGHT", "RADAR_FRONT_LEFT", "RADAR_BACK_LEFT", "RADAR_BACK_RIGHT"]

  /** The token of the scene's first record on the channel, found through
      the scene, its first sample and the sample's entry for the channel,
      and checked to have a record. */
  function StartToken(store: Store, sceneToken: string, channel: string): (r: Result<string, Error>)
    ensures r.Ok? ==> r.value in store.sampleData
    ensures r.Err? ==> !r.error.InvalidChannel?
  {
    var scene :- store.GetScene(sceneToken);
    var first :- store.GetSample(scene.firstSampleToken);
    var token :- ChannelToken(first, channel);
    var _ :- store.GetSampleData(token);
    Ok(token)
  }

  /** What one iteration of the loop does with the record it is at. */
  type FrameFn = SampleData -> Result<seq<Line>, Error>

  /** The frame of the exporter, for a fixed store, projection and range. */
  function FrameOf(store: Store, project: Projection, minDist: real, maxDist: real): FrameFn {
    (d: SampleData) => FrameSpec(store, project, d, minDist, maxDist)
  }

  /** The loop from the record at key on: the lines written so far, followed
      by the frame's lines; then the next record, or the end. The result is
      everything written and either the number of frames processed or the
      error that stopped the loop. */
  function Frames(sd: map<string, SampleData>, frame: FrameFn, key: string, fuel: nat,
                  written: seq<Line>, count: nat): (r: (seq<Line>, Result<nat, Error>))
    requires key in sd && EndsWithin(sd, key, fuel)
    ensures |r.0| >= |written| && r.0[..|written|] == written
    ensures r.1.Ok? ==> r.1.value > count
    decreases fuel
  {
    var cur := sd[key];
    var lines := frame(cur);
    if lines.Err? then (written, Err(lines.error))
    else if cur.next == "" then (written + lines.value, Ok(count + 1))
    else if cur.next !in sd then (written + lines.value, Err(MissingRecord("sample_data", cur.next)))
    else Frames(sd, frame, cur.next, fuel - 1, written + lines.value, count + 1)
  }

  /** What the export produces: no file when the channel is invalid or a
      lookup before the file is opened fails, and otherwise the file's lines,
      starting with the header, and the loop's outcome. */
  function SceneSpec(store: Store, project: Projection, sceneToken: string, channel: string, minDist: real, maxDist: real)
    : (r: (Option<seq<Line>>, Result<nat, Error>))
    requires Acyclic(store.sampleData)
    ensures r.0.None? ==> r.1.Err?
    ensures r.0.Some? ==> |r.0.value| >= 1 && r.0.value[0] == Header
  {
    if channel !in ValidChannels then (None, Err(InvalidChannel(channel)))
    else match StartToken(store, sceneToken, channel)
      case Err(e) => (None, Err(e))
      case Ok(start) =>
        var sd := store.sampleData;
        assert EndsWithin(sd, start, |sd| + 1);
        var out := Frames(sd, FrameOf(store, project, minDist, maxDist), start, |sd| + 1, [Header], 0);
        assert out.0[0] == out.0[..1][0];
        (Some(out.0), out.1)
  }

  // ---------------------------------------------------------------------
  // The loop follows the chain

  /** The lines of the frames at the records of ts, in order; the first
      failing frame is the result. */
  function ChainLines(sd: map<string, SampleData>, frame: FrameFn, ts: seq<string>): Result<seq<Line>, Error>
    requires forall j :: 0 <= j < |ts| ==> ts[j] in sd
  {
    if ts == [] then Ok([])
    else
      var first :- frame(sd[ts[0]]);
      var rest :- ChainLines(sd, frame, ts[1..]);
      Ok(first + rest)
  }

  /** A successful loop went down a complete chain of records from its
      start, wrote the frames of that chain, each successful, and counted
      one frame per record. */
  lemma {:induction false} FramesFollowChain(sd: map<string, SampleData>, frame: FrameFn, key: string, fuel: nat,
                                             written: seq<Line>, count: nat)
    returns (ts: seq<string>)
    requires key in sd && EndsWithin(sd, key, fuel)
    requires Frames(sd, frame, key, fuel, written, count).1.Ok?
    ensures IsChain(sd, ts) && ts[0] == key
    ensures ChainLines(sd, frame, ts).Ok?
    ensures Frames(sd, frame, key, fuel, written, count) == (written + ChainLines(sd, frame, ts).value, Ok(count + |ts|))
    decreases fuel
  {
    var cur := sd[key];
    var lines := frame(cur).value;
    if cur.next == "" {
      ts := [key];
      ChainOfOne(sd, key);
      assert ts[1..] == [];
      assert lines + [] == lines;
    } else {
      var rest := FramesFollowChain(sd, frame, cur.next, fuel - 1, written + lines, count + 1);
      ChainCons(sd, key, rest);
      ts := [key] + rest;
      assert ts[1..] == rest;
      assert written + lines + ChainLines(sd, frame, rest).value == written + (lines + ChainLines(sd, frame, rest).value);
    }
  }

  /** The converse: on a complete chain of records whose frames all succeed,
      the loop writes those frames and counts one per record. */
  lemma {:induction false} ChainFrames(sd: map<string, SampleData>, frame: FrameFn, ts: seq<string>, fuel: nat,
                                       written: seq<Line>, count: nat)
    requires IsChain(sd, ts) && EndsWithin(sd, ts[0], fuel)
    requires ChainLines(sd, frame, ts).Ok?
    ensures Frames(sd, frame, ts[0], fuel, written, count) == (written + ChainLines(sd, frame, ts).value, Ok(count + |ts|))
    decreases |ts|
  {
    var cur := sd[ts[0]];
    var lines := frame(cur).value;
    var rest := ts[1..];
    if |ts| == 1 {
      assert rest == [];
      assert lines + [] == lines;
    } else {
      ChainTail(sd, ts);
      ChainFrames(sd, frame, rest, fuel - 1, written + lines, count + 1);
      assert written + lines + ChainLines(sd, frame, rest).value == written + (lines + ChainLines(sd, frame, rest).value);
    }
  }

  /** Past the channel check and the start lookups, the export is the
      loop from the start record with the header written. */
  lemma SceneFromStart(store: Store, project: Projection, sceneToken: string, channel: string,
                       minDist: real, maxDist: real, start: string)
    requires Acyclic(store.sampleData)
    requires channel in ValidChannels && StartToken(store, sceneToken, channel) == Ok(start)
    ensures start in store.sampleData && EndsWithin(store.sampleData, start, |store.sampleData| + 1)
    ensures var out := Frames(store.sampleData, FrameOf(store, project, minDist, maxDist), start, |store.sampleData| + 1, [Header], 0);
      SceneSpec(store, project, sceneToken, channel, minDist, maxDist) == (Some(out.0), out.1)
  {
    assert EndsWithin(store.sampleData, start, |store.sampleData| + 1);
  }

  /** Along a run of records, the loop stops at the first failing frame of
      the run with that frame's error. */
  lemma {:induction false} RunFramesFail(sd: map<string, SampleData>, frame: FrameFn, ts: seq<string>, fuel: nat,
                                         written: seq<Line>, count: nat)
    requires IsRun(sd, ts) && EndsWithin(sd, ts[0], fuel)
    requires ChainLines(sd, frame, ts).Err?
    ensures Frames(sd, frame, ts[0], fuel, written, count).1 == Err(ChainLines(sd, frame, ts).error)
    decreases |ts|
  {
    var cur := sd[ts[0]];
    if frame(cur).Ok? {
      RunTail(sd, ts);
      RunFramesFail(sd, frame, ts[1..], fuel - 1, written + frame(cur).value, count + 1);
    }
  }

  /** Along a run whose last link dangles and whose frames all succeed, the
      loop writes every frame of the run and then fails on the missing
      record. */
  lemma {:induction false} DanglingFrames(sd: map<string, SampleData>, frame: FrameFn, ts: seq<string>, fuel: nat,
                                          written: seq<Line>, count: nat)
    requires IsDanglingRun(sd, ts) && EndsWithin(sd, ts[0], fuel)
    requires ChainLines(sd, frame, ts).Ok?
    ensures Frames(sd, frame, ts[0], fuel, written, count) ==
      (written + ChainLines(sd, frame, ts).value, Err(MissingRecord("sample_data", sd[ts[|ts| - 1]].next)))
    decreases |ts|
  {
    var cur := sd[ts[0]];
    var lines := frame(cur).value;
    var rest := ts[1..];
    if |ts| == 1 {
      assert rest == [];
      assert lines + [] == lines;
    } else {
      RunTail(sd, ts);
      DanglingFrames(sd, frame, rest, fuel - 1, written + lines, count + 1);
      assert written + lines + ChainLines(sd, frame, rest).value == written + (lines + ChainLines(sd, frame, rest).value);
    }
  }

  /** On a complete chain from the scene's first record on the channel, the
      export writes the header followed by the lines of every frame of the
      chain and counts the chain's records when all of those frames succeed,
      and it fails when one of them fails. */
  lemma SceneOnChain(store: Store, project: Projection, sceneToken: string, channel: string,
                     minDist: real, maxDist: real, ts: seq<string>)
    requires Acyclic(store.sampleData) && IsChain(store.sampleData, ts)
    requires channel in ValidChannels && StartToken(store, sceneToken, channel) == Ok(ts[0])
    ensures var r := SceneSpec(store, project, sceneToken, channel, minDist, maxDist);
      match ChainLines(store.sampleData, FrameOf(store, project, minDist, maxDist), ts)
      case Ok(lines) => r == (Some([Header] + lines), Ok(|ts|))
      case Err(e) => r.1 == Err(e)
  {
    var sd := store.sampleData;
    var frame := FrameOf(store, project, minDist, maxDist);
    SceneFromStart(store, project, sceneToken, channel, minDist, maxDist, ts[0]);
    if ChainLines(sd, frame, ts).Ok? {
      ChainFrames(sd, frame, ts, |sd| + 1, [Header], 0);
    } else {
      RunFramesFail(sd, frame, ts, |sd| + 1, [Header], 0);
    }
  }

  /** A scene whose links from the first record run into a token with no
      record fails: it never ends at an empty link. */
  lemma DanglingLinkFails(store: Store, project: Projection, sceneToken: string, channel: string,
                          minDist: real, maxDist: real, ts: seq<string>)
    requires Acyclic(store.sampleData) && IsDanglingRun(store.sampleData, ts)
    requires StartToken(store, sceneToken, channel) == Ok(ts[0])
    ensures SceneSpec(store, project, sceneToken, channel, minDist, maxDist).1.Err?
  {
    var sd := store.sampleData;
    var frame := FrameOf(store, project, minDist, maxDist);
    if channel in ValidChannels && Frames(sd, frame, ts[0], |sd| + 1, [Header], 0).1.Ok? {
      var us := FramesFollowChain(sd, frame, ts[0], |sd| + 1, [Header], 0);
      DanglingHasNoChain(sd, ts, us);
    }
  }

  /** A scene whose links from the first record run into a token with no
      record writes the frames of the run and then fails with the missing
      record error for that token; a frame of the run that fails first
      ends it with its own error. */
  lemma DanglingLinkError(store: Store, project: Projection, sceneToken: string, channel: string,
                          minDist: real, maxDist: real, ts: seq<string>)
    requires Acyclic(store.sampleData) && IsDanglingRun(store.sampleData, ts)
    requires channel in ValidChannels && StartToken(store, sceneToken, channel) == Ok(ts[0])
    ensures var r := SceneSpec(store, project, sceneToken, channel, minDist, maxDist);
      match ChainLines(store.sampleData, FrameOf(store, project, minDist, maxDist), ts)
      case Ok(lines) => r == (Some([Header] + lines), Err(MissingRecord("sample_data", store.sampleData[ts[|ts| - 1]].next)))
      case Err(e) => r.1 == Err(e)
  {
    var sd := store.sampleData;
    var frame := FrameOf(store, project, minDist, maxDist);
    SceneFromStart(store, project, sceneToken, channel, minDist, maxDist, ts[0]);
    if ChainLines(sd, frame, ts).Ok? {
      DanglingFrames(sd, frame, ts, |sd| + 1, [Header], 0);
    } else {
      RunFramesFail(sd, frame, ts, |sd| + 1, [Header], 0);
    }
  }

  /** The loop only appends lines that its frames produce: when every
      frame's lines are normalized vertices, so is everything it appends. */
  lemma {:induction false} FramesNormalized(sd: map<string, SampleData>, frame: FrameFn, key: string, fuel: nat,
                                            written: seq<Line>, count: nat)
    requires key in sd && EndsWithin(sd, key, fuel)
    requires forall d :: frame(d).Ok? ==> forall l :: l in frame(d).value ==> NormalizedVertex(l)
    ensures forall i :: |written| <= i < |Frames(sd, frame, key, fuel, written, count).0| ==>
      NormalizedVertex(Frames(sd, frame, key, fuel, written, count).0[i])
    decreases fuel
  {
    var cur := sd[key];
    var lines := frame(cur);
    if lines.Ok? {
      var w := written + lines.value;
      forall i | |written| <= i < |w|
        ensures NormalizedVertex(w[i])
      {
        assert w[i] == lines.value[i - |written|] && w[i] in lines.value;
      }
      if cur.next != "" && cur.next in sd {
        FramesNormalized(sd, frame, cur.next, fuel - 1, w, count + 1);
        var out := Frames(sd, frame, cur.next, fuel - 1, w, count + 1).0;
        assert Frames(sd, frame, key, fuel, written, count).0 == out;
        forall i | |written| <= i < |out|
          ensures NormalizedVertex(out[i])
        {
          if i < |w| {
            assert out[i] == out[..|w|][i] == w[i];
          }
        }
      }
    }
  }

  /** The file a scene export writes begins with the header, and every
      other line is a vertex with its color channels in [0, 1]. */
  lemma SceneFileShape(store: Store, project: Projection, sceneToken: string, channel: string, minDist: real, maxDist: real)
    requires Acyclic(store.sampleData)
    requires SceneSpec(store, project, sceneToken, channel, minDist, maxDist).0.Some?
    ensures var file := SceneSpec(store, project, sceneToken, channel, minDist, maxDist).0.value;
      file[0] == Header && forall i :: 1 <= i < |file| ==> NormalizedVertex(file[i])
  {
    var frame := FrameOf(store, project, minDist, maxDist);
    FrameOfNormalized(store, project, minDist, maxDist);
    var start := StartToken(store, sceneToken, channel).value;
    FramesNormalized(store.sampleData, frame, start, |store.sampleData| + 1, [Header], 0);
    assert SceneSpec(store, project, sceneToken, channel, minDist, maxDist).0.value ==
      Frames(store.sampleData, frame, start, |store.sampleData| + 1, [Header], 0).0;
  }

  /** Every frame of the exporter writes normalized vertex lines only. */
  lemma FrameOfNormalized(store: Store, project: Projection, minDist: real, maxDist: real)
    ensures var frame := FrameOf(store, project, minDist, maxDist);
      forall d :: frame(d).Ok? ==> forall l :: l in frame(d).value ==> NormalizedVertex(l)
  {
    forall d | FrameSpec(store, project, d, minDist, maxDist).Ok?
      ensures forall l :: l in FrameSpec(store, project, d, minDist, maxDist).value ==> NormalizedVertex(l)
    {
      FrameSpecNormalized(store, project, d, minDist, maxDist);
    }
  }

  /** No lookup, load or frame fails with the channel error. */
  lemma {:induction false} FramesKeepErrors(sd: map<string, SampleData>, frame: FrameFn, key: string, fuel: nat,
                                            written: seq<Line>, count: nat)
    requires key in sd && EndsWithin(sd, key, fuel)
    requires forall d :: frame(d).Err? ==> !frame(d).error.InvalidChannel?
    ensures Frames(sd, frame, key, fuel, written, count).1.Err? ==>
      !Frames(sd, frame, key, fuel, written, count).1.error.InvalidChannel?
    decreases fuel
  {
    var cur := sd[key];
    if frame(cur).Ok? && cur.next != "" && cur.next in sd {
      FramesKeepErrors(sd, frame, cur.next, fuel - 1, written + frame(cur).value, count + 1);
    }
  }

  /** The export fails with the channel error exactly when the channel is
      not a point-sensor channel, and writes no file then. */
  lemma InvalidChannelExactly(store: Store, project: Projection, sceneToken: string, channel: string, minDist: real, maxDist: real)
    requires Acyclic(store.sampleData)
    ensures var r := SceneSpec(store, project, sceneToken, channel, minDist, maxDist);
      (r.1 == Err(InvalidChannel(channel)) <==> channel !in ValidChannels) &&
      (channel !in ValidChannels ==> r.0.None?)
  {
    if channel in ValidChannels && StartToken(store, sceneToken, channel).Ok? {
      var frame := FrameOf(store, project, minDist, maxDist);
      var start := StartToken(store, sceneToken, channel).value;
      FramesKeepErrors(store.sampleData, frame, start, |store.sampleData| + 1, [Header], 0);
    }
  }

  // ---------------------------------------------------------------------
  // The exporter

  /** export_scene_pointcloud. The file is None when it was never opened;
      otherwise it holds every line written before the loop ended, whether
      the loop ended at the last record or at an error. */
  method ExportScenePointcloud(store: Store, project: Projection, sceneToken: string, channel: string,
                               minDist: real, maxDist: real)
    returns (file: Option<seq<Line>>, result: Result<nat, Error>)
    requires Acyclic(store.sampleData)
    ensures (file, result) == SceneSpec(store, project, sceneToken, channel, minDist, maxDist)
  {
    if channel !in ValidChannels {
      return None, Err(InvalidChannel(channel));
    }
    var scene := store.GetScene(sceneToken);
    if scene.Err? {
      return None, Err(scene.error);
    }
    var startSample := store.GetSample(scene.value.firstSampleToken);
    if startSample.Err? {
      return None, Err(startSample.error);
    }
    var startToken := ChannelToken(startSample.value, channel);
    if startToken.Err? {
      return None, Err(startToken.error);
    }
    var start := store.GetSampleData(startToken.value);
    if start.Err? {
      return None, Err(start.error);
    }
    var sdRec := start.value;
    var written := [Header];
    var hasMoreFrames := true;
    var frameInd := 0;
    ghost var sd := store.sampleData;
    ghost var frame := FrameOf(store, project, minDist, maxDist);
    ghost var key := startToken.value;
    ghost var fuel: nat := |sd| + 1;
    ghost var spec := Frames(sd, frame, key, fuel, written, frameInd);
    assert SceneSpec(store, project, sceneToken, channel, minDist, maxDist) == (Some(spec.0), spec.1);
    while hasMoreFrames
      invariant hasMoreFrames ==>
        && key in sd && sdRec == sd[key] && EndsWithin(sd, key, fuel)
        && spec == Frames(sd, frame, key, fuel, written, frameInd)
      invariant !hasMoreFrames ==> spec == (written, Ok(frameInd))
      decreases if hasMoreFrames then fuel + 1 else 0
    {
      var lines := ProcessFrame(store, project, sdRec, minDist, maxDist);
      assert lines == frame(sdRec);
      if lines.Err? {
        return Some(written), Err(lines.error);
      }
      written := written + lines.value;
      if sdRec.next != "" {
        var next := store.GetSampleData(sdRec.next);
        if next.Err? {
          return Some(written), Err(next.error);
        }
        key := sdRec.next;
        fuel := fuel - 1;
        sdRec := next.value;
      } else {
        hasMoreFrames := false;
      }
      frameInd := frameInd + 1;
    }
    return Some(written), Ok(frameInd);
  }
}
