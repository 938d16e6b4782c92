/** The record store the exporter reads (scenes, samples, sample data,
    calibrations, ego poses) and the data files it loads, as finite maps, and
    the linked chain of sample-data records that makes up a scene. */
module Records {
  import opened Wrappers
  import opened Geometry
  import opened Images

  /** The ways an export can fail. */
  datatype Error =
    | InvalidChannel(channel: string)             // the requested channel is not a point-sensor channel
    | MissingRecord(table: string, token: string)  // a token with no record in its table
    | MissingKey(key: string)                      // a sample with no entry for a channel
    | MissingFile(filename: string)                // a point-cloud or image file that cannot be loaded

  datatype SceneRecord = SceneRecord(firstSampleToken: string)

  /** A sample: for each sensor channel, the token of that channel's sample data. */
  datatype SampleRecord = SampleRecord(data: map<string, string>)

  /** One sensor observation. `next` is the token of the following
      observation on the same channel, or "" for the last one. */
  datatype SampleData = SampleData(
    token: string,
    filename: string,
    sampleToken: string,
    calibratedSensorToken: string,
    egoPoseToken: string,
    next: string)

  /** A sensor's calibration: its pose on the vehicle and, for cameras, the
      intrinsic matrix. */
  datatype CalibratedSensor = CalibratedSensor(pose: Pose, intrinsic: Mat3)

  /** The record tables by token, and the files by name: point clouds
      (coordinate rows only) and decoded images. */
  datatype Store = Store(
    scene: map<string, SceneRecord>,
    sample: map<string, SampleRecord>,
    sampleData: map<string, SampleData>,
    calibratedSensor: map<string, CalibratedSensor>,
    egoPose: map<string, Pose>,
    clouds: map<string, seq<Vec3>>,
    images: map<string, Image>)
  {
    function GetScene(token: string): Result<SceneRecord, Error> {
      if token in scene then Ok(scene[token]) else Err(MissingRecord("scene", token))
    }

    function GetSample(token: string): Result<SampleRecord, Error> {
      if token in sample then Ok(sample[token]) else Err(MissingRecord("sample", token))
    }

    function GetSampleData(token: string): Result<SampleData, Error> {
      if token in sampleData then Ok(sampleData[token]) else Err(MissingRecord("sample_data", token))
    }

    function GetCalibratedSensor(token: string): Result<CalibratedSensor, Error> {
      if token in calibratedSensor then Ok(calibratedSensor[token])
      else Err(MissingRecord("calibrated_sensor", token))
    }

    function GetEgoPose(token: string): Result<Pose, Error> {
      if token in egoPose then Ok(egoPose[token]) else Err(MissingRecord("ego_pose", token))
    }

    function LoadCloud(filename: string): Result<seq<Vec3>, Error> {
      if filename in clouds then Ok(clouds[filename]) else Err(MissingFile(filename))
    }

    function LoadImage(filename: string): Result<Image, Error> {
      if filename in images then Ok(images[filename]) else Err(MissingFile(filename))
    }
  }

  /** The value a channel maps to in a sample, or the key error. */
  function ChannelToken(s: SampleRecord, channel: string): Result<string, Error> {
    if channel in s.data then Ok(s.data[channel]) else Err(MissingKey(channel))
  }

  /** Visiting `token` and following `next` links from it reaches, within
      n visits, a record whose link is empty or a token that has no record. */
  predicate EndsWithin(sd: map<string, SampleData>, token: string, n: nat)
    decreases n
  {
    n > 0 && (token !in sd || sd[token].next == "" || EndsWithin(sd, sd[token].next, n - 1))
  }

  /** No chain of `next` links runs in a cycle. A chain that does not cycle
      visits each record at most once, and then at most one token without a
      record, so it ends within one visit more than the table has records. */
  predicate Acyclic(sd: map<string, SampleData>) {
    forall t :: t in sd ==> EndsWithin(sd, t, |sd| + 1)
  }

  /** A cycle-free table of three records whose one chain passes every
      record and then links to a missing token meets `Acyclic`. */
  lemma DanglingTableAcyclic(f: string)
    ensures var rec := (next: string) => SampleData("", f, "", "", "", next);
      var sd := map["a" := rec("b"), "b" := rec("c"), "c" := rec("x")];
      Acyclic(sd) && IsDanglingRun(sd, ["a", "b", "c"])
  {
    var rec := (next: string) => SampleData("", f, "", "", "", next);
    var sd := map["a" := rec("b"), "b" := rec("c"), "c" := rec("x")];
    assert |sd| == 3 by { assert sd.Keys == {"a", "b", "c"}; }
    assert EndsWithin(sd, "x", 1);
    assert EndsWithin(sd, "c", 2);
    assert EndsWithin(sd, "b", 3);
    assert EndsWithin(sd, "a", 4);
    DanglingRunEnds(sd, ["a", "b", "c"]);
  }

  /** ts is a complete chain of records: each is present, each but the last
      links to the one after it, and the last has an empty link. */
  predicate IsChain(sd: map<string, SampleData>, ts: seq<string>) {
    |ts| > 0 &&
    (forall j :: 0 <= j < |ts| ==> ts[j] in sd) &&
    (forall j :: 0 <= j < |ts| - 1 ==> sd[ts[j]].next != "" && sd[ts[j]].next == ts[j + 1]) &&
    sd[ts[|ts| - 1]].next == ""
  }

  /** ts is a run of records that follow each other by their links and
      whose last record links to a token with no record. */
  predicate IsDanglingRun(sd: map<string, SampleData>, ts: seq<string>) {
    |ts| > 0 &&
    (forall j :: 0 <= j < |ts| ==> ts[j] in sd) &&
    (forall j :: 0 <= j < |ts| - 1 ==> sd[ts[j]].next != "" && sd[ts[j]].next == ts[j + 1]) &&
    sd[ts[|ts| - 1]].next != "" && sd[ts[|ts| - 1]].next !in sd
  }

  /** ts is a run of records that follow each other by their links; how
      the last one links on is left open. Chains and dangling runs are runs. */
  predicate IsRun(sd: map<string, SampleData>, ts: seq<string>) {
    |ts| > 0 &&
    (forall j :: 0 <= j < |ts| ==> ts[j] in sd) &&
    (forall j :: 0 <= j < |ts| - 1 ==> sd[ts[j]].next != "" && sd[ts[j]].next == ts[j + 1])
  }

  /** Dropping the first record of a run of two or more leaves a run that
      ends the same way. */
  lemma RunTail(sd: map<string, SampleData>, ts: seq<string>)
    requires IsRun(sd, ts) && |ts| > 1
    ensures IsRun(sd, ts[1..]) && ts[1..][|ts| - 2] == ts[|ts| - 1]
  {
    var us := ts[1..];
    forall j | 0 <= j < |us| - 1
      ensures sd[us[j]].next != "" && sd[us[j]].next == us[j + 1]
    {
      assert us[j] == ts[j + 1] && us[j + 1] == ts[j + 2];
    }
  }

  /** A dangling run of n records ends within n + 1 visits from its start:
      the last visit is the token without a record. */
  lemma {:induction false} DanglingRunEnds(sd: map<string, SampleData>, ts: seq<string>)
    requires IsDanglingRun(sd, ts)
    ensures EndsWithin(sd, ts[0], |ts| + 1)
    decreases |ts|
  {
    if |ts| > 1 {
      RunTail(sd, ts);
      DanglingRunEnds(sd, ts[1..]);
    } else {
      assert EndsWithin(sd, sd[ts[0]].next, 1);
    }
  }

  /** A record whose link is empty is a chain of one. */
  lemma ChainOfOne(sd: map<string, SampleData>, t: string)
    requires t in sd && sd[t].next == ""
    ensures IsChain(sd, [t])
  {
  }

  /** A record that links to the start of a chain extends it by one. */
  lemma ChainCons(sd: map<string, SampleData>, t: string, ts: seq<string>)
    requires t in sd && IsChain(sd, ts) && sd[t].next != "" && sd[t].next == ts[0]
    ensures IsChain(sd, [t] + ts)
  {
    var us := [t] + ts;
    forall j | 0 <= j < |us| - 1
      ensures sd[us[j]].next != "" && sd[us[j]].next == us[j + 1]
    {
      if j > 0 {
        assert us[j] == ts[j - 1] && us[j + 1] == ts[j];
      }
    }
  }

  /** Dropping the first record of a chain of two or more leaves a chain. */
  lemma ChainTail(sd: map<string, SampleData>, ts: seq<string>)
    requires IsChain(sd, ts) && |ts| > 1
    ensures IsChain(sd, ts[1..])
  {
    var us := ts[1..];
    forall j | 0 <= j < |us| - 1
      ensures sd[us[j]].next != "" && sd[us[j]].next == us[j + 1]
    {
      assert us[j] == ts[j + 1] && us[j + 1] == ts[j + 2];
    }
  }

  /** A complete chain of n records ends within n visits from its start. */
  lemma {:induction false} ChainEnds(sd: map<string, SampleData>, ts: seq<string>)
    requires IsChain(sd, ts)
    ensures EndsWithin(sd, ts[0], |ts|)
    decreases |ts|
  {
    if |ts| > 1 {
      ChainTail(sd, ts);
      ChainEnds(sd, ts[1..]);
    }
  }

  /** The links determine the chain: two complete chains from the same
      record are the same, so the length of a scene is well defined. */
  lemma ChainUnique(sd: map<string, SampleData>, ts: seq<string>, us: seq<string>)
    requires IsChain(sd, ts) && IsChain(sd, us) && ts[0] == us[0]
    ensures ts == us
  {
    var j := 0;
    while j + 1 < |ts| && j + 1 < |us|
      invariant 0 <= j < |ts| && j < |us|
      invariant ts[..j + 1] == us[..j + 1]
    {
      assert ts[j] == us[j];
      assert ts[..j + 2] == ts[..j + 1] + [ts[j + 1]];
      assert us[..j + 2] == us[..j + 1] + [us[j + 1]];
      j := j + 1;
    }
    assert ts[j] == us[j];
    assert |ts| == |us|;
    assert ts == ts[..j + 1] && us == us[..j + 1];
  }

  /** A complete chain from the start of a run of linked records follows
      the run past its last record, so the last record links to a token
      that has a record. */
  lemma ChainFollowsRun(sd: map<string, SampleData>, ts: seq<string>, us: seq<string>)
    requires IsChain(sd, us) && |ts| > 0 && us[0] == ts[0]
    requires forall j :: 0 <= j < |ts| ==> ts[j] in sd
    requires forall j :: 0 <= j < |ts| ==> sd[ts[j]].next != ""
    requires forall j :: 0 <= j < |ts| - 1 ==> sd[ts[j]].next == ts[j + 1]
    ensures |ts| < |us| && us[..|ts|] == ts
    ensures sd[ts[|ts| - 1]].next in sd
  {
    var j := 0;
    while j + 1 < |ts|
      invariant 0 <= j < |ts| && j < |us| && us[..j + 1] == ts[..j + 1]
    {
      assert us[j] == us[..j + 1][j];
      assert j + 1 < |us|;
      assert us[..j + 2] == us[..j + 1] + [us[j + 1]];
      assert ts[..j + 2] == ts[..j + 1] + [ts[j + 1]];
      j := j + 1;
    }
    assert us[j] == us[..j + 1][j];
    assert ts[..j + 1] == ts;
    assert j + 1 < |us| && us[j + 1] == sd[ts[j]].next;
  }

  /** No complete chain starts where a dangling run starts: following the
      links from there reaches the token that has no record. */
  lemma DanglingHasNoChain(sd: map<string, SampleData>, ts: seq<string>, us: seq<string>)
    requires IsDanglingRun(sd, ts) && IsChain(sd, us)
    ensures us[0] != ts[0]
  {
    if us[0] == ts[0] {
      ChainFollowsRun(sd, ts, us);
      assert false;
    }
  }
}
