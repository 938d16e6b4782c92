/** Points, 3x3 matrices and rigid poses over the reals, and the two
    elementary moves the exporter chains: from a sensor's frame into its
    parent frame (rotate, then translate) and back (translate by the negated
    translation, then rotate by the transpose). */
module Geometry {

  datatype Vec3 = Vec3(x: real, y: real, z: real)

  /** A matrix given by its three rows. */
  datatype Mat3 = Mat3(row0: Vec3, row1: Vec3, row2: Vec3)

  /** A calibration or ego pose: orientation as a rotation matrix (the
      quaternion-to-matrix conversion happens outside the model) and position. */
  datatype Pose = Pose(rotation: Mat3, translation: Vec3)

  function Dot(a: Vec3, b: Vec3): real {
    a.x * b.x + a.y * b.y + a.z * b.z
  }

  function Add(a: Vec3, b: Vec3): Vec3 {
    Vec3(a.x + b.x, a.y + b.y, a.z + b.z)
  }

  function Neg(a: Vec3): Vec3 {
    Vec3(-a.x, -a.y, -a.z)
  }

  /** The matrix-vector product m * p. */
  function Apply(m: Mat3, p: Vec3): Vec3 {
    Vec3(Dot(m.row0, p), Dot(m.row1, p), Dot(m.row2, p))
  }

  function Transpose(m: Mat3): Mat3 {
    Mat3(Vec3(m.row0.x, m.row1.x, m.row2.x),
         Vec3(m.row0.y, m.row1.y, m.row2.y),
         Vec3(m.row0.z, m.row1.z, m.row2.z))
  }

  /** The squared Euclidean distance of p from the origin. */
  function Norm2(p: Vec3): (r: real)
    ensures r >= 0.0
  {
    Dot(p, p)
  }

  /** The columns of m are orthonormal, i.e. transpose(m) * m is the identity. */
  predicate Orthonormal(m: Mat3) {
    var c := Transpose(m);
    Dot(c.row0, c.row0) == 1.0 && Dot(c.row1, c.row1) == 1.0 && Dot(c.row2, c.row2) == 1.0 &&
    Dot(c.row0, c.row1) == 0.0 && Dot(c.row0, c.row2) == 0.0 && Dot(c.row1, c.row2) == 0.0
  }

  /** From a frame into its parent: rotate by the pose's rotation, then
      translate by its translation. */
  function Forward(pose: Pose, p: Vec3): Vec3 {
    Add(Apply(pose.rotation, p), pose.translation)
  }

  /** From a parent frame back into the child: translate by the negated
      translation, then rotate by the transposed rotation. */
  function Backward(pose: Pose, q: Vec3): Vec3 {
    Apply(Transpose(pose.rotation), Add(q, Neg(pose.translation)))
  }

  /** The four-step chain that takes a point from the frame of a point sensor
      at its timestamp into the frame of a camera at the camera's timestamp:
      sensor -> ego (sensor time) -> global -> ego (camera time) -> camera. */
  function ToCamera(csSrc: Pose, egoSrc: Pose, egoDst: Pose, csDst: Pose, p: Vec3): Vec3 {
    Backward(csDst, Backward(egoDst, Forward(egoSrc, Forward(csSrc, p))))
  }

  /** For an orthonormal rotation, moving back undoes moving forward exactly. */
  lemma BackwardUndoesForward(pose: Pose, p: Vec3)
    requires Orthonormal(pose.rotation)
    ensures Backward(pose, Forward(pose, p)) == p
  {
    var m, t := pose.rotation, pose.translation;
    var q := Apply(m, p);
    assert Add(Add(q, t), Neg(t)) == q;
    var c := Transpose(m);
    // Each coordinate of transpose(m) * (m * p) is a combination of the
    // products of columns of m, which orthonormality fixes.
    assert Dot(c.row0, q) == p.x * Dot(c.row0, c.row0) + p.y * Dot(c.row0, c.row1) + p.z * Dot(c.row0, c.row2);
    assert Dot(c.row1, q) == p.x * Dot(c.row0, c.row1) + p.y * Dot(c.row1, c.row1) + p.z * Dot(c.row1, c.row2);
    assert Dot(c.row2, q) == p.x * Dot(c.row0, c.row2) + p.y * Dot(c.row1, c.row2) + p.z * Dot(c.row2, c.row2);
  }

  /** When the camera observation has the same calibration and ego pose as
      the point sensor's, the chain brings every point back to where it
      started: the inverse steps 3 and 4 undo the forward steps 2 and 1. */
  lemma ChainRoundTrip(cs: Pose, ego: Pose, p: Vec3)
    requires Orthonormal(cs.rotation) && Orthonormal(ego.rotation)
    ensures ToCamera(cs, ego, ego, cs, p) == p
  {
    BackwardUndoesForward(ego, Forward(cs, p));
    BackwardUndoesForward(cs, p);
  }
}
