/**
 * Pose helpers for the drivers (bestman/robots/utils/math_utils.py): the
 * gripper TCP compensation along the tool z axis, and the conversions between
 * [x, y, z, qw, qx, qy, qz] poses and [x, y, z, roll, pitch, yaw] poses,
 * which reorder the quaternion to and from scipy's scalar-last convention.
 */
module MathUtils {
  import opened PyValues
  import opened Geometry

  /**
   * `compensate_tcp_for_gripper`: the position moved back by `distance`
   * along the third column (the tool z axis) of the rotation matrix of the
   * scalar-last `quaternion`, which is returned unchanged.
   */
  function CompensateTcp(rot: Rotations, x: real, y: real, z: real, quaternion: Vector, distance: real)
    : (r: (real, real, real, Vector))
    requires Shapes(rot) && |quaternion| == 4
    ensures r.3 == quaternion
    ensures var axis := Column(rot.fromQuat(quaternion), 2);
      [r.0, r.1, r.2] == Sub([x, y, z], Scale(distance, axis))
  {
    var axis := Column(rot.fromQuat(quaternion), 2);
    var p := Sub([x, y, z], Scale(distance, axis));
    (p[0], p[1], p[2], quaternion)
  }

  /** A zero distance leaves the position where it was. */
  lemma CompensateZero(rot: Rotations, x: real, y: real, z: real, quaternion: Vector)
    requires Shapes(rot) && |quaternion| == 4
    ensures CompensateTcp(rot, x, y, z, quaternion, 0.0) == (x, y, z, quaternion)
  {
    var r := CompensateTcp(rot, x, y, z, quaternion, 0.0);
    assert [r.0, r.1, r.2][0] == x && [r.0, r.1, r.2][1] == y && [r.0, r.1, r.2][2] == z;
  }

  /**
   * Because the orientation is passed through, compensating twice is
   * compensating once by the sum of the distances.
   */
  lemma {:induction false} CompensateTwice(rot: Rotations, x: real, y: real, z: real, quaternion: Vector, d1: real, d2: real)
    requires Shapes(rot) && |quaternion| == 4
    ensures var a := CompensateTcp(rot, x, y, z, quaternion, d1);
      CompensateTcp(rot, a.0, a.1, a.2, a.3, d2) == CompensateTcp(rot, x, y, z, quaternion, d1 + d2)
  {
    var axis := Column(rot.fromQuat(quaternion), 2);
    var a := CompensateTcp(rot, x, y, z, quaternion, d1);
    assert a.0 == x - d1 * axis[0] && a.1 == y - d1 * axis[1] && a.2 == z - d1 * axis[2] by {
      assert [a.0, a.1, a.2] == Sub([x, y, z], Scale(d1, axis));
    }
    var b := CompensateTcp(rot, a.0, a.1, a.2, a.3, d2);
    assert b.0 == a.0 - d2 * axis[0] && b.1 == a.1 - d2 * axis[1] && b.2 == a.2 - d2 * axis[2] by {
      assert [b.0, b.1, b.2] == Sub([a.0, a.1, a.2], Scale(d2, axis));
    }
    var c := CompensateTcp(rot, x, y, z, quaternion, d1 + d2);
    assert c.0 == x - (d1 + d2) * axis[0] && c.1 == y - (d1 + d2) * axis[1] && c.2 == z - (d1 + d2) * axis[2] by {
      assert [c.0, c.1, c.2] == Sub([x, y, z], Scale(d1 + d2, axis));
    }
    assert (d1 + d2) * axis[0] == d1 * axis[0] + d2 * axis[0];
    assert (d1 + d2) * axis[1] == d1 * axis[1] + d2 * axis[1];
    assert (d1 + d2) * axis[2] == d1 * axis[2] + d2 * axis[2];
  }

  /**
   * `pose_to_euler`: a seven-value [x, y, z, qw, qx, qy, qz] pose; scipy is
   * handed [qx, qy, qz, qw] and the position is passed through.
   */
  function PoseToEuler(rot: Rotations, pose: Vector): (r: Vector)
    requires Shapes(rot) && |pose| == 7
    ensures |r| == 6 && r[..3] == pose[..3]
    ensures r[3..] == rot.asEuler(rot.fromQuat(Xyzw(FromWxyz(pose[3..]))), false)
  {
    var (x, y, z, qw, qx, qy, qz) := (pose[0], pose[1], pose[2], pose[3], pose[4], pose[5], pose[6]);
    [x, y, z] + rot.asEuler(rot.fromQuat([qx, qy, qz, qw]), false)
  }

  /**
   * `euler_to_pose`: a six-value [x, y, z, roll, pitch, yaw] pose becomes
   * [x, y, z, qw, qx, qy, qz], scipy's scalar-last quaternion moved to the
   * front. The leading `self` parameter of the source is accepted and unused.
   */
  function EulerToPose(rot: Rotations, self_: Value, positionEuler: Vector): (r: Vector)
    requires Shapes(rot) && |positionEuler| == 6
    ensures |r| == 7 && r[..3] == positionEuler[..3]
    ensures r[3..] == Wxyz(FromXyzw(rot.asQuat(rot.fromEuler(positionEuler[3..]))))
  {
    var q := rot.asQuat(rot.fromEuler(positionEuler[3..]));
    positionEuler[..3] + [q[3], q[0], q[1], q[2]]
  }

  /**
   * The two reorderings cancel: converting back hands scipy exactly the
   * quaternion it produced, so the round trip is exact whenever scipy's own
   * Euler → quaternion → Euler round trip is.
   */
  lemma {:induction false} EulerPoseRoundTrip(rot: Rotations, self_: Value, positionEuler: Vector)
    requires Shapes(rot) && |positionEuler| == 6
    ensures var angles := positionEuler[3..];
      PoseToEuler(rot, EulerToPose(rot, self_, positionEuler))
        == positionEuler[..3] + rot.asEuler(rot.fromQuat(rot.asQuat(rot.fromEuler(angles))), false)
    ensures var angles := positionEuler[3..];
      rot.asEuler(rot.fromQuat(rot.asQuat(rot.fromEuler(angles))), false) == angles ==>
        PoseToEuler(rot, EulerToPose(rot, self_, positionEuler)) == positionEuler
  {
    var q := rot.asQuat(rot.fromEuler(positionEuler[3..]));
    var pose := EulerToPose(rot, self_, positionEuler);
    ReorderRoundTrip(FromXyzw(q));
    assert Xyzw(FromWxyz(pose[3..])) == q;
    assert positionEuler == positionEuler[..3] + positionEuler[3..];
  }
}
