/**
 * The Startouch SDK wrapper (bestman/robots/startouch/startouch_sdk/startouchclass.py):
 * quaternion/Euler conversions, and `SingleArm`, which forwards every command
 * to the native arm controller with fixed timing defaults.
 */
module StartouchSdk {
  import opened Wrappers
  import opened PyValues
  import opened Geometry

  /** `np.sign` */
  function Sign(v: real): (s: real)
    ensures (v > 0.0 ==> s == 1.0) && (v < 0.0 ==> s == -1.0) && (v == 0.0 ==> s == 0.0)
  {
    if v > 0.0 then 1.0 else if v < 0.0 then -1.0 else 0.0
  }

  /** `np.copysign(m, s)`: the magnitude of `m` with the sign of `s` (reals carry no negative zero). */
  function CopySign(m: real, s: real): (r: real)
    ensures Abs(r) == Abs(m) && (s < 0.0 ==> r <= 0.0) && (s >= 0.0 ==> r >= 0.0)
  {
    if s < 0.0 then -Abs(m) else Abs(m)
  }

  /** roll = atan2(2(wx + yz), 1 − 2(x² + y²)) */
  function Roll(t: Trig, w: real, x: real, y: real, z: real): (roll: real)
    ensures x == 0.0 && y == 0.0 ==> roll == t.atan2(0.0, 1.0)
  {
    t.atan2(2.0 * (w * x + y * z), 1.0 - 2.0 * (x * x + y * y))
  }

  /** sin(pitch) = 2(wy − zx) */
  function SinPitch(w: real, x: real, y: real, z: real): (s: real)
    ensures -NormSquared(Quat(w, x, y, z)) <= s <= NormSquared(Quat(w, x, y, z))
  {
    SquaresBound(w, x, y, z);
    2.0 * (w * y - z * x)
  }

  /** 2|wy − zx| is at most w² + x² + y² + z², from four squares being non-negative. */
  lemma SquaresBound(w: real, x: real, y: real, z: real)
    ensures -(w * w + x * x + y * y + z * z) <= 2.0 * (w * y - z * x) <= w * w + x * x + y * y + z * z
  {
    SquareNonNegative(w - y);
    SquareNonNegative(z + x);
    SquareNonNegative(w + y);
    SquareNonNegative(z - x);
  }

  lemma SquareNonNegative(a: real)
    ensures a * a >= 0.0
  {
    if a < 0.0 {
      assert a * a == (-a) * (-a);
    }
  }

  /** yaw = atan2(2(wz + xy), 1 − 2(y² + z²)) */
  function Yaw(t: Trig, w: real, x: real, y: real, z: real): (yaw: real)
    ensures y == 0.0 && z == 0.0 ==> yaw == t.atan2(0.0, 1.0)
  {
    t.atan2(2.0 * (w * z + x * y), 1.0 - 2.0 * (y * y + z * z))
  }

  /** Pitch as `quaternion_to_euler_wxyz` clamps it: ±π/2 by `np.sign` once |sinp| reaches 1. */
  function PitchBySign(t: Trig, s: real): (p: real)
    ensures Abs(s) < 1.0 ==> p == t.asin(s)
  {
    if Abs(s) >= 1.0 then t.pi / 2.0 * Sign(s) else t.asin(s)
  }

  /** Pitch as `quaternion_to_euler_xyzw` clamps it, by `np.copysign`. */
  function PitchByCopySign(t: Trig, s: real): (p: real)
    ensures Abs(s) < 1.0 ==> p == t.asin(s)
  {
    if Abs(s) >= 1.0 then CopySign(t.pi / 2.0, s) else t.asin(s)
  }

  /** Once |sinp| ≥ 1 both clamps give exactly ±π/2 with the sign of sinp, so the two agree everywhere. */
  lemma PitchClamp(t: Trig, s: real)
    requires t.pi > 0.0
    ensures PitchBySign(t, s) == PitchByCopySign(t, s)
    ensures s >= 1.0 ==> PitchBySign(t, s) == t.pi / 2.0
    ensures s <= -1.0 ==> PitchBySign(t, s) == -(t.pi / 2.0)
  {
  }

  /** `quaternion_to_euler_wxyz`: [roll, pitch, yaw] of a [w, x, y, z] array; unpacking anything but four values raises. */
  function QuaternionToEulerWxyz(t: Trig, quat: Vector): (r: Option<Vector>)
    ensures r.Some? <==> |quat| == 4
    ensures r.Some? ==> |r.value| == 3
    ensures r.Some? ==> r.value[1] == PitchBySign(t, SinPitch(quat[0], quat[1], quat[2], quat[3]))
  {
    if |quat| != 4 then None
    else
      var w, x, y, z := quat[0], quat[1], quat[2], quat[3];
      Some([Roll(t, w, x, y, z), PitchBySign(t, SinPitch(w, x, y, z)), Yaw(t, w, x, y, z)])
  }

  /** `quaternion_to_euler_xyzw`: the same angles from a scalar-last [x, y, z, w] array; other lengths raise ValueError. */
  function QuaternionToEulerXyzw(t: Trig, q: Vector): (r: Option<Vector>)
    ensures r.Some? <==> |q| == 4
    ensures r.Some? ==> |r.value| == 3
    ensures r.Some? ==> r.value[1] == PitchByCopySign(t, SinPitch(q[3], q[0], q[1], q[2]))
  {
    if |q| == 4 then
      var x, y, z, w := q[0], q[1], q[2], q[3];
      Some([Roll(t, w, x, y, z), PitchByCopySign(t, SinPitch(w, x, y, z)), Yaw(t, w, x, y, z)])
    else None
  }

  /** The two conversions agree once the scalar is moved from last to first. */
  lemma {:induction false} EulerConventionsAgree(t: Trig, q: Quat)
    requires t.pi > 0.0
    ensures QuaternionToEulerXyzw(t, Xyzw(q)) == QuaternionToEulerWxyz(t, Wxyz(q))
  {
    PitchClamp(t, SinPitch(q.w, q.x, q.y, q.z));
  }

  /** `euler_to_quaternion`: the half-angle products, as a [w, x, y, z] array. */
  function EulerToQuaternion(t: Trig, roll: real, pitch: real, yaw: real): (q: Vector)
    ensures |q| == 4
  {
    var cy, sy := t.cos(yaw * 0.5), t.sin(yaw * 0.5);
    var cp, sp := t.cos(pitch * 0.5), t.sin(pitch * 0.5);
    var cr, sr := t.cos(roll * 0.5), t.sin(roll * 0.5);
    [cr * cp * cy + sr * sp * sy,
     sr * cp * cy - cr * sp * sy,
     cr * sp * cy + sr * cp * sy,
     cr * cp * sy - sr * sp * cy]
  }

  /** The rotation by `angle` about one coordinate axis (0 = x, 1 = y, 2 = z). */
  function AxisQuat(t: Trig, axis: nat, angle: real): (q: Quat)
    requires axis < 3
  {
    var c, s := t.cos(angle * 0.5), t.sin(angle * 0.5);
    if axis == 0 then Quat(c, s, 0.0, 0.0)
    else if axis == 1 then Quat(c, 0.0, s, 0.0)
    else Quat(c, 0.0, 0.0, s)
  }

  /**
   * The half-angle formula is the Hamilton product yaw ⊗ pitch ⊗ roll of the
   * three axis rotations, i.e. intrinsic z-y-x (extrinsic x-y-z) angles.
   */
  lemma EulerToQuaternionIsProduct(t: Trig, roll: real, pitch: real, yaw: real)
    ensures EulerToQuaternion(t, roll, pitch, yaw)
         == Wxyz(Multiply(Multiply(AxisQuat(t, 2, yaw), AxisQuat(t, 1, pitch)), AxisQuat(t, 0, roll)))
  {
    var cy, sy := t.cos(yaw * 0.5), t.sin(yaw * 0.5);
    var cp, sp := t.cos(pitch * 0.5), t.sin(pitch * 0.5);
    var cr, sr := t.cos(roll * 0.5), t.sin(roll * 0.5);
    var zy := ZTimesY(cy, sy, cp, sp);
    var q := TimesX(zy, cr, sr);
    Regroup(cy, sy, cp, sp, cr, sr);
    var e := EulerToQuaternion(t, roll, pitch, yaw);
    assert e[0] == q.w;
    assert e[1] == q.x;
    assert e[2] == q.y;
    assert e[3] == q.z;
  }

  /** The four components of z ⊗ y ⊗ x, regrouped into the order of the half-angle formula. */
  lemma Regroup(cy: real, sy: real, cp: real, sp: real, cr: real, sr: real)
    ensures (cy * cp) * cr - (-(sy * sp)) * sr == cr * cp * cy + sr * sp * sy
    ensures (cy * cp) * sr + (-(sy * sp)) * cr == sr * cp * cy - cr * sp * sy
    ensures (cy * sp) * cr + (sy * cp) * sr == cr * sp * cy + sr * cp * sy
    ensures (sy * cp) * cr - (cy * sp) * sr == cr * cp * sy - sr * sp * cy
  {
  }

  /** The rotation about z times the rotation about y. */
  lemma ZTimesY(cy: real, sy: real, cp: real, sp: real) returns (zy: Quat)
    ensures zy == Multiply(Quat(cy, 0.0, 0.0, sy), Quat(cp, 0.0, sp, 0.0))
    ensures zy == Quat(cy * cp, -(sy * sp), cy * sp, sy * cp)
  {
    zy := Quat(cy * cp, -(sy * sp), cy * sp, sy * cp);
  }

  /** Any quaternion times a rotation about x. */
  lemma TimesX(a: Quat, cr: real, sr: real) returns (q: Quat)
    ensures q == Multiply(a, Quat(cr, sr, 0.0, 0.0))
    ensures q == Quat(a.w * cr - a.x * sr, a.w * sr + a.x * cr, a.y * cr + a.z * sr, a.z * cr - a.y * sr)
  {
    q := Quat(a.w * cr - a.x * sr, a.w * sr + a.x * cr, a.y * cr + a.z * sr, a.z * cr - a.y * sr);
  }

  /** All-zero angles give the identity [1, 0, 0, 0]. */
  lemma EulerZeroIsIdentity(t: Trig)
    requires TrigLaws(t)
    ensures EulerToQuaternion(t, 0.0, 0.0, 0.0) == Wxyz(IdentityQuat)
  {
  }

  /** The commands the native `ArmController` receives; a rate of `None` leaves the controller's own default. */
  datatype ControllerCall =
    | SetJoint(q: Vector, tf: real, ctrlHz: Option<real>)
    | SetJointRaw(q: Vector, v: Vector)
    | SetEndEffectorPose(pos: Vector, euler: Vector, tf: real)
    | SetEndEffectorPoseRaw(pos: Vector, euler: Vector)
    | GravityCompensation
    | OpenGripper
    | CloseGripper
    | SetGripperPositionRaw(position: real)
    | SetGripperPosition(position: real)
    | Cleanup

  /** What the controller reports when queried. */
  datatype Readings = Readings(joints: Vector, velocities: Vector, torques: Vector, eePosition: Vector, eeRpy: Vector, gripper: real)

  /** The native controller: the arguments it was opened with, its readings and a log of commands. */
  class ArmController {
    const canInterface: Value
    const enableFd: Value
    const gripperExist: Value
    const readings: Readings
    ghost var calls: seq<ControllerCall>

    constructor (canInterface: Value, enableFd: Value, gripperExist: Value, readings: Readings)
      ensures this.canInterface == canInterface && this.enableFd == enableFd && this.gripperExist == gripperExist
      ensures this.readings == readings && calls == []
    {
      this.canInterface := canInterface;
      this.enableFd := enableFd;
      this.gripperExist := gripperExist;
      this.readings := readings;
      calls := [];
    }

    method Send(c: ControllerCall)
      modifies this
      ensures calls == old(calls) + [c]
    {
      calls := calls + [c];
    }
  }

  const HomeJoints: Vector := [0.0, 0.0, 0.0, 0.0, 0.0, 0.0]

  /** `SingleArm`: each command is forwarded once and answered with True. */
  class SingleArm {
    const arm: ArmController
    const trig: Trig

    /** `SingleArm(can_interface_, gripper, enable_fd_)` opens a controller with those arguments. */
    constructor (readings: Readings, trig: Trig, canInterface: Value := Str("can0"), gripper: Value := Bool(true), enableFd: Value := Bool(false))
      ensures fresh(arm) && arm.calls == [] && arm.readings == readings && this.trig == trig
      ensures arm.canInterface == canInterface && arm.gripperExist == gripper && arm.enableFd == enableFd
    {
      arm := new ArmController(canInterface, enableFd, gripper, readings);
      this.trig := trig;
    }

    /** `go_home`: six zero joints over 3 seconds, calling the controller directly without a rate. */
    method GoHome() returns (ok: bool)
      modifies arm
      ensures ok && arm.calls == old(arm.calls) + [ControllerCall.SetJoint(HomeJoints, 3.0, None)]
    {
      arm.Send(ControllerCall.SetJoint(HomeJoints, 3.0, None));
      ok := true;
    }

    method GravityCompensation() returns (ok: bool)
      modifies arm
      ensures ok && arm.calls == old(arm.calls) + [ControllerCall.GravityCompensation]
    {
      arm.Send(ControllerCall.GravityCompensation);
      ok := true;
    }

    /** `set_joint`: planned joint motion, 2 seconds at 400 Hz unless told otherwise. */
    method SetJoint(positions: Vector, tf: real := 2.0, ctrlHz: real := 400.0) returns (ok: bool)
      modifies arm
      ensures ok && arm.calls == old(arm.calls) + [ControllerCall.SetJoint(positions, tf, Some(ctrlHz))]
    {
      arm.Send(ControllerCall.SetJoint(positions, tf, Some(ctrlHz)));
      ok := true;
    }

    /** `set_joint_raw`: unplanned pass-through of positions and velocities. */
    method SetJointRaw(positions: Vector, velocities: Vector) returns (ok: bool)
      modifies arm
      ensures ok && arm.calls == old(arm.calls) + [ControllerCall.SetJointRaw(positions, velocities)]
    {
      arm.Send(ControllerCall.SetJointRaw(positions, velocities));
      ok := true;
    }

    /** `set_end_effector_pose_euler`: planned Cartesian motion, 2 seconds by default. */
    method SetEndEffectorPoseEuler(pos: Vector, euler: Vector, tf: real := 2.0) returns (ok: bool)
      modifies arm
      ensures ok && arm.calls == old(arm.calls) + [SetEndEffectorPose(pos, euler, tf)]
    {
      arm.Send(SetEndEffectorPose(pos, euler, tf));
      ok := true;
    }

    method SetEndEffectorPoseEulerRaw(pos: Vector, euler: Vector) returns (ok: bool)
      modifies arm
      ensures ok && arm.calls == old(arm.calls) + [SetEndEffectorPoseRaw(pos, euler)]
    {
      arm.Send(SetEndEffectorPoseRaw(pos, euler));
      ok := true;
    }

    /**
     * `set_end_effector_pose_quat`: converts the [w, x, y, z] quaternion to
     * Euler angles and forwards the position unchanged; a quaternion that is
     * not four values raises before any command.
     */
    method SetEndEffectorPoseQuat(pos: Vector, quat: Vector, tf: real := 2.0) returns (r: Option<bool>)
      modifies arm
      ensures r.Some? <==> |quat| == 4
      ensures r.None? ==> arm.calls == old(arm.calls)
      ensures r.Some? ==> (r.value &&
                arm.calls == old(arm.calls) + [SetEndEffectorPose(pos, QuaternionToEulerWxyz(trig, quat).value, tf)])
    {
      var euler := QuaternionToEulerWxyz(trig, quat);
      if euler.None? {
        return None;
      }
      arm.Send(SetEndEffectorPose(pos, euler.value, tf));
      r := Some(true);
    }

    method SetEndEffectorPoseQuatRaw(pos: Vector, quat: Vector) returns (r: Option<bool>)
      modifies arm
      ensures r.Some? <==> |quat| == 4
      ensures r.None? ==> arm.calls == old(arm.calls)
      ensures r.Some? ==> (r.value &&
                arm.calls == old(arm.calls) + [SetEndEffectorPoseRaw(pos, QuaternionToEulerWxyz(trig, quat).value)])
    {
      var euler := QuaternionToEulerWxyz(trig, quat);
      if euler.None? {
        return None;
      }
      arm.Send(SetEndEffectorPoseRaw(pos, euler.value));
      r := Some(true);
    }

    function GetJointPositions(): (q: Vector)
      ensures q == arm.readings.joints
    {
      arm.readings.joints
    }

    function GetJointVelocities(): (v: Vector)
      ensures v == arm.readings.velocities
    {
      arm.readings.velocities
    }

    function GetJointTorques(): (t: Vector)
      ensures t == arm.readings.torques
    {
      arm.readings.torques
    }

    /** `get_ee_pose_quat`: the reported position, and the reported angles as a [w, x, y, z] quaternion. */
    function GetEePoseQuat(): (pose: (Vector, Vector))
      requires |arm.readings.eeRpy| >= 3
      ensures pose.0 == arm.readings.eePosition && |pose.1| == 4
      ensures var rpy := arm.readings.eeRpy; pose.1 == EulerToQuaternion(trig, rpy[0], rpy[1], rpy[2])
    {
      var rpy := arm.readings.eeRpy;
      (arm.readings.eePosition, EulerToQuaternion(trig, rpy[0], rpy[1], rpy[2]))
    }

    /** `get_ee_pose_euler`: the reported position and angles, unchanged. */
    function GetEePoseEuler(): (pose: (Vector, Vector))
      ensures pose == (arm.readings.eePosition, arm.readings.eeRpy)
    {
      (arm.readings.eePosition, arm.readings.eeRpy)
    }

    method OpenGripper() returns (ok: bool)
      modifies arm
      ensures ok && arm.calls == old(arm.calls) + [ControllerCall.OpenGripper]
    {
      arm.Send(ControllerCall.OpenGripper);
      ok := true;
    }

    method CloseGripper() returns (ok: bool)
      modifies arm
      ensures ok && arm.calls == old(arm.calls) + [ControllerCall.CloseGripper]
    {
      arm.Send(ControllerCall.CloseGripper);
      ok := true;
    }

    method SetGripperPositionRaw(position: real) returns (ok: bool)
      modifies arm
      ensures ok && arm.calls == old(arm.calls) + [ControllerCall.SetGripperPositionRaw(position)]
    {
      arm.Send(ControllerCall.SetGripperPositionRaw(position));
      ok := true;
    }

    method SetGripperPosition(position: real) returns (ok: bool)
      modifies arm
      ensures ok && arm.calls == old(arm.calls) + [ControllerCall.SetGripperPosition(position)]
    {
      arm.Send(ControllerCall.SetGripperPosition(position));
      ok := true;
    }

    function GetGripperPosition(): (g: real)
      ensures g == arm.readings.gripper
    {
      arm.readings.gripper
    }

    method Cleanup()
      modifies arm
      ensures arm.calls == old(arm.calls) + [ControllerCall.Cleanup]
    {
      arm.Send(ControllerCall.Cleanup);
    }
  }
}
