/**
 * The Startouch adapter (bestman/robots/startouch/bestman_startouch.py). The
 * arm handle it opens is taken to be the SDK's `SingleArm`; before `connect`
 * the handle attribute does not exist and `__getattr__` answers None, so
 * every forwarded call fails as calling a method on None.
 */
module StartouchDriver {
  import opened Wrappers
  import opened PyValues
  import opened Geometry
  import opened RobotConfig
  import opened StartouchSdk
  import Factory

  /** The driver class this module registers for StartouchConfig. */
  const Driver := Factory.DriverClass("BestmanStartouch")

  datatype StartouchError =
    | NoHandle                                      // a method looked up on the missing handle (None)
    | UnexpectedKwargs(names: set<string>)          // TypeError from the handle's constructor
    | BadShape(arg: string, expected: nat, actual: nat)
    | BadPoseShapes(position: nat, rpy: nat)        // the joint position/rpy check of move_to_ee_pose_rpy
    | NotImplemented
    | NotCallable(name: string)                     // calling the None that `__getattr__` returns

  /** The keyword parameters the handle's constructor accepts. */
  const HandleParameters: set<string> := {"can_interface_", "gripper", "enable_fd_"}

  function Get(kwargs: Kwargs, key: string, default: Value): (v: Value)
    ensures key in kwargs ==> v == kwargs[key]
    ensures key !in kwargs ==> v == default
  {
    if key in kwargs then kwargs[key] else default
  }

  class BestmanStartouch {
    const config: RobotConfig
    var arm: SingleArm?
    /** Opened camera streams; nothing in the adapter ever opens one. */
    var cameras: seq<string>

    constructor (config: RobotConfig)
      ensures this.config == config && arm == null && cameras == []
    {
      this.config := config;
      arm := null;
      cameras := [];
    }

    /**
     * `connect`: opens the handle with `sdk_kwargs` as keyword arguments; a
     * key the constructor does not take raises TypeError and leaves the
     * adapter as it was.
     */
    method Connect(readings: Readings, trig: Trig) returns (r: Result<(), StartouchError>)
      modifies this
      ensures cameras == old(cameras)
      ensures r.Err? <==> !(config.sdkKwargs.Keys <= HandleParameters)
      ensures r.Err? ==> r.error == UnexpectedKwargs(config.sdkKwargs.Keys - HandleParameters) && arm == old(arm)
      ensures r.Ok? ==>
                && arm != null && fresh(arm) && fresh(arm.arm) && arm.arm.calls == [] && arm.arm.readings == readings
                && arm.arm.canInterface == Get(config.sdkKwargs, "can_interface_", Str("can0"))
                && arm.arm.gripperExist == Get(config.sdkKwargs, "gripper", Bool(true))
                && arm.arm.enableFd == Get(config.sdkKwargs, "enable_fd_", Bool(false))
    {
      var kw := config.sdkKwargs;
      if !(kw.Keys <= HandleParameters) {
        return Err(UnexpectedKwargs(kw.Keys - HandleParameters));
      }
      arm := new SingleArm(readings, trig, Get(kw, "can_interface_", Str("can0")),
                           Get(kw, "gripper", Bool(true)), Get(kw, "enable_fd_", Bool(false)));
      r := Ok(());
    }

    /** `disconnect`: the handle's `cleanup`. */
    method Disconnect() returns (r: Result<(), StartouchError>)
      modifies if arm == null then {} else {arm.arm}
      ensures r.Ok? <==> arm != null
      ensures arm != null ==> arm.arm.calls == old(arm.arm.calls) + [ControllerCall.Cleanup]
    {
      if arm == null {
        return Err(NoHandle);
      }
      arm.Cleanup();
      r := Ok(());
    }

    /** `go_home`: the handle's own homing motion. */
    method GoHome() returns (r: Result<(), StartouchError>)
      modifies if arm == null then {} else {arm.arm}
      ensures r.Ok? <==> arm != null
      ensures arm != null ==> arm.arm.calls == old(arm.arm.calls) + [ControllerCall.SetJoint(HomeJoints, 3.0, None)]
    {
      if arm == null {
        return Err(NoHandle);
      }
      var _ := arm.GoHome();
      r := Ok(());
    }

    /** `move_to_joint_positions`: no length check; planned motion with the handle's defaults, 2 s at 400 Hz. */
    method MoveToJointPositions(joints: Vector, isRadian: bool := false, wait: bool := true)
      returns (r: Result<(), StartouchError>)
      modifies if arm == null then {} else {arm.arm}
      ensures r.Ok? <==> arm != null
      ensures arm != null ==> arm.arm.calls == old(arm.arm.calls) + [ControllerCall.SetJoint(joints, 2.0, Some(400.0))]
    {
      if arm == null {
        return Err(NoHandle);
      }
      var _ := arm.SetJoint(joints);
      r := Ok(());
    }

    /** `move_to_ee_pose`: a 6-vector split into position and angles; the shape is checked before the handle is used. */
    method MoveToEePose(pose: Vector, isRadian: bool := false, wait: bool := false)
      returns (r: Result<(), StartouchError>)
      modifies if arm == null then {} else {arm.arm}
      ensures |pose| != 6 ==> r == Err(BadShape("pose", 6, |pose|))
      ensures |pose| == 6 ==> (r.Ok? <==> arm != null)
      ensures arm != null ==>
                arm.arm.calls == old(arm.arm.calls)
                  + (if |pose| == 6 then [SetEndEffectorPose(pose[..3], pose[3..], 2.0)] else [])
    {
      if |pose| != 6 {
        return Err(BadShape("pose", 6, |pose|));
      }
      if arm == null {
        return Err(NoHandle);
      }
      var _ := arm.SetEndEffectorPoseEuler(pose[..3], pose[3..]);
      r := Ok(());
    }

    /** `move_to_ee_pose_rpy`: position and angles must both be 3-vectors. */
    method MoveToEePoseRpy(position: Vector, rpy: Vector, isRadian: bool := false, wait: bool := false)
      returns (r: Result<(), StartouchError>)
      modifies if arm == null then {} else {arm.arm}
      ensures !(|position| == 3 && |rpy| == 3) ==> r == Err(BadPoseShapes(|position|, |rpy|))
      ensures |position| == 3 && |rpy| == 3 ==> (r.Ok? <==> arm != null)
      ensures arm != null ==>
                arm.arm.calls == old(arm.arm.calls)
                  + (if |position| == 3 && |rpy| == 3 then [SetEndEffectorPose(position, rpy, 2.0)] else [])
    {
      if |position| != 3 || |rpy| != 3 {
        return Err(BadPoseShapes(|position|, |rpy|));
      }
      if arm == null {
        return Err(NoHandle);
      }
      var _ := arm.SetEndEffectorPoseEuler(position, rpy);
      r := Ok(());
    }

    /**
     * `move_to_ee_pose_quat`: a 3-vector position and a [w, x, y, z]
     * quaternion, which the handle turns into Euler angles.
     */
    method MoveToEePoseQuat(position: Vector, orientation: Vector, isRadian: bool := false, wait: bool := false)
      returns (r: Result<(), StartouchError>)
      modifies if arm == null then {} else {arm.arm}
      ensures |position| != 3 ==> r == Err(BadShape("position", 3, |position|))
      ensures |position| == 3 && |orientation| != 4 ==> r == Err(BadShape("orientation", 4, |orientation|))
      ensures |position| == 3 && |orientation| == 4 ==> (r.Ok? <==> arm != null)
      ensures arm != null ==>
                arm.arm.calls == old(arm.arm.calls)
                  + (if r.Ok? then [SetEndEffectorPose(position, QuaternionToEulerWxyz(arm.trig, orientation).value, 2.0)]
                     else [])
    {
      if |position| != 3 {
        return Err(BadShape("position", 3, |position|));
      }
      if |orientation| != 4 {
        return Err(BadShape("orientation", 4, |orientation|));
      }
      if arm == null {
        return Err(NoHandle);
      }
      var _ := arm.SetEndEffectorPoseQuat(position, orientation);
      r := Ok(());
    }

    /** `servo_to_joint_positions` and `servo_to_ee_pose` are empty: they succeed and send nothing, connected or not. */
    method ServoToJointPositions(joints: Vector) returns (r: Result<(), StartouchError>)
      ensures r == Ok(())
    {
      r := Ok(());
    }

    method ServoToEePose(pose: Vector) returns (r: Result<(), StartouchError>)
      ensures r == Ok(())
    {
      r := Ok(());
    }

    method ServoToEePoseRpy(position: Vector, rpy: Vector) returns (r: Result<(), StartouchError>)
      ensures r == Err(NotImplemented)
    {
      r := Err(NotImplemented);
    }

    method ServoToEePoseQuat(position: Vector, orientation: Vector) returns (r: Result<(), StartouchError>)
      ensures r == Err(NotImplemented)
    {
      r := Err(NotImplemented);
    }

    /** `move_gripper`: the command goes to the handle's `setGripperPosition` unchanged. */
    method MoveGripper(command: real) returns (r: Result<(), StartouchError>)
      modifies if arm == null then {} else {arm.arm}
      ensures r.Ok? <==> arm != null
      ensures arm != null ==> arm.arm.calls == old(arm.arm.calls) + [ControllerCall.SetGripperPosition(command)]
    {
      if arm == null {
        return Err(NoHandle);
      }
      var _ := arm.SetGripperPosition(command);
      r := Ok(());
    }

    function GetJointPositions(): (r: Result<Vector, StartouchError>)
      reads this, if arm == null then {} else {arm}
      ensures r.Ok? <==> arm != null
      ensures arm != null ==> r.value == arm.arm.readings.joints
    {
      if arm == null then Err(NoHandle) else Ok(arm.GetJointPositions())
    }

    function GetJointVelocities(): (r: Result<Vector, StartouchError>)
      reads this, if arm == null then {} else {arm}
      ensures r.Ok? <==> arm != null
      ensures arm != null ==> r.value == arm.arm.readings.velocities
    {
      if arm == null then Err(NoHandle) else Ok(arm.GetJointVelocities())
    }

    function GetGripperPosition(): (r: Result<real, StartouchError>)
      reads this, if arm == null then {} else {arm}
      ensures r.Ok? <==> arm != null
      ensures arm != null ==> r.value == arm.arm.readings.gripper
    {
      if arm == null then Err(NoHandle) else Ok(arm.GetGripperPosition())
    }

    /**
     * `get_ee_pose` asks the adapter itself for `get_ee_pose_euler`, which it
     * does not define: `__getattr__` answers None and calling it raises,
     * whether connected or not.
     */
    function GetEePose(): (r: Result<(Vector, Vector), StartouchError>)
      ensures r.Err? && r.error.NotCallable?
    {
      Err(NotCallable("get_ee_pose_euler"))
    }
  }
}
