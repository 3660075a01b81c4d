/**
 * The xArm adapter (bestman/robots/xarm/bestman_xarm.py) over an abstract
 * xArm SDK handle. The handle is a class with the controller's mode, state,
 * reply code and reported position, plus a ghost log of every SDK call, so
 * that call order, "no SDK call on error" and "nothing else changes" can be
 * stated.
 */
module XArmDriver {
  import opened Wrappers
  import opened PyValues
  import opened RobotConfig
  import Factory

  /** The driver class this module registers for XArmConfig. */
  const Driver := Factory.DriverClass("BestmanXarm")

  /** The SDK entry points the adapter calls. Lengths are in millimetres on the wire. */
  datatype Call =
    | CleanWarn
    | CleanError
    | SetTcpOffset(offset: seq<real>, wait: bool)
    | MotionEnable(enable: bool)
    | SetMode(mode: int)
    | SetState(state: int)
    | SetServoAngle(angles: seq<real>, isRadian: bool, wait: bool)
    | SetPosition(x: real, y: real, z: real, roll: real, pitch: real, yaw: real, isRadian: bool, wait: bool)
    | SetServoAngleJ(angles: seq<real>, isRadian: bool)
    | SetServoCartesian(pose: seq<real>, isRadian: bool)
    | Disconnect

  /**
   * What the physical controller does, which the adapter cannot see: the
   * setup call it rejects with an exception (if any), the mode it starts in,
   * the code it answers motion calls with, and the position it reports.
   */
  datatype Controller = Controller(rejects: Option<Call>, mode: int, replyCode: int, position: seq<real>)

  datatype XArmError =
    | NoHandle                                           // `self.arm` is None
    | ConnectionFailed(rejected: Call)                   // ConnectionError raised by connect
    | BadLength(arg: string, expected: int, actual: nat) // the length checks of the move calls
    | WrongMode(mode: int)                               // servo call outside mode 1
    | NotImplemented

  /** The SDK handle `XArmAPI(**sdk_kwargs)`. */
  class XArmApi {
    const kwargs: Kwargs
    var mode: int
    var state: int
    var replyCode: int
    var position: array<real>
    ghost var calls: seq<Call>

    constructor (kwargs: Kwargs, hw: Controller)
      ensures this.kwargs == kwargs && mode == hw.mode && replyCode == hw.replyCode
      ensures fresh(position) && position[..] == hw.position && calls == []
    {
      this.kwargs := kwargs;
      mode := hw.mode;
      state := 0;
      replyCode := hw.replyCode;
      position := new real[|hw.position|] (i requires 0 <= i < |hw.position| => hw.position[i]);
      calls := [];
    }

    /**
     * Issues one SDK call: `set_mode` and `set_state` update the controller
     * whatever reply code it answers; every call answers the reply code.
     */
    method Send(c: Call) returns (code: int)
      modifies this
      ensures calls == old(calls) + [c]
      ensures mode == (if c.SetMode? then c.mode else old(mode))
      ensures state == (if c.SetState? then c.state else old(state))
      ensures replyCode == old(replyCode) && position == old(position)
      ensures code == replyCode
    {
      calls := calls + [c];
      if c.SetMode? {
        mode := c.mode;
      }
      if c.SetState? {
        state := c.state;
      }
      code := replyCode;
    }
  }

  /** The calls connect issues after creating the handle, in order. */
  function SetupCalls(tcpOffset: Option<seq<real>>): (calls: seq<Call>)
    ensures |calls| == if tcpOffset.Some? then 5 else 4
    ensures calls[0] == CleanWarn && calls[1] == CleanError && calls[|calls| - 1] == SetMode(0)
    ensures calls[|calls| - 2] == MotionEnable(true)
    ensures tcpOffset.Some? ==> calls[2] == SetTcpOffset(tcpOffset.value, true)
    ensures forall i, j :: 0 <= i < j < |calls| ==> calls[i] != calls[j]
  {
    [CleanWarn, CleanError]
    + (if tcpOffset.Some? then [SetTcpOffset(tcpOffset.value, true)] else [])
    + [MotionEnable(true), SetMode(0)]
  }

  /** The position of the first occurrence of `c` in `s`. */
  function IndexOf(s: seq<Call>, c: Call): (i: nat)
    requires c in s
    ensures i < |s| && s[i] == c && c !in s[..i]
  {
    if s[0] == c then 0 else 1 + IndexOf(s[1..], c)
  }

  /** The calls of `setup` that run when the controller rejects `rejects`: up to and including it. */
  function SetupRun(setup: seq<Call>, rejects: Option<Call>): (run: seq<Call>)
    ensures run <= setup
    ensures rejects.Some? && rejects.value in setup ==>
              0 < |run| && run[|run| - 1] == rejects.value && rejects.value !in run[..|run| - 1]
    ensures !(rejects.Some? && rejects.value in setup) ==> run == setup
  {
    if rejects.Some? && rejects.value in setup then setup[..IndexOf(setup, rejects.value) + 1] else setup
  }

  /** The first occurrence of `c` is the one with no `c` before it. */
  lemma {:induction false} IndexOfFirst(s: seq<Call>, c: Call, i: nat)
    requires i < |s| && s[i] == c && c !in s[..i]
    ensures IndexOf(s, c) == i
  {
    if i > 0 {
      assert s[..i][0] == s[0];
      assert s[1..][i - 1] == c;
      assert s[1..][..i - 1] == s[..i][1..];
      IndexOfFirst(s[1..], c, i - 1);
    }
  }

  /** `if self.mode != 0: self.set_mode(0)` */
  function ModeReset(mode: int): (calls: seq<Call>)
    ensures mode == 0 ==> calls == []
    ensures mode != 0 ==> calls == [SetMode(0), SetState(0)]
  {
    if mode != 0 then [SetMode(0), SetState(0)] else []
  }

  /** Scales the first three components (x, y, z) by `factor`; the angles pass through. */
  function ScaleXyz(pose: seq<real>, factor: real): (r: seq<real>)
    ensures |r| == |pose|
    ensures forall i :: 0 <= i < |pose| ==> r[i] == if i < 3 then pose[i] * factor else pose[i]
  {
    seq(|pose|, i requires 0 <= i < |pose| => if i < 3 then pose[i] * factor else pose[i])
  }

  /** Metres to the SDK's millimetres, as the move calls send them. */
  function ToMillimetres(pose: seq<real>): (r: seq<real>)
    ensures |r| == |pose|
    ensures forall i :: 0 <= i < |pose| && i < 3 ==> r[i] == 1000.0 * pose[i]
    ensures forall i :: 3 <= i < |pose| ==> r[i] == pose[i]
  {
    ScaleXyz(pose, 1000.0)
  }

  /** The SDK's millimetres back to metres, as get_ee_pose reports them. */
  function ToMetres(pose: seq<real>): (r: seq<real>)
    ensures |r| == |pose|
    ensures forall i :: 0 <= i < |pose| && i < 3 ==> r[i] == pose[i] / 1000.0
    ensures forall i :: 3 <= i < |pose| ==> r[i] == pose[i]
  {
    ScaleXyz(pose, 1.0 / 1000.0)
  }

  /** Reading back what a move sent gives the commanded pose, and the other way round. */
  lemma MetreMillimetreRoundTrip(pose: seq<real>)
    ensures ToMetres(ToMillimetres(pose)) == pose
    ensures ToMillimetres(ToMetres(pose)) == pose
  {
    assert forall i :: 0 <= i < |pose| ==> ToMetres(ToMillimetres(pose))[i] == pose[i];
    assert forall i :: 0 <= i < |pose| ==> ToMillimetres(ToMetres(pose))[i] == pose[i];
  }

  /** The `set_position` call for a pose given as metres and angles. */
  function PositionCall(xyz: seq<real>, rpy: seq<real>, isRadian: bool, wait: bool): (c: Call)
    requires |xyz| == 3 && |rpy| == 3
    ensures c.SetPosition? && [c.x, c.y, c.z] == ToMillimetres(xyz)
    ensures [c.roll, c.pitch, c.yaw] == rpy && c.isRadian == isRadian && c.wait == wait
  {
    SetPosition(xyz[0] * 1000.0, xyz[1] * 1000.0, xyz[2] * 1000.0, rpy[0], rpy[1], rpy[2], isRadian, wait)
  }

  class BestmanXarm {
    const config: RobotConfig
    var arm: XArmApi?
    /** Opened camera streams; nothing in the adapter ever opens one. */
    var cameras: seq<string>

    constructor (config: RobotConfig)
      ensures this.config == config && arm == null && cameras == []
    {
      this.config := config;
      arm := null;
      cameras := [];
    }

    /** The `mode` property: the SDK's current mode. */
    function Mode(): (m: Result<int, XArmError>)
      reads this, arm
      ensures m.Ok? <==> arm != null
      ensures arm != null ==> m.value == arm.mode
    {
      if arm == null then Err(NoHandle) else Ok(arm.mode)
    }

    /**
     * Creates the handle from `sdk_kwargs` and runs the setup calls. When the
     * controller rejects one of them, the handle is disconnected and dropped
     * and ConnectionError names the rejected call.
     */
    method Connect(hw: Controller) returns (r: Result<(), XArmError>, ghost sdk: XArmApi)
      modifies this
      ensures fresh(sdk) && sdk.kwargs == config.sdkKwargs && cameras == old(cameras)
      ensures r.Err? <==> hw.rejects.Some? && hw.rejects.value in SetupCalls(config.tcpOffset)
      ensures r.Ok? ==> arm == sdk && sdk.calls == SetupCalls(config.tcpOffset) && Mode() == Ok(0)
      ensures r.Err? ==>
                && arm == null
                && r.error == ConnectionFailed(hw.rejects.value)
                && sdk.calls == SetupRun(SetupCalls(config.tcpOffset), hw.rejects) + [Call.Disconnect]
    {
      var a := new XArmApi(config.sdkKwargs, hw);
      arm := a;
      sdk := a;
      var rejected := RunSetup(a, config.tcpOffset, hw);
      if rejected.Some? {
        r := Abort(a, hw);
        return;
      }
      r := Ok(());
    }

    /**
     * The `try` body of connect: the setup calls in order, stopping after the
     * first one the controller rejects.
     */
    static method RunSetup(a: XArmApi, tcpOffset: Option<seq<real>>, hw: Controller) returns (rejected: Option<Call>)
      modifies a
      ensures rejected == (if hw.rejects.Some? && hw.rejects.value in SetupCalls(tcpOffset) then hw.rejects else None)
      ensures a.calls == old(a.calls) + SetupRun(SetupCalls(tcpOffset), hw.rejects)
      ensures rejected.None? ==> a.mode == 0
      ensures a.replyCode == old(a.replyCode) && a.position == old(a.position)
    {
      ghost var setup := SetupCalls(tcpOffset);
      ghost var start := a.calls;
      var raised := Setup(a, CleanWarn, hw, setup, 0, start);
      if raised {
        return hw.rejects;
      }
      raised := Setup(a, CleanError, hw, setup, 1, start);
      if raised {
        return hw.rejects;
      }
      if tcpOffset.Some? {
        raised := Setup(a, SetTcpOffset(tcpOffset.value, true), hw, setup, 2, start);
        if raised {
          return hw.rejects;
        }
      }
      raised := Setup(a, MotionEnable(true), hw, setup, |setup| - 2, start);
      if raised {
        return hw.rejects;
      }
      raised := Setup(a, Call.SetMode(0), hw, setup, |setup| - 1, start);
      if raised {
        return hw.rejects;
      }
      rejected := None;
    }

    /** The `except` branch of connect: disconnect the handle, drop it, raise ConnectionError. */
    method Abort(a: XArmApi, hw: Controller) returns (r: Result<(), XArmError>)
      requires hw.rejects.Some?
      modifies this, a
      ensures arm == null && cameras == old(cameras) && r == Err(ConnectionFailed(hw.rejects.value))
      ensures a.calls == old(a.calls) + [Call.Disconnect]
    {
      var _ := a.Send(Call.Disconnect);
      arm := null;
      r := Err(ConnectionFailed(hw.rejects.value));
    }

    /** One setup call, which raises when the controller rejects it. */
    static method Setup(a: XArmApi, c: Call, hw: Controller, ghost setup: seq<Call>, ghost i: nat, ghost start: seq<Call>)
      returns (raised: bool)
      modifies a
      requires i < |setup| && setup[i] == c && !c.SetState?
      requires a.calls == start + setup[..i]
      requires forall j :: 0 <= j < i ==> hw.rejects != Some(setup[j])
      ensures a.calls == start + setup[..i + 1] && raised == (hw.rejects == Some(c))
      ensures raised ==> c in setup && SetupRun(setup, hw.rejects) == setup[..i + 1]
      ensures !raised ==> forall j :: 0 <= j < i + 1 ==> hw.rejects != Some(setup[j])
      ensures a.mode == (if c.SetMode? then c.mode else old(a.mode))
      ensures a.state == old(a.state) && a.replyCode == old(a.replyCode) && a.position == old(a.position)
    {
      var _ := a.Send(c);
      assert setup[..i + 1] == setup[..i] + [c];
      raised := hw.rejects == Some(c);
      if raised {
        IndexOfFirst(setup, c, i);
      }
    }

    /** Disconnects the handle if there is one, but keeps it, so a second call disconnects again. */
    method Disconnect() returns (r: Result<(), XArmError>)
      modifies arm
      ensures r == Ok(()) && arm == old(arm)
      ensures arm != null ==>
                && arm.calls == old(arm.calls) + [Call.Disconnect]
                && arm.mode == old(arm.mode) && arm.state == old(arm.state)
    {
      if arm != null {
        var _ := arm.Send(Call.Disconnect);
      }
      r := Ok(());
    }

    /** `set_mode(m)`: SDK `set_mode(m)` then `set_state(0)`; `mode` then reads `m` back. */
    method SetMode(m: int) returns (r: Result<(), XArmError>)
      modifies arm
      ensures arm == null ==> r == Err(NoHandle)
      ensures arm != null ==>
                && r == Ok(()) && Mode() == Ok(m) && arm.state == 0
                && arm.calls == old(arm.calls) + [Call.SetMode(m), SetState(0)]
                && arm.replyCode == old(arm.replyCode) && arm.position == old(arm.position)
    {
      if arm == null {
        return Err(NoHandle);
      }
      var _ := arm.Send(Call.SetMode(m));
      var _ := arm.Send(SetState(0));
      r := Ok(());
    }

    /**
     * `move_to_joint_positions`: switches to mode 0 when needed (even when the
     * input is then rejected), checks the length against `dof`, and reports
     * whether the SDK answered 0.
     */
    method MoveToJointPositions(joints: seq<real>, isRadian: bool := false, wait: bool := true)
      returns (r: Result<bool, XArmError>)
      modifies arm
      ensures arm == null ==> r == Err(NoHandle)
      ensures arm != null ==>
                && arm.mode == 0 && arm.replyCode == old(arm.replyCode) && arm.position == old(arm.position)
                && arm.state == (if old(arm.mode) != 0 then 0 else old(arm.state))
      ensures arm != null && |joints| != config.dof ==>
                && r == Err(BadLength("joint_positions", config.dof, |joints|))
                && arm.calls == old(arm.calls) + ModeReset(old(arm.mode))
      ensures arm != null && |joints| == config.dof ==>
                && r == Ok(arm.replyCode == 0)
                && arm.calls == old(arm.calls) + ModeReset(old(arm.mode)) + [SetServoAngle(joints, isRadian, wait)]
    {
      if arm == null {
        return Err(NoHandle);
      }
      if arm.mode != 0 {
        var _ := SetMode(0);
      }
      if |joints| != config.dof {
        return Err(BadLength("joint_positions", config.dof, |joints|));
      }
      var code := arm.Send(SetServoAngle(joints, isRadian, wait));
      r := Ok(code == 0);
    }

    /** `move_to_ee_pose`: a 6-vector [x, y, z, roll, pitch, yaw] in metres, sent in millimetres. */
    method MoveToEePose(pose: seq<real>, isRadian: bool := false, wait: bool := false)
      returns (r: Result<bool, XArmError>)
      modifies arm
      ensures arm == null ==> r == Err(NoHandle)
      ensures arm != null ==>
                && arm.mode == 0 && arm.replyCode == old(arm.replyCode) && arm.position == old(arm.position)
                && arm.state == (if old(arm.mode) != 0 then 0 else old(arm.state))
      ensures arm != null && |pose| != 6 ==>
                && r == Err(BadLength("pose", 6, |pose|))
                && arm.calls == old(arm.calls) + ModeReset(old(arm.mode))
      ensures arm != null && |pose| == 6 ==>
                && r == Ok(arm.replyCode == 0)
                && arm.calls == old(arm.calls) + ModeReset(old(arm.mode)) + [PositionCall(pose[..3], pose[3..], isRadian, wait)]
    {
      if arm == null {
        return Err(NoHandle);
      }
      if arm.mode != 0 {
        var _ := SetMode(0);
      }
      if |pose| != 6 {
        return Err(BadLength("pose", 6, |pose|));
      }
      var code := arm.Send(SetPosition(pose[0] * 1000.0, pose[1] * 1000.0, pose[2] * 1000.0, pose[3], pose[4], pose[5], isRadian, wait));
      r := Ok(code == 0);
    }

    /** `move_to_ee_pose_rpy`: position (3 values, metres) then rpy (3 values), each length-checked. */
    method MoveToEePoseRpy(position: seq<real>, rpy: seq<real>, isRadian: bool := false, wait: bool := false)
      returns (r: Result<bool, XArmError>)
      modifies arm
      ensures arm == null ==> r == Err(NoHandle)
      ensures arm != null ==>
                && arm.mode == 0 && arm.replyCode == old(arm.replyCode) && arm.position == old(arm.position)
                && arm.state == (if old(arm.mode) != 0 then 0 else old(arm.state))
      ensures arm != null && |position| != 3 ==>
                && r == Err(BadLength("position", 3, |position|))
                && arm.calls == old(arm.calls) + ModeReset(old(arm.mode))
      ensures arm != null && |position| == 3 && |rpy| != 3 ==>
                && r == Err(BadLength("rpy", 3, |rpy|))
                && arm.calls == old(arm.calls) + ModeReset(old(arm.mode))
      ensures arm != null && |position| == 3 && |rpy| == 3 ==>
                && r == Ok(arm.replyCode == 0)
                && arm.calls == old(arm.calls) + ModeReset(old(arm.mode)) + [PositionCall(position, rpy, isRadian, wait)]
    {
      if arm == null {
        return Err(NoHandle);
      }
      if arm.mode != 0 {
        var _ := SetMode(0);
      }
      if |position| != 3 {
        return Err(BadLength("position", 3, |position|));
      }
      if |rpy| != 3 {
        return Err(BadLength("rpy", 3, |rpy|));
      }
      var code := arm.Send(SetPosition(position[0] * 1000.0, position[1] * 1000.0, position[2] * 1000.0, rpy[0], rpy[1], rpy[2], isRadian, wait));
      r := Ok(code == 0);
    }

    /** `move_to_ee_pose_quat` is not implemented: it raises before touching the SDK. */
    method MoveToEePoseQuat(position: seq<real>, orientation: seq<real>) returns (r: Result<bool, XArmError>)
      ensures r == Err(NotImplemented)
    {
      r := Err(NotImplemented);
    }

    /** `go_home`: switches to mode 0 and moves to `initial_joints`; without them nothing moves and nothing is raised. */
    method GoHome() returns (r: Result<(), XArmError>)
      modifies arm
      ensures arm == null ==> r == Err(NoHandle)
      ensures arm != null ==> arm.mode == 0 && arm.state == 0 && arm.replyCode == old(arm.replyCode)
      ensures arm != null && config.initialJoints.None? ==>
                r == Ok(()) && arm.calls == old(arm.calls) + [Call.SetMode(0), SetState(0)]
      ensures arm != null && config.initialJoints.Some? && |config.initialJoints.value| != config.dof ==>
                && r == Err(BadLength("joint_positions", config.dof, |config.initialJoints.value|))
                && arm.calls == old(arm.calls) + [Call.SetMode(0), SetState(0)]
      ensures arm != null && config.initialJoints.Some? && |config.initialJoints.value| == config.dof ==>
                && r == Ok(())
                && arm.calls == old(arm.calls) + [Call.SetMode(0), SetState(0), SetServoAngle(config.initialJoints.value, false, true)]
    {
      r := SetMode(0);
      if r.Err? {
        return;
      }
      if config.initialJoints.Some? {
        var moved := MoveToJointPositions(config.initialJoints.value, wait := true);
        if moved.Err? {
          return Err(moved.error);
        }
      }
      r := Ok(());
    }

    /** `servo_to_joint_positions`: only in mode 1; outside it, ValueError and no SDK call. */
    method ServoToJointPositions(joints: seq<real>) returns (r: Result<bool, XArmError>)
      modifies arm
      ensures arm == null ==> r == Err(NoHandle)
      ensures arm != null ==> arm.mode == old(arm.mode) && arm.state == old(arm.state) && arm.replyCode == old(arm.replyCode)
      ensures arm != null && old(arm.mode) != 1 ==> r == Err(WrongMode(old(arm.mode))) && arm.calls == old(arm.calls)
      ensures arm != null && old(arm.mode) == 1 ==>
                r == Ok(arm.replyCode == 0) && arm.calls == old(arm.calls) + [SetServoAngleJ(joints, false)]
    {
      if arm == null {
        return Err(NoHandle);
      }
      if arm.mode != 1 {
        return Err(WrongMode(arm.mode));
      }
      var code := arm.Send(SetServoAngleJ(joints, false));
      r := Ok(code == 0);
    }

    /** `servo_to_ee_pose`: only in mode 1; the pose is forwarded as given and nothing is returned. */
    method ServoToEePose(pose: seq<real>) returns (r: Result<(), XArmError>)
      modifies arm
      ensures arm == null ==> r == Err(NoHandle)
      ensures arm != null ==> arm.mode == old(arm.mode) && arm.state == old(arm.state) && arm.replyCode == old(arm.replyCode)
      ensures arm != null && old(arm.mode) != 1 ==> r == Err(WrongMode(old(arm.mode))) && arm.calls == old(arm.calls)
      ensures arm != null && old(arm.mode) == 1 ==>
                r == Ok(()) && arm.calls == old(arm.calls) + [SetServoCartesian(pose, false)]
    {
      if arm == null {
        return Err(NoHandle);
      }
      if arm.mode != 1 {
        return Err(WrongMode(arm.mode));
      }
      var _ := arm.Send(SetServoCartesian(pose, false));
      r := Ok(());
    }

    /** `servo_to_ee_pose_rpy` is not implemented. */
    method ServoToEePoseRpy(position: seq<real>, rpy: seq<real>) returns (r: Result<bool, XArmError>)
      ensures r == Err(NotImplemented)
    {
      r := Err(NotImplemented);
    }

    /** `servo_to_ee_pose_quat` is not implemented. */
    method ServoToEePoseQuat(position: seq<real>, orientation: seq<real>) returns (r: Result<bool, XArmError>)
      ensures r == Err(NotImplemented)
    {
      r := Err(NotImplemented);
    }

    /**
     * `get_ee_pose`: rewrites the position list from millimetres to metres in
     * place and returns it. The handle's `position` is taken to be the SDK's
     * own list, returned by reference, so a second call would divide again;
     * whether the vendor SDK returns a copy instead is not part of this model.
     */
    method GetEePose() returns (r: Result<array<real>, XArmError>)
      modifies if arm != null then {arm.position} else {}
      ensures arm == null ==> r == Err(NoHandle)
      ensures arm != null ==> r == Ok(arm.position) && arm.position[..] == ToMetres(old(arm.position[..]))
    {
      if arm == null {
        return Err(NoHandle);
      }
      var p := arm.position;
      var i := 0;
      while i < 3 && i < p.Length
        invariant 0 <= i <= p.Length && i <= 3
        invariant forall k :: 0 <= k < i ==> p[k] == old(p[k]) * (1.0 / 1000.0)
        invariant forall k :: i <= k < p.Length ==> p[k] == old(p[k])
      {
        p[i] := p[i] / 1000.0;
        i := i + 1;
      }
      r := Ok(p);
    }
  }
}
