/**
 * The trajectory replayer (bestman/utils/replayer/replayer.py): an object
 * that loads a recorded trajectory and gripper log, maps the trajectory into
 * the robot frame, and replays it against the wall clock through the
 * driver's `servo_to_ee_pose`. Each attribute is absent until the step that
 * sets it runs, so the fields are options.
 */
module Replayer {
  import opened Wrappers
  import opened Geometry
  import opened PoseUtils
  import XArmDriver

  datatype ReplayError =
    | NotLoaded                         // "call load_data first"
    | NotTransformed                    // "call transform_traj first"
    | Missing(name: string)             // AttributeError: the step that sets it failed
    | ZeroStep                          // a slice step of 0
    | Empty(name: string)               // IndexError: element 0 of an empty sample
    | TooFewTimestamps                  // IndexError: more poses than timestamps
    | NoRobot                           // `servo_to_ee_pose` looked up on None
    | RobotFailed(robotError: XArmDriver.XArmError)
    | TransformFailed(transformError: TransformError)

  /** What the pacing step did before a point was sent. */
  datatype Pacing = Slept(seconds: real) | Lagged(behind: real) | OnTime

  /** Sleep when ahead of schedule, warn when more than 10 ms behind, else go on. */
  function PacingFor(wait: real): (p: Pacing)
    ensures p.Slept? <==> wait > 0.0
    ensures p.Lagged? <==> wait < -0.01
    ensures p.Slept? ==> p.seconds == wait
    ensures p.Lagged? ==> p.behind == -wait
  {
    if wait > 0.0 then Slept(wait) else if wait < -0.01 then Lagged(-wait) else OnTime
  }

  /**
   * `s[0::step]`: every `step`-th element from the first. A negative step
   * walks backwards from index 0, so it keeps the first element only.
   */
  function Decimate<T>(s: seq<T>, step: int): (r: seq<T>)
    requires step != 0
    ensures |r| <= |s| && (|s| > 0 ==> |r| > 0 && r[0] == s[0])
    ensures step < 0 ==> r == if |s| == 0 then [] else [s[0]]
    decreases |s|
  {
    if |s| == 0 then []
    else if step < 0 || |s| <= step then [s[0]]
    else [s[0]] + Decimate(s[step..], step)
  }

  /**
   * With a positive step the kept elements are exactly those at 0, step,
   * 2·step, … below |s|: element k is s[k·step], and the next multiple would
   * be past the end.
   */
  lemma DecimateIndices<T>(s: seq<T>, step: int)
    requires step > 0
    ensures var r := Decimate(s, step);
      && |r| * step >= |s|
      && forall k :: 0 <= k < |r| ==> k * step < |s| && r[k] == s[k * step]
  {
    DecimateCovers(s, step);
    forall k | 0 <= k < |Decimate(s, step)|
      ensures k * step < |s| && Decimate(s, step)[k] == s[k * step]
    {
      DecimateAt(s, step, k);
    }
  }

  lemma {:induction false} DecimateCovers<T>(s: seq<T>, step: int)
    requires step > 0
    ensures |Decimate(s, step)| * step >= |s|
    decreases |s|
  {
    if |s| > step {
      DecimateCovers(s[step..], step);
      var n := |Decimate(s[step..], step)|;
      assert |Decimate(s, step)| == n + 1;
      assert (n + 1) * step == n * step + step;
    }
  }

  lemma {:induction false} DecimateAt<T>(s: seq<T>, step: int, k: nat)
    requires step > 0 && k < |Decimate(s, step)|
    ensures k * step < |s| && Decimate(s, step)[k] == s[k * step]
    decreases k
  {
    if k > 0 {
      var rest := s[step..];
      assert Decimate(s, step) == [s[0]] + Decimate(rest, step);
      DecimateAt(rest, step, k - 1);
      assert (k - 1) * step + step == k * step;
      assert rest[(k - 1) * step] == s[k * step];
    }
  }

  /** A step of 1 keeps every element. */
  lemma {:induction false} DecimateByOne<T>(s: seq<T>)
    ensures Decimate(s, 1) == s
    decreases |s|
  {
    if |s| > 1 {
      DecimateByOne(s[1..]);
      assert [s[0]] + s[1..] == s;
    }
  }

  /** `(ts - ts[0]) / speed_rate`: when each point is due, relative to the first. */
  function Schedule(ts: Vector, speedRate: real): (due: Vector)
    requires |ts| > 0 && speedRate != 0.0
    ensures |due| == |ts| && due[0] == 0.0
    ensures forall k :: 0 <= k < |ts| ==> due[k] == (ts[k] - ts[0]) / speedRate
  {
    seq(|ts|, k requires 0 <= k < |ts| => (ts[k] - ts[0]) / speedRate)
  }

  predicate NonDecreasing(s: Vector)
  {
    forall i, j :: 0 <= i <= j < |s| ==> s[i] <= s[j]
  }

  /** With recorded times in order and a positive speed, the schedule is in order and never before the start. */
  lemma ScheduleMonotone(ts: Vector, speedRate: real)
    requires |ts| > 0 && speedRate > 0.0 && NonDecreasing(ts)
    ensures NonDecreasing(Schedule(ts, speedRate))
    ensures forall k :: 0 <= k < |ts| ==> Schedule(ts, speedRate)[k] >= 0.0
  {
    var due := Schedule(ts, speedRate);
    forall i, j | 0 <= i <= j < |ts|
      ensures due[i] <= due[j]
    {
      assert due[j] - due[i] == (ts[j] - ts[i]) / speedRate;
    }
    forall k | 0 <= k < |ts|
      ensures due[k] >= 0.0
    {
      assert due[k] - due[0] == (ts[k] - ts[0]) / speedRate;
    }
  }

  /** The driver calls that sending `poses` in order makes. */
  function ServoCalls(poses: seq<Vector>): (calls: seq<XArmDriver.Call>)
    ensures |calls| == |poses|
  {
    if poses == [] then [] else ServoCalls(poses[..|poses| - 1]) + [XArmDriver.SetServoCartesian(poses[|poses| - 1], false)]
  }

  /** Call k servoes to pose k: one call per pose, in order. */
  lemma {:induction false} ServoCallsIndex(poses: seq<Vector>)
    ensures forall k :: 0 <= k < |poses| ==> ServoCalls(poses)[k] == XArmDriver.SetServoCartesian(poses[k], false)
  {
    if poses != [] {
      var front := poses[..|poses| - 1];
      ServoCallsIndex(front);
      assert forall k :: 0 <= k < |front| ==> front[k] == poses[k];
    }
  }

  class TrajReplayer {
    const robot: XArmDriver.BestmanXarm?
    var rawClamp: Option<Matrix>
    var rawPose: Option<Matrix>
    var poseTimestamps: Option<Vector>
    var targetPose: Option<seq<Vector>>
    var targetClampWidth: Option<Vector>

    constructor (robot: XArmDriver.BestmanXarm? := null)
      ensures this.robot == robot
      ensures rawClamp.None? && rawPose.None? && poseTimestamps.None? && targetPose.None? && targetClampWidth.None?
    {
      this.robot := robot;
      rawClamp, rawPose, poseTimestamps := None, None, None;
      targetPose, targetClampWidth := None, None;
    }

    /**
     * `load_data`, given what `np.loadtxt` made of the clamp file and the
     * trajectory file (None when it raised). The assignments run in order
     * until the first failure, which is printed, not raised; what was
     * assigned before it stays.
     */
    method LoadData(clamp: Option<Matrix>, traj: Option<Matrix>)
      modifies this
      ensures targetPose == old(targetPose) && targetClampWidth == old(targetClampWidth)
      ensures rawClamp == if clamp.Some? then clamp else old(rawClamp)
      ensures clamp.None? || traj.None? ==> rawPose == old(rawPose) && poseTimestamps == old(poseTimestamps)
      ensures clamp.Some? && traj.Some? && !TwoDimensional(traj.value) ==>
                rawPose == traj && poseTimestamps == old(poseTimestamps)
      ensures clamp.Some? && traj.Some? && TwoDimensional(traj.value) ==>
                && rawPose.Some? && poseTimestamps.Some?
                && LoadTrajectory(traj, clamp) == Ok((rawPose.value, rawClamp.value, poseTimestamps.value))
    {
      if clamp.None? {
        return;
      }
      rawClamp := clamp;
      if traj.None? {
        return;
      }
      rawPose := traj;
      if !TwoDimensional(traj.value) {
        return;
      }
      poseTimestamps := Some(Column(traj.value, 0));
      rawPose := Some(DropFirstColumn(traj.value));
    }

    /**
     * `transform_traj`: empties both targets, then appends, row by row, the
     * nearest clipped width and the pose mapped into the robot frame. A
     * failure leaves the targets filled up to where it happened.
     */
    method TransformTraj(rot: Rotations, tRobotInit: Matrix) returns (r: Result<(), ReplayError>)
      requires Shapes(rot) && IsMatrix(tRobotInit, 4, 4)
      modifies this
      ensures rawClamp == old(rawClamp) && rawPose == old(rawPose) && poseTimestamps == old(poseTimestamps)
      ensures targetPose.Some? && targetClampWidth.Some?
      ensures rawClamp.None? ==> r == Err(Missing("raw_clamp"))
      ensures rawClamp.Some? && !TwoDimensional(rawClamp.value) ==> r == Err(TransformFailed(NotTwoDimensional))
      ensures rawClamp.Some? && TwoDimensional(rawClamp.value) && rawPose.None? ==> r == Err(Missing("raw_pose"))
      ensures rawClamp.Some? && TwoDimensional(rawClamp.value) && rawPose.Some? && poseTimestamps.None? ==>
                r == Err(Missing("pose_timestamps"))
      ensures r.Err? && !r.error.TransformFailed? ==> targetPose == Some([]) && targetClampWidth == Some([])
      ensures rawClamp.Some? && TwoDimensional(rawClamp.value) && rawPose.Some? && poseTimestamps.Some? ==>
                var rows, stamps := rawPose.value, poseTimestamps.value;
                var bad := FirstBadRow(rows, Min(|rows|, |stamps|));
                var clamp := rawClamp.value;
                && r == (if bad.Some? then Err(TransformFailed(BadRow(bad.value))) else Ok(()))
                && Associated(rot, rows, stamps, Column(clamp, 0), Column(clamp, |clamp[0]| - 1), tRobotInit,
                              targetPose.value, targetClampWidth.value, bad)
    {
      targetPose := Some([]);
      targetClampWidth := Some([]);
      if rawClamp.None? {
        return Err(Missing("raw_clamp"));
      }
      var clamp := rawClamp.value;
      if !TwoDimensional(clamp) {
        return Err(TransformFailed(NotTwoDimensional));
      }
      if rawPose.None? {
        return Err(Missing("raw_pose"));
      }
      if poseTimestamps.None? {
        return Err(Missing("pose_timestamps"));
      }
      r := Fill(rot, tRobotInit, clamp, rawPose.value, poseTimestamps.value);
    }

    /** The row loop of `transform_traj`, once the clamp table, the poses and their timestamps are all there. */
    method Fill(rot: Rotations, tRobotInit: Matrix, clamp: Matrix, rows: Matrix, stamps: Vector)
      returns (r: Result<(), ReplayError>)
      requires Shapes(rot) && IsMatrix(tRobotInit, 4, 4) && TwoDimensional(clamp)
      modifies this
      ensures rawClamp == old(rawClamp) && rawPose == old(rawPose) && poseTimestamps == old(poseTimestamps)
      ensures targetPose.Some? && targetClampWidth.Some?
      ensures var bad := FirstBadRow(rows, Min(|rows|, |stamps|));
        && r == (if bad.Some? then Err(TransformFailed(BadRow(bad.value))) else Ok(()))
        && Associated(rot, rows, stamps, Column(clamp, 0), Column(clamp, |clamp[0]| - 1), tRobotInit,
                      targetPose.value, targetClampWidth.value, bad)
    {
      var poses, ws, bad := AssociateRows(rot, rows, stamps, Column(clamp, 0), Column(clamp, |clamp[0]| - 1), tRobotInit);
      targetPose := Some(poses);
      targetClampWidth := Some(ws);
      r := if bad.Some? then Err(TransformFailed(BadRow(bad.value))) else Ok(());
    }

    /**
     * Why sending a point through the robot fails, if it does: no robot, a
     * robot without an SDK handle, or a handle not in servo mode 1.
     */
    function Refusal(): (e: Option<ReplayError>)
      reads robot, if robot != null then {robot.arm} else {}
      ensures e.None? <==> robot != null && robot.arm != null && robot.arm.mode == 1
      ensures robot == null ==> e == Some(NoRobot)
      ensures robot != null && robot.arm == null ==> e == Some(RobotFailed(XArmDriver.NoHandle))
      ensures robot != null && robot.arm != null && robot.arm.mode != 1 ==>
                e == Some(RobotFailed(XArmDriver.WrongMode(robot.arm.mode)))
    {
      if robot == null then Some(NoRobot)
      else if robot.arm == null then Some(RobotFailed(XArmDriver.NoHandle))
      else if robot.arm.mode != 1 then Some(RobotFailed(XArmDriver.WrongMode(robot.arm.mode)))
      else None
    }

    /** Everything `replay` reads before it samples: the loaded and transformed data and a usable step. */
    predicate Sampleable(interval: int)
      reads this
    {
      rawPose.Some? && targetPose.Some? && poseTimestamps.Some? && interval != 0 && targetClampWidth.Some?
    }

    /**
     * `replay(interval, speed_rate)`. `clock(0)` is the start time and
     * `clock(k + 1)` the time read before point k is sent; `pacing[k]` is
     * what was done about point k's schedule. Widths are sampled but never
     * sent.
     */
    method Replay(clock: nat -> real, interval: int := 1, speedRate: real := 1.0)
      returns (r: Result<(), ReplayError>, pacing: seq<Pacing>)
      requires speedRate != 0.0
      modifies if robot != null && robot.arm != null then {robot.arm} else {}
      ensures rawPose.None? ==> r == Err(NotLoaded)
      ensures rawPose.Some? && targetPose.None? ==> r == Err(NotTransformed)
      ensures rawPose.Some? && targetPose.Some? && poseTimestamps.None? ==> r == Err(Missing("pose_timestamps"))
      ensures rawPose.Some? && targetPose.Some? && poseTimestamps.Some? && interval == 0 ==> r == Err(ZeroStep)
      ensures rawPose.Some? && targetPose.Some? && poseTimestamps.Some? && interval != 0 && targetClampWidth.None? ==>
                r == Err(Missing("target_clamp_width"))
      ensures !Sampleable(interval) ==> pacing == []
      ensures robot != null && robot.arm != null ==>
                robot.arm.mode == old(robot.arm.mode) && robot.arm.state == old(robot.arm.state)
                && robot.arm.replyCode == old(robot.arm.replyCode)
      ensures Sampleable(interval) ==>
                var ts := Decimate(poseTimestamps.value, interval);
                var poses := Decimate(targetPose.value, interval);
                var ws := Decimate(targetClampWidth.value, interval);
                && (|ts| == 0 ==> r == Err(Empty("pose_timestamps")) && pacing == [])
                && (|ts| > 0 && |ws| == 0 ==> r == Err(Empty("target_clamp_width")) && pacing == [])
                && (|ts| > 0 && |ws| > 0 ==>
                      && (|poses| == 0 ==> r == Ok(()) && pacing == [])
                      && (|poses| > 0 && old(Refusal()).Some? ==> r == Err(old(Refusal()).value) && |pacing| == 1)
                      && (old(Refusal()).None? && |poses| <= |ts| ==>
                            r == Ok(()) && |pacing| == |poses|
                            && robot.arm.calls == old(robot.arm.calls) + ServoCalls(poses))
                      && (old(Refusal()).None? && |poses| > |ts| ==>
                            r == Err(TooFewTimestamps) && |pacing| == |ts|
                            && robot.arm.calls == old(robot.arm.calls) + ServoCalls(poses[..|ts|]))
                      && forall k :: 0 <= k < |pacing| ==>
                           pacing[k] == PacingFor(Schedule(ts, speedRate)[k] - (clock(k + 1) - clock(0))))
      ensures robot != null && robot.arm != null && (r.Err? || !Sampleable(interval)) && old(Refusal()).Some? ==>
                robot.arm.calls == old(robot.arm.calls)
    {
      pacing := [];
      if rawPose.None? {
        return Err(NotLoaded), pacing;
      }
      if targetPose.None? {
        return Err(NotTransformed), pacing;
      }
      if poseTimestamps.None? {
        return Err(Missing("pose_timestamps")), pacing;
      }
      if interval == 0 {
        return Err(ZeroStep), pacing;
      }
      if targetClampWidth.None? {
        return Err(Missing("target_clamp_width")), pacing;
      }
      var ts := Decimate(poseTimestamps.value, interval);
      var poses := Decimate(targetPose.value, interval);
      var ws := Decimate(targetClampWidth.value, interval);
      if |ts| == 0 {
        return Err(Empty("pose_timestamps")), pacing;
      }
      if |ws| == 0 {
        return Err(Empty("target_clamp_width")), pacing;
      }
      r, pacing := SendPoints(clock, ts, poses, speedRate);
    }

    /**
     * The loop of `replay` over sampled timestamps `ts` and poses: for each
     * point, pace against its due time, then servo to it.
     */
    method SendPoints(clock: nat -> real, ts: Vector, poses: seq<Vector>, speedRate: real)
      returns (r: Result<(), ReplayError>, pacing: seq<Pacing>)
      requires |ts| > 0 && speedRate != 0.0
      modifies if robot != null && robot.arm != null then {robot.arm} else {}
      ensures robot != null && robot.arm != null ==>
                robot.arm.mode == old(robot.arm.mode) && robot.arm.state == old(robot.arm.state)
                && robot.arm.replyCode == old(robot.arm.replyCode)
      ensures |poses| == 0 ==> r == Ok(()) && pacing == []
      ensures |poses| > 0 && old(Refusal()).Some? ==>
                r == Err(old(Refusal()).value) && |pacing| == 1
                && (robot != null && robot.arm != null ==> robot.arm.calls == old(robot.arm.calls))
      ensures old(Refusal()).None? && |poses| <= |ts| ==>
                r == Ok(()) && |pacing| == |poses| && robot.arm.calls == old(robot.arm.calls) + ServoCalls(poses)
      ensures old(Refusal()).None? && |poses| > |ts| ==>
                r == Err(TooFewTimestamps) && |pacing| == |ts|
                && robot.arm.calls == old(robot.arm.calls) + ServoCalls(poses[..|ts|])
      ensures forall k :: 0 <= k < |pacing| ==>
                pacing[k] == PacingFor(Schedule(ts, speedRate)[k] - (clock(k + 1) - clock(0)))
    {
      var due := Schedule(ts, speedRate);
      var start := clock(0);
      pacing := [];
      var i := 0;
      while i < |poses|
        invariant 0 <= i <= |poses| && i <= |ts| && |pacing| == i
        invariant forall k :: 0 <= k < i ==> pacing[k] == PacingFor(due[k] - (clock(k + 1) - start))
        invariant i > 0 ==> old(Refusal()).None?
        invariant robot != null && robot.arm != null ==>
                    && robot.arm.mode == old(robot.arm.mode) && robot.arm.state == old(robot.arm.state)
                    && robot.arm.replyCode == old(robot.arm.replyCode)
                    && robot.arm.calls == old(robot.arm.calls) + ServoCalls(poses[..i])
      {
        if i == |ts| {
          return Err(TooFewTimestamps), pacing;
        }
        pacing := pacing + [PacingFor(due[i] - (clock(i + 1) - start))];
        if robot == null {
          return Err(NoRobot), pacing;
        }
        var sent := robot.ServoToEePose(poses[i]);
        if sent.Err? {
          return Err(RobotFailed(sent.error)), pacing;
        }
        assert poses[..i + 1][..i] == poses[..i];
        i := i + 1;
      }
      assert poses[..i] == poses;
      r := Ok(());
    }
  }
}
