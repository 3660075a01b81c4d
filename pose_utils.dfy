/**
 * Pose utilities (bestman/utils/utils.py): homogeneous transforms built in
 * place from a quaternion or Euler pose, the sensor-to-robot frame mapping,
 * trajectory loading, and the association of each pose with the gripper
 * width recorded nearest in time.
 */
module PoseUtils {
  import opened Wrappers
  import opened Geometry

  /** The entries of a 2-D array equal those of `m`. */
  ghost predicate Holds(t: array2<real>, m: Matrix)
    reads t
  {
    IsMatrix(m, t.Length0, t.Length1)
    && forall i, j :: 0 <= i < t.Length0 && 0 <= j < t.Length1 ==> t[i, j] == m[i][j]
  }

  /** `np.eye(4)` */
  method Eye4() returns (t: array2<real>)
    ensures fresh(t) && t.Length0 == 4 && t.Length1 == 4 && Holds(t, Identity(4))
  {
    t := new real[4, 4]((i, j) => if i == j then 1.0 else 0.0);
  }

  /** `T[:3, :3] = r; T[:3, 3] = p` on an identity matrix. */
  method FillHomogeneous(t: array2<real>, r: Matrix, p: Vector)
    requires Holds(t, Identity(4)) && t.Length0 == 4 && t.Length1 == 4
    requires IsMatrix(r, 3, 3) && |p| == 3
    modifies t
    ensures Holds(t, Homogeneous(r, p))
  {
    for i := 0 to 3
      invariant forall a, b :: 0 <= a < 4 && 0 <= b < 4 ==>
                  t[a, b] == if a < i && b < 3 then r[a][b] else if a == b then 1.0 else 0.0
    {
      for j := 0 to 3
        invariant forall a, b :: 0 <= a < 4 && 0 <= b < 4 ==>
                    t[a, b] == if (a < i && b < 3) || (a == i && b < j) then r[a][b] else if a == b then 1.0 else 0.0
      {
        t[i, j] := r[i][j];
      }
    }
    for i := 0 to 3
      invariant forall a, b :: 0 <= a < 4 && 0 <= b < 4 ==>
                  t[a, b] == if a < 3 && b < 3 then r[a][b]
                             else if a < i && b == 3 then p[a]
                             else if a == b then 1.0 else 0.0
    {
      t[i, 3] := p[i];
    }
  }

  /** `quat2T`: rotation from the scalar-last quaternion `qpose[3:7]`, translation `qpose[:3]`. */
  method Quat2T(rot: Rotations, qpose: Vector) returns (t: array2<real>)
    requires Shapes(rot) && |qpose| >= 7
    ensures fresh(t) && Holds(t, Homogeneous(rot.fromQuat(qpose[3..7]), qpose[..3]))
  {
    t := Eye4();
    FillHomogeneous(t, rot.fromQuat(qpose[3..7]), qpose[..3]);
  }

  /** `rpy2T`: rotation from the 'xyz' Euler angles `pose[3:]`, translation `pose[:3]`. */
  method Rpy2T(rot: Rotations, pose: Vector) returns (t: array2<real>)
    requires Shapes(rot) && |pose| == 6
    ensures fresh(t) && Holds(t, Homogeneous(rot.fromEuler(pose[3..]), pose[..3]))
  {
    t := Eye4();
    FillHomogeneous(t, rot.fromEuler(pose[3..]), pose[..3]);
  }

  /** `qpos2mat`: the same construction, from exactly seven values [x, y, z, qx, qy, qz, qw]. */
  method Qpos2Mat(rot: Rotations, qpos: Vector) returns (t: array2<real>)
    requires Shapes(rot) && |qpos| == 7
    ensures fresh(t) && Holds(t, Homogeneous(rot.fromQuat(qpos[3..]), qpos[..3]))
  {
    t := Eye4();
    FillHomogeneous(t, rot.fromQuat(qpos[3..]), qpos[..3]);
  }

  /** `mat2qpos`: the translation column followed by the scalar-last quaternion of the rotation block. */
  function Mat2Qpos(rot: Rotations, m: Matrix): (qpos: Vector)
    requires Shapes(rot) && IsMatrix(m, 4, 4)
    ensures |qpos| == 7 && qpos[..3] == Translation(m) && qpos[3..] == rot.asQuat(RotationBlock(m))
  {
    Translation(m) + rot.asQuat(RotationBlock(m))
  }

  /**
   * `mat2qpos` after `qpos2mat` gives the translation back unchanged, and the
   * whole pose back whenever scipy's quaternion round trip returns the same
   * quaternion (a unit quaternion with non-negative scalar part, say).
   */
  lemma QposRoundTrip(rot: Rotations, qpos: Vector)
    requires Shapes(rot) && |qpos| == 7
    ensures Mat2Qpos(rot, Homogeneous(rot.fromQuat(qpos[3..]), qpos[..3]))[..3] == qpos[..3]
    ensures rot.asQuat(rot.fromQuat(qpos[3..])) == qpos[3..] ==>
              Mat2Qpos(rot, Homogeneous(rot.fromQuat(qpos[3..]), qpos[..3])) == qpos
  {
    HomogeneousParts(rot.fromQuat(qpos[3..]), qpos[..3]);
    assert qpos == qpos[..3] + qpos[3..];
  }

  /**
   * `map_sensor_to_robot`: the sensor pose as a transform, composed after
   * `T_robot_init`; the result is the position followed by 'xyz' Euler angles.
   */
  function MapSensorToRobot(rot: Rotations, x: real, y: real, z: real, qx: real, qy: real, qz: real, qw: real,
                            tRobotInit: Matrix, degrees: bool := false): (pose: Vector)
    requires Shapes(rot) && IsMatrix(tRobotInit, 4, 4)
    ensures |pose| == 6
  {
    var tFinal := MatMul(tRobotInit, Homogeneous(rot.fromQuat([qx, qy, qz, qw]), [x, y, z]), 4, 4);
    Translation(tFinal) + rot.asEuler(RotationBlock(tFinal), degrees)
  }

  /**
   * The mapped position is the initial rotation applied to the sensor
   * position plus the initial translation; the mapped rotation is the
   * initial rotation times the sensor's.
   */
  lemma MapSensorToRobotPose(rot: Rotations, x: real, y: real, z: real, qx: real, qy: real, qz: real, qw: real,
                             tRobotInit: Matrix, degrees: bool)
    requires Shapes(rot) && IsMatrix(tRobotInit, 4, 4)
    ensures var pose := MapSensorToRobot(rot, x, y, z, qx, qy, qz, qw, tRobotInit, degrees);
      && pose[..3] == Add(MatVec(RotationBlock(tRobotInit), [x, y, z]), Translation(tRobotInit))
      && pose[3..] == rot.asEuler(MatMul(RotationBlock(tRobotInit), rot.fromQuat([qx, qy, qz, qw]), 3, 3), degrees)
  {
    ComposeHomogeneous(tRobotInit, rot.fromQuat([qx, qy, qz, qw]), [x, y, z]);
  }

  /**
   * `transform_to_base_quat` (the later of its two identical definitions,
   * which is the one in effect): the local position is added to the base
   * translation without being rotated, and the rotation is local times base.
   */
  function TransformToBaseQuat(rot: Rotations, x: real, y: real, z: real, qx: real, qy: real, qz: real, qw: real,
                               tBaseToLocal: Matrix, degrees: bool := false): (pose: Vector)
    requires Shapes(rot) && IsMatrix(tBaseToLocal, 4, 4)
    ensures |pose| == 6
    ensures pose[..3] == Add(Translation(tBaseToLocal), [x, y, z])
    ensures pose[3..] == rot.asEuler(MatMul(rot.fromQuat([qx, qy, qz, qw]), RotationBlock(tBaseToLocal), 3, 3), degrees)
  {
    var tLocal := Homogeneous(rot.fromQuat([qx, qy, qz, qw]), [x, y, z]);
    HomogeneousParts(rot.fromQuat([qx, qy, qz, qw]), [x, y, z]);
    var rBase := MatMul(RotationBlock(tLocal), RotationBlock(tBaseToLocal), 3, 3);
    Add(Translation(tBaseToLocal), Translation(tLocal)) + rot.asEuler(rBase, degrees)
  }

  /**
   * The two frame mappings differ only in the order they apply the base
   * rotation: when it is the identity they give the same pose.
   */
  lemma {:induction false} MappingsAgreeWithoutRotation(rot: Rotations, x: real, y: real, z: real,
                                                        qx: real, qy: real, qz: real, qw: real, t: Matrix, degrees: bool)
    requires Shapes(rot) && IsMatrix(t, 4, 4) && RotationBlock(t) == Identity(3)
    ensures MapSensorToRobot(rot, x, y, z, qx, qy, qz, qw, t, degrees)
         == TransformToBaseQuat(rot, x, y, z, qx, qy, qz, qw, t, degrees)
  {
    MapSensorToRobotPose(rot, x, y, z, qx, qy, qz, qw, t, degrees);
    MatVecIdentity([x, y, z]);
    MatMulIdentity(rot.fromQuat([qx, qy, qz, qw]));
    var a := MapSensorToRobot(rot, x, y, z, qx, qy, qz, qw, t, degrees);
    var b := TransformToBaseQuat(rot, x, y, z, qx, qy, qz, qw, t, degrees);
    assert a[..3] == b[..3] by {
      forall i | 0 <= i < 3 ensures a[..3][i] == b[..3][i] { }
    }
    assert a == a[..3] + a[3..] && b == b[..3] + b[3..];
  }

  /** A table `np.loadtxt` returns two-dimensional: at least two rows of the same length, at least two columns. */
  predicate TwoDimensional(m: Matrix)
  {
    |m| >= 2 && |m[0]| >= 2 && forall i :: 0 <= i < |m| ==> |m[i]| == |m[0]|
  }

  /** `m[:, 1:]` */
  function DropFirstColumn(m: Matrix): (r: Matrix)
    requires TwoDimensional(m)
    ensures |r| == |m| && forall i :: 0 <= i < |m| ==> r[i] == m[i][1..]
  {
    seq(|m|, i requires 0 <= i < |m| => m[i][1..])
  }

  datatype LoadError =
    | Unbound(name: string)   // UnboundLocalError on return, after the load error was printed

  /**
   * `load_trajectory`: `clamp` and `traj` are what `np.loadtxt` made of the
   * two files (None when it raised). Column 0 of the trajectory holds the
   * timestamps and the rest the poses. Any failure is printed and then the
   * return statement reads a name that was never bound.
   */
  function LoadTrajectory(traj: Option<Matrix>, clamp: Option<Matrix>): (r: Result<(Matrix, Matrix, Vector), LoadError>)
    ensures r.Ok? <==> clamp.Some? && traj.Some? && TwoDimensional(traj.value)
    ensures r.Ok? ==>
              var (poses, widths, stamps) := r.value;
              && widths == clamp.value && |poses| == |stamps| == |traj.value|
              && forall i :: 0 <= i < |traj.value| ==> traj.value[i] == [stamps[i]] + poses[i]
    ensures (clamp.None? || traj.None?) ==> r == Err(Unbound("raw_pose"))
  {
    if clamp.None? || traj.None? then Err(Unbound("raw_pose"))
    else if !TwoDimensional(traj.value) then Err(Unbound("pose_timestamps"))
    else
      var stamps := Column(traj.value, 0);
      var poses := DropFirstColumn(traj.value);
      assert forall i :: 0 <= i < |traj.value| ==> traj.value[i] == [stamps[i]] + poses[i];
      Ok((poses, clamp.value, stamps))
  }

  /**
   * `np.abs(stamps - t).argmin()`: an index closest to `t`, the first one
   * when several are equally close.
   */
  function NearestIndex(stamps: Vector, t: real): (i: nat)
    requires |stamps| > 0
    ensures i < |stamps|
    ensures forall k :: 0 <= k < |stamps| ==> Abs(stamps[i] - t) <= Abs(stamps[k] - t)
    ensures forall k :: 0 <= k < i ==> Abs(stamps[k] - t) > Abs(stamps[i] - t)
  {
    if |stamps| == 1 then 0
    else
      var j := NearestIndex(stamps[..|stamps| - 1], t);
      assert forall k :: 0 <= k < |stamps| - 1 ==> stamps[..|stamps| - 1][k] == stamps[k];
      if Abs(stamps[|stamps| - 1] - t) < Abs(stamps[j] - t) then |stamps| - 1 else j
  }

  /** `np.clip(v, lo, hi)` */
  function Clip(v: real, lo: real, hi: real): (c: real)
    requires lo <= hi
    ensures lo <= c <= hi
    ensures lo <= v <= hi ==> c == v
    ensures v < lo ==> c == lo
    ensures v > hi ==> c == hi
  {
    if v < lo then lo else if v > hi then hi else v
  }

  /** The widest gripper opening a recorded width is clipped to. */
  const MaxWidth: real := 88.0

  /** The width sent with a pose recorded at `t`: the nearest recorded width, clipped into [0, 88]. */
  function WidthAt(clampStamps: Vector, widths: Vector, t: real): (w: real)
    requires |clampStamps| > 0 && |widths| == |clampStamps|
    ensures 0.0 <= w <= MaxWidth
    ensures w == Clip(widths[NearestIndex(clampStamps, t)], 0.0, MaxWidth)
  {
    Clip(widths[NearestIndex(clampStamps, t)], 0.0, MaxWidth)
  }

  /** `WidthAt` for each of the timestamps, in order. */
  function WidthsAt(clampStamps: Vector, widths: Vector, stamps: Vector): (ws: Vector)
    requires |clampStamps| > 0 && |widths| == |clampStamps|
    ensures |ws| == |stamps|
  {
    if stamps == [] then []
    else WidthsAt(clampStamps, widths, stamps[..|stamps| - 1]) + [WidthAt(clampStamps, widths, stamps[|stamps| - 1])]
  }

  lemma {:induction false} WidthsAtIndex(clampStamps: Vector, widths: Vector, stamps: Vector)
    requires |clampStamps| > 0 && |widths| == |clampStamps|
    ensures forall k :: 0 <= k < |stamps| ==> WidthsAt(clampStamps, widths, stamps)[k] == WidthAt(clampStamps, widths, stamps[k])
  {
    if stamps != [] {
      var front := stamps[..|stamps| - 1];
      WidthsAtIndex(clampStamps, widths, front);
      assert forall k :: 0 <= k < |front| ==> front[k] == stamps[k];
    }
  }

  lemma WidthsAtSnoc(clampStamps: Vector, widths: Vector, stamps: Vector, i: nat)
    requires |clampStamps| > 0 && |widths| == |clampStamps| && i < |stamps|
    ensures WidthsAt(clampStamps, widths, stamps[..i + 1])
         == WidthsAt(clampStamps, widths, stamps[..i]) + [WidthAt(clampStamps, widths, stamps[i])]
  {
    assert stamps[..i + 1][..i] == stamps[..i];
  }

  /** `map_sensor_to_robot(*p, T_robot_init=...)`: a row of exactly seven values [x, y, z, qx, qy, qz, qw]. */
  function MapRow(rot: Rotations, p: Vector, tRobotInit: Matrix): (pose: Vector)
    requires Shapes(rot) && IsMatrix(tRobotInit, 4, 4) && |p| == 7
    ensures |pose| == 6
  {
    MapSensorToRobot(rot, p[0], p[1], p[2], p[3], p[4], p[5], p[6], tRobotInit)
  }

  /** `MapRow` applied to each of the rows, in order. */
  function MapRows(rot: Rotations, rows: Matrix, tRobotInit: Matrix): (poses: seq<Vector>)
    requires Shapes(rot) && IsMatrix(tRobotInit, 4, 4) && forall k :: 0 <= k < |rows| ==> |rows[k]| == 7
    ensures |poses| == |rows|
  {
    if rows == [] then []
    else MapRows(rot, rows[..|rows| - 1], tRobotInit) + [MapRow(rot, rows[|rows| - 1], tRobotInit)]
  }

  lemma {:induction false} MapRowsIndex(rot: Rotations, rows: Matrix, tRobotInit: Matrix)
    requires Shapes(rot) && IsMatrix(tRobotInit, 4, 4) && forall k :: 0 <= k < |rows| ==> |rows[k]| == 7
    ensures forall k :: 0 <= k < |rows| ==> MapRows(rot, rows, tRobotInit)[k] == MapRow(rot, rows[k], tRobotInit)
  {
    if rows != [] {
      var front := rows[..|rows| - 1];
      MapRowsIndex(rot, front, tRobotInit);
      assert forall k :: 0 <= k < |front| ==> front[k] == rows[k];
    }
  }

  lemma MapRowsSnoc(rot: Rotations, rows: Matrix, i: nat, tRobotInit: Matrix)
    requires Shapes(rot) && IsMatrix(tRobotInit, 4, 4) && i < |rows| && forall k :: 0 <= k <= i ==> |rows[k]| == 7
    ensures MapRows(rot, rows[..i + 1], tRobotInit) == MapRows(rot, rows[..i], tRobotInit) + [MapRow(rot, rows[i], tRobotInit)]
  {
    assert rows[..i + 1][..i] == rows[..i];
  }

  function Min(a: nat, b: nat): (m: nat)
    ensures m <= a && m <= b && (m == a || m == b)
  {
    if a <= b then a else b
  }

  /** The index of the first of the first `n` rows that is not seven values long, if any. */
  function FirstBadRow(rows: Matrix, n: nat): (bad: Option<nat>)
    requires n <= |rows|
    ensures bad.Some? ==> bad.value < n && |rows[bad.value]| != 7
    ensures forall k :: 0 <= k < n && (bad.None? || k < bad.value) ==> |rows[k]| == 7
  {
    if n == 0 then None
    else
      var earlier := FirstBadRow(rows, n - 1);
      if earlier.Some? then earlier
      else if |rows[n - 1]| != 7 then Some(n - 1)
      else None
  }

  /**
   * The loop of `transform_traj`, over `zip(raw_pose, pose_timestamps)`:
   * each row's width is appended, then its mapped pose. A row that is not
   * seven values long stops the loop with TypeError (`bad`), after its width
   * was appended but before its pose.
   */
  method AssociateRows(rot: Rotations, rawPose: Matrix, poseStamps: Vector,
                       clampStamps: Vector, widths: Vector, tRobotInit: Matrix)
    returns (poses: seq<Vector>, ws: Vector, bad: Option<nat>)
    requires Shapes(rot) && IsMatrix(tRobotInit, 4, 4)
    requires |clampStamps| > 0 && |widths| == |clampStamps|
    ensures Associated(rot, rawPose, poseStamps, clampStamps, widths, tRobotInit, poses, ws, bad)
  {
    var n := Min(|rawPose|, |poseStamps|);
    poses, ws := [], [];
    var i := 0;
    while i < n && |rawPose[i]| == 7
      invariant 0 <= i <= n
      invariant |poses| == i && |ws| == i
      invariant ws == WidthsAt(clampStamps, widths, poseStamps[..i])
      invariant forall k :: 0 <= k < i ==> |rawPose[k]| == 7
      invariant poses == MapRows(rot, rawPose[..i], tRobotInit)
    {
      WidthsAtSnoc(clampStamps, widths, poseStamps, i);
      MapRowsSnoc(rot, rawPose, i, tRobotInit);
      ws := ws + [WidthAt(clampStamps, widths, poseStamps[i])];
      poses := poses + [MapRow(rot, rawPose[i], tRobotInit)];
      i := i + 1;
    }
    if i < n {
      WidthsAtSnoc(clampStamps, widths, poseStamps, i);
      ws := ws + [WidthAt(clampStamps, widths, poseStamps[i])];
      FirstBadRowFound(rawPose, i, n);
      bad := Some(i);
    } else {
      bad := None;
    }
  }

  /**
   * What the loop of `transform_traj` leaves: `bad` is the first row among
   * the paired ones that is not seven values long, if any; before it, one
   * mapped pose per row, and one nearest-clamp width per row including the
   * bad one.
   */
  ghost predicate Associated(rot: Rotations, rows: Matrix, stamps: Vector, clampStamps: Vector, widths: Vector,
                             tRobotInit: Matrix, poses: seq<Vector>, ws: Vector, bad: Option<nat>)
    requires Shapes(rot) && IsMatrix(tRobotInit, 4, 4) && |clampStamps| > 0 && |widths| == |clampStamps|
  {
    var n := Min(|rows|, |stamps|);
    && bad == FirstBadRow(rows, n)
    && |poses| == (if bad.Some? then bad.value else n)
    && |ws| == (if bad.Some? then bad.value + 1 else |poses|)
    && |ws| <= |stamps| && ws == WidthsAt(clampStamps, widths, stamps[..|ws|])
    && |poses| <= |rows| && (forall k :: 0 <= k < |poses| ==> |rows[k]| == 7)
    && poses == MapRows(rot, rows[..|poses|], tRobotInit)
  }

  /** The first bad row among the first `i + 1` stays the first bad row among any longer prefix. */
  lemma {:induction false} FirstBadRowFound(rows: Matrix, i: nat, n: nat)
    requires i < n <= |rows| && FirstBadRow(rows, i) == None && |rows[i]| != 7
    ensures FirstBadRow(rows, n) == Some(i)
    decreases n
  {
    if n > i + 1 {
      FirstBadRowFound(rows, i, n - 1);
    }
  }

  datatype TransformError =
    | NotTwoDimensional   // `raw_clamp[:, 0]` on a table numpy squeezed to one dimension
    | BadRow(index: nat)  // TypeError from `map_sensor_to_robot(*p, ...)` on a row not seven values long

  /**
   * `transform_traj`: one target pose and one clipped width per trajectory
   * row, in order, the width taken from the clamp row recorded nearest in time
   * (column 0 is its time, the last column its width).
   */
  method TransformTraj(rot: Rotations, rawPose: Matrix, rawClamp: Matrix, poseStamps: Vector, tRobotInit: Matrix)
    returns (r: Result<(seq<Vector>, Vector), TransformError>)
    requires Shapes(rot) && IsMatrix(tRobotInit, 4, 4)
    ensures !TwoDimensional(rawClamp) ==> r == Err(NotTwoDimensional)
    ensures TwoDimensional(rawClamp) ==>
              var n := Min(|rawPose|, |poseStamps|);
              match FirstBadRow(rawPose, n)
              case Some(k) => r == Err(BadRow(k))
              case None =>
                && r.Ok? && |r.value.0| == |r.value.1| == n
                && r.value.0 == MapRows(rot, rawPose[..n], tRobotInit)
                && r.value.1 == WidthsAt(Column(rawClamp, 0), Column(rawClamp, |rawClamp[0]| - 1), poseStamps[..n])
  {
    if !TwoDimensional(rawClamp) {
      return Err(NotTwoDimensional);
    }
    var clampStamps := Column(rawClamp, 0);
    var widths := Column(rawClamp, |rawClamp[0]| - 1);
    var poses, ws, bad := AssociateRows(rot, rawPose, poseStamps, clampStamps, widths, tRobotInit);
    if bad.Some? {
      return Err(BadRow(bad.value));
    }
    r := Ok((poses, ws));
  }
}
