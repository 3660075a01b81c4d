/**
 * The Startouch trajectory replay script (1_startouch_replay.py): it reads a
 * TUM-style trajectory file, re-expresses the trajectory relative to the
 * gripper's current pose, and streams it to a `SingleArm` with the recorded
 * timing. `quaternion_multiply` and `quaternion_rotate_vector` are
 * `Geometry.Multiply` and `Geometry.RotateVector`.
 */
module StartouchReplay {
  import opened Wrappers
  import opened Geometry
  import opened Strings
  import StartouchSdk

  /** One sample: a time, a position [x, y, z] and an orientation. */
  datatype TrajectoryPoint = TrajectoryPoint(timestamp: real, position: Vector, quaternion: Quat)

  predicate WellFormed(traj: seq<TrajectoryPoint>)
  {
    forall k :: 0 <= k < |traj| ==> |traj[k].position| == 3
  }

  // ---------------------------------------------------------------------
  // load_trajectory

  /** `float(p)` for every field, or None once one of them raises ValueError. */
  function ParseFields(parts: seq<string>, parseReal: string -> Option<real>): (r: Option<seq<real>>)
    ensures r.Some? <==> forall k :: 0 <= k < |parts| ==> parseReal(parts[k]).Some?
    ensures r.Some? ==> |r.value| == |parts| && forall k :: 0 <= k < |parts| ==> r.value[k] == parseReal(parts[k]).value
  {
    if parts == [] then Some([])
    else
      match parseReal(parts[0])
      case None => None
      case Some(v) =>
        match ParseFields(parts[1..], parseReal)
        case None => None
        case Some(vs) => Some([v] + vs)
  }

  /**
   * One line of the file: skipped (None) when blank, when it does not split
   * into exactly eight fields, or when a field is not a number. The fields
   * are `timestamp x y z qx qy qz qw`; the quaternion is kept scalar-first.
   */
  function ParseLine(line: string, parseReal: string -> Option<real>): (r: Option<TrajectoryPoint>)
    ensures r.Some? ==> |r.value.position| == 3
  {
    var stripped := Strip(line);
    if stripped == [] then None
    else
      var parts := Split(stripped);
      if |parts| != 8 then None
      else
        match ParseFields(parts, parseReal)
        case None => None
        case Some(v) => Some(TrajectoryPoint(v[0], [v[1], v[2], v[3]], Quat(v[7], v[4], v[5], v[6])))
  }

  /** What a line yields: a point exactly when it is non-blank, has eight fields and all of them parse, with qw moved to the front. */
  lemma ParseLineFields(line: string, parseReal: string -> Option<real>)
    ensures AllSpace(line) ==> ParseLine(line, parseReal).None?
    ensures var parts := Split(Strip(line));
      ParseLine(line, parseReal).Some? <==>
        !AllSpace(line) && |parts| == 8 && forall k :: 0 <= k < 8 ==> parseReal(parts[k]).Some?
    ensures ParseLine(line, parseReal).Some? ==>
      var parts := Split(Strip(line));
      var p := ParseLine(line, parseReal).value;
      && p.timestamp == parseReal(parts[0]).value
      && p.position == [parseReal(parts[1]).value, parseReal(parts[2]).value, parseReal(parts[3]).value]
      && p.quaternion == Quat(parseReal(parts[7]).value, parseReal(parts[4]).value,
                              parseReal(parts[5]).value, parseReal(parts[6]).value)
  {
    StripEmptyIffAllSpace(line);
    var stripped := Strip(line);
    if stripped != [] {
      var parts := Split(stripped);
      if |parts| == 8 {
        var v := ParseFields(parts, parseReal);
      }
    }
  }

  /** The values `f` gives for the elements of `xs`, in order, leaving out the Nones. */
  function Somes<A, B>(xs: seq<A>, f: A -> Option<B>): (ys: seq<B>)
    ensures |ys| <= |xs|
  {
    if xs == [] then []
    else Somes(xs[..|xs| - 1], f) + (if f(xs[|xs| - 1]).Some? then [f(xs[|xs| - 1]).value] else [])
  }

  lemma {:induction false} SomesAppend<A, B>(a: seq<A>, b: seq<A>, f: A -> Option<B>)
    ensures Somes(a + b, f) == Somes(a, f) + Somes(b, f)
    decreases |b|
  {
    if b != [] {
      var b' := b[..|b| - 1];
      assert (a + b)[..|a + b| - 1] == a + b';
      assert (a + b)[|a + b| - 1] == b[|b| - 1];
      SomesAppend(a, b', f);
    } else {
      assert a + b == a;
    }
  }

  lemma {:induction false} SomesAll<A, B>(xs: seq<A>, f: A -> Option<B>, p: B -> bool)
    requires forall x :: f(x).Some? ==> p(f(x).value)
    ensures forall k :: 0 <= k < |Somes(xs, f)| ==> p(Somes(xs, f)[k])
  {
    if xs != [] {
      SomesAll(xs[..|xs| - 1], f, p);
    }
  }

  /** `ParseLine` with the number parser fixed. */
  function LineParser(parseReal: string -> Option<real>): string -> Option<TrajectoryPoint>
  {
    line => ParseLine(line, parseReal)
  }

  function HasPosition(p: TrajectoryPoint): bool
  {
    |p.position| == 3
  }

  /** The points the file's lines yield, in file order. */
  function Parsed(lines: seq<string>, parseReal: string -> Option<real>): (traj: seq<TrajectoryPoint>)
    ensures |traj| <= |lines| && WellFormed(traj)
  {
    SomesAll(lines, LineParser(parseReal), HasPosition);
    Somes(lines, LineParser(parseReal))
  }

  /** Parsing a file in two pieces gives the two results one after the other: lines are kept or dropped independently and in order. */
  lemma ParsedAppend(a: seq<string>, b: seq<string>, parseReal: string -> Option<real>)
    ensures Parsed(a + b, parseReal) == Parsed(a, parseReal) + Parsed(b, parseReal)
  {
    SomesAppend(a, b, LineParser(parseReal));
  }

  /** A single line contributes its point if it has one, and nothing otherwise. */
  lemma ParsedSingle(line: string, parseReal: string -> Option<real>)
    ensures Parsed([line], parseReal) == if ParseLine(line, parseReal).Some? then [ParseLine(line, parseReal).value] else []
  {
    assert [line][..0] == [];
  }

  /** `load_trajectory`, given the file's lines. */
  method LoadTrajectory(lines: seq<string>, parseReal: string -> Option<real>) returns (traj: seq<TrajectoryPoint>)
    ensures traj == Parsed(lines, parseReal)
  {
    ghost var f := LineParser(parseReal);
    traj := [];
    var i := 0;
    while i < |lines|
      invariant 0 <= i <= |lines|
      invariant traj == Somes(lines[..i], f)
    {
      assert lines[..i + 1][..i] == lines[..i];
      var point := ReadPoint(lines[i], parseReal);
      if point.Some? {
        traj := traj + [point.value];
      }
      i := i + 1;
    }
    assert lines[..i] == lines;
  }

  /** The body of the reading loop for one line. */
  method ReadPoint(line: string, parseReal: string -> Option<real>) returns (point: Option<TrajectoryPoint>)
    ensures point == LineParser(parseReal)(line)
  {
    point := None;
    var stripped := Strip(line);
    if stripped != [] {
      var parts := Split(stripped);
      if |parts| == 8 {
        var values := ParseFields(parts, parseReal);
        if values.Some? {
          var v := values.value;
          point := Some(TrajectoryPoint(v[0], [v[1], v[2], v[3]], Quat(v[7], v[4], v[5], v[6])));
        }
      }
    }
  }

  // ---------------------------------------------------------------------
  // align_trajectory_to_initial_pose

  /** The gripper's starting orientation, from its [roll, pitch, yaw]. */
  function InitialQuat(t: Trig, initialEuler: Vector): (q: Quat)
    requires |initialEuler| == 3
    ensures Wxyz(q) == StartouchSdk.EulerToQuaternion(t, initialEuler[0], initialEuler[1], initialEuler[2])
  {
    FromWxyz(StartouchSdk.EulerToQuaternion(t, initialEuler[0], initialEuler[1], initialEuler[2]))
  }

  /** `initial_quat ⊗ (q ⊗ conj(ref))`: the point's rotation relative to the reference, applied to the initial orientation. */
  function AlignedOrientation(q: Quat, ref: Quat, initialQuat: Quat): (a: Quat)
    ensures ref == IdentityQuat ==> a == Multiply(initialQuat, q)
  {
    var c := Conjugate(ref);
    assert ref == IdentityQuat ==> Multiply(q, c) == q;
    Multiply(initialQuat, Multiply(q, c))
  }

  /** `q / ‖q‖` when the norm exceeds 1e-6, otherwise `fallback`. */
  function Normalize(t: Trig, q: Quat, fallback: Quat): (n: Quat)
    ensures t.sqrt(NormSquared(q)) <= 0.000001 ==> n == fallback
    ensures t.sqrt(NormSquared(q)) > 0.000001 ==> exists c: real :: c > 0.0 && n == ScaleQuat(c, q)
  {
    var norm := t.sqrt(NormSquared(q));
    if norm > 0.000001 then ScaleQuat(1.0 / norm, q) else fallback
  }

  /** `sqrt` returns the non-negative square root. */
  ghost predicate SqrtLaw(t: Trig)
  {
    forall x :: x >= 0.0 ==> t.sqrt(x) >= 0.0 && t.sqrt(x) * t.sqrt(x) == x
  }

  lemma NormSquaredScale(c: real, q: Quat)
    ensures NormSquared(ScaleQuat(c, q)) == c * c * NormSquared(q)
  {
  }

  /** With a true square root, normalising yields a unit quaternion, unless the norm is tiny and the fallback is used. */
  lemma {:induction false} NormalizeUnit(t: Trig, q: Quat, fallback: Quat)
    requires SqrtLaw(t)
    ensures t.sqrt(NormSquared(q)) > 0.000001 ==> NormSquared(Normalize(t, q, fallback)) == 1.0
    ensures t.sqrt(NormSquared(q)) <= 0.000001 ==> Normalize(t, q, fallback) == fallback
  {
    var n2 := NormSquared(q);
    var norm := t.sqrt(n2);
    if norm > 0.000001 {
      var c := 1.0 / norm;
      NormSquaredScale(c, q);
      assert norm * norm == n2;
      assert c * norm == 1.0;
      calc {
        c * c * n2;
        == c * c * (norm * norm);
        == (c * norm) * (c * norm);
        == 1.0;
      }
    }
  }

  /**
   * One aligned point: its displacement from the reference point, rotated
   * by the reference's inverse, added to the initial position; its
   * orientation as `AlignedOrientation`, normalised.
   */
  function AlignPoint(t: Trig, point: TrajectoryPoint, ref: TrajectoryPoint, initialPos: Vector, initialQuat: Quat): (a: TrajectoryPoint)
    requires |point.position| == 3 && |ref.position| == 3 && |initialPos| == 3
    ensures a.timestamp == point.timestamp && |a.position| == 3
  {
    var relative := Sub(point.position, ref.position);
    var rotated := RotateVector(Conjugate(ref.quaternion), relative);
    TrajectoryPoint(point.timestamp, Add(initialPos, rotated),
                    Normalize(t, AlignedOrientation(point.quaternion, ref.quaternion, initialQuat), initialQuat))
  }

  /** The reference point itself lands exactly on the initial position. */
  lemma AlignReferenceAtInitial(t: Trig, ref: TrajectoryPoint, initialPos: Vector, initialQuat: Quat)
    requires |ref.position| == 3 && |initialPos| == 3
    ensures AlignPoint(t, ref, ref, initialPos, initialQuat).position == initialPos
  {
    assert Sub(ref.position, ref.position) == [0.0, 0.0, 0.0];
    RotateZero(Conjugate(ref.quaternion));
  }

  /** Before normalising, the reference point's orientation is the initial one scaled by |ref|², so a unit reference gives the initial orientation. */
  lemma AlignReferenceOrientation(ref: Quat, initialQuat: Quat)
    ensures AlignedOrientation(ref, ref, initialQuat) == ScaleQuat(NormSquared(ref), initialQuat)
    ensures NormSquared(ref) == 1.0 ==> AlignedOrientation(ref, ref, initialQuat) == initialQuat
  {
    MultiplyConjugate(ref);
    MultiplyReal(initialQuat, NormSquared(ref));
  }

  /** When the recording starts unrotated, aligning only translates: each point moves by the same offset. */
  lemma AlignUnrotatedReference(t: Trig, point: TrajectoryPoint, ref: TrajectoryPoint, initialPos: Vector, initialQuat: Quat)
    requires |point.position| == 3 && |ref.position| == 3 && |initialPos| == 3
    requires ref.quaternion == IdentityQuat
    ensures AlignPoint(t, point, ref, initialPos, initialQuat).position
         == Add(initialPos, Sub(point.position, ref.position))
  {
    ConjugateIdentity();
    RotateByIdentity(Sub(point.position, ref.position));
  }

  /**
   * `align_trajectory_to_initial_pose`: an empty trajectory comes back as
   * it is; otherwise every point is aligned against the first one.
   */
  method Align(t: Trig, traj: seq<TrajectoryPoint>, initialPos: Vector, initialEuler: Vector)
    returns (aligned: seq<TrajectoryPoint>)
    requires WellFormed(traj) && |initialPos| == 3 && |initialEuler| == 3
    ensures traj == [] ==> aligned == traj
    ensures |aligned| == |traj| && WellFormed(aligned)
    ensures forall k :: 0 <= k < |traj| ==>
              aligned[k] == AlignPoint(t, traj[k], traj[0], initialPos, InitialQuat(t, initialEuler))
    ensures traj != [] ==> aligned[0].position == initialPos
  {
    if |traj| == 0 {
      return traj;
    }
    var initialQuat := InitialQuat(t, initialEuler);
    var ref := traj[0];
    aligned := [];
    var i := 0;
    while i < |traj|
      invariant 0 <= i <= |traj| && |aligned| == i
      invariant forall k :: 0 <= k < i ==> aligned[k] == AlignPoint(t, traj[k], ref, initialPos, initialQuat)
    {
      var point := traj[i];
      var relative := Sub(point.position, ref.position);
      var rotated := RotateVector(Conjugate(ref.quaternion), relative);
      var q := Multiply(initialQuat, Multiply(point.quaternion, Conjugate(ref.quaternion)));
      var norm := t.sqrt(NormSquared(q));
      if norm > 0.000001 {
        q := ScaleQuat(1.0 / norm, q);
      } else {
        q := initialQuat;
      }
      aligned := aligned + [TrajectoryPoint(point.timestamp, Add(initialPos, rotated), q)];
      i := i + 1;
    }
    AlignReferenceAtInitial(t, ref, initialPos, initialQuat);
  }

  // ---------------------------------------------------------------------
  // replay_trajectory

  datatype ReplayError = ZeroSpeed   // ZeroDivisionError while computing the gaps

  /** `max(0.033, (t[k+1] − t[k]) / speed_factor)`: the wait between points k and k+1. */
  function Gap(traj: seq<TrajectoryPoint>, k: nat, speedFactor: real): (g: real)
    requires k + 1 < |traj| && speedFactor != 0.0
    ensures g >= 0.033 && g >= (traj[k + 1].timestamp - traj[k].timestamp) / speedFactor
  {
    var dt := (traj[k + 1].timestamp - traj[k].timestamp) / speedFactor;
    if 0.033 >= dt then 0.033 else dt
  }

  /** Each gap is the larger of 33 ms and the scaled recorded interval. */
  lemma GapIsMax(traj: seq<TrajectoryPoint>, k: nat, speedFactor: real)
    requires k + 1 < |traj| && speedFactor != 0.0
    ensures var dt := (traj[k + 1].timestamp - traj[k].timestamp) / speedFactor;
      var g := Gap(traj, k, speedFactor);
      g >= 0.033 && g >= dt && (g == 0.033 || g == dt)
  {
  }

  function Gaps(traj: seq<TrajectoryPoint>, speedFactor: real): (gaps: seq<real>)
    requires |traj| >= 1 && speedFactor != 0.0
    ensures |gaps| == |traj| - 1
    ensures forall k :: 0 <= k < |gaps| ==> gaps[k] == Gap(traj, k, speedFactor)
  {
    seq(|traj| - 1, k requires 0 <= k < |traj| - 1 => Gap(traj, k, speedFactor))
  }

  /** The controller call that sending `point` makes: straight through in raw mode, planned over `tf` seconds otherwise. */
  function Command(t: Trig, point: TrajectoryPoint, useRaw: bool, tf: real): (c: StartouchSdk.ControllerCall)
    ensures useRaw <==> c.SetEndEffectorPoseRaw?
    ensures (c.SetEndEffectorPoseRaw? || c.SetEndEffectorPose?) && c.pos == point.position
    ensures c.euler == StartouchSdk.QuaternionToEulerWxyz(t, Wxyz(point.quaternion)).value
    ensures !useRaw ==> c.tf == tf
  {
    var euler := StartouchSdk.QuaternionToEulerWxyz(t, Wxyz(point.quaternion)).value;
    if useRaw then StartouchSdk.ControllerCall.SetEndEffectorPoseRaw(point.position, euler)
    else StartouchSdk.ControllerCall.SetEndEffectorPose(point.position, euler, tf)
  }

  /** The move time of each point: 0.5 s to reach the start, then the gap before it. */
  function MoveTimes(traj: seq<TrajectoryPoint>, speedFactor: real): (tfs: seq<real>)
    requires |traj| >= 1 && speedFactor != 0.0
    ensures |tfs| == |traj| && tfs[0] == 0.5
    ensures forall k :: 1 <= k < |traj| ==> tfs[k] == Gap(traj, k - 1, speedFactor)
  {
    [0.5] + Gaps(traj, speedFactor)
  }

  /** The calls that sending the first `count` points makes, point k with move time `tfs[k]`. */
  function Commands(t: Trig, traj: seq<TrajectoryPoint>, useRaw: bool, tfs: seq<real>, count: nat): (cs: seq<StartouchSdk.ControllerCall>)
    requires count <= |traj| && count <= |tfs|
    ensures |cs| == count
  {
    if count == 0 then []
    else Commands(t, traj, useRaw, tfs, count - 1) + [Command(t, traj[count - 1], useRaw, tfs[count - 1])]
  }

  /** Each of the first `count` points is sent once, in order, with its own move time. */
  lemma {:induction false} CommandsIndex(t: Trig, traj: seq<TrajectoryPoint>, useRaw: bool, tfs: seq<real>, count: nat, k: nat)
    requires count <= |traj| && count <= |tfs| && k < count
    ensures Commands(t, traj, useRaw, tfs, count)[k] == Command(t, traj[k], useRaw, tfs[k])
    decreases count
  {
    if k < count - 1 {
      CommandsIndex(t, traj, useRaw, tfs, count - 1, k);
    }
  }

  function Min(a: int, b: int): (m: int)
    ensures m <= a && m <= b && (m == a || m == b)
  {
    if a <= b then a else b
  }

  /** How many points go out: all of them, unless playback is interrupted while point k ≥ 1 is due. */
  function Sent(n: nat, interrupt: Option<nat>): (count: nat)
    requires n >= 2
    ensures 1 <= count <= n
    ensures count < n <==> interrupt.Some? && 1 <= interrupt.value < n
  {
    if interrupt.Some? && 1 <= interrupt.value < n then interrupt.value else n
  }

  lemma PrefixSnoc<T>(s: seq<T>, i: nat)
    requires 0 < i <= |s|
    ensures s[..i] == s[..i - 1] + [s[i - 1]]
  {
  }

  /** The list of waits between consecutive points, built one by one. */
  method TimeDiffs(traj: seq<TrajectoryPoint>, speedFactor: real) returns (gaps: seq<real>)
    requires |traj| >= 1 && speedFactor != 0.0
    ensures gaps == Gaps(traj, speedFactor)
  {
    gaps := [];
    var i := 1;
    while i < |traj|
      invariant 1 <= i <= |traj| && |gaps| == i - 1
      invariant forall k :: 0 <= k < i - 1 ==> gaps[k] == Gap(traj, k, speedFactor)
    {
      var dt := (traj[i].timestamp - traj[i - 1].timestamp) / speedFactor;
      gaps := gaps + [if 0.033 >= dt then 0.033 else dt];
      i := i + 1;
    }
  }

  /**
   * `replay_trajectory(arm, trajectory, use_raw, speed_factor)`. `sleeps`
   * lists the `time.sleep` durations in order. `interrupt` is the index of
   * the point at which a KeyboardInterrupt or other exception arrives
   * during playback; it is caught, so the call still returns normally.
   */
  method ReplayTrajectory(arm: StartouchSdk.SingleArm, traj: seq<TrajectoryPoint>, interrupt: Option<nat>,
                          useRaw: bool := true, speedFactor: real := 1.0)
    returns (r: Result<(), ReplayError>, sleeps: seq<real>)
    modifies arm.arm
    ensures |traj| < 2 ==> r == Ok(()) && sleeps == [] && arm.arm.calls == old(arm.arm.calls)
    ensures |traj| >= 2 && speedFactor == 0.0 ==> r == Err(ZeroSpeed) && sleeps == [] && arm.arm.calls == old(arm.arm.calls)
    ensures |traj| >= 2 && speedFactor != 0.0 ==>
              var count := Sent(|traj|, interrupt);
              && r == Ok(())
              && arm.arm.calls == old(arm.arm.calls) + Commands(arm.trig, traj, useRaw, MoveTimes(traj, speedFactor), count)
              && sleeps == [1.0] + PlaybackWaits(traj, speedFactor, count)
  {
    sleeps := [];
    if |traj| < 2 {
      return Ok(()), sleeps;
    }
    if speedFactor == 0.0 {
      return Err(ZeroSpeed), sleeps;
    }
    var timeDiffs := TimeDiffs(traj, speedFactor);

    SendPoint(arm, traj[0], useRaw, 0.5);
    ghost var tfs := MoveTimes(traj, speedFactor);
    assert Commands(arm.trig, traj, useRaw, tfs, 1) == [Command(arm.trig, traj[0], useRaw, 0.5)];
    var waits := Playback(arm, traj, timeDiffs, useRaw, Sent(|traj|, interrupt), old(arm.arm.calls), tfs);
    sleeps := [1.0] + waits;
    r := Ok(());
  }

  /** One point sent through `set_end_effector_pose_quat_raw`, or `set_end_effector_pose_quat` with move time `tf`. */
  method SendPoint(arm: StartouchSdk.SingleArm, point: TrajectoryPoint, useRaw: bool, tf: real)
    modifies arm.arm
    ensures arm.arm.calls == old(arm.arm.calls) + [Command(arm.trig, point, useRaw, tf)]
  {
    if useRaw {
      var _ := arm.SetEndEffectorPoseQuatRaw(point.position, Wxyz(point.quaternion));
    } else {
      var _ := arm.SetEndEffectorPoseQuat(point.position, Wxyz(point.quaternion), tf);
    }
  }

  /**
   * The playback loop: points 1 .. count − 1 in order, each but the
   * trajectory's last point followed by a wait of `time_diffs[i − 1]`, the
   * gap before point i (see `PlaybackWaits`).
   */
  method Playback(arm: StartouchSdk.SingleArm, traj: seq<TrajectoryPoint>, timeDiffs: seq<real>, useRaw: bool,
                  count: nat, ghost before: seq<StartouchSdk.ControllerCall>, ghost tfs: seq<real>)
    returns (sleeps: seq<real>)
    requires 1 <= count <= |traj| && |traj| >= 2
    requires |timeDiffs| == |traj| - 1 && tfs == [0.5] + timeDiffs
    requires arm.arm.calls == before + Commands(arm.trig, traj, useRaw, tfs, 1)
    modifies arm.arm
    ensures arm.arm.calls == before + Commands(arm.trig, traj, useRaw, tfs, count)
    ensures sleeps == timeDiffs[..Min(count - 1, |traj| - 2)]
  {
    sleeps := [];
    var i := 1;
    while i < count
      invariant 1 <= i <= count
      invariant arm.arm.calls == before + Commands(arm.trig, traj, useRaw, tfs, i)
      invariant sleeps == timeDiffs[..Min(i - 1, |traj| - 2)]
    {
      sleeps := PlayPoint(arm, traj, timeDiffs, useRaw, i, before, tfs, sleeps);
      i := i + 1;
    }
  }

  /** One pass of the playback loop: send point `i`, then, unless it is the last point, wait the gap before it. */
  method PlayPoint(arm: StartouchSdk.SingleArm, traj: seq<TrajectoryPoint>, timeDiffs: seq<real>, useRaw: bool,
                   i: nat, ghost before: seq<StartouchSdk.ControllerCall>, ghost tfs: seq<real>, sleepsBefore: seq<real>)
    returns (sleeps: seq<real>)
    requires 1 <= i < |traj| && |tfs| == |traj|
    requires |timeDiffs| == |traj| - 1 && timeDiffs[i - 1] == tfs[i]
    requires arm.arm.calls == before + Commands(arm.trig, traj, useRaw, tfs, i)
    requires sleepsBefore == timeDiffs[..Min(i - 1, |traj| - 2)]
    modifies arm.arm
    ensures arm.arm.calls == before + Commands(arm.trig, traj, useRaw, tfs, i + 1)
    ensures sleeps == timeDiffs[..Min(i, |traj| - 2)]
  {
    // i - 1 is always a valid index here, so the 0.01 fallback is never used.
    var tf := if i - 1 < |timeDiffs| then timeDiffs[i - 1] else 0.01;
    SendPoint(arm, traj[i], useRaw, tf);
    assert Commands(arm.trig, traj, useRaw, tfs, i + 1)
        == Commands(arm.trig, traj, useRaw, tfs, i) + [Command(arm.trig, traj[i], useRaw, tf)];
    sleeps := sleepsBefore;
    if i < |timeDiffs| {
      PrefixSnoc(timeDiffs, i);
      sleeps := sleeps + [timeDiffs[i - 1]];
      assert Min(i, |traj| - 2) == i;
    } else {
      assert Min(i, |traj| - 2) == Min(i - 1, |traj| - 2);
    }
  }

  /**
   * The waits after points 1 .. count − 1 of the playback loop as written:
   * none after the trajectory's last point, and after point i the gap
   * between points i − 1 and i.
   */
  function PlaybackWaits(traj: seq<TrajectoryPoint>, speedFactor: real, count: nat): (waits: seq<real>)
    requires |traj| >= 2 && 1 <= count <= |traj| && speedFactor != 0.0
    ensures |waits| == Min(count - 1, |traj| - 2)
    ensures forall j :: 0 <= j < |waits| ==> waits[j] == Gap(traj, j, speedFactor)
  {
    Gaps(traj, speedFactor)[..Min(count - 1, |traj| - 2)]
  }

  /**
   * The waits the loop's comment describes ("wait until the next point"):
   * after point i the gap between points i and i + 1, so each wait lasts at
   * least until point i + 1 is due.
   */
  function IntendedWaits(traj: seq<TrajectoryPoint>, speedFactor: real, count: nat): (waits: seq<real>)
    requires |traj| >= 2 && 1 <= count <= |traj| && speedFactor != 0.0
    ensures |waits| == Min(count - 1, |traj| - 2)
    ensures forall j :: 0 <= j < |waits| ==> waits[j] >= (traj[j + 2].timestamp - traj[j + 1].timestamp) / speedFactor
  {
    Gaps(traj, speedFactor)[1..Min(count, |traj| - 1)]
  }

  /**
   * As written, the wait after point 1 of a recording stamped 0, 1 and 3
   * seconds is 1 s, although point 2 was recorded 2 s after point 1.
   */
  lemma PlaybackWaitsLag()
    ensures var traj := [TrajectoryPoint(0.0, [], IdentityQuat), TrajectoryPoint(1.0, [], IdentityQuat),
                         TrajectoryPoint(3.0, [], IdentityQuat)];
            PlaybackWaits(traj, 1.0, 3) == [1.0] && traj[2].timestamp - traj[1].timestamp == 2.0
  {
    var traj := [TrajectoryPoint(0.0, [], IdentityQuat), TrajectoryPoint(1.0, [], IdentityQuat),
                 TrajectoryPoint(3.0, [], IdentityQuat)];
    assert Gap(traj, 0, 1.0) == 1.0;
  }
}
