/**
 * The robot configuration base class (bestman/robots/config.py): a record of
 * settings tagged with the variant it was registered as, validated once when
 * it is constructed.
 */
module RobotConfig {
  import opened Wrappers
  import opened PyValues
  import Strings
  import Sorting
  import Cam = CameraConfig

  /** A registered configuration class: its Python name, its choice name and its required SDK keys. */
  datatype ConfigClass = ConfigClass(className: string, choiceName: Option<string>, necessaryKwargs: seq<string>)

  datatype RobotConfig = RobotConfig(
    cls: ConfigClass,
    id: Option<string>,
    sdkKwargs: Kwargs,
    dof: int,
    initialJoints: Option<seq<real>>,
    tcpOffset: Option<seq<real>>,
    cameras: seq<(string, Cam.CameraConfig)>,   // dictionary items, in insertion order
    gripper: bool)

  /** The exceptions `__post_init__` raises. */
  datatype ConfigError =
    | MissingKwargs(typeName: Option<string>, missing: seq<string>, required: seq<string>, got: set<string>)
    | NoInitialJoints                       // `len(None)` raises TypeError
    | JointsLength(expected: int, actual: nat)
    | CameraAttrMissing(attr: string)

  /** The `type` property: the name the config's class was registered under. */
  function Type(c: RobotConfig): Option<string> {
    c.cls.choiceName
  }

  /** `list(set(xs))` without repetitions, first occurrences kept. */
  function Distinct(xs: seq<string>): (r: seq<string>)
    ensures forall k :: k in r <==> k in xs
    ensures forall i, j :: 0 <= i < j < |r| ==> r[i] != r[j]
  {
    if xs == [] then []
    else
      var t := Distinct(xs[..|xs| - 1]);
      assert forall k :: k in xs <==> k in xs[..|xs| - 1] || k == xs[|xs| - 1];
      if xs[|xs| - 1] in t then t else t + [xs[|xs| - 1]]
  }

  function Le(a: string, b: string): bool { Strings.LessEq(a, b) }

  /** `sorted(set(necessary) - set(keys))`: the missing keys, ascending, each once. */
  function MissingKeys(required: seq<string>, keys: set<string>): (r: seq<string>)
    ensures forall k :: k in r <==> k in required && k !in keys
    ensures forall i, j :: 0 <= i < j < |r| ==> Strings.Less(r[i], r[j])
  {
    var filtered := FilterOut(Distinct(required), keys);
    var r := Sorting.Sort(filtered, Le);
    Strings.LessEqTotalOrder();
    assert Sorting.TotalPreorder(Le);
    forall k ensures k in r <==> k in filtered {
      assert k in r <==> k in multiset(r);
    }
    forall i, j | 0 <= i < j < |r| ensures Strings.Less(r[i], r[j]) {
      DistinctAfterSort(filtered, r, i, j);
      Strings.LessTotal(r[i], r[j]);
    }
    r
  }

  function FilterOut(xs: seq<string>, keys: set<string>): (r: seq<string>)
    ensures forall k :: k in r <==> k in xs && k !in keys
    ensures (forall i, j :: 0 <= i < j < |xs| ==> xs[i] != xs[j]) ==>
              forall i, j :: 0 <= i < j < |r| ==> r[i] != r[j]
  {
    if xs == [] then []
    else
      var t := FilterOut(xs[1..], keys);
      assert forall k :: k in xs <==> k == xs[0] || k in xs[1..];
      if xs[0] in keys then t else [xs[0]] + t
  }

  /** Nothing is missing exactly when every required key is supplied. */
  lemma MissingKeysEmpty(required: seq<string>, keys: set<string>)
    ensures MissingKeys(required, keys) == [] <==> forall k :: k in required ==> k in keys
  {
    var m := MissingKeys(required, keys);
    if m != [] {
      assert m[0] in m;
    }
  }

  /** A single required key that is absent is reported alone. */
  lemma OneMissingKey(k: string, keys: set<string>)
    requires k !in keys
    ensures MissingKeys([k], keys) == [k]
  {
    var m := MissingKeys([k], keys);
    assert k in m;
    forall i | 0 <= i < |m| ensures m[i] == k {
      assert m[i] in m;
    }
    if |m| > 1 {
      assert Strings.Less(m[0], m[1]);
      Strings.LessIrreflexive(k);
      assert false;
    }
  }

  lemma DistinctAfterSort(xs: seq<string>, r: seq<string>, i: int, j: int)
    requires forall a, b :: 0 <= a < b < |xs| ==> xs[a] != xs[b]
    requires multiset(r) == multiset(xs)
    requires 0 <= i < j < |r|
    ensures r[i] != r[j]
  {
    DistinctMultiplicity(xs, r[i]);
    assert r == r[..j] + r[j..];
    assert multiset(r) == multiset(r[..j]) + multiset(r[j..]);
    assert r[i] in r[..j] && r[j] in r[j..];
  }

  lemma {:induction false} DistinctMultiplicity(xs: seq<string>, x: string)
    requires forall a, b :: 0 <= a < b < |xs| ==> xs[a] != xs[b]
    ensures multiset(xs)[x] <= 1
  {
    if xs != [] {
      DistinctMultiplicity(xs[1..], x);
      assert xs == [xs[0]] + xs[1..];
      if x == xs[0] {
        assert x !in xs[1..];
      }
    }
  }

  /** The first of width, height, fps (in that order) that a camera leaves unset. */
  function UnsetCameraAttr(c: Cam.CameraConfig): (r: Option<string>)
    ensures r.None? <==> c.width.Some? && c.height.Some? && c.fps.Some?
    ensures r == Some("width") <==> c.width.None?
    ensures r == Some("height") <==> c.width.Some? && c.height.None?
    ensures r == Some("fps") <==> c.width.Some? && c.height.Some? && c.fps.None?
  {
    if c.width.None? then Some("width")
    else if c.height.None? then Some("height")
    else if c.fps.None? then Some("fps")
    else None
  }

  predicate CameraComplete(c: Cam.CameraConfig) {
    c.width.Some? && c.height.Some? && c.fps.Some?
  }

  /** The cameras are visited in dictionary order; the first unset attribute is reported. */
  function CheckCameras(cams: seq<(string, Cam.CameraConfig)>): (r: Option<string>)
    ensures r.None? <==> forall i :: 0 <= i < |cams| ==> CameraComplete(cams[i].1)
    ensures r.Some? ==> exists i :: 0 <= i < |cams| && UnsetCameraAttr(cams[i].1) == r
                          && forall j :: 0 <= j < i ==> CameraComplete(cams[j].1)
  {
    if cams == [] then None
    else
      match UnsetCameraAttr(cams[0].1)
      case Some(a) => Some(a)
      case None =>
        var r := CheckCameras(cams[1..]);
        assert forall i :: 1 <= i < |cams| ==> cams[i] == cams[1..][i - 1];
        assert r.Some? ==> exists i :: 0 <= i < |cams| && UnsetCameraAttr(cams[i].1) == r
                              && forall j :: 0 <= j < i ==> CameraComplete(cams[j].1) by {
          if r.Some? {
            var i :| 0 <= i < |cams[1..]| && UnsetCameraAttr(cams[1..][i].1) == r
                      && forall j :: 0 <= j < i ==> CameraComplete(cams[1..][j].1);
            assert UnsetCameraAttr(cams[i + 1].1) == r;
          }
        }
        r
  }

  /** Everything validation demands of a configuration. */
  predicate Valid(c: RobotConfig) {
    && (forall k :: k in c.cls.necessaryKwargs ==> k in c.sdkKwargs)
    && c.initialJoints.Some?
    && |c.initialJoints.value| == c.dof
    && forall i :: 0 <= i < |c.cameras| ==> CameraComplete(c.cameras[i].1)
  }

  /**
   * `__post_init__`: required SDK keys first, then the joint count, then the
   * cameras; the gripper check accepts everything.
   */
  function Validate(c: RobotConfig): (r: Result<RobotConfig, ConfigError>)
    ensures r.Ok? <==> Valid(c)
    ensures r.Ok? ==> r.value == c
  {
    var missing := MissingKeys(c.cls.necessaryKwargs, c.sdkKwargs.Keys);
    MissingKeysEmpty(c.cls.necessaryKwargs, c.sdkKwargs.Keys);
    if missing != [] then
      Err(MissingKwargs(Type(c), missing, c.cls.necessaryKwargs, c.sdkKwargs.Keys))
    else if c.initialJoints.None? then
      Err(NoInitialJoints)
    else if |c.initialJoints.value| != c.dof then
      Err(JointsLength(c.dof, |c.initialJoints.value|))
    else
      match CheckCameras(c.cameras)
      case Some(attr) => Err(CameraAttrMissing(attr))
      case None => Ok(c)
  }

  /**
   * A missing key is reported exactly when some required key is absent, and
   * the report names the sorted missing keys, the required list and the keys
   * supplied; a wrong joint count reports both numbers.
   */
  lemma ValidateErrors(c: RobotConfig)
    ensures (exists k :: k in c.cls.necessaryKwargs && k !in c.sdkKwargs) <==>
              Validate(c).Err? && Validate(c).error.MissingKwargs?
    ensures Validate(c).Err? && Validate(c).error.MissingKwargs? ==>
              Validate(c).error == MissingKwargs(Type(c), MissingKeys(c.cls.necessaryKwargs, c.sdkKwargs.Keys),
                                                 c.cls.necessaryKwargs, c.sdkKwargs.Keys)
    ensures Validate(c).Err? && Validate(c).error.JointsLength? ==>
              c.initialJoints.Some? && Validate(c).error == JointsLength(c.dof, |c.initialJoints.value|)
              && |c.initialJoints.value| != c.dof
  {
    MissingKeysEmpty(c.cls.necessaryKwargs, c.sdkKwargs.Keys);
  }

  /** Only the required keys matter: a validated config stays valid with any extra SDK keys. */
  lemma ExtraKwargsAccepted(c: RobotConfig, extra: Kwargs)
    requires Validate(c).Ok?
    ensures Validate(c.(sdkKwargs := c.sdkKwargs + extra)).Ok?
  {
  }

  /** The key check comes first: a config failing both checks reports only the missing keys. */
  lemma KeysCheckedBeforeLength(c: RobotConfig)
    requires exists k :: k in c.cls.necessaryKwargs && k !in c.sdkKwargs
    requires c.initialJoints.None? || |c.initialJoints.value| != c.dof
    ensures Validate(c).Err? && Validate(c).error.MissingKwargs?
  {
    MissingKeysEmpty(c.cls.necessaryKwargs, c.sdkKwargs.Keys);
  }

  /** Without `initial_joints` no configuration validates. */
  lemma NoJointsNeverValid(c: RobotConfig)
    requires c.initialJoints.None?
    ensures Validate(c).Err?
    ensures (forall k :: k in c.cls.necessaryKwargs ==> k in c.sdkKwargs) ==> Validate(c) == Err(NoInitialJoints)
  {
    MissingKeysEmpty(c.cls.necessaryKwargs, c.sdkKwargs.Keys);
  }

  /** Cameras are checked attribute by attribute; the gripper flag never matters. */
  lemma CameraAndGripperChecks(c: RobotConfig, g: bool)
    requires (forall k :: k in c.cls.necessaryKwargs ==> k in c.sdkKwargs)
    requires c.initialJoints.Some? && |c.initialJoints.value| == c.dof
    ensures c.cameras == [] ==> Validate(c).Ok?
    ensures |c.cameras| > 0 && c.cameras[0].1.width.None? ==> Validate(c) == Err(CameraAttrMissing("width"))
    ensures Validate(c.(gripper := g)).Ok? == Validate(c).Ok?
  {
    MissingKeysEmpty(c.cls.necessaryKwargs, c.sdkKwargs.Keys);
  }

  /** A default camera is rejected by a robot that declares it. */
  lemma DefaultCameraRejected(c: RobotConfig, name: string, choice: string)
    requires (forall k :: k in c.cls.necessaryKwargs ==> k in c.sdkKwargs)
    requires c.initialJoints.Some? && |c.initialJoints.value| == c.dof
    ensures Validate(c.(cameras := [(name, Cam.New(choice))])) == Err(CameraAttrMissing("width"))
  {
    MissingKeysEmpty(c.cls.necessaryKwargs, c.sdkKwargs.Keys);
  }
}
