/**
 * The xArm configuration variant (bestman/robots/xarm/xarm_config.py):
 * registered as "xarm", requires the SDK key "port", defaults to 6 DOF.
 */
module XArmConfig {
  import opened Wrappers
  import opened PyValues
  import opened RobotConfig

  const Class: ConfigClass := ConfigClass("XArmConfig", Some("xarm"), ["port"])

  /**
   * `XArmConfig(...)`: fills in the defaults (empty `sdk_kwargs`, dof 6, no
   * initial joints, no TCP offset, gripper flag set) and runs the inherited
   * validation.
   */
  function New(id: Option<string> := None, sdkKwargs: Kwargs := map[], dof: int := 6,
               initialJoints: Option<seq<real>> := None,
               tcpOffset: Option<seq<real>> := None): (r: Result<RobotConfig, ConfigError>)
    ensures r.Ok? <==> "port" in sdkKwargs && initialJoints.Some? && |initialJoints.value| == dof
    ensures r.Ok? ==> Type(r.value) == Some("xarm") && r.value.sdkKwargs == sdkKwargs
                      && r.value.dof == dof && r.value.initialJoints == initialJoints
                      && r.value.tcpOffset == tcpOffset && r.value.id == id
    ensures "port" !in sdkKwargs ==>
              r == Err(MissingKwargs(Some("xarm"), ["port"], ["port"], sdkKwargs.Keys))
  {
    var c := RobotConfig(Class, id, sdkKwargs, dof, initialJoints, tcpOffset, [], true);
    MissingKeysEmpty(Class.necessaryKwargs, sdkKwargs.Keys);
    ValidateErrors(c);
    assert "port" !in sdkKwargs ==> MissingKeys(Class.necessaryKwargs, sdkKwargs.Keys) == ["port"] by {
      if "port" !in sdkKwargs { OneMissingKey("port", sdkKwargs.Keys); }
    }
    Validate(c)
  }

  /** A default XArmConfig supplies no "port", so it is rejected naming that key. */
  lemma DefaultRejected()
    ensures New() == Err(MissingKwargs(Some("xarm"), ["port"], ["port"], {}))
  {
    var empty: Kwargs := map[];
    assert empty.Keys == {};
  }

  /** The 7-DOF setup of the xArm7 joint example validates. */
  lemma Xarm7ExampleAccepted()
    ensures New(Some("my_xarm"),
                map["port" := Str("192.168.1.235"), "is_radian" := Bool(false)],
                7, Some([0.0, 0.0, 0.0, 0.0, -180.0, 90.0, -180.0]),
                Some([0.0, 0.0, 0.0, 0.0, 0.0, 0.0])).Ok?
  {
  }
}
