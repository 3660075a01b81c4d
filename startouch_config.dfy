/**
 * The Startouch configuration variant
 * (bestman/robots/startouch/startouch_config.py): registered as "startouch",
 * requires the SDK key "can_interface_", whose default dictionary supplies it.
 */
module StartouchConfig {
  import opened Wrappers
  import opened PyValues
  import opened RobotConfig

  const Class: ConfigClass := ConfigClass("StartouchConfig", Some("startouch"), ["can_interface_"])

  const DefaultSdkKwargs: Kwargs := map["can_interface_" := Str("can0")]

  /**
   * `StartouchConfig(...)`: a given `sdk_kwargs` replaces the default
   * dictionary as a whole; validation is the inherited one.
   */
  function New(id: Option<string> := None, sdkKwargs: Kwargs := DefaultSdkKwargs, dof: int := 6,
               initialJoints: Option<seq<real>> := None,
               tcpOffset: Option<seq<real>> := None): (r: Result<RobotConfig, ConfigError>)
    ensures r.Ok? <==> "can_interface_" in sdkKwargs && initialJoints.Some? && |initialJoints.value| == dof
    ensures r.Ok? ==> Type(r.value) == Some("startouch") && r.value.sdkKwargs == sdkKwargs
                      && r.value.dof == dof && r.value.initialJoints == initialJoints && r.value.id == id
    ensures "can_interface_" !in sdkKwargs ==>
              r == Err(MissingKwargs(Some("startouch"), ["can_interface_"], ["can_interface_"], sdkKwargs.Keys))
  {
    var c := RobotConfig(Class, id, sdkKwargs, dof, initialJoints, tcpOffset, [], true);
    MissingKeysEmpty(Class.necessaryKwargs, sdkKwargs.Keys);
    ValidateErrors(c);
    assert "can_interface_" !in sdkKwargs ==> MissingKeys(Class.necessaryKwargs, sdkKwargs.Keys) == ["can_interface_"] by {
      if "can_interface_" !in sdkKwargs { OneMissingKey("can_interface_", sdkKwargs.Keys); }
    }
    Validate(c)
  }

  /** The default dictionary satisfies the variant's own requirement. */
  lemma DefaultKwargsAccepted(joints: seq<real>)
    requires |joints| == 6
    ensures New(initialJoints := Some(joints)).Ok?
  {
  }

  /**
   * The examples pass `{"can_port": "can0"}`, which replaces the default
   * dictionary and so fails the required-key check.
   */
  lemma CanPortExampleRejected()
    ensures New(Some("startouch"), map["can_port" := Str("can0")], 6, Some([0.0, 0.0, 0.0, 0.0, 0.0, 0.0]))
            == Err(MissingKwargs(Some("startouch"), ["can_interface_"], ["can_interface_"], {"can_port"}))
  {
    var given: Kwargs := map["can_port" := Str("can0")];
    assert given.Keys == {"can_port"};
  }
}
