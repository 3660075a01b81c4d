/**
 * Which drivers the factory knows: each driver module registers itself with
 * a class decorator when it is imported (bestman_xarm.py and
 * bestman_startouch.py), and nothing else fills the registry, so a program
 * only reaches the drivers whose modules it has imported.
 */
module Registration {
  import opened Wrappers
  import opened RobotConfig
  import opened Factory
  import XArmConfig
  import StartouchConfig
  import XArmDriver
  import StartouchDriver

  /** Importing the xArm driver module: `@register_robot(XArmConfig)` on BestmanXarm. */
  method ImportXarmDriver(reg: Registry)
    requires reg.Valid()
    modifies reg
    ensures reg.Valid() && reg.entries == old(reg.entries)[XArmConfig.Class := XArmDriver.Driver]
    ensures XArmConfig.Class !in old(reg.entries) ==> reg.order == old(reg.order) + [XArmConfig.Class]
  {
    var _ := reg.Register(XArmConfig.Class, XArmDriver.Driver);
  }

  /** Importing the Startouch driver module: `@register_robot(StartouchConfig)` on BestmanStartouch. */
  method ImportStartouchDriver(reg: Registry)
    requires reg.Valid()
    modifies reg
    ensures reg.Valid() && reg.entries == old(reg.entries)[StartouchConfig.Class := StartouchDriver.Driver]
    ensures StartouchConfig.Class !in old(reg.entries) ==> reg.order == old(reg.order) + [StartouchConfig.Class]
  {
    var _ := reg.Register(StartouchConfig.Class, StartouchDriver.Driver);
  }

  /**
   * A program that imported only the xArm driver: an xArm configuration
   * yields a BestmanXarm, a Startouch configuration is refused with
   * XArmConfig as the only available class.
   */
  method OnlyXarmImported(x: RobotConfig, s: RobotConfig)
    returns (rx: Result<Robot, FactoryError>, rs: Result<Robot, FactoryError>)
    requires x.cls == XArmConfig.Class && s.cls == StartouchConfig.Class
    ensures rx == Ok(Robot(XArmDriver.Driver, x))
    ensures rs == Err(Unsupported("StartouchConfig", ["XArmConfig"]))
  {
    var reg := new Registry();
    ImportXarmDriver(reg);
    assert reg.Available() == ["XArmConfig"];
    rx := reg.MakeRobot(x);
    rs := reg.MakeRobot(s);
  }

  /**
   * With both driver modules imported (xArm first), each variant gets its
   * own driver, while any other configuration class, even one that declares
   * the same `type` (a subclass), is refused with both classes listed, since
   * the lookup is by exact class.
   */
  method BothImported(x: RobotConfig, s: RobotConfig, other: RobotConfig)
    returns (rx: Result<Robot, FactoryError>, rs: Result<Robot, FactoryError>, ro: Result<Robot, FactoryError>)
    requires x.cls == XArmConfig.Class && s.cls == StartouchConfig.Class
    requires other.cls != XArmConfig.Class && other.cls != StartouchConfig.Class && Type(other).Some?
    ensures rx == Ok(Robot(XArmDriver.Driver, x)) && rs == Ok(Robot(StartouchDriver.Driver, s))
    ensures ro == Err(Unsupported(other.cls.className, ["XArmConfig", "StartouchConfig"]))
  {
    var reg := new Registry();
    ImportXarmDriver(reg);
    ImportStartouchDriver(reg);
    assert reg.Available() == ["XArmConfig", "StartouchConfig"];
    rx := reg.MakeRobot(x);
    rs := reg.MakeRobot(s);
    ro := reg.MakeRobot(other);
  }
}
