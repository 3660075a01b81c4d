/**
 * The driver registry and factory (bestman/robots/factory.py): a dictionary
 * from configuration class to driver class, filled by registration and read
 * by `make_robot_from_config`.
 */
module Factory {
  import opened Wrappers
  import opened RobotConfig

  /** A driver implementation class, by name. */
  datatype DriverClass = DriverClass(name: string)

  /** `robot_class(config)`: a freshly constructed driver that has not connected. */
  datatype Robot = Robot(driver: DriverClass, config: RobotConfig)

  datatype FactoryError =
    | NoType(className: string)                              // the config has no `type`
    | Unsupported(className: string, available: seq<string>) // no driver for the config's class

  function ClassNames(cs: seq<ConfigClass>): (names: seq<string>)
    ensures |names| == |cs|
    ensures forall i :: 0 <= i < |cs| ==> names[i] == cs[i].className
  {
    if cs == [] then [] else [cs[0].className] + ClassNames(cs[1..])
  }

  /** `_ROBOT_REGISTRY`: a dictionary, so it also remembers the order its keys were first added. */
  class Registry {
    var entries: map<ConfigClass, DriverClass>
    var order: seq<ConfigClass>

    ghost predicate Valid()
      reads this
    {
      && (forall i, j :: 0 <= i < j < |order| ==> order[i] != order[j])
      && (forall c :: c in entries <==> c in order)
    }

    constructor ()
      ensures Valid() && entries == map[] && order == []
    {
      entries := map[];
      order := [];
    }

    /**
     * `register_robot(configClass)(driver)`: maps the class to the driver,
     * silently replacing an earlier entry, and hands the driver back unchanged.
     * A replaced key keeps its place; a new key goes last.
     */
    method Register(configClass: ConfigClass, driver: DriverClass) returns (r: DriverClass)
      requires Valid()
      modifies this
      ensures Valid()
      ensures r == driver
      ensures entries == old(entries)[configClass := driver]
      ensures order == if configClass in old(entries) then old(order) else old(order) + [configClass]
    {
      if configClass !in entries {
        order := order + [configClass];
      }
      entries := entries[configClass := driver];
      r := driver;
    }

    /** The names of every registered configuration class, in registration order. */
    function Available(): (names: seq<string>)
      reads this
      ensures |names| == |order|
      ensures forall i :: 0 <= i < |order| ==> names[i] == order[i].className
    {
      ClassNames(order)
    }

    /**
     * `make_robot_from_config`: a config without `type` is refused before any
     * lookup; otherwise the lookup is by the config's exact class, and a miss
     * lists every registered class. Nothing is connected and the registry is
     * not changed.
     */
    method MakeRobot(config: RobotConfig) returns (r: Result<Robot, FactoryError>)
      requires Valid()
      ensures Type(config).None? ==> r == Err(NoType(config.cls.className))
      ensures Type(config).Some? && config.cls in entries ==> r == Ok(Robot(entries[config.cls], config))
      ensures Type(config).Some? && config.cls !in entries ==>
                r == Err(Unsupported(config.cls.className, Available()))
      ensures r.Ok? <==> Type(config).Some? && config.cls in entries
    {
      if Type(config).None? {
        return Err(NoType(config.cls.className));
      }
      if config.cls !in entries {
        return Err(Unsupported(config.cls.className, Available()));
      }
      r := Ok(Robot(entries[config.cls], config));
    }
  }

  /** Registering twice keeps only the later driver, and the key is listed once. */
  method RegisterTwice(reg: Registry, c: ConfigClass, d1: DriverClass, d2: DriverClass)
    requires reg.Valid()
    modifies reg
    ensures reg.Valid() && reg.entries == old(reg.entries)[c := d2]
    ensures c in old(reg.entries) ==> reg.order == old(reg.order)
    ensures c !in old(reg.entries) ==> reg.order == old(reg.order) + [c]
  {
    var _ := reg.Register(c, d1);
    var _ := reg.Register(c, d2);
  }
}
