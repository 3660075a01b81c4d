/**
 * Camera configuration (bestman/camera/config.py): a record of defaulted
 * fields. It declares `necessary_kwargs` but has no validation hook, so
 * constructing one never fails.
 */
module CameraConfig {
  import opened Wrappers
  import opened PyValues

  datatype CameraConfig = CameraConfig(
    choiceName: string,       // the name the concrete camera class was registered under
    id: Option<string>,
    height: Option<int>,
    width: Option<int>,
    fps: Option<int>,
    sdkKwargs: Kwargs,
    dof: int)

  /** Declared, but nothing ever checks it. */
  const NecessaryKwargs: seq<string> := []

  /**
   * `CameraConfig(...)` for a class registered as `choiceName`: every field
   * takes its default unless given, and no argument is rejected.
   */
  function New(choiceName: string, id: Option<string> := None, height: Option<int> := None,
               width: Option<int> := None, fps: Option<int> := None,
               sdkKwargs: Kwargs := map[], dof: int := 6): (c: CameraConfig)
    ensures c.height == height && c.width == width && c.fps == fps
    ensures c.sdkKwargs == sdkKwargs && c.dof == dof && c.id == id
    ensures Type(c) == choiceName
  {
    CameraConfig(choiceName, id, height, width, fps, sdkKwargs, dof)
  }

  /** The `type` property: the registered choice name of the config's class. */
  function Type(c: CameraConfig): string {
    c.choiceName
  }

  /** A default camera leaves size and rate unset and accepts any SDK keys. */
  lemma DefaultCameraUnset(choiceName: string, kw: Kwargs)
    ensures var c := New(choiceName, sdkKwargs := kw);
      c.height.None? && c.width.None? && c.fps.None? && c.sdkKwargs == kw
    ensures New(choiceName).sdkKwargs == map[] && New(choiceName).dof == 6
  {
  }
}
