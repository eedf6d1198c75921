/**
 * The post-processor's immutable inputs: the user's settings and the
 * printer's build-volume limits, which the host application supplies.
 */
module Settings {
  /** `pause_type`: pause at a height or at a layer number. */
  datatype TriggerMode = Height | Layer

  /** `pause_method`: the firmware command that pauses the printer. */
  datatype PauseMethod = M25 | M0 | M600

  /**
   * Where the head parks while paused: `head_park_x`, `head_park_y`, and
   * `head_move_z`, the lift above the current height. The post-processor
   * clamps these in place when it fires, so they are carried through the
   * scan as mutable values.
   */
  datatype Park = Park(x: real, y: real, liftZ: real)

  datatype Config = Config(
    trigger: TriggerMode,
    pauseHeight: real,
    pauseLayer: int,
    pauseMethod: PauseMethod,
    park: Park,
    retraction: real,
    extrusion: real,
    prime: real,
    minParkZ: real,
    beep: bool,
    coolDown: bool,
    changeFilament: bool)

  /** `machine_width`, `machine_depth` and `machine_height` from the printer profile. */
  datatype Limits = Limits(width: real, depth: real, height: real)
}
