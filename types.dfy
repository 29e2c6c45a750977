/**
 * The simulator's data model (src/types/simulador.ts): waveforms, sound
 * sources, the nearest-object signal and the simulator state.
 */
module SimTypes {
  import opened Wrappers

  /** Oscillator waveform of a source (`Timbre`). */
  datatype Timbre = Sine | Triangle | Square | Sawtooth

  /** Normalised 2D coordinates on the simulator plane; (0.5, 0.5) is the listener. */
  datatype Position = Position(x: real, y: real)

  /** A placed sound source (`FuenteSonido`). */
  datatype Source = Source(
    id: string,
    color: string,
    baseFrequency: real,
    timbre: Timbre,
    position: Position,
    normalizedDistance: real)

  /** The externally detected nearest object (`SonificacionParams`); `kind` is the optional `tipo`. */
  datatype NearbyObject = NearbyObject(distance: real, position: Position, kind: Option<string>)

  /** The simulator's global state (`EstadoSimulador`). */
  datatype SimState = SimState(
    sources: seq<Source>,
    audioStarted: bool,
    nearestObject: Option<NearbyObject>)

  /** A point in the listener's 3D audio space. */
  datatype Vec3 = Vec3(x: real, y: real, z: real)

  /** The state the controller starts from. */
  const INITIAL_STATE := SimState([], false, None)
}
