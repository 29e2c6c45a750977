/**
 * The simulation controller (src/hooks/useSimuladorAudioEspacial.ts): owns
 * the state, runs every action through the add → remove → move pipeline,
 * and keeps a list of audio device handles parallel to the source list.
 */
module Controller {
  import opened Wrappers
  import opened SimTypes
  import opened Drag
  import opened SimTasks
  import opened Mapping
  import Pipelines

  /**
   * An audio device handle (`FuenteAudioControls`), reduced to the values
   * the controller sets through it: oscillator frequency and waveform, gain,
   * 3D position and the handle's optional beep interval.
   */
  datatype AudioHandle = AudioHandle(
    id: string,
    frequency: real,
    timbre: Timbre,
    gain: real,
    position: Vec3,
    beepInterval: Option<nat>)

  /** The handle created for a new source: it plays the source's voice at gain 0.5, with no interval. */
  function NewHandle(s: Source): (h: AudioHandle)
    ensures h.id == s.id && h.frequency == s.baseFrequency && h.timbre == s.timbre
    ensures h.gain == GAIN_MAX && h.beepInterval.None?
  {
    AudioHandle(s.id, s.baseFrequency, s.timbre, GAIN_MAX, Vec3(0.0, 0.0, 0.0), None)
  }

  /** Handle list after the add-handle effect: one handle for the last source when sources outnumber handles. */
  function HandlesAfterAdd(handles: seq<AudioHandle>, sources: seq<Source>): (r: seq<AudioHandle>)
    ensures handles <= r
    ensures |sources| <= |handles| ==> r == handles
    ensures |sources| > |handles| ==> |r| == |handles| + 1 && r[|handles|].id == sources[|sources| - 1].id
  {
    if |sources| > |handles| then handles + [NewHandle(sources[|sources| - 1])] else handles
  }

  /** A handle synchronised with its source: placed in 3D, gain from the distance to the centre. */
  function SyncHandle(h: AudioHandle, s: Source, distanceOf: Position -> real): AudioHandle {
    h.(position := Placement(s.position), gain := SourceGain(distanceOf(s.position)))
  }

  /**
   * Handle list after the sync effect: same handles in the same order, each
   * still playing its own voice; each paired handle sits at its source's 3D
   * point with the quadratic-falloff gain of its source's distance, which lies
   * in [0.001, 0.5]; every handle at or beyond the source count is silent.
   */
  function SyncedHandles(handles: seq<AudioHandle>, sources: seq<Source>, distanceOf: Position -> real): (r: seq<AudioHandle>)
    ensures |r| == |handles|
    ensures forall i :: 0 <= i < |r| ==>
      r[i].(gain := handles[i].gain, position := handles[i].position) == handles[i]
    ensures forall i :: 0 <= i < |r| && i < |sources| ==>
      r[i].position == Placement(sources[i].position) && GAIN_MIN <= r[i].gain <= GAIN_MAX
    ensures forall i :: 0 <= i < |r| && i < |sources| ==> r[i].gain == SourceGain(distanceOf(sources[i].position))
    ensures forall i :: |sources| <= i < |r| ==> r[i].gain == 0.0
  {
    seq(|handles|, i requires 0 <= i < |handles| =>
      if i < |sources| then SyncHandle(handles[i], sources[i], distanceOf) else handles[i].(gain := 0.0))
  }

  /**
   * After a sync, a handle whose source is nearer the centre plays at least as
   * loud as one whose source is farther away.
   */
  lemma SyncedCloserIsLouder(handles: seq<AudioHandle>, sources: seq<Source>, distanceOf: Position -> real, i: nat, j: nat)
    requires i < |handles| && i < |sources| && j < |handles| && j < |sources|
    requires distanceOf(sources[i].position) <= distanceOf(sources[j].position)
    ensures SyncedHandles(handles, sources, distanceOf)[i].gain >= SyncedHandles(handles, sources, distanceOf)[j].gain
  {
    SourceGainMonotone(distanceOf(sources[i].position), distanceOf(sources[j].position));
  }

  /** Synchronising twice changes nothing more. */
  lemma SyncIdempotent(handles: seq<AudioHandle>, sources: seq<Source>, distanceOf: Position -> real)
    ensures SyncedHandles(SyncedHandles(handles, sources, distanceOf), sources, distanceOf)
         == SyncedHandles(handles, sources, distanceOf)
  {
  }

  /** `iniciarArrastreFuente`: the first handle with the id (`Array.find`) gets gain 0.5. */
  function HandlesAfterDragStart(handles: seq<AudioHandle>, id: string): (r: seq<AudioHandle>)
    ensures |r| == |handles|
  {
    if handles == [] then []
    else if handles[0].id == id then [handles[0].(gain := GAIN_MAX)] + handles[1..]
    else [handles[0]] + HandlesAfterDragStart(handles[1..], id)
  }

  /** Index k is the first handle carrying `id`. */
  ghost predicate FirstWithId(handles: seq<AudioHandle>, id: string, k: nat) {
    k < |handles| && handles[k].id == id && forall j :: 0 <= j < k ==> handles[j].id != id
  }

  /** Starting a drag sets gain 0.5 on the first handle with the id and leaves every other handle as it was. */
  lemma {:induction false} DragStartTouchesFirstMatch(handles: seq<AudioHandle>, id: string, k: nat)
    requires k < |handles|
    ensures HandlesAfterDragStart(handles, id)[k]
         == if FirstWithId(handles, id, k) then handles[k].(gain := GAIN_MAX) else handles[k]
    decreases |handles|
  {
    if handles[0].id != id && k > 0 {
      DragStartTouchesFirstMatch(handles[1..], id, k - 1);
      assert FirstWithId(handles, id, k) <==> FirstWithId(handles[1..], id, k - 1) by {
        if FirstWithId(handles[1..], id, k - 1) {
          forall j | 0 <= j < k ensures handles[j].id != id {
            if j > 0 { assert handles[1..][j - 1] == handles[j]; }
          }
        }
      }
    }
  }

  /** The controller (`useSimuladorAudioEspacial`). */
  class SimulatorController {
    /** The simulator state (`estado`). */
    var state: SimState
    /** Whether the audio context exists (`audioContextRef.current`). */
    var audioContextReady: bool
    /** Device handles, parallel to `state.sources` (`fuentesAudioControlsRef.current`). */
    var handles: seq<AudioHandle>
    /** Handles popped and disconnected so far, oldest first. */
    var disconnected: seq<AudioHandle>
    /** The add → remove → move pipeline, built once. */
    const pipeline: Pipelines.Pipeline<Context>
    /** 2·√((x − 0.5)² + (y − 0.5)²), the distance to the centre (computed with `Math.sqrt` in the source). */
    const distanceOf: Position -> real

    /** The pipeline holds the three tasks in order. */
    ghost predicate Wired()
      reads this, pipeline
    {
      pipeline.stages == SimulatorStages()
    }

    /**
     * Invariant: the pipeline is wired; the audio context exists exactly when
     * the state says audio started; there is one handle per source, at the
     * same index and with the same id; nothing exists before audio starts.
     */
    ghost predicate Valid()
      reads this, pipeline
    {
      && Wired()
      && audioContextReady == state.audioStarted
      && |handles| == |state.sources|
      && (forall i :: 0 <= i < |handles| ==> handles[i].id == state.sources[i].id)
      && (!state.audioStarted ==> state.sources == [])
    }

    /** Initial state: no sources, audio not started, no nearest object, no handles. */
    constructor (distanceOf: Position -> real)
      ensures Valid()
      ensures state == INITIAL_STATE && handles == [] && disconnected == []
      ensures this.distanceOf == distanceOf
    {
      var p := new Pipelines.Pipeline<Context>();
      p := p.AddStage(AddSourceTask);
      p := p.AddStage(RemoveLastSourceTask);
      p := p.AddStage(MoveSourceTask);
      pipeline := p;
      this.distanceOf := distanceOf;
      state := INITIAL_STATE;
      audioContextReady := false;
      handles := [];
      disconnected := [];
    }

    /** `iniciarAudio`: a no-op once audio has started; otherwise creates the context and sets the flag. */
    method StartAudio()
      requires Valid()
      modifies this
      ensures Valid()
      ensures old(state.audioStarted) ==> state == old(state) && audioContextReady == old(audioContextReady)
      ensures state == old(state).(audioStarted := true) && audioContextReady
      ensures handles == old(handles) && disconnected == old(disconnected)
    {
      if state.audioStarted {
        return;
      }
      audioContextReady := true;
      state := state.(audioStarted := true);
    }

    /** `despachar`: replaces the state with what the pipeline makes of it and the action. */
    method Dispatch(action: Action)
      requires Wired()
      modifies this
      ensures Wired()
      ensures state == OwnTask(action)(Context(old(state), action)).state
      ensures handles == old(handles) && disconnected == old(disconnected)
      ensures audioContextReady == old(audioContextReady)
    {
      OneTaskReacts(Context(state, action));
      state := pipeline.Run(Context(state, action)).state;
    }

    /** Add-handle effect: when sources outnumber handles, pushes one handle for the last source. */
    method AddHandleEffect()
      requires Wired()
      modifies this
      ensures Wired()
      ensures handles == if audioContextReady then HandlesAfterAdd(old(handles), state.sources) else old(handles)
      ensures state == old(state) && disconnected == old(disconnected)
      ensures audioContextReady == old(audioContextReady)
    {
      if !audioContextReady {
        return;
      }
      if |state.sources| > |handles| {
        var source := state.sources[|state.sources| - 1];
        handles := handles + [NewHandle(source)];
      }
    }

    /** Sync effect: places and sets the gain of each paired handle, then mutes the handles beyond the source count. */
    method SyncEffect()
      requires Wired()
      modifies this
      ensures Wired()
      ensures handles == if audioContextReady then SyncedHandles(old(handles), state.sources, distanceOf) else old(handles)
      ensures state == old(state) && disconnected == old(disconnected)
      ensures audioContextReady == old(audioContextReady)
    {
      if !audioContextReady {
        return;
      }
      var sources := state.sources;
      var i := 0;
      while i < |sources|
        invariant 0 <= i <= |sources|
        invariant state == old(state) && disconnected == old(disconnected)
        invariant audioContextReady == old(audioContextReady)
        invariant |handles| == |old(handles)|
        invariant forall k :: 0 <= k < |handles| ==>
          handles[k] == if k < i then SyncHandle(old(handles)[k], sources[k], distanceOf) else old(handles)[k]
      {
        if i < |handles| {
          handles := handles[i := SyncHandle(handles[i], sources[i], distanceOf)];
        }
        i := i + 1;
      }
      var j := |sources|;
      while j < |handles|
        invariant |sources| <= j
        invariant state == old(state) && disconnected == old(disconnected)
        invariant audioContextReady == old(audioContextReady)
        invariant |handles| == |old(handles)|
        invariant forall k :: 0 <= k < |handles| ==>
          handles[k] == if k < |sources| then SyncHandle(old(handles)[k], sources[k], distanceOf)
                        else if k < j then old(handles)[k].(gain := 0.0)
                        else old(handles)[k]
      {
        handles := handles[j := handles[j].(gain := 0.0)];
        j := j + 1;
      }
    }

    /** The two effects React runs, in order, after a render in which the source list changed. */
    method SourcesChanged()
      requires Wired()
      modifies this
      ensures Wired()
      ensures handles == if audioContextReady
        then SyncedHandles(HandlesAfterAdd(old(handles), state.sources), state.sources, distanceOf)
        else old(handles)
      ensures state == old(state) && disconnected == old(disconnected)
      ensures audioContextReady == old(audioContextReady)
    {
      AddHandleEffect();
      SyncEffect();
    }

    /**
     * `agregarFuente`: blocked until audio has started; otherwise appends the
     * next palette source and one handle for it, then synchronises.
     */
    method AddSource(now: nat)
      requires Valid()
      modifies this
      ensures Valid()
      ensures !old(state.audioStarted) ==> state == old(state) && handles == old(handles)
      ensures old(state.audioStarted) ==>
        && state == old(state).(sources := old(state.sources) + [NewSource(|old(state.sources)|, now)])
        && handles == SyncedHandles(old(handles) + [NewHandle(NewSource(|old(state.sources)|, now))], state.sources, distanceOf)
      ensures disconnected == old(disconnected)
    {
      if !state.audioStarted || !audioContextReady {
        return;
      }
      Dispatch(SimTasks.AddSource(now));
      SourcesChanged();
      AddKeepsParallel(old(handles), old(state.sources), NewSource(|old(state.sources)|, now), distanceOf);
    }

    /**
     * `eliminarUltimaFuente`: drops the last source, pops and disconnects the
     * last handle (its beep interval cleared), then synchronises.
     */
    method RemoveLastSource()
      requires Valid()
      modifies this
      ensures Valid()
      ensures state == old(state).(sources := if old(state.sources) == [] then [] else old(state.sources)[..|old(state.sources)| - 1])
      ensures old(handles) == [] ==> handles == [] && disconnected == old(disconnected)
      ensures old(handles) != [] ==>
        var n := |old(handles)|;
        && disconnected == old(disconnected) + [old(handles)[n - 1].(beepInterval := None)]
        && handles == SyncedHandles(old(handles)[..n - 1], state.sources, distanceOf)
    {
      Dispatch(SimTasks.RemoveLastSource);
      if handles != [] {
        var last := handles[|handles| - 1];
        handles := handles[..|handles| - 1];
        disconnected := disconnected + [last.(beepInterval := None)];
      }
      SourcesChanged();
    }

    /** `moverFuente`: moves every source with the event's id, then synchronises. */
    method MoveSource(ev: DragEvent)
      requires Valid()
      modifies this
      ensures Valid()
      ensures state == old(state).(sources := ApplyDrag(old(state.sources), ev))
      ensures handles == if state.audioStarted then SyncedHandles(old(handles), state.sources, distanceOf) else old(handles)
      ensures disconnected == old(disconnected)
    {
      Dispatch(SimTasks.MoveSource(ev));
      SourcesChanged();
      IdsPreserved(old(state.sources), ev);
    }

    /** `iniciarArrastreFuente`: gain 0.5 on the first handle with the id, nothing else. */
    method StartDrag(id: string)
      requires Valid()
      modifies this
      ensures Valid()
      ensures handles == HandlesAfterDragStart(old(handles), id)
      ensures state == old(state) && disconnected == old(disconnected)
    {
      handles := HandlesAfterDragStart(handles, id);
      forall k | 0 <= k < |handles| ensures handles[k].id == old(handles)[k].id {
        DragStartTouchesFirstMatch(old(handles), id, k);
      }
    }
  }


  /** Adding a source and its handle, then synchronising, keeps the handle list parallel to the source list. */
  lemma AddKeepsParallel(handles: seq<AudioHandle>, sources: seq<Source>, added: Source, distanceOf: Position -> real)
    requires |handles| == |sources|
    requires forall i :: 0 <= i < |handles| ==> handles[i].id == sources[i].id
    ensures HandlesAfterAdd(handles, sources + [added]) == handles + [NewHandle(added)]
    ensures var r := SyncedHandles(handles + [NewHandle(added)], sources + [added], distanceOf);
      && |r| == |sources| + 1
      && forall i :: 0 <= i < |r| ==> r[i].id == (sources + [added])[i].id
  {
    var grown := handles + [NewHandle(added)];
    var r := SyncedHandles(grown, sources + [added], distanceOf);
    forall i | 0 <= i < |r| ensures r[i].id == (sources + [added])[i].id {
      assert r[i].id == grown[i].id;
    }
  }
}
