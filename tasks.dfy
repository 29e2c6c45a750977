/**
 * The simulator's actions and the three pipeline tasks that react to them
 * (src/pipelines/TareasSimulador.ts).
 */
module SimTasks {
  import opened SimTypes
  import opened Drag
  import Pipelines

  /**
   * A user action (`AccionSimulador`). `AddSource` carries `now`, the reading
   * of the millisecond clock (`Date.now()`) that the add task takes to name the
   * new source.
   */
  datatype Action =
    | AddSource(now: nat)
    | RemoveLastSource
    | MoveSource(event: DragEvent)

  /** What flows through the pipeline (`ContextoSimulador`). */
  datatype Context = Context(state: SimState, action: Action)

  const COLORS: seq<string> := ["#60A5FA", "#34D399", "#A78BFA", "#FBBF24", "#F472B6", "#818CF8"]
  const FREQUENCIES: seq<real> := [220.0, 261.63, 293.66, 329.63, 349.23, 392.0]
  const TIMBRES: seq<Timbre> := [Sine, Triangle, Sine, Triangle, Sine, Triangle]

  // ---- source ids: "fuente-" followed by the clock reading in decimal ----

  function DigitChar(d: nat): char
    requires d < 10
  {
    "0123456789"[d]
  }

  function DigitValue(c: char): nat {
    if '0' <= c <= '9' then (c - '0') as nat else 0
  }

  /** Decimal rendering of a natural number, as JavaScript's template literal prints it. */
  function Decimal(n: nat): (s: string)
    ensures |s| > 0
    ensures forall i :: 0 <= i < |s| ==> '0' <= s[i] <= '9'
  {
    if n < 10 then [DigitChar(n)] else Decimal(n / 10) + [DigitChar(n % 10)]
  }

  /** Reads a string of decimal digits back as a number. */
  function ParseDecimal(s: string): nat {
    if s == [] then 0 else ParseDecimal(s[..|s| - 1]) * 10 + DigitValue(s[|s| - 1])
  }

  /** The decimal rendering loses nothing: reading it back gives the number. */
  lemma {:induction false} DecimalRoundTrip(n: nat)
    ensures ParseDecimal(Decimal(n)) == n
  {
    if n >= 10 {
      var s := Decimal(n / 10) + [DigitChar(n % 10)];
      assert s[..|s| - 1] == Decimal(n / 10);
      DecimalRoundTrip(n / 10);
    }
  }

  /** The id the add task gives a source created at clock reading `now` (`fuente-${Date.now()}`). */
  function SourceId(now: nat): (id: string)
    ensures |id| > 7 && id[..7] == "fuente-"
    ensures id[7..] == Decimal(now)
  {
    "fuente-" + Decimal(now)
  }

  /** Two adds get the same id exactly when they read the same millisecond. */
  lemma SourceIdCollidesIff(a: nat, b: nat)
    ensures SourceId(a) == SourceId(b) <==> a == b
  {
    if SourceId(a) == SourceId(b) {
      assert Decimal(a) == SourceId(a)[7..];
      assert Decimal(b) == SourceId(b)[7..];
      DecimalRoundTrip(a);
      DecimalRoundTrip(b);
    }
  }

  // ---- the tasks ----

  /** The source the add task appends when the list already holds `index` sources. */
  function NewSource(index: nat, now: nat): (s: Source)
    ensures s.id == SourceId(now)
    ensures 220.0 <= s.baseFrequency <= 392.0
    ensures s.timbre == Sine || s.timbre == Triangle
    ensures s.position == Position(0.5, 0.5) && s.normalizedDistance == 0.0
  {
    assert forall k :: 0 <= k < |FREQUENCIES| ==> 220.0 <= FREQUENCIES[k] <= 392.0;
    Source(
      SourceId(now),
      COLORS[index % |COLORS|],
      FREQUENCIES[index % |FREQUENCIES|],
      TIMBRES[index % |TIMBRES|],
      Position(0.5, 0.5),
      0.0)
  }

  /** `TareaAgregarFuente`: appends a new source at the tail on `AddSource`, else passes through. */
  function AddSourceTask(ctx: Context): (r: Context)
    ensures r.action == ctx.action
    ensures r.state == ctx.state.(sources := r.state.sources)
    ensures !ctx.action.AddSource? ==> r == ctx
    ensures ctx.action.AddSource? ==>
      && |r.state.sources| == |ctx.state.sources| + 1
      && ctx.state.sources <= r.state.sources
      && r.state.sources[|ctx.state.sources|].id == SourceId(ctx.action.now)
  {
    match ctx.action
    case AddSource(now) =>
      var sources := ctx.state.sources;
      ctx.(state := ctx.state.(sources := sources + [NewSource(|sources|, now)]))
    case _ => ctx
  }

  /** `TareaEliminarUltimaFuente`: drops the last source on `RemoveLastSource` (`slice(0, -1)`). */
  function RemoveLastSourceTask(ctx: Context): (r: Context)
    ensures r.action == ctx.action
    ensures r.state == ctx.state.(sources := r.state.sources)
    ensures r.state.sources <= ctx.state.sources
    ensures !ctx.action.RemoveLastSource? || ctx.state.sources == [] ==> r == ctx
    ensures ctx.action.RemoveLastSource? && ctx.state.sources != [] ==>
      |r.state.sources| == |ctx.state.sources| - 1
  {
    if !ctx.action.RemoveLastSource? then ctx
    else
      var sources := ctx.state.sources;
      ctx.(state := ctx.state.(sources := if sources == [] then [] else sources[..|sources| - 1]))
  }

  /** `TareaMoverFuente`: on `MoveSource`, delegates to the drag processor. */
  function MoveSourceTask(ctx: Context): (r: Context)
    ensures r.action == ctx.action
    ensures r.state == ctx.state.(sources := r.state.sources)
    ensures !ctx.action.MoveSource? ==> r == ctx
    ensures |r.state.sources| == |ctx.state.sources|
    ensures forall i :: 0 <= i < |r.state.sources| ==>
      r.state.sources[i].(position := ctx.state.sources[i].position) == ctx.state.sources[i]
  {
    match ctx.action
    case MoveSource(ev) => ctx.(state := ctx.state.(sources := ApplyDrag(ctx.state.sources, ev)))
    case _ => ctx
  }

  /** The stages the controller installs, in order: add, remove, move. */
  function SimulatorStages(): seq<Context -> Context> {
    [AddSourceTask, RemoveLastSourceTask, MoveSourceTask]
  }

  /** The task that owns an action's tag. */
  function OwnTask(a: Action): Context -> Context {
    match a
    case AddSource(_) => AddSourceTask
    case RemoveLastSource => RemoveLastSourceTask
    case MoveSource(_) => MoveSourceTask
  }

  // ---- properties of the tasks ----

  /** Each task is the identity on actions whose tag is not its own. */
  lemma PassThrough(ctx: Context)
    ensures !ctx.action.AddSource? ==> AddSourceTask(ctx) == ctx
    ensures !ctx.action.RemoveLastSource? ==> RemoveLastSourceTask(ctx) == ctx
    ensures !ctx.action.MoveSource? ==> MoveSourceTask(ctx) == ctx
  {
  }

  /** Every task leaves the action, `audioStarted` and `nearestObject` alone; only `sources` may change. */
  lemma OnlySourcesChange(ctx: Context)
    ensures forall t :: t in SimulatorStages() ==>
      && t(ctx).action == ctx.action
      && t(ctx).state.audioStarted == ctx.state.audioStarted
      && t(ctx).state.nearestObject == ctx.state.nearestObject
  {
  }

  /**
   * Add: the list grows by one, the old sources keep their places, and the new
   * tail takes colour, frequency and timbre from the palettes at index n mod 6,
   * sits at (0.5, 0.5) with distance 0 and is named after the clock reading.
   */
  lemma AddAppends(sources: seq<Source>, other: SimState, now: nat)
    ensures
      var r := AddSourceTask(Context(other.(sources := sources), AddSource(now))).state.sources;
      var n := |sources|;
      && |r| == n + 1
      && r[..n] == sources
      && r[n].color == COLORS[n % 6]
      && r[n].baseFrequency == FREQUENCIES[n % 6]
      && r[n].timbre == TIMBRES[n % 6]
      && r[n].position == Position(0.5, 0.5)
      && r[n].normalizedDistance == 0.0
      && r[n].id == SourceId(now)
  {
  }

  /** New sources are only ever sine (even index) or triangle (odd index). */
  lemma AddedTimbre(index: nat, now: nat)
    ensures NewSource(index, now).timbre == (if index % 2 == 0 then Sine else Triangle)
  {
    var k := index % 6;
    assert index % 2 == k % 2;
  }

  /** Remove: a non-empty list loses exactly its last source; an empty one stays empty. */
  lemma RemoveDropsLast(sources: seq<Source>, other: SimState)
    ensures
      var r := RemoveLastSourceTask(Context(other.(sources := sources), RemoveLastSource)).state.sources;
      && (sources == [] ==> r == [])
      && (sources != [] ==> |r| == |sources| - 1 && r + [sources[|sources| - 1]] == sources)
  {
  }

  /** Removing from an empty list is stable under repetition. */
  lemma RemoveOnEmptyStable(ctx: Context)
    requires ctx.action == RemoveLastSource && ctx.state.sources == []
    ensures RemoveLastSourceTask(ctx) == ctx
    ensures RemoveLastSourceTask(RemoveLastSourceTask(ctx)) == ctx
  {
  }

  /** Move: the new source list is the drag processor applied to the event. */
  lemma MoveIsDrag(ctx: Context, ev: DragEvent)
    requires ctx.action == MoveSource(ev)
    ensures MoveSourceTask(ctx).state == ctx.state.(sources := ApplyDrag(ctx.state.sources, ev))
  {
  }

  /** Running the controller's three-stage pipeline applies exactly the task that owns the action. */
  lemma OneTaskReacts(ctx: Context)
    ensures Pipelines.RunStages(SimulatorStages(), ctx) == OwnTask(ctx.action)(ctx)
  {
    var s := SimulatorStages();
    assert s[1..][1..][1..] == [];
    var c1 := AddSourceTask(ctx);
    var c2 := RemoveLastSourceTask(c1);
    var c3 := MoveSourceTask(c2);
    assert Pipelines.RunStages(s, ctx) == c3;
  }

  /** One dispatch: the state the full pipeline produces for `a`. */
  function Step(state: SimState, a: Action): (r: SimState)
    ensures r == OwnTask(a)(Context(state, a)).state
    ensures r.audioStarted == state.audioStarted && r.nearestObject == state.nearestObject
  {
    OneTaskReacts(Context(state, a));
    Pipelines.RunStages(SimulatorStages(), Context(state, a)).state
  }

  /** The state after dispatching each action in turn. */
  function DispatchAll(state: SimState, actions: seq<Action>): (r: SimState)
    ensures r.audioStarted == state.audioStarted && r.nearestObject == state.nearestObject
    decreases |actions|
  {
    if actions == [] then state else DispatchAll(Step(state, actions[0]), actions[1..])
  }

  /** Dispatching `xs ++ ys` dispatches `xs`, then `ys` from where `xs` left off. */
  lemma {:induction false} DispatchConcat(state: SimState, xs: seq<Action>, ys: seq<Action>)
    ensures DispatchAll(state, xs + ys) == DispatchAll(DispatchAll(state, xs), ys)
    decreases |xs|
  {
    if xs == [] {
      assert xs + ys == ys;
    } else {
      assert (xs + ys)[0] == xs[0];
      assert (xs + ys)[1..] == xs[1..] + ys;
      DispatchConcat(Step(state, xs[0]), xs[1..], ys);
    }
  }

  /** The `AddSource` actions for a sequence of clock readings. */
  function Adds(stamps: seq<nat>): (r: seq<Action>)
    ensures |r| == |stamps|
    ensures forall i :: 0 <= i < |r| ==> r[i] == AddSource(stamps[i])
  {
    if stamps == [] then [] else [AddSource(stamps[0])] + Adds(stamps[1..])
  }

  /** One dispatch of `AddSource(now)` appends the source for the current length. */
  lemma StepAdd(state: SimState, now: nat)
    ensures Step(state, AddSource(now)).sources == state.sources + [NewSource(|state.sources|, now)]
  {
    OneTaskReacts(Context(state, AddSource(now)));
  }

  /** One dispatch of `RemoveLastSource` drops the tail. */
  lemma StepRemove(state: SimState)
    requires state.sources != []
    ensures Step(state, RemoveLastSource).sources == state.sources[..|state.sources| - 1]
  {
    OneTaskReacts(Context(state, RemoveLastSource));
  }

  /** The sources that `AddSource` actions stamped `stamps` create when the list already holds `n`. */
  function NewSources(n: nat, stamps: seq<nat>): (r: seq<Source>)
    ensures |r| == |stamps|
    decreases |stamps|
  {
    if stamps == [] then [] else [NewSource(n, stamps[0])] + NewSources(n + 1, stamps[1..])
  }

  /** The source created by the i-th stamp sits at offset i and is built for index n + i. */
  lemma {:induction false} NewSourcesAt(n: nat, stamps: seq<nat>, i: nat)
    requires i < |stamps|
    ensures NewSources(n, stamps)[i] == NewSource(n + i, stamps[i])
    decreases i
  {
    if i > 0 {
      NewSourcesAt(n + 1, stamps[1..], i - 1);
    }
  }

  /**
   * Adding k sources appends k sources, and the one that lands at index j
   * takes its colour, frequency and timbre from the palettes at j mod 6.
   */
  lemma {:induction false} AddsExtend(state: SimState, stamps: seq<nat>)
    ensures DispatchAll(state, Adds(stamps)).sources == state.sources + NewSources(|state.sources|, stamps)
    decreases |stamps|
  {
    if stamps == [] {
      assert Adds(stamps) == [];
    } else {
      var n := |state.sources|;
      var next := Step(state, AddSource(stamps[0]));
      StepAdd(state, stamps[0]);
      var tail := stamps[1..];
      var acts := Adds(stamps);
      assert acts[1..] == Adds(tail);
      assert DispatchAll(state, acts) == DispatchAll(next, Adds(tail));
      AddsExtend(next, tail);
      assert NewSources(n, stamps) == [NewSource(n, stamps[0])] + NewSources(n + 1, tail);
      assert state.sources + [NewSource(n, stamps[0])] + NewSources(n + 1, tail)
          == state.sources + ([NewSource(n, stamps[0])] + NewSources(n + 1, tail));
    }
  }

  /** From an empty list, k adds give k sources, the i-th built from palette entry i mod 6. */
  lemma AddsFillPalette(state: SimState, stamps: seq<nat>)
    requires state.sources == []
    ensures
      var r := DispatchAll(state, Adds(stamps)).sources;
      && |r| == |stamps|
      && forall i :: 0 <= i < |r| ==> r[i] == NewSource(i, stamps[i])
  {
    AddsExtend(state, stamps);
    var r := DispatchAll(state, Adds(stamps)).sources;
    assert r == NewSources(0, stamps);
    forall i | 0 <= i < |r|
      ensures r[i] == NewSource(i, stamps[i])
    {
      NewSourcesAt(0, stamps, i);
    }
  }

  /**
   * Scenario: three adds from an empty list give the first three palette
   * entries; one remove then leaves exactly the first two sources.
   */
  lemma ThreeAddsThenRemove(t0: nat, t1: nat, t2: nat)
    ensures
      var three := DispatchAll(INITIAL_STATE, [AddSource(t0), AddSource(t1), AddSource(t2)]).sources;
      var two := DispatchAll(INITIAL_STATE, [AddSource(t0), AddSource(t1), AddSource(t2), RemoveLastSource]).sources;
      && |three| == 3
      && [three[0].color, three[1].color, three[2].color] == ["#60A5FA", "#34D399", "#A78BFA"]
      && [three[0].baseFrequency, three[1].baseFrequency, three[2].baseFrequency] == [220.0, 261.63, 293.66]
      && [three[0].timbre, three[1].timbre, three[2].timbre] == [Sine, Triangle, Sine]
      && (forall i :: 0 <= i < 3 ==> three[i].position == Position(0.5, 0.5))
      && two == three[..2]
  {
    var stamps := [t0, t1, t2];
    assert Adds(stamps) == [AddSource(t0), AddSource(t1), AddSource(t2)];
    AddsFillPalette(INITIAL_STATE, stamps);
    var three := DispatchAll(INITIAL_STATE, Adds(stamps));
    assert Adds(stamps) + [RemoveLastSource] == [AddSource(t0), AddSource(t1), AddSource(t2), RemoveLastSource];
    DispatchConcat(INITIAL_STATE, Adds(stamps), [RemoveLastSource]);
    StepRemove(three);
    assert DispatchAll(three, [RemoveLastSource]) == Step(three, RemoveLastSource);
  }

  /**
   * Ids come from the clock, so two adds in the same millisecond produce two
   * sources with the same id, and one drag then moves both.
   */
  lemma SameMillisecondCollision(state: SimState, now: nat, p: Position)
    requires state.sources == []
    ensures
      var r := DispatchAll(state, [AddSource(now), AddSource(now)]).sources;
      && |r| == 2 && r[0].id == r[1].id
      && ApplyDrag(r, DragEvent(r[0].id, p))[0].position == p
      && ApplyDrag(r, DragEvent(r[0].id, p))[1].position == p
  {
    assert Adds([now, now]) == [AddSource(now), AddSource(now)];
    AddsFillPalette(state, [now, now]);
  }
}
