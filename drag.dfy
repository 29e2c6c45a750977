/**
 * The drag processor (src/utils/ArrastreFuentesProcessor.ts): a pure map
 * that gives every source carrying the dragged id the event's position.
 */
module Drag {
  import opened SimTypes

  /** A drag of the source `sourceId` to `position` (`EventoArrastre`). */
  datatype DragEvent = DragEvent(sourceId: string, position: Position)

  /** One element of the map: the source moved if its id matches, else itself. */
  function MoveIfMatching(s: Source, ev: DragEvent): (r: Source)
    ensures r.(position := s.position) == s
    ensures s.id == ev.sourceId ==> r.position == ev.position
    ensures r == s <==> s.id != ev.sourceId || s.position == ev.position
  {
    if s.id == ev.sourceId then s.(position := ev.position) else s
  }

  /** `ProcesadorArrastreFuentes.ejecutar`: maps `MoveIfMatching` over the list, building a new list. */
  function ApplyDrag(sources: seq<Source>, ev: DragEvent): (r: seq<Source>)
    ensures |r| == |sources|
    ensures forall i :: 0 <= i < |r| ==> r[i] == MoveIfMatching(sources[i], ev)
  {
    if sources == [] then [] else [MoveIfMatching(sources[0], ev)] + ApplyDrag(sources[1..], ev)
  }

  /** The ids come out in the same order as they went in. */
  lemma IdsPreserved(sources: seq<Source>, ev: DragEvent)
    ensures |ApplyDrag(sources, ev)| == |sources|
    ensures forall i :: 0 <= i < |sources| ==> ApplyDrag(sources, ev)[i].id == sources[i].id
  {
  }

  /**
   * Element-wise effect: a source with another id is returned unchanged; a
   * source with the dragged id gets exactly the event's position (no clamping
   * to [0,1]) and keeps every other field, including its stale
   * `normalizedDistance`.
   */
  lemma MovedElement(sources: seq<Source>, ev: DragEvent, i: nat)
    requires i < |sources|
    ensures sources[i].id != ev.sourceId ==> ApplyDrag(sources, ev)[i] == sources[i]
    ensures sources[i].id == ev.sourceId ==>
      var r := ApplyDrag(sources, ev)[i];
      && r.position == ev.position
      && r.id == sources[i].id
      && r.color == sources[i].color
      && r.baseFrequency == sources[i].baseFrequency
      && r.timbre == sources[i].timbre
      && r.normalizedDistance == sources[i].normalizedDistance
  {
  }

  /** An event for an id that no source carries leaves the list as it was. */
  lemma {:induction false} UnknownIdIsNoOp(sources: seq<Source>, ev: DragEvent)
    requires forall i :: 0 <= i < |sources| ==> sources[i].id != ev.sourceId
    ensures ApplyDrag(sources, ev) == sources
  {
    if sources != [] {
      UnknownIdIsNoOp(sources[1..], ev);
    }
  }

  /** The result is unchanged exactly when no source carries the id at another position. */
  lemma NoOpIff(sources: seq<Source>, ev: DragEvent)
    ensures ApplyDrag(sources, ev) == sources
        <==> forall i :: 0 <= i < |sources| && sources[i].id == ev.sourceId ==> sources[i].position == ev.position
  {
    var r := ApplyDrag(sources, ev);
    if forall i :: 0 <= i < |sources| && sources[i].id == ev.sourceId ==> sources[i].position == ev.position {
      assert forall i :: 0 <= i < |sources| ==> r[i] == sources[i];
    }
    if r == sources {
      forall i | 0 <= i < |sources| && sources[i].id == ev.sourceId
        ensures sources[i].position == ev.position
      {
        assert r[i].position == ev.position;
      }
    }
  }

  /** Dragging twice with the same event is the same as dragging once. */
  lemma Idempotent(sources: seq<Source>, ev: DragEvent)
    ensures ApplyDrag(ApplyDrag(sources, ev), ev) == ApplyDrag(sources, ev)
  {
    var once := ApplyDrag(sources, ev);
    var twice := ApplyDrag(once, ev);
    assert forall i :: 0 <= i < |once| ==> twice[i] == once[i];
  }

  /**
   * Every source with the dragged id moves, not only the first: two sources
   * sharing an id both end up at the event's position.
   */
  lemma AllMatchesMove(a: Source, b: Source, ev: DragEvent)
    requires a.id == ev.sourceId && b.id == ev.sourceId
    ensures ApplyDrag([a, b], ev) == [a.(position := ev.position), b.(position := ev.position)]
  {
  }

  /** A position outside the unit square is stored as given. */
  lemma OutOfRangeStored(s: Source)
    ensures ApplyDrag([s], DragEvent(s.id, Position(1.5, -0.3)))[0].position == Position(1.5, -0.3)
  {
  }
}
