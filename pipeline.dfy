/**
 * The generic processing pipeline (src/pipelines/Pipeline.ts): an
 * append-only list of stages, run as a left-to-right fold.
 */
module Pipelines {

  /** Runs `stages` on `input`, first stage first (`Array.prototype.reduce` seeded with the input). */
  function RunStages<T>(stages: seq<T -> T>, input: T): (r: T)
    ensures |stages| == 1 ==> r == stages[0](input)
    ensures (forall k :: 0 <= k < |stages| ==> stages[k](input) == input) ==> r == input
    decreases |stages|
  {
    if stages == [] then input else RunStages(stages[1..], stages[0](input))
  }

  /** An empty pipeline is the identity. */
  lemma RunNoStages<T>(input: T)
    ensures RunStages([], input) == input
  {
  }

  /** Running a concatenation runs the first part, then feeds its output to the second part. */
  lemma {:induction false} RunConcat<T>(first: seq<T -> T>, second: seq<T -> T>, input: T)
    ensures RunStages(first + second, input) == RunStages(second, RunStages(first, input))
    decreases |first|
  {
    if first == [] {
      assert first + second == second;
    } else {
      assert (first + second)[1..] == first[1..] + second;
      RunConcat(first[1..], second, first[0](input));
    }
  }

  /** Appending a stage composes it after the old pipeline: run(p ++ [t], x) == t(run(p, x)). */
  lemma {:induction false} RunAppend<T>(stages: seq<T -> T>, stage: T -> T, input: T)
    ensures RunStages(stages + [stage], input) == stage(RunStages(stages, input))
  {
    RunConcat(stages, [stage], input);
  }

  /** Strict left-to-right fold: the output of stage i is the input of stage i + 1. */
  lemma {:induction false} RunThrough<T>(stages: seq<T -> T>, i: nat, input: T)
    requires i < |stages|
    ensures RunStages(stages, input)
         == RunStages(stages[i + 1..], stages[i](RunStages(stages[..i], input)))
  {
    assert stages == stages[..i] + [stages[i]] + stages[i + 1..];
    RunConcat(stages[..i] + [stages[i]], stages[i + 1..], input);
    RunAppend(stages[..i], stages[i], input);
  }

  /** A pipeline object whose stage list is extended in place (`Pipeline`). */
  class Pipeline<T> {
    var stages: seq<T -> T>

    /** A fresh pipeline has no stages. */
    constructor ()
      ensures stages == []
    {
      stages := [];
    }

    /**
     * `agregarTarea`: pushes `stage` onto this pipeline's own list and returns
     * this very object, not a copy.
     */
    method AddStage(stage: T -> T) returns (self: Pipeline<T>)
      modifies this
      ensures stages == old(stages) + [stage]
      ensures self == this
    {
      stages := stages + [stage];
      self := this;
    }

    /** `ejecutar`: the fold of the current stages over `input`. */
    function Run(input: T): (r: T)
      reads this
      ensures stages == [] ==> r == input
    {
      RunStages(stages, input)
    }
  }
}
