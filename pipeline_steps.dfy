/**
 * The older revision of the flattening helper. It has no nil check: asking
 * for the kind of a nil argument's type makes Go panic, so a nil argument is
 * something its callers must never pass. Under that condition it produces
 * exactly what the nil-skipping revision produces.
 */
module Steps {
  import opened Bson
  import StagesPrimitives

  /** No top-level argument is nil (nil elements inside an array argument are fine). */
  predicate NoNilStep(steps: seq<Value>)
  {
    forall i :: 0 <= i < |steps| ==> !steps[i].Null?
  }

  /** What one argument adds: the elements of a slice, or the argument itself. */
  function StepContribution(step: Value): seq<Value>
    requires !step.Null?
  {
    if step.Arr? then step.items else [step]
  }

  function StepsFlatten(steps: seq<Value>): seq<Value>
    requires NoNilStep(steps)
  {
    if steps == [] then []
    else StepsFlatten(steps[..|steps| - 1]) + StepContribution(steps[|steps| - 1])
  }

  method MAPipeline(steps: seq<Value>) returns (out: seq<Value>)
    requires NoNilStep(steps)
    ensures out == StepsFlatten(steps)
  {
    out := [];
    for i := 0 to |steps|
      invariant out == StepsFlatten(steps[..i])
    {
      var step := steps[i];
      assert steps[..i + 1][..i] == steps[..i];
      if step.Arr? {
        var items := step.items;
        for j := 0 to |items|
          invariant out == StepsFlatten(steps[..i]) + items[..j]
        {
          out := out + [items[j]];
        }
        assert items[..|items|] == items;
      } else {
        out := out + [step];
      }
    }
    assert steps[..|steps|] == steps;
  }

  /** Without nil arguments the two revisions agree. */
  lemma {:induction false} AgreesWithNilSkippingPipeline(steps: seq<Value>)
    requires NoNilStep(steps)
    ensures StepsFlatten(steps) == StagesPrimitives.Flatten(steps)
    decreases |steps|
  {
    if steps != [] {
      AgreesWithNilSkippingPipeline(steps[..|steps| - 1]);
    }
  }

  /** Array arguments are spliced element by element in order; others are appended whole. */
  lemma StepsSplicing(a: seq<Value>, step: Value, b: seq<Value>)
    requires NoNilStep(a) && NoNilStep(b) && !step.Null?
    ensures NoNilStep(a + [step] + b)
    ensures step.Arr? ==> StepsFlatten(a + [step] + b) == StepsFlatten(a) + step.items + StepsFlatten(b)
    ensures !step.Arr? ==> StepsFlatten(a + [step] + b) == StepsFlatten(a) + [step] + StepsFlatten(b)
  {
    AgreesWithNilSkippingPipeline(a + [step] + b);
    AgreesWithNilSkippingPipeline(a);
    AgreesWithNilSkippingPipeline(b);
    if step.Arr? {
      StagesPrimitives.ArraySplicedOneLevel(a, step.items, b);
    } else {
      StagesPrimitives.SingleStageAppended(a, step, b);
    }
  }

  /** No arguments give an empty pipeline, and the length is the sum of the contributions. */
  lemma StepsLength(steps: seq<Value>)
    requires NoNilStep(steps)
    ensures steps == [] ==> StepsFlatten(steps) == []
    ensures |StepsFlatten(steps)| == StagesPrimitives.TotalSize(steps)
  {
    AgreesWithNilSkippingPipeline(steps);
    StagesPrimitives.FlattenLength(steps);
  }
}
