/**
 * Pipeline stages and the pipeline-flattening helper `MAPipeline`.
 *
 * `MAPipeline` accepts single stages and stage lists mixed together. A `Null`
 * argument contributes nothing, an array argument contributes its elements
 * (one level only: whatever those elements are, they are kept as they are) and
 * any other argument contributes itself. `Flatten` is the specification of
 * that loop: the contributions of the arguments, concatenated in order.
 */
module StagesPrimitives {
  import opened Bson

  /** What one argument of `MAPipeline` adds to the output. */
  function Contribution(stage: Value): seq<Value>
  {
    match stage
    case Null => []
    case Arr(items) => items
    case _ => [stage]
  }

  /** The contributions of all arguments, in argument order. */
  function Flatten(stages: seq<Value>): seq<Value>
  {
    if stages == [] then []
    else Flatten(stages[..|stages| - 1]) + Contribution(stages[|stages| - 1])
  }

  /** How many elements one argument adds: an independent count, not defined via `Contribution`. */
  function ContributionSize(stage: Value): nat
  {
    if stage.Null? then 0 else if stage.Arr? then |stage.items| else 1
  }

  function TotalSize(stages: seq<Value>): nat
  {
    if stages == [] then 0 else ContributionSize(stages[0]) + TotalSize(stages[1..])
  }

  /** The loop of the source: skip nil, splice slices item by item, append the rest. */
  method MAPipeline(stages: seq<Value>) returns (out: seq<Value>)
    ensures out == Flatten(stages)
  {
    out := [];
    for i := 0 to |stages|
      invariant out == Flatten(stages[..i])
    {
      var stage := stages[i];
      assert stages[..i + 1][..i] == stages[..i];
      if !stage.Null? {
        if stage.Arr? {
          var items := stage.items;
          for j := 0 to |items|
            invariant out == Flatten(stages[..i]) + items[..j]
          {
            out := out + [items[j]];
          }
          assert items[..|items|] == items;
        } else {
          out := out + [stage];
        }
      }
    }
    assert stages[..|stages|] == stages;
  }

  /** Flattening distributes over concatenation of the argument list. */
  lemma {:induction false} FlattenConcat(a: seq<Value>, b: seq<Value>)
    ensures Flatten(a + b) == Flatten(a) + Flatten(b)
    decreases |b|
  {
    if b == [] {
      assert a + b == a;
    } else {
      var b' := b[..|b| - 1];
      assert (a + b)[..|a + b| - 1] == a + b';
      FlattenConcat(a, b');
    }
  }

  /** A nil argument anywhere in the list contributes nothing. */
  lemma NullStageVanishes(a: seq<Value>, b: seq<Value>)
    ensures Flatten(a + [Null] + b) == Flatten(a + b)
  {
    FlattenConcat(a + [Null], b);
    FlattenConcat(a, [Null]);
    FlattenConcat(a, b);
    assert [Null][..0] == [];
  }

  /** An array argument is spliced in element by element, one level deep, in its own order. */
  lemma ArraySplicedOneLevel(a: seq<Value>, items: seq<Value>, b: seq<Value>)
    ensures Flatten(a + [Arr(items)] + b) == Flatten(a) + items + Flatten(b)
  {
    FlattenConcat(a + [Arr(items)], b);
    FlattenConcat(a, [Arr(items)]);
    assert [Arr(items)][..0] == [];
  }

  /** Any other argument is appended as one element. */
  lemma SingleStageAppended(a: seq<Value>, stage: Value, b: seq<Value>)
    requires !stage.Null? && !stage.Arr?
    ensures Flatten(a + [stage] + b) == Flatten(a) + [stage] + Flatten(b)
  {
    FlattenConcat(a + [stage], b);
    FlattenConcat(a, [stage]);
    assert [stage][..0] == [];
  }

  /** The output length is the sum of what each argument contributes. */
  lemma {:induction false} FlattenLength(stages: seq<Value>)
    ensures |Flatten(stages)| == TotalSize(stages)
    decreases |stages|
  {
    if stages != [] {
      FlattenConcat([stages[0]], stages[1..]);
      assert [stages[0]] + stages[1..] == stages;
      assert [stages[0]][..0] == [];
      FlattenLength(stages[1..]);
    }
  }

  /**
   * Output order follows argument order: element `j` of argument `i`'s
   * contribution sits right after everything the earlier arguments contributed.
   */
  lemma FlattenPosition(stages: seq<Value>, i: nat, j: nat)
    requires i < |stages| && j < |Contribution(stages[i])|
    ensures |Flatten(stages[..i])| + j < |Flatten(stages)|
    ensures Flatten(stages)[|Flatten(stages[..i])| + j] == Contribution(stages[i])[j]
  {
    assert stages == stages[..i] + [stages[i]] + stages[i + 1..];
    FlattenConcat(stages[..i] + [stages[i]], stages[i + 1..]);
    FlattenConcat(stages[..i], [stages[i]]);
    assert [stages[i]][..0] == [];
  }

  /** A list of plain stages (no nil, no arrays) flattens to itself. */
  lemma {:induction false} FlattenPlainStages(stages: seq<Value>)
    requires forall i :: 0 <= i < |stages| ==> !stages[i].Null? && !stages[i].Arr?
    ensures Flatten(stages) == stages
    decreases |stages|
  {
    if stages != [] {
      FlattenPlainStages(stages[..|stages| - 1]);
    }
  }

  /** The stage when `optional` holds, nil otherwise; what it adds to a pipeline is decided by `optional`. */
  function APOptionalStage(optional: bool, stage: Value): (r: Value)
    ensures Contribution(r) == if optional then Contribution(stage) else []
    ensures optional ==> r == stage
    ensures !optional ==> r.Null?
  {
    if optional then stage else Null
  }

  /** A disabled optional stage disappears from the pipeline; an enabled one behaves as the stage itself. */
  lemma OptionalStageInPipeline(a: seq<Value>, optional: bool, stage: Value, b: seq<Value>)
    ensures Flatten(a + [APOptionalStage(optional, stage)] + b)
         == if optional then Flatten(a + [stage] + b) else Flatten(a + b)
  {
    if !optional {
      NullStageVanishes(a, b);
    }
  }

  function APMatch(conditions: Value): (r: Value)
    ensures SingleOperand(r, "$match") == Some(conditions)
  {
    Op("$match", conditions)
  }

  function APSort(what: Value): (r: Value)
    ensures SingleOperand(r, "$sort") == Some(what)
  {
    Op("$sort", what)
  }

  function APLimit(number: Value): (r: Value)
    ensures SingleOperand(r, "$limit") == Some(number)
  {
    Op("$limit", number)
  }

  function APSkip(number: Value): (r: Value)
    ensures SingleOperand(r, "$skip") == Some(number)
  {
    Op("$skip", number)
  }

  function APProject(what: Value): (r: Value)
    ensures SingleOperand(r, "$project") == Some(what)
  {
    Op("$project", what)
  }

  /** Variadic: the field list is kept as an array in argument order. */
  function APUnset(what: seq<Value>): (r: Value)
    ensures SingleOperand(r, "$unset") == Some(Arr(what))
  {
    Op("$unset", Arr(what))
  }

  function APSet(what: Value): (r: Value)
    ensures SingleOperand(r, "$set") == Some(what)
  {
    Op("$set", what)
  }

  function APAddFields(what: Value): (r: Value)
    ensures SingleOperand(r, "$addFields") == Some(what)
  {
    Op("$addFields", what)
  }

  function APUnwind(what: string): (r: Value)
    ensures SingleOperand(r, "$unwind") == Some(Str(what))
  {
    Op("$unwind", Str(what))
  }

  function APReplaceWith(what: Value): (r: Value)
    ensures SingleOperand(r, "$replaceWith") == Some(what)
  {
    Op("$replaceWith", what)
  }

  function APLookupSimple(from: string, localField: string, foreignField: string, asName: string): (r: Value)
    ensures ArgKeys(r, "$lookup") == {"from", "localField", "foreignField", "as"}
    ensures Arg(r, "$lookup", "from") == Some(Str(from))
    ensures Arg(r, "$lookup", "localField") == Some(Str(localField))
    ensures Arg(r, "$lookup", "foreignField") == Some(Str(foreignField))
    ensures Arg(r, "$lookup", "as") == Some(Str(asName))
  {
    Op("$lookup", Doc(map["from" := Str(from), "localField" := Str(localField),
                          "foreignField" := Str(foreignField), "as" := Str(asName)]))
  }

  function APLookupPipeline(from: string, letVars: Value, asName: string, pipeline: Value): (r: Value)
    ensures ArgKeys(r, "$lookup") == {"from", "let", "as", "pipeline"}
    ensures Arg(r, "$lookup", "from") == Some(Str(from))
    ensures Arg(r, "$lookup", "let") == Some(letVars)
    ensures Arg(r, "$lookup", "as") == Some(Str(asName))
    ensures Arg(r, "$lookup", "pipeline") == Some(pipeline)
  {
    Op("$lookup", Doc(map["from" := Str(from), "let" := letVars, "as" := Str(asName), "pipeline" := pipeline]))
  }

  function APGroup(fields: Value): (r: Value)
    ensures SingleOperand(r, "$group") == Some(fields)
  {
    Op("$group", fields)
  }

  function APFacet(fields: Value): (r: Value)
    ensures SingleOperand(r, "$facet") == Some(fields)
  {
    Op("$facet", fields)
  }

  function APCount(field: string): (r: Value)
    ensures SingleOperand(r, "$count") == Some(Str(field))
  {
    Op("$count", Str(field))
  }
}
