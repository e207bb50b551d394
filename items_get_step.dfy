/** The "get item" step: reads a dataset object and keyword arguments from the
    pipeline context, calls `dataset.items.get(**kwargs)` and stores the result. */
module ItemsGet {
  import opened Values
  import opened PipelineSteps

  /** The reserved name of the primary input. */
  const Primary: string := "dataset"

  /** The shape the step takes without a `step_dict`: the dataset and the item id
      read from the context keys of the same names, the item written to `item`. */
  function DefaultDescriptor(): StepDescriptor {
    StepDescriptor(
      [InputSpec("dataset", "dataset", "ref", "object"), InputSpec("item_id", "item_id", "ref", "string")],
      map[],
      [],
      [OutputSpec("item", "object")])
  }

  class ItemsGetStep {
    var name: string
    var inputs: seq<InputSpec>
    var kwargs: map<string, Value>
    var args: seq<Value>
    var outputs: seq<OutputSpec>

    function Descriptor(): StepDescriptor
      reads this
    {
      StepDescriptor(inputs, kwargs, args, outputs)
    }

    /** `ItemsGetStep(step_dict)`: a given descriptor is adopted as it is. */
    constructor (stepDict: Option<StepDescriptor>)
      ensures name == "ItemsGet"
      ensures stepDict.Some? ==> Descriptor() == stepDict.value
      ensures stepDict.None? ==> Descriptor() == DefaultDescriptor()
    {
      name := "ItemsGet";
      var d := if stepDict.Some? then stepDict.value else DefaultDescriptor();
      inputs := d.inputs;
      kwargs := d.kwargs;
      args := d.args;
      outputs := d.outputs;
    }

    /** `execute(pipeline_dict)`: changes the context in place and the step's own
        `kwargs`, and returns the same context object on success. */
    method Execute(context: PipelineContext, getItem: Operation) returns (result: Result<PipelineContext, StepError>)
      modifies this`kwargs, context
      ensures var run := RunStep(inputs, outputs, old(kwargs), old(context.entries), Primary, getItem);
        && kwargs == run.kwargs
        && context.entries == run.context
        && (run.error.None? ==> result == Success(context))
        && (run.error.Some? ==> result == Failure(run.error.value))
    {
      var missing := CheckInputs(inputs, context.entries);
      if missing.Some? {
        return Failure(MissingInput(missing.value));
      }
      var datasetFrom := PrimarySources(inputs, Primary);
      if |datasetFrom| != 1 {
        return Failure(PrimaryNotUnique(Primary));
      }
      var dataset := context.entries[datasetFrom[0]];

      var i := 0;
      while i < |inputs|
        invariant 0 <= i <= |inputs|
        invariant context.entries == old(context.entries)
        invariant kwargs == CollectKwargs(old(kwargs), inputs[..i], Primary, context.entries)
      {
        assert inputs[..i + 1][..i] == inputs[..i];
        if inputs[i].name != Primary {
          kwargs := kwargs[inputs[i].name := context.entries[inputs[i].from]];
        }
        i := i + 1;
      }
      assert inputs[..i] == inputs;

      var call := getItem(dataset, kwargs);
      if call.Raised? {
        return Failure(OperationFailed(call.error));
      }
      var error := context.StoreResults(outputs, AsTuple(call.value));
      if error.Some? {
        return Failure(error.value);
      }
      return Success(context);
    }
  }

  /** With the default shape, a context holding a dataset and an item id gains
      `item`, the result of `get(item_id=...)` on that dataset; the step's kwargs
      keep the item id. */
  lemma DefaultRun(ds: Value, itemId: Value, getItem: Operation, item: Value)
    requires getItem(ds, map["item_id" := itemId]) == Returned(item)
    requires !item.Tuple?
    ensures var ctx := map["dataset" := ds, "item_id" := itemId];
            var d := DefaultDescriptor();
            RunStep(d.inputs, d.outputs, d.kwargs, ctx, Primary, getItem)
              == Run(map["item_id" := itemId], ctx["item" := item], None)
  {
    var ctx := map["dataset" := ds, "item_id" := itemId];
    var d := DefaultDescriptor();
    assert d.inputs[..1] == [d.inputs[0]];
    assert d.inputs[..1][..0] == [];
    assert CollectKwargs(map[], d.inputs[..1], Primary, ctx) == map[];
    assert CollectKwargs(map[], d.inputs, Primary, ctx) == map["item_id" := itemId];
    assert d.outputs[..0] == [];
  }

  /** With the default shape and no `dataset` key, `execute` fails on that key and
      changes nothing. */
  lemma DefaultRunWithoutDataset(ctx: map<string, Value>, getItem: Operation)
    requires "dataset" !in ctx
    ensures var d := DefaultDescriptor();
            RunStep(d.inputs, d.outputs, d.kwargs, ctx, Primary, getItem)
              == Run(d.kwargs, ctx, Some(MissingInput("dataset")))
  {
  }

  /** A collaborator that returns fewer results than there are declared outputs
      makes `execute` raise on indexing after the outputs it could fill are stored. */
  lemma ShortResultRaises(ds: Value, itemId: Value, getItem: Operation, first: Value)
    requires getItem(ds, map["item_id" := itemId]) == Returned(Tuple([first]))
    ensures var ctx := map["dataset" := ds, "item_id" := itemId];
            var d := DefaultDescriptor();
            var outputs := d.outputs + [OutputSpec("extra", "object")];
            RunStep(d.inputs, outputs, d.kwargs, ctx, Primary, getItem)
              == Run(map["item_id" := itemId], ctx["item" := first], Some(OutputIndexError(1)))
  {
    var ctx := map["dataset" := ds, "item_id" := itemId];
    var d := DefaultDescriptor();
    var outputs := d.outputs + [OutputSpec("extra", "object")];
    assert d.inputs[..1] == [d.inputs[0]];
    assert d.inputs[..1][..0] == [];
    assert CollectKwargs(map[], d.inputs[..1], Primary, ctx) == map[];
    assert CollectKwargs(map[], d.inputs, Primary, ctx) == map["item_id" := itemId];
    assert outputs[..1] == d.outputs;
    assert d.outputs[..0] == [];
    assert AsTuple(Tuple([first])) == [first];
    assert WriteOutputs(ctx, d.outputs, [first]) == ctx["item" := first];
  }
}
