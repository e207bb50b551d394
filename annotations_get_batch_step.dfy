/** The "get annotations batch" step: reads a collection of items from the
    pipeline context, calls `item.annotations.list()` on each in turn and stores
    the list of their results. */
module AnnotationsGetBatch {
  import opened Values
  import opened PipelineSteps

  /** The reserved name of the primary input. */
  const Primary: string := "items"

  /** The shape the step takes without a `step_dict`: the items read from
      `items`, the list of annotation lists written to `annotations`. */
  function DefaultDescriptor(): StepDescriptor {
    StepDescriptor(
      [InputSpec("items", "items", "ref", "object")],
      map[],
      [],
      [OutputSpec("annotations", "list")])
  }

  /** What `for item in items` walks through: the elements of a list or a tuple,
      or the one-character strings of a string; `None` for a value the model does
      not iterate. */
  function Elements(items: Value): (r: Option<seq<Value>>)
    ensures items.List? ==> r == Some(items.elems)
    ensures items.Tuple? ==> r == Some(items.items)
    ensures items.Str? ==> r.Some? && |r.value| == |items.s|
    ensures items.Str? ==> forall k :: 0 <= k < |items.s| ==> r.value[k] == Str([items.s[k]])
    ensures r.None? <==> !(items.List? || items.Tuple? || items.Str?)
  {
    if items.List? then Some(items.elems)
    else if items.Tuple? then Some(items.items)
    else if items.Str? then Some(seq(|items.s|, k requires 0 <= k < |items.s| => Str([items.s[k]])))
    else None
  }

  /** The per-item calls in order: the first one that raises ends the batch,
      otherwise the list holds each item's result in item order. */
  function ListEach(listAnnotations: Value -> CallResult, items: seq<Value>): (r: CallResult)
    ensures r.Returned? <==> forall k :: 0 <= k < |items| ==> listAnnotations(items[k]).Returned?
    ensures r.Returned? ==> r.value.List? && |r.value.elems| == |items|
    ensures r.Returned? ==> forall k :: 0 <= k < |items| ==> listAnnotations(items[k]) == Returned(r.value.elems[k])
    ensures r.Raised? ==> exists k :: 0 <= k < |items| && listAnnotations(items[k]) == r
                                      && forall j :: 0 <= j < k ==> listAnnotations(items[j]).Returned?
  {
    if items == [] then Returned(List([]))
    else
      var n := |items| - 1;
      var prefix := items[..n];
      assert forall k :: 0 <= k < n ==> prefix[k] == items[k];
      match ListEach(listAnnotations, prefix)
      case Raised(e) => Raised(e)
      case Returned(done) =>
        match listAnnotations(items[n])
        case Raised(e) => Raised(e)
        case Returned(annotations) => Returned(List(done.elems + [annotations]))
  }

  /** The step's collaborator call: not iterable raises, else `ListEach`. The
      keyword arguments are not passed on. */
  function BatchList(listAnnotations: Value -> CallResult, items: Value): CallResult {
    match Elements(items)
    case None => Raised(NotIterable)
    case Some(xs) => ListEach(listAnnotations, xs)
  }

  function BatchOperation(listAnnotations: Value -> CallResult): Operation {
    (items: Value, kwargs: map<string, Value>) => BatchList(listAnnotations, items)
  }

  /** An empty string is iterated zero times: the batch returns the empty list
      without a single per-item call. */
  lemma EmptyStringGivesNoAnnotations(listAnnotations: Value -> CallResult)
    ensures BatchList(listAnnotations, Str("")) == Returned(List([]))
  {
  }

  /** The loop that fills `outputs`, one `append` per item. */
  method ListAnnotations(listAnnotations: Value -> CallResult, items: Value) returns (r: CallResult)
    ensures r == BatchList(listAnnotations, items)
  {
    var elements := Elements(items);
    if elements.None? {
      return Raised(NotIterable);
    }
    var xs := elements.value;
    var outputs: seq<Value> := [];
    var i := 0;
    while i < |xs|
      invariant 0 <= i <= |xs|
      invariant ListEach(listAnnotations, xs[..i]) == Returned(List(outputs))
    {
      assert xs[..i + 1][..i] == xs[..i];
      var annotations := listAnnotations(xs[i]);
      if annotations.Raised? {
        assert ListEach(listAnnotations, xs[..i + 1]) == annotations;
        PrefixRaises(listAnnotations, xs, i + 1);
        return annotations;
      }
      outputs := outputs + [annotations.value];
      i := i + 1;
    }
    assert xs[..i] == xs;
    return Returned(List(outputs));
  }

  /** Once a prefix of the items raises, the whole batch raises the same way. */
  lemma {:induction false} PrefixRaises(listAnnotations: Value -> CallResult, items: seq<Value>, m: nat)
    requires m <= |items|
    requires ListEach(listAnnotations, items[..m]).Raised?
    ensures ListEach(listAnnotations, items) == ListEach(listAnnotations, items[..m])
    decreases |items| - m
  {
    if m < |items| {
      var next := items[..m + 1];
      assert next[..m] == items[..m];
      PrefixRaises(listAnnotations, items, m + 1);
    } else {
      assert items[..m] == items;
    }
  }

  class AnnotationsGetBatchStep {
    var name: string
    var inputs: seq<InputSpec>
    var kwargs: map<string, Value>
    var args: seq<Value>
    var outputs: seq<OutputSpec>

    function Descriptor(): StepDescriptor
      reads this
    {
      StepDescriptor(inputs, kwargs, args, outputs)
    }

    /** `AnnotationsGetBatchStep(step_dict)`: a given descriptor is adopted as it is. */
    constructor (stepDict: Option<StepDescriptor>)
      ensures name == "AnnotationsGetBatch"
      ensures stepDict.Some? ==> Descriptor() == stepDict.value
      ensures stepDict.None? ==> Descriptor() == DefaultDescriptor()
    {
      name := "AnnotationsGetBatch";
      var d := if stepDict.Some? then stepDict.value else DefaultDescriptor();
      inputs := d.inputs;
      kwargs := d.kwargs;
      args := d.args;
      outputs := d.outputs;
    }

    /** `execute(pipeline_dict)`: changes the context in place and the step's own
        `kwargs`, and returns the same context object on success. */
    method Execute(context: PipelineContext, listAnnotations: Value -> CallResult)
      returns (result: Result<PipelineContext, StepError>)
      modifies this`kwargs, context
      ensures var run := RunStep(inputs, outputs, old(kwargs), old(context.entries), Primary, BatchOperation(listAnnotations));
        && kwargs == run.kwargs
        && context.entries == run.context
        && (run.error.None? ==> result == Success(context))
        && (run.error.Some? ==> result == Failure(run.error.value))
    {
      var missing := CheckInputs(inputs, context.entries);
      if missing.Some? {
        return Failure(MissingInput(missing.value));
      }
      var itemsFrom := PrimarySources(inputs, Primary);
      if |itemsFrom| != 1 {
        return Failure(PrimaryNotUnique(Primary));
      }
      var items := context.entries[itemsFrom[0]];

      var i := 0;
      while i < |inputs|
        invariant 0 <= i <= |inputs|
        invariant context.entries == old(context.entries)
        invariant kwargs == CollectKwargs(old(kwargs), inputs[..i], Primary, context.entries)
      {
        assert inputs[..i + 1][..i] == inputs[..i];
        if inputs[i].name != Primary {
          kwargs := kwargs[inputs[i].name := context.entries[inputs[i].from]];
        }
        i := i + 1;
      }
      assert inputs[..i] == inputs;

      var call := ListAnnotations(listAnnotations, items);
      assert call == BatchOperation(listAnnotations)(items, kwargs);
      if call.Raised? {
        return Failure(OperationFailed(call.error));
      }
      var error := context.StoreResults(outputs, AsTuple(call.value));
      if error.Some? {
        return Failure(error.value);
      }
      return Success(context);
    }
  }

  /** The collected keyword arguments never reach the per-item calls: the
      context a run leaves does not depend on the step's `kwargs`. */
  lemma KwargsUnused(
    inputs: seq<InputSpec>, outputs: seq<OutputSpec>, kwargs: map<string, Value>, other: map<string, Value>,
    ctx: map<string, Value>, listAnnotations: Value -> CallResult)
    ensures RunStep(inputs, outputs, kwargs, ctx, Primary, BatchOperation(listAnnotations)).context
         == RunStep(inputs, outputs, other, ctx, Primary, BatchOperation(listAnnotations)).context
    ensures RunStep(inputs, outputs, kwargs, ctx, Primary, BatchOperation(listAnnotations)).error
         == RunStep(inputs, outputs, other, ctx, Primary, BatchOperation(listAnnotations)).error
  {
  }

  /** The batch result is one value, never a tuple: when both checks pass and
      the batch returns, a second declared output makes `execute` raise on index 1
      after storing the first (so a successful run has at most one output, see
      `RunStoresAnnotations`). */
  lemma OneOutputOnly(
    inputs: seq<InputSpec>, outputs: seq<OutputSpec>, kwargs: map<string, Value>,
    ctx: map<string, Value>, listAnnotations: Value -> CallResult)
    requires |outputs| >= 2
    requires forall i :: 0 <= i < |inputs| ==> inputs[i].from in ctx
    requires |PrimarySources(inputs, Primary)| == 1
    requires BatchList(listAnnotations, ctx[PrimarySources(inputs, Primary)[0]]).Returned?
    ensures var run := RunStep(inputs, outputs, kwargs, ctx, Primary, BatchOperation(listAnnotations));
      && run.error == Some(OutputIndexError(1))
      && outputs[0].name in run.context
      && run.context[outputs[0].name].List?
  {
    var sources := PrimarySources(inputs, Primary);
    var call := BatchList(listAnnotations, ctx[sources[0]]);
    assert AsTuple(call.value) == [call.value];
    assert outputs[..1] == [outputs[0]];
    assert outputs[..1][..0] == [];
  }

  /** A successful run stores, under each declared output name, the list holding
      each item's annotations in item order. */
  lemma RunStoresAnnotations(
    inputs: seq<InputSpec>, outputs: seq<OutputSpec>, kwargs: map<string, Value>,
    ctx: map<string, Value>, listAnnotations: Value -> CallResult)
    requires RunStep(inputs, outputs, kwargs, ctx, Primary, BatchOperation(listAnnotations)).error.None?
    ensures |outputs| <= 1
    ensures |PrimarySources(inputs, Primary)| == 1 && PrimarySources(inputs, Primary)[0] in ctx
    ensures var items := ctx[PrimarySources(inputs, Primary)[0]];
            var run := RunStep(inputs, outputs, kwargs, ctx, Primary, BatchOperation(listAnnotations));
      && Elements(items).Some?
      && forall i :: 0 <= i < |outputs| ==>
           && run.context[outputs[i].name].List?
           && |run.context[outputs[i].name].elems| == |Elements(items).value|
           && forall k :: 0 <= k < |Elements(items).value| ==>
                listAnnotations(Elements(items).value[k]) == Returned(run.context[outputs[i].name].elems[k])
  {
    RunStepOutputs(inputs, outputs, kwargs, ctx, Primary, BatchOperation(listAnnotations));
    var items := ctx[PrimarySources(inputs, Primary)[0]];
    var call := BatchList(listAnnotations, items);
    assert AsTuple(call.value) == [call.value];
    if |outputs| == 1 {
      assert LastOutput(outputs, 0);
    }
  }

  /** With the default shape, a context holding two items gains `annotations`,
      the list of the two items' annotation lists in item order. */
  lemma DefaultRun(first: Value, second: Value, listAnnotations: Value -> CallResult, a: Value, b: Value)
    requires listAnnotations(first) == Returned(a) && listAnnotations(second) == Returned(b)
    ensures var ctx := map["items" := List([first, second])];
            var d := DefaultDescriptor();
            RunStep(d.inputs, d.outputs, d.kwargs, ctx, Primary, BatchOperation(listAnnotations))
              == Run(map[], ctx["annotations" := List([a, b])], None)
  {
    var ctx := map["items" := List([first, second])];
    var d := DefaultDescriptor();
    var xs := [first, second];
    assert xs[..1] == [first] && xs[..1][..0] == [];
    assert ListEach(listAnnotations, xs[..1]) == Returned(List([a]));
    assert ListEach(listAnnotations, xs) == Returned(List([a, b]));
    assert d.inputs[..0] == [];
    assert CollectKwargs(map[], d.inputs, Primary, ctx) == map[];
    assert d.outputs[..0] == [];
  }
}
