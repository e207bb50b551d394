/** What the two built-in pipeline steps share: their descriptor, the pipeline
    context they read and write in place, and the specification of one `execute`
    call (input presence check, the single primary input, the keyword arguments
    gathered into the step's own `kwargs`, one collaborator call, and the results
    written back under the declared output names). */
module PipelineSteps {
  import opened Values

  /** One declared input: the parameter `name` is read from context key `from`.
      `binding` (`by`) and `valueType` (`type`) are carried but never consulted. */
  datatype InputSpec = InputSpec(name: string, from: string, binding: string, valueType: string)

  /** One declared output: the context key the matching result is written to. */
  datatype OutputSpec = OutputSpec(name: string, valueType: string)

  /** The `step_dict` a step may be built from. */
  datatype StepDescriptor = StepDescriptor(
    inputs: seq<InputSpec>,
    kwargs: map<string, Value>,
    args: seq<Value>,
    outputs: seq<OutputSpec>)

  /** What a collaborator call can raise. */
  datatype OperationError = NotIterable | CollaboratorError(reason: string)

  /** A collaborator call either returns a value or raises. */
  datatype CallResult = Returned(value: Value) | Raised(error: OperationError)

  /** The ways `execute` ends with an exception: the `assert` on a missing input
      key, the `ValueError` on the primary input, an exception of the collaborator
      passed through, and the `IndexError` when fewer results than outputs exist. */
  datatype StepError =
    | MissingInput(key: string)
    | PrimaryNotUnique(primary: string)
    | OperationFailed(error: OperationError)
    | OutputIndexError(index: nat)

  /** The collaborator call of a step: primary object and keyword arguments in,
      a result or an exception out. */
  type Operation = (Value, map<string, Value>) -> CallResult

  /** The first declared input (in order) whose `from` key the context lacks. */
  function FirstMissing(inputs: seq<InputSpec>, ctx: map<string, Value>): (r: Option<string>)
    ensures r.None? <==> forall i :: 0 <= i < |inputs| ==> inputs[i].from in ctx
    ensures r.Some? ==> r.value !in ctx
    ensures r.Some? ==> exists i :: 0 <= i < |inputs| && inputs[i].from == r.value
                                    && forall j :: 0 <= j < i ==> inputs[j].from in ctx
  {
    if inputs == [] then None
    else if inputs[0].from !in ctx then Some(inputs[0].from)
    else
      var rest := FirstMissing(inputs[1..], ctx);
      assert forall i :: 1 <= i < |inputs| ==> inputs[i] == inputs[1..][i - 1];
      rest
  }

  /** The presence check that opens `execute`: it stops at the first input whose
      key is absent. */
  method CheckInputs(inputs: seq<InputSpec>, ctx: map<string, Value>) returns (missing: Option<string>)
    ensures missing == FirstMissing(inputs, ctx)
  {
    var i := 0;
    while i < |inputs|
      invariant 0 <= i <= |inputs|
      invariant FirstMissing(inputs[i..], ctx) == FirstMissing(inputs, ctx)
    {
      if inputs[i].from !in ctx {
        return Some(inputs[i].from);
      }
      assert inputs[i..][1..] == inputs[i + 1..];
      i := i + 1;
    }
    return None;
  }

  /** The `from` keys of the declared inputs. */
  function Froms(inputs: seq<InputSpec>): set<string> {
    set i | 0 <= i < |inputs| :: inputs[i].from
  }

  /** `[inp['from'] for inp in inputs if inp['name'] == primary]`. */
  function PrimarySources(inputs: seq<InputSpec>, primary: string): (r: seq<string>)
    ensures |r| <= |inputs|
    ensures forall k :: 0 <= k < |r| ==> r[k] in Froms(inputs)
  {
    if inputs == [] then []
    else
      var rest := PrimarySources(inputs[1..], primary);
      assert Froms(inputs) == {inputs[0].from} + Froms(inputs[1..]) by {
        assert forall i :: 1 <= i < |inputs| ==> inputs[i] == inputs[1..][i - 1];
        assert forall i :: 0 <= i < |inputs| - 1 ==> inputs[1..][i] == inputs[i + 1];
      }
      if inputs[0].name == primary then [inputs[0].from] + rest else rest
  }

  /** Input `i` is the only declared input carrying the name `primary`. */
  predicate NamedOnlyAt(inputs: seq<InputSpec>, primary: string, i: int) {
    && 0 <= i < |inputs|
    && inputs[i].name == primary
    && forall j :: 0 <= j < |inputs| && j != i ==> inputs[j].name != primary
  }

  lemma {:induction false} PrimarySourcesNone(inputs: seq<InputSpec>, primary: string)
    requires forall i :: 0 <= i < |inputs| ==> inputs[i].name != primary
    ensures PrimarySources(inputs, primary) == []
  {
    if inputs != [] {
      PrimarySourcesNone(inputs[1..], primary);
    }
  }

  lemma {:induction false} PrimarySourcesEmpty(inputs: seq<InputSpec>, primary: string)
    requires PrimarySources(inputs, primary) == []
    ensures forall i :: 0 <= i < |inputs| ==> inputs[i].name != primary
  {
    if inputs != [] {
      PrimarySourcesEmpty(inputs[1..], primary);
      assert forall i :: 1 <= i < |inputs| ==> inputs[i] == inputs[1..][i - 1];
    }
  }

  /** A single input carrying the primary name yields exactly its `from` key. */
  lemma {:induction false} OnlyPrimaryIsSource(inputs: seq<InputSpec>, primary: string, i: int)
    requires NamedOnlyAt(inputs, primary, i)
    ensures PrimarySources(inputs, primary) == [inputs[i].from]
  {
    var tail := inputs[1..];
    if i == 0 {
      forall j | 0 <= j < |tail| ensures tail[j].name != primary {
        assert tail[j] == inputs[j + 1];
      }
      PrimarySourcesNone(tail, primary);
    } else {
      assert NamedOnlyAt(tail, primary, i - 1) by {
        assert tail[i - 1] == inputs[i];
        forall j | 0 <= j < |tail| && j != i - 1 ensures tail[j].name != primary {
          assert tail[j] == inputs[j + 1];
        }
      }
      OnlyPrimaryIsSource(tail, primary, i - 1);
    }
  }

  /** One primary source means one input carries the primary name. */
  lemma {:induction false} SingleSourceIsOnlyPrimary(inputs: seq<InputSpec>, primary: string)
    requires |PrimarySources(inputs, primary)| == 1
    ensures exists i :: NamedOnlyAt(inputs, primary, i)
  {
    var tail := inputs[1..];
    assert forall j :: 0 <= j < |tail| ==> tail[j] == inputs[j + 1];
    if inputs[0].name == primary {
      PrimarySourcesEmpty(tail, primary);
      assert NamedOnlyAt(inputs, primary, 0);
    } else {
      SingleSourceIsOnlyPrimary(tail, primary);
      var k :| NamedOnlyAt(tail, primary, k);
      assert NamedOnlyAt(inputs, primary, k + 1);
    }
  }

  /** The `ValueError` check passes exactly when one declared input carries the
      primary name; the primary object is then read from that input's key. */
  lemma PrimarySourcesSingle(inputs: seq<InputSpec>, primary: string)
    ensures |PrimarySources(inputs, primary)| == 1 <==> exists i :: NamedOnlyAt(inputs, primary, i)
    ensures forall i :: NamedOnlyAt(inputs, primary, i) ==> PrimarySources(inputs, primary) == [inputs[i].from]
  {
    if |PrimarySources(inputs, primary)| == 1 {
      SingleSourceIsOnlyPrimary(inputs, primary);
    }
    forall i | NamedOnlyAt(inputs, primary, i) ensures PrimarySources(inputs, primary) == [inputs[i].from] {
      OnlyPrimaryIsSource(inputs, primary, i);
    }
  }

  /** The names of the declared inputs other than the primary one. */
  function KwargNames(inputs: seq<InputSpec>, primary: string): set<string> {
    set i | 0 <= i < |inputs| && inputs[i].name != primary :: inputs[i].name
  }

  /** The keyword-argument loop: each non-primary input, in order, sets
      `kwargs[name] = ctx[from]` on top of the step's existing `kwargs`. */
  function CollectKwargs(kwargs: map<string, Value>, inputs: seq<InputSpec>, primary: string, ctx: map<string, Value>)
    : map<string, Value>
    requires forall i :: 0 <= i < |inputs| ==> inputs[i].from in ctx
  {
    if inputs == [] then kwargs
    else
      var n := |inputs| - 1;
      var before := CollectKwargs(kwargs, inputs[..n], primary, ctx);
      if inputs[n].name == primary then before else before[inputs[n].name := ctx[inputs[n].from]]
  }

  /** The loop lays a map whose keys are exactly the non-primary input names over
      the step's old `kwargs`. */
  lemma {:induction false} CollectKwargsOverlay(kwargs: map<string, Value>, inputs: seq<InputSpec>, primary: string, ctx: map<string, Value>)
    requires forall i :: 0 <= i < |inputs| ==> inputs[i].from in ctx
    ensures CollectKwargs(kwargs, inputs, primary, ctx) == kwargs + CollectKwargs(map[], inputs, primary, ctx)
    ensures CollectKwargs(map[], inputs, primary, ctx).Keys == KwargNames(inputs, primary)
  {
    if inputs != [] {
      var n := |inputs| - 1;
      var prefix := inputs[..n];
      assert forall i :: 0 <= i < n ==> prefix[i] == inputs[i];
      CollectKwargsOverlay(kwargs, prefix, primary, ctx);
      assert KwargNames(inputs, primary) ==
        KwargNames(prefix, primary) + (if inputs[n].name == primary then {} else {inputs[n].name});
      var m := CollectKwargs(map[], prefix, primary, ctx);
      if inputs[n].name != primary {
        var k, v := inputs[n].name, ctx[inputs[n].from];
        assert (kwargs + m)[k := v] == kwargs + m[k := v];
      }
    }
  }

  /** Input `i` is not the primary one and no later input shares its name. */
  predicate LastKwarg(inputs: seq<InputSpec>, primary: string, i: int) {
    && 0 <= i < |inputs|
    && inputs[i].name != primary
    && forall j :: i < j < |inputs| ==> inputs[j].name != inputs[i].name
  }

  lemma {:induction false} CollectKwargsLast(kwargs: map<string, Value>, inputs: seq<InputSpec>, primary: string, ctx: map<string, Value>, i: int)
    requires forall i :: 0 <= i < |inputs| ==> inputs[i].from in ctx
    requires LastKwarg(inputs, primary, i)
    ensures inputs[i].name in CollectKwargs(kwargs, inputs, primary, ctx)
    ensures CollectKwargs(kwargs, inputs, primary, ctx)[inputs[i].name] == ctx[inputs[i].from]
  {
    var n := |inputs| - 1;
    if i < n {
      var prefix := inputs[..n];
      assert prefix[i] == inputs[i];
      assert LastKwarg(prefix, primary, i) by {
        forall j | i < j < |prefix| ensures prefix[j].name != prefix[i].name {
          assert prefix[j] == inputs[j];
        }
      }
      CollectKwargsLast(kwargs, prefix, primary, ctx, i);
    }
  }

  /** After the loop, `kwargs` holds its old entries plus one per non-primary
      input name; each such name maps to the context value of the last input of
      that name; every other key keeps its old value. */
  lemma CollectKwargsSpec(kwargs: map<string, Value>, inputs: seq<InputSpec>, primary: string, ctx: map<string, Value>)
    requires forall i :: 0 <= i < |inputs| ==> inputs[i].from in ctx
    ensures CollectKwargs(kwargs, inputs, primary, ctx).Keys == kwargs.Keys + KwargNames(inputs, primary)
    ensures forall k :: k in kwargs && k !in KwargNames(inputs, primary) ==>
      CollectKwargs(kwargs, inputs, primary, ctx)[k] == kwargs[k]
    ensures forall i :: LastKwarg(inputs, primary, i) ==>
      CollectKwargs(kwargs, inputs, primary, ctx)[inputs[i].name] == ctx[inputs[i].from]
  {
    CollectKwargsOverlay(kwargs, inputs, primary, ctx);
    forall i | LastKwarg(inputs, primary, i)
      ensures CollectKwargs(kwargs, inputs, primary, ctx)[inputs[i].name] == ctx[inputs[i].from]
    {
      CollectKwargsLast(kwargs, inputs, primary, ctx, i);
    }
  }

  /** The names of the declared outputs. */
  function OutputNames(outputs: seq<OutputSpec>): set<string> {
    set i | 0 <= i < |outputs| :: outputs[i].name
  }

  /** The output loop, in declaration order: `ctx[outputs[i].name] = results[i]`. */
  function WriteOutputs(ctx: map<string, Value>, outputs: seq<OutputSpec>, results: seq<Value>): map<string, Value>
    requires |outputs| <= |results|
  {
    if outputs == [] then ctx
    else
      var n := |outputs| - 1;
      WriteOutputs(ctx, outputs[..n], results)[outputs[n].name := results[n]]
  }

  /** Writing the outputs lays a map whose keys are exactly the output names over
      the context: the same map whatever the context was. */
  lemma {:induction false} WriteOutputsOverlay(ctx: map<string, Value>, outputs: seq<OutputSpec>, results: seq<Value>)
    requires |outputs| <= |results|
    ensures WriteOutputs(ctx, outputs, results) == ctx + WriteOutputs(map[], outputs, results)
    ensures WriteOutputs(map[], outputs, results).Keys == OutputNames(outputs)
  {
    if outputs != [] {
      var n := |outputs| - 1;
      var prefix := outputs[..n];
      WriteOutputsOverlay(ctx, prefix, results);
      assert forall i :: 0 <= i < n ==> prefix[i] == outputs[i];
      assert OutputNames(outputs) == OutputNames(prefix) + {outputs[n].name};
      var m := WriteOutputs(map[], prefix, results);
      assert (ctx + m)[outputs[n].name := results[n]] == ctx + m[outputs[n].name := results[n]];
    }
  }

  /** Output `i` is the last declared output of its name. */
  predicate LastOutput(outputs: seq<OutputSpec>, i: int) {
    && 0 <= i < |outputs|
    && forall j :: i < j < |outputs| ==> outputs[j].name != outputs[i].name
  }

  lemma {:induction false} WriteOutputsLast(ctx: map<string, Value>, outputs: seq<OutputSpec>, results: seq<Value>, i: int)
    requires |outputs| <= |results|
    requires LastOutput(outputs, i)
    ensures outputs[i].name in WriteOutputs(ctx, outputs, results)
    ensures WriteOutputs(ctx, outputs, results)[outputs[i].name] == results[i]
  {
    var n := |outputs| - 1;
    if i < n {
      var prefix := outputs[..n];
      assert prefix[i] == outputs[i];
      assert LastOutput(prefix, i) by {
        forall j | i < j < |prefix| ensures prefix[j].name != prefix[i].name {
          assert prefix[j] == outputs[j];
        }
      }
      WriteOutputsLast(ctx, prefix, results, i);
    }
  }

  /** After the output loop: the keys are the old ones plus the output names, an
      output name holds the result of the last output of that name, and every
      other key keeps its value. */
  lemma WriteOutputsSpec(ctx: map<string, Value>, outputs: seq<OutputSpec>, results: seq<Value>)
    requires |outputs| <= |results|
    ensures WriteOutputs(ctx, outputs, results).Keys == ctx.Keys + OutputNames(outputs)
    ensures forall k :: k in ctx && k !in OutputNames(outputs) ==> WriteOutputs(ctx, outputs, results)[k] == ctx[k]
    ensures forall i :: LastOutput(outputs, i) ==> WriteOutputs(ctx, outputs, results)[outputs[i].name] == results[i]
  {
    WriteOutputsOverlay(ctx, outputs, results);
    forall i | LastOutput(outputs, i) ensures WriteOutputs(ctx, outputs, results)[outputs[i].name] == results[i] {
      WriteOutputsLast(ctx, outputs, results, i);
    }
  }

  /** Running the output loop again replaces what an earlier run wrote: nothing
      accumulates. */
  lemma RerunOverwrites(ctx: map<string, Value>, outputs: seq<OutputSpec>, first: seq<Value>, second: seq<Value>)
    requires |outputs| <= |first| && |outputs| <= |second|
    ensures WriteOutputs(WriteOutputs(ctx, outputs, first), outputs, second) == WriteOutputs(ctx, outputs, second)
  {
    WriteOutputsOverlay(ctx, outputs, first);
    WriteOutputsOverlay(ctx, outputs, second);
    WriteOutputsOverlay(WriteOutputs(ctx, outputs, first), outputs, second);
    var a := WriteOutputs(map[], outputs, first);
    var b := WriteOutputs(map[], outputs, second);
    assert (ctx + a) + b == ctx + b;
  }

  /** The results the output loop indexes: a returned tuple's elements, or the
      returned value alone when it is not a tuple (the 1-tuple wrapping). */
  function AsTuple(v: Value): (r: seq<Value>)
    ensures v.Tuple? ==> r == v.items
    ensures !v.Tuple? ==> |r| == 1 && r[0] == v
  {
    if v.Tuple? then v.items else [v]
  }

  datatype Stored = Stored(context: map<string, Value>, error: Option<StepError>)

  /** The output loop over `enumerate(outputs)`: when the results run out, the
      outputs before that index are already written and indexing raises. */
  function Finish(ctx: map<string, Value>, outputs: seq<OutputSpec>, results: seq<Value>): Stored {
    if |outputs| <= |results| then Stored(WriteOutputs(ctx, outputs, results), None)
    else Stored(WriteOutputs(ctx, outputs[..|results|], results), Some(OutputIndexError(|results|)))
  }

  /** The pipeline context: one dict shared by the steps of a run, changed in place. */
  class PipelineContext {
    var entries: map<string, Value>

    constructor(initial: map<string, Value>)
      ensures entries == initial
    {
      entries := initial;
    }

    /** The output loop of `execute`. */
    method StoreResults(outputs: seq<OutputSpec>, results: seq<Value>) returns (error: Option<StepError>)
      modifies this
      ensures Stored(entries, error) == Finish(old(entries), outputs, results)
    {
      var i := 0;
      while i < |outputs|
        invariant 0 <= i <= |outputs| && i <= |results|
        invariant entries == WriteOutputs(old(entries), outputs[..i], results)
      {
        if i >= |results| {
          return Some(OutputIndexError(i));
        }
        assert outputs[..i + 1][..i] == outputs[..i];
        entries := entries[outputs[i].name := results[i]];
        i := i + 1;
      }
      assert outputs[..i] == outputs;
      return None;
    }
  }

  /** What one `execute` call leaves behind: the step's `kwargs`, the context, and
      the exception it raised, if any (otherwise it returned the context). */
  datatype Run = Run(kwargs: map<string, Value>, context: map<string, Value>, error: Option<StepError>)

  /** One `execute` call of a step whose reserved primary input name is `primary`
      and whose collaborator call is `op`. A failed presence check or primary
      lookup changes nothing; past them the keyword arguments are gathered even if
      the call then raises; only declared output names are ever written. */
  function RunStep(
    inputs: seq<InputSpec>, outputs: seq<OutputSpec>, kwargs: map<string, Value>,
    ctx: map<string, Value>, primary: string, op: Operation): (r: Run)
    ensures forall k :: k in ctx && k !in OutputNames(outputs) ==> k in r.context && r.context[k] == ctx[k]
    ensures r.context.Keys <= ctx.Keys + OutputNames(outputs)
    ensures r.error.None? ==> r.context.Keys == ctx.Keys + OutputNames(outputs)
    ensures (exists i :: 0 <= i < |inputs| && inputs[i].from !in ctx) ==>
      && r.context == ctx && r.kwargs == kwargs
      && r.error.Some? && r.error.value.MissingInput? && r.error.value.key !in ctx
    ensures FirstMissing(inputs, ctx).Some? ==> r == Run(kwargs, ctx, Some(MissingInput(FirstMissing(inputs, ctx).value)))
    ensures (forall i :: 0 <= i < |inputs| ==> inputs[i].from in ctx) && |PrimarySources(inputs, primary)| != 1 ==>
      r == Run(kwargs, ctx, Some(PrimaryNotUnique(primary)))
    ensures (forall i :: 0 <= i < |inputs| ==> inputs[i].from in ctx) && |PrimarySources(inputs, primary)| == 1 ==>
      var kw := CollectKwargs(kwargs, inputs, primary, ctx);
      var call := op(ctx[PrimarySources(inputs, primary)[0]], kw);
      && r.kwargs == kw
      && (call.Returned? && |outputs| <= |AsTuple(call.value)| ==>
            r.error.None? && r.context == WriteOutputs(ctx, outputs, AsTuple(call.value)))
      && (call.Raised? ==> r.context == ctx && r.error == Some(OperationFailed(call.error)))
      && (call.Returned? && |AsTuple(call.value)| < |outputs| ==>
            && r.error == Some(OutputIndexError(|AsTuple(call.value)|))
            && r.context == WriteOutputs(ctx, outputs[..|AsTuple(call.value)|], AsTuple(call.value)))
  {
    match FirstMissing(inputs, ctx)
    case Some(key) => Run(kwargs, ctx, Some(MissingInput(key)))
    case None =>
      var sources := PrimarySources(inputs, primary);
      if |sources| != 1 then Run(kwargs, ctx, Some(PrimaryNotUnique(primary)))
      else
        var kw := CollectKwargs(kwargs, inputs, primary, ctx);
        match op(ctx[sources[0]], kw)
        case Raised(e) => Run(kw, ctx, Some(OperationFailed(e)))
        case Returned(v) =>
          var results := AsTuple(v);
          var written := if |outputs| <= |results| then outputs else outputs[..|results|];
          WriteOutputsSpec(ctx, written, results);
          assert OutputNames(written) <= OutputNames(outputs);
          var stored := Finish(ctx, outputs, results);
          Run(kw, stored.context, stored.error)
  }

  /** A successful `execute` passed every check, and each declared output name
      holds the result at the position of the last output of that name. */
  lemma RunStepOutputs(
    inputs: seq<InputSpec>, outputs: seq<OutputSpec>, kwargs: map<string, Value>,
    ctx: map<string, Value>, primary: string, op: Operation)
    requires RunStep(inputs, outputs, kwargs, ctx, primary, op).error.None?
    ensures forall i :: 0 <= i < |inputs| ==> inputs[i].from in ctx
    ensures |PrimarySources(inputs, primary)| == 1
    ensures var call := op(ctx[PrimarySources(inputs, primary)[0]], CollectKwargs(kwargs, inputs, primary, ctx));
      && call.Returned?
      && |outputs| <= |AsTuple(call.value)|
      && RunStep(inputs, outputs, kwargs, ctx, primary, op).kwargs == CollectKwargs(kwargs, inputs, primary, ctx)
      && forall i :: LastOutput(outputs, i) ==> RunStep(inputs, outputs, kwargs, ctx, primary, op).context[outputs[i].name] == AsTuple(call.value)[i]
  {
    var call := op(ctx[PrimarySources(inputs, primary)[0]], CollectKwargs(kwargs, inputs, primary, ctx));
    WriteOutputsSpec(ctx, outputs, AsTuple(call.value));
  }
}
