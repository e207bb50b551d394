# dtlpy pipeline steps and package inputs, in Dafny

This project models three deterministic pieces of the dtlpy client SDK.

- **The pipeline step interpreter.** `ItemsGetStep` and `AnnotationsGetBatchStep` each hold a
  descriptor: declared inputs (`name` read from context key `from`), `kwargs`, `args` and declared
  outputs. `execute(pipeline_dict)` works on the shared pipeline context, a dict it changes in place:
  1. It checks that every input's `from` key is present.
  2. It requires exactly one input with the step's primary name (`dataset` or `items`).
  3. It copies every other input into the step's own `kwargs`.
  4. It makes one collaborator call: `dataset.items.get(**kwargs)`, or `item.annotations.list()` for
     each item.
  5. It wraps a non-tuple result into a 1-tuple.
  6. It writes result `i` under the name of output `i`, in order, and returns the same dict.

  The context is a class (`PipelineContext`) with a `map<string, Value>` field. Each step is a class
  whose `Execute` method changes that field and its own `kwargs`. `Execute` is proved against
  `PipelineSteps.RunStep`, a function of the old state, and the properties are lemmas about
  `RunStep` and its parts.
- **`PackageInput` validation.** This covers the default name, the `type`, `value` and `name`
  validators, which attrs runs in field order, and the `to_json`/`from_json` forms. These are
  functions that return an `Outcome` or a `Result` in place of raising `PlatformException`.
- **`Package.mockify` selection.** It picks a module and a function by optional name, with
  400/404 errors, and builds the mock record from placeholder values (`_mockify_input`).

Python values are the datatype `Values.Value`. Dict keys are values too, so a `None` name is
representable. `Entity` stands for a platform object (dataset, item) with no JSON form.

The two collaborator calls are function-typed parameters of `Execute`:
- `dataset.items.get(**kwargs)` is an `Operation` from the primary object and keyword arguments to
  a `CallResult`, which is either a returned value or a raised error.
- `item.annotations.list()` is a function from an item to a `CallResult`.

Their bodies are network calls and are not modelled.

## Model

| member | source | states |
|---|---|---|
| `PackageInputs.SetName` | dtlpy/entities/package.py:311-320 | the default name is the entity type's word in lower case (`item`, `dataset`, `annotation`) and `config` for every other type |
| `PackageInputs.CheckType` | dtlpy/entities/package.py:341-345 | a type passes exactly when it is one of `Json`, `Dataset`, `Item`, `Annotation`; otherwise a 400 error |
| `PackageInputs.CheckName` | dtlpy/entities/package.py:323-338 | for an entity type the name passes iff it equals the lower-case type word, for any other type every name passes; a failure is a 400 naming the required word (corrected message, see Findings) |
| `PackageInputs.CheckNameAsWritten` | dtlpy/entities/package.py:323-338 | the validator as written accepts exactly the names `CheckName` accepts; otherwise it fails with a 400 asking for the lower-case type word, or for `dataset` when the type is `Annotation` |
| `PackageInputs.AnnotationNameMessage` | dtlpy/entities/package.py:333-335 | as written, a misnamed `Annotation` input is told its expected name is `dataset`, a name the same validator rejects; corrected, it is told `annotation`, which passes |
| `PackageInputs.SuggestedNameAccepted` | dtlpy/entities/package.py:323-338 | whenever the corrected name validator fails, the name its error asks for passes it |
| `PackageInputs.CheckValue` | dtlpy/entities/package.py:357-395 | `None` always passes; `Json` passes iff serialisable; `Dataset`/`Item`/`Annotation` pass iff the value is a dict holding `dataset_id` / plus `item_id` / plus `annotation_id`; unknown types pass; failure is a 400 |
| `PackageInputs.Create` | dtlpy/entities/package.py:304-320 | building succeeds iff the type is valid and the value and the name (default when none is given) pass; a bad type is reported first, then a bad value, then a bad name with the as-written message; the result is valid and holds the given fields |
| `PackageInputs.DefaultNameAccepted` | dtlpy/entities/package.py:311-338 | the default name passes the name validator for every type |
| `PackageInputs.CreateWithDefaults` | dtlpy/entities/package.py:307-320 | every valid type with no value and no name builds, named by default |
| `PackageInputs.EntityNameMismatch` | dtlpy/entities/package.py:323-338 | an entity-typed input with a valid value and a name other than its default fails with a 400 asking for the lower-case type word, or for `dataset` when the type is `Annotation` |
| `Values.AsDictValue` | dtlpy/entities/package.py:399 | the `attr.asdict` copy of a value holds no tuple outside dict keys, leaves a tuple-free value unchanged, keeps dict keys as they are (see Left out), and is serialisable iff the original is |
| `PackageInputs.ToJson` | dtlpy/entities/package.py:397-407 | `execution` gives the single entry `{name: value}` and raises on an unhashable name (a list, a dict, a platform object, or a tuple holding one); `package` gives the three attribute keys holding the `asdict` copies of type, value and name; any other resource is a 400 error |
| `PackageInputs.FromJson` | dtlpy/entities/package.py:409-415 | reading succeeds iff the input made of the dict's `type`, `value` and `name` (`None` when absent) is valid, and then it is that input; an invalid type is a 400 |
| `PackageInputs.AsDictKeepsValid` | dtlpy/entities/package.py:399 | replacing a valid input's value and name by their `asdict` copies keeps it valid |
| `PackageInputs.PackageJsonRoundTrip` | dtlpy/entities/package.py:397-415 | reading back the `package` form of a valid input gives the input with its value and name as `asdict` copied them; a tuple-free input reads back unchanged, and the input read back round-trips exactly |
| `PackageInputs.TupleReadsBackAsList` | dtlpy/entities/package.py:399 | the valid `Json` input with value `(1,)` reads back from its `package` form with value `[1]`, not as itself |
| `PackageInputs.UnhashableNameHasNoExecutionForm` | dtlpy/entities/package.py:400-403 | a `Json` input named by a list or by a platform object is valid, but its `execution` form raises |
| `PackageInputs.FromJsonWithoutName` | dtlpy/entities/package.py:409-415 | a dict without `name` cannot be read back for an entity type (the as-written 400 on the name), although building that input without a name succeeds |
| `PackageMock.MockifyInput` | dtlpy/entities/package.py:254-263 | the placeholder is a dict mapping exactly the type's required id keys to `id` |
| `PackageMock.MockValueAccepted` | dtlpy/entities/package.py:255-263 | the placeholder for any type passes that type's value validator |
| `PackageMock.FirstMatch` | dtlpy/entities/package.py:275-278 | a filtering comprehension followed by `[0]` picks the first matching index; none matches iff no element satisfies the test |
| `PackageMock.SelectModule` | dtlpy/entities/package.py:269-278 | no name and no modules is a 400; no name picks the first module; an unknown name is a 404; a known name picks the first module of that name |
| `PackageMock.SelectFunction` | dtlpy/entities/package.py:280-290 | no name and no functions is a 400; no name picks the first function; an unknown name is a 404; a known name picks the first function of that name |
| `PackageMock.Select` | dtlpy/entities/package.py:269-290 | the module is chosen first and its error is reported before any function error; the function is looked up in the chosen module; a selection is a module of the package and one of its functions |
| `PackageMock.ConfigOfAccepted` | dtlpy/entities/package.py:296 | each config entry is the placeholder of the last init input of that name and passes that input's value validator |
| `PackageMock.ConfigOfKeys` | dtlpy/entities/package.py:296 | the config mock has exactly one key per init input name, names compared as `Value`s (see Left out) |
| `PackageMock.InputsOfAccepted` | dtlpy/entities/package.py:297-298 | the inputs mock has one entry per function input, in order, each naming its input and carrying a value its type accepts |
| `PackageMock.FirstUnhashable` | dtlpy/entities/package.py:296 | the config comprehension raises at the first init input whose name cannot be hashed; none is found iff every name can be |
| `PackageMock.UnhashableInitNameRaises` | dtlpy/entities/package.py:296 | a module with a valid `Json` init input named by a list has no mock: `mockify` raises on that name |
| `PackageMock.MockifyAsWritten` | dtlpy/entities/package.py:265-298 | as written: a failed selection is reported unchanged; past the selection it raises iff some module, in any position, has an init input with an unhashable name, reporting the first such name of the first such module; otherwise the mock holds the chosen function but the name and config of the last module |
| `PackageMock.Mockify` | dtlpy/entities/package.py:265-298 | corrected: a failed selection is reported unchanged; past the selection it raises iff the selected module has an init input with an unhashable name, reporting the first one; otherwise the mock names the selected module and function, its `config` is that module's config mock (one placeholder per init input name) and its `inputs` the chosen function's input mocks |
| `PackageMock.LastModuleWins` | dtlpy/entities/package.py:292-298 | for modules `a` and `b`, asking for `a`: the as-written mock names `b`, the corrected one `a` |
| `PipelineSteps.FirstMissing` | dtlpy/pipelines/steps/items_get_step.py:27-30 | no key is reported iff every input's `from` key is present; a reported key is absent and belongs to the first input whose key is absent |
| `PipelineSteps.CheckInputs` | dtlpy/pipelines/steps/items_get_step.py:28-30 | the presence loop stops at, and reports, the first input whose key is absent |
| `PipelineSteps.PrimarySources` | dtlpy/pipelines/steps/items_get_step.py:33 | the primary sources are `from` keys of declared inputs, at most one per input |
| `PipelineSteps.PrimarySourcesSingle` | dtlpy/pipelines/steps/items_get_step.py:33-36 | the `ValueError` check passes iff exactly one input carries the primary name, and then the primary object is read from that input's key |
| `PipelineSteps.CollectKwargsSpec` | dtlpy/pipelines/steps/items_get_step.py:39-45 | afterwards `kwargs` keeps its old entries, adds one per non-primary input name, and each such name maps to `context[from]` of the last input of that name |
| `PipelineSteps.WriteOutputsOverlay` | dtlpy/pipelines/steps/items_get_step.py:54-55 | writing the outputs overlays the context with a map whose keys are exactly the output names and which does not depend on the context |
| `PipelineSteps.WriteOutputsSpec` | dtlpy/pipelines/steps/items_get_step.py:54-55 | afterwards the keys are the old ones plus the output names; each output name holds the result of the last output of that name; other keys keep their values |
| `PipelineSteps.RerunOverwrites` | dtlpy/pipelines/steps/items_get_step.py:55 | writing the outputs a second time gives what writing only the second results gives: nothing accumulates |
| `PipelineSteps.PipelineContext.StoreResults` | dtlpy/pipelines/steps/items_get_step.py:50-55 | the output loop writes in order; when the results run out, the earlier outputs are written and index `len(results)` raises |
| `PipelineSteps.AsTuple` | dtlpy/pipelines/steps/items_get_step.py:51-53 | the results are a returned tuple's elements, or the returned value alone when it is not a tuple |
| `PipelineSteps.RunStep` | dtlpy/pipelines/steps/items_get_step.py:26-56 | only declared output names change; a missing input key fails, naming the key of the first declared input whose key is absent, before any change to context or kwargs; a primary-name count other than one fails with no change; past the checks kwargs are collected, a raising call leaves the context unchanged and passes its error on, and too few results raise at index `len(results)` after the outputs before it are written, and enough results make the run succeed with every output written; success adds exactly the output names |
| `PipelineSteps.RunStepOutputs` | dtlpy/pipelines/steps/items_get_step.py:50-56 | a successful run passed both checks, got a result with at least as many elements as outputs, left `kwargs` as collected, and stores result `i` under the last output of each name |
| `ItemsGet.ItemsGetStep.constructor` | dtlpy/pipelines/steps/items_get_step.py:10-24 | a given descriptor is adopted verbatim; without one, inputs `dataset<-dataset`, `item_id<-item_id`, empty kwargs and args, output `item` |
| `ItemsGet.ItemsGetStep.Execute` | dtlpy/pipelines/steps/items_get_step.py:26-56 | the new context and the step's new `kwargs` are those of `RunStep` with primary `dataset` and the `items.get` call; success returns the same context object, failure the step's error |
| `ItemsGet.DefaultRun` | dtlpy/pipelines/steps/items_get_step.py:14-56 | with the default descriptor, `{dataset: ds, item_id: x}` gains `item` = `ds.items.get(item_id=x)` and kwargs becomes `{item_id: x}` |
| `ItemsGet.DefaultRunWithoutDataset` | dtlpy/pipelines/steps/items_get_step.py:28-30 | with the default descriptor and no `dataset` key, execution fails on `dataset` and nothing changes |
| `ItemsGet.ShortResultRaises` | dtlpy/pipelines/steps/items_get_step.py:51-55 | with two declared outputs and a 1-tuple result, the first output is written and indexing raises at 1 |
| `AnnotationsGetBatch.Elements` | dtlpy/pipelines/steps/annotations_get_batch_step.py:49 | a list or tuple is walked element by element, a string character by character; other values are not iterated |
| `AnnotationsGetBatch.EmptyStringGivesNoAnnotations` | dtlpy/pipelines/steps/annotations_get_batch_step.py:48-50 | an empty string as the items gives the empty list of annotation lists |
| `AnnotationsGetBatch.ListEach` | dtlpy/pipelines/steps/annotations_get_batch_step.py:48-50 | if every per-item call returns, the list has one entry per item, in item order, entry `k` being item `k`'s annotations; otherwise the first raising call's error propagates |
| `AnnotationsGetBatch.ListAnnotations` | dtlpy/pipelines/steps/annotations_get_batch_step.py:47-50 | the append loop yields exactly the batch result: a value that is not iterated raises, else the per-item results as above |
| `AnnotationsGetBatch.AnnotationsGetBatchStep.constructor` | dtlpy/pipelines/steps/annotations_get_batch_step.py:10-23 | a given descriptor is adopted verbatim; without one, input `items<-items`, empty kwargs and args, output `annotations` of type `list` |
| `AnnotationsGetBatch.AnnotationsGetBatchStep.Execute` | dtlpy/pipelines/steps/annotations_get_batch_step.py:25-58 | the new context and `kwargs` are those of `RunStep` with primary `items` and the batch call; success returns the same context object |
| `AnnotationsGetBatch.KwargsUnused` | dtlpy/pipelines/steps/annotations_get_batch_step.py:39-50 | the context and the error a run leaves do not depend on the step's `kwargs`: they are collected but not passed to the per-item call |
| `AnnotationsGetBatch.OneOutputOnly` | dtlpy/pipelines/steps/annotations_get_batch_step.py:52-57 | with two or more declared outputs, a run whose checks pass and whose batch call returns raises on index 1 after storing the list under the first output |
| `AnnotationsGetBatch.RunStoresAnnotations` | dtlpy/pipelines/steps/annotations_get_batch_step.py:46-58 | a successful run has at most one output, and stores there one annotation list per item, in item order |
| `AnnotationsGetBatch.DefaultRun` | dtlpy/pipelines/steps/annotations_get_batch_step.py:14-58 | with the default descriptor, `{items: [i1, i2]}` gains `annotations: [i1.annotations.list(), i2.annotations.list()]` |

## Findings

| source | as written | input that shows it | evidently intended | confidence | as-written member | corrected member |
|---|---|---|---|---|---|---|
| dtlpy/entities/package.py:333-334 | a misnamed `Annotation` input is told its expected name is `dataset` | `PackageInput(type='Annotation', name='annotations')` | the message names `annotation`, the only name accepted | high; not executed | `PackageInputs.CheckNameAsWritten`, `PackageInputs.AnnotationNameMessage` | `PackageInputs.CheckName`, `PackageInputs.SuggestedNameAccepted` |
| dtlpy/entities/package.py:292-298 | the mock loop runs over every module and rewrites the same keys, so `module_name` and `config` come from the last module | modules `a` (with function `run`) and `b`, `mockify(module_name='a')` gives `module_name: 'b'` | the mock describes the selected module | medium; not executed | `PackageMock.MockifyAsWritten`, `PackageMock.LastModuleWins` | `PackageMock.Mockify` |

## Left out

- Package network and repository methods (`deploy`, `push`, `pull`, `update`, `checkout`, `delete`, `open_in_web`, the repositories tuple, `git_status`, `git_log`) are delegation to remote services.
- `Package.from_json` and `Package.to_json` depend on attrs reflection and on entity classes that are not part of this model. `PackageModule` and `PackageFunction` are reduced to the fields `mockify` reads.
- `mockify` is modelled without its `local_path` default (`os.getcwd()`) and without the `json.dump` to `mock.json`. The model returns the record that would be written.
- dtlpy/repositories/dpks.py is REST and filesystem glue and is not part of this model.
- `get_arguments` in both step files uses runtime signature reflection and is not modelled. Logging is not modelled.
- The base class `PipelineStep` and any executor that runs several steps in sequence are not part of this model.
- `IsJsonSerializable` stands in for `json.dumps` succeeding. It is defined structurally over `Value`, which has no floats and cannot express circular references.
- Error messages are modelled as the fields they interpolate (type, expected name, module or function name), not as formatted text.
- `Execute` models `self.kwargs` by value. When a descriptor is given, the source also mutates the caller's `step_dict['kwargs']` through the alias, and that is not captured.
- Descriptors are typed records. A `step_dict` or an input dict lacking a key, which raises `KeyError` in the source, is not modelled. `by`, `type` and `args` are carried but never consulted, as in the source.
- `AnnotationsGetBatch.Elements`, `AnnotationsGetBatch.ListAnnotations`: lists, tuples and strings are iterated. A dict primary raises `NotIterable` in the model, because `Value` keeps no key order. In the source, a dict is iterated over its keys in insertion order, so an empty dict gives `annotations: []`. Paged collections and other iterable platform objects are not iterated either.
- `PipelineSteps.RunStep`: the presence check is a Python `assert`, and `python -O` removes it. Without it, a missing non-primary key raises `KeyError` inside the kwargs loop after the earlier entries are already written into `self.kwargs`, and a missing primary key reads as `None` and fails later, at the collaborator call. The model assumes assertions are enabled, so its "fails before any change to kwargs" holds only then.
- `Values.AsDictValue`: a platform object inside an input's value is kept as it is. `attr.asdict` would expand an attrs-class entity into its field dict, and entity classes are not part of this model.
- `Values.AsDictValue`, `PackageInputs.ToJson`, `PackageInputs.PackageJsonRoundTrip`: dict keys inside an input's value are kept as they are. `attr.asdict` copies keys too. From attrs 21.3 on, a tuple key stays a tuple but its elements are copied as values, so a tuple nested in a tuple key becomes a list. The key is then unhashable and `to_json('package')` raises `TypeError`. Before 21.3, every tuple key became a list and raised. For such inputs, for example a `Dataset` value `{'dataset_id': 'x', (1, (2,)): 0}`, the model's `package` form succeeds and the round trip is claimed.
- `PackageMock.ConfigOfKeys`, `PackageMock.Mockify`, `PackageMock.MockifyAsWritten`: Python treats equal values of different types (`1` and `True`, `0` and `False`, and tuples of them) as the same dict key. `Value` keeps `Int(1)` and `Bool(true)` apart. So `Json` init inputs named `1` and `True` give two config keys in the model. In the source they give one key, `1`, holding the later placeholder.
- `PackageInputs.ToJson`, `Values.IsHashable`: every platform object counts as unhashable, as instances of attrs classes compared by value are. An entity class that defines its own `__hash__` is not told apart.
- `PackageInputs.FromJson` takes the dict itself. A non-dict argument, which fails on `.get` in the source, is not modelled.
- Attribute errors inside the collaborator calls (for example, a primary object without `.items`) are treated as errors of the collaborator call itself.
