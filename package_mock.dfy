/** `Package.mockify` without its file write: choose a module and a function by
    optional name, then build the mock record whose inputs are placeholder values
    of each input's type. */
module PackageMock {
  import opened Values
  import opened PackageInputs

  datatype PackageFunction = PackageFunction(name: string, inputs: seq<PackageInput>)

  datatype PackageModule = PackageModule(name: string, functions: seq<PackageFunction>, initInputs: seq<PackageInput>)

  datatype Package = Package(name: string, modules: seq<PackageModule>)

  /** The placeholder `_mockify_input` produces: each required id key of the type
      mapped to the string `id`. */
  function MockValue(t: Value): Value {
    Dict(map k | k in RequiredKeys(t) :: Str(k) := Str("id"))
  }

  /** `_mockify_input`: a fresh dict filled by the updates that match the type. */
  method MockifyInput(inputType: Value) returns (mock: Value)
    ensures mock == MockValue(inputType)
    ensures mock.Dict? && forall k :: k in mock.entries ==> mock.entries[k] == Str("id")
  {
    var json: map<Value, Value> := map[];
    if inputType == Str("Dataset") {
      json := json[Str("dataset_id") := Str("id")];
    }
    if inputType == Str("Item") {
      json := json[Str("item_id") := Str("id")][Str("dataset_id") := Str("id")];
    }
    if inputType == Str("Annotation") {
      json := json[Str("annotation_id") := Str("id")][Str("item_id") := Str("id")][Str("dataset_id") := Str("id")];
    }
    mock := Dict(json);
    assert json == MockValue(inputType).entries;
  }

  /** The placeholder for any type passes that type's value validator. */
  lemma {:induction false} MockValueAccepted(t: Value)
    ensures CheckValue(t, MockValue(t)).Pass?
  {
    var v := MockValue(t);
    if IsEntityType(t) {
      assert HasKeys(v, RequiredKeys(t)) by {
        forall k | k in RequiredKeys(t) ensures Str(k) in v.entries {
        }
      }
    } else if t == Str("Json") {
      assert v.entries == map[];
    }
  }

  /** Index of the first element satisfying `p`: what a filtering comprehension
      followed by `[0]` selects. */
  function FirstMatch<T>(s: seq<T>, p: T -> bool): (r: Option<nat>)
    ensures r.Some? ==> r.value < |s| && p(s[r.value]) && forall j :: 0 <= j < r.value ==> !p(s[j])
    ensures r.None? ==> forall j :: 0 <= j < |s| ==> !p(s[j])
  {
    if s == [] then None
    else if p(s[0]) then Some(0)
    else
      match FirstMatch(s[1..], p)
      case None => None
      case Some(i) => Some(i + 1)
  }

  /** The module `mockify` works on: the named one, or the first one when no name
      is given; 400 when there is nothing to default to, 404 when the name is unknown. */
  function SelectModule(pkg: Package, moduleName: Option<string>): (r: Result<PackageModule, PlatformError>)
    ensures moduleName.None? ==> (r.Failure? <==> pkg.modules == [])
    ensures moduleName.None? && r.Failure? ==> r.error == PlatformError("400", NoModules)
    ensures moduleName.None? && r.Success? ==> r.value == pkg.modules[0]
    ensures moduleName.Some? ==> (r.Failure? <==> forall i :: 0 <= i < |pkg.modules| ==> pkg.modules[i].name != moduleName.value)
    ensures moduleName.Some? && r.Failure? ==> r.error == PlatformError("404", ModuleNotFound(moduleName.value))
    ensures moduleName.Some? && r.Success? ==>
      exists i :: 0 <= i < |pkg.modules| && r.value == pkg.modules[i] && r.value.name == moduleName.value
        && forall j :: 0 <= j < i ==> pkg.modules[j].name != moduleName.value
    ensures r.Success? ==> pkg.modules != []
  {
    if moduleName.None? && pkg.modules == [] then
      Failure(PlatformError("400", NoModules))
    else
      var target := if moduleName.Some? then moduleName.value else pkg.modules[0].name;
      match FirstMatch(pkg.modules, (m: PackageModule) => m.name == target)
      case None => Failure(PlatformError("404", ModuleNotFound(target)))
      case Some(i) => Success(pkg.modules[i])
  }

  /** The function `mockify` works on within the chosen module: the named one, or
      the first; 400 for a module without functions, 404 for an unknown name. */
  function SelectFunction(owner: PackageModule, functionName: Option<string>): (r: Result<PackageFunction, PlatformError>)
    ensures functionName.None? ==> (r.Failure? <==> owner.functions == [])
    ensures functionName.None? && r.Failure? ==> r.error == PlatformError("400", NoFunctions(owner.name))
    ensures functionName.None? && r.Success? ==> r.value == owner.functions[0]
    ensures functionName.Some? ==>
      (r.Failure? <==> forall i :: 0 <= i < |owner.functions| ==> owner.functions[i].name != functionName.value)
    ensures functionName.Some? && r.Failure? ==> r.error == PlatformError("404", FunctionNotFound(functionName.value))
    ensures functionName.Some? && r.Success? ==>
      exists i :: 0 <= i < |owner.functions| && r.value == owner.functions[i] && r.value.name == functionName.value
        && forall j :: 0 <= j < i ==> owner.functions[j].name != functionName.value
  {
    if functionName.None? then
      if owner.functions != [] then Success(owner.functions[0])
      else Failure(PlatformError("400", NoFunctions(owner.name)))
    else
      match FirstMatch(owner.functions, (f: PackageFunction) => f.name == functionName.value)
      case None => Failure(PlatformError("404", FunctionNotFound(functionName.value)))
      case Some(i) => Success(owner.functions[i])
  }

  /** Both selections in order: the function is looked up in the chosen module,
      and a module error is reported before any function error. */
  function Select(pkg: Package, moduleName: Option<string>, functionName: Option<string>)
    : (r: Result<(PackageModule, PackageFunction), PlatformError>)
    ensures SelectModule(pkg, moduleName).Failure? ==> r == Failure(SelectModule(pkg, moduleName).error)
    ensures SelectModule(pkg, moduleName).Success? ==>
      var owner := SelectModule(pkg, moduleName).value;
      && (r.Success? <==> SelectFunction(owner, functionName).Success?)
      && (r.Failure? ==> r.error == SelectFunction(owner, functionName).error)
      && (r.Success? ==> r.value.0 == owner && r.value.1 == SelectFunction(owner, functionName).value)
    ensures r.Success? ==> r.value.1 in r.value.0.functions && r.value.0 in pkg.modules
  {
    match SelectModule(pkg, moduleName)
    case Failure(e) => Failure(e)
    case Success(m) =>
      match SelectFunction(m, functionName)
      case Failure(e) => Failure(e)
      case Success(f) => Success((m, f))
  }

  /** How `mockify` can raise: the `PlatformException` of the selection, or the
      `TypeError` of a config dict keyed by an unhashable init-input name. */
  datatype MockifyError = Platform(error: PlatformError) | UnhashableConfigName(name: Value)

  /** Every input name can serve as a dict key. */
  predicate HashableNames(inputs: seq<PackageInput>) {
    forall i :: 0 <= i < |inputs| ==> IsHashable(inputs[i].name)
  }

  /** The first input whose name cannot be hashed: where building the config
      dict raises. */
  function FirstUnhashable(inputs: seq<PackageInput>): (r: Option<nat>)
    ensures r.None? <==> HashableNames(inputs)
    ensures r.Some? ==> r.value < |inputs| && !IsHashable(inputs[r.value].name)
    ensures r.Some? ==> forall j :: 0 <= j < r.value ==> IsHashable(inputs[j].name)
  {
    FirstMatch(inputs, (inpt: PackageInput) => !IsHashable(inpt.name))
  }

  /** `{inpt.name: _mockify_input(inpt.type) for inpt in inputs}`: a later input
      with the same name replaces an earlier one. */
  function ConfigOf(inputs: seq<PackageInput>): map<Value, Value> {
    if inputs == [] then map[]
    else
      var last := inputs[|inputs| - 1];
      ConfigOf(inputs[..|inputs| - 1])[last.name := MockValue(last.inputType)]
  }

  function InputMock(inpt: PackageInput): Value {
    Dict(map[Str("name") := inpt.name, Str("value") := MockValue(inpt.inputType)])
  }

  /** `[{'name': ..., 'value': _mockify_input(...)} for inpt in inputs]`. */
  function InputsOf(inputs: seq<PackageInput>): seq<Value> {
    seq(|inputs|, i requires 0 <= i < |inputs| => InputMock(inputs[i]))
  }

  /** The four entries one loop iteration writes into `mock`. */
  function MockEntries(owner: PackageModule, func: PackageFunction): map<Value, Value> {
    map[Str("module_name") := Str(owner.name),
        Str("function_name") := Str(func.name),
        Str("config") := Dict(ConfigOf(owner.initInputs)),
        Str("inputs") := List(InputsOf(func.inputs))]
  }

  /** Init input `i` is the last one named `k`. */
  predicate LastNamed(inputs: seq<PackageInput>, k: Value, i: int) {
    && 0 <= i < |inputs|
    && inputs[i].name == k
    && forall j :: i < j < |inputs| ==> inputs[j].name != k
  }

  /** Each entry of the config mock is the placeholder of the last init input of
      that name, so the value validator of that input's type accepts it. */
  lemma {:induction false} ConfigOfAccepted(inputs: seq<PackageInput>, k: Value)
    requires k in ConfigOf(inputs)
    ensures exists i :: (LastNamed(inputs, k, i)
                         && ConfigOf(inputs)[k] == MockValue(inputs[i].inputType)
                         && CheckValue(inputs[i].inputType, ConfigOf(inputs)[k]).Pass?)
  {
    var n := |inputs| - 1;
    var last := inputs[n];
    if k == last.name {
      MockValueAccepted(last.inputType);
      assert LastNamed(inputs, k, n);
    } else {
      var prefix := inputs[..n];
      ConfigOfAccepted(prefix, k);
      var i :| LastNamed(prefix, k, i)
        && ConfigOf(prefix)[k] == MockValue(prefix[i].inputType)
        && CheckValue(prefix[i].inputType, ConfigOf(prefix)[k]).Pass?;
      assert forall j :: 0 <= j < n ==> prefix[j] == inputs[j];
      assert LastNamed(inputs, k, i);
    }
  }

  /** Every init input's name is a key of the config mock. */
  lemma {:induction false} ConfigOfKeys(inputs: seq<PackageInput>)
    ensures ConfigOf(inputs).Keys == set i | 0 <= i < |inputs| :: inputs[i].name
  {
    if inputs != [] {
      var n := |inputs| - 1;
      ConfigOfKeys(inputs[..n]);
      assert forall i :: 0 <= i < n ==> inputs[..n][i] == inputs[i];
    }
  }

  /** Every function-input mock names its input and carries a value its type accepts. */
  lemma InputsOfAccepted(inputs: seq<PackageInput>, i: nat)
    requires i < |inputs|
    ensures |InputsOf(inputs)| == |inputs|
    ensures InputsOf(inputs)[i].entries[Str("name")] == inputs[i].name
    ensures CheckValue(inputs[i].inputType, InputsOf(inputs)[i].entries[Str("value")]).Pass?
  {
    MockValueAccepted(inputs[i].inputType);
  }

  /** Module `i` is the first whose init inputs have a name that cannot be hashed. */
  predicate FirstUnhashableModule(modules: seq<PackageModule>, i: int) {
    && 0 <= i < |modules|
    && !HashableNames(modules[i].initInputs)
    && forall j :: 0 <= j < i ==> HashableNames(modules[j].initInputs)
  }

  /** `mockify` as written: after choosing, it loops over ALL modules and rewrites
      the same four keys each time, so the mock names the last module and takes its
      config, while the function and its inputs are the chosen ones. Building the
      config of any module raises on an unhashable init-input name. */
  method MockifyAsWritten(pkg: Package, moduleName: Option<string>, functionName: Option<string>)
    returns (r: Result<map<Value, Value>, MockifyError>)
    ensures Select(pkg, moduleName, functionName).Failure? ==>
      r == Failure(Platform(Select(pkg, moduleName, functionName).error))
    ensures Select(pkg, moduleName, functionName).Success? ==>
      (r.Failure? <==> exists i :: 0 <= i < |pkg.modules| && !HashableNames(pkg.modules[i].initInputs))
    ensures Select(pkg, moduleName, functionName).Success? && r.Failure? ==>
      exists i :: FirstUnhashableModule(pkg.modules, i)
        && r.error == UnhashableConfigName(pkg.modules[i].initInputs[FirstUnhashable(pkg.modules[i].initInputs).value].name)
    ensures r.Success? ==> pkg.modules != [] && Select(pkg, moduleName, functionName).Success?
    ensures r.Success? ==>
      r.value == MockEntries(pkg.modules[|pkg.modules| - 1], Select(pkg, moduleName, functionName).value.1)
  {
    var selected := SelectModule(pkg, moduleName);
    if selected.Failure? {
      return Failure(Platform(selected.error));
    }
    var chosen := SelectFunction(selected.value, functionName);
    if chosen.Failure? {
      return Failure(Platform(chosen.error));
    }
    var func := chosen.value;
    var mock: map<Value, Value> := map[];
    var i := 0;
    while i < |pkg.modules|
      invariant 0 <= i <= |pkg.modules|
      invariant forall j :: 0 <= j < i ==> HashableNames(pkg.modules[j].initInputs)
      invariant i == 0 ==> mock == map[]
      invariant i > 0 ==> mock == MockEntries(pkg.modules[i - 1], func)
    {
      var current := pkg.modules[i];
      mock := mock[Str("module_name") := Str(current.name)];
      mock := mock[Str("function_name") := Str(func.name)];
      var bad := FirstUnhashable(current.initInputs);
      if bad.Some? {
        assert FirstUnhashableModule(pkg.modules, i);
        return Failure(UnhashableConfigName(current.initInputs[bad.value].name));
      }
      mock := mock[Str("config") := Dict(ConfigOf(current.initInputs))];
      mock := mock[Str("inputs") := List(InputsOf(func.inputs))];
      i := i + 1;
    }
    return Success(mock);
  }

  /** `mockify` as evidently intended: the mock describes the chosen module and
      function. */
  function Mockify(pkg: Package, moduleName: Option<string>, functionName: Option<string>)
    : (r: Result<map<Value, Value>, MockifyError>)
    ensures Select(pkg, moduleName, functionName).Failure? ==>
      r == Failure(Platform(Select(pkg, moduleName, functionName).error))
    ensures Select(pkg, moduleName, functionName).Success? ==>
      var inits := Select(pkg, moduleName, functionName).value.0.initInputs;
      && (r.Failure? <==> !HashableNames(inits))
      && (r.Failure? ==> r.error == UnhashableConfigName(inits[FirstUnhashable(inits).value].name))
    ensures r.Success? ==> Select(pkg, moduleName, functionName).Success?
    ensures r.Success? ==>
      r.value.Keys == {Str("module_name"), Str("function_name"), Str("config"), Str("inputs")}
    ensures r.Success? ==>
      && r.value[Str("config")] == Dict(ConfigOf(SelectModule(pkg, moduleName).value.initInputs))
      && r.value[Str("inputs")] == List(InputsOf(Select(pkg, moduleName, functionName).value.1.inputs))
    ensures r.Success? ==>
      && r.value[Str("module_name")] == Str(SelectModule(pkg, moduleName).value.name)
      && r.value[Str("function_name")] == Str(Select(pkg, moduleName, functionName).value.1.name)
      && r.value[Str("config")].Dict?
      && r.value[Str("config")].entries.Keys
         == (set i | 0 <= i < |SelectModule(pkg, moduleName).value.initInputs| :: SelectModule(pkg, moduleName).value.initInputs[i].name)
      && r.value[Str("inputs")].List?
      && |r.value[Str("inputs")].elems| == |Select(pkg, moduleName, functionName).value.1.inputs|
  {
    match Select(pkg, moduleName, functionName)
    case Failure(e) => Failure(Platform(e))
    case Success((m, f)) =>
      match FirstUnhashable(m.initInputs)
      case Some(i) => Failure(UnhashableConfigName(m.initInputs[i].name))
      case None =>
        ConfigOfKeys(m.initInputs);
        Success(MockEntries(m, f))
  }

  /** A module whose init input is named by a list has no mock: building its
      config raises. */
  lemma UnhashableInitNameRaises()
    ensures var run := PackageFunction("run", []);
            var a := PackageModule("a", [run], [PackageInput(Str("Json"), Null, List([]))]);
            var pkg := Package("p", [a]);
            && Valid(a.initInputs[0])
            && Mockify(pkg, None, None) == Failure(UnhashableConfigName(List([])))
  {
  }

  /** A package of two modules, asking for the first by name: the as-written mock
      names the second module, the corrected one the first. */
  lemma LastModuleWins()
    ensures var run := PackageFunction("run", []);
            var a := PackageModule("a", [run], []);
            var b := PackageModule("b", [], []);
            var pkg := Package("p", [a, b]);
            && Select(pkg, Some("a"), None) == Success((a, run))
            && MockEntries(pkg.modules[|pkg.modules| - 1], run)[Str("module_name")] == Str("b")
            && Mockify(pkg, Some("a"), None).Success?
            && Mockify(pkg, Some("a"), None).value[Str("module_name")] == Str("a")
  {
  }
}
