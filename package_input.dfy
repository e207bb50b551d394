/** The `PackageInput` record of a package: its default name, and the three
    validators attrs runs when one is built (type, then value, then name), and its
    two JSON forms. */
module PackageInputs {
  import opened Values

  /** What a `PlatformException` reports: the fields its message interpolates. */
  datatype ErrorKind =
    | InvalidName(forType: Value, expectedName: string)
    | InvalidType
    | IllegalValue(forType: Value)
    | InvalidResource
    | NoModules
    | ModuleNotFound(moduleName: string)
    | NoFunctions(moduleName: string)
    | FunctionNotFound(functionName: string)

  datatype PlatformError = PlatformError(status: string, kind: ErrorKind)

  /** `PackageInput.INPUT_TYPES`, in its declared order. */
  const InputTypes: seq<string> := ["Json", "Dataset", "Item", "Annotation"]

  /** The types that stand for a platform entity and carry ids in their value. */
  const EntityTypes: set<string> := {"Dataset", "Item", "Annotation"}

  predicate IsInputType(t: Value) {
    t.Str? && t.s in InputTypes
  }

  predicate IsEntityType(t: Value) {
    t.Str? && t.s in EntityTypes
  }

  function LowerChar(c: char): char {
    if 'A' <= c <= 'Z' then (c as int - 'A' as int + 'a' as int) as char else c
  }

  /** ASCII lower case: the reference for "the name is the type word in lower case". */
  function Lower(s: string): string {
    seq(|s|, i requires 0 <= i < |s| => LowerChar(s[i]))
  }

  lemma LowerEntityWords()
    ensures Lower("Item") == "item"
    ensures Lower("Dataset") == "dataset"
    ensures Lower("Annotation") == "annotation"
  {
    assert Lower("Item") == "item" by {
      var w := Lower("Item");
      assert w[0] == 'i' && w[1] == 't' && w[2] == 'e' && w[3] == 'm';
    }
    assert Lower("Dataset") == "dataset" by {
      var w := Lower("Dataset");
      assert w[0] == 'd' && w[1] == 'a' && w[2] == 't' && w[3] == 'a';
      assert w[4] == 's' && w[5] == 'e' && w[6] == 't';
    }
    assert Lower("Annotation") == "annotation" by {
      var w := Lower("Annotation");
      assert w[0] == 'a' && w[1] == 'n' && w[2] == 'n' && w[3] == 'o' && w[4] == 't';
      assert w[5] == 'a' && w[6] == 't' && w[7] == 'i' && w[8] == 'o' && w[9] == 'n';
    }
  }

  /** The `name` default: the entity type's word in lower case, `config` for any other type. */
  function SetName(t: Value): (n: Value)
    ensures IsEntityType(t) ==> n == Str(Lower(t.s))
    ensures !IsEntityType(t) ==> n == Str("config")
  {
    LowerEntityWords();
    if t == Str("Item") then Str("item")
    else if t == Str("Dataset") then Str("dataset")
    else if t == Str("Annotation") then Str("annotation")
    else Str("config")
  }

  /** The `name` validator as it is meant: an entity type fixes the name, and the
      error tells which name it wants. */
  function CheckName(t: Value, n: Value): (r: Outcome<PlatformError>)
    ensures r.Pass? <==> (IsEntityType(t) ==> n == Str(Lower(t.s)))
    ensures r.Fail? ==> r.error.status == "400" && r.error.kind.InvalidName? && r.error.kind.forType == t
    ensures r.Fail? ==> r.error.kind.expectedName == Lower(t.s)
  {
    LowerEntityWords();
    if t == Str("Item") && n != Str("item") then
      Fail(PlatformError("400", InvalidName(t, "item")))
    else if t == Str("Dataset") && n != Str("dataset") then
      Fail(PlatformError("400", InvalidName(t, "dataset")))
    else if t == Str("Annotation") && n != Str("annotation") then
      Fail(PlatformError("400", InvalidName(t, "annotation")))
    else
      Pass
  }

  /** The `name` validator as written: it accepts and rejects the same names as
      `CheckName`, but for `Annotation` its message asks for `dataset`. */
  function CheckNameAsWritten(t: Value, n: Value): (r: Outcome<PlatformError>)
    ensures r.Pass? <==> CheckName(t, n).Pass?
    ensures r.Fail? ==> r.error.status == "400" && r.error.kind.InvalidName? && r.error.kind.forType == t
    ensures r.Fail? ==> r.error.kind.expectedName == ExpectedNameAsWritten(t)
  {
    LowerEntityWords();
    if t == Str("Item") && n != Str("item") then
      Fail(PlatformError("400", InvalidName(t, "item")))
    else if t == Str("Dataset") && n != Str("dataset") then
      Fail(PlatformError("400", InvalidName(t, "dataset")))
    else if t == Str("Annotation") && n != Str("annotation") then
      Fail(PlatformError("400", InvalidName(t, "dataset")))
    else
      Pass
  }

  /** The name the as-written message asks for: the type word in lower case,
      except `dataset` for `Annotation`. */
  function ExpectedNameAsWritten(t: Value): string
    requires t.Str?
  {
    if t == Str("Annotation") then "dataset" else Lower(t.s)
  }

  /** The message for a misnamed `Annotation` input suggests a name that the same
      validator rejects; the corrected validator suggests one it accepts. */
  lemma AnnotationNameMessage()
    ensures CheckNameAsWritten(Str("Annotation"), Str("annotations"))
         == Fail(PlatformError("400", InvalidName(Str("Annotation"), "dataset")))
    ensures CheckName(Str("Annotation"), Str("dataset")).Fail?
    ensures CheckName(Str("Annotation"), Str("annotations"))
         == Fail(PlatformError("400", InvalidName(Str("Annotation"), "annotation")))
    ensures CheckName(Str("Annotation"), Str("annotation")).Pass?
  {
    LowerEntityWords();
  }

  /** Whatever the type, the name the corrected validator asks for is one it accepts. */
  lemma {:induction false} SuggestedNameAccepted(t: Value, n: Value)
    requires CheckName(t, n).Fail?
    ensures CheckName(t, Str(CheckName(t, n).error.kind.expectedName)).Pass?
  {
  }

  /** The `type` validator. */
  function CheckType(t: Value): (r: Outcome<PlatformError>)
    ensures r.Pass? <==> t in {Str("Json"), Str("Dataset"), Str("Item"), Str("Annotation")}
    ensures r.Fail? ==> r.error == PlatformError("400", InvalidType)
  {
    if IsInputType(t) then Pass else Fail(PlatformError("400", InvalidType))
  }

  /** The id keys a value of an entity type must hold, as the messages of the
      `value` validator list them. */
  function RequiredKeys(t: Value): set<string> {
    if t == Str("Dataset") then {"dataset_id"}
    else if t == Str("Item") then {"dataset_id", "item_id"}
    else if t == Str("Annotation") then {"dataset_id", "item_id", "annotation_id"}
    else {}
  }

  predicate HasKeys(v: Value, keys: set<string>) {
    v.Dict? && forall k :: k in keys ==> Str(k) in v.entries
  }

  /** The `value` validator: `Json` needs a serialisable value, an entity type a
      dict holding its id keys, any other type anything; `None` always passes. */
  function CheckValue(t: Value, v: Value): (r: Outcome<PlatformError>)
    ensures v == Null ==> r.Pass?
    ensures IsEntityType(t) ==> (r.Pass? <==> v == Null || HasKeys(v, RequiredKeys(t)))
    ensures t == Str("Json") ==> (r.Pass? <==> IsJsonSerializable(v))
    ensures !IsInputType(t) ==> r.Pass?
    ensures r.Fail? ==> r.error == PlatformError("400", IllegalValue(t))
  {
    var ok :=
      if t == Str("Json") then
        IsJsonSerializable(v)
      else if t == Str("Dataset") then
        v.Dict? && Str("dataset_id") in v.entries
      else if t == Str("Item") then
        v.Dict? && Str("item_id") in v.entries && Str("dataset_id") in v.entries
      else if t == Str("Annotation") then
        v.Dict? && Str("item_id") in v.entries && Str("dataset_id") in v.entries
        && Str("annotation_id") in v.entries
      else
        true;
    if !ok && v != Null then Fail(PlatformError("400", IllegalValue(t))) else Pass
  }

  datatype PackageInput = PackageInput(inputType: Value, value: Value, name: Value)

  /** What every constructed `PackageInput` satisfies: all three validators pass. */
  predicate Valid(p: PackageInput) {
    && CheckType(p.inputType).Pass?
    && CheckValue(p.inputType, p.value).Pass?
    && CheckName(p.inputType, p.name).Pass?
  }

  function NameOrDefault(t: Value, name: Option<Value>): Value {
    if name.Some? then name.value else SetName(t)
  }

  /** `PackageInput(type=..., value=..., name=...)`: the default name when none is
      given, then the validators in field order; the first to raise wins. The
      name validator is the one as written, so a misnamed `Annotation` input is
      told to be named `dataset`. */
  function Create(t: Value, v: Value, name: Option<Value>): (r: Result<PackageInput, PlatformError>)
    ensures r.Success? <==> IsInputType(t) && CheckValue(t, v).Pass? && CheckName(t, NameOrDefault(t, name)).Pass?
    ensures r.Success? ==> Valid(r.value) && r.value == PackageInput(t, v, NameOrDefault(t, name))
    ensures !IsInputType(t) ==> r == Failure(PlatformError("400", InvalidType))
    ensures IsInputType(t) && v != Null && CheckValue(t, v).Fail? ==> r == Failure(PlatformError("400", IllegalValue(t)))
    ensures IsInputType(t) && CheckValue(t, v).Pass? && CheckName(t, NameOrDefault(t, name)).Fail? ==>
      r == Failure(PlatformError("400", InvalidName(t, ExpectedNameAsWritten(t))))
  {
    var n := NameOrDefault(t, name);
    match CheckType(t)
    case Fail(e) => Failure(e)
    case Pass =>
      match CheckValue(t, v)
      case Fail(e) => Failure(e)
      case Pass =>
        match CheckNameAsWritten(t, n)
        case Fail(e) => Failure(e)
        case Pass => Success(PackageInput(t, v, n))
  }

  /** The default name always passes the name validator. */
  lemma DefaultNameAccepted(t: Value)
    ensures CheckName(t, SetName(t)).Pass?
  {
  }

  /** Any input type with no value and no name yields an input named by default. */
  lemma CreateWithDefaults(t: Value)
    requires IsInputType(t)
    ensures Create(t, Null, None) == Success(PackageInput(t, Null, SetName(t)))
  {
    DefaultNameAccepted(t);
  }

  /** An entity-typed input built under a name other than its type word fails,
      and the error asks for the type word, except for `Annotation` where it asks
      for `dataset`. */
  lemma EntityNameMismatch(t: Value, v: Value, n: Value)
    requires IsEntityType(t) && CheckValue(t, v).Pass?
    requires n != SetName(t)
    ensures t != Str("Annotation") ==> Create(t, v, Some(n)) == Failure(PlatformError("400", InvalidName(t, Lower(t.s))))
    ensures t == Str("Annotation") ==> Create(t, v, Some(n)) == Failure(PlatformError("400", InvalidName(t, "dataset")))
  {
  }

  /** How `to_json` can raise: the `PlatformException` for an unknown resource,
      or the `TypeError` of a dict keyed by an unhashable name. */
  datatype ToJsonError = Rejected(error: PlatformError) | UnhashableName(name: Value)

  /** `to_json(resource)`: `package` gives the attribute dict as `attr.asdict`
      copies it (tuples become lists), `execution` the single entry from name to
      value, which needs a hashable name; anything else is a 400 error. */
  function ToJson(p: PackageInput, resource: string): (r: Result<Value, ToJsonError>)
    ensures r.Failure? <==> (resource != "package" && resource != "execution")
                            || (resource == "execution" && !IsHashable(p.name))
    ensures resource != "package" && resource != "execution" ==>
      r == Failure(Rejected(PlatformError("400", InvalidResource)))
    ensures resource == "execution" && !IsHashable(p.name) ==> r == Failure(UnhashableName(p.name))
    ensures resource == "execution" && r.Success? ==>
      r.value.Dict? && r.value.entries.Keys == {p.name} && r.value.entries[p.name] == p.value
    ensures resource == "package" ==>
      && r.Success? && r.value.Dict? && r.value.entries.Keys == {Str("type"), Str("value"), Str("name")}
      && (forall k :: k in r.value.entries ==> TupleFree(r.value.entries[k]))
      && r.value.entries[Str("type")] == AsDictValue(p.inputType)
      && r.value.entries[Str("value")] == AsDictValue(p.value)
      && r.value.entries[Str("name")] == AsDictValue(p.name)
  {
    if resource == "package" then
      Success(Dict(map[Str("type") := AsDictValue(p.inputType),
                       Str("value") := AsDictValue(p.value),
                       Str("name") := AsDictValue(p.name)]))
    else if resource == "execution" then
      if IsHashable(p.name) then Success(Dict(map[p.name := p.value]))
      else Failure(UnhashableName(p.name))
    else
      Failure(Rejected(PlatformError("400", InvalidResource)))
  }

  /** `dict.get(key, None)`. */
  function Get(j: map<Value, Value>, key: string): Value {
    if Str(key) in j then j[Str(key)] else Null
  }

  /** `from_json`: every field read with `None` as fallback and passed explicitly,
      so a missing name is `None`, not the default. */
  function FromJson(j: map<Value, Value>): (r: Result<PackageInput, PlatformError>)
    ensures r.Success? <==> Valid(PackageInput(Get(j, "type"), Get(j, "value"), Get(j, "name")))
    ensures r.Success? ==> r.value == PackageInput(Get(j, "type"), Get(j, "value"), Get(j, "name"))
    ensures !IsInputType(Get(j, "type")) ==> r == Failure(PlatformError("400", InvalidType))
  {
    Create(Get(j, "type"), Get(j, "value"), Some(Get(j, "name")))
  }

  /** The `attr.asdict` copy of a valid input's value and name is still valid. */
  lemma {:induction false} AsDictKeepsValid(p: PackageInput)
    requires Valid(p)
    ensures Valid(PackageInput(p.inputType, AsDictValue(p.value), AsDictValue(p.name)))
  {
    var v := AsDictValue(p.value);
    if IsEntityType(p.inputType) && p.value != Null {
      assert HasKeys(p.value, RequiredKeys(p.inputType));
      assert v.entries.Keys == p.value.entries.Keys;
    }
  }

  /** Reading back the `package` form of a valid input gives the same input with
      its value and name as `attr.asdict` copied them; an input free of tuples
      reads back unchanged, and the input read back then round-trips exactly. */
  lemma {:induction false} PackageJsonRoundTrip(p: PackageInput)
    requires Valid(p)
    ensures ToJson(p, "package").Success?
    ensures FromJson(ToJson(p, "package").value.entries)
         == Success(PackageInput(p.inputType, AsDictValue(p.value), AsDictValue(p.name)))
    ensures TupleFree(p.value) && TupleFree(p.name) ==> FromJson(ToJson(p, "package").value.entries) == Success(p)
    ensures var q := FromJson(ToJson(p, "package").value.entries).value;
            FromJson(ToJson(q, "package").value.entries) == Success(q)
  {
    var j := ToJson(p, "package").value.entries;
    assert Get(j, "type") == p.inputType;
    assert Get(j, "value") == AsDictValue(p.value);
    assert Get(j, "name") == AsDictValue(p.name);
    AsDictKeepsValid(p);
    var q := PackageInput(p.inputType, AsDictValue(p.value), AsDictValue(p.name));
    var k := ToJson(q, "package").value.entries;
    assert Get(k, "type") == q.inputType;
    assert Get(k, "value") == q.value;
    assert Get(k, "name") == q.name;
  }

  /** A `Json` input whose value is the tuple `(1,)` reads back with the list `[1]`. */
  lemma TupleReadsBackAsList()
    ensures var p := PackageInput(Str("Json"), Tuple([Int(1)]), Str("x"));
            && Valid(p)
            && FromJson(ToJson(p, "package").value.entries) == Success(PackageInput(Str("Json"), List([Int(1)]), Str("x")))
            && FromJson(ToJson(p, "package").value.entries) != Success(p)
  {
    var p := PackageInput(Str("Json"), Tuple([Int(1)]), Str("x"));
    assert IsJsonSerializable(Int(1));
    assert Valid(p);
    PackageJsonRoundTrip(p);
    assert AsDictValue(p.value) == List([Int(1)]);
  }

  /** A `Json` input may carry a list or a platform object as its name, and then
      it has no `execution` form. */
  lemma UnhashableNameHasNoExecutionForm()
    ensures var p := PackageInput(Str("Json"), Null, List([]));
            Valid(p) && ToJson(p, "execution") == Failure(UnhashableName(List([])))
    ensures var p := PackageInput(Str("Json"), Null, Entity(0));
            Valid(p) && ToJson(p, "execution") == Failure(UnhashableName(Entity(0)))
  {
  }

  /** Without a `name` key an entity-typed input cannot be read back, although
      building it without a name succeeds. */
  lemma FromJsonWithoutName(t: Value)
    requires IsEntityType(t)
    ensures FromJson(map[Str("type") := t]) == Failure(PlatformError("400", InvalidName(t, ExpectedNameAsWritten(t))))
    ensures Create(t, Null, None).Success?
  {
    var j := map[Str("type") := t];
    assert Get(j, "name") == Null && Get(j, "value") == Null;
    CreateWithDefaults(t);
  }
}
