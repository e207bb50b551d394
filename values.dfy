/** Python-level values that flow through package inputs and the pipeline context,
    and the small failure-compatible wrappers the rest of the model returns. */
module Values {

  datatype Option<+T> = None | Some(value: T)

  datatype Result<+R, +E> = Success(value: R) | Failure(error: E)

  /** The outcome of a validator: it either returns or raises `error`. */
  datatype Outcome<+E> = Pass | Fail(error: E)

  /** A Python value. `Dict` keys are values themselves, as in Python (a `None` key
      is legal); `Entity` stands for a platform object (a dataset, an item, ...)
      that has identity but no JSON form. */
  datatype Value =
    | Null
    | Bool(b: bool)
    | Int(i: int)
    | Str(s: string)
    | List(elems: seq<Value>)
    | Tuple(items: seq<Value>)
    | Dict(entries: map<Value, Value>)
    | Entity(id: nat)

  /** Keys `json.dumps` accepts in a dict. */
  predicate IsJsonKey(k: Value) {
    k.Null? || k.Bool? || k.Int? || k.Str?
  }

  /** Whether `json.dumps(v)` succeeds: scalars, lists and tuples (written as JSON
      arrays) of serialisable values, and dicts with scalar keys and serialisable
      values. A platform object has no JSON form. */
  predicate IsJsonSerializable(v: Value)
    decreases v
  {
    match v
    case Null => true
    case Bool(_) => true
    case Int(_) => true
    case Str(_) => true
    case List(xs) => forall i :: 0 <= i < |xs| ==> IsJsonSerializable(xs[i])
    case Tuple(xs) => forall i :: 0 <= i < |xs| ==> IsJsonSerializable(xs[i])
    case Dict(m) => forall k :: k in m ==> IsJsonKey(k) && IsJsonSerializable(m[k])
    case Entity(_) => false
  }

  /** No tuple anywhere in the value outside dict keys: the shape `attr.asdict`
      leaves behind. */
  predicate TupleFree(v: Value)
    decreases v
  {
    match v
    case Tuple(_) => false
    case List(xs) => forall i :: 0 <= i < |xs| ==> TupleFree(xs[i])
    case Dict(m) => forall k :: k in m ==> TupleFree(m[k])
    case _ => true
  }

  /** How `attr.asdict` copies an attribute value (collection types not retained):
      every tuple or list becomes a list of copied elements, every dict a dict of
      copied values under the same keys, and anything else stays as it is. */
  function AsDictValue(v: Value): (r: Value)
    decreases v
    ensures TupleFree(r)
    ensures TupleFree(v) ==> r == v
    ensures IsJsonSerializable(r) <==> IsJsonSerializable(v)
    ensures r.Dict? <==> v.Dict?
    ensures r.Dict? ==> r.entries.Keys == v.entries.Keys
    ensures (v.List? || v.Tuple?) <==> r.List?
  {
    match v
    case List(xs) => List(AsDictElems(v, xs))
    case Tuple(xs) => List(AsDictElems(v, xs))
    case Dict(m) => Dict(AsDictEntries(v, m))
    case _ => v
  }

  /** The value-wise copy of a dict `v` whose entries are `m`. */
  function AsDictEntries(v: Value, m: map<Value, Value>): (r: map<Value, Value>)
    requires v == Dict(m)
    decreases v, 0
    ensures r.Keys == m.Keys
    ensures forall k :: k in m ==> TupleFree(r[k]) && (IsJsonSerializable(r[k]) <==> IsJsonSerializable(m[k]))
    ensures (forall k :: k in m ==> TupleFree(m[k])) ==> r == m
  {
    map k | k in m :: AsDictValue(m[k])
  }

  /** The element-wise copy of a list or tuple `v` whose elements are `xs`. */
  function AsDictElems(v: Value, xs: seq<Value>): (r: seq<Value>)
    requires v == List(xs) || v == Tuple(xs)
    decreases v, 0
    ensures |r| == |xs|
    ensures forall i :: 0 <= i < |xs| ==> r[i] == AsDictValue(xs[i])
    ensures forall i :: 0 <= i < |xs| ==> TupleFree(r[i]) && (IsJsonSerializable(r[i]) <==> IsJsonSerializable(xs[i]))
    ensures (forall i :: 0 <= i < |xs| ==> TupleFree(xs[i])) ==> r == xs
  {
    seq(|xs|, i requires 0 <= i < |xs| => AsDictValue(xs[i]))
  }

  /** Whether Python can hash the value, as a dict key must be: lists and dicts
      cannot be hashed, nor can a platform object (an attrs class compared by
      value, whose `__hash__` is therefore `None`); a tuple can when all its
      elements can. */
  predicate IsHashable(v: Value)
    decreases v
  {
    match v
    case List(_) => false
    case Dict(_) => false
    case Entity(_) => false
    case Tuple(xs) => forall i :: 0 <= i < |xs| ==> IsHashable(xs[i])
    case _ => true
  }
}
