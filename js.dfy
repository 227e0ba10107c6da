/** The slice of JavaScript semantics the component classes rely on: values,
    truthiness, property reads and writes in strict mode, the `in` operator,
    `Array.prototype.flat(Infinity)`, and the exceptions these can throw.
    Numbers are integers (no NaN, no fractions); strict equality `===`
    against a primitive constant is Dafny `==`, because two primitives are
    `===` exactly when they are the same value. */
module Js {

  /** The prototype of an object: a plain object literal or an instance of
      one of the component classes. */
  datatype Proto = PlainObject | ActionRowProto | ButtonProto | MenuProto | MenuOptionProto

  datatype Value =
    | Undefined
    | Null
    | Bool(b: bool)
    | Num(n: int)
    | Str(s: string)
    | Arr(elems: seq<Value>)
    | Obj(proto: Proto, props: map<string, Value>)

  datatype JsError = TypeError | ReferenceError

  /** The completion of an expression that either yields a value or throws. */
  datatype Result<+T> = Ok(value: T) | Throw(error: JsError) {
    predicate IsFailure() { Throw? }
    function PropagateFailure<U>(): Result<U> requires Throw? { Throw(error) }
    function Extract(): T requires Ok? { value }
  }

  /** The state an object is left in by a method that may throw midway:
      `Abrupt` keeps every assignment made before the exception. */
  datatype Completion<S> = Normal(state: S) | Abrupt(state: S, error: JsError)

  datatype Option<+T> = None | Some(value: T)

  predicate IsObject(v: Value) { v.Arr? || v.Obj? }

  /** JavaScript's ToBoolean. */
  predicate Truthy(v: Value)
  {
    match v
    case Undefined => false
    case Null => false
    case Bool(b) => b
    case Num(n) => n != 0
    case Str(s) => s != ""
    case Arr(_) => true
    case Obj(_, _) => true
  }

  /** `v.key`: reading a property of `undefined` or `null` throws; an absent
      property reads as `undefined`. Arrays and strings expose only `length`
      among non-index keys. */
  function Get(v: Value, key: string): (r: Result<Value>)
    ensures r.Throw? <==> v.Undefined? || v.Null?
    ensures v.Obj? ==> r == Ok(if key in v.props then v.props[key] else Undefined)
  {
    match v
    case Undefined => Throw(TypeError)
    case Null => Throw(TypeError)
    case Obj(_, props) => Ok(if key in props then props[key] else Undefined)
    case Arr(elems) => Ok(if key == "length" then Num(|elems|) else Undefined)
    case Str(s) => Ok(if key == "length" then Num(|s|) else Undefined)
    case _ => Ok(Undefined)
  }

  /** `key in v`: throws unless `v` is an object. Only non-index keys are
      ever asked about, so an array answers for `length` alone. */
  function Has(v: Value, key: string): (r: Result<bool>)
    ensures r.Ok? <==> IsObject(v)
    ensures v.Obj? ==> r == Ok(key in v.props)
  {
    match v
    case Obj(_, props) => Ok(key in props)
    case Arr(_) => Ok(key == "length")
    case _ => Throw(TypeError)
  }

  /** The value of `v.key = x` on `v` in strict mode: assigning a property of
      a primitive throws. Named properties of arrays are not represented, so
      an array is returned as it was. */
  function Set(v: Value, key: string, x: Value): (r: Result<Value>)
    ensures r.Ok? <==> IsObject(v)
    ensures v.Obj? ==> r == Ok(Obj(v.proto, v.props[key := x]))
  {
    match v
    case Obj(proto, props) => Ok(Obj(proto, props[key := x]))
    case Arr(_) => Ok(v)
    case _ => Throw(TypeError)
  }

  /** A parameter with the default `= {}`: an omitted (`undefined`)
      argument becomes a fresh empty object. */
  function OrEmptyObject(v: Value): (r: Value)
    ensures v.Undefined? ==> r == Obj(PlainObject, map[])
    ensures !v.Undefined? ==> r == v
  {
    if v.Undefined? then Obj(PlainObject, map[]) else v
  }

  /** The property of a map-shaped object, `undefined` when absent; for
      `this.options` and the snapshots of `this`, which are always objects. */
  function Prop(props: map<string, Value>, key: string): Value
  {
    if key in props then props[key] else Undefined
  }

  /** The named properties of an object; arrays carry none in this model. */
  function OwnProps(v: Value): map<string, Value>
  {
    if v.Obj? then v.props else map[]
  }

  /** `vs.flat(Infinity)`: nested arrays are spliced in, at any depth. */
  function Flat(vs: seq<Value>): (r: seq<Value>)
    ensures forall i :: 0 <= i < |r| ==> !r[i].Arr?
  {
    if vs == [] then []
    else (if vs[0].Arr? then Flat(vs[0].elems) else [vs[0]]) + Flat(vs[1..])
  }

  /** Flattening distributes over concatenation. */
  lemma {:induction false} FlatAppend(a: seq<Value>, b: seq<Value>)
    ensures Flat(a + b) == Flat(a) + Flat(b)
  {
    if a == [] {
      assert a + b == b;
    } else {
      assert (a + b)[0] == a[0];
      assert (a + b)[1..] == a[1..] + b;
      FlatAppend(a[1..], b);
    }
  }

  /** A list without nested arrays is left as it is. */
  lemma {:induction false} FlatOfFlat(vs: seq<Value>)
    requires forall i :: 0 <= i < |vs| ==> !vs[i].Arr?
    ensures Flat(vs) == vs
  {
    if vs != [] {
      FlatOfFlat(vs[1..]);
    }
  }

  /** Flattening is idempotent. */
  lemma FlatIdempotent(vs: seq<Value>)
    ensures Flat(Flat(vs)) == Flat(vs)
  {
    FlatOfFlat(Flat(vs));
  }

  /** The functions of the repository and of its host library whose code is
      not part of this model. Every operation takes them as a parameter and
      assumes nothing about them beyond being total and side-effect free. */
  datatype Helpers = Helpers(
    /** `MessageComponentTypes[k]` from the constants module */
    typeTable: Value -> Value,
    /** `resolveType` from the utility module */
    resolveType: Value -> Value,
    /** `Util.resolveButton` */
    resolveButton: Value -> Value,
    /** the host library's `resolveString` */
    resolveString: Value -> Value,
    /** `resolveMenuOptions`, `resolveMaxValues`, `resolveMinValues`, each
        applied to a snapshot of the menu under construction */
    resolveMenuOptions: Value -> Value,
    resolveMaxValues: Value -> Value,
    resolveMinValues: Value -> Value,
    /** the fields `new MessageButton(data)` and `new MessageMenuOption(data)`
        store, and what their `toJSON` returns */
    buttonFields: Value -> map<string, Value>,
    optionFields: Value -> map<string, Value>,
    buttonJSON: map<string, Value> -> Value,
    optionJSON: map<string, Value> -> Value,
    /** the global `parseInt` */
    parseInt: Value -> Value
  )
}
