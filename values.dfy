/** Values, property descriptors, closures and the object store that
    `monkeyPatchProp` inspects and rewrites. */
module Values {

  /** Identity of an object in the store. */
  type ObjId = nat

  /** A property key; string and symbol keys are not told apart. */
  type Key = string

  /** A closure variable: the private `_value` cell that a patched data
      property is moved into, or a variable of the caller that a hook writes. */
  type CellId = nat

  /** `Object.prototype`, the object at the top of every ordinary prototype chain. */
  const ObjectPrototype: ObjId := 0

  datatype Value = Undefined | Bool(b: bool) | Str(s: string) | Ref(id: ObjId)

  datatype Option<T> = None | Some(value: T)

  /** Which of the three `MonkeyPatchError`s was raised: the patch-time one
      (no message) or one of the two raised by a missing original accessor. */
  datatype Reason = NotPatchable | NoGetAccessor | NoSetAccessor

  /** `MonkeyPatchError`, the host's `TypeError`, and behaviour this model does
      not follow (see `FieldGet`/`FieldSet`). */
  datatype Error = MonkeyPatchError(reason: Reason) | TypeError | OutsideModel

  datatype Result<T> = Ok(value: T) | Err(error: Error)

  datatype Outcome = Pass | Fail(error: Error)

  /** The `get` hooks callers pass: return a constant, or (after setting a
      `called` flag, when one is given) return `origGetter()`. */
  datatype ReadHook = Constant(v: Value) | Delegate(flag: Option<CellId>)

  /** The `set` hooks callers pass: drop the value, hand it to `origSetter`
      (both optionally setting a `called` flag first), or store it in a
      variable of the caller. */
  datatype WriteHook =
    | Suppress(flag: Option<CellId>)
    | Forward(flag: Option<CellId>)
    | RecordTo(cell: CellId)

  /** `MonkeyPatchPropParams`: both hooks are optional. */
  datatype Params = Params(onGet: Option<ReadHook>, onSet: Option<WriteHook>)

  /** The functions that can stand in a property's `get`/`set` slot. */
  datatype Fn =
      /** `function () { return this.<field>; }` */
    | FieldGet(field: Key)
      /** `function (v) { this.<field> = v; }` */
    | FieldSet(field: Key)
      /** `() => _value` */
    | CellGet(cell: CellId)
      /** `(value) => { _value = value; }` */
    | CellSet(cell: CellId)
      /** `() => { throw new MonkeyPatchError(...); }` */
    | Throw(reason: Reason)
      /** `target.bind(receiver)` */
    | Bound(target: Fn, receiver: Value)
      /** the `get` arrow function that `monkeyPatchProp` installs */
    | PatchedGet(layer: Layer)
      /** the `set` arrow function that `monkeyPatchProp` installs */
    | PatchedSet(layer: Layer)

  /** What the installed pair closes over: the caller's hooks and the
      normalised original getter and setter. */
  datatype Layer = Layer(params: Params, origGetter: Fn, origSetter: Fn)

  /** A property descriptor: a data property or an accessor property with
      zero, one or two halves. */
  datatype Descriptor =
    | Data(value: Value, configurable: bool)
    | Accessor(getter: Option<Fn>, setter: Option<Fn>, configurable: bool)

  /** The heap: each object's own property table, each object's prototype
      (absent means `null`), and the closure variables. */
  datatype Store = Store(
    props: map<ObjId, map<Key, Descriptor>>,
    protos: map<ObjId, ObjId>,
    cells: seq<Value>)

  /** A normal completion of a call: the returned value and the heap after it. */
  datatype Completion = Completion(value: Value, store: Store)
}
