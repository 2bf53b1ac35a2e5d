/** `monkeyPatchProp`: find the property on the prototype chain, refuse it
    when it is missing or not configurable, turn it into an original getter
    and setter, and install an accessor pair that runs the caller's hooks
    over those originals. */
module Interceptor {
  import opened Values
  import opened Runtime

  /** What the lookup loop finds: the own descriptor of the first object
      on the chain from `o` that has `k`, where the walk ends at `null` or
      at `Object.prototype`, which it never inspects. */
  function PatchLookup(s: Store, o: Option<ObjId>, k: Key): (r: Option<Descriptor>)
    requires WellFormed(s)
    ensures r.Some? ==> exists x :: x in Chain(s, o) && k in s.props[x] && r.value == s.props[x][k]
    ensures r.None? ==> forall x :: x in Chain(s, o) ==> k !in s.props[x]
    decreases Height(s, o)
  {
    if o.None? || o.value == ObjectPrototype || o.value !in s.props then None
    else if k in s.props[o.value] then Some(s.props[o.value][k])
    else PatchLookup(s, Parent(s, o.value), k)
  }

  /** The objects the lookup loop visits, in order. */
  function Chain(s: Store, o: Option<ObjId>): (c: seq<ObjId>)
    requires WellFormed(s)
    ensures ObjectPrototype !in c
    ensures forall i :: 0 <= i < |c| ==> c[i] in s.props
    ensures c == [] <==> (o.None? || o.value == ObjectPrototype || o.value !in s.props)
    ensures c != [] ==> c[0] == o.value
    ensures forall i :: 0 <= i < |c| - 1 ==> Parent(s, c[i]) == Some(c[i + 1])
    ensures c != [] ==> var p := Parent(s, c[|c| - 1]); p.None? || p.value == ObjectPrototype
    decreases Height(s, o)
  {
    if o.None? || o.value == ObjectPrototype || o.value !in s.props then []
    else [o.value] + Chain(s, Parent(s, o.value))
  }

  /** The guard: nothing was found, or what was found is not configurable. */
  predicate Unpatchable(desc: Option<Descriptor>)
  {
    desc.None? || !desc.value.configurable
  }

  /** `desc.get == null && desc.set == null`: a data property, or an
      accessor property with neither half. */
  predicate HasNoAccessors(d: Descriptor)
  {
    d.Data? || (d.getter.None? && d.setter.None?)
  }

  /** `desc.value`, which is `undefined` on an accessor descriptor. */
  function ValueOf(d: Descriptor): Value
  {
    if d.Data? then d.value else Undefined
  }

  datatype OriginalAccess = OriginalAccess(getter: Fn, setter: Fn)

  /** The original getter and setter made from the descriptor found: the
      private variable `cell` for a property without accessors, otherwise the
      existing halves bound to `obj`, and a throwing thunk for a missing half. */
  function Normalise(d: Descriptor, obj: ObjId, cell: CellId): (r: OriginalAccess)
  {
    if HasNoAccessors(d) then OriginalAccess(CellGet(cell), CellSet(cell))
    else
      OriginalAccess(
        if d.getter.Some? then Bound(d.getter.value, Ref(obj)) else Throw(NoGetAccessor),
        if d.setter.Some? then Bound(d.setter.value, Ref(obj)) else Throw(NoSetAccessor))
  }

  /** The whole of `monkeyPatchProp(obj, key, params)` as a function of the heap. */
  function Patch(s: Store, obj: ObjId, key: Key, params: Params): (r: Result<Store>)
    requires WellFormed(s) && obj in s.props
    ensures r.Err? <==> Unpatchable(PatchLookup(s, Some(obj), key))
    ensures r.Err? ==> r.error == MonkeyPatchError(NotPatchable)
    ensures r.Ok? ==> WellFormed(r.value) && r.value.protos == s.protos
    ensures r.Ok? ==> obj in r.value.props && key in r.value.props[obj]
    ensures r.Ok? ==> r.value.props == s.props[obj := s.props[obj][key := r.value.props[obj][key]]]
    ensures r.Ok? ==> s.cells <= r.value.cells && |r.value.cells| <= |s.cells| + 1
  {
    var desc := PatchLookup(s, Some(obj), key);
    if Unpatchable(desc) then Err(MonkeyPatchError(NotPatchable))
    else
      var d := desc.value;
      var cells := if HasNoAccessors(d) then s.cells + [ValueOf(d)] else s.cells;
      var original := Normalise(d, obj, |s.cells|);
      var layer := Layer(params, original.getter, original.setter);
      // the guard has ruled out a non-configurable own property, so
      // defineProperty cannot throw here
      var own := DefineOwnAccessor(s.props[obj], key, PatchedGet(layer), PatchedSet(layer));
      Ok(Store(s.props[obj := own.value], s.protos, cells))
  }

  /** The heap of a JavaScript realm, as far as `monkeyPatchProp` sees it. */
  class Realm {
    var props: map<ObjId, map<Key, Descriptor>>
    var protos: map<ObjId, ObjId>
    var cells: seq<Value>

    function State(): Store
      reads this
    {
      Store(props, protos, cells)
    }

    ghost predicate Valid()
      reads this
    {
      WellFormed(State())
    }

    constructor (s: Store)
      requires WellFormed(s)
      ensures Valid() && State() == s
    {
      props, protos, cells := s.props, s.protos, s.cells;
    }

    /** The lookup loop: walk from `obj` until `null` or `Object.prototype`,
        stopping at the first own descriptor for `key`. */
    method FindDescriptor(obj: ObjId, key: Key) returns (desc: Option<Descriptor>)
      requires Valid() && obj in props
      ensures desc == PatchLookup(State(), Some(obj), key)
    {
      var o: Option<ObjId> := Some(obj);
      desc := None;
      while o.Some? && o.value != ObjectPrototype
        invariant o.Some? ==> o.value in props
        invariant desc.None?
        invariant PatchLookup(State(), o, key) == PatchLookup(State(), Some(obj), key)
        decreases Height(State(), o)
      {
        // Object.getOwnPropertyDescriptor(o, key)
        desc := if key in props[o.value] then Some(props[o.value][key]) else None;
        if desc.Some? {
          break;
        }
        // Object.getPrototypeOf(o)
        o := Parent(State(), o.value);
      }
    }

    /** `monkeyPatchProp(obj, key, params)`. On failure nothing changes; on
        success `obj`'s own `key` is the installed accessor pair. */
    method MonkeyPatchProp(obj: ObjId, key: Key, params: Params) returns (r: Outcome)
      requires Valid() && obj in props
      modifies this
      ensures Valid()
      ensures r.Fail? ==> State() == old(State())
      ensures Patch(old(State()), obj, key, params) == if r.Pass? then Ok(State()) else Err(r.error)
    {
      var desc := FindDescriptor(obj, key);
      if desc.None? || !desc.value.configurable {
        return Fail(MonkeyPatchError(NotPatchable));
      }
      var d := desc.value;
      var cell := |cells|;
      if HasNoAccessors(d) {
        // `let _value = desc.value`
        cells := cells + [ValueOf(d)];
      }
      var original := Normalise(d, obj, cell);
      var layer := Layer(params, original.getter, original.setter);
      var own := DefineOwnAccessor(props[obj], key, PatchedGet(layer), PatchedSet(layer));
      props := props[obj := own.value];
      r := Pass;
    }
  }
}
