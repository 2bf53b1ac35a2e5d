/** The host object model that `monkeyPatchProp` relies on: prototype
    chains, property lookup, `[[Get]]`, `[[Set]]`, `Object.defineProperty`,
    and the evaluation of the closures that can sit in accessor slots. */
module Runtime {
  import opened Values

  /** `rank` strictly decreases from every object to its prototype. */
  ghost predicate Ranked(protos: map<ObjId, ObjId>, rank: map<ObjId, nat>)
  {
    forall o :: o in protos ==> o in rank && protos[o] in rank && rank[protos[o]] < rank[o]
  }

  /** No prototype chain is circular (OrdinarySetPrototypeOf, section 10.1.2.1
      of ECMA-262, refuses to create a cycle). */
  ghost predicate Acyclic(protos: map<ObjId, ObjId>)
  {
    exists rank :: Ranked(protos, rank)
  }

  ghost function Rank(protos: map<ObjId, ObjId>): (rank: map<ObjId, nat>)
    requires Acyclic(protos)
    ensures Ranked(protos, rank)
  {
    var rank :| Ranked(protos, rank); rank
  }

  /** How many steps are left on the chain from `o`; the termination measure
      of every walk up a prototype chain. */
  ghost function Height(s: Store, o: Option<ObjId>): nat
    requires Acyclic(s.protos)
  {
    if o.None? then 0
    else if o.value in Rank(s.protos) then Rank(s.protos)[o.value] + 1
    else 1
  }

  /** A well-formed heap: acyclic chains, and every prototype link joins two
      existing objects. */
  ghost predicate WellFormed(s: Store)
  {
    && Acyclic(s.protos)
    && (forall o :: o in s.protos ==> o in s.props && s.protos[o] in s.props)
  }

  /** `Object.getPrototypeOf(o)`, with `None` for `null`. */
  function Parent(s: Store, o: ObjId): Option<ObjId>
  {
    if o in s.protos then Some(s.protos[o]) else None
  }

  /** Ordinary property lookup: the own descriptor of the first object on the
      whole chain from `o` that has `k`. */
  function Resolve(s: Store, o: Option<ObjId>, k: Key): Option<Descriptor>
    requires WellFormed(s)
    decreases Height(s, o)
  {
    if o.None? || o.value !in s.props then None
    else if k in s.props[o.value] then Some(s.props[o.value][k])
    else Resolve(s, Parent(s, o.value), k)
  }

  /** Closure calls and property writes leave the prototype links, the set
      of objects and the set of closure variables as they were. */
  ghost predicate Preserves(s: Store, t: Store)
  {
    t.protos == s.protos && t.props.Keys == s.props.Keys && |t.cells| == |s.cells|
  }

  function CellValue(s: Store, c: CellId): Value
  {
    if c < |s.cells| then s.cells[c] else Undefined
  }

  function SetCell(s: Store, c: CellId, v: Value): (t: Store)
    ensures t.props == s.props && t.protos == s.protos && |t.cells| == |s.cells|
  {
    if c < |s.cells| then s.(cells := s.cells[c := v]) else s
  }

  /** `called = true`, when the hook has such a flag. */
  function Mark(s: Store, flag: Option<CellId>): (t: Store)
    ensures t.props == s.props && t.protos == s.protos && |t.cells| == |s.cells|
  {
    if flag.Some? then SetCell(s, flag.value, Bool(true)) else s
  }

  /** The data-property half of OrdinarySet: an own data property gets the new
      value, otherwise a new own data property is created (CreateDataProperty,
      which makes it configurable). */
  function DefineData(s: Store, o: ObjId, k: Key, v: Value): (t: Store)
    requires o in s.props
    ensures t.protos == s.protos && t.cells == s.cells && t.props.Keys == s.props.Keys
    ensures o in t.props && k in t.props[o]
    ensures t.props[o][k] == Data(v, k !in s.props[o] || s.props[o][k].configurable)
    ensures t.props == s.props[o := s.props[o][k := t.props[o][k]]]
  {
    var own := s.props[o];
    var configurable := if k in own then own[k].configurable else true;
    s.(props := s.props[o := own[k := Data(v, configurable)]])
  }

  /** `this.<k>` inside a field accessor, followed through data properties only. */
  function DataGet(s: Store, o: ObjId, k: Key): Result<Value>
    requires WellFormed(s)
  {
    if o !in s.props then Err(OutsideModel)
    else
      match Resolve(s, Some(o), k)
      case None => Ok(Undefined)
      case Some(Data(v, _)) => Ok(v)
      case Some(Accessor(_, _, _)) => Err(OutsideModel)
  }

  /** `this.<k> = v` inside a field accessor, followed through data properties only. */
  function DataPut(s: Store, o: ObjId, k: Key, v: Value): Result<Store>
    requires WellFormed(s)
  {
    if o !in s.props then Err(OutsideModel)
    else
      match Resolve(s, Some(o), k)
      case Some(Accessor(_, _, _)) => Err(OutsideModel)
      case _ => Ok(DefineData(s, o, k, v))
  }

  /** Calls `f` with `this` set to `receiver` and argument `arg` (a getter is called
      with `Undefined`). The two installed arrow functions and the bound
      originals ignore the receiver they are called with. */
  function Call(s: Store, f: Fn, receiver: Value, arg: Value): (r: Result<Completion>)
    requires WellFormed(s)
    ensures r.Ok? ==> WellFormed(r.value.store) && Preserves(s, r.value.store)
    // a setter's return value is discarded: the installed one yields `undefined`
    ensures r.Ok? && f.PatchedSet? ==> r.value.value == Undefined
    decreases f
  {
    match f
    case FieldGet(k) =>
      if !receiver.Ref? then Err(TypeError)
      else (match DataGet(s, receiver.id, k)
            case Ok(v) => Ok(Completion(v, s))
            case Err(e) => Err(e))
    case FieldSet(k) =>
      if !receiver.Ref? then Err(TypeError)
      else (match DataPut(s, receiver.id, k, arg)
            case Ok(t) => Ok(Completion(Undefined, t))
            case Err(e) => Err(e))
    case CellGet(c) => Ok(Completion(CellValue(s, c), s))
    case CellSet(c) => Ok(Completion(Undefined, SetCell(s, c, arg)))
    case Throw(reason) => Err(MonkeyPatchError(reason))
    case Bound(target, bound) => Call(s, target, bound, arg)
    case PatchedGet(layer) =>
      // no hook: `getter()`; otherwise `params.get.call(obj, getter)`
      (match layer.params.onGet
       case None => Call(s, layer.origGetter, Undefined, Undefined)
       case Some(Constant(v)) => Ok(Completion(v, s))
       case Some(Delegate(flag)) => Call(Mark(s, flag), layer.origGetter, Undefined, Undefined))
    case PatchedSet(layer) =>
      // no hook: `setter(value)`; otherwise `params.set.call(obj, value, setter)`
      var r := (match layer.params.onSet
                case None => Call(s, layer.origSetter, Undefined, arg)
                case Some(Suppress(flag)) => Ok(Completion(Undefined, Mark(s, flag)))
                case Some(Forward(flag)) => Call(Mark(s, flag), layer.origSetter, Undefined, arg)
                case Some(RecordTo(c)) => Ok(Completion(Undefined, SetCell(s, c, arg))));
      if r.Ok? then Ok(Completion(Undefined, r.value.store)) else r
  }

  /** `o[k]`: OrdinaryGet. */
  function Get(s: Store, o: ObjId, k: Key): (r: Result<Completion>)
    requires WellFormed(s)
    ensures r.Ok? ==> WellFormed(r.value.store) && Preserves(s, r.value.store)
  {
    match Resolve(s, Some(o), k)
    case None => Ok(Completion(Undefined, s))
    case Some(Data(v, _)) => Ok(Completion(v, s))
    case Some(Accessor(getter, _, _)) =>
      if getter.Some? then Call(s, getter.value, Ref(o), Undefined) else Ok(Completion(Undefined, s))
  }

  /** `o[k] = v` in strict mode: OrdinarySet. */
  function Put(s: Store, o: ObjId, k: Key, v: Value): (r: Result<Store>)
    requires WellFormed(s) && o in s.props
    ensures r.Ok? ==> WellFormed(r.value) && Preserves(s, r.value)
  {
    match Resolve(s, Some(o), k)
    case Some(Accessor(_, setter, _)) =>
      if setter.None? then Err(TypeError)
      else (match Call(s, setter.value, Ref(o), v)
            case Ok(c) => Ok(c.store)
            case Err(e) => Err(e))
    case _ => Ok(DefineData(s, o, k, v))
  }

  /** `Object.defineProperty(o, k, {get: getter, set: setter})` applied to `o`'s own table
      `own` (ValidateAndApplyPropertyDescriptor, section 10.1.6.3 of
      ECMA-262). A non-configurable existing property refuses the change,
      since fresh closures are never the same value as the current ones. */
  function DefineOwnAccessor(own: map<Key, Descriptor>, k: Key, getter: Fn, setter: Fn): (r: Result<map<Key, Descriptor>>)
    ensures r.Ok? <==> (k !in own || own[k].configurable)
    ensures r.Err? ==> r.error == TypeError
    ensures r.Ok? ==> r.value.Keys == own.Keys + {k}
    ensures r.Ok? ==> r.value[k].Accessor? && r.value[k].configurable == (k in own)
    ensures r.Ok? ==> r.value[k].getter == Some(getter) && r.value[k].setter == Some(setter)
    ensures r.Ok? ==> forall x :: x in own && x != k ==> r.value[x] == own[x]
  {
    if k in own && !own[k].configurable then Err(TypeError)
    else
      // attributes the descriptor leaves out: an existing property keeps its
      // [[Configurable]], a new one takes the default false (section 6.1.7.1)
      var configurable := if k in own then own[k].configurable else false;
      Ok(own[k := Accessor(Some(getter), Some(setter), configurable)])
  }
}
