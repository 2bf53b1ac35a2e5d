/** What `monkeyPatchProp` promises: where the lookup lands, when the patch
    is refused, what reads and writes of the patched property do afterwards,
    and how a second patch layers over the first. */
module Properties {
  import opened Values
  import opened Runtime
  import opened Interceptor

  /** A `get` hook that ends in `origGetter()`, or no `get` hook at all. */
  predicate ReadsThrough(h: Option<ReadHook>)
  {
    h.None? || h.value.Delegate?
  }

  /** A `set` hook that ends in `origSetter(value)`, or no `set` hook at all. */
  predicate WritesThrough(h: Option<WriteHook>)
  {
    h.None? || h.value.Forward?
  }

  function ReadFlag(h: Option<ReadHook>): Option<CellId>
  {
    if h.Some? && h.value.Delegate? then h.value.flag else None
  }

  function WriteFlag(h: Option<WriteHook>): Option<CellId>
  {
    if h.Some? && !h.value.RecordTo? then h.value.flag else None
  }

  /** Every variable the hooks write belongs to the caller, so it existed
      before the patch allocated its private cell. */
  predicate HooksUseCellsBelow(p: Params, n: nat)
  {
    && (ReadFlag(p.onGet).Some? ==> ReadFlag(p.onGet).value < n)
    && (WriteFlag(p.onSet).Some? ==> WriteFlag(p.onSet).value < n)
    && (p.onSet.Some? && p.onSet.value.RecordTo? ==> p.onSet.value.cell < n)
  }

  /** `c[i]` is the first object of `c` that owns `k`. */
  ghost predicate FirstHolder(s: Store, c: seq<ObjId>, k: Key, i: int)
  {
    && 0 <= i < |c|
    && c[i] in s.props && k in s.props[c[i]]
    && forall j :: 0 <= j < i ==> c[j] in s.props && k !in s.props[c[j]]
  }

  /** The layer the patch installs when it finds `d`. */
  function LayerFor(s: Store, obj: ObjId, params: Params, d: Descriptor): Layer
  {
    var original := Normalise(d, obj, |s.cells|);
    Layer(params, original.getter, original.setter)
  }

  // ---------------------------------------------------------------------
  // Lookup and guard

  /** The lookup lands on the first object of the walked chain that owns
      `k`, and finds nothing exactly when no object of the chain owns it. */
  lemma {:induction false} LookupFindsFirstOwn(s: Store, o: Option<ObjId>, k: Key)
    requires WellFormed(s)
    ensures var c := Chain(s, o);
      && (PatchLookup(s, o, k).None? <==> forall i :: 0 <= i < |c| ==> k !in s.props[c[i]])
      && (PatchLookup(s, o, k).Some? ==>
            exists i :: FirstHolder(s, c, k, i) && PatchLookup(s, o, k).value == s.props[c[i]][k])
    decreases Height(s, o)
  {
    if o.None? || o.value == ObjectPrototype || o.value !in s.props {
    } else if k in s.props[o.value] {
      var c := Chain(s, o);
      assert c[0] == o.value && k in s.props[c[0]];
      assert FirstHolder(s, c, k, 0);
    } else {
      var p := Parent(s, o.value);
      LookupFindsFirstOwn(s, p, k);
      var c, c' := Chain(s, o), Chain(s, p);
      assert c == [o.value] + c';
      if PatchLookup(s, p, k).Some? {
        var i :| FirstHolder(s, c', k, i) && PatchLookup(s, p, k).value == s.props[c'[i]][k];
        assert FirstHolder(s, c, k, i + 1);
      } else {
        assert forall j :: 0 <= j < |c'| ==> k !in s.props[c'[j]];
        forall i | 0 <= i < |c|
          ensures k !in s.props[c[i]]
        {
          if i > 0 {
            assert c[i] == c'[i - 1];
            assert k !in s.props[c'[i - 1]];
          }
        }
      }
    }
  }

  /** There is only one first owner. */
  lemma FirstHolderUnique(s: Store, c: seq<ObjId>, k: Key, i: int, j: int)
    requires FirstHolder(s, c, k, i) && FirstHolder(s, c, k, j)
    ensures i == j
  {
  }

  /** The patch throws `MonkeyPatchError` exactly when no object of the
      chain owns `key`, or the first one that does holds it non-configurable. */
  lemma PatchRefusedIff(s: Store, obj: ObjId, key: Key, params: Params)
    requires WellFormed(s) && obj in s.props
    ensures var c := Chain(s, Some(obj));
      Patch(s, obj, key, params).Err? <==>
        || (forall i :: 0 <= i < |c| ==> key !in s.props[c[i]])
        || (exists i :: FirstHolder(s, c, key, i) && !s.props[c[i]][key].configurable)
    ensures Patch(s, obj, key, params).Err? ==> Patch(s, obj, key, params).error == MonkeyPatchError(NotPatchable)
  {
    var c := Chain(s, Some(obj));
    LookupFindsFirstOwn(s, Some(obj), key);
    if exists i :: FirstHolder(s, c, key, i) && !s.props[c[i]][key].configurable {
      var i :| FirstHolder(s, c, key, i) && !s.props[c[i]][key].configurable;
      var j :| FirstHolder(s, c, key, j) && PatchLookup(s, Some(obj), key).value == s.props[c[j]][key];
      FirstHolderUnique(s, c, key, i, j);
    }
  }

  /** The walk never inspects `Object.prototype`, so none of its own
      properties can be patched directly. */
  lemma ObjectPrototypeCannotBePatched(s: Store, key: Key, params: Params)
    requires WellFormed(s) && ObjectPrototype in s.props
    ensures Patch(s, ObjectPrototype, key, params) == Err(MonkeyPatchError(NotPatchable))
  {
  }

  /** Whatever the lookup loop finds is also what an ordinary property read
      of the same key resolves to. */
  lemma {:induction false} LookupAgreesWithResolve(s: Store, o: Option<ObjId>, k: Key)
    requires WellFormed(s)
    ensures PatchLookup(s, o, k).Some? ==> Resolve(s, o, k) == PatchLookup(s, o, k)
    decreases Height(s, o)
  {
    if o.Some? && o.value != ObjectPrototype && o.value in s.props && k !in s.props[o.value] {
      LookupAgreesWithResolve(s, Parent(s, o.value), k);
    }
  }

  // ---------------------------------------------------------------------
  // Install

  /** A property the guard lets through is replaced by the installed accessor
      pair; it stays configurable when it was own, and a data property (or an
      accessor with neither half) gets a fresh cell holding its value. */
  lemma Installed(s: Store, obj: ObjId, key: Key, params: Params, d: Descriptor)
    requires WellFormed(s) && obj in s.props
    requires PatchLookup(s, Some(obj), key) == Some(d) && d.configurable
    ensures Patch(s, obj, key, params).Ok?
    ensures var s1 := Patch(s, obj, key, params).value; var l := LayerFor(s, obj, params, d);
      && s1.props[obj][key] == Accessor(Some(PatchedGet(l)), Some(PatchedSet(l)), key in s.props[obj])
      && s1.cells == if HasNoAccessors(d) then s.cells + [ValueOf(d)] else s.cells
  {
  }

  /** After a successful patch, `obj[key]` runs the installed getter and
      `obj[key] = w` the installed setter. */
  lemma InstalledAccessorsRun(s: Store, obj: ObjId, key: Key, params: Params, d: Descriptor, w: Value)
    requires WellFormed(s) && obj in s.props
    requires PatchLookup(s, Some(obj), key) == Some(d) && d.configurable
    ensures Patch(s, obj, key, params).Ok?
    ensures var s1 := Patch(s, obj, key, params).value; var l := LayerFor(s, obj, params, d);
      && Get(s1, obj, key) == Call(s1, PatchedGet(l), Ref(obj), Undefined)
      && Put(s1, obj, key, w) == (match Call(s1, PatchedSet(l), Ref(obj), w)
                                  case Ok(c) => Ok(c.store)
                                  case Err(e) => Err(e))
  {
    Installed(s, obj, key, params, d);
    var s1 := Patch(s, obj, key, params).value;
    assert Resolve(s1, Some(obj), key) == Some(s1.props[obj][key]);
  }

  /** With no `get` hook or one that delegates, the installed getter is the
      original getter, called once the hook has set its flag. */
  lemma ReadThroughLayer(s: Store, l: Layer, receiver: Value)
    requires WellFormed(s) && ReadsThrough(l.params.onGet)
    ensures Call(s, PatchedGet(l), receiver, Undefined)
         == Call(Mark(s, ReadFlag(l.params.onGet)), l.origGetter, Undefined, Undefined)
  {
  }

  /** With no `set` hook or one that forwards, the installed setter is the
      original setter, called once the hook has set its flag. */
  lemma WriteThroughLayer(s: Store, l: Layer, receiver: Value, w: Value)
    requires WellFormed(s) && WritesThrough(l.params.onSet)
    ensures var r := Call(Mark(s, WriteFlag(l.params.onSet)), l.origSetter, Undefined, w);
      Call(s, PatchedSet(l), receiver, w) == if r.Ok? then Ok(Completion(Undefined, r.value.store)) else r
  {
  }

  // ---------------------------------------------------------------------
  // Normalisation

  /** The original accessor halves are called with `obj` as `this`, whatever
      receiver the call is made with. */
  /** What the normalised originals do. Without accessors, `getter` reads
      the private cell and `setter` writes it, touching nothing else. With
      accessors, each present half runs with `obj` as `this`, whatever
      receiver it is called with, and a missing half throws. */
  lemma NormalisedOriginals(s: Store, d: Descriptor, obj: ObjId, cell: CellId, receiver: Value, arg: Value)
    requires WellFormed(s)
    ensures var o := Normalise(d, obj, cell);
      HasNoAccessors(d) ==>
        && Call(s, o.getter, receiver, arg) == Ok(Completion(CellValue(s, cell), s))
        && Call(s, o.setter, receiver, arg) == Ok(Completion(Undefined, SetCell(s, cell, arg)))
    ensures var o := Normalise(d, obj, cell);
      !HasNoAccessors(d) ==>
        && Call(s, o.getter, receiver, arg)
           == (if d.getter.Some? then Call(s, d.getter.value, Ref(obj), arg) else Err(MonkeyPatchError(NoGetAccessor)))
        && Call(s, o.setter, receiver, arg)
           == (if d.setter.Some? then Call(s, d.setter.value, Ref(obj), arg) else Err(MonkeyPatchError(NoSetAccessor)))
  {
    var o := Normalise(d, obj, cell);
    if HasNoAccessors(d) {
      assert o.getter == CellGet(cell) && o.setter == CellSet(cell);
    } else {
      if d.getter.Some? {
        assert o.getter == Bound(d.getter.value, Ref(obj));
      }
      if d.setter.Some? {
        assert o.setter == Bound(d.setter.value, Ref(obj));
      }
    }
  }

  /** An own accessor pair of `obj` runs on `obj[key]` and `obj[key] = w`. */
  lemma OwnPairRuns(t: Store, obj: ObjId, key: Key, g: Fn, st: Fn, w: Value)
    requires WellFormed(t) && obj in t.props && key in t.props[obj]
    requires t.props[obj][key].Accessor? && t.props[obj][key].getter == Some(g) && t.props[obj][key].setter == Some(st)
    ensures Get(t, obj, key) == Call(t, g, Ref(obj), Undefined)
    ensures Put(t, obj, key, w) == (match Call(t, st, Ref(obj), w)
                                    case Ok(c) => Ok(c.store)
                                    case Err(e) => Err(e))
  {
    assert Resolve(t, Some(obj), key) == Some(t.props[obj][key]);
  }

  /** Patching an accessor without a getter succeeds; reading through to the
      missing getter throws. */
  lemma MissingGetterThrowsOnlyWhenCalled(s: Store, obj: ObjId, key: Key, params: Params, d: Descriptor)
    requires WellFormed(s) && obj in s.props
    requires PatchLookup(s, Some(obj), key) == Some(d) && d.configurable
    requires d.Accessor? && d.getter.None? && d.setter.Some?
    requires ReadsThrough(params.onGet)
    ensures Patch(s, obj, key, params).Ok?
    ensures Get(Patch(s, obj, key, params).value, obj, key) == Err(MonkeyPatchError(NoGetAccessor))
  {
    InstalledAccessorsRun(s, obj, key, params, d, Undefined);
    var s1 := Patch(s, obj, key, params).value;
    var l := LayerFor(s, obj, params, d);
    assert l.origGetter == Throw(NoGetAccessor);
    ReadThroughLayer(s1, l, Ref(obj));
  }

  /** Patching an accessor without a setter succeeds; writing through to the
      missing setter throws. */
  lemma MissingSetterThrowsOnlyWhenCalled(s: Store, obj: ObjId, key: Key, params: Params, d: Descriptor, w: Value)
    requires WellFormed(s) && obj in s.props
    requires PatchLookup(s, Some(obj), key) == Some(d) && d.configurable
    requires d.Accessor? && d.getter.Some? && d.setter.None?
    requires WritesThrough(params.onSet)
    ensures Patch(s, obj, key, params).Ok?
    ensures Put(Patch(s, obj, key, params).value, obj, key, w) == Err(MonkeyPatchError(NoSetAccessor))
  {
    InstalledAccessorsRun(s, obj, key, params, d, w);
    var s1 := Patch(s, obj, key, params).value;
    var l := LayerFor(s, obj, params, d);
    assert l.origSetter == Throw(NoSetAccessor);
    WriteThroughLayer(s1, l, Ref(obj), w);
  }

  // ---------------------------------------------------------------------
  // Hooks that decide alone

  /** A `get` hook that returns a value is the whole read: its value comes
      back and nothing changes. */
  lemma ReadHookResultIsReturned(s: Store, obj: ObjId, key: Key, params: Params, v: Value)
    requires WellFormed(s) && obj in s.props
    requires !Unpatchable(PatchLookup(s, Some(obj), key))
    requires params.onGet == Some(Constant(v))
    ensures Patch(s, obj, key, params).Ok?
    ensures var s1 := Patch(s, obj, key, params).value;
      Get(s1, obj, key) == Ok(Completion(v, s1))
  {
    InstalledAccessorsRun(s, obj, key, params, PatchLookup(s, Some(obj), key).value, Undefined);
  }

  /** A `set` hook that does not call `origSetter` is the whole write. */
  lemma WriteHookRunsAlone(s: Store, obj: ObjId, key: Key, params: Params, w: Value)
    requires WellFormed(s) && obj in s.props
    requires !Unpatchable(PatchLookup(s, Some(obj), key))
    requires params.onSet.Some? && !params.onSet.value.Forward?
    ensures Patch(s, obj, key, params).Ok?
    ensures var s1 := Patch(s, obj, key, params).value;
      Put(s1, obj, key, w) ==
        Ok(if params.onSet.value.Suppress? then Mark(s1, params.onSet.value.flag)
           else SetCell(s1, params.onSet.value.cell, w))
  {
    InstalledAccessorsRun(s, obj, key, params, PatchLookup(s, Some(obj), key).value, w);
  }

  // ---------------------------------------------------------------------
  // Data properties (and accessors with neither half)

  /** Reading a patched data property through to the original yields the
      value it had before the patch. */
  lemma DataReadsOriginalValue(s: Store, obj: ObjId, key: Key, params: Params, d: Descriptor)
    requires WellFormed(s) && obj in s.props
    requires PatchLookup(s, Some(obj), key) == Some(d) && d.configurable && HasNoAccessors(d)
    requires ReadsThrough(params.onGet) && HooksUseCellsBelow(params, |s.cells|)
    ensures Get(s, obj, key) == Ok(Completion(ValueOf(d), s))
    ensures Patch(s, obj, key, params).Ok?
    ensures var s1 := Patch(s, obj, key, params).value;
      Get(s1, obj, key) == Ok(Completion(ValueOf(d), Mark(s1, ReadFlag(params.onGet))))
  {
    LookupAgreesWithResolve(s, Some(obj), key);
    InstalledAccessorsRun(s, obj, key, params, d, Undefined);
    Installed(s, obj, key, params, d);
    var s1 := Patch(s, obj, key, params).value;
    var l := LayerFor(s, obj, params, d);
    assert l.origGetter == CellGet(|s.cells|);
    ReadThroughLayer(s1, l, Ref(obj));
    assert CellValue(Mark(s1, ReadFlag(params.onGet)), |s.cells|) == ValueOf(d);
  }

  /** The private cell round-trips: after `obj[key] = w`, `obj[key]` is `w`. */
  lemma DataWriteThenRead(s: Store, obj: ObjId, key: Key, params: Params, d: Descriptor, w: Value)
    requires WellFormed(s) && obj in s.props
    requires PatchLookup(s, Some(obj), key) == Some(d) && d.configurable && HasNoAccessors(d)
    requires ReadsThrough(params.onGet) && WritesThrough(params.onSet)
    requires HooksUseCellsBelow(params, |s.cells|)
    ensures Patch(s, obj, key, params).Ok?
    ensures var s1 := Patch(s, obj, key, params).value; var t := Put(s1, obj, key, w);
      && t.Ok?
      && (WriteFlag(params.onSet).Some? ==> CellValue(t.value, WriteFlag(params.onSet).value) == Bool(true))
      && Get(t.value, obj, key).Ok?
      && Get(t.value, obj, key).value.value == w
  {
    InstalledAccessorsRun(s, obj, key, params, d, w);
    Installed(s, obj, key, params, d);
    var s1 := Patch(s, obj, key, params).value;
    var l := LayerFor(s, obj, params, d);
    var c := |s.cells|;
    assert l.origGetter == CellGet(c) && l.origSetter == CellSet(c);
    WriteThroughLayer(s1, l, Ref(obj), w);
    var t := SetCell(Mark(s1, WriteFlag(params.onSet)), c, w);
    assert Put(s1, obj, key, w) == Ok(t);
    assert t.props == s1.props;
    assert Resolve(t, Some(obj), key) == Some(s1.props[obj][key]);
    assert Get(t, obj, key) == Call(t, PatchedGet(l), Ref(obj), Undefined);
    ReadThroughLayer(t, l, Ref(obj));
    assert CellValue(Mark(t, ReadFlag(params.onGet)), c) == w;
  }

  /** A write the hook does not pass on leaves the stored value as it was. */
  lemma DataSurvivesIgnoredWrite(s: Store, obj: ObjId, key: Key, params: Params, d: Descriptor, w: Value)
    requires WellFormed(s) && obj in s.props
    requires PatchLookup(s, Some(obj), key) == Some(d) && d.configurable && HasNoAccessors(d)
    requires ReadsThrough(params.onGet) && params.onSet.Some? && !params.onSet.value.Forward?
    requires HooksUseCellsBelow(params, |s.cells|)
    ensures Patch(s, obj, key, params).Ok?
    ensures var s1 := Patch(s, obj, key, params).value; var t := Put(s1, obj, key, w);
      && t.Ok?
      && Get(t.value, obj, key).Ok?
      && Get(t.value, obj, key).value.value == ValueOf(d)
  {
    WriteHookRunsAlone(s, obj, key, params, w);
    Installed(s, obj, key, params, d);
    var s1 := Patch(s, obj, key, params).value;
    var l := LayerFor(s, obj, params, d);
    var c := |s.cells|;
    assert l.origGetter == CellGet(c);
    var t := Put(s1, obj, key, w).value;
    assert t.props == s1.props && CellValue(t, c) == ValueOf(d);
    assert Resolve(t, Some(obj), key) == Some(s1.props[obj][key]);
    assert Get(t, obj, key) == Call(t, PatchedGet(l), Ref(obj), Undefined);
    ReadThroughLayer(t, l, Ref(obj));
    assert CellValue(Mark(t, ReadFlag(params.onGet)), c) == ValueOf(d);
  }

  // ---------------------------------------------------------------------
  // Accessors over a backing field (`get foo() { return this._foo; }`)

  predicate FieldPair(d: Descriptor, f: Key)
  {
    d.Accessor? && d.getter == Some(FieldGet(f)) && d.setter == Some(FieldSet(f))
  }

  /** Reading goes to the field of `obj` itself, wherever on the chain the
      accessor pair was defined. */
  lemma FieldAccessorReadsTarget(s: Store, obj: ObjId, key: Key, params: Params, d: Descriptor, f: Key)
    requires WellFormed(s) && obj in s.props
    requires PatchLookup(s, Some(obj), key) == Some(d) && d.configurable && FieldPair(d, f)
    requires f != key && f in s.props[obj] && s.props[obj][f].Data?
    requires ReadsThrough(params.onGet)
    ensures Get(s, obj, key) == Ok(Completion(s.props[obj][f].value, s))
    ensures Patch(s, obj, key, params).Ok?
    ensures var s1 := Patch(s, obj, key, params).value;
      Get(s1, obj, key) == Ok(Completion(s.props[obj][f].value, Mark(s1, ReadFlag(params.onGet))))
  {
    LookupAgreesWithResolve(s, Some(obj), key);
    assert Resolve(s, Some(obj), f) == Some(s.props[obj][f]);
    InstalledAccessorsRun(s, obj, key, params, d, Undefined);
    var s1 := Patch(s, obj, key, params).value;
    var l := LayerFor(s, obj, params, d);
    assert l.origGetter == Bound(FieldGet(f), Ref(obj));
    ReadThroughLayer(s1, l, Ref(obj));
    var m := Mark(s1, ReadFlag(params.onGet));
    assert m.props[obj][f] == s.props[obj][f];
    assert Resolve(m, Some(obj), f) == Some(s.props[obj][f]);
  }

  /** Writing goes to the field of `obj` itself; reading then sees the new value. */
  lemma FieldAccessorWriteThenRead(s: Store, obj: ObjId, key: Key, params: Params, d: Descriptor, f: Key, w: Value)
    requires WellFormed(s) && obj in s.props
    requires PatchLookup(s, Some(obj), key) == Some(d) && d.configurable && FieldPair(d, f)
    requires f != key && f in s.props[obj] && s.props[obj][f].Data?
    requires ReadsThrough(params.onGet) && WritesThrough(params.onSet)
    ensures Patch(s, obj, key, params).Ok?
    ensures var s1 := Patch(s, obj, key, params).value; var t := Put(s1, obj, key, w);
      && t.Ok?
      && obj in t.value.props && f in t.value.props[obj]
      && t.value.props[obj][f] == Data(w, s.props[obj][f].configurable)
      && Get(t.value, obj, key).Ok?
      && Get(t.value, obj, key).value.value == w
  {
    InstalledAccessorsRun(s, obj, key, params, d, w);
    var s1 := Patch(s, obj, key, params).value;
    var l := LayerFor(s, obj, params, d);
    assert l.origGetter == Bound(FieldGet(f), Ref(obj)) && l.origSetter == Bound(FieldSet(f), Ref(obj));
    WriteThroughLayer(s1, l, Ref(obj), w);
    var m := Mark(s1, WriteFlag(params.onSet));
    assert m.props[obj][f] == s.props[obj][f];
    assert Resolve(m, Some(obj), f) == Some(s.props[obj][f]);
    var t := DefineData(m, obj, f, w);
    assert Put(s1, obj, key, w) == Ok(t);
    assert t.props[obj][key] == s1.props[obj][key];
    assert Resolve(t, Some(obj), key) == Some(s1.props[obj][key]);
    assert Get(t, obj, key) == Call(t, PatchedGet(l), Ref(obj), Undefined);
    ReadThroughLayer(t, l, Ref(obj));
    var m' := Mark(t, ReadFlag(params.onGet));
    assert m'.props[obj][f] == Data(w, s.props[obj][f].configurable);
    assert Resolve(m', Some(obj), f) == Some(Data(w, s.props[obj][f].configurable));
  }

  /** A write the hook does not pass on leaves the backing field, and so the
      value read, as it was. */
  lemma FieldAccessorSurvivesIgnoredWrite(s: Store, obj: ObjId, key: Key, params: Params, d: Descriptor, f: Key, w: Value)
    requires WellFormed(s) && obj in s.props
    requires PatchLookup(s, Some(obj), key) == Some(d) && d.configurable && FieldPair(d, f)
    requires f != key && f in s.props[obj] && s.props[obj][f].Data?
    requires ReadsThrough(params.onGet) && params.onSet.Some? && !params.onSet.value.Forward?
    ensures Patch(s, obj, key, params).Ok?
    ensures var s1 := Patch(s, obj, key, params).value; var t := Put(s1, obj, key, w);
      && t.Ok?
      && Get(t.value, obj, key).Ok?
      && Get(t.value, obj, key).value.value == s.props[obj][f].value
  {
    WriteHookRunsAlone(s, obj, key, params, w);
    Installed(s, obj, key, params, d);
    var s1 := Patch(s, obj, key, params).value;
    var l := LayerFor(s, obj, params, d);
    assert l.origGetter == Bound(FieldGet(f), Ref(obj));
    var t := Put(s1, obj, key, w).value;
    assert t.props == s1.props;
    assert Resolve(t, Some(obj), key) == Some(s1.props[obj][key]);
    assert Get(t, obj, key) == Call(t, PatchedGet(l), Ref(obj), Undefined);
    ReadThroughLayer(t, l, Ref(obj));
    var m := Mark(t, ReadFlag(params.onGet));
    assert m.props[obj][f] == s.props[obj][f];
    assert Resolve(m, Some(obj), f) == Some(s.props[obj][f]);
  }

  // ---------------------------------------------------------------------
  // Layering

  /** A second patch of an own property finds the first patch's accessor
      pair and takes it, bound to `obj`, as its original getter and setter. */
  lemma SecondPatchLayersOverFirst(s: Store, obj: ObjId, key: Key, p1: Params, p2: Params)
    requires WellFormed(s) && obj in s.props && obj != ObjectPrototype
    requires key in s.props[obj] && s.props[obj][key].configurable
    ensures Patch(s, obj, key, p1).Ok?
    ensures var s1 := Patch(s, obj, key, p1).value; var first := s1.props[obj][key];
      && first.Accessor? && first.getter.Some? && first.setter.Some? && first.configurable
      && Patch(s1, obj, key, p2).Ok?
      && var s2 := Patch(s1, obj, key, p2).value;
         var l2 := Layer(p2, Bound(first.getter.value, Ref(obj)), Bound(first.setter.value, Ref(obj)));
         && s2.cells == s1.cells
         && s2.props[obj][key] == Accessor(Some(PatchedGet(l2)), Some(PatchedSet(l2)), true)
  {
    var d := s.props[obj][key];
    assert PatchLookup(s, Some(obj), key) == Some(d);
    Installed(s, obj, key, p1, d);
    var s1 := Patch(s, obj, key, p1).value;
    var first := s1.props[obj][key];
    assert PatchLookup(s1, Some(obj), key) == Some(first);
    Installed(s1, obj, key, p2, first);
  }

  /** Patching an inherited property creates a non-configurable own property,
      so a second patch of it is refused. */
  lemma RepatchAfterInheritedFails(s: Store, obj: ObjId, key: Key, p1: Params, p2: Params)
    requires WellFormed(s) && obj in s.props && key !in s.props[obj]
    requires !Unpatchable(PatchLookup(s, Some(obj), key))
    ensures Patch(s, obj, key, p1).Ok?
    ensures Patch(Patch(s, obj, key, p1).value, obj, key, p2) == Err(MonkeyPatchError(NotPatchable))
  {
    var d := PatchLookup(s, Some(obj), key).value;
    Installed(s, obj, key, p1, d);
    var s1 := Patch(s, obj, key, p1).value;
    assert PatchLookup(s1, Some(obj), key) == Some(s1.props[obj][key]);
  }

  /** A delegating `get` layer over a constant one yields the constant and
      sets the flag. */
  lemma DelegateOverConstant(s2: Store, obj: ObjId, key: Key, l1: Layer, l2: Layer, v: Value, called: CellId)
    requires WellFormed(s2) && obj in s2.props && key in s2.props[obj]
    requires s2.props[obj][key] == Accessor(Some(PatchedGet(l2)), Some(PatchedSet(l2)), true)
    requires l1.params.onGet == Some(Constant(v))
    requires l2.params.onGet == Some(Delegate(Some(called))) && l2.origGetter == Bound(PatchedGet(l1), Ref(obj))
    ensures Get(s2, obj, key) == Ok(Completion(v, Mark(s2, Some(called))))
  {
    OwnPairRuns(s2, obj, key, PatchedGet(l2), PatchedSet(l2), Undefined);
    ReadThroughLayer(s2, l2, Ref(obj));
  }

  /** The library's documented getter example: a constant `get` hook, then
      a delegating one layered over it that sets `called` and still yields
      the constant. */
  lemma ReadmeGetterExample(s: Store, obj: ObjId, key: Key, v0: Value, v: Value, called: CellId)
    requires WellFormed(s) && obj in s.props && obj != ObjectPrototype
    requires key in s.props[obj] && s.props[obj][key] == Data(v0, true)
    requires called < |s.cells|
    ensures Patch(s, obj, key, Params(Some(Constant(v)), None)).Ok?
    ensures var s1 := Patch(s, obj, key, Params(Some(Constant(v)), None)).value;
      && Get(s1, obj, key) == Ok(Completion(v, s1))
      && Patch(s1, obj, key, Params(Some(Delegate(Some(called))), None)).Ok?
      && var s2 := Patch(s1, obj, key, Params(Some(Delegate(Some(called))), None)).value;
         Get(s2, obj, key) == Ok(Completion(v, Mark(s2, Some(called))))
  {
    var p1 := Params(Some(Constant(v)), None);
    var p2 := Params(Some(Delegate(Some(called))), None);
    var d := s.props[obj][key];
    assert PatchLookup(s, Some(obj), key) == Some(d);
    SecondPatchLayersOverFirst(s, obj, key, p1, p2);
    ReadHookResultIsReturned(s, obj, key, p1, v);
    Installed(s, obj, key, p1, d);
    var l1 := LayerFor(s, obj, p1, d);
    var l2 := Layer(p2, Bound(PatchedGet(l1), Ref(obj)), Bound(PatchedSet(l1), Ref(obj)));
    var s2 := Patch(Patch(s, obj, key, p1).value, obj, key, p2).value;
    DelegateOverConstant(s2, obj, key, l1, l2, v, called);
  }

  /** The first patch's pair over the private cell `c` with a recording
      `set` hook: a write stores into `x` only, a read yields the cell. */
  lemma RecordingLayerRuns(t: Store, obj: ObjId, key: Key, l1: Layer, x: CellId, c: CellId, w: Value)
    requires WellFormed(t) && obj in t.props && key in t.props[obj]
    requires t.props[obj][key] == Accessor(Some(PatchedGet(l1)), Some(PatchedSet(l1)), true)
    requires l1 == Layer(Params(None, Some(RecordTo(x))), CellGet(c), CellSet(c))
    ensures Put(t, obj, key, w) == Ok(SetCell(t, x, w))
    ensures Get(SetCell(t, x, w), obj, key) == Ok(Completion(CellValue(SetCell(t, x, w), c), SetCell(t, x, w)))
  {
    OwnPairRuns(t, obj, key, PatchedGet(l1), PatchedSet(l1), w);
    OwnPairRuns(SetCell(t, x, w), obj, key, PatchedGet(l1), PatchedSet(l1), w);
    ReadThroughLayer(SetCell(t, x, w), l1, Ref(obj));
  }

  /** A forwarding `set` layer over the recording one: a write sets the flag
      and then stores into `x`; a read yields the private cell. */
  lemma ForwardThenRecord(s2: Store, obj: ObjId, key: Key, l1: Layer, l2: Layer, x: CellId, called: CellId, c: CellId, w: Value)
    requires WellFormed(s2) && obj in s2.props && key in s2.props[obj]
    requires s2.props[obj][key] == Accessor(Some(PatchedGet(l2)), Some(PatchedSet(l2)), true)
    requires l1 == Layer(Params(None, Some(RecordTo(x))), CellGet(c), CellSet(c))
    requires l2 == Layer(Params(None, Some(Forward(Some(called)))), Bound(PatchedGet(l1), Ref(obj)), Bound(PatchedSet(l1), Ref(obj)))
    ensures var t := SetCell(Mark(s2, Some(called)), x, w);
      && Put(s2, obj, key, w) == Ok(t)
      && Get(t, obj, key) == Ok(Completion(CellValue(t, c), t))
  {
    var m := Mark(s2, Some(called));
    var t := SetCell(m, x, w);
    // write: the outer layer sets `called`, the inner one records into `x`
    OwnPairRuns(s2, obj, key, PatchedGet(l2), PatchedSet(l2), w);
    WriteThroughLayer(s2, l2, Ref(obj), w);
    assert Call(m, l2.origSetter, Undefined, w) == Call(m, PatchedSet(l1), Ref(obj), w);
    assert Call(m, PatchedSet(l1), Ref(obj), w) == Ok(Completion(Undefined, t));
    // read: both layers pass through to the private cell
    OwnPairRuns(t, obj, key, PatchedGet(l2), PatchedSet(l2), w);
    ReadThroughLayer(t, l2, Ref(obj));
    assert Call(t, l2.origGetter, Undefined, Undefined) == Call(t, PatchedGet(l1), Ref(obj), Undefined);
    ReadThroughLayer(t, l1, Ref(obj));
  }

  /** First half of the library's documented setter example: a `set` hook that records
      the value in the caller's variable `x`; the property keeps its value. */
  lemma RecordingSetterKeepsValue(s: Store, obj: ObjId, key: Key, v0: Value, w: Value, x: CellId)
    requires WellFormed(s) && obj in s.props && obj != ObjectPrototype
    requires key in s.props[obj] && s.props[obj][key] == Data(v0, true)
    requires x < |s.cells|
    ensures Patch(s, obj, key, Params(None, Some(RecordTo(x)))).Ok?
    ensures var s1 := Patch(s, obj, key, Params(None, Some(RecordTo(x)))).value;
      && Put(s1, obj, key, w) == Ok(SetCell(s1, x, w))
      && Get(SetCell(s1, x, w), obj, key) == Ok(Completion(v0, SetCell(s1, x, w)))
  {
    var p1 := Params(None, Some(RecordTo(x)));
    var d := s.props[obj][key];
    var c := |s.cells|;
    assert PatchLookup(s, Some(obj), key) == Some(d);
    Installed(s, obj, key, p1, d);
    var s1 := Patch(s, obj, key, p1).value;
    RecordingLayerRuns(s1, obj, key, LayerFor(s, obj, p1, d), x, c, w);
    assert SetCell(s1, x, w).cells[c] == v0;
  }

  /** Second half: a forwarding `set` hook layered over the recording one
      sets its flag and then runs the recording hook; the property still
      reads `v0`. */
  lemma ForwardingOverRecording(s: Store, obj: ObjId, key: Key, v0: Value, w: Value, x: CellId, called: CellId)
    requires WellFormed(s) && obj in s.props && obj != ObjectPrototype
    requires key in s.props[obj] && s.props[obj][key] == Data(v0, true)
    requires x < |s.cells| && called < |s.cells|
    ensures Patch(s, obj, key, Params(None, Some(RecordTo(x)))).Ok?
    ensures var s1 := Patch(s, obj, key, Params(None, Some(RecordTo(x)))).value;
      && Patch(s1, obj, key, Params(None, Some(Forward(Some(called))))).Ok?
      && var s2 := Patch(s1, obj, key, Params(None, Some(Forward(Some(called))))).value;
         var t := SetCell(Mark(s2, Some(called)), x, w);
         && Put(s2, obj, key, w) == Ok(t)
         && Get(t, obj, key) == Ok(Completion(v0, t))
  {
    var p1 := Params(None, Some(RecordTo(x)));
    var p2 := Params(None, Some(Forward(Some(called))));
    var d := s.props[obj][key];
    var c := |s.cells|;
    assert PatchLookup(s, Some(obj), key) == Some(d);
    SecondPatchLayersOverFirst(s, obj, key, p1, p2);
    Installed(s, obj, key, p1, d);
    var l1 := LayerFor(s, obj, p1, d);
    var l2 := Layer(p2, Bound(PatchedGet(l1), Ref(obj)), Bound(PatchedSet(l1), Ref(obj)));
    var s1 := Patch(s, obj, key, p1).value;
    var s2 := Patch(s1, obj, key, p2).value;
    ForwardThenRecord(s2, obj, key, l1, l2, x, called, c, w);
    assert s2.cells == s.cells + [v0];
    assert SetCell(Mark(s2, Some(called)), x, w).cells[c] == v0;
  }
}
