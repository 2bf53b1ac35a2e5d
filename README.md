# monkeyPatchProp, modelled in Dafny

`monkeyPatchProp(obj, key, params)` replaces a property of a JavaScript
object with an accessor pair that runs caller-supplied `get`/`set` hooks.
It does this in four steps:

1. It walks the prototype chain from `obj` and takes the first own
   descriptor of `key`. The walk stops at `null` or at `Object.prototype`,
   which it never inspects.
2. If nothing was found, or the descriptor found is not configurable, it
   throws `MonkeyPatchError`.
3. It turns the descriptor into an original getter and setter:
   - a data property (or an accessor with neither half) gets a private
     variable `_value` holding its value;
   - otherwise the existing halves are bound to `obj`;
   - a missing half becomes a function that throws `MonkeyPatchError`.
4. It installs a new accessor pair on `obj` with `Object.defineProperty`.
   On a read or write, the pair calls the hook when one was given, passing
   it the original. With no hook, it calls the original directly.

The model has four modules:

- `Values` (values.dfy): values, property descriptors, the closed set of
  functions that can sit in an accessor slot (`Fn`), the closed set of
  hooks, and the heap `Store`. `Store` holds each object's own property
  table, each object's prototype, and the closure variables ("cells").
- `Runtime` (runtime.dfy): the host behaviour the routine relies on:
  - prototype chains, with acyclicity as a ghost ranking;
  - ordinary lookup, `[[Get]]` and strict-mode `[[Set]]`;
  - `Object.defineProperty` restricted to `get`/`set`, following section
    10.1.6.3 of ECMA-262 and the attribute defaults of section 6.1.7.1;
  - `Call`, the interpreter for `Fn`.
- `Interceptor` (interceptor.dfy): the routine itself.
  - `Patch` is the whole routine as a function of the heap.
  - Class `Realm` holds the heap as mutable fields.
  - `Realm.FindDescriptor` is the lookup loop.
  - `Realm.MonkeyPatchProp` is the routine as a state-changing method,
    proved to agree with `Patch`.
- `Properties` (properties.dfy): what the routine promises about lookup,
  refusal, reads and writes after the patch, missing accessor halves, and
  layering of repeated patches.

The hooks are the shapes the repository's tests and documented examples
use:

- read hooks: `Constant(v)`, and `Delegate(flag)`, which sets an optional
  `called` flag and returns `origGetter()`;
- write hooks: `Suppress(flag)`, `Forward(flag)`, which calls
  `origSetter(value)`, and `RecordTo(x)`, which stores the value in a
  caller variable.

The class-accessor pattern `get foo() { return this._foo; }` is
`FieldGet`/`FieldSet`.

## Model

| member | source | states |
|---|---|---|
| Interceptor.Chain | src/monkeyPatchProp.ts:26 | The objects the loop visits never include `Object.prototype`, all exist, start at `obj`, follow `getPrototypeOf` link by link, and end where the next link is `null` or `Object.prototype`. |
| Interceptor.Realm.FindDescriptor | src/monkeyPatchProp.ts:24-31 | The loop returns exactly `PatchLookup`: the own descriptor of the first visited object that has `key`, or nothing. |
| Interceptor.Patch | src/monkeyPatchProp.ts:15-87 | The routine fails exactly when the lookup finds nothing or finds a non-configurable descriptor. The failure is always `MonkeyPatchError`. On success only `obj`'s own `key` changes: other properties and prototype links stay as they were, and at most one new private cell is added. |
| Interceptor.Realm.MonkeyPatchProp | src/monkeyPatchProp.ts:15-87 | The method's outcome and new heap are those of `Patch`. A failure leaves the heap untouched. |
| Runtime.DefineOwnAccessor | src/monkeyPatchProp.ts:71-85 | `defineProperty` with only `get`/`set` succeeds exactly when the key is absent or configurable; otherwise it throws `TypeError`. On success the key holds an accessor with exactly the given getter and setter, and every other key keeps its descriptor. The accessor keeps its configurability if it was own and is non-configurable if new. |
| Runtime.Call | src/monkeyPatchProp.ts:72-84 | Running any accessor function (installed pair, `_value` closures, throwing stand-ins, bound originals, field accessors) keeps the heap well-formed, the prototype links, the set of objects and the number of closure variables. The installed setter always yields `undefined`. What each function does is stated by `NormalisedOriginals`, `ReadThroughLayer` and `WriteThroughLayer`. |
| Interceptor.PatchLookup | src/monkeyPatchProp.ts:24-31 | A descriptor found belongs to an object the loop visits that owns `key`. Nothing is found only when no visited object owns `key`. `LookupFindsFirstOwn` sharpens this to the first owner. |
| Properties.LookupFindsFirstOwn | src/monkeyPatchProp.ts:24-31 | The lookup finds nothing exactly when no visited object owns `key`. Otherwise it returns the descriptor of the first visited object that owns it. |
| Properties.PatchRefusedIff | src/monkeyPatchProp.ts:33-36 | `MonkeyPatchError` is thrown exactly when no object on the chain below `Object.prototype` owns `key`, or the first that does holds it non-configurable. |
| Properties.ObjectPrototypeCannotBePatched | src/monkeyPatchProp.ts:26 | Patching `Object.prototype` itself always throws `MonkeyPatchError`, since the walk never inspects it. |
| Properties.LookupAgreesWithResolve | src/monkeyPatchProp.ts:24-31 | A descriptor the loop finds is the one an ordinary read of `obj[key]` resolves to. |
| Properties.Installed | src/monkeyPatchProp.ts:38-85 | After a successful patch, `obj`'s own `key` is the installed accessor pair, closing over the hooks and the normalised originals. It is configurable exactly when `key` was already own. A fresh cell holding `desc.value` is added exactly when the descriptor has no accessors. |
| Properties.InstalledAccessorsRun | src/monkeyPatchProp.ts:71-85 | After the patch, `obj[key]` runs the installed getter with `obj` as receiver, and `obj[key] = w` runs the installed setter. |
| Properties.ReadThroughLayer | src/monkeyPatchProp.ts:72-77 | With no `get` hook, or a delegating one, the installed getter sets the hook's flag and then returns whatever `getter()` returns. |
| Properties.WriteThroughLayer | src/monkeyPatchProp.ts:78-84 | With no `set` hook, or a forwarding one, the installed setter sets the hook's flag, calls `setter(value)`, and returns `undefined`. |
| Properties.NormalisedOriginals | src/monkeyPatchProp.ts:38-68 | The contract of `Interceptor.Normalise`. Without accessors, `getter` returns the private cell and `setter` overwrites it, touching nothing else. With accessors, a present half runs with `obj` as `this` whatever receiver it is called with, and a missing half throws `MonkeyPatchError` with the "no get()/set() accessor" reason. |
| Properties.MissingGetterThrowsOnlyWhenCalled | src/monkeyPatchProp.ts:54-60 | Patching an accessor without a getter succeeds. A later read that reaches `origGetter` throws `MonkeyPatchError` with the "no get() accessor" reason. |
| Properties.MissingSetterThrowsOnlyWhenCalled | src/monkeyPatchProp.ts:61-67 | Patching an accessor without a setter succeeds. A later write that reaches `origSetter` throws `MonkeyPatchError` with the "no set() accessor" reason. |
| Properties.ReadHookResultIsReturned | tests/monkey_patch_prop.test.ts:25-32 | With a `get` hook returning `v`, reading the patched property yields exactly `v` and changes nothing. |
| Properties.WriteHookRunsAlone | tests/monkey_patch_prop.test.ts:87-97 | With a `set` hook that does not call `origSetter`, a write does only what the hook does: set its flag, or store the value in the caller's variable. |
| Properties.DataReadsOriginalValue | tests/monkey_patch_prop.test.ts:33-43 | For a data property, a read that goes through to `origGetter` yields the pre-patch value, with the hook's `called` flag set. |
| Properties.DataWriteThenRead | tests/monkey_patch_prop.test.ts:98-109 | For a data property, a write that goes through to `origSetter` sets the hook's flag. A following read yields the written value. |
| Properties.DataSurvivesIgnoredWrite | tests/monkey_patch_prop.test.ts:87-97 | For a data property, a write the hook does not pass on leaves the value read unchanged. |
| Properties.FieldAccessorReadsTarget | tests/monkey_patch_prop.test.ts:212-222 | For a `this._foo` accessor pair found anywhere on the chain, reading through to the original yields `obj`'s own field, with the hook's flag set. |
| Properties.FieldAccessorWriteThenRead | tests/monkey_patch_prop.test.ts:269-280 | For a `this._foo` accessor pair, a write that goes through stores the value in `obj`'s own field. A following read yields it. |
| Properties.FieldAccessorSurvivesIgnoredWrite | tests/monkey_patch_prop.test.ts:258-268 | For a `this._foo` accessor pair, a write the hook does not pass on leaves `obj`'s field, and so the value read, unchanged. |
| Properties.SecondPatchLayersOverFirst | src/monkeyPatchProp.ts:54-62 | Patching an own configurable property twice succeeds both times. The second patch takes the first patch's installed pair, bound to `obj`, as its original getter and setter, and allocates no new cell. |
| Properties.RepatchAfterInheritedFails | src/monkeyPatchProp.ts:71-85 | Patching an inherited property creates a non-configurable own accessor, so any second patch of it throws `MonkeyPatchError`. |
| Properties.ReadmeGetterExample | tests/readme.test.ts:5-30 | Constant hook `v`, then a delegating hook layered over it: both reads yield `v`, and the second sets `called`. |
| Properties.DelegateOverConstant | tests/readme.test.ts:19-29 | A delegating `get` layer whose original is a constant layer bound to `obj` yields the constant and sets `called`. |
| Properties.RecordingLayerRuns | tests/readme.test.ts:37-47 | Over the private cell, a recording `set` layer makes `obj[key] = w` store `w` in `x` only, and a read still yields the cell. |
| Properties.ForwardThenRecord | tests/readme.test.ts:49-60 | A forwarding `set` layer over a recording one sets `called`, then stores `w` in `x`; a read passes through both layers to the private cell. |
| Properties.RecordingSetterKeepsValue | tests/readme.test.ts:37-47 | With a hook recording into `x`, `obj[key] = w` stores `w` in `x` only, and `obj[key]` still reads the original value. |
| Properties.ForwardingOverRecording | tests/readme.test.ts:49-60 | A forwarding hook layered over the recording one sets `called`, then runs the recording hook, which stores `w` in `x`. `obj[key]` still reads the original value. |

## Left out

- Error messages are reduced to a tag (`Reason`). The `Error` class
  hierarchy of `MonkeyPatchError` is not modelled.
- Hook code is a closed set of behaviours (`ReadHook`, `WriteHook`), not
  arbitrary functions. None of the hooks reads `this`, so the receiver
  `obj` that the installed pair passes to a hook is not recorded.
- `Function.prototype.bind` is modelled as "call with receiver `obj`"
  (`Bound`). Bound functions and arrow functions ignore the receiver they
  are called with.
- `FieldGet`/`FieldSet` follow the backing field through data properties
  only. A backing field that resolves to an accessor, or a receiver that is
  not in the heap, gives `OutsideModel` instead of running further code.
- Attributes other than [[Configurable]] are not modelled: enumerable,
  writable, and the `value` attribute on accessors.
- The distinction between string and symbol keys is not modelled.
- Proxies and other exotic objects are not modelled.
- Non-extensible objects are not modelled. For these, `defineProperty` on
  a new key throws a `TypeError` that the routine does not handle.
- `obj` is an object of the heap. Primitive and `null` targets are not
  modelled.
- Assignment is strict-mode `[[Set]]`: writing an accessor without a setter
  throws `TypeError` rather than being ignored silently.
- Closure variables (`_value`, the callers' `called` and `x`) are cells of
  one table. Reading a cell that does not exist gives `undefined`.
- The callers' variables are assumed to exist before the patch, so they
  are never the fresh `_value` cell (`HooksUseCellsBelow`).
- An error carries no heap. Effects that happen before an access-time
  throw are lost: for example, a delegating hook sets `called` and then the
  missing `origGetter` throws. In JavaScript `called` stays true; the model
  returns only `MonkeyPatchError(NoGetAccessor)`. The same holds when an
  outer layer sets its flag before an inner layer throws.
- The installed pair reads `params.get` and `params.set` from the caller's
  object on every access, so changing that object after the patch changes
  the behaviour. `Layer` keeps the hooks as they were at patch time.
- TypeScript generics and `this:` typings have no runtime effect and are
  not modelled. The mocha/`assert` test plumbing is not modelled either.
