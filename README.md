# gjsx core, modelled in Dafny

This project models the logic at the centre of gjsx, a small library that brings
JSX and reactive state to GJS (GNOME's JavaScript runtime).

- **Reactive engine** (`src/state.ts`, module `Reactive`):
  - `State` is an observable cell. Its setter is equality-gated, and every real change stores a fresh `{ $: v }` wrapper.
  - `Binding` is an immutable descriptor: an emitter, a kebab-case property name and a composed transform.
  - `sync`, `derive`, `observe` and `hook` build on those two.
  - The GObject signal system underneath is foreign. It is modelled abstractly:
    - an `Emitter` class holds property values, own `get_*` methods, the `set_*` methods it answers to, and Settings keys;
    - a `Runtime` holds one ordered handler table, with global ids starting at 1;
    - callbacks are data (`Subscription`);
    - an emission is the list of deliveries it makes, and `Fire` runs one delivery and returns the deliveries its write causes.
  - `===` is value equality on `JsValue.Value`. Objects and arrays carry an allocation number, so a fresh wrapper or array is observable. The callbacks themselves are functions on values and cannot allocate (see "## Left out").
- **Class decorators** (`src/gobject.ts`, module `GObjectDecorators`):
  - `property` and `signal` fill the per-class metadata table and the prototype.
  - `pspec` is the first-match dispatch from declaration to parameter spec.
  - `register` encodes a markup template as UTF-8, merges the tables under the options and deletes them.
  - The generated property getter and setter act on an `Instance`.
- **JSX factory** (`src/jsx-runtime.ts`, module `JsxRuntime`):
  - `on-*` props are split off in entry order. The reserved props `$$`, `$type` and `children` are withheld.
  - `children` is normalised and flattened to any depth, then added to the parent.
  - A function component gets its children as `child` or `children`.
  - `Fragment` pushes its child, then flattens.
- **Stylesheets** (`src/style.ts`, module `Style`):
  - `css` interleaves template parts with values and appends one entry.
  - `apply` loads the text that joins all entries with single spaces.

`kebabify`, which `src/state.ts` and `src/gobject.ts` each define with the same
text, is defined once, in module `Naming`. `JsValue` models the JavaScript
values the library inspects: nullishness, `??`, truthiness and `String()`.

Notes on the code as written:

- **Disconnecting is not idempotent.**
  - The closures returned by `subscribe` and `hook` call `disconnect(id)` unguarded.
  - After one disconnect the handler is gone, so a second finds nothing (`Reactive.Runtime.Disconnect` returns `found == false`; GLib logs a critical warning).
  - The model claims no idempotence.
- **`derive` bypasses the equality gate.**
  - Its per-dependency `sync` writes a fresh `{ $: get() }` straight to the cell's `value` property, not through `State.set`.
  - So derived subscribers are notified even when the recomputed value is unchanged (`Reactive.Fire`, `DeriveWriter` case).
  - `observe` does go through the gated `State.set`.
- **Accessor names differ between the two files.**
  - `@property` defines `get_*` and `set_*` on the prototype, with only the first `-` of the kebab name replaced by `_`.
  - `Binding.get` builds its getter name with every `-` replaced. The two names agree exactly when the kebab name has at most one hyphen (`GObjectDecorators.AccessorMatchesBindingGetter`). This agreement has no effect on what `get` reads, because `get` only calls an *own* `get_*` method (`Object.hasOwn`), never one on the prototype. Otherwise `get` reads the property under its kebab name.
  - The names do meet in the private `set` of `sync`. It looks up `set_<kebab name>` with `in`, which sees the prototype, and keeps every hyphen. So `sync` calls the setter `@property` generated exactly when the kebab name has no hyphen (`GObjectDecorators.SyncSetterMatchesAccessor`). Otherwise it assigns the property directly.

## Model

| member | source | states |
|---|---|---|
| Naming.ReplaceAll | src/state.ts:11 | `replaceAll` with a one-character pattern keeps the length and changes exactly the positions holding the pattern |
| Naming.Lower | src/state.ts:12 | `toLowerCase` on ASCII keeps the length and lowercases each character in place |
| Naming.ReplaceFirst | src/gobject.ts:73 | `replace` with a string pattern changes only the position of the first occurrence |
| Naming.ReplaceFirstKeepsLater | src/gobject.ts:79 | any hyphen after the first one survives `replace("-", "_")` |
| Naming.HyphenateCamelMatchesBoundaries | src/state.ts:10 | the global regex replacement inserts exactly one `-` at every lower-then-upper boundary; the non-overlapping scan misses none |
| Naming.HyphenateCamelNoUpper | src/state.ts:10 | without upper-case letters the regex replacement changes nothing |
| Naming.Kebabify | src/state.ts:9-12 | every output of `kebabify` is a kebab name: no upper-case letter and no `_` |
| Naming.KebabifyKeepsKebab | src/gobject.ts:13-18 | a name that is already kebab is returned unchanged |
| Naming.KebabifyFixedPoint | src/state.ts:9-12 | `kebabify(s) == s` if and only if `s` is kebab |
| Naming.KebabifyIdempotent | src/state.ts:133-136 | kebabifying twice equals kebabifying once, so re-kebabifying a binding's stored name is harmless |
| JsValue.Coalesce | src/gobject.ts:87 | `v ?? d` is `v` unless `v` is `null` or `undefined`, and then `d` |
| JsValue.Truthy | src/jsx-runtime.ts:72 | `null` and `undefined` are never truthy |
| JsValue.ToText | src/style.ts:35 | `String(v)` is empty only for the empty string and for arrays |
| Reactive.MakeBinding | src/state.ts:128-136 | a new binding keeps its emitter, stores `kebabify(prop)` as its name and starts with the identity transform |
| Reactive.BindPropertyReads | src/state.ts:159-192 | `Binding.bind(object, property)` reads, untransformed, the Settings key, own getter or field named `kebabify(property)`, and listens on `changed::` or `notify::` followed by that name |
| Reactive.SignalKey | src/state.ts:215-219 | a well-formed binding listens on `changed::<prop>` for Settings and `notify::<prop>` otherwise, with its own stored name as the detail |
| Reactive.BindState | src/state.ts:159-161 | `Binding.bind(state)` is a binding on the state's own cell and its `value` property |
| Reactive.Binding.As | src/state.ts:167-171 | `as` builds a binding on the same emitter with a kebab name |
| Reactive.AsComposes | src/state.ts:167-171 | `b.as(f)` keeps the property, and its `get()` is `f(b.get())` |
| Reactive.AsChain | src/state.ts:167-171 | `b.as(f).as(g).get() == g(f(raw))`, the same as one `as` with the composition |
| Reactive.SignalKeyStableUnderAs | src/state.ts:215-219 | a derived binding listens on the same detailed signal as its source |
| Reactive.GetDispatch | src/state.ts:176-192 | `get` reads the Settings key for a Settings emitter, else an own `get_*` method (every `-` replaced), else the field, and applies the transform once |
| Reactive.Deliveries | src/state.ts:99 | an emission delivers only to handlers on that instance whose signal matches with or without the detail, passing the emission's arguments, and to no more handlers than are connected |
| Reactive.DeliveredExactlyOnce | src/state.ts:98-100 | every connected matching handler receives an emission exactly once, and a non-matching one never |
| Reactive.DeliveriesInConnectionOrder | src/state.ts:98-100 | deliveries run in connection order |
| Reactive.DetachRemovesOnlyThat | src/state.ts:100 | after `disconnect(id)` that handler is gone and every other handler is still connected |
| Reactive.NoDeliveryAfterTeardown | src/state.ts:337-342 | once a lifetime object is finalised, no emission reaches a handler it bounded or a handler on it |
| Reactive.Runtime.Connect | src/state.ts:99 | `connect` appends one handler with the next global id and keeps ids increasing |
| Reactive.Runtime.Disconnect | src/state.ts:100 | `disconnect` removes exactly that handler and reports whether it was there |
| Reactive.Runtime.Destroy | src/state.ts:337-342 | finalising an object removes the handlers on it and those whose lifetime it bounds |
| Reactive.Hook | src/state.ts:330-345 | `hook` connects one handler on `object` whose lifetime `lifetime` bounds, and returns that handler's disconnector |
| Reactive.Store | src/state.ts:75 | assigning a registered property stores the value and yields the `notify::<prop>` deliveries; an unregistered one notifies nobody |
| Reactive.Assign | src/state.ts:247-254 | the private `set` calls `set_<prop>` (hyphens kept) when the object has it, and otherwise assigns the field |
| Reactive.AssignedIsReadBack | src/state.ts:247-254 | a direct assignment is read back from the field; a setter call leaves the fields alone and is logged with the value |
| Reactive.Overload | src/state.ts:94-111 | `subscribe` selects the one-argument form for a callback, the lifetime form for an object and a callback, and returns `undefined` exactly when neither matches |
| Reactive.State.constructor | src/state.ts:37-39 | a new state holds a fresh wrapper of `init`, and `get()` returns `init` |
| Reactive.State.Set | src/state.ts:64-77 | `set(v)` returns `v` and `get()` is then `v`; an equal value changes nothing and notifies nobody; another value stores a fresh wrapper and yields exactly the `notify::value` deliveries on the cell |
| Reactive.State.Call | src/state.ts:49-52 | calling a state gives a binding on its own cell's `value` property |
| Reactive.CallReadsState | src/state.ts:159-161 | `state()` and `Binding.bind(state)` read `state.get()`, `state(f)` reads `f(state.get())`, and both listen on `notify::value` |
| Reactive.State.Subscribe | src/state.ts:94-111 | `subscribe` connects one `notify::value` handler on the cell (lifetime-scoped in the two-argument form) and returns its disconnector; mismatched arguments connect nothing and return `undefined` |
| Reactive.SubscribeBinding | src/state.ts:209-233 | `Binding.subscribe` connects one handler on `changed::<prop>` for Settings and `notify::<prop>` otherwise; mismatched arguments connect nothing and return `undefined` |
| Reactive.Sync | src/state.ts:264-274 | `sync` first writes `binding.get()` through the private `set` under the kebab name, then connects a handler on the binding's signal whose lifetime the target bounds |
| Reactive.Values | src/state.ts:289 | the arguments `derive` passes are each dependency's `get()`, in dependency order |
| Reactive.NewDerived | src/state.ts:290 | the state `derive` creates has a fresh cell, which no handler is on and no dependency reads |
| Reactive.WriteDerived | src/state.ts:293 | the first write of a derive `sync` stores a fresh wrapper of the recomputed value and yields no delivery, since no handler is on the new cell yet |
| Reactive.SyncDerived | src/state.ts:293 | keeps derive's loop state for one more dependency: a fresh wrapper of the same value and one more cell-scoped handler, appended after the earlier ones |
| Reactive.HookDerived | src/state.ts:293 | the subscription half of one derive `sync`: one more handler on dependency `i`'s signal, scoped to the cell, with the next handler id |
| Reactive.SyncAll | src/state.ts:292-294 | the loop of `derive`: one evaluation per dependency, one fresh wrapper each, and the handlers of all dependencies appended in dependency order |
| Reactive.Derive | src/state.ts:288-296 | `derive` seeds the state with the transform over the dependency values, evaluates the transform once more than there are dependencies, ends with a fresh wrapper, and connects one cell-scoped handler per dependency, in order |
| Reactive.Observe | src/state.ts:305-319 | `observe` seeds the state with `init` and hooks one handler per triple, in order, each scoped to the state's cell |
| Reactive.Fire | src/state.ts:289-315 | a state subscriber gets the unwrapped value; a binding subscriber gets `get()`; a sync writer writes `get()`; a derive writer always stores a fresh wrapper and notifies (no gate); an observe reducer goes through the gated `set` |
| Reactive.DoubledExample | src/state.ts:49-77 | `new State(1)(x => x * 2).get()` is 2, and is 10 after `set(5)` |
| Reactive.ArrayGateExample | src/state.ts:64-77 | `set([1])` on a state holding another array `[1]` passes the `!==` gate and notifies the subscriber, since the two arrays are different objects |
| Reactive.DeriveIncrement | src/state.ts:288-296 | `derive([bind(s)], x => x + 1)` with `s` at 5 holds 6 |
| Reactive.DerivedExample | src/state.ts:288-296 | after deriving 6 from 5, a repeated `s.set(5)` reaches nobody and the derived state keeps 6 |
| GObjectDecorators.Pspec | src/gobject.ts:162-190 | a ParamSpec instance is returned as is; errors happen exactly for primitives (TypeError of `in`) and for objects with neither `$gtype` nor callability ("invalid PropertyDeclaration"); built specs carry the given name and flags |
| GObjectDecorators.PspecBuiltins | src/gobject.ts:165-186 | Object, Function and Array give a jsobject spec with default `null`; String, Number and Boolean give a string, double and boolean spec with defaults "", 0 and false; all carry the given name and flags; `$gtype` is checked before calling |
| GObjectDecorators.DescriptorFlags | src/gobject.ts:100-102 | the flags are READABLE if and only if there is a getter, and WRITABLE if and only if there is a setter |
| GObjectDecorators.FirstHyphenIsAll | src/gobject.ts:79 | with at most one hyphen, replacing the first occurrence renames the same as replacing every occurrence |
| GObjectDecorators.LaterHyphenKept | src/gobject.ts:79 | with two hyphens, the generated accessor suffix keeps the second one while `replaceAll` does not |
| GObjectDecorators.AccessorMatchesBindingGetter | src/gobject.ts:79 | the generated getter's name equals the getter name `Binding.get` builds if and only if the kebab name has at most one hyphen (a comparison of names only; `get` calls own getters alone) |
| GObjectDecorators.SyncSetterMatchesAccessor | src/gobject.ts:73 | the setter name `sync`'s private `set` looks up equals the generated setter's name if and only if the kebab name has no hyphen |
| GObjectDecorators.SignalDefinitionOf | src/gobject.ts:128-141 | a definition is stored verbatim exactly when the argument carries one of the four declaration keys |
| GObjectDecorators.SignalDefinitionCases | src/gobject.ts:128-141 | otherwise the parameter types are the first argument followed by the rest, or empty when there is no first argument |
| GObjectDecorators.WithProperties | src/gobject.ts:64-65 | `??=` creates the metadata and the Properties table only when they are missing, and keeps Signals |
| GObjectDecorators.WithSignals | src/gobject.ts:123-124 | `??=` creates the metadata and the Signals table only when they are missing, and keeps Properties |
| GObjectDecorators.Define | src/gobject.ts:73-83 | `defineProperty` fails exactly on a non-configurable member; otherwise it adds the key and keeps every other member |
| GObjectDecorators.EncodeChar | src/gobject.ts:46 | one character encodes to 1 to 4 bytes |
| GObjectDecorators.Utf8 | src/gobject.ts:46 | the encoding is at least as long as the text |
| GObjectDecorators.EncodeCharDecodes | src/gobject.ts:46 | each character's bytes have the length their lead byte announces, and decode to the character |
| GObjectDecorators.Utf8RoundTrip | src/gobject.ts:46 | the encoded template decodes back to the markup |
| GObjectDecorators.Utf8Ascii | src/gobject.ts:46 | ASCII markup is encoded byte for byte |
| GObjectDecorators.EncodeTemplate | src/gobject.ts:44-47 | only a string template that is not a `resource://` or `file://` URI is replaced, by its UTF-8 bytes; nothing else changes |
| GObjectDecorators.EncodeTemplateIdempotent | src/gobject.ts:44-47 | encoding already-encoded options changes nothing |
| GObjectDecorators.Merged | src/gobject.ts:49-54 | the collected Signals and Properties are used (empty when missing) unless options bring their own, which replace them wholesale |
| GObjectDecorators.ClassObject.Property | src/gobject.ts:62-108 | the tables are created first; a `pspec` error propagates; otherwise the spec is recorded under the kebab name, and without a descriptor `set_`/`get_` are defined (first-hyphen names) and the accessor pair is returned |
| GObjectDecorators.ClassObject.Signal | src/gobject.ts:118-160 | the definition is recorded under the kebab name; the method becomes emit-only, or wraps the original |
| GObjectDecorators.ClassObject.Register | src/gobject.ts:42-60 | the options' template is encoded in place, the class is registered with the merged tables, and the metadata is deleted |
| GObjectDecorators.RegisteredProperty | src/gobject.ts:49-58 | a property recorded by `@property` is registered under its kebab name unless the options bring Properties |
| GObjectDecorators.Read | src/gobject.ts:86-88 | the getter returns the stored value, or the spec's default when that value is missing, `null` or `undefined` |
| GObjectDecorators.ReadAfterWrite | src/gobject.ts:86-95 | a stored value reads back through `??` and leaves other properties unaffected |
| GObjectDecorators.NullishWriteNotifiesWithoutChange | src/gobject.ts:86-95 | writing `null` over a non-nullish default passes the gate and notifies, but reads the same default |
| GObjectDecorators.Instance.Set | src/gobject.ts:89-95 | the setter stores and notifies the kebab name exactly once when `v !==` the current value, and otherwise changes nothing; the getter then returns `v ?? default` |
| GObjectDecorators.Instance.Invoke | src/gobject.ts:143-157 | an emit-only method emits with its arguments; a wrapped method runs the original, then emits with the same arguments, and returns the original's result |
| JsxRuntime.RemoveKey | src/jsx-runtime.ts:38 | `delete props[key]` leaves no entry with that key |
| JsxRuntime.SetKey | src/jsx-runtime.ts:56-58 | `props[k] = v` replaces the entry of an existing key in its place and leaves every other entry where it is; a new key goes last |
| JsxRuntime.SetKeyReads | src/jsx-runtime.ts:56-58 | after `props[k] = v` the key is present and reads `v`, and every other key is present and reads exactly as before |
| JsxRuntime.Partition | src/jsx-runtime.ts:33-40 | the entries loop leaves exactly the non-`on-*` entries in `props` and collects `[key minus "on-", handler]` for the rest, both in entry order |
| JsxRuntime.PartitionSound | src/jsx-runtime.ts:35-40 | the split loses and invents nothing: counts add up, no kept prop is `on-*`, every other entry is kept, and every `on-*` entry becomes a signal |
| JsxRuntime.PartitionNoSignals | src/jsx-runtime.ts:35-40 | props without `on-*` keys reach the constructor unchanged, and no signal is collected |
| JsxRuntime.Children | src/jsx-runtime.ts:29-31 | missing children become `[]`, an array is kept, and any other value becomes a one-element array |
| JsxRuntime.ChildrenArray | src/jsx-runtime.ts:29-31 | the normalised `children` is the caller's own array when one was given (the same object), and otherwise a new array of the normalised children |
| JsxRuntime.Flat | src/jsx-runtime.ts:47 | `flat(Infinity)` leaves no nested array |
| JsxRuntime.FlatOfFlat | src/jsx-runtime.ts:47 | a list without arrays is already flat |
| JsxRuntime.FlatAppend | src/jsx-runtime.ts:73 | flattening distributes over concatenation |
| JsxRuntime.FlatIdempotent | src/jsx-runtime.ts:73 | flattening twice equals flattening once |
| JsxRuntime.AddChildren | src/jsx-runtime.ts:47-53 | a parent with a child API gets one add call per flattened child, in order, with the child's type attribute; it fails exactly when some flattened child is `null`/`undefined`, and then it stops at the first such child, keeping the calls made before it; a parent without an API gets none |
| JsxRuntime.TypeAttr | src/jsx-runtime.ts:45 | the attached type attribute is `$type`, or `null` when absent |
| JsxRuntime.RestProps | src/jsx-runtime.ts:29 | the rest props have no `$$`, `$type` or `children` |
| JsxRuntime.Jsx | src/jsx-runtime.ts:27-66 | a GObject parent gets the split props and one child call per flattened child, in order (none without a child API), and a component gets the children choice and no child calls; the type attribute is attached and the collected signals are recorded; `$$` is called once after building; the build throws on a nullish child exactly when the parent has a child API and some flattened child is `null`/`undefined`, and then reports the constructor props and the calls made before that child; a non-callable `$$` throws after the whole build, which it reports |
| JsxRuntime.ReservedPropsWithheld | src/jsx-runtime.ts:29-45 | the constructor never sees `$$`, `$type`, `children` or an `on-*` prop |
| JsxRuntime.ComponentProps | src/jsx-runtime.ts:55-59 | with exactly one child, `child` is the children array itself (not its element); otherwise `children` is; every other prop, including a caller's own `child` or `children` that is not overwritten, reaches the component unchanged |
| JsxRuntime.JsArray.Push | src/jsx-runtime.ts:72 | `push` appends one element at the end |
| JsxRuntime.Fragment | src/jsx-runtime.ts:68-74 | `Fragment` pushes a truthy child onto the caller's array and returns that array flattened |
| JsxRuntime.FragmentResult | src/jsx-runtime.ts:72-73 | the result is the flattened children, then the flattened child, with no nested arrays |
| Style.ValueAt | src/style.ts:35 | `values[i]` is `undefined` past the end |
| Style.Piece | src/style.ts:35 | `${v ?? ""}` is empty for `null`/`undefined`, and `String(v)` otherwise (so `0` and `false` are kept) |
| Style.Pieces | src/style.ts:33-35 | the `flatMap` gives one piece per template string: that string followed by the value at its index |
| Style.TemplateIsInterleaved | src/style.ts:33-35 | a template with one value between each pair of parts gives `strings[0] + s(values[0]) + … + strings[n]` |
| Style.JoinPlacesEntries | src/style.ts:10 | in `join(" ")` every entry appears at its offset, in insertion order, followed by one space except the last |
| Style.JoinLength | src/style.ts:10 | the joined text is the entries plus one space between neighbours, and nothing more |
| Style.JoinAppend | src/style.ts:10 | appending one entry appends a space and that entry to the joined text |
| Style.Stylesheets.constructor | src/style.ts:4 | the module starts with no stylesheets |
| Style.Stylesheets.Css | src/style.ts:28-38 | each `css` call appends exactly one entry at the end, leaves earlier entries unchanged, and extends the text `apply` loads by a space and that entry |
| Style.TwoSheets | src/style.ts:10-37 | a plain sheet followed by a template with value `0` loads as the two texts joined by one space, with the `0` kept |

## Left out

- The GObject and Gio runtime is abstracted to one handler table and to property maps. This covers `connect`, `connect_object`, `disconnect`, `emit`, `notify`, `instanceof`, `GVariant.deepUnpack` and class registration. `registerClass` is recorded as the metadata it is given.
- Reactive.Store: the `notify` emission carries no arguments. GObject passes the `GParamSpec` to `notify` handlers, so on a `notify::…` signal `observe` hands its reducer `[]` where the source hands it `[pspec]`.
- Reactive.Store: every assignment to a registered property notifies. A property flagged `G_PARAM_EXPLICIT_NOTIFY`, which notifies only when its own code asks for it, is not distinguished. This matters for the properties `sync` writes.
- Reactive.Fire: runs one delivery and returns the deliveries its write causes. GObject's depth-first run of a whole cascade is not modelled as one operation.
- Callbacks are opaque ids or total functions on values. A transform or callback that throws, or that has side effects of its own, is not modelled.
- Reactive.Derive: the transform is a function on values and cannot allocate. So the default transform `(...args) => args`, which builds a new array on every evaluation, is not expressible; an explicit transform must be passed, and two evaluations on equal dependency values give the same `Value`.
- Reactive.Fire: an `observe` reducer cannot allocate either. A reducer that returns a new object or array always passes `state.set`'s `!==` gate; in the model a reducer gives the same `Value` for equal arguments, so a repeated emission with equal arguments after the reducer's own last result is stopped by the gate and notifies nobody.
- GObjectDecorators.Utf8: the text is a sequence of Unicode scalar values. A template holding a lone UTF-16 surrogate, which `TextEncoder` encodes as U+FFFD (`EF BF BD`), cannot be represented.
- A `set_*` method that `sync` calls is recorded as a call. Its foreign effect on the object is not modelled.
- Reactive.Binding.As: the name is re-kebabified, which `Naming.KebabifyIdempotent` shows is harmless. The closure identity of the composed transform is not observable in the model.
- `Proxy` callability of a `State`, `toString` and `Symbol.toPrimitive` are left out. The warnings they log are console output.
- Numbers are integers: no floating point, NaN or `-0`. The double spec's `±Number.MAX_VALUE` bounds are not recorded.
- `toLowerCase` is modelled on ASCII letters only. Unicode case mapping is not.
- The source text of a function is not modelled, so `String(f)` is a fixed placeholder.
- An array held in a `Value` is immutable. It carries its allocation number, so `===` compares identity, but a mutation through another reference is not reflected in it. The one array the code mutates, the caller's array that `Fragment` pushes onto, is the class `JsxRuntime.JsArray`.
- Sparse-array holes in `flat(Infinity)` are not modelled. Object key order is taken as given: the integer-like keys that `Object.entries` lists first are not reordered.
- `new ctor(props)`, `ctor(props)`, `addChild` and `vfunc_add_child` are foreign. The model returns the props given to the constructor and the add calls made; when `jsx` throws, the error carries them as far as the build got.
- The `signals` that `jsx` collects are never connected by the code, and the model records them only.
- GObjectDecorators.MetaInfo: only Signals, Properties and Template are modelled. Other fields pass through untouched. An option key that is present but `undefined` is treated as absent.
- GObjectDecorators.ClassObject.Property: the accessor that TypeScript's decorator helper installs from the returned descriptor is not modelled. `Instance` gives its behaviour instead.
- GObjectDecorators.Instance.Invoke: what `emit` returns is taken as a parameter.
- A tagged template whose cooked strings are `undefined` (invalid escapes) is not modelled.
- `apply`'s `CssProvider`, `Display` and provider removal are I/O. Only the joined text it loads is modelled.
- `src/gnome/jsx-runtime.ts`, `src/jsx/With.ts` and `eslint.config.js` are not part of this model. The first is toolkit type dispatch, the second builds on a `Fragment` class whose source is not shown, and the third is tool configuration.
