/**
  The reactive core of `src/state.ts`: `State`, `Binding`, `sync`, `derive`,
  `observe` and `hook`, over an abstract model of the GObject signal system.

  The GObject runtime itself is foreign. It is modelled by
  - `Emitter`: an object with property values, the own `get_*` methods it has,
    the `set_*` methods it answers to, and (for a `Gio.Settings`) its keys;
  - `Runtime`: the one table of connected handlers, in connection order, with
    the next handler id (ids are global and start at 1, as in GLib), the next
    allocation number for fresh objects, and the log of user callbacks run.
  Callbacks are data (`Subscription`). Emitting a signal yields the list of
  deliveries, which `Fire` runs one at a time; a delivery that writes a
  property returns the deliveries that write causes, to be run depth-first.
 */
module Reactive {
  import opened Wrappers
  import opened JsValue
  import opened Naming

  datatype EmitterKind = PlainObject | Settings

  /** A call of a `set_*` method made by `sync`; its effect is foreign. */
  datatype SetterCall = SetterCall(name: string, arg: Value)

  class Emitter {
    const kind: EmitterKind
    /** Registered GObject properties (kebab names): assigning one emits `notify::<name>`. */
    const registered: set<string>
    /** Names of function members reachable with `in` (own or inherited). */
    const setters: set<string>
    /** Own function members named `get_*`, with the value each returns now. */
    var ownGetters: map<string, Value>
    /** Field and property values, `obj[prop]`. */
    var props: map<string, Value>
    /** For a `Gio.Settings`: `get_value(key).deepUnpack()` for each key. */
    var keys: map<string, Value>
    /** The `set_*` calls made on this object, in order. */
    var calls: seq<SetterCall>

    constructor (kind: EmitterKind, registered: set<string>, setters: set<string>)
      ensures this.kind == kind && this.registered == registered && this.setters == setters
      ensures ownGetters == map[] && props == map[] && keys == map[] && calls == []
    {
      this.kind := kind;
      this.registered := registered;
      this.setters := setters;
      ownGetters := map[];
      props := map[];
      keys := map[];
      calls := [];
    }
  }

  /** `obj[k]`: `undefined` for a missing key. */
  function Lookup(m: map<string, Value>, k: string): Value {
    if k in m then m[k] else Undefined
  }

  /** The accessor `Binding.get` looks for: every `-` becomes `_`. */
  function GetterName(prop: string): string {
    "get_" + ReplaceAll(prop, '-', '_')
  }

  /** The mutator `sync` looks for: the kebab name as it is, hyphens kept. */
  function SetterName(prop: string): string {
    "set_" + prop
  }

  // ---------------------------------------------------------------------------
  // Binding

  /** An immutable descriptor: emitter, kebab property name, composed transform. */
  datatype Binding = Binding(emitter: Emitter, prop: string, transform: Value -> Value) {

    /** Every binding is built by the private constructor, which kebabifies. */
    predicate Wf() {
      IsKebab(prop)
    }

    /** The untransformed value, by first-match dispatch: a Settings key, an
        own `get_*` method, or the field. */
    function Raw(): Value
      reads emitter
    {
      if emitter.kind == Settings then Lookup(emitter.keys, prop)
      else if GetterName(prop) in emitter.ownGetters then emitter.ownGetters[GetterName(prop)]
      else Lookup(emitter.props, prop)
    }

    function Get(): Value
      reads emitter
    {
      transform(Raw())
    }

    /** `b.as(f)`: a new binding on the same emitter, re-kebabifying the name. */
    function As(f: Value -> Value): (r: Binding)
      ensures r.emitter == emitter && r.Wf()
    {
      Binding(emitter, Kebabify(prop), v => f(transform(v)))
    }
  }

  /** `new Binding(emitter, prop)`: the emitter, the kebabified name, and the
      identity transform. */
  function MakeBinding(emitter: Emitter, prop: string): (r: Binding)
    ensures r.emitter == emitter && r.prop == Kebabify(prop) && r.Wf()
    ensures forall v :: r.transform(v) == v
  {
    Binding(emitter, Kebabify(prop), v => v)
  }

  /** `Binding.bind(object, property)` on an object that is not a `State`. */
  function BindProperty(emitter: Emitter, prop: string): Binding {
    MakeBinding(emitter, prop)
  }

  /** The detailed signal a binding listens on. */
  function SignalKey(b: Binding): (r: string)
    ensures b.Wf() ==> r == (if b.emitter.kind == Settings then "changed" else "notify") + "::" + b.prop
  {
    KebabifyFixedPoint(b.prop);
    (if b.emitter.kind == Settings then "changed" else "notify") + "::" + Kebabify(b.prop)
  }

  /** A binding on an object's property reads the kebab-named Settings key, own
      getter or field untransformed, and listens on that kebab name's
      `changed::` or `notify::` signal. */
  lemma BindPropertyReads(emitter: Emitter, prop: string)
    ensures var b := BindProperty(emitter, prop);
            var name := Kebabify(prop);
            && b.prop == name
            && b.Get() == (if emitter.kind == Settings then Lookup(emitter.keys, name)
                           else if GetterName(name) in emitter.ownGetters then emitter.ownGetters[GetterName(name)]
                           else Lookup(emitter.props, name))
            && SignalKey(b) == (if emitter.kind == Settings then "changed" else "notify") + "::" + name
  {
    var b := BindProperty(emitter, prop);
    assert b.Get() == b.Raw();
  }

  /** `b.as(f).get()` is `f(b.get())`: same emitter, same property, and the
      transform applied once on top of the old one. */
  lemma AsComposes(b: Binding, f: Value -> Value)
    requires b.Wf()
    ensures b.As(f).prop == b.prop
    ensures b.As(f).Get() == f(b.Get())
  {
    KebabifyKeepsKebab(b.prop);
  }

  /** `b.as(f).as(g).get() == g(f(raw))`. */
  lemma AsChain(b: Binding, f: Value -> Value, g: Value -> Value)
    requires b.Wf()
    ensures b.As(f).As(g).Get() == g(f(b.Get()))
    ensures b.As(f).As(g).Get() == b.As(v => g(f(v))).Get()
  {
    AsComposes(b, f);
    AsComposes(b.As(f), g);
    AsComposes(b, v => g(f(v)));
  }

  /** A derived binding listens on the same signal as its source. */
  lemma SignalKeyStableUnderAs(b: Binding, f: Value -> Value)
    ensures SignalKey(b.As(f)) == SignalKey(b)
  {
    KebabifyIdempotent(b.prop);
  }

  /** `Binding.get` applies the transform exactly once, to the first source that
      applies: Settings before own getter before field. */
  lemma GetDispatch(b: Binding)
    ensures b.emitter.kind == Settings ==> b.Get() == b.transform(Lookup(b.emitter.keys, b.prop))
    ensures b.emitter.kind != Settings && GetterName(b.prop) in b.emitter.ownGetters ==>
              b.Get() == b.transform(b.emitter.ownGetters[GetterName(b.prop)])
    ensures b.emitter.kind != Settings && GetterName(b.prop) !in b.emitter.ownGetters ==>
              b.Get() == b.transform(Lookup(b.emitter.props, b.prop))
    ensures forall i :: 0 <= i < |GetterName(b.prop)| ==> GetterName(b.prop)[i] != '-'
  {
  }

  // ---------------------------------------------------------------------------
  // Handlers and deliveries

  /** What a handler does when it fires. */
  datatype Action = Invoke(callback: nat) | WriteTo(target: Emitter, prop: string)

  datatype Subscription =
    | StateSubscriber(callback: nat)                                            // State.subscribe
    | BindingSubscriber(binding: Binding, action: Action)                       // Binding.subscribe, sync
    | DeriveWriter(deps: seq<Binding>, combine: seq<Value> -> Value, cell: Emitter)  // derive
    | ObserveReducer(state: State, reducer: seq<Value> -> Value)                // observe

  datatype Handler = Handler(id: nat, instance: Emitter, signal: string, sub: Subscription, owner: Option<Emitter>)

  datatype Delivery = Delivery(handler: Handler, args: seq<Value>)

  /** A user callback run with its argument. */
  datatype Invocation = Invocation(callback: nat, arg: Value)

  /** The `() => obj.disconnect(id)` closures the library returns. */
  datatype Disconnector = Disconnector(instance: Emitter, id: nat)

  /** GObject detail matching: a handler on `name` fires for every detail, one on
      `name::detail` only for that detail. */
  predicate Fires(h: Handler, inst: Emitter, name: string, detail: Option<string>) {
    h.instance == inst && (h.signal == name || (detail.Some? && h.signal == name + "::" + detail.value))
  }

  /** The deliveries an emission makes, in connection order. */
  function Deliveries(hs: seq<Handler>, inst: Emitter, name: string, detail: Option<string>, args: seq<Value>): (ds: seq<Delivery>)
    ensures |ds| <= |hs|
    ensures forall k :: 0 <= k < |ds| ==> ds[k].args == args && Fires(ds[k].handler, inst, name, detail)
  {
    if hs == [] then []
    else (if Fires(hs[0], inst, name, detail) then [Delivery(hs[0], args)] else []) + Deliveries(hs[1..], inst, name, detail, args)
  }

  /** Whatever holds of every connected handler holds of every delivered one. */
  lemma {:induction false} DeliveriesFrom(hs: seq<Handler>, inst: Emitter, name: string, detail: Option<string>, args: seq<Value>, p: Handler -> bool)
    requires forall j :: 0 <= j < |hs| ==> p(hs[j])
    ensures forall k :: 0 <= k < |Deliveries(hs, inst, name, detail, args)| ==>
              p(Deliveries(hs, inst, name, detail, args)[k].handler)
  {
    if hs != [] {
      DeliveriesFrom(hs[1..], inst, name, detail, args, p);
    }
  }

  function CountId(ds: seq<Delivery>, id: nat): nat {
    if ds == [] then 0 else (if ds[0].handler.id == id then 1 else 0) + CountId(ds[1..], id)
  }

  predicate IdsIncreasing(hs: seq<Handler>) {
    forall i, j :: 0 <= i < j < |hs| ==> hs[i].id < hs[j].id
  }

  lemma {:induction false} CountAbsent(ds: seq<Delivery>, id: nat)
    requires forall k :: 0 <= k < |ds| ==> ds[k].handler.id != id
    ensures CountId(ds, id) == 0
  {
    if ds != [] {
      CountAbsent(ds[1..], id);
    }
  }

  /** Every connected handler that matches an emission is delivered to exactly
      once; one that does not match, never. */
  lemma {:induction false} DeliveredExactlyOnce(hs: seq<Handler>, inst: Emitter, name: string, detail: Option<string>, args: seq<Value>, k: int)
    requires IdsIncreasing(hs) && 0 <= k < |hs|
    ensures CountId(Deliveries(hs, inst, name, detail, args), hs[k].id) == if Fires(hs[k], inst, name, detail) then 1 else 0
  {
    var ds := Deliveries(hs, inst, name, detail, args);
    var tail := Deliveries(hs[1..], inst, name, detail, args);
    var head: seq<Delivery> := if Fires(hs[0], inst, name, detail) then [Delivery(hs[0], args)] else [];
    assert ds == head + tail;
    if k == 0 {
      var first := hs[0].id;
      DeliveriesFrom(hs[1..], inst, name, detail, args, (h: Handler) => h.id > first);
      CountAbsent(tail, first);
    } else {
      DeliveredExactlyOnce(hs[1..], inst, name, detail, args, k - 1);
    }
    if head == [] {
      assert ds == tail;
    } else {
      assert ds[0] == head[0] && ds[1..] == tail;
    }
  }

  /** Handler ids strictly increase along a list of deliveries. */
  predicate DeliveryIdsIncreasing(ds: seq<Delivery>) {
    forall a, b :: 0 <= a < b < |ds| ==> ds[a].handler.id < ds[b].handler.id
  }

  /** A delivery to an older handler put in front keeps the ids increasing. */
  lemma PrependOlder(d: Delivery, tail: seq<Delivery>)
    requires DeliveryIdsIncreasing(tail)
    requires forall k :: 0 <= k < |tail| ==> d.handler.id < tail[k].handler.id
    ensures DeliveryIdsIncreasing([d] + tail)
  {
    var ds := [d] + tail;
    forall a, b | 0 <= a < b < |ds|
      ensures ds[a].handler.id < ds[b].handler.id
    {
      assert ds[b] == tail[b - 1];
      if a > 0 {
        assert ds[a] == tail[a - 1];
      }
    }
  }

  /** Deliveries run in the order the handlers were connected. */
  lemma {:induction false} DeliveriesInConnectionOrder(hs: seq<Handler>, inst: Emitter, name: string, detail: Option<string>, args: seq<Value>)
    requires IdsIncreasing(hs)
    ensures forall a, b :: 0 <= a < b < |Deliveries(hs, inst, name, detail, args)| ==>
              Deliveries(hs, inst, name, detail, args)[a].handler.id < Deliveries(hs, inst, name, detail, args)[b].handler.id
  {
    var ds := Deliveries(hs, inst, name, detail, args);
    if hs != [] {
      DeliveriesInConnectionOrder(hs[1..], inst, name, detail, args);
      var first := hs[0].id;
      DeliveriesFrom(hs[1..], inst, name, detail, args, (h: Handler) => h.id > first);
      var tail := Deliveries(hs[1..], inst, name, detail, args);
      if Fires(hs[0], inst, name, detail) {
        assert ds == [Delivery(hs[0], args)] + tail;
        PrependOlder(Delivery(hs[0], args), tail);
      } else {
        assert ds == tail;
      }
    }
    assert DeliveryIdsIncreasing(ds);
  }

  /** The handlers kept by a removal, in their order. */
  function Filter(hs: seq<Handler>, keep: Handler -> bool): (r: seq<Handler>)
    ensures |r| <= |hs|
    ensures forall k :: 0 <= k < |r| ==> keep(r[k])
  {
    if hs == [] then []
    else if keep(hs[0]) then [hs[0]] + Filter(hs[1..], keep)
    else Filter(hs[1..], keep)
  }

  /** Whatever holds of every handler holds of every kept one. */
  lemma {:induction false} FilterFrom(hs: seq<Handler>, keep: Handler -> bool, p: Handler -> bool)
    requires forall j :: 0 <= j < |hs| ==> p(hs[j])
    ensures forall k :: 0 <= k < |Filter(hs, keep)| ==> p(Filter(hs, keep)[k])
  {
    if hs != [] {
      var t := Filter(hs[1..], keep);
      forall j | 0 <= j < |hs| - 1
        ensures p(hs[1..][j])
      {
        assert hs[1..][j] == hs[j + 1];
      }
      FilterFrom(hs[1..], keep, p);
      if keep(hs[0]) {
        var r := Filter(hs, keep);
        assert r == [hs[0]] + t;
        forall k | 0 <= k < |r|
          ensures p(r[k])
        {
          if k > 0 {
            assert r[k] == t[k - 1];
          }
        }
      }
    }
  }

  lemma {:induction false} FilterIncreasing(hs: seq<Handler>, keep: Handler -> bool)
    requires IdsIncreasing(hs)
    ensures IdsIncreasing(Filter(hs, keep))
  {
    if hs != [] {
      FilterIncreasing(hs[1..], keep);
      var first := hs[0].id;
      FilterFrom(hs[1..], keep, (h: Handler) => h.id > first);
    }
  }

  /** Handler `id` on `inst` is in the table. */
  predicate Connected(hs: seq<Handler>, inst: Emitter, id: nat) {
    exists j :: 0 <= j < |hs| && hs[j].instance == inst && hs[j].id == id
  }

  /** A handler that the removal keeps is still connected afterwards. */
  lemma {:induction false} FilterKeeps(hs: seq<Handler>, keep: Handler -> bool, j: int)
    requires 0 <= j < |hs| && keep(hs[j])
    ensures Connected(Filter(hs, keep), hs[j].instance, hs[j].id)
  {
    var r := Filter(hs, keep);
    if j == 0 {
      assert r[0] == hs[0];
    } else {
      FilterKeeps(hs[1..], keep, j - 1);
      var r' := Filter(hs[1..], keep);
      var k :| 0 <= k < |r'| && r'[k].instance == hs[j].instance && r'[k].id == hs[j].id;
      if keep(hs[0]) {
        assert r[k + 1] == r'[k];
      } else {
        assert r == r';
      }
    }
  }

  /** `disconnect(id)`: drop that handler. */
  function Detach(hs: seq<Handler>, inst: Emitter, id: nat): seq<Handler> {
    Filter(hs, (h: Handler) => !(h.instance == inst && h.id == id))
  }

  /** The finalisation of `o`: its own handlers go, and so do the handlers whose
      lifetime it bounds. */
  function Teardown(hs: seq<Handler>, o: Emitter): seq<Handler> {
    Filter(hs, (h: Handler) => h.owner != Some(o) && h.instance != o)
  }

  /** After a disconnect the handler is gone and every other one is kept; a second
      disconnect of the same id therefore finds nothing to remove. */
  lemma DetachRemovesOnlyThat(hs: seq<Handler>, inst: Emitter, id: nat)
    ensures !Connected(Detach(hs, inst, id), inst, id)
    ensures forall j :: 0 <= j < |hs| && !(hs[j].instance == inst && hs[j].id == id) ==>
              Connected(Detach(hs, inst, id), hs[j].instance, hs[j].id)
  {
    forall j | 0 <= j < |hs| && !(hs[j].instance == inst && hs[j].id == id)
      ensures Connected(Detach(hs, inst, id), hs[j].instance, hs[j].id)
    {
      FilterKeeps(hs, (h: Handler) => !(h.instance == inst && h.id == id), j);
    }
  }

  /** Once a lifetime object is finalised no emission reaches a handler it bounded. */
  lemma NoDeliveryAfterTeardown(hs: seq<Handler>, o: Emitter, inst: Emitter, name: string, detail: Option<string>, args: seq<Value>)
    ensures forall k :: 0 <= k < |Deliveries(Teardown(hs, o), inst, name, detail, args)| ==>
              Deliveries(Teardown(hs, o), inst, name, detail, args)[k].handler.owner != Some(o) &&
              Deliveries(Teardown(hs, o), inst, name, detail, args)[k].handler.instance != o
  {
    DeliveriesFrom(Teardown(hs, o), inst, name, detail, args, (h: Handler) => h.owner != Some(o) && h.instance != o);
  }

  // ---------------------------------------------------------------------------
  // The signal runtime

  class Runtime {
    var handlers: seq<Handler>
    var nextId: nat
    var nextAlloc: nat
    var log: seq<Invocation>

    ghost predicate Valid()
      reads this
    {
      && nextId > 0
      && IdsIncreasing(handlers)
      && forall i :: 0 <= i < |handlers| ==> 0 < handlers[i].id < nextId
    }

    constructor ()
      ensures Valid() && handlers == [] && nextId == 1 && nextAlloc == 0 && log == []
    {
      handlers := [];
      nextId := 1;
      nextAlloc := 0;
      log := [];
    }

    /** The deliveries `inst` emitting `name` (with `detail`) makes now. */
    function Emission(inst: Emitter, name: string, detail: Option<string>, args: seq<Value>): seq<Delivery>
      reads this
    {
      Deliveries(handlers, inst, name, detail, args)
    }

    /** A fresh object: the allocation number it gets. */
    method Allocate() returns (id: nat)
      modifies this`nextAlloc
      ensures id == old(nextAlloc) && nextAlloc == id + 1
    {
      id := nextAlloc;
      nextAlloc := nextAlloc + 1;
    }

    /** `connect` / `connect_object`: append a handler with the next id. */
    method Connect(inst: Emitter, signal: string, sub: Subscription, owner: Option<Emitter>) returns (id: nat)
      requires Valid()
      modifies this`handlers, this`nextId
      ensures Valid()
      ensures id == old(nextId) && nextId == id + 1
      ensures handlers == old(handlers) + [Handler(id, inst, signal, sub, owner)]
    {
      id := nextId;
      handlers := handlers + [Handler(id, inst, signal, sub, owner)];
      nextId := nextId + 1;
    }

    /** `disconnect(id)`: `found` is false when there is no such handler, where
        GLib logs a critical warning and changes nothing. */
    method Disconnect(d: Disconnector) returns (found: bool)
      requires Valid()
      modifies this`handlers
      ensures Valid()
      ensures found == Connected(old(handlers), d.instance, d.id)
      ensures handlers == Detach(old(handlers), d.instance, d.id)
    {
      found := Connected(handlers, d.instance, d.id);
      FilterIncreasing(handlers, (h: Handler) => !(h.instance == d.instance && h.id == d.id));
      var bound := nextId;
      FilterFrom(handlers, (h: Handler) => !(h.instance == d.instance && h.id == d.id), (h: Handler) => 0 < h.id < bound);
      handlers := Detach(handlers, d.instance, d.id);
    }

    /** Finalisation of `o`. */
    method Destroy(o: Emitter)
      requires Valid()
      modifies this`handlers
      ensures Valid()
      ensures handlers == Teardown(old(handlers), o)
    {
      FilterIncreasing(handlers, (h: Handler) => h.owner != Some(o) && h.instance != o);
      var bound := nextId;
      FilterFrom(handlers, (h: Handler) => h.owner != Some(o) && h.instance != o, (h: Handler) => 0 < h.id < bound);
      handlers := Teardown(handlers, o);
    }
  }

  /** `hook(lifetime, object, signal, callback)`: a handler on `object` whose
      lifetime `lifetime` bounds; the result disconnects it. */
  method Hook(rt: Runtime, lifetime: Emitter, obj: Emitter, signal: string, sub: Subscription) returns (d: Disconnector)
    requires rt.Valid()
    modifies rt`handlers, rt`nextId
    ensures rt.Valid()
    ensures d == Disconnector(obj, old(rt.nextId)) && rt.nextId == old(rt.nextId) + 1
    ensures rt.handlers == old(rt.handlers) + [Handler(old(rt.nextId), obj, signal, sub, Some(lifetime))]
  {
    var id := rt.Connect(obj, signal, sub, Some(lifetime));
    d := Disconnector(obj, id);
  }

  // ---------------------------------------------------------------------------
  // Writing properties

  /** Assigning `obj[prop] = v`: a registered GObject property notifies. */
  method Store(rt: Runtime, obj: Emitter, prop: string, v: Value) returns (ds: seq<Delivery>)
    modifies obj`props
    ensures obj.props == old(obj.props)[prop := v]
    ensures ds == if prop in obj.registered then rt.Emission(obj, "notify", Some(prop), []) else []
  {
    obj.props := obj.props[prop := v];
    ds := if prop in obj.registered then rt.Emission(obj, "notify", Some(prop), []) else [];
  }

  function AssignedProps(setters: set<string>, props: map<string, Value>, prop: string, v: Value): map<string, Value> {
    if SetterName(prop) in setters then props else props[prop := v]
  }

  function AssignedCalls(setters: set<string>, calls: seq<SetterCall>, prop: string, v: Value): seq<SetterCall> {
    if SetterName(prop) in setters then calls + [SetterCall(SetterName(prop), v)] else calls
  }

  /** The private `set(obj, prop, value)`: the `set_<prop>` method when there is
      one (hyphens kept), else a direct assignment. */
  method Assign(rt: Runtime, obj: Emitter, prop: string, v: Value) returns (ds: seq<Delivery>)
    modifies obj`props, obj`calls
    ensures obj.props == AssignedProps(obj.setters, old(obj.props), prop, v)
    ensures obj.calls == AssignedCalls(obj.setters, old(obj.calls), prop, v)
    ensures ds == if SetterName(prop) !in obj.setters && prop in obj.registered
                  then rt.Emission(obj, "notify", Some(prop), []) else []
  {
    if SetterName(prop) in obj.setters {
      obj.calls := obj.calls + [SetterCall(SetterName(prop), v)];
      ds := [];
    } else {
      ds := Store(rt, obj, prop, v);
    }
  }

  /** A direct assignment is read back by a binding on the same property, unless
      an own getter shadows the field. */
  lemma AssignedIsReadBack(setters: set<string>, props: map<string, Value>, prop: string, v: Value, calls: seq<SetterCall>)
    ensures SetterName(prop) !in setters ==> Lookup(AssignedProps(setters, props, prop, v), prop) == v
    ensures SetterName(prop) in setters ==>
              AssignedProps(setters, props, prop, v) == props &&
              AssignedCalls(setters, calls, prop, v)[|calls|] == SetterCall("set_" + prop, v)
  {
  }

  // ---------------------------------------------------------------------------
  // State

  /** The arguments of `subscribe(objOrCallback, callback?)`. */
  datatype SubscribeArg = CallbackArg(callback: nat) | ObjectArg(obj: Emitter) | OtherArg

  /** Which overload a `subscribe` call selects: the lifetime object (if any) and
      the callback, or `None` when the arguments match neither. */
  function Overload(first: SubscribeArg, second: Option<SubscribeArg>): (r: Option<(Option<Emitter>, nat)>)
    ensures first.CallbackArg? ==> r == Some((None, first.callback))
    ensures r.Some? && r.value.0.Some? ==> first == ObjectArg(r.value.0.value) && second == Some(CallbackArg(r.value.1))
    ensures r.None? <==> !first.CallbackArg? && !(first.ObjectArg? && second.Some? && second.value.CallbackArg?)
  {
    if first.CallbackArg? then Some((None, first.callback))
    else if first.ObjectArg? && second.Some? && second.value.CallbackArg? then Some((Some(first.obj), second.value.callback))
    else None
  }

  class State {
    /** The `StateObject` holding `{ $: value }` in its `value` property. */
    const cell: Emitter

    ghost predicate Valid()
      reads this, cell
    {
      && cell.kind == PlainObject
      && cell.registered == {"value"}
      && cell.setters == {}
      && GetterName("value") !in cell.ownGetters
      && "value" in cell.props && cell.props["value"].Box?
    }

    /** `get()` and the `value` getter: the wrapper's payload. */
    function Get(): Value
      reads this, cell
    {
      Unwrap(Lookup(cell.props, "value"))
    }

    /** `new State(init)`: a fresh cell holding a fresh `{ $: init }`. */
    constructor (rt: Runtime, init: Value)
      modifies rt`nextAlloc
      ensures Valid() && fresh(cell) && Get() == init
      ensures cell.props == map["value" := Box(init, old(rt.nextAlloc))]
      ensures rt.nextAlloc == old(rt.nextAlloc) + 1
    {
      var e := new Emitter(PlainObject, {"value"}, {});
      var id := rt.Allocate();
      e.props := map["value" := Box(init, id)];
      cell := e;
    }

    /** `set(v)` and the `value` setter: equality-gated. An equal value leaves the
        cell alone and notifies nobody; any other value is stored in a fresh
        wrapper and every `notify::value` handler on the cell is delivered to. */
    method Set(rt: Runtime, v: Value) returns (r: Value, ds: seq<Delivery>)
      requires Valid()
      modifies rt`nextAlloc, cell`props
      ensures Valid() && r == v && Get() == v
      ensures old(Get()) == v ==> cell.props == old(cell.props) && rt.nextAlloc == old(rt.nextAlloc) && ds == []
      ensures old(Get()) != v ==>
                && cell.props == old(cell.props)["value" := Box(v, old(rt.nextAlloc))]
                && rt.nextAlloc == old(rt.nextAlloc) + 1
                && ds == rt.Emission(cell, "notify", Some("value"), [])
      ensures forall k :: 0 <= k < |ds| ==> ds[k].handler.instance == cell
    {
      r := v;
      ds := [];
      if v != Get() {
        var id := rt.Allocate();
        ds := Store(rt, cell, "value", Box(v, id));
      }
    }

    /** `state()` / `state(transform)`: a binding on the cell's `value`,
        unwrapping and then transforming. */
    function Call(t: Option<Value -> Value>): (r: Binding)
      ensures r.emitter == cell && r.prop == "value" && r.Wf()
    {
      KebabValue();
      var b := MakeBinding(cell, "value");
      if t.Some? then b.As(w => t.value(Unwrap(w))) else b.As(Unwrap)
    }

    /** `subscribe(callback)` / `subscribe(object, callback)` */
    method Subscribe(rt: Runtime, first: SubscribeArg, second: Option<SubscribeArg>) returns (r: Option<Disconnector>)
      requires rt.Valid()
      modifies rt`handlers, rt`nextId
      ensures rt.Valid()
      ensures Overload(first, second).None? ==> r.None? && rt.handlers == old(rt.handlers) && rt.nextId == old(rt.nextId)
      ensures Overload(first, second).Some? ==>
                var (owner, callback) := Overload(first, second).value;
                && r == Some(Disconnector(cell, old(rt.nextId)))
                && rt.handlers == old(rt.handlers) + [Handler(old(rt.nextId), cell, "notify::value", StateSubscriber(callback), owner)]
                && rt.nextId == old(rt.nextId) + 1
    {
      match Overload(first, second)
      case None =>
        r := None;
      case Some((owner, callback)) =>
        if owner.None? {
          var id := rt.Connect(cell, "notify::value", StateSubscriber(callback), None);
          r := Some(Disconnector(cell, id));
        } else {
          var d := Hook(rt, owner.value, cell, "notify::value", StateSubscriber(callback));
          r := Some(d);
        }
    }
  }

  /** `Binding.bind(state)`: `state()`, a binding on the cell's `value`. */
  function BindState(s: State): (r: Binding)
    ensures r.emitter == s.cell && r.prop == "value" && r.Wf()
  {
    s.Call(None)
  }

  lemma KebabValue()
    ensures Kebabify("value") == "value"
  {
    KebabifyKeepsKebab("value");
  }

  /** A binding made from a state reads the state's value through the wrapper,
      transformed when a transform is given. */
  lemma CallReadsState(s: State, t: Option<Value -> Value>)
    requires s.Valid()
    ensures s.Call(t).Get() == if t.Some? then t.value(s.Get()) else s.Get()
    ensures BindState(s).Get() == s.Get()
    ensures SignalKey(s.Call(t)) == "notify::value"
  {
    KebabValue();
    var b := MakeBinding(s.cell, "value");
    assert b.Raw() == Lookup(s.cell.props, "value");
    if t.Some? {
      AsComposes(b, w => t.value(Unwrap(w)));
    }
    AsComposes(b, Unwrap);
  }

  /** `Binding.subscribe(callback)` / `Binding.subscribe(object, callback)`:
      listens on `changed::<prop>` for Settings, `notify::<prop>` otherwise. */
  method SubscribeBinding(rt: Runtime, b: Binding, first: SubscribeArg, second: Option<SubscribeArg>) returns (r: Option<Disconnector>)
    requires rt.Valid()
    modifies rt`handlers, rt`nextId
    ensures rt.Valid()
    ensures Overload(first, second).None? ==> r.None? && rt.handlers == old(rt.handlers) && rt.nextId == old(rt.nextId)
    ensures Overload(first, second).Some? ==>
              var (owner, callback) := Overload(first, second).value;
              && r == Some(Disconnector(b.emitter, old(rt.nextId)))
              && rt.handlers == old(rt.handlers) + [Handler(old(rt.nextId), b.emitter, SignalKey(b), BindingSubscriber(b, Invoke(callback)), owner)]
              && rt.nextId == old(rt.nextId) + 1
  {
    match Overload(first, second)
    case None =>
      r := None;
    case Some((owner, callback)) =>
      if owner.None? {
        var id := rt.Connect(b.emitter, SignalKey(b), BindingSubscriber(b, Invoke(callback)), None);
        r := Some(Disconnector(b.emitter, id));
      } else {
        var d := Hook(rt, owner.value, b.emitter, SignalKey(b), BindingSubscriber(b, Invoke(callback)));
        r := Some(d);
      }
  }

  // ---------------------------------------------------------------------------
  // sync, derive, observe

  /** `sync(object, property, binding)`: write `binding.get()` now, then on every
      change, through a subscription whose lifetime the target bounds. */
  method Sync(rt: Runtime, target: Emitter, property: string, b: Binding) returns (d: Disconnector, ds: seq<Delivery>)
    requires rt.Valid()
    modifies rt`handlers, rt`nextId, target`props, target`calls
    ensures rt.Valid()
    ensures target.props == AssignedProps(target.setters, old(target.props), Kebabify(property), old(b.Get()))
    ensures target.calls == AssignedCalls(target.setters, old(target.calls), Kebabify(property), old(b.Get()))
    ensures ds == if SetterName(Kebabify(property)) !in target.setters && Kebabify(property) in target.registered
                  then old(rt.Emission(target, "notify", Some(Kebabify(property)), [])) else []
    ensures d == Disconnector(b.emitter, old(rt.nextId)) && rt.nextId == old(rt.nextId) + 1
    ensures rt.handlers == old(rt.handlers) +
              [Handler(old(rt.nextId), b.emitter, SignalKey(b), BindingSubscriber(b, WriteTo(target, Kebabify(property))), Some(target))]
  {
    ds := Assign(rt, target, Kebabify(property), b.Get());
    // `binding.subscribe(object, value => set(object, kebabify(property), value))`
    d := Hook(rt, target, b.emitter, SignalKey(b), BindingSubscriber(b, WriteTo(target, Kebabify(property))));
  }

  /** The emitters a list of bindings reads. */
  function Emitters(deps: seq<Binding>): set<Emitter> {
    set i | 0 <= i < |deps| :: deps[i].emitter
  }

  /** `deps.map(d => d.get())`, in dependency order. */
  function Values(deps: seq<Binding>): (r: seq<Value>)
    reads Emitters(deps)
    ensures |r| == |deps|
    ensures forall i :: 0 <= i < |deps| ==> r[i] == deps[i].Get()
  {
    if deps == [] then []
    else
      assert Emitters(deps[1..]) <= Emitters(deps) by {
        forall e | e in Emitters(deps[1..]) ensures e in Emitters(deps) {
          var i :| 0 <= i < |deps[1..]| && deps[1..][i].emitter == e;
          assert deps[i + 1].emitter == e;
        }
      }
      [deps[0].Get()] + Values(deps[1..])
  }

  /** The first `n` handlers `derive` connects: one per dependency, on that
      dependency's signal, owned by the derived cell. */
  function DeriveHandlers(first: nat, deps: seq<Binding>, n: nat, combine: seq<Value> -> Value, cell: Emitter): seq<Handler>
    requires n <= |deps|
  {
    seq(n, i requires 0 <= i < n => Handler(first + i, deps[i].emitter, SignalKey(deps[i]), DeriveWriter(deps, combine, cell), Some(cell)))
  }

  lemma DeriveHandlersGrow(first: nat, deps: seq<Binding>, n: nat, combine: seq<Value> -> Value, cell: Emitter)
    requires n < |deps|
    ensures DeriveHandlers(first, deps, n + 1, combine, cell) == DeriveHandlers(first, deps, n, combine, cell) +
              [Handler(first + n, deps[n].emitter, SignalKey(deps[n]), DeriveWriter(deps, combine, cell), Some(cell))]
  {
    var a := DeriveHandlers(first, deps, n + 1, combine, cell);
    var b := DeriveHandlers(first, deps, n, combine, cell) +
             [Handler(first + n, deps[n].emitter, SignalKey(deps[n]), DeriveWriter(deps, combine, cell), Some(cell))];
    assert |a| == |b|;
    forall k | 0 <= k < |a| ensures a[k] == b[k] { }
  }

  /** No handler in the table is connected on `inst`. */
  predicate NoHandlerOn(hs: seq<Handler>, inst: Emitter) {
    forall j :: 0 <= j < |hs| ==> hs[j].instance != inst
  }

  /** With no handler on `inst`, an emission on `inst` reaches nobody. */
  lemma SilentWithoutHandlers(hs: seq<Handler>, inst: Emitter, name: string, detail: Option<string>, args: seq<Value>)
    requires NoHandlerOn(hs, inst)
    ensures Deliveries(hs, inst, name, detail, args) == []
  {
    DeliveriesFrom(hs, inst, name, detail, args, (h: Handler) => h.instance != inst);
  }

  /** The first write of a `sync` made by `derive`: a fresh wrapper holding
      `combine` over the current dependency values, through the private `set`.
      It reaches nobody, since no handler is on the cell. */
  method WriteDerived(rt: Runtime, s: State, deps: seq<Binding>, combine: seq<Value> -> Value, seed: Value) returns (ds: seq<Delivery>)
    requires s.Valid() && seed == combine(Values(deps)) && s.cell.props.Keys == {"value"}
    requires s.cell !in Emitters(deps)
    requires NoHandlerOn(rt.handlers, s.cell)
    modifies rt`nextAlloc, s.cell`props, s.cell`calls
    ensures s.Valid()
    ensures s.cell.props == map["value" := Box(seed, old(rt.nextAlloc))]
    ensures rt.nextAlloc == old(rt.nextAlloc) + 1
    ensures ds == []
  {
    var v := combine(Values(deps));
    var id := rt.Allocate();
    SilentWithoutHandlers(rt.handlers, s.cell, "notify", Some("value"), []);
    ds := Assign(rt, s.cell, "value", Box(v, id));
  }

  /** Where `derive`'s loop stands after `i` dependencies: the cell holds the
      latest fresh wrapper of `seed`, and the handlers of those dependencies
      follow `base`, with ids from `start` on. */
  ghost predicate DeriveProgress(rt: Runtime, s: State, deps: seq<Binding>, combine: seq<Value> -> Value, seed: Value,
                                 base: seq<Handler>, start: nat, i: nat)
    reads rt, s, s.cell
  {
    && i <= |deps|
    && rt.Valid() && s.Valid()
    && rt.nextAlloc > 0 && s.cell.props == map["value" := Box(seed, rt.nextAlloc - 1)]
    && rt.nextId == start + i
    && rt.handlers == base + DeriveHandlers(start, deps, i, combine, s.cell)
    && NoHandlerOn(rt.handlers, s.cell)
  }

  /** One `sync(cell, "value", deps[i].as(() => ({ $: get() })))` of `derive`:
      the first write, then a subscription on dependency `i` scoped to the cell.
      The handlers of the earlier dependencies (`base` and those from `start`
      on) are kept, and this one is added after them. */
  method SyncDerived(rt: Runtime, s: State, deps: seq<Binding>, combine: seq<Value> -> Value, i: nat, seed: Value,
                     ghost base: seq<Handler>, ghost start: nat)
    requires DeriveProgress(rt, s, deps, combine, seed, base, start, i) && i < |deps|
    requires seed == combine(Values(deps))
    requires s.cell !in Emitters(deps)
    modifies rt`handlers, rt`nextId, rt`nextAlloc, s.cell`props, s.cell`calls
    ensures DeriveProgress(rt, s, deps, combine, seed, base, start, i + 1)
    ensures rt.nextAlloc == old(rt.nextAlloc) + 1
  {
    var _ := WriteDerived(rt, s, deps, combine, seed);
    HookDerived(rt, s.cell, deps, combine, i, base, start);
  }

  /** The subscription half of one `sync` of `derive`: a handler on dependency
      `i`'s signal whose lifetime the cell bounds, after those of the earlier
      dependencies. */
  method HookDerived(rt: Runtime, cell: Emitter, deps: seq<Binding>, combine: seq<Value> -> Value, i: nat,
                     ghost base: seq<Handler>, ghost start: nat)
    requires rt.Valid() && i < |deps|
    requires cell !in Emitters(deps)
    requires NoHandlerOn(rt.handlers, cell)
    requires rt.nextId == start + i
    requires rt.handlers == base + DeriveHandlers(start, deps, i, combine, cell)
    modifies rt`handlers, rt`nextId
    ensures rt.Valid() && rt.nextId == start + i + 1
    ensures rt.handlers == base + DeriveHandlers(start, deps, i + 1, combine, cell)
    ensures NoHandlerOn(rt.handlers, cell)
  {
    assert deps[i].emitter in Emitters(deps);
    var _ := Hook(rt, cell, deps[i].emitter, SignalKey(deps[i]), DeriveWriter(deps, combine, cell));
    DeriveHandlersGrow(start, deps, i, combine, cell);
  }

  /** `new State(seed)` as `derive` makes it: a fresh cell, which no handler is
      on and no dependency reads. */
  method NewDerived(rt: Runtime, deps: seq<Binding>, seed: Value) returns (s: State)
    modifies rt`nextAlloc
    ensures s.Valid() && fresh(s.cell)
    ensures s.cell.props == map["value" := Box(seed, old(rt.nextAlloc))] && rt.nextAlloc == old(rt.nextAlloc) + 1
    ensures s.cell !in Emitters(deps)
    ensures NoHandlerOn(rt.handlers, s.cell)
  {
    s := new State(rt, seed);
  }

  /** The loop of `derive`: one `sync` per dependency, in order. Each first
      write evaluates `combine` once and stores a fresh wrapper. */
  method SyncAll(rt: Runtime, s: State, deps: seq<Binding>, combine: seq<Value> -> Value, seed: Value) returns (evaluations: nat)
    requires rt.Valid() && s.Valid()
    requires rt.nextAlloc > 0
    requires seed == combine(Values(deps)) && s.cell.props == map["value" := Box(seed, rt.nextAlloc - 1)]
    requires s.cell !in Emitters(deps)
    requires NoHandlerOn(rt.handlers, s.cell)
    modifies rt`handlers, rt`nextId, rt`nextAlloc, s.cell`props, s.cell`calls
    ensures rt.Valid() && s.Valid()
    ensures evaluations == |deps|
    ensures rt.nextAlloc == old(rt.nextAlloc) + |deps|
    ensures s.cell.props == map["value" := Box(seed, rt.nextAlloc - 1)]
    ensures rt.nextId == old(rt.nextId) + |deps|
    ensures rt.handlers == old(rt.handlers) + DeriveHandlers(old(rt.nextId), deps, |deps|, combine, s.cell)
  {
    evaluations := 0;
    ghost var base := rt.handlers;
    var start := rt.nextId;
    var i := 0;
    while i < |deps|
      invariant DeriveProgress(rt, s, deps, combine, seed, base, start, i)
      invariant evaluations == i
      invariant rt.nextAlloc == old(rt.nextAlloc) + i
    {
      SyncDerived(rt, s, deps, combine, i, seed, base, start);
      evaluations := evaluations + 1;
      i := i + 1;
    }
  }

  /** `derive(deps, combine)`. The cell is seeded with `combine` over the current
      dependency values; each dependency then gets a `sync` whose first write
      evaluates `combine` again and stores a fresh wrapper, so `combine` runs
      `|deps| + 1` times and the cell ends up holding the last wrapper. */
  method Derive(rt: Runtime, deps: seq<Binding>, combine: seq<Value> -> Value) returns (s: State, evaluations: nat)
    requires rt.Valid()
    modifies rt`handlers, rt`nextId, rt`nextAlloc
    ensures rt.Valid() && s.Valid() && fresh(s.cell)
    ensures s.Get() == combine(Values(deps))
    ensures evaluations == |deps| + 1
    ensures rt.nextAlloc == old(rt.nextAlloc) + |deps| + 1
    ensures s.cell.props == map["value" := Box(combine(Values(deps)), rt.nextAlloc - 1)]
    ensures rt.nextId == old(rt.nextId) + |deps|
    ensures rt.handlers == old(rt.handlers) + DeriveHandlers(old(rt.nextId), deps, |deps|, combine, s.cell)
  {
    var seed := combine(Values(deps));
    s := NewDerived(rt, deps, seed);
    var synced := SyncAll(rt, s, deps, combine, seed);
    evaluations := synced + 1;
  }

  /** One `[object, signal, reducer]` triple of `observe`. */
  datatype Observed = Observed(obj: Emitter, signal: string, reducer: seq<Value> -> Value)

  /** The handlers `observe` connects: one per triple, owned by the state's cell. */
  function ObserveHandlers(first: nat, signals: seq<Observed>, n: nat, s: State): seq<Handler>
    requires n <= |signals|
  {
    seq(n, i requires 0 <= i < n => Handler(first + i, signals[i].obj, signals[i].signal, ObserveReducer(s, signals[i].reducer), Some(s.cell)))
  }

  /** `observe(init, ...signals)`: a state seeded with `init` and one hook per
      triple, in order, scoped to the state's cell. */
  method Observe(rt: Runtime, init: Value, signals: seq<Observed>) returns (s: State)
    requires rt.Valid()
    modifies rt`handlers, rt`nextId, rt`nextAlloc
    ensures rt.Valid() && s.Valid() && fresh(s.cell)
    ensures s.Get() == init
    ensures rt.nextAlloc == old(rt.nextAlloc) + 1
    ensures rt.nextId == old(rt.nextId) + |signals|
    ensures rt.handlers == old(rt.handlers) + ObserveHandlers(old(rt.nextId), signals, |signals|, s)
  {
    s := new State(rt, init);
    var start := rt.nextId;
    var i := 0;
    while i < |signals|
      invariant 0 <= i <= |signals|
      invariant rt.Valid() && s.Valid() && fresh(s.cell) && s.Get() == init
      invariant rt.nextAlloc == old(rt.nextAlloc) + 1
      invariant rt.nextId == start + i
      invariant rt.handlers == old(rt.handlers) + ObserveHandlers(start, signals, i, s)
    {
      var _ := Hook(rt, s.cell, signals[i].obj, signals[i].signal, ObserveReducer(s, signals[i].reducer));
      assert ObserveHandlers(start, signals, i + 1, s) == ObserveHandlers(start, signals, i, s) +
        [Handler(start + i, signals[i].obj, signals[i].signal, ObserveReducer(s, signals[i].reducer), Some(s.cell))];
      i := i + 1;
    }
  }

  // ---------------------------------------------------------------------------
  // Running a delivery

  /** The objects a delivery to this subscription may write. */
  function Touched(sub: Subscription): set<object> {
    match sub
    case StateSubscriber(_) => {}
    case BindingSubscriber(_, action) => if action.WriteTo? then {action.target} else {}
    case DeriveWriter(_, _, cell) => {cell}
    case ObserveReducer(s, _) => {s.cell}
  }

  /** Run one delivery; `next` is the wave of deliveries its write causes, which
      GObject runs depth-first before the rest of the current wave.
      - a state subscriber gets the cell's unwrapped value;
      - a binding subscriber re-reads `get()`;
      - a `sync` writer writes `get()` through the private `set`;
      - a `derive` writer recomputes over all current dependency values and
        writes a fresh wrapper, so it notifies even when the value is the same;
      - an `observe` reducer goes through the equality-gated `State.set`. */
  method Fire(rt: Runtime, d: Delivery) returns (next: seq<Delivery>)
    requires d.handler.sub.ObserveReducer? ==> d.handler.sub.state.Valid()
    modifies rt`log, rt`nextAlloc, Touched(d.handler.sub)
    ensures d.handler.sub.StateSubscriber? ==>
              && rt.log == old(rt.log) + [Invocation(d.handler.sub.callback, Unwrap(old(Lookup(d.handler.instance.props, "value"))))]
              && next == [] && rt.nextAlloc == old(rt.nextAlloc)
    ensures d.handler.sub.BindingSubscriber? && d.handler.sub.action.Invoke? ==>
              && rt.log == old(rt.log) + [Invocation(d.handler.sub.action.callback, old(d.handler.sub.binding.Get()))]
              && next == [] && rt.nextAlloc == old(rt.nextAlloc)
    ensures d.handler.sub.BindingSubscriber? && d.handler.sub.action.WriteTo? ==>
              var (b, target, prop) := (d.handler.sub.binding, d.handler.sub.action.target, d.handler.sub.action.prop);
              && target.props == AssignedProps(target.setters, old(target.props), prop, old(b.Get()))
              && target.calls == AssignedCalls(target.setters, old(target.calls), prop, old(b.Get()))
              && next == (if SetterName(prop) !in target.setters && prop in target.registered
                          then rt.Emission(target, "notify", Some(prop), []) else [])
              && rt.log == old(rt.log) && rt.nextAlloc == old(rt.nextAlloc)
    ensures d.handler.sub.DeriveWriter? ==>
              var (deps, combine, cell) := (d.handler.sub.deps, d.handler.sub.combine, d.handler.sub.cell);
              var w := Box(old(combine(Values(deps))), old(rt.nextAlloc));
              && cell.props == AssignedProps(cell.setters, old(cell.props), "value", w)
              && cell.calls == AssignedCalls(cell.setters, old(cell.calls), "value", w)
              && next == (if SetterName("value") !in cell.setters && "value" in cell.registered
                          then rt.Emission(cell, "notify", Some("value"), []) else [])
              && rt.log == old(rt.log) && rt.nextAlloc == old(rt.nextAlloc) + 1
    ensures d.handler.sub.ObserveReducer? ==>
              var (s, v) := (d.handler.sub.state, d.handler.sub.reducer(d.args));
              && s.Valid() && s.Get() == v && rt.log == old(rt.log)
              && (old(s.Get()) == v ==> next == [] && s.cell.props == old(s.cell.props))
              && (old(s.Get()) != v ==> next == rt.Emission(s.cell, "notify", Some("value"), []))
  {
    match d.handler.sub
    case StateSubscriber(callback) =>
      rt.log := rt.log + [Invocation(callback, Unwrap(Lookup(d.handler.instance.props, "value")))];
      next := [];
    case BindingSubscriber(b, action) =>
      if action.Invoke? {
        rt.log := rt.log + [Invocation(action.callback, b.Get())];
        next := [];
      } else {
        next := Assign(rt, action.target, action.prop, b.Get());
      }
    case DeriveWriter(deps, combine, cell) =>
      var v := combine(Values(deps));
      var id := rt.Allocate();
      next := Assign(rt, cell, "value", Box(v, id));
    case ObserveReducer(s, reducer) =>
      var stored;
      stored, next := s.Set(rt, reducer(d.args));
  }

  // ---------------------------------------------------------------------------
  // Worked examples

  function Double(v: Value): Value {
    if v.Num? then Num(v.n * 2) else Undefined
  }

  function Increment(xs: seq<Value>): Value {
    if |xs| == 1 && xs[0].Num? then Num(xs[0].n + 1) else Undefined
  }

  /** `s = new State(1); b = s(x => x * 2)`: `b.get()` is 2, and 10 after `s.set(5)`. */
  method DoubledExample(rt: Runtime) returns (before: Value, after: Value)
    modifies rt`nextAlloc
    ensures before == Num(2) && after == Num(10)
  {
    var s := new State(rt, Num(1));
    var b := s.Call(Some(Double));
    CallReadsState(s, Some(Double));
    before := b.Get();
    var stored, ds := s.Set(rt, Num(5));
    CallReadsState(s, Some(Double));
    after := b.Get();
  }

  /** A lone `notify::value` handler on a cell receives that cell's
      `notify::value` emission. */
  lemma OneValueSubscriber(cell: Emitter)
    ensures var h := Handler(1, cell, "notify::value", StateSubscriber(0), None);
            Deliveries([h], cell, "notify", Some("value"), []) == [Delivery(h, [])]
  {
    var h := Handler(1, cell, "notify::value", StateSubscriber(0), None);
    assert Fires(h, cell, "notify", Some("value")) by {
      assert "notify::value" == "notify" + "::" + "value";
    }
    assert Deliveries([h], cell, "notify", Some("value"), []) == [Delivery(h, [])] + Deliveries([], cell, "notify", Some("value"), []);
  }

  /** `s = new State([1]); s.subscribe(cb); s.set([1])`: the second array has
      the same elements but is another array, so it passes the `!==` gate and
      the subscriber is notified. */
  method ArrayGateExample() returns (ds: seq<Delivery>)
    ensures |ds| == 1 && ds[0].handler.sub == StateSubscriber(0)
  {
    var rt := new Runtime();
    var first := rt.Allocate();
    var s := new State(rt, Arr([Num(1)], first));
    var _ := s.Subscribe(rt, CallbackArg(0), None);
    var second := rt.Allocate();
    assert Arr([Num(1)], first) != Arr([Num(1)], second);
    var _, d := s.Set(rt, Arr([Num(1)], second));
    OneValueSubscriber(s.cell);
    ds := d;
  }

  /** `derive([bind(s)], x => x + 1)` while `s` holds 5. */
  method DeriveIncrement(rt: Runtime, s: State) returns (d: State)
    requires rt.Valid() && s.Valid() && s.Get() == Num(5)
    modifies rt`handlers, rt`nextId, rt`nextAlloc
    ensures rt.Valid() && d.Valid() && fresh(d.cell) && d.Get() == Num(6)
  {
    CallReadsState(s, None);
    assert Values([BindState(s)]) == [Num(5)];
    var evaluations;
    d, evaluations := Derive(rt, [BindState(s)], Increment);
  }

  /** `d = derive([bind(s)], x => x + 1)` with `s` at 5: `d.get()` is 6, and a
      second `s.set(5)` reaches nobody and leaves `d` as it is. */
  method DerivedExample(rt: Runtime) returns (first: Value, ds: seq<Delivery>, second: Value)
    requires rt.Valid()
    modifies rt`handlers, rt`nextId, rt`nextAlloc
    ensures first == Num(6) && ds == [] && second == Num(6)
  {
    var s := new State(rt, Num(1));
    var stored, wave := s.Set(rt, Num(5));
    var d := DeriveIncrement(rt, s);
    first := d.Get();
    stored, ds := s.Set(rt, Num(5));
    second := d.Get();
  }
}
