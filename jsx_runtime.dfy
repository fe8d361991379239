/**
  The JSX factory of `src/jsx-runtime.ts`: how `jsx` splits its props, which
  props reach the constructor, how `children` is normalised and flattened and
  handed to the parent, and `Fragment`.

  Props are an object's own entries in order, with distinct keys. Constructing
  the object (`new ctor(props)` or `ctor(props)`) is foreign: the model returns
  the props the constructor is given and the calls made on the new object.
 */
module JsxRuntime {
  import opened Wrappers
  import opened JsValue

  type Entries = seq<(string, Value)>

  predicate DistinctKeys(ps: Entries) {
    forall i, j :: 0 <= i < j < |ps| ==> ps[i].0 != ps[j].0
  }

  predicate HasKey(ps: Entries, k: string) {
    exists i :: 0 <= i < |ps| && ps[i].0 == k
  }

  /** `obj[k]`: `undefined` for a missing key. */
  function Get(ps: Entries, k: string): (v: Value)
    ensures !HasKey(ps, k) ==> v == Undefined
    ensures forall i :: 0 <= i < |ps| && ps[i].0 == k && (forall j :: 0 <= j < i ==> ps[j].0 != k) ==> v == ps[i].1
  {
    if ps == [] then Undefined
    else if ps[0].0 == k then ps[0].1
    else Get(ps[1..], k)
  }

  /** `delete obj[k]`: every other entry, in order. */
  function RemoveKey(ps: Entries, k: string): (r: Entries)
    ensures !HasKey(r, k)
    ensures |r| <= |ps|
  {
    if ps == [] then []
    else if ps[0].0 == k then RemoveKey(ps[1..], k)
    else
      assert !HasKey(RemoveKey(ps[1..], k), k);
      [ps[0]] + RemoveKey(ps[1..], k)
  }

  /** Where the first entry under `k` sits, or `|ps|` when there is none. */
  function KeyIndex(ps: Entries, k: string): (n: nat)
    ensures n <= |ps|
    ensures n < |ps| <==> HasKey(ps, k)
    ensures n < |ps| ==> ps[n].0 == k
    ensures forall i :: 0 <= i < n ==> ps[i].0 != k
  {
    if ps == [] then 0
    else if ps[0].0 == k then 0
    else
      var n := 1 + KeyIndex(ps[1..], k);
      assert forall i :: 1 <= i < n ==> ps[i] == ps[1..][i - 1];
      assert HasKey(ps[1..], k) ==> HasKey(ps, k);
      assert HasKey(ps, k) ==> HasKey(ps[1..], k) by {
        if HasKey(ps, k) {
          var i :| 0 <= i < |ps| && ps[i].0 == k;
          assert ps[1..][i - 1] == ps[i];
        }
      }
      n
  }

  /** `obj[k] = v`: an existing key keeps its place and takes the new value,
      every other entry stays where it is, and a new key goes last. */
  function SetKey(ps: Entries, k: string, v: Value): (r: Entries)
    ensures !HasKey(ps, k) ==> r == ps + [(k, v)]
    ensures HasKey(ps, k) ==> |r| == |ps|
    ensures HasKey(ps, k) ==> forall i :: 0 <= i < |ps| ==> r[i] == (if i == KeyIndex(ps, k) then (k, v) else ps[i])
  {
    if ps == [] then [(k, v)]
    else if ps[0].0 == k then [(k, v)] + ps[1..]
    else
      var rest := SetKey(ps[1..], k, v);
      HasKeyCons(ps, k);
      [ps[0]] + rest
  }

  /** After `obj[k] = v`, reading `k` gives `v` and every other key reads as
      before. */
  lemma {:induction false} SetKeyReads(ps: Entries, k: string, v: Value)
    ensures HasKey(SetKey(ps, k, v), k) && Get(SetKey(ps, k, v), k) == v
    ensures forall k' :: k' != k ==> HasKey(SetKey(ps, k, v), k') == HasKey(ps, k') && Get(SetKey(ps, k, v), k') == Get(ps, k')
  {
    var r := SetKey(ps, k, v);
    if ps == [] {
      assert r[0].0 == k;
      forall k' | k' != k ensures !HasKey(r, k') {
        HasKeyCons(r, k');
      }
    } else if ps[0].0 == k {
      assert r[0].0 == k;
      SameTail(ps, r);
    } else {
      var rest := SetKey(ps[1..], k, v);
      SetKeyReads(ps[1..], k, v);
      assert r == [ps[0]] + rest && r[1..] == rest;
      HasKeyCons(r, k);
      forall k' | k' != k
        ensures HasKey(r, k') == HasKey(ps, k') && Get(r, k') == Get(ps, k')
      {
        HasKeyCons(ps, k');
        HasKeyCons(r, k');
      }
    }
  }

  /** Two tables whose first keys are both `k` and whose tails agree agree on
      every other key. */
  lemma SameTail(ps: Entries, r: Entries)
    requires |ps| > 0 && |r| > 0 && ps[0].0 == r[0].0 && ps[1..] == r[1..]
    ensures forall k' :: k' != ps[0].0 ==> HasKey(r, k') == HasKey(ps, k') && Get(r, k') == Get(ps, k')
  {
    forall k' | k' != ps[0].0
      ensures HasKey(r, k') == HasKey(ps, k')
    {
      if HasKey(r, k') {
        var i :| 0 <= i < |r| && r[i].0 == k';
        assert ps[i] == r[i];
      }
      if HasKey(ps, k') {
        var i :| 0 <= i < |ps| && ps[i].0 == k';
        assert ps[i] == r[i];
      }
    }
  }

  lemma HasKeyCons(ps: Entries, k: string)
    requires |ps| > 0
    ensures HasKey(ps, k) <==> ps[0].0 == k || HasKey(ps[1..], k)
  {
    if HasKey(ps, k) && ps[0].0 != k {
      var i :| 0 <= i < |ps| && ps[i].0 == k;
      assert ps[1..][i - 1] == ps[i];
    }
    if HasKey(ps[1..], k) {
      var i :| 0 <= i < |ps[1..]| && ps[1..][i].0 == k;
      assert ps[i + 1] == ps[1..][i];
    }
  }

  predicate StartsWith(s: string, prefix: string) {
    |prefix| <= |s| && s[..|prefix|] == prefix
  }

  predicate IsSignalKey(k: string) {
    StartsWith(k, "on-")
  }

  // ---------------------------------------------------------------------------
  // Splitting out the `on-*` props

  /** The entries that stay props, in order. */
  function PlainEntries(ps: Entries): Entries {
    if ps == [] then []
    else PlainEntries(ps[..|ps| - 1]) + (if IsSignalKey(ps[|ps| - 1].0) then [] else [ps[|ps| - 1]])
  }

  /** The `[key.slice(3), handler]` pairs, in order. */
  function SignalEntries(ps: Entries): Entries {
    if ps == [] then []
    else
      var (k, v) := ps[|ps| - 1];
      SignalEntries(ps[..|ps| - 1]) + (if IsSignalKey(k) then [(k[3..], v)] else [])
  }

  lemma {:induction false} RemoveKeyAbsent(ps: Entries, k: string)
    requires !HasKey(ps, k)
    ensures RemoveKey(ps, k) == ps
  {
    if ps != [] {
      assert !HasKey(ps[1..], k) by {
        forall i | 0 <= i < |ps[1..]| ensures ps[1..][i].0 != k {
          assert ps[1..][i] == ps[i + 1];
        }
      }
      RemoveKeyAbsent(ps[1..], k);
      assert [ps[0]] + ps[1..] == ps;
    }
  }

  lemma {:induction false} RemoveKeyAppend(a: Entries, b: Entries, k: string)
    ensures RemoveKey(a + b, k) == RemoveKey(a, k) + RemoveKey(b, k)
  {
    if a != [] {
      assert (a + b)[1..] == a[1..] + b;
      RemoveKeyAppend(a[1..], b, k);
    } else {
      assert a + b == b;
    }
  }

  /** Every key of the plain entries is a key of the input. */
  lemma {:induction false} PlainEntriesKeys(ps: Entries, k: string)
    ensures HasKey(PlainEntries(ps), k) ==> HasKey(ps, k)
  {
    if ps != [] && HasKey(PlainEntries(ps), k) {
      var init := ps[..|ps| - 1];
      var p := PlainEntries(ps);
      var i :| 0 <= i < |p| && p[i].0 == k;
      if i < |PlainEntries(init)| {
        assert p[i] == PlainEntries(init)[i];
        PlainEntriesKeys(init, k);
        var j :| 0 <= j < |init| && init[j].0 == k;
        assert ps[j] == init[j];
      } else {
        assert p[i] == ps[|ps| - 1];
      }
    }
  }

  /** A key that none of `ps[n..]` carries. */
  lemma NoKeyInSuffix(ps: Entries, n: int, k: string)
    requires 0 <= n <= |ps|
    requires forall j :: n <= j < |ps| ==> ps[j].0 != k
    ensures !HasKey(ps[n..], k)
  {
    var tail := ps[n..];
    forall j | 0 <= j < |tail|
      ensures tail[j].0 != k
    {
      assert tail[j] == ps[n + j];
    }
  }

  /** Deleting the key under the cursor, in a table whose earlier part is
      already split and whose keys are distinct, leaves exactly the rest. */
  lemma DeleteAtCursor(entries: Entries, i: int)
    requires DistinctKeys(entries) && 0 <= i < |entries|
    ensures RemoveKey(PlainEntries(entries[..i]) + entries[i..], entries[i].0) == PlainEntries(entries[..i]) + entries[i + 1..]
  {
    var k := entries[i].0;
    var done := PlainEntries(entries[..i]);
    var rest := entries[i..];
    RemoveKeyAppend(done, rest, k);
    NoKeyInSuffix(entries[..i], 0, k);
    assert entries[..i][0..] == entries[..i];
    PlainEntriesKeys(entries[..i], k);
    RemoveKeyAbsent(done, k);
    assert rest == [entries[i]] + entries[i + 1..];
    NoKeyInSuffix(entries, i + 1, k);
    RemoveKeyAbsent(entries[i + 1..], k);
  }

  /** One turn of the loop below keeps its invariant. */
  lemma PartitionStep(entries: Entries, i: int)
    requires DistinctKeys(entries) && 0 <= i < |entries|
    ensures IsSignalKey(entries[i].0) ==>
              RemoveKey(PlainEntries(entries[..i]) + entries[i..], entries[i].0) == PlainEntries(entries[..i + 1]) + entries[i + 1..]
    ensures !IsSignalKey(entries[i].0) ==>
              PlainEntries(entries[..i]) + entries[i..] == PlainEntries(entries[..i + 1]) + entries[i + 1..]
    ensures SignalEntries(entries[..i + 1]) ==
              SignalEntries(entries[..i]) + (if IsSignalKey(entries[i].0) then [(entries[i].0[3..], entries[i].1)] else [])
  {
    assert entries[..i + 1][..i] == entries[..i];
    assert entries[..i + 1][i] == entries[i];
    if IsSignalKey(entries[i].0) {
      DeleteAtCursor(entries, i);
    } else {
      assert entries[i..] == [entries[i]] + entries[i + 1..];
    }
  }

  /** The loop of `jsx` over `Object.entries(props)`: each `on-*` entry is
      moved to `signals` and deleted from `props`; the entries are a snapshot,
      so deleting the current key does not disturb the iteration. */
  method Partition(props: Entries) returns (plain: Entries, signals: Entries)
    requires DistinctKeys(props)
    ensures plain == PlainEntries(props)
    ensures signals == SignalEntries(props)
  {
    var entries := props;
    plain := props;
    signals := [];
    var i := 0;
    while i < |entries|
      invariant 0 <= i <= |entries|
      invariant plain == PlainEntries(entries[..i]) + entries[i..]
      invariant signals == SignalEntries(entries[..i])
    {
      var (key, handler) := entries[i];
      PartitionStep(entries, i);
      if IsSignalKey(key) {
        signals := signals + [(key[3..], handler)];
        plain := RemoveKey(plain, key);
      }
      i := i + 1;
    }
    assert entries[..i] == entries;
  }

  /** The split loses nothing and invents nothing: every `on-*` entry shows up
      as a signal under its key minus `on-`, every other entry stays a prop, in
      order, and the counts add up. */
  lemma {:induction false} PartitionSound(ps: Entries)
    ensures |PlainEntries(ps)| + |SignalEntries(ps)| == |ps|
    ensures forall k :: 0 <= k < |PlainEntries(ps)| ==> !IsSignalKey(PlainEntries(ps)[k].0)
    ensures forall i :: 0 <= i < |ps| && !IsSignalKey(ps[i].0) ==> ps[i] in PlainEntries(ps)
    ensures forall i :: 0 <= i < |ps| && IsSignalKey(ps[i].0) ==> (ps[i].0[3..], ps[i].1) in SignalEntries(ps)
  {
    PartitionCounts(ps);
    PlainEntriesArePlain(ps);
    PlainEntriesKept(ps);
    SignalEntriesKept(ps);
  }

  lemma {:induction false} PartitionCounts(ps: Entries)
    ensures |PlainEntries(ps)| + |SignalEntries(ps)| == |ps|
  {
    if ps != [] {
      PartitionCounts(ps[..|ps| - 1]);
    }
  }

  lemma {:induction false} PlainEntriesArePlain(ps: Entries)
    ensures forall k :: 0 <= k < |PlainEntries(ps)| ==> !IsSignalKey(PlainEntries(ps)[k].0)
  {
    if ps != [] {
      var init := ps[..|ps| - 1];
      var last := ps[|ps| - 1];
      PlainEntriesArePlain(init);
      assert PlainEntries(ps) == PlainEntries(init) + (if IsSignalKey(last.0) then [] else [last]);
    }
  }

  lemma {:induction false} PlainEntriesKept(ps: Entries)
    ensures forall i :: 0 <= i < |ps| && !IsSignalKey(ps[i].0) ==> ps[i] in PlainEntries(ps)
  {
    if ps != [] {
      var init := ps[..|ps| - 1];
      var last := ps[|ps| - 1];
      PlainEntriesKept(init);
      assert PlainEntries(ps) == PlainEntries(init) + (if IsSignalKey(last.0) then [] else [last]);
      forall i | 0 <= i < |ps| && !IsSignalKey(ps[i].0)
        ensures ps[i] in PlainEntries(ps)
      {
        if i < |ps| - 1 {
          assert ps[i] == init[i];
        }
      }
    }
  }

  lemma {:induction false} SignalEntriesKept(ps: Entries)
    ensures forall i :: 0 <= i < |ps| && IsSignalKey(ps[i].0) ==> (ps[i].0[3..], ps[i].1) in SignalEntries(ps)
  {
    if ps != [] {
      var init := ps[..|ps| - 1];
      var last := ps[|ps| - 1];
      SignalEntriesKept(init);
      assert SignalEntries(ps) == SignalEntries(init) + (if IsSignalKey(last.0) then [(last.0[3..], last.1)] else []);
      forall i | 0 <= i < |ps| && IsSignalKey(ps[i].0)
        ensures (ps[i].0[3..], ps[i].1) in SignalEntries(ps)
      {
        if i < |ps| - 1 {
          assert ps[i] == init[i];
        }
      }
    }
  }

  /** A props object without `on-*` keys goes to the constructor unchanged. */
  lemma {:induction false} PartitionNoSignals(ps: Entries)
    requires forall i :: 0 <= i < |ps| ==> !IsSignalKey(ps[i].0)
    ensures PlainEntries(ps) == ps && SignalEntries(ps) == []
  {
    if ps != [] {
      PartitionNoSignals(ps[..|ps| - 1]);
      assert ps[..|ps| - 1] + [ps[|ps| - 1]] == ps;
    }
  }

  // ---------------------------------------------------------------------------
  // Children

  /** `children = []` by default, then `Array.isArray(children) ? children : [children]`. */
  function Children(v: Value): (r: seq<Value>)
    ensures v.Arr? ==> r == v.items
    ensures v.Undefined? ==> r == []
    ensures !v.Arr? && !v.Undefined? ==> r == [v]
  {
    if v.Undefined? then [] else if v.Arr? then v.items else [v]
  }

  predicate NoArrays(xs: seq<Value>) {
    forall i :: 0 <= i < |xs| ==> !xs[i].Arr?
  }

  /** `array.flat(Infinity)`: nested arrays spliced in place, to any depth, so
      that no array is left. */
  function Flat(xs: seq<Value>): (r: seq<Value>)
    ensures NoArrays(r)
    decreases xs
  {
    if xs == [] then []
    else (if xs[0].Arr? then Flat(xs[0].items) else [xs[0]]) + Flat(xs[1..])
  }

  lemma {:induction false} FlatAppend(a: seq<Value>, b: seq<Value>)
    ensures Flat(a + b) == Flat(a) + Flat(b)
    decreases a
  {
    if a != [] {
      assert (a + b)[0] == a[0];
      assert (a + b)[1..] == a[1..] + b;
      FlatAppend(a[1..], b);
    } else {
      assert a + b == b;
    }
  }

  /** A list without arrays is already flat. */
  lemma {:induction false} FlatOfFlat(xs: seq<Value>)
    requires NoArrays(xs)
    ensures Flat(xs) == xs
  {
    if xs != [] {
      FlatOfFlat(xs[1..]);
      assert [xs[0]] + xs[1..] == xs;
    }
  }

  lemma FlatIdempotent(xs: seq<Value>)
    ensures Flat(Flat(xs)) == Flat(xs)
  {
    FlatOfFlat(Flat(xs));
  }

  // ---------------------------------------------------------------------------
  // jsx

  /** How the parent object takes children, if at all. */
  datatype ChildApi = AddChildMethod | Buildable | NoChildApi

  /** `isGObject(ctor)`, abstractly: a GObject class, or a function component. */
  datatype Ctor = GObjectClass(api: ChildApi) | FunctionComponent

  /** One call adding a child, with the child's type attribute. */
  datatype ChildCall =
    | AddChild(child: Value, childType: Value)        // `object.addChild(child, child[typeAttr])`
    | AddBuildable(child: Value, childType: Value)    // `object.vfunc_add_child(builder, child, child[typeAttr])`

  /** What `jsx` did: the props the constructor got, the type attribute it
      attached, the signal pairs it collected (and never connects), the child
      calls on the new object, and the `$$` callback it then called. */
  datatype Built = Built(ctorProps: Entries, typeAttr: Value, signals: Entries, childCalls: seq<ChildCall>, setup: Option<nat>)

  /** Why `jsx` threw, with what it had done by then: a `null`/`undefined`
      child throws after the object was built and the earlier children were
      added; a non-callable `$$` throws after the whole build. */
  datatype JsxError = NullishChild(partial: Built) | NotCallable(built: Built)

  /** `child[typeAttr]`: the type attribute `jsx` attached to an element it
      built (`types` maps an element's allocation to it); any other value has
      none. Reading it off `null` or `undefined` throws. */
  function ChildType(child: Value, types: map<nat, Value>): Value {
    if child.Ref? && child.id in types then types[child.id] else Undefined
  }

  function ChildCallFor(api: ChildApi, child: Value, types: map<nat, Value>): ChildCall
    requires api != NoChildApi
  {
    if api == AddChildMethod then AddChild(child, ChildType(child, types))
    else AddBuildable(child, ChildType(child, types))
  }

  /** The loop over `children.flat(Infinity)` for a GObject parent. Reading
      `child[typeAttr]` off a `null` or `undefined` child throws, so the calls
      stop there and `failed` is set; the calls made before it are kept. */
  method AddChildren(api: ChildApi, children: seq<Value>, types: map<nat, Value>) returns (calls: seq<ChildCall>, failed: bool)
    ensures api == NoChildApi ==> calls == [] && !failed
    ensures api != NoChildApi ==>
              (failed <==> exists i :: 0 <= i < |Flat(children)| && IsNullish(Flat(children)[i]))
    ensures api != NoChildApi ==> |calls| <= |Flat(children)|
    ensures api != NoChildApi ==>
              forall i :: 0 <= i < |calls| ==> !IsNullish(Flat(children)[i]) && calls[i] == ChildCallFor(api, Flat(children)[i], types)
    ensures api != NoChildApi && failed ==> |calls| < |Flat(children)| && IsNullish(Flat(children)[|calls|])
    ensures api != NoChildApi && !failed ==> |calls| == |Flat(children)|
  {
    var flat := Flat(children);
    calls := [];
    failed := false;
    var i := 0;
    while i < |flat|
      invariant 0 <= i <= |flat|
      invariant api == NoChildApi ==> calls == []
      invariant api != NoChildApi ==> |calls| == i
      invariant api != NoChildApi ==> forall j :: 0 <= j < i ==> !IsNullish(flat[j]) && calls[j] == ChildCallFor(api, flat[j], types)
    {
      var child := flat[i];
      if api != NoChildApi {
        if IsNullish(child) {
          assert 0 <= i < |Flat(children)| && IsNullish(Flat(children)[i]);
          failed := true;
          return;
        }
        calls := calls + [ChildCallFor(api, child, types)];
      }
      i := i + 1;
    }
  }

  /** `$type ?? null` */
  function TypeAttr(t: Value): (r: Value)
    ensures !IsNullish(t) ==> r == t
    ensures IsNullish(t) ==> r == Null
  {
    Coalesce(t, Null)
  }

  /** The array `children` names after `children = []` and the `isArray`
      test: the caller's own array, or a new one numbered `newArray`. */
  function ChildrenArray(v: Value, newArray: nat): (r: Value)
    ensures r.Arr? && r.items == Children(v)
    ensures v.Arr? ==> r == v
    ensures !v.Arr? ==> r.id == newArray
  {
    if v.Arr? then v else Arr(Children(v), newArray)
  }

  /** The props a function component gets: with exactly one child, `child` is
      the children array itself (not its element); otherwise `children` is.
      Every other prop reaches the component unchanged. */
  function ComponentProps(props: Entries, children: Value): (r: Entries)
    requires children.Arr?
    ensures |children.items| == 1 ==> Get(r, "child") == children
    ensures |children.items| != 1 ==> Get(r, "children") == children
    ensures |children.items| == 1 ==> forall k :: k != "child" ==> HasKey(r, k) == HasKey(props, k) && Get(r, k) == Get(props, k)
    ensures |children.items| != 1 ==> forall k :: k != "children" ==> HasKey(r, k) == HasKey(props, k) && Get(r, k) == Get(props, k)
  {
    SetKeyReads(props, "child", children);
    SetKeyReads(props, "children", children);
    if |children.items| == 1 then SetKey(props, "child", children)
    else SetKey(props, "children", children)
  }

  /** `{ $$, $type = null, children = [], ...props }` */
  function RestProps(input: Entries): (r: Entries)
    ensures !HasKey(r, "$$") && !HasKey(r, "$type") && !HasKey(r, "children")
  {
    var r := RemoveKey(RemoveKey(RemoveKey(input, "$$"), "$type"), "children");
    assert !HasKey(r, "$type") && !HasKey(r, "$$") by {
      RemoveKeyKeeps(RemoveKey(input, "$$"), "$type", "$$");
      RemoveKeyKeeps(RemoveKey(RemoveKey(input, "$$"), "$type"), "children", "$type");
      RemoveKeyKeeps(RemoveKey(RemoveKey(input, "$$"), "$type"), "children", "$$");
    }
    r
  }

  /** Removing one key never brings another back. */
  lemma {:induction false} RemoveKeyKeeps(ps: Entries, k: string, other: string)
    requires !HasKey(ps, other)
    ensures !HasKey(RemoveKey(ps, k), other)
  {
    if ps != [] {
      assert !HasKey(ps[1..], other) by {
        forall i | 0 <= i < |ps[1..]| ensures ps[1..][i].0 != other {
          assert ps[1..][i] == ps[i + 1];
        }
      }
      RemoveKeyKeeps(ps[1..], k, other);
    }
  }

  lemma {:induction false} RemoveKeySub(ps: Entries, k: string)
    ensures forall i :: 0 <= i < |RemoveKey(ps, k)| ==> RemoveKey(ps, k)[i] in ps
  {
    if ps != [] {
      RemoveKeySub(ps[1..], k);
    }
  }

  lemma {:induction false} RemoveKeyDistinct(ps: Entries, k: string)
    requires DistinctKeys(ps)
    ensures DistinctKeys(RemoveKey(ps, k))
  {
    if ps != [] {
      RemoveKeyDistinct(ps[1..], k);
      RemoveKeySub(ps[1..], k);
      if ps[0].0 != k {
        var r := RemoveKey(ps[1..], k);
        forall j | 0 <= j < |r| ensures r[j].0 != ps[0].0 {
          var m :| 0 <= m < |ps[1..]| && ps[1..][m] == r[j];
          assert ps[m + 1] == r[j];
        }
      }
    }
  }

  /** `children.flat(Infinity)` after the normalisation of `children`. */
  function FlatChildren(input: Entries): seq<Value> {
    Flat(Children(Get(input, "children")))
  }

  /** Some flattened child is `null` or `undefined`. */
  predicate HasNullishChild(input: Entries) {
    exists i :: 0 <= i < |FlatChildren(input)| && IsNullish(FlatChildren(input)[i])
  }

  /** What `jsx` has done to `b` once the object exists: the constructor got
      the split props (a component: with the children choice), the type
      attribute and the collected signals are recorded, and the child calls so
      far are the first ones of the flattened children, in order. A parent
      without a child API and a component get no child calls. */
  predicate Begun(b: Built, ctor: Ctor, input: Entries, types: map<nat, Value>, newArray: nat) {
    var flat := FlatChildren(input);
    var props := PlainEntries(RestProps(input));
    && b.typeAttr == TypeAttr(Get(input, "$type"))
    && b.signals == SignalEntries(RestProps(input))
    && (ctor.GObjectClass? ==> b.ctorProps == props)
    && (ctor.FunctionComponent? ==> b.ctorProps == ComponentProps(props, ChildrenArray(Get(input, "children"), newArray)))
    && (ctor.FunctionComponent? || ctor.api == NoChildApi ==> b.childCalls == [])
    && (ctor.GObjectClass? && ctor.api != NoChildApi ==>
          |b.childCalls| <= |flat| &&
          forall i :: 0 <= i < |b.childCalls| ==> b.childCalls[i] == ChildCallFor(ctor.api, flat[i], types))
  }

  /** Every flattened child was added (trivially so without a child API). */
  predicate AllAdded(b: Built, ctor: Ctor, input: Entries) {
    ctor.GObjectClass? && ctor.api != NoChildApi ==> |b.childCalls| == |FlatChildren(input)|
  }

  /** `jsx(ctor, input)`; `types` holds the type attributes of the elements
      built before, and `newArray` is the allocation number a new children array
      gets. */
  method Jsx(ctor: Ctor, input: Entries, types: map<nat, Value>, newArray: nat) returns (r: Result<Built, JsxError>)
    requires DistinctKeys(input)
    ensures r.Err? && r.error.NullishChild? <==> ctor.GObjectClass? && ctor.api != NoChildApi && HasNullishChild(input)
    ensures r.Err? && r.error.NotCallable? <==>
              !IsNullish(Get(input, "$$")) && !Get(input, "$$").Fn? && !(ctor.GObjectClass? && ctor.api != NoChildApi && HasNullishChild(input))
    ensures r.Ok? ==> Begun(r.value, ctor, input, types, newArray) && AllAdded(r.value, ctor, input)
    ensures r.Ok? ==> r.value.setup == (if Get(input, "$$").Fn? then Some(Get(input, "$$").id) else None)
    ensures r.Err? && r.error.NotCallable? ==>
              Begun(r.error.built, ctor, input, types, newArray) && AllAdded(r.error.built, ctor, input) && r.error.built.setup == None
    ensures r.Err? && r.error.NullishChild? ==>
              && Begun(r.error.partial, ctor, input, types, newArray) && r.error.partial.setup == None
              && |r.error.partial.childCalls| < |FlatChildren(input)| && IsNullish(FlatChildren(input)[|r.error.partial.childCalls|])
  {
    var setup := Get(input, "$$");
    var typeAttr := TypeAttr(Get(input, "$type"));
    var children := Children(Get(input, "children"));
    var rest := RestProps(input);
    RemoveKeyDistinct(input, "$$");
    RemoveKeyDistinct(RemoveKey(input, "$$"), "$type");
    RemoveKeyDistinct(RemoveKey(RemoveKey(input, "$$"), "$type"), "children");
    var props, signals := Partition(rest);
    var built: Built;
    if ctor.GObjectClass? {
      var calls, failed := AddChildren(ctor.api, children, types);
      built := Built(props, typeAttr, signals, calls, None);
      if failed {
        assert IsNullish(FlatChildren(input)[|calls|]);
        return Err(NullishChild(built));
      }
    } else {
      built := Built(ComponentProps(props, ChildrenArray(Get(input, "children"), newArray)), typeAttr, signals, [], None);
    }
    // `$$?.(object)`
    if IsNullish(setup) {
      r := Ok(built);
    } else if setup.Fn? {
      r := Ok(built.(setup := Some(setup.id)));
    } else {
      r := Err(NotCallable(built));
    }
  }

  /** The constructor never sees `$$`, `$type`, `children` or an `on-*` prop. */
  lemma ReservedPropsWithheld(input: Entries)
    ensures var props := PlainEntries(RestProps(input));
            && !HasKey(props, "$$") && !HasKey(props, "$type") && !HasKey(props, "children")
            && forall k :: 0 <= k < |props| ==> !IsSignalKey(props[k].0)
  {
    var rest := RestProps(input);
    PartitionSound(rest);
    if HasKey(PlainEntries(rest), "$$") { PlainEntriesKeys(rest, "$$"); }
    if HasKey(PlainEntries(rest), "$type") { PlainEntriesKeys(rest, "$type"); }
    if HasKey(PlainEntries(rest), "children") { PlainEntriesKeys(rest, "children"); }
  }

  // ---------------------------------------------------------------------------
  // Fragment

  /** A JavaScript array the caller owns; `Fragment` pushes onto it. */
  class JsArray {
    var items: seq<Value>

    constructor (items: seq<Value>)
      ensures this.items == items
    {
      this.items := items;
    }

    method Push(v: Value)
      modifies this
      ensures items == old(items) + [v]
    {
      items := items + [v];
    }
  }

  /** `Fragment({ children = [], child })`: push a truthy `child` onto the
      caller's array, then return that array flattened to any depth. */
  method Fragment(children: JsArray, child: Value) returns (r: seq<Value>)
    modifies children
    ensures children.items == old(children.items) + (if Truthy(child) then [child] else [])
    ensures r == Flat(children.items)
  {
    if Truthy(child) {
      children.Push(child);
    }
    r := Flat(children.items);
  }

  /** What `Fragment` returns: the flattened children, then the flattened child. */
  lemma FragmentResult(children: seq<Value>, child: Value)
    ensures Flat(children + (if Truthy(child) then [child] else [])) ==
              Flat(children) + (if !Truthy(child) then [] else if child.Arr? then Flat(child.items) else [child])
    ensures NoArrays(Flat(children + (if Truthy(child) then [child] else [])))
  {
    FlatAppend(children, if Truthy(child) then [child] else []);
  }
}
