/**
  The class decorators of `src/gobject.ts`: `property`, `signal`, `register`
  and the `pspec` dispatch behind `property`.

  A decorated class is a `ClassObject`: the per-class metadata table the
  decorators fill in (`cls[meta]`), the members of its prototype, and the
  registration `register` makes. An instance of a registered class is an
  `Instance`: the private value table of its generated properties and the
  log of what it notified and emitted. The GObject calls themselves
  (`registerClass`, `notify`, `emit`) are foreign and recorded as data.
 */
module GObjectDecorators {
  import opened Wrappers
  import opened JsValue
  import opened Naming
  import Reactive

  // ---------------------------------------------------------------------------
  // Flags and parameter specifications

  const READABLE: nat := 1
  const WRITABLE: nat := 2
  const READWRITE: nat := 3

  datatype SpecKind =
    | JsObjectSpec
    | StringSpec
    | DoubleSpec
    | BooleanSpec
    | ObjectSpec(gtype: string)
    | ForeignSpec        // whatever a user factory or a ready-made spec is

  /** A `GObject.ParamSpec`: kind, name, flags and `get_default_value()`. */
  datatype ParamSpec = ParamSpec(kind: SpecKind, name: string, flags: nat, defaultValue: Value)

  datatype BuiltinCtor = ObjectCtor | FunctionCtor | ArrayCtor | StringCtor | NumberCtor | BooleanCtor

  /** What `@property(declaration)` may be given. A missing declaration (or an
      explicit `undefined`) takes the default `Object`, so `@property()` is
      `Builtin(ObjectCtor)`. */
  datatype Declaration =
    | SpecInstance(spec: ParamSpec)                     // a ParamSpec instance
    | Builtin(ctor: BuiltinCtor)                        // one of the global constructors
    | ObjectLike(gtype: Option<string>,                 // any other object or function:
                 factory: Option<(string, nat) -> ParamSpec>)  // its `$gtype`, and itself when callable
    | Primitive                                         // null or a primitive other than undefined: `"$gtype" in d` throws

  datatype DecoratorError =
    | InvalidDeclaration          // `throw Error("invalid PropertyDeclaration")`
    | NotAnObject                 // the TypeError of `in` on a primitive
    | Redefinition(member: string)  // `Object.defineProperty` on a non-configurable member

  /** `pspec(name, flags, declaration)`: the first case that applies. */
  function Pspec(name: string, flags: nat, d: Declaration): (r: Result<ParamSpec, DecoratorError>)
    ensures d.SpecInstance? ==> r == Ok(d.spec)
    ensures r.Err? <==> d.Primitive? || (d.ObjectLike? && d.gtype.None? && d.factory.None?)
    ensures r.Err? ==> r.error == (if d.Primitive? then NotAnObject else InvalidDeclaration)
    ensures r.Ok? && (d.Builtin? || (d.ObjectLike? && d.gtype.Some?)) ==> r.value.name == name && r.value.flags == flags
  {
    match d
    case SpecInstance(spec) => Ok(spec)
    case Builtin(ctor) =>
      Ok(match ctor
         case StringCtor => ParamSpec(StringSpec, name, flags, Str(""))
         case NumberCtor => ParamSpec(DoubleSpec, name, flags, Num(0))
         case BooleanCtor => ParamSpec(BooleanSpec, name, flags, Bool(false))
         case _ => ParamSpec(JsObjectSpec, name, flags, Null))
    case ObjectLike(gtype, factory) =>
      if gtype.Some? then Ok(ParamSpec(ObjectSpec(gtype.value), name, flags, Null))
      else if factory.Some? then Ok(factory.value(name, flags))
      else Err(InvalidDeclaration)
    case Primitive => Err(NotAnObject)
  }

  /** The built-in constructors give the spec kind of their JavaScript type,
      whose default is that type's empty value; an object with a `$gtype` is
      checked before it is called, so a class constructor gives an object spec. */
  lemma PspecBuiltins(name: string, flags: nat, gtype: string, f: (string, nat) -> ParamSpec)
    ensures Pspec(name, flags, Builtin(ObjectCtor)) == Ok(ParamSpec(JsObjectSpec, name, flags, Null))
    ensures Pspec(name, flags, Builtin(FunctionCtor)) == Ok(ParamSpec(JsObjectSpec, name, flags, Null))
    ensures Pspec(name, flags, Builtin(ArrayCtor)) == Ok(ParamSpec(JsObjectSpec, name, flags, Null))
    ensures Pspec(name, flags, Builtin(StringCtor)) == Ok(ParamSpec(StringSpec, name, flags, Str("")))
    ensures Pspec(name, flags, Builtin(NumberCtor)) == Ok(ParamSpec(DoubleSpec, name, flags, Num(0)))
    ensures Pspec(name, flags, Builtin(BooleanCtor)) == Ok(ParamSpec(BooleanSpec, name, flags, Bool(false)))
    ensures Pspec(name, flags, ObjectLike(Some(gtype), Some(f))) == Ok(ParamSpec(ObjectSpec(gtype), name, flags, Null))
    ensures Pspec(name, flags, ObjectLike(None, Some(f))) == Ok(f(name, flags))
  {
  }

  /** The flags of an explicit accessor: `READABLE` exactly when it has a getter,
      `WRITABLE` exactly when it has a setter. The two bits are disjoint, so the
      `|=` of the source is a sum. */
  function DescriptorFlags(hasGet: bool, hasSet: bool): (flags: nat)
    ensures flags <= READWRITE
    ensures flags % 2 == READABLE <==> hasGet
    ensures flags / 2 == 1 <==> hasSet
  {
    (if hasGet then READABLE else 0) + (if hasSet then WRITABLE else 0)
  }

  // ---------------------------------------------------------------------------
  // Accessor names

  /** `${prefix}_${name.replace("-", "_")}`: only the first hyphen is replaced. */
  function AccessorName(prefix: string, name: string): string {
    prefix + "_" + ReplaceFirst(name, '-', '_')
  }

  /** `name` has at most one hyphen. */
  predicate AtMostOneHyphen(name: string) {
    forall i, j :: 0 <= i < j < |name| && name[i] == '-' ==> name[j] != '-'
  }

  /** With at most one hyphen, replacing the first hyphen replaces them all. */
  lemma FirstHyphenIsAll(name: string)
    requires AtMostOneHyphen(name)
    ensures ReplaceFirst(name, '-', '_') == ReplaceAll(name, '-', '_')
  {
    var a := ReplaceFirst(name, '-', '_');
    var b := ReplaceAll(name, '-', '_');
    forall k | 0 <= k < |name| ensures a[k] == b[k] {
      if name[k] == '-' && k != FirstIndex(name, '-') {
        ReplaceFirstKeepsLater(name, '-', '_', k);
      }
    }
  }

  /** With a second hyphen at `j`, the two replacements differ there. */
  lemma LaterHyphenKept(name: string, i: int, j: int)
    requires 0 <= i < j < |name| && name[i] == '-' && name[j] == '-'
    ensures ReplaceFirst(name, '-', '_') != ReplaceAll(name, '-', '_')
  {
    ReplaceFirstKeepsLater(name, '-', '_', j);
    assert ReplaceFirst(name, '-', '_')[j] != ReplaceAll(name, '-', '_')[j];
  }

  /** The generated getter has the name `Binding.get` looks for exactly when the
      property name has at most one hyphen: `Binding.get` replaces every hyphen,
      the decorator only the first. */
  lemma AccessorMatchesBindingGetter(name: string)
    ensures AccessorName("get", name) == Reactive.GetterName(name) <==> AtMostOneHyphen(name)
  {
    var a := ReplaceFirst(name, '-', '_');
    var b := ReplaceAll(name, '-', '_');
    assert AccessorName("get", name) == "get_" + a by {
      assert "get" + "_" == "get_";
    }
    PrefixCancels("get_", a, b);
    if AtMostOneHyphen(name) {
      FirstHyphenIsAll(name);
    } else {
      var i, j :| 0 <= i < j < |name| && name[i] == '-' && name[j] == '-';
      LaterHyphenKept(name, i, j);
    }
  }

  /** The private `set` of `sync` looks for `set_<name>` with every hyphen
      kept; the setter `@property` generates has the first hyphen replaced. The
      two coincide exactly when the kebab name has no hyphen. */
  lemma SyncSetterMatchesAccessor(name: string)
    ensures Reactive.SetterName(name) == AccessorName("set", name) <==> forall i :: 0 <= i < |name| ==> name[i] != '-'
  {
    var a := ReplaceFirst(name, '-', '_');
    assert AccessorName("set", name) == "set_" + a by {
      assert "set" + "_" == "set_";
    }
    PrefixCancels("set_", name, a);
    var k := FirstIndex(name, '-');
    if k < |name| {
      assert a[k] != name[k];
    } else {
      assert a == name;
    }
  }

  /** Two names with the same prefix are equal exactly when their rests are. */
  lemma PrefixCancels(p: string, a: string, b: string)
    ensures p + a == p + b <==> a == b
  {
    if p + a == p + b {
      assert (p + a)[|p|..] == a && (p + b)[|p|..] == b;
    }
  }

  // ---------------------------------------------------------------------------
  // Signal declarations

  /** The first argument of `@signal(...)`. */
  datatype SignalArg =
    | NoDeclaration                                      // omitted
    | DeclObject(flags: Option<nat>, accumulator: Option<nat>,
                 returnType: Option<string>, paramTypes: Option<seq<string>>)
    | GTypeArg(gtype: string)                            // a GType or a `{ $gtype }`

  /** What is stored in the class's `Signals` table. */
  datatype SignalDefinition =
    | AsDeclared(declaration: SignalArg)
    | ParamTypes(types: seq<SignalArg>)

  /** The `isDeclaration` test: an object carrying any of the four keys. */
  predicate IsDeclaration(d: SignalArg) {
    d.DeclObject? && (d.flags.Some? || d.accumulator.Some? || d.returnType.Some? || d.paramTypes.Some?)
  }

  function SignalDefinitionOf(d: SignalArg, params: seq<SignalArg>): (r: SignalDefinition)
    ensures IsDeclaration(d) <==> r.AsDeclared?
  {
    if IsDeclaration(d) then AsDeclared(d)
    else ParamTypes(if d.NoDeclaration? then [] else [d] + params)
  }

  /** A declaration is stored verbatim; otherwise the parameter types are the
      first argument followed by the rest in order, and nothing at all when the
      first argument is omitted (the rest are then dropped). */
  lemma SignalDefinitionCases(d: SignalArg, params: seq<SignalArg>)
    ensures IsDeclaration(d) ==> SignalDefinitionOf(d, params) == AsDeclared(d)
    ensures !IsDeclaration(d) && !d.NoDeclaration? ==>
              && SignalDefinitionOf(d, params).types[0] == d
              && SignalDefinitionOf(d, params).types[1..] == params
    ensures d.NoDeclaration? ==> SignalDefinitionOf(d, params) == ParamTypes([])
  {
    if !IsDeclaration(d) && !d.NoDeclaration? {
      assert ([d] + params)[1..] == params;
    }
  }

  /** The method a `@signal` decorator leaves on the prototype. */
  datatype MethodBody =
    | EmitOnly(signal: string)                                  // `(...args) => this.emit(name, ...args)`
    | Wrapped(signal: string, original: seq<Value> -> Value)    // the original, then `emit`

  // ---------------------------------------------------------------------------
  // The per-class metadata table

  datatype Meta = Meta(properties: Option<map<string, ParamSpec>>, signals: Option<map<string, SignalDefinition>>)

  /** `target.constructor[meta] ??= {}; ...Properties ??= {}` */
  function WithProperties(m: Option<Meta>): (r: Meta)
    ensures r.properties.Some?
    ensures m.Some? ==> r.signals == m.value.signals
    ensures m.Some? && m.value.properties.Some? ==> r == m.value
    ensures m.None? ==> r == Meta(Some(map[]), None)
  {
    var base := if m.Some? then m.value else Meta(None, None);
    if base.properties.Some? then base else base.(properties := Some(map[]))
  }

  /** `target.constructor[meta] ??= {}; ...Signals ??= {}` */
  function WithSignals(m: Option<Meta>): (r: Meta)
    ensures r.signals.Some?
    ensures m.Some? ==> r.properties == m.value.properties
    ensures m.Some? && m.value.signals.Some? ==> r == m.value
    ensures m.None? ==> r == Meta(None, Some(map[]))
  {
    var base := if m.Some? then m.value else Meta(None, None);
    if base.signals.Some? then base else base.(signals := Some(map[]))
  }

  /** `Object.defineProperty(target, key, { value })` for a fresh function
      value: a new member is non-configurable, a configurable one (a method of
      the class body) is replaced and stays configurable, a non-configurable one
      throws. `proto` maps each member to whether it is configurable. */
  function Define(proto: map<string, bool>, key: string): (r: Result<map<string, bool>, DecoratorError>)
    ensures r.Err? <==> key in proto && !proto[key]
    ensures r.Ok? ==> key in r.value && r.value.Keys == proto.Keys + {key}
    ensures r.Ok? ==> forall k :: k in proto ==> k in r.value && r.value[k] == proto[k]
  {
    if key in proto then (if proto[key] then Ok(proto) else Err(Redefinition(key)))
    else Ok(proto[key := false])
  }

  /** An accessor pair a `@property` without descriptor generates. */
  datatype Accessor = Accessor(prop: string, name: string, spec: ParamSpec)

  /** A JavaScript string's `startsWith`. */
  predicate StartsWith(s: string, prefix: string) {
    |prefix| <= |s| && s[..|prefix|] == prefix
  }

  // ---------------------------------------------------------------------------
  // register: options and their template

  newtype byte = b: int | 0 <= b < 256

  datatype Template = TemplateText(text: string) | TemplateBytes(bytes: seq<byte>) | TemplateObject

  /** The fields of `GObject.MetaInfo` the decorator reads or writes; every other
      field is passed through untouched and is not modelled. */
  datatype MetaInfo = MetaInfo(
    signals: Option<map<string, SignalDefinition>>,
    properties: Option<map<string, ParamSpec>>,
    template: Option<Template>)

  /** A string template that is not a `resource://` or `file://` URI is markup,
      which the decorator encodes. */
  predicate NeedsEncoding(t: Option<Template>) {
    t.Some? && t.value.TemplateText? &&
    !StartsWith(t.value.text, "resource://") && !StartsWith(t.value.text, "file://")
  }

  /** UTF-8, as `TextEncoder.encode` writes it, for one scalar value. */
  function EncodeChar(c: char): (r: seq<byte>)
    ensures 1 <= |r| <= 4
  {
    var n := c as int;
    if n < 0x80 then [n as byte]
    else if n < 0x800 then [(0xC0 + n / 0x40) as byte, (0x80 + n % 0x40) as byte]
    else if n < 0x10000 then [(0xE0 + n / 0x1000) as byte, (0x80 + n / 0x40 % 0x40) as byte, (0x80 + n % 0x40) as byte]
    else [(0xF0 + n / 0x40000) as byte, (0x80 + n / 0x1000 % 0x40) as byte, (0x80 + n / 0x40 % 0x40) as byte, (0x80 + n % 0x40) as byte]
  }

  function Utf8(s: string): (r: seq<byte>)
    ensures |r| >= |s|
  {
    if s == [] then [] else EncodeChar(s[0]) + Utf8(s[1..])
  }

  /** The number of bytes a sequence starting with `b` takes, by its lead byte. */
  function SequenceLength(b: byte): nat {
    if b < 0x80 then 1 else if b < 0xE0 then 2 else if b < 0xF0 then 3 else 4
  }

  function Continuation(b: byte): int {
    b as int - 0x80
  }

  /** The scalar value a well-formed sequence encodes. */
  function DecodeValue(bs: seq<byte>): int
    requires 1 <= |bs| <= 4
  {
    if |bs| == 1 then bs[0] as int
    else if |bs| == 2 then (bs[0] as int - 0xC0) * 0x40 + Continuation(bs[1])
    else if |bs| == 3 then (bs[0] as int - 0xE0) * 0x1000 + Continuation(bs[1]) * 0x40 + Continuation(bs[2])
    else (bs[0] as int - 0xF0) * 0x40000 + Continuation(bs[1]) * 0x1000 + Continuation(bs[2]) * 0x40 + Continuation(bs[3])
  }

  predicate IsScalar(n: int) {
    (0 <= n < 0xD800) || (0xE000 <= n < 0x11_0000)
  }

  /** Decoding: `None` for bytes that are not the encoding of any text. */
  function DecodeUtf8(bs: seq<byte>): Option<string>
    decreases |bs|
  {
    if bs == [] then Some([])
    else
      var k := SequenceLength(bs[0]);
      if |bs| < k then None
      else
        var n := DecodeValue(bs[..k]);
        if !IsScalar(n) then None
        else match DecodeUtf8(bs[k..])
          case None => None
          case Some(rest) => Some([n as char] + rest)
  }

  lemma EncodeCharDecodes(c: char)
    ensures SequenceLength(EncodeChar(c)[0]) == |EncodeChar(c)|
    ensures DecodeValue(EncodeChar(c)) == c as int
  {
    var n := c as int;
    if n < 0x80 {
    } else if n < 0x800 {
      assert n == (n / 0x40) * 0x40 + n % 0x40;
    } else if n < 0x10000 {
      assert n / 0x40 == (n / 0x1000) * 0x40 + n / 0x40 % 0x40;
      assert n == (n / 0x40) * 0x40 + n % 0x40;
    } else {
      assert n / 0x1000 == (n / 0x40000) * 0x40 + n / 0x1000 % 0x40;
      assert n / 0x40 == (n / 0x1000) * 0x40 + n / 0x40 % 0x40;
      assert n == (n / 0x40) * 0x40 + n % 0x40;
    }
  }

  /** The encoded template decodes back to the markup it was made from. */
  lemma {:induction false} Utf8RoundTrip(s: string)
    ensures DecodeUtf8(Utf8(s)) == Some(s)
  {
    if s != [] {
      var e := EncodeChar(s[0]);
      var bs := Utf8(s);
      EncodeCharDecodes(s[0]);
      assert bs == e + Utf8(s[1..]);
      assert bs[0] == e[0];
      assert bs[..|e|] == e;
      assert bs[|e|..] == Utf8(s[1..]);
      Utf8RoundTrip(s[1..]);
      assert [s[0]] + s[1..] == s;
    }
  }

  /** ASCII markup is encoded byte for byte. */
  lemma {:induction false} Utf8Ascii(s: string)
    requires forall i :: 0 <= i < |s| ==> s[i] as int < 0x80
    ensures |Utf8(s)| == |s|
    ensures forall i :: 0 <= i < |s| ==> Utf8(s)[i] as int == s[i] as int
  {
    if s != [] {
      Utf8Ascii(s[1..]);
    }
  }

  /** `options.Template = new TextEncoder().encode(t)` when it applies. */
  function EncodeTemplate(options: MetaInfo): (r: MetaInfo)
    ensures r.signals == options.signals && r.properties == options.properties
    ensures !NeedsEncoding(options.template) ==> r == options
    ensures NeedsEncoding(options.template) ==> r.template == Some(TemplateBytes(Utf8(options.template.value.text)))
    ensures !NeedsEncoding(r.template)
  {
    if NeedsEncoding(options.template) then options.(template := Some(TemplateBytes(Utf8(options.template.value.text))))
    else options
  }

  /** Applying a `register(options)` decorator a second time leaves the options,
      already encoded, as they are. */
  lemma EncodeTemplateIdempotent(options: MetaInfo)
    ensures EncodeTemplate(EncodeTemplate(options)) == EncodeTemplate(options)
  {
  }

  /** `{ Signals: { ...meta?.Signals }, Properties: { ...meta?.Properties }, ...options }`:
      a field present in `options` replaces the collected table wholesale. */
  function Merged(m: Option<Meta>, options: MetaInfo): (r: MetaInfo)
    ensures r.template == options.template
    ensures options.signals.Some? ==> r.signals == options.signals
    ensures options.properties.Some? ==> r.properties == options.properties
    ensures options.signals.None? ==>
              r.signals == Some(if m.Some? && m.value.signals.Some? then m.value.signals.value else map[])
    ensures options.properties.None? ==>
              r.properties == Some(if m.Some? && m.value.properties.Some? then m.value.properties.value else map[])
  {
    var collectedSignals := if m.Some? && m.value.signals.Some? then m.value.signals.value else map[];
    var collectedProperties := if m.Some? && m.value.properties.Some? then m.value.properties.value else map[];
    MetaInfo(
      if options.signals.Some? then options.signals else Some(collectedSignals),
      if options.properties.Some? then options.properties else Some(collectedProperties),
      options.template)
  }

  /** The `register(options)` decorator's argument; it is mutated when its
      template is encoded, and so is shared by every class it decorates. */
  class RegisterOptions {
    var info: MetaInfo

    constructor (info: MetaInfo)
      ensures this.info == info
    {
      this.info := info;
    }
  }

  // ---------------------------------------------------------------------------
  // A decorated class

  class ClassObject {
    /** `cls[meta]`, which the decorators create and `register` deletes. */
    var meta: Option<Meta>
    /** Own members of the prototype, each with whether it is configurable. */
    var prototype: map<string, bool>
    /** The `GObject.registerClass` call `register` made, if any. */
    var registration: Option<MetaInfo>

    /** A class as written: its methods are configurable prototype members. */
    constructor (methods: set<string>)
      ensures meta == None && registration == None
      ensures prototype == map k | k in methods :: true
    {
      meta := None;
      prototype := map k | k in methods :: true;
      registration := None;
    }

    /** `@property(declaration)` on member `prop`; `desc` is the member's own
        accessor descriptor (whether it has `get` and `set`), if it has one.
        Without a descriptor the decorator records a read-write spec, defines
        `set_<name>` and `get_<name>` and returns the generated accessor pair;
        with one it records a spec with the descriptor's flags. The tables are
        created before `pspec` can throw, and the spec is recorded before the
        accessor methods are defined. */
    method Property(declaration: Declaration, prop: string, desc: Option<(bool, bool)>)
      returns (r: Result<Option<Accessor>, DecoratorError>)
      modifies this`meta, this`prototype
      ensures var name := Kebabify(prop);
              var flags := if desc.None? then READWRITE else DescriptorFlags(desc.value.0, desc.value.1);
              var tables := WithProperties(old(meta));
              && (Pspec(name, flags, declaration).Err? ==>
                    r == Err(Pspec(name, flags, declaration).error) && meta == Some(tables) && prototype == old(prototype))
              && (Pspec(name, flags, declaration).Ok? ==>
                    var spec := Pspec(name, flags, declaration).value;
                    && meta == Some(tables.(properties := Some(tables.properties.value[name := spec])))
                    && (desc.Some? ==> r == Ok(None) && prototype == old(prototype))
                    && (desc.None? ==>
                          var setter := Define(old(prototype), AccessorName("set", name));
                          && (setter.Err? ==> r == Err(setter.error) && prototype == old(prototype))
                          && (setter.Ok? ==>
                                var getter := Define(setter.value, AccessorName("get", name));
                                && (getter.Err? ==> r == Err(getter.error) && prototype == setter.value)
                                && (getter.Ok? ==> r == Ok(Some(Accessor(prop, name, spec))) && prototype == getter.value))))
    {
      var tables := WithProperties(meta);
      meta := Some(tables);
      var name := Kebabify(prop);
      var flags := if desc.None? then READWRITE else DescriptorFlags(desc.value.0, desc.value.1);
      var spec := Pspec(name, flags, declaration);
      if spec.Err? {
        return Err(spec.error);
      }
      meta := Some(tables.(properties := Some(tables.properties.value[name := spec.value])));
      if desc.Some? {
        return Ok(None);
      }
      var setter := Define(prototype, AccessorName("set", name));
      if setter.Err? {
        return Err(setter.error);
      }
      prototype := setter.value;
      var getter := Define(prototype, AccessorName("get", name));
      if getter.Err? {
        return Err(getter.error);
      }
      prototype := getter.value;
      r := Ok(Some(Accessor(prop, name, spec.value)));
    }

    /** `@signal(declaration, ...params)` on method `member`; `original` is the
        decorated method when there is one. Records the definition under the
        kebab name and gives the method the prototype ends up with. */
    method Signal(declaration: SignalArg, params: seq<SignalArg>, member: string, original: Option<seq<Value> -> Value>)
      returns (body: MethodBody)
      modifies this`meta
      ensures var tables := WithSignals(old(meta));
              meta == Some(tables.(signals := Some(tables.signals.value[Kebabify(member) := SignalDefinitionOf(declaration, params)])))
      ensures original.None? ==> body == EmitOnly(Kebabify(member))
      ensures original.Some? ==> body == Wrapped(Kebabify(member), original.value)
    {
      var tables := WithSignals(meta);
      var name := Kebabify(member);
      meta := Some(tables.(signals := Some(tables.signals.value[name := SignalDefinitionOf(declaration, params)])));
      body := if original.None? then EmitOnly(name) else Wrapped(name, original.value);
    }

    /** `register(options)(cls)`: encode a markup template in `options`, register
        the class with the collected tables under `options`, delete the tables. */
    method Register(options: RegisterOptions)
      modifies this`meta, this`registration, options`info
      ensures options.info == EncodeTemplate(old(options.info))
      ensures registration == Some(Merged(old(meta), options.info))
      ensures meta == None
    {
      options.info := EncodeTemplate(options.info);
      registration := Some(Merged(meta, options.info));
      meta := None;
    }
  }

  /** A property recorded by `@property` is registered under its kebab name,
      unless `options` brings its own `Properties`. */
  lemma RegisteredProperty(m: Meta, options: MetaInfo, name: string, spec: ParamSpec)
    requires m.properties.Some? && name in m.properties.value && m.properties.value[name] == spec
    requires options.properties.None?
    ensures var r := Merged(Some(m), EncodeTemplate(options));
            r.properties.Some? && name in r.properties.value && r.properties.value[name] == spec
  {
  }

  // ---------------------------------------------------------------------------
  // Instances of a registered class

  /** What an instance did that is visible outside it. */
  datatype Event =
    | Notified(name: string)                 // `this.notify(name)`
    | Emitted(signal: string, args: seq<Value>)
    | Ran(args: seq<Value>)                  // the original of a wrapped method ran

  /** The generated getter: `this[priv]?.[prop] ?? spec.get_default_value()`. */
  function Read(priv: Option<map<string, Value>>, prop: string, spec: ParamSpec): (r: Value)
    ensures priv.Some? && prop in priv.value && !IsNullish(priv.value[prop]) ==> r == priv.value[prop]
    ensures priv.None? || prop !in priv.value || IsNullish(priv.value[prop]) ==> r == spec.defaultValue
  {
    Coalesce(if priv.Some? && prop in priv.value then priv.value[prop] else Undefined, spec.defaultValue)
  }

  /** `this[priv] ??= {}; this[priv][prop] = v` */
  function Written(priv: Option<map<string, Value>>, prop: string, v: Value): map<string, Value> {
    (if priv.Some? then priv.value else map[])[prop := v]
  }

  /** A stored value is read back, a stored `null` or `undefined` reads as the
      default, and other properties are not affected. */
  lemma ReadAfterWrite(priv: Option<map<string, Value>>, prop: string, v: Value, spec: ParamSpec, other: string, otherSpec: ParamSpec)
    requires other != prop
    ensures Read(Some(Written(priv, prop, v)), prop, spec) == Coalesce(v, spec.defaultValue)
    ensures Read(Some(Written(priv, prop, v)), other, otherSpec) == Read(priv, other, otherSpec)
  {
  }

  /** Writing `null` or `undefined` over a default-valued property passes the
      gate (it is not `===` the default the getter returns), stores and
      notifies, yet the getter still returns the same default. */
  lemma NullishWriteNotifiesWithoutChange(prop: string, spec: ParamSpec, v: Value)
    requires IsNullish(v) && !IsNullish(spec.defaultValue)
    ensures v != Read(None, prop, spec)
    ensures Read(Some(Written(None, prop, v)), prop, spec) == Read(None, prop, spec)
  {
  }

  class Instance {
    /** `this[priv]`, created by the first write. */
    var priv: Option<map<string, Value>>
    var events: seq<Event>

    constructor ()
      ensures priv == None && events == []
    {
      priv := None;
      events := [];
    }

    /** `this[prop]` (and `get_<name>()`), through the generated getter. */
    function Get(a: Accessor): Value
      reads this
    {
      Read(priv, a.prop, a.spec)
    }

    /** `this[prop] = v` (and `set_<name>(v)`), through the generated setter:
        gated on `v !== this[prop]`, which compares with what the getter returns. */
    method Set(a: Accessor, v: Value)
      modifies this
      ensures v == old(Get(a)) ==> priv == old(priv) && events == old(events)
      ensures v != old(Get(a)) ==>
                priv == Some(Written(old(priv), a.prop, v)) && events == old(events) + [Notified(a.name)]
      ensures Get(a) == Coalesce(v, a.spec.defaultValue)
    {
      if v != Get(a) {
        priv := Some(Written(priv, a.prop, v));
        events := events + [Notified(a.name)];
      }
    }

    /** Calling a method a `@signal` decorator produced. `emitted` is what
        GObject's `emit` returns for these arguments. A wrapped method runs the
        original first, emits with the same arguments, and returns the
        original's result. */
    method Invoke(body: MethodBody, args: seq<Value>, emitted: Value) returns (ret: Value)
      modifies this`events
      ensures body.EmitOnly? ==> ret == emitted && events == old(events) + [Emitted(body.signal, args)]
      ensures body.Wrapped? ==>
                ret == body.original(args) && events == old(events) + [Ran(args), Emitted(body.signal, args)]
    {
      match body
      case EmitOnly(signal) =>
        events := events + [Emitted(signal, args)];
        ret := emitted;
      case Wrapped(signal, original) =>
        ret := original(args);
        events := events + [Ran(args)];
        events := events + [Emitted(signal, args)];
    }
  }
}
