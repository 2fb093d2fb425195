/**
 * The built-in bridge: for every built-in module id it installs a deferred
 * builder that loads the host's module, corrects the shape of `util` and
 * `vm` exports, wraps the result in a fresh module and entry, redirects a
 * `prototype.constructor` back-reference to the proxied exports, and marks
 * the entry as a loaded built-in.
 *
 * The host's `require`, `unwrapProxy`, `isOwnProxy`, `isNamespaceObject`,
 * `toNamespaceObject` and `proxyExports` are not part of this model: the
 * exports `unwrapProxy(realRequire(id))` yields are a parameter, the proxy
 * helpers are the uninterpreted fields of `ProxyOps`, and
 * `proxyExports(entry)` is the tagged value `ExportsProxy(entry)`.
 */
module BuiltinEntries {
  import opened Wrappers
  import opened Objects

  const ModuleKey: Key := Name("Module")
  const InspectKey: Key := Name("inspect")
  const TypesKey: Key := Name("types")
  const IsProxyKey: Key := Name("isProxy")
  const PrototypeKey: Key := Name("prototype")
  const ConstructorKey: Key := Name("constructor")

  // ------------------------------------------------------------------------
  // Copying own properties

  /** The keys of `keys` that are not dropped, in their order. */
  function Filter(keys: seq<Key>, drop: set<Key>): (r: seq<Key>)
    ensures forall k :: k in r <==> k in keys && k !in drop
    ensures |r| <= |keys|
    decreases |keys|
  {
    if keys == [] then []
    else
      var n := |keys| - 1;
      if keys[n] in drop then Filter(keys[..n], drop) else Filter(keys[..n], drop) + [keys[n]]
  }

  /** The own properties of a fresh object after `copyProperty` has copied
      each name of `names` that is not dropped from `src`, in order. */
  function CopyKeys(src: Props, names: seq<Key>, drop: set<Key>): Props
    decreases |names|
  {
    if names == [] then Empty
    else
      var n := |names| - 1;
      var p := CopyKeys(src, names[..n], drop);
      if names[n] in drop then p else Put(p, names[n], Lookup(src, names[n]))
  }

  /** Copying distinct names yields exactly the names not dropped, in
      their order, each with the source's value. */
  lemma {:induction false} CopyKeysMeaning(src: Props, names: seq<Key>, drop: set<Key>)
    requires Distinct(names)
    ensures var r := CopyKeys(src, names, drop);
            && WellFormed(r)
            && r.keys == Filter(names, drop)
            && (forall k :: k in r.values <==> k in names && k !in drop)
            && (forall k :: k in r.values ==> r.values[k] == Lookup(src, k))
    decreases |names|
  {
    if names != [] {
      var n := |names| - 1;
      assert Distinct(names[..n]);
      CopyKeysMeaning(src, names[..n], drop);
      assert names[n] !in names[..n];
    }
  }

  /** The shape `createVMExports` and the copy loop of `createUtilExports`
      produce from well-formed source properties: every source key but the
      dropped ones, in the source's order, with the source's values. */
  lemma CopyExceptShape(src: Props, drop: set<Key>)
    requires WellFormed(src)
    ensures var r := CopyKeys(src, src.keys, drop);
            && WellFormed(r)
            && r.keys == Filter(src.keys, drop)
            && (forall k :: k in r.values <==> k in src.values && k !in drop)
            && (forall k :: Lookup(r, k) == if k in drop then Undefined else Lookup(src, k))
  {
    CopyKeysMeaning(src, src.keys, drop);
  }

  /** The copy loop shared by `createUtilExports`, `createVMExports` and
      `assign`: copies every own property of `source` whose key is not
      dropped into the empty `target`. */
  method CopyInto(target: JsObject, source: JsObject, drop: set<Key>)
    requires target != source && target.props == Empty
    modifies target
    ensures target.props == CopyKeys(source.props, source.props.keys, drop)
  {
    var names := source.props.keys;
    var i := 0;
    while i < |names|
      invariant 0 <= i <= |names|
      invariant target.props == CopyKeys(source.props, names[..i], drop)
    {
      var name := names[i];
      assert names[..i + 1][..i] == names[..i];
      if name !in drop {
        target.Set(name, source.Get(name));
      }
      i := i + 1;
    }
    assert names[..i] == names;
  }

  /** `createVMExports`: the source's own properties except `Module`. */
  method CreateVMExports(source: JsObject) returns (exported: JsObject)
    ensures fresh(exported) && !exported.callable
    ensures exported.props == CopyKeys(source.props, source.props.keys, {ModuleKey})
  {
    exported := new JsObject(false);
    CopyInto(exported, source, {ModuleKey});
  }

  // ------------------------------------------------------------------------
  // util

  /** Defining a property only when it is not already an own property. */
  function DefineIfAbsent(p: Props, k: Key, v: Value): (r: Props)
    ensures k in r.values
    ensures k in p.values ==> r == p
    ensures k !in p.values ==> Lookup(r, k) == v && r.keys == p.keys + [k]
    ensures forall j :: j != k ==> (j in r.values <==> j in p.values) && Lookup(r, j) == Lookup(p, j)
  {
    if k in p.values then p else Put(p, k, v)
  }

  /** The own properties `createUtilExports` gives its result: the copy,
      the wrapped `inspect`, the `types` object when there is one, and the
      custom-inspect marker when the key is not already present. */
  function UtilProps(src: Props, types: Option<Value>, customKey: Key): Props {
    var copied := CopyKeys(src, src.keys, {InspectKey, TypesKey});
    var withInspect := Put(copied, InspectKey, Wrapped(Lookup(src, InspectKey), InspectHandler));
    var withTypes := if types.Some? then Put(withInspect, TypesKey, types.value) else withInspect;
    DefineIfAbsent(withTypes, customKey, Bool(true))
  }

  /** What the util exports look like: `inspect` is always the wrapper of
      the source's `inspect`; `types` is present exactly when supplied;
      the custom-inspect key is defined as `true` only when absent, and
      every other key is the source's. */
  lemma UtilPropsShape(src: Props, types: Option<Value>, customKey: Key)
    requires WellFormed(src)
    ensures var r := UtilProps(src, types, customKey);
            && WellFormed(r)
            && Lookup(r, InspectKey) == Wrapped(Lookup(src, InspectKey), InspectHandler)
            && (customKey != TypesKey ==> (TypesKey in r.values <==> types.Some?))
            && (types.Some? ==> Lookup(r, TypesKey) == types.value)
            && customKey in r.values
            && (customKey != InspectKey && customKey != TypesKey ==>
                  Lookup(r, customKey) == if customKey in src.values then Lookup(src, customKey) else Bool(true))
            && (forall k :: k != InspectKey && k != TypesKey && k != customKey ==>
                  (k in r.values <==> k in src.values) && Lookup(r, k) == Lookup(src, k))
  {
    CopyExceptShape(src, {InspectKey, TypesKey});
  }

  /** `assign(new Object, v)`: the own properties of `v`, or none when `v`
      is not an object. */
  function AssignProps(v: Value): (r: Props)
    reads if v.Ref? then {v.obj} else {}
    ensures !v.Ref? ==> r == Empty
  {
    if v.Ref? then CopyKeys(v.obj.props, v.obj.props.keys, {}) else Empty
  }

  /** `assign(new Object, v)`. */
  method NewAssigned(v: Value) returns (o: JsObject)
    ensures fresh(o) && !o.callable && o.props == AssignProps(v)
  {
    o := new JsObject(false);
    if v.Ref? {
      CopyInto(o, v.obj, {});
    }
  }

  /** The `types` branch of `createUtilExports`: `exported.types` becomes
      a copy of `sourceTypes`, whose `isProxy` is then wrapped. */
  method AttachTypes(exported: JsObject, sourceTypes: Value) returns (types: JsObject)
    requires sourceTypes != Ref(exported)
    modifies exported
    ensures fresh(types) && !types.callable
    ensures types.props == Put(AssignProps(sourceTypes), IsProxyKey,
                               Wrapped(GetProp(sourceTypes, IsProxyKey), IsProxyHandler))
    ensures exported.props == Put(old(exported.props), TypesKey, Ref(types))
  {
    types := NewAssigned(sourceTypes);
    exported.Set(TypesKey, Ref(types));
    types.Set(IsProxyKey, Wrapped(GetProp(sourceTypes, IsProxyKey), IsProxyHandler));
  }

  /** `createUtilExports`. The ghost `types` is the fresh `types` object,
      present exactly when the source's `types` is truthy. */
  method CreateUtilExports(source: JsObject, customKey: Key) returns (exported: JsObject, ghost types: Option<JsObject>)
    ensures fresh(exported) && !exported.callable
    ensures types.Some? <==> Truthy(source.Get(TypesKey))
    ensures types.Some? ==>
              && fresh(types.value) && !types.value.callable && types.value != exported
              && types.value.props ==
                 Put(AssignProps(source.Get(TypesKey)), IsProxyKey,
                     Wrapped(GetProp(source.Get(TypesKey), IsProxyKey), IsProxyHandler))
    ensures exported.props ==
            UtilProps(source.props, if types.Some? then Some(Ref(types.value)) else None, customKey)
  {
    exported := new JsObject(false);
    CopyInto(exported, source, {InspectKey, TypesKey});
    exported.Set(InspectKey, Wrapped(source.Get(InspectKey), InspectHandler));
    var sourceTypes := source.Get(TypesKey);
    types := None;
    if Truthy(sourceTypes) {
      var t := AttachTypes(exported, sourceTypes);
      types := Some(t);
    }
    if !exported.Has(customKey) {
      exported.Set(customKey, Bool(true));
    }
  }

  // ------------------------------------------------------------------------
  // The proxy handlers

  /** The host operations the handlers call. */
  datatype ProxyOps = ProxyOps(
    isOwnProxy: Value -> bool,
    isNamespace: Value -> bool,
    toNamespace: Value -> Value,
    unwrap: Value -> Value)

  /** `const [value] = args`. */
  function First(args: seq<Value>): (r: Value)
    ensures |args| > 0 ==> r == args[0]
    ensures |args| == 0 ==> r == Undefined
  {
    if |args| > 0 then args[0] else Undefined
  }

  /** The arguments the `inspect` wrapper forwards: an own proxy in first
      place becomes its namespace object or its unwrapped target; nothing
      else changes. */
  function InspectArguments(args: seq<Value>, ops: ProxyOps): (r: seq<Value>)
    ensures !ops.isOwnProxy(First(args)) ==> r == args
    ensures ops.isOwnProxy(First(args)) ==>
              && |r| == (if |args| == 0 then 1 else |args|)
              && r[0] == (if ops.isNamespace(First(args)) then ops.toNamespace(First(args)) else ops.unwrap(First(args)))
    ensures forall i :: 1 <= i < |args| ==> r[i] == args[i]
  {
    var value := First(args);
    if ops.isOwnProxy(value) then
      var replacement := if ops.isNamespace(value) then ops.toNamespace(value) else ops.unwrap(value);
      if |args| == 0 then [replacement] else args[0 := replacement]
    else args
  }

  /** Calling a value: the bridge's wrappers run their `apply` handler,
      everything else is applied by the host (`apply`). */
  function Invoke(f: Value, args: seq<Value>, ops: ProxyOps, apply: (Value, seq<Value>) -> Value): (r: Value)
    ensures !f.Wrapped? ==> r == apply(f, args)
  {
    match f
    case Wrapped(target, InspectHandler) => apply(target, InspectArguments(args, ops))
    case Wrapped(target, IsProxyHandler) => if ops.isOwnProxy(First(args)) then Bool(false) else apply(target, args)
    case _ => apply(f, args)
  }

  /** The `inspect` wrapper is transparent unless its first argument is
      an own proxy, and then it inspects what the proxy stands for. */
  lemma InspectWrapperForwards(target: Value, args: seq<Value>, ops: ProxyOps, apply: (Value, seq<Value>) -> Value)
    ensures !ops.isOwnProxy(First(args)) ==> Invoke(Wrapped(target, InspectHandler), args, ops, apply) == apply(target, args)
    ensures ops.isOwnProxy(First(args)) && |args| > 0 ==>
              Invoke(Wrapped(target, InspectHandler), args, ops, apply) ==
              apply(target, [if ops.isNamespace(args[0]) then ops.toNamespace(args[0]) else ops.unwrap(args[0])] + args[1..])
  {
    if ops.isOwnProxy(First(args)) && |args| > 0 {
      var r := InspectArguments(args, ops);
      assert r == [r[0]] + args[1..];
    }
  }

  /** The `types.isProxy` wrapper answers `false` for own proxies and
      otherwise returns what the original returns. */
  lemma IsProxyWrapperHidesOwnProxies(target: Value, args: seq<Value>, ops: ProxyOps, apply: (Value, seq<Value>) -> Value)
    ensures var r := Invoke(Wrapped(target, IsProxyHandler), args, ops, apply);
            && (ops.isOwnProxy(First(args)) ==> r == Bool(false))
            && (!ops.isOwnProxy(First(args)) ==> r == apply(target, args))
  {
  }

  // ------------------------------------------------------------------------
  // The per-id builder

  /** The shape correction applied to a built-in's exports. */
  datatype Correction = UseModuleClass | CorrectUtil | CorrectVm | AsRequired

  function CorrectionFor(id: string, hasModuleKey: bool): (r: Correction)
    ensures r == UseModuleClass <==> id == "module"
    ensures r == CorrectUtil <==> id == "util"
    ensures r == CorrectVm <==> id == "vm" && hasModuleKey
    ensures r == AsRequired <==> id != "module" && id != "util" && !(id == "vm" && hasModuleKey)
  {
    if id == "module" then UseModuleClass
    else if id == "util" then CorrectUtil
    else if id == "vm" && hasModuleKey then CorrectVm
    else AsRequired
  }

  /** What the builder reads from the host besides the required module:
      the `Module` class, `shared.customInspectKey` and the proxy
      operations. */
  datatype Bridge = Bridge(
    moduleClass: Value,
    customInspectKey: Key,
    ops: ProxyOps)

  /** The prototype object of a function value, if it has one. */
  function PrototypeObject(v: Value): (r: set<JsObject>)
    reads if v.Ref? then {v.obj} else {}
    ensures |r| <= 1
  {
    if v.Ref? && v.obj.callable && v.obj.Get(PrototypeKey).Ref? then {v.obj.Get(PrototypeKey).obj} else {}
  }

  /** `v` is a function whose prototype's own `constructor` is `v`. */
  predicate BackReferenced(v: Value)
    reads if v.Ref? then {v.obj} else {}
    reads PrototypeObject(v)
  {
    && v.Ref? && v.obj.callable
    && var proto := v.obj.Get(PrototypeKey);
       proto.Ref? && proto.obj.Has(ConstructorKey) && proto.obj.Get(ConstructorKey) == v
  }

  /** The exports a built-in's entry proxies, by id: the `Module` class for
      "module", corrected copies for "util" and for a "vm" that has a
      `Module` key, the required exports otherwise. `required` is
      `unwrapProxy(realRequire(id))`. */
  method ShapeExports(id: string, required: Value, b: Bridge) returns (exported: Value)
    requires id == "util" ==> required.Ref?
    ensures match CorrectionFor(id, HasOwn(required, ModuleKey))
            case UseModuleClass => exported == b.moduleClass
            case AsRequired => exported == required
            case CorrectVm =>
              && exported.Ref? && fresh(exported.obj) && !exported.obj.callable
              && exported.obj.props == CopyKeys(required.obj.props, required.obj.props.keys, {ModuleKey})
            case CorrectUtil =>
              && exported.Ref? && fresh(exported.obj) && !exported.obj.callable
              && exists types: Option<Value> :: exported.obj.props == UtilProps(required.obj.props, types, b.customInspectKey)
  {
    exported := required;
    if id == "module" {
      exported := b.moduleClass;
    } else if id == "util" {
      var corrected, types := CreateUtilExports(exported.obj, b.customInspectKey);
      ghost var typesValue := if types.Some? then Some(Ref(types.value)) else None;
      assert corrected.props == UtilProps(required.obj.props, typesValue, b.customInspectKey);
      exported := Ref(corrected);
    } else if id == "vm" && HasOwn(exported, ModuleKey) {
      var corrected := CreateVMExports(exported.obj);
      exported := Ref(corrected);
    }
  }

  /** If `oldExported` is a function whose prototype's own `constructor`
      is `oldExported`, that back-reference is pointed at `exported`. */
  method RedirectBackReference(oldExported: Value, exported: Value)
    modifies PrototypeObject(oldExported)
    ensures old(BackReferenced(oldExported)) ==>
              var proto := old(oldExported.obj.Get(PrototypeKey).obj);
              proto.props == Put(old(proto.props), ConstructorKey, exported)
    ensures !old(BackReferenced(oldExported)) ==> unchanged(old(PrototypeObject(oldExported)))
  {
    if oldExported.Ref? && oldExported.obj.callable {
      var oldProto := oldExported.obj.Get(PrototypeKey);
      if HasOwn(oldProto, ConstructorKey) && oldProto.obj.Get(ConstructorKey) == oldExported {
        oldProto.obj.Set(ConstructorKey, exported);
      }
    }
  }

  /** The second half of the builder: a fresh module whose exports become
      the entry's proxy, the back-reference fix-up, and the entry flags. */
  method Publish(id: string, exported: Value) returns (entry: Entry)
    modifies PrototypeObject(exported)
    ensures fresh(entry) && fresh(entry.owner)
    ensures entry.owner.id == id && entry.owner.loaded && entry.owner.exports == ExportsProxy(entry)
    ensures entry.builtin && entry.id == id && entry.state == Loaded
    ensures old(BackReferenced(exported)) ==>
              var proto := old(exported.obj.Get(PrototypeKey).obj);
              proto.props == Put(old(proto.props), ConstructorKey, ExportsProxy(entry))
    ensures !old(BackReferenced(exported)) ==> unchanged(old(PrototypeObject(exported)))
  {
    var mod := new Module(id);
    entry := new Entry(mod);
    var oldExported := exported;
    mod.exports := oldExported;
    mod.loaded := true;
    var proxied := ExportsProxy(entry);
    mod.exports := proxied;

    RedirectBackReference(oldExported, proxied);

    entry.builtin := true;
    entry.id := id;
    entry.MarkLoaded();
  }

  /** The deferred builder for one id, from the builtin's `required`
      exports: returns the new entry and (as a ghost) the shape-corrected
      exports it proxies. */
  method BuildEntry(id: string, required: Value, b: Bridge) returns (entry: Entry, ghost shaped: Value)
    requires id == "util" ==> required.Ref?
    modifies PrototypeObject(b.moduleClass), PrototypeObject(required)
    ensures fresh(entry) && fresh(entry.owner)
    ensures entry.owner.id == id && entry.owner.loaded && entry.owner.exports == ExportsProxy(entry)
    ensures entry.builtin && entry.id == id && entry.state == Loaded
    ensures match CorrectionFor(id, old(HasOwn(required, ModuleKey)))
            case UseModuleClass => shaped == b.moduleClass
            case AsRequired => shaped == required
            case _ => shaped.Ref? && fresh(shaped.obj) && !shaped.obj.callable
    // the back-reference fix-up: only exports that existed before can have one
    ensures var c := CorrectionFor(id, old(HasOwn(required, ModuleKey)));
            var target := if c == UseModuleClass then b.moduleClass else required;
            (c == UseModuleClass || c == AsRequired) && old(BackReferenced(target)) ==>
              var proto := old(target.obj.Get(PrototypeKey).obj);
              proto.props == Put(old(proto.props), ConstructorKey, ExportsProxy(entry))
    ensures var c := CorrectionFor(id, old(HasOwn(required, ModuleKey)));
            var target := if c == UseModuleClass then b.moduleClass else required;
            !((c == UseModuleClass || c == AsRequired) && old(BackReferenced(target))) ==>
              unchanged(old(PrototypeObject(b.moduleClass)), old(PrototypeObject(required)))
    // the prototype of the value the entry does not stand for is never touched
    ensures var c := CorrectionFor(id, old(HasOwn(required, ModuleKey)));
            var target := if c == UseModuleClass then b.moduleClass else required;
            unchanged(old(PrototypeObject(b.moduleClass)) + old(PrototypeObject(required)) - old(PrototypeObject(target)))
  {
    ghost var c := CorrectionFor(id, HasOwn(required, ModuleKey));
    ghost var target := if c == UseModuleClass then b.moduleClass else required;
    var exported := ShapeExports(id, required, b);
    assert c == UseModuleClass || c == AsRequired ==> exported == target;
    entry := Publish(id, exported);
    shaped := exported;
  }

  // ------------------------------------------------------------------------
  // The table of deferred entries

  /** `builtinEntries`: one deferred getter per built-in id. The first read
      of an id runs its builder and later reads return the same entry. */
  class BuiltinTable {
    var deferred: set<string>
    var built: map<string, Entry>

    /** The loop installing a deferred builder for every built-in id. */
    constructor (builtinModules: seq<string>)
      ensures deferred == set id | id in builtinModules
      ensures built == map[]
    {
      deferred := {};
      built := map[];
      new;
      var i := 0;
      while i < |builtinModules|
        invariant 0 <= i <= |builtinModules|
        invariant deferred == set id | id in builtinModules[..i]
        invariant built == map[]
      {
        assert builtinModules[..i + 1] == builtinModules[..i] + [builtinModules[i]];
        deferred := deferred + {builtinModules[i]};
        i := i + 1;
      }
      assert builtinModules[..i] == builtinModules;
    }

    /** `builtinEntries[id]`; `required` is what `unwrapProxy(realRequire(id))`
        returns when the builder runs. */
    method Get(id: string, required: Value, b: Bridge) returns (r: Option<Entry>)
      requires id == "util" ==> required.Ref?
      modifies this, PrototypeObject(b.moduleClass), PrototypeObject(required)
      ensures deferred == old(deferred)
      ensures id !in deferred ==> r.None? && built == old(built)
      ensures id in deferred && id in old(built) ==> r == Some(old(built)[id]) && built == old(built)
      ensures id in deferred && id !in old(built) ==>
                && r.Some? && fresh(r.value)
                && r.value.builtin && r.value.id == id && r.value.state == Loaded
                && built == old(built)[id := r.value]
      ensures id !in deferred || id in old(built) ==>
                unchanged(old(PrototypeObject(b.moduleClass)), old(PrototypeObject(required)))
      ensures var c := CorrectionFor(id, old(HasOwn(required, ModuleKey)));
              var target := if c == UseModuleClass then b.moduleClass else required;
              unchanged(old(PrototypeObject(b.moduleClass)) + old(PrototypeObject(required)) - old(PrototypeObject(target)))
    {
      if id !in deferred {
        return None;
      }
      if id in built {
        return Some(built[id]);
      }
      var entry, _ := BuildEntry(id, required, b);
      built := built[id := entry];
      return Some(entry);
    }
  }
}
