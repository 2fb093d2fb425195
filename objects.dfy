/**
 * JavaScript objects as the built-in bridge sees them: an object is a
 * record of own properties in insertion order (`Props`), held by a heap
 * object (`JsObject`) so that identity and in-place updates are visible.
 * Property descriptors (enumerable, writable, configurable) and prototype
 * chains are not part of this model; a property read looks at own
 * properties only.
 */
module Objects {

  /** A property key: a string name or a symbol. */
  datatype Key = Name(s: string) | SymbolKey(id: nat)

  /** The two `OwnProxy` handlers the bridge installs. */
  datatype Handler = InspectHandler | IsProxyHandler

  datatype EntryState = Unlinked | Linking | Loaded

  /** A JavaScript value. `Wrapped` is an `OwnProxy` around a target with
      one of the bridge's handlers; `ExportsProxy` is what `proxyExports`
      returns for an entry. */
  datatype Value =
    | Undefined
    | Null
    | Bool(b: bool)
    | Num(n: int)
    | BigInt(i: int)
    | Str(s: string)
    | Symbol(id: nat)
    | Ref(obj: JsObject)
    | Wrapped(target: Value, handler: Handler)
    | ExportsProxy(entry: Entry)

  /** JavaScript truthiness. Numbers are integers here, so NaN is not
      modelled. */
  predicate Truthy(v: Value)
    // objects and proxies are always truthy, undefined and null never
    ensures v.Ref? || v.Wrapped? || v.ExportsProxy? ==> Truthy(v)
    ensures v.Undefined? || v.Null? ==> !Truthy(v)
  {
    match v
    case Undefined => false
    case Null => false
    case Bool(b) => b
    case Num(n) => n != 0
    case BigInt(i) => i != 0
    case Str(s) => s != []
    case _ => true
  }

  predicate Distinct<T(==)>(s: seq<T>) {
    forall i, j :: 0 <= i < j < |s| ==> s[i] != s[j]
  }

  /** Own properties: keys in insertion order and their values. */
  datatype Props = Props(keys: seq<Key>, values: map<Key, Value>)

  predicate WellFormed(p: Props) {
    && Distinct(p.keys)
    && (forall k :: k in p.keys ==> k in p.values)
    && (forall k :: k in p.values ==> k in p.keys)
  }

  const Empty: Props := Props([], map[])

  /** The value of an own property; `undefined` when there is none. */
  function Lookup(p: Props, k: Key): (r: Value)
    ensures k !in p.values ==> r == Undefined
  {
    if k in p.values then p.values[k] else Undefined
  }

  /** Assignment: a new key goes last, an existing key keeps its place. */
  function Put(p: Props, k: Key, v: Value): (r: Props)
    ensures WellFormed(p) ==> WellFormed(r)
    ensures Lookup(r, k) == v && k in r.values
    ensures forall j :: j != k ==> (j in r.values <==> j in p.values) && Lookup(r, j) == Lookup(p, j)
    ensures k in p.values ==> r.keys == p.keys
    ensures k !in p.values ==> r.keys == p.keys + [k]
  {
    if k in p.values then Props(p.keys, p.values[k := v])
    else Props(p.keys + [k], p.values[k := v])
  }

  /** A heap object with ordered own properties. `callable` is
      `typeof o === "function"`. */
  class JsObject {
    const callable: bool
    var props: Props

    /** `new Object` (or a function object when `callable`). */
    constructor (callable: bool)
      ensures this.callable == callable && props == Empty
    {
      this.callable := callable;
      props := Empty;
    }

    /** `has(o, k)`: an own property check. */
    predicate Has(k: Key)
      reads this
    {
      k in props.values
    }

    /** `o[k]`. */
    function Get(k: Key): Value
      reads this
    {
      Lookup(props, k)
    }

    /** `o[k] = v`. */
    method Set(k: Key, v: Value)
      modifies this
      ensures props == Put(old(props), k, v)
    {
      props := Put(props, k, v);
    }
  }

  /** A CommonJS module record, as far as the bridge uses it. */
  class Module {
    const id: string
    var exports: Value
    var loaded: bool

    /** `new Module(id, null)`. The initial exports object is not
        modelled and is left `undefined` here; `Entry.get` runs while the
        module still holds it, and its use of it is not part of this model. */
    constructor (id: string)
      ensures this.id == id && exports == Undefined && !loaded
    {
      this.id := id;
      exports := Undefined;
      loaded := false;
    }
  }

  /** The loader's per-module record, with the fields the bridge sets. */
  class Entry {
    const owner: Module
    var builtin: bool
    var id: string
    var state: EntryState

    /** What `Entry.get` returns for a module it has not seen before. */
    constructor (owner: Module)
      ensures this.owner == owner && !builtin && id == "" && state == Unlinked
    {
      this.owner := owner;
      builtin := false;
      id := "";
      state := Unlinked;
    }

    /** `entry.loaded()`. */
    method MarkLoaded()
      modifies this
      ensures state == Loaded && builtin == old(builtin) && id == old(id)
    {
      state := Loaded;
    }
  }

  /** `o[k]` on any value: primitives and proxies contribute no own
      properties here. */
  function GetProp(v: Value, k: Key): (r: Value)
    reads if v.Ref? then {v.obj} else {}
    ensures !v.Ref? ==> r == Undefined
  {
    if v.Ref? then v.obj.Get(k) else Undefined
  }

  /** `has(v, k)` on any value. */
  predicate HasOwn(v: Value, k: Key)
    reads if v.Ref? then {v.obj} else {}
  {
    v.Ref? && v.obj.Has(k)
  }
}
