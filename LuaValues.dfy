/**
 * The runtime values a Lua program manipulates, reduced to what indexing and metatable
 * dispatch observe: the kind of each value, identity for tables, userdata and functions,
 * and the raw storage and metatable slot of a table.
 */
module LuaValues {

  /** A Lua error as the runtime raises it: a message. */
  datatype LuaError = LuaError(message: string)

  datatype Kind = NilKind | BooleanKind | NumberKind | StringKind | TableKind | FunctionKind | ThreadKind | UserdataKind

  /**
   * A Lua value. Integers and floats are one number kind here (equal when mathematically
   * equal); strings are compared by content; tables, userdata and functions by identity.
   */
  datatype Value =
    | Nil
    | Boolean(b: bool)
    | Number(x: real)
    | Str(s: string)
    | TableRef(table: Table)
    | Function(fn: Fn)
    | Thread(id: nat)
    | UserdataRef(data: Userdata)
  {
    function Kind(): Kind {
      match this
      case Nil => NilKind
      case Boolean(_) => BooleanKind
      case Number(_) => NumberKind
      case Str(_) => StringKind
      case TableRef(_) => TableKind
      case Function(_) => FunctionKind
      case Thread(_) => ThreadKind
      case UserdataRef(_) => UserdataKind
    }
  }

  /**
   * The host functions that can be installed as metatable handlers, as a closed set.
   * A handler receives the indexed value and the key (and, for `__newindex`, the new value).
   */
  datatype Fn =
    /** A function that ignores its arguments and returns nothing (numbered for identity). */
    | ReturnsNothing(id: nat)
    /** Returns the string `<kind of receiver>[<key>]<suffix>`, e.g. `table[1]=xyz`. */
    | DescribeAccess(suffix: string)
    /** Stores `<prefix><value>` raw into `target` under the key, e.g. `via-func-abc`. */
    | RawsetInto(target: Table, prefix: string)

  /** A mutable Lua table: raw hash storage and an optional metatable. */
  class Table {
    /** Raw entries; a key is present exactly when its value is not nil. */
    var hash: map<Value, Value>
    var metatable: Table?

    constructor ()
      ensures hash == map[] && metatable == null
    {
      hash := map[];
      metatable := null;
    }

    /** A table built with initial raw entries and no metatable. */
    constructor Of(entries: map<Value, Value>)
      ensures hash == Store(map[], entries) && metatable == null
    {
      hash := Store(map[], entries);
      metatable := null;
    }

    /** `rawget`: the table's own entry, or nil; metatables play no part. */
    function RawGet(key: Value): (v: Value)
      reads this
      ensures key in hash ==> v == hash[key]
      ensures key !in hash ==> v == Nil
    {
      Lookup(hash, key)
    }

    /** `rawset`: writes the table's own storage only; nil removes the entry. */
    method RawSet(key: Value, value: Value)
      modifies this`hash
      ensures hash == Put(old(hash), key, value)
    {
      hash := Put(hash, key, value);
    }

    /** `setmetatable`: replaces the table's metatable (nil clears it) and returns the table. */
    method SetMetatable(mt: Table?) returns (self: Table)
      modifies this`metatable
      ensures self == this && metatable == mt
    {
      metatable := mt;
      self := this;
    }
  }

  /** A host object exposed to Lua; only its metatable slot matters to dispatch. */
  class Userdata {
    const id: nat
    var metatable: Table?

    constructor (id: nat, mt: Table?)
      ensures this.id == id && metatable == mt
    {
      this.id := id;
      metatable := mt;
    }

    method SetMetatable(mt: Table?) returns (self: Userdata)
      modifies this`metatable
      ensures self == this && metatable == mt
    {
      metatable := mt;
      self := this;
    }
  }

  /** A raw read of table storage: absent keys read as nil. */
  function Lookup(m: map<Value, Value>, key: Value): Value {
    if key in m then m[key] else Nil
  }

  /** A raw write into table storage: a nil value deletes the key. */
  function Put(m: map<Value, Value>, key: Value, value: Value): (r: map<Value, Value>)
    ensures Lookup(r, key) == value
    ensures forall k :: k in m && k != key ==> Lookup(r, k) == m[k]
    ensures forall k :: k in r ==> k == key || k in m
    ensures Nil !in m.Values ==> Nil !in r.Values
  {
    if value == Nil then m - {key} else m[key := value]
  }

  /** Several raw writes at once, as a table constructor does; nil values are skipped. */
  function Store(m: map<Value, Value>, entries: map<Value, Value>): (r: map<Value, Value>)
    ensures forall k :: k in entries ==> Lookup(r, k) == entries[k]
    ensures forall k :: k in m && k !in entries ==> Lookup(r, k) == m[k]
    ensures forall k :: k in r ==> k in m || k in entries
    ensures Nil !in m.Values && Nil !in entries.Values ==> r == m + entries
  {
    var all := m + entries;
    map k | k in all && all[k] != Nil :: all[k]
  }

  /** The kind names `typename()` reports. */
  function TypeName(k: Kind): string {
    match k
    case NilKind => "nil"
    case BooleanKind => "boolean"
    case NumberKind => "number"
    case StringKind => "string"
    case TableKind => "table"
    case FunctionKind => "function"
    case ThreadKind => "thread"
    case UserdataKind => "userdata"
  }

  function DigitChar(d: nat): char
    requires d < 10
  {
    ('0' as int + d) as char
  }

  function NatText(n: nat): (s: string)
    ensures |s| > 0
  {
    if n < 10 then [DigitChar(n)] else NatText(n / 10) + [DigitChar(n % 10)]
  }

  /**
   * `tojstring()` for the values handlers format: strings as they are, integral numbers in
   * decimal, booleans and nil by name. Other values are shown by their kind name only.
   */
  function Text(v: Value): string {
    match v
    case Str(s) => s
    case Number(x) =>
      if x == x.Floor as real then
        if x.Floor < 0 then "-" + NatText(-x.Floor) else NatText(x.Floor)
      else TypeName(NumberKind)
    case Boolean(b) => if b then "true" else "false"
    case Nil => "nil"
    case _ => TypeName(v.Kind())
  }
}
