/**
 * Metatable lookup and the `__index` / `__newindex` dispatch of indexed reads and writes
 * (the "index" and "newindex" events of section 2.4 of the Lua 5.2 Reference Manual).
 *
 * Tables and userdata carry their own metatable; nil, booleans, numbers, functions and
 * threads each share one process-wide slot per kind; strings have none in this model.
 * A read first looks at the table's own entry, then follows `__index`: a function handler
 * is called with (receiver, key), any other value is indexed in turn. A write to a key the
 * table already holds is done in place; otherwise `__newindex` is followed the same way.
 * Every walk here takes fuel, one unit per hop; how the runtime ends a cyclic chain is not
 * modelled.
 */
module Metatables {
  import opened Wrappers
  import opened LuaValues

  /** The reserved metatable keys. */
  const IndexKey: Value := Str("__index")
  const NewIndexKey: Value := Str("__newindex")

  /** The kinds whose metatable is a single slot shared by every value of the kind. */
  datatype SharedKind = NilShared | BooleanShared | NumberShared | FunctionShared | ThreadShared

  function SharedKindOf(v: Value): (k: Option<SharedKind>)
    ensures k.None? <==> v.Str? || v.TableRef? || v.UserdataRef?
  {
    match v
    case Nil => Some(NilShared)
    case Boolean(_) => Some(BooleanShared)
    case Number(_) => Some(NumberShared)
    case Function(_) => Some(FunctionShared)
    case Thread(_) => Some(ThreadShared)
    case _ => None
  }

  /** The per-kind `s_metatable` slots. They start empty and may be reassigned at any time. */
  class Registry {
    var nilMetatable: Table?
    var booleanMetatable: Table?
    var numberMetatable: Table?
    var functionMetatable: Table?
    var threadMetatable: Table?

    constructor ()
      ensures nilMetatable == null && booleanMetatable == null && numberMetatable == null
      ensures functionMetatable == null && threadMetatable == null
    {
      nilMetatable, booleanMetatable, numberMetatable := null, null, null;
      functionMetatable, threadMetatable := null, null;
    }

    function Slot(k: SharedKind): Table?
      reads this
    {
      match k
      case NilShared => nilMetatable
      case BooleanShared => booleanMetatable
      case NumberShared => numberMetatable
      case FunctionShared => functionMetatable
      case ThreadShared => threadMetatable
    }

    /** Assigning one kind's slot leaves every other kind's slot as it was. */
    method SetShared(k: SharedKind, mt: Table?)
      modifies this
      ensures Slot(k) == mt
      ensures k != NilShared ==> nilMetatable == old(nilMetatable)
      ensures k != BooleanShared ==> booleanMetatable == old(booleanMetatable)
      ensures k != NumberShared ==> numberMetatable == old(numberMetatable)
      ensures k != FunctionShared ==> functionMetatable == old(functionMetatable)
      ensures k != ThreadShared ==> threadMetatable == old(threadMetatable)
    {
      match k
      case NilShared => nilMetatable := mt;
      case BooleanShared => booleanMetatable := mt;
      case NumberShared => numberMetatable := mt;
      case FunctionShared => functionMetatable := mt;
      case ThreadShared => threadMetatable := mt;
    }
  }

  /** The heap objects a value's own metatable slot lives in. */
  function Owners(v: Value): set<object> {
    match v
    case TableRef(t) => {t}
    case UserdataRef(u) => {u}
    case _ => {}
  }

  /** `getmetatable`: the instance slot of a table or userdata, the shared slot of other kinds. */
  function GetMetatable(reg: Registry, v: Value): (mt: Table?)
    reads reg, Owners(v)
    ensures v.TableRef? ==> mt == v.table.metatable
    ensures v.UserdataRef? ==> mt == v.data.metatable
    ensures SharedKindOf(v).Some? ==> mt == reg.Slot(SharedKindOf(v).value)
    ensures v.Str? ==> mt == null
  {
    match v
    case TableRef(t) => t.metatable
    case UserdataRef(u) => u.metatable
    case Str(_) => null
    case Nil => reg.nilMetatable
    case Boolean(_) => reg.booleanMetatable
    case Number(_) => reg.numberMetatable
    case Function(_) => reg.functionMetatable
    case Thread(_) => reg.threadMetatable
  }

  /** What calling a handler with (receiver, key) returns: its first result. */
  function CallIndex(f: Fn, receiver: Value, key: Value): Value {
    match f
    case ReturnsNothing(_) => Nil
    case DescribeAccess(suffix) => Str(TypeName(receiver.Kind()) + "[" + Text(key) + "]" + suffix)
    case RawsetInto(_, _) => Nil
  }

  /** The metatable entry for a reserved key, or nil when there is no metatable. */
  function MetaTag(reg: Registry, v: Value, tag: Value): Value
    reads reg, Owners(v), GetMetatable(reg, v)
  {
    var mt := GetMetatable(reg, v);
    if mt == null then Nil else mt.RawGet(tag)
  }

  /** The error of indexing a value that cannot be indexed: "attempt to index a <kind> value". */
  function IndexError(k: Kind): LuaError {
    LuaError("attempt to index a " + TypeName(k) + " value")
  }

  /**
   * `get`: an indexed read with metatable dispatch, allowed `fuel` hops along `__index`. A
   * table without `__index`, and a userdata without any metatable, read nil; any other value
   * without `__index` cannot be indexed.
   */
  function Get(reg: Registry, v: Value, key: Value, fuel: nat): (r: Result<Value, LuaError>)
    reads *
    ensures r.Failure? ==> r.error == LuaError("loop in gettable") || exists k: Kind :: r.error == IndexError(k)
    ensures v.TableRef? && v.table.RawGet(key) != Nil ==> r == Success(v.table.RawGet(key))
    ensures GetMetatable(reg, v) == null && v.TableRef? ==> r == Success(v.table.RawGet(key))
    ensures GetMetatable(reg, v) == null && v.UserdataRef? ==> r == Success(Nil)
    ensures MetaTag(reg, v, IndexKey) == Nil && !v.TableRef? && GetMetatable(reg, v) != null ==> r == Failure(IndexError(v.Kind()))
    ensures GetMetatable(reg, v) == null && !v.TableRef? && !v.UserdataRef? ==> r == Failure(IndexError(v.Kind()))
    decreases fuel
  {
    if v.TableRef? && v.table.RawGet(key) != Nil then Success(v.table.RawGet(key))
    else
      var h := MetaTag(reg, v, IndexKey);
      if h == Nil then
        if v.TableRef? then Success(Nil)
        else if v.UserdataRef? && v.data.metatable == null then Success(Nil)
        else Failure(IndexError(v.Kind()))
      else if h.Function? then Success(CallIndex(h.fn, v, key))
      else if fuel == 0 then Failure(LuaError("loop in gettable"))
      else Get(reg, h, key, fuel - 1)
  }

  /** Where a write ends up: a table's own storage, or a `__newindex` function. */
  datatype SetAction =
    | RawWrite(table: Table)
    | CallNewIndex(fn: Fn, receiver: Value)

  /**
   * The resolution step of `set`: a key the table holds raw is overwritten in place; otherwise
   * `__newindex` decides, and without one a table is written raw while any other kind fails.
   */
  function ResolveSet(reg: Registry, v: Value, key: Value, fuel: nat): (r: Result<SetAction, LuaError>)
    reads *
    ensures v.TableRef? && v.table.RawGet(key) != Nil ==> r == Success(RawWrite(v.table))
    ensures r.Success? && r.value.RawWrite? ==>
      r.value.table.RawGet(key) != Nil || MetaTag(reg, TableRef(r.value.table), NewIndexKey) == Nil
    ensures r.Success? && r.value.CallNewIndex? ==>
      MetaTag(reg, r.value.receiver, NewIndexKey) == Function(r.value.fn)
    decreases fuel
  {
    if v.TableRef? && v.table.RawGet(key) != Nil then Success(RawWrite(v.table))
    else
      var h := MetaTag(reg, v, NewIndexKey);
      if h == Nil then
        if v.TableRef? then Success(RawWrite(v.table))
        else Failure(IndexError(v.Kind()))
      else if h.Function? then Success(CallNewIndex(h.fn, v))
      else if fuel == 0 then Failure(LuaError("loop in settable"))
      else ResolveSet(reg, h, key, fuel - 1)
  }

  /** The objects a resolved write changes. */
  function WriteFootprint(action: Result<SetAction, LuaError>): set<object> {
    match action
    case Success(RawWrite(t)) => {t}
    case Success(CallNewIndex(RawsetInto(target, _), _)) => {target}
    case _ => {}
  }

  /** Calls a `__newindex` handler with (receiver, key, value); its result is ignored. */
  method CallNewIndexHandler(f: Fn, receiver: Value, key: Value, value: Value)
    modifies if f.RawsetInto? then {f.target} else {}
    ensures f.RawsetInto? ==> f.target.hash == Put(old(f.target.hash), key, Str(f.prefix + Text(value)))
    ensures f.RawsetInto? ==> f.target.metatable == old(f.target.metatable)
  {
    match f
    case RawsetInto(target, prefix) => target.RawSet(key, Str(prefix + Text(value)));
    case _ =>
  }

  /**
   * `set`: an indexed write with metatable dispatch. Exactly one table is written, the one the
   * resolution picked (or the handler's target), and only its raw storage changes.
   */
  method Set(reg: Registry, v: Value, key: Value, value: Value, fuel: nat) returns (r: Result<(), LuaError>)
    modifies WriteFootprint(ResolveSet(reg, v, key, fuel))
    ensures match old(ResolveSet(reg, v, key, fuel))
      case Failure(e) => r == Failure(e)
      case Success(RawWrite(t)) =>
        r == Success(()) && t.hash == Put(old(t.hash), key, value) && t.metatable == old(t.metatable)
      case Success(CallNewIndex(f, _)) =>
        r == Success(()) &&
        (f.RawsetInto? ==>
          f.target.hash == Put(old(f.target.hash), key, Str(f.prefix + Text(value))) &&
          f.target.metatable == old(f.target.metatable))
  {
    var action := ResolveSet(reg, v, key, fuel);
    match action
    case Failure(e) =>
      r := Failure(e);
    case Success(RawWrite(t)) =>
      t.RawSet(key, value);
      r := Success(());
    case Success(CallNewIndex(f, receiver)) =>
      CallNewIndexHandler(f, receiver, key, value);
      r := Success(());
  }

  // ---------------------------------------------------------------------------------------
  // Properties of lookup and dispatch
  // ---------------------------------------------------------------------------------------

  /** The shared slot of a kind governs every value of that kind; strings have no metatable. */
  lemma SharedSlotGoverns(reg: Registry, v: Value)
    ensures SharedKindOf(v).Some? ==> GetMetatable(reg, v) == reg.Slot(SharedKindOf(v).value)
    ensures v.Str? ==> GetMetatable(reg, v) == null
  {
  }

  /**
   * Without a metatable, a read is the raw read for a table and nil for a userdata; every other
   * kind fails with "attempt to index" naming the kind.
   */
  lemma GetWithoutMetatable(reg: Registry, v: Value, key: Value, fuel: nat)
    requires GetMetatable(reg, v) == null
    ensures v.TableRef? ==> Get(reg, v, key, fuel) == Success(v.table.RawGet(key))
    ensures v.UserdataRef? ==> Get(reg, v, key, fuel) == Success(Nil)
    ensures !v.TableRef? && !v.UserdataRef? ==>
      Get(reg, v, key, fuel) == Failure(IndexError(v.Kind()))
  {
  }

  /**
   * Without a metatable, a write lands in the table itself; on any other kind it is an
   * "attempt to index" error naming the kind.
   */
  lemma SetWithoutMetatable(reg: Registry, v: Value, key: Value, fuel: nat)
    requires GetMetatable(reg, v) == null
    ensures v.TableRef? ==> ResolveSet(reg, v, key, fuel) == Success(RawWrite(v.table))
    ensures !v.TableRef? ==>
      ResolveSet(reg, v, key, fuel) == Failure(IndexError(v.Kind()))
  {
  }

  /** A key the table holds itself is read and overwritten there, whatever its metatable says. */
  lemma RawEntryWins(reg: Registry, t: Table, key: Value, fuel: nat)
    requires t.RawGet(key) != Nil
    ensures Get(reg, TableRef(t), key, fuel) == Success(t.RawGet(key))
    ensures ResolveSet(reg, TableRef(t), key, fuel) == Success(RawWrite(t))
  {
  }

  /** An `__index` function is called with the receiver and the key; its result is the read's. */
  lemma IndexFunction(reg: Registry, v: Value, key: Value, f: Fn, fuel: nat)
    requires !(v.TableRef? && v.table.RawGet(key) != Nil)
    requires MetaTag(reg, v, IndexKey) == Function(f)
    ensures Get(reg, v, key, fuel) == Success(CallIndex(f, v, key))
  {
  }

  /** Any other `__index` value is indexed in turn, spending one unit of fuel. */
  lemma IndexDelegates(reg: Registry, v: Value, key: Value, fuel: nat)
    requires !(v.TableRef? && v.table.RawGet(key) != Nil)
    requires MetaTag(reg, v, IndexKey) != Nil && !MetaTag(reg, v, IndexKey).Function?
    ensures fuel == 0 ==> Get(reg, v, key, fuel) == Failure(LuaError("loop in gettable"))
    ensures fuel > 0 ==> Get(reg, v, key, fuel) == Get(reg, MetaTag(reg, v, IndexKey), key, fuel - 1)
  {
  }

  /** A `__newindex` function takes over the write, with the original receiver. */
  lemma NewIndexFunction(reg: Registry, v: Value, key: Value, f: Fn, fuel: nat)
    requires !(v.TableRef? && v.table.RawGet(key) != Nil)
    requires MetaTag(reg, v, NewIndexKey) == Function(f)
    ensures ResolveSet(reg, v, key, fuel) == Success(CallNewIndex(f, v))
  {
  }

  /** Any other `__newindex` value receives the write in turn, spending one unit of fuel. */
  lemma NewIndexDelegates(reg: Registry, v: Value, key: Value, fuel: nat)
    requires !(v.TableRef? && v.table.RawGet(key) != Nil)
    requires MetaTag(reg, v, NewIndexKey) != Nil && !MetaTag(reg, v, NewIndexKey).Function?
    ensures fuel == 0 ==> ResolveSet(reg, v, key, fuel) == Failure(LuaError("loop in settable"))
    ensures fuel > 0 ==> ResolveSet(reg, v, key, fuel) == ResolveSet(reg, MetaTag(reg, v, NewIndexKey), key, fuel - 1)
  {
  }

  /**
   * The fuel bound only decides whether a walk finishes, never what it finds: a read that
   * completes with some fuel gives the same outcome with more.
   */
  lemma {:induction false} GetFuelMonotone(reg: Registry, v: Value, key: Value, fuel: nat, more: nat)
    requires fuel <= more
    requires Get(reg, v, key, fuel).Success?
    ensures Get(reg, v, key, more) == Get(reg, v, key, fuel)
    decreases fuel
  {
    if !(v.TableRef? && v.table.RawGet(key) != Nil) {
      var h := MetaTag(reg, v, IndexKey);
      if h != Nil && !h.Function? {
        GetFuelMonotone(reg, h, key, fuel - 1, more - 1);
      }
    }
  }

  /** Likewise for the resolution of a write. */
  lemma {:induction false} ResolveSetFuelMonotone(reg: Registry, v: Value, key: Value, fuel: nat, more: nat)
    requires fuel <= more
    requires ResolveSet(reg, v, key, fuel).Success?
    ensures ResolveSet(reg, v, key, more) == ResolveSet(reg, v, key, fuel)
    decreases fuel
  {
    if !(v.TableRef? && v.table.RawGet(key) != Nil) {
      var h := MetaTag(reg, v, NewIndexKey);
      if h != Nil && !h.Function? {
        ResolveSetFuelMonotone(reg, h, key, fuel - 1, more - 1);
      }
    }
  }

  /**
   * A table that is its own metatable and its own `__index` never finds a key it lacks:
   * every amount of fuel runs out, and the read fails with "loop in gettable".
   */
  lemma {:induction false} SelfIndexLoops(reg: Registry, t: Table, key: Value, fuel: nat)
    requires t.metatable == t && t.RawGet(IndexKey) == TableRef(t)
    requires t.RawGet(key) == Nil
    ensures Get(reg, TableRef(t), key, fuel) == Failure(LuaError("loop in gettable"))
    decreases fuel
  {
    if fuel > 0 {
      SelfIndexLoops(reg, t, key, fuel - 1);
    }
  }

  /** Likewise a table that is its own `__newindex`: a write to a key it lacks never lands. */
  lemma {:induction false} SelfNewIndexLoops(reg: Registry, t: Table, key: Value, fuel: nat)
    requires t.metatable == t && t.RawGet(NewIndexKey) == TableRef(t)
    requires t.RawGet(key) == Nil
    ensures ResolveSet(reg, TableRef(t), key, fuel) == Failure(LuaError("loop in settable"))
    decreases fuel
  {
    if fuel > 0 {
      SelfNewIndexLoops(reg, t, key, fuel - 1);
    }
  }
}
