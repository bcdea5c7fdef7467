/**
 * The metatable scenarios of the runtime's test suite, replayed on the model: each method
 * builds the same objects, performs the same updates, and states in its postcondition the
 * observations the suite makes.
 */
module MetatableScenarios {
  import opened Wrappers
  import opened LuaValues
  import opened Metatables

  /** Hops allowed to every walk below; the longest chain in these scenarios has three. */
  const ScenarioFuel: nat := 8

  /** The key every read and write of the index scenarios uses. */
  const One: Value := Number(1.0)

  /**
   * `getmetatable` of the suite's sample values, in the order nil, true, a number, table,
   * function, thread, closure, userdata, userdata-with-metatable.
   */
  function MetatablesOf(reg: Registry, number: real, table: Table, userdata: Userdata, userdatamt: Userdata): seq<Table?>
    reads reg, table, userdata, userdatamt
  {
    [GetMetatable(reg, Nil), GetMetatable(reg, Boolean(true)), GetMetatable(reg, Number(number)),
     GetMetatable(reg, TableRef(table)), GetMetatable(reg, Function(ReturnsNothing(0))),
     GetMetatable(reg, Thread(0)), GetMetatable(reg, Function(ReturnsNothing(1))),
     GetMetatable(reg, UserdataRef(userdata)), GetMetatable(reg, UserdataRef(userdatamt))]
  }

  /**
   * What `getmetatable` reports for the samples: the kind's shared slot for nil, booleans,
   * numbers, functions and threads, each object's own metatable for the table and userdata.
   */
  lemma MetatablesRead(reg: Registry, number: real, table: Table, userdata: Userdata, userdatamt: Userdata)
    ensures MetatablesOf(reg, number, table, userdata, userdatamt) ==
      [reg.nilMetatable, reg.booleanMetatable, reg.numberMetatable, table.metatable, reg.functionMetatable,
       reg.threadMetatable, reg.functionMetatable, userdata.metatable, userdatamt.metatable]
  {
  }

  /** Metatables start empty everywhere except on a userdata created with one. */
  method GetMetatableScenario() returns (table: Table, initial: seq<Table?>)
    ensures initial == [null, null, null, null, null, null, null, null, table]
  {
    var reg := new Registry();
    table := new Table();
    var userdata := new Userdata(0, null);
    var userdatamt := new Userdata(1, table);
    initial := MetatablesOf(reg, 1.0, table, userdata, userdatamt);
    MetatablesRead(reg, 1.0, table, userdata, userdatamt);
  }

  /**
   * Setting a table's or userdata's metatable returns the receiver and is seen by that value
   * only: every shared slot stays empty.
   */
  method SetMetatableScenario() returns (
    reg: Registry, table: Table, userdata: Userdata, userdatamt: Userdata, mt: Table,
    returned: bool, attached: seq<Table?>)
    ensures returned
    ensures attached == [null, null, null, mt, null, null, null, mt, mt]
    ensures fresh(reg) && fresh(mt)
    ensures reg.nilMetatable == null && reg.booleanMetatable == null && reg.numberMetatable == null
    ensures reg.functionMetatable == null && reg.threadMetatable == null
    ensures table.metatable == mt && userdata.metatable == mt && userdatamt.metatable == mt
  {
    reg := new Registry();
    table := new Table();
    userdata := new Userdata(0, null);
    userdatamt := new Userdata(1, table);
    mt := new Table();
    var t := table.SetMetatable(mt);
    var u := userdata.SetMetatable(mt);
    var umt := userdatamt.SetMetatable(mt);
    returned := t == table && u == userdata && umt == userdatamt;
    attached := MetatablesOf(reg, 1.0, table, userdata, userdatamt);
    MetatablesRead(reg, 1.0, table, userdata, userdatamt);
  }

  /**
   * Continuing from there, the shared slots are assigned one at a time, and after each the
   * samples are read: the slot is seen by every value of its kind (1 and 1.25 alike, a
   * function and a closure alike) and by no other kind.
   */
  method SharedSlotsScenario(reg: Registry, table: Table, userdata: Userdata, userdatamt: Userdata, mt: Table)
    returns (nilShared: seq<Table?>, booleanShared: seq<Table?>, numberShared: seq<Table?>,
             fractionShared: seq<Table?>, functionShared: seq<Table?>, allShared: seq<Table?>)
    requires reg.nilMetatable == null && reg.booleanMetatable == null && reg.numberMetatable == null
    requires reg.functionMetatable == null && reg.threadMetatable == null
    requires table.metatable == mt && userdata.metatable == mt && userdatamt.metatable == mt
    modifies reg
    ensures nilShared == [mt, null, null, mt, null, null, null, mt, mt]
    ensures booleanShared == [mt, mt, null, mt, null, null, null, mt, mt]
    ensures numberShared == [mt, mt, mt, mt, null, null, null, mt, mt]
    ensures fractionShared == numberShared
    ensures functionShared == [mt, mt, mt, mt, mt, null, mt, mt, mt]
    ensures allShared == [mt, mt, mt, mt, mt, mt, mt, mt, mt]
  {
    reg.SetShared(NilShared, mt);
    nilShared := MetatablesOf(reg, 1.0, table, userdata, userdatamt);
    MetatablesRead(reg, 1.0, table, userdata, userdatamt);

    reg.SetShared(BooleanShared, mt);
    booleanShared := MetatablesOf(reg, 1.0, table, userdata, userdatamt);
    MetatablesRead(reg, 1.0, table, userdata, userdatamt);

    reg.SetShared(NumberShared, mt);
    numberShared := MetatablesOf(reg, 1.0, table, userdata, userdatamt);
    MetatablesRead(reg, 1.0, table, userdata, userdatamt);
    fractionShared := MetatablesOf(reg, 1.25, table, userdata, userdatamt);
    MetatablesRead(reg, 1.25, table, userdata, userdatamt);

    reg.SetShared(FunctionShared, mt);
    functionShared := MetatablesOf(reg, 1.0, table, userdata, userdatamt);
    MetatablesRead(reg, 1.0, table, userdata, userdatamt);

    reg.SetShared(ThreadShared, mt);
    allShared := MetatablesOf(reg, 1.0, table, userdata, userdatamt);
    MetatablesRead(reg, 1.0, table, userdata, userdatamt);
  }

  /** The sample values of the index scenarios: table, userdata, nil, true, 1, function, thread. */
  function Samples(table: Table, userdata: Userdata): seq<Value> {
    [TableRef(table), UserdataRef(userdata), Nil, Boolean(true), One, Function(ReturnsNothing(0)), Thread(0)]
  }

  /** `get(1)` on the sample values table, userdata, nil, true, 1, function, thread. */
  function IndexReads(reg: Registry, table: Table, userdata: Userdata): seq<Result<Value, LuaError>>
    reads *
  {
    [Get(reg, TableRef(table), One, ScenarioFuel), Get(reg, UserdataRef(userdata), One, ScenarioFuel),
     Get(reg, Nil, One, ScenarioFuel), Get(reg, Boolean(true), One, ScenarioFuel),
     Get(reg, One, One, ScenarioFuel), Get(reg, Function(ReturnsNothing(0)), One, ScenarioFuel),
     Get(reg, Thread(0), One, ScenarioFuel)]
  }

  /** Every sample value shares the one metatable `mt`, which has no metatable of its own. */
  ghost predicate Dressed(reg: Registry, table: Table, userdata: Userdata, mt: Table)
    reads reg, table, userdata, mt
  {
    && table.hash == map[] && table.metatable == mt && userdata.metatable == mt && mt.metatable == null
    && reg.nilMetatable == mt && reg.booleanMetatable == mt && reg.numberMetatable == mt
    && reg.functionMetatable == mt && reg.threadMetatable == mt
  }

  /** With every metatable cleared, reading a missing key gives nil. */
  method ClearedScenario() returns (cleared: seq<Result<Value, LuaError>>)
    ensures cleared == [Success(Nil), Success(Nil), Success(Nil)]
  {
    var reg := new Registry();
    var table := new Table();
    var userdata := new Userdata(0, null);
    var userdatamt := new Userdata(1, table);
    var t := table.SetMetatable(null);
    var u := userdata.SetMetatable(null);
    u := userdatamt.SetMetatable(null);
    cleared := [Get(reg, TableRef(table), One, ScenarioFuel), Get(reg, UserdataRef(userdata), One, ScenarioFuel),
                Get(reg, UserdataRef(userdatamt), One, ScenarioFuel)];
  }

  /** Attaches one empty metatable to the sample table and userdata and to every shared slot. */
  method DressSamples() returns (reg: Registry, table: Table, userdata: Userdata, mt: Table)
    ensures fresh(reg) && fresh(table) && fresh(userdata) && fresh(mt)
    ensures mt.hash == map[] && Dressed(reg, table, userdata, mt)
  {
    reg := new Registry();
    table := new Table();
    userdata := new Userdata(0, null);
    mt := new Table();
    var t := table.SetMetatable(mt);
    var u := userdata.SetMetatable(mt);
    reg.SetShared(BooleanShared, mt);
    reg.SetShared(FunctionShared, mt);
    reg.SetShared(NilShared, mt);
    reg.SetShared(NumberShared, mt);
    reg.SetShared(ThreadShared, mt);
  }

  /** Under an `__index` table holding "abc" at 1 and no metatable, `get(1)` misses are "abc". */
  lemma ListRead(reg: Registry, v: Value, list: Table)
    requires !(v.TableRef? && v.table.RawGet(One) != Nil)
    requires MetaTag(reg, v, IndexKey) == TableRef(list)
    requires list.metatable == null && list.hash == map[One := Str("abc")]
    ensures Get(reg, v, One, ScenarioFuel) == Success(Str("abc"))
  {
    IndexDelegates(reg, v, One, ScenarioFuel);
  }

  /** The reads of the table-index scenario, given the state it creates. */
  lemma ListIndexReads(reg: Registry, table: Table, userdata: Userdata, mt: Table, list: Table)
    requires Dressed(reg, table, userdata, mt) && mt.RawGet(IndexKey) == TableRef(list)
    requires list.metatable == null && list.hash == map[One := Str("abc")]
    ensures IndexReads(reg, table, userdata) == seq(7, _ => Success(Str("abc")))
  {
    ListRead(reg, TableRef(table), list);
    ListRead(reg, UserdataRef(userdata), list);
    ListRead(reg, Nil, list);
    ListRead(reg, Boolean(true), list);
    ListRead(reg, One, list);
    ListRead(reg, Function(ReturnsNothing(0)), list);
    ListRead(reg, Thread(0), list);
  }

  /** An `__index` table holding "abc" at 1 answers `get(1)` for every kind of value. */
  method IndexByTableScenario(reg: Registry, table: Table, userdata: Userdata, mt: Table)
    returns (list: Table, written: Result<(), LuaError>, results: seq<Result<Value, LuaError>>)
    requires mt.hash == map[] && Dressed(reg, table, userdata, mt)
    modifies mt
    ensures fresh(list) && list.hash == map[One := Str("abc")] && list.metatable == null
    ensures written == Success(())
    ensures mt.hash == old(mt.hash)[IndexKey := TableRef(list)] && Dressed(reg, table, userdata, mt)
    ensures results == seq(7, _ => Success(Str("abc")))
  {
    list := new Table.Of(map[One := Str("abc")]);
    written := Set(reg, TableRef(mt), IndexKey, TableRef(list), ScenarioFuel);
    assert mt.RawGet(IndexKey) == TableRef(list);
    ListIndexReads(reg, table, userdata, mt, list);
    results := IndexReads(reg, table, userdata);
  }

  /** An `__index` function is called with the receiver and the key, for every kind of value. */
  method IndexByFunctionScenario(reg: Registry, table: Table, userdata: Userdata, mt: Table)
    returns (written: Result<(), LuaError>, results: seq<Result<Value, LuaError>>)
    requires Dressed(reg, table, userdata, mt)
    modifies mt
    ensures written == Success(())
    ensures mt.hash == old(mt.hash)[IndexKey := Function(DescribeAccess("=xyz"))] && Dressed(reg, table, userdata, mt)
    ensures results == [Success(Str(TypeName(TableKind) + "[1]=xyz")), Success(Str(TypeName(UserdataKind) + "[1]=xyz")),
                      Success(Str(TypeName(NilKind) + "[1]=xyz")), Success(Str(TypeName(BooleanKind) + "[1]=xyz")),
                      Success(Str(TypeName(NumberKind) + "[1]=xyz")), Success(Str(TypeName(FunctionKind) + "[1]=xyz")),
                      Success(Str(TypeName(ThreadKind) + "[1]=xyz"))]
  {
    written := Set(reg, TableRef(mt), IndexKey, Function(DescribeAccess("=xyz")), ScenarioFuel);
    assert mt.RawGet(IndexKey) == Function(DescribeAccess("=xyz"));
    FunctionIndexReads(reg, table, userdata, mt);
    results := IndexReads(reg, table, userdata);
  }

  /**
   * The whole index test: the samples are dressed with one metatable, whose `__index` is first
   * the list and then the describing function.
   */
  method MetatableIndex() returns (listResults: seq<Result<Value, LuaError>>, functionResults: seq<Result<Value, LuaError>>)
    ensures listResults == seq(7, _ => Success(Str("abc")))
    ensures functionResults == [Success(Str("table[1]=xyz")), Success(Str("userdata[1]=xyz")),
                                Success(Str("nil[1]=xyz")), Success(Str("boolean[1]=xyz")),
                                Success(Str("number[1]=xyz")), Success(Str("function[1]=xyz")),
                                Success(Str("thread[1]=xyz"))]
  {
    var reg, table, userdata, mt := DressSamples();
    var list, written, results := IndexByTableScenario(reg, table, userdata, mt);
    listResults := results;
    written, functionResults := IndexByFunctionScenario(reg, table, userdata, mt);
    KindDescriptions();
  }

  /** A described access of key 1 names the receiver's kind. */
  lemma DescribeOne(v: Value)
    ensures CallIndex(DescribeAccess("=xyz"), v, One) == Str(TypeName(v.Kind()) + "[1]=xyz")
  {
    var name := TypeName(v.Kind());
    assert Text(One) == "1";
    assert name + "[" + "1" + "]" + "=xyz" == name + "[1]=xyz";
  }

  /** Under a metatable whose `__index` is the describing handler, `get(1)` names the kind. */
  lemma DescribedRead(reg: Registry, v: Value)
    requires !(v.TableRef? && v.table.RawGet(One) != Nil)
    requires MetaTag(reg, v, IndexKey) == Function(DescribeAccess("=xyz"))
    ensures Get(reg, v, One, ScenarioFuel) == Success(Str(TypeName(v.Kind()) + "[1]=xyz"))
  {
    IndexFunction(reg, v, One, DescribeAccess("=xyz"), ScenarioFuel);
    DescribeOne(v);
  }

  /** The descriptions the handler gives for key 1, kind by kind. */
  lemma KindDescriptions()
    ensures TypeName(TableKind) + "[1]=xyz" == "table[1]=xyz"
    ensures TypeName(UserdataKind) + "[1]=xyz" == "userdata[1]=xyz"
    ensures TypeName(NilKind) + "[1]=xyz" == "nil[1]=xyz"
    ensures TypeName(BooleanKind) + "[1]=xyz" == "boolean[1]=xyz"
    ensures TypeName(NumberKind) + "[1]=xyz" == "number[1]=xyz"
    ensures TypeName(FunctionKind) + "[1]=xyz" == "function[1]=xyz"
    ensures TypeName(ThreadKind) + "[1]=xyz" == "thread[1]=xyz"
  {
  }

  /** The reads of the function-index scenario, given the state it creates. */
  lemma FunctionIndexReads(reg: Registry, table: Table, userdata: Userdata, mt: Table)
    requires Dressed(reg, table, userdata, mt)
    requires mt.RawGet(IndexKey) == Function(DescribeAccess("=xyz"))
    ensures IndexReads(reg, table, userdata) ==
      [Success(Str(TypeName(TableKind) + "[1]=xyz")), Success(Str(TypeName(UserdataKind) + "[1]=xyz")),
       Success(Str(TypeName(NilKind) + "[1]=xyz")), Success(Str(TypeName(BooleanKind) + "[1]=xyz")),
       Success(Str(TypeName(NumberKind) + "[1]=xyz")), Success(Str(TypeName(FunctionKind) + "[1]=xyz")),
       Success(Str(TypeName(ThreadKind) + "[1]=xyz"))]
  {
    DescribedRead(reg, TableRef(table));
    DescribedRead(reg, UserdataRef(userdata));
    DescribedRead(reg, Nil);
    DescribedRead(reg, Boolean(true));
    DescribedRead(reg, One);
    DescribedRead(reg, Function(ReturnsNothing(0)));
    DescribedRead(reg, Thread(0));
  }

  /** A write that misses the receiver and meets a plain `__newindex` table lands there. */
  lemma FallbackWrite(reg: Registry, v: Value, key: Value, fallback: Table)
    requires !(v.TableRef? && v.table.RawGet(key) != Nil)
    requires MetaTag(reg, v, NewIndexKey) == TableRef(fallback) && fallback.metatable == null
    ensures ResolveSet(reg, v, key, ScenarioFuel) == Success(RawWrite(fallback))
  {
    NewIndexDelegates(reg, v, key, ScenarioFuel);
  }

  /** A write that misses the receiver and meets a `__newindex` function is handed to it. */
  lemma HandlerWrite(reg: Registry, v: Value, key: Value, f: Fn)
    requires !(v.TableRef? && v.table.RawGet(key) != Nil)
    requires MetaTag(reg, v, NewIndexKey) == Function(f)
    ensures ResolveSet(reg, v, key, ScenarioFuel) == Success(CallNewIndex(f, v))
  {
    NewIndexFunction(reg, v, key, f, ScenarioFuel);
  }

  /** A `set` whose walk ends in a raw write to `target` stores the pair there and succeeds. */
  method WriteLanding(reg: Registry, v: Value, key: Value, value: Value, target: Table) returns (r: Result<(), LuaError>)
    requires ResolveSet(reg, v, key, ScenarioFuel) == Success(RawWrite(target))
    modifies target
    ensures r == Success(()) && target.metatable == old(target.metatable)
    ensures target.hash == Put(old(target.hash), key, value)
  {
    r := Set(reg, v, key, value, ScenarioFuel);
  }

  /** A `set` handed to a `RawsetInto` handler stores the prefixed text in the handler's table. */
  method WriteHandled(reg: Registry, v: Value, key: Value, value: Value, target: Table, prefix: string)
    returns (r: Result<(), LuaError>)
    requires ResolveSet(reg, v, key, ScenarioFuel) == Success(CallNewIndex(RawsetInto(target, prefix), v))
    modifies target
    ensures r == Success(()) && target.metatable == old(target.metatable)
    ensures target.hash == Put(old(target.hash), key, Str(prefix + Text(value)))
  {
    r := Set(reg, v, key, value, ScenarioFuel);
  }

  /**
   * The key the j-th sample writes, counting from `first`; the slot `first + 5`, which the suite
   * leaves to strings, is skipped.
   */
  function SampleKey(first: int, j: nat): (k: Value)
    ensures k.Number? && (first + j) as real <= k.x <= (first + j + 1) as real
  {
    Number((first + j + if j < 5 then 0 else 1) as real)
  }

  /** `h` holds `v` at the keys of the first `n` samples, counting from `first`. */
  ghost predicate HoldsAtSampleKeys(h: map<Value, Value>, first: int, n: nat, v: Value) {
    forall j: nat :: j < n ==> Lookup(h, SampleKey(first, j)) == v
  }

  /** The raw entries of `t` at the given number keys. */
  function RawReads(t: Table, keys: seq<real>): (r: seq<Value>)
    reads t
    ensures |r| == |keys| && forall i :: 0 <= i < |keys| ==> r[i] == t.RawGet(Number(keys[i]))
  {
    if keys == [] then [] else [t.RawGet(Number(keys[0]))] + RawReads(t, keys[1..])
  }

  /** The sample keys counting from `first`, written out: five in a row, then two after a gap. */
  lemma SampleKeysListed(t: Table, first: int, v: Value)
    requires HoldsAtSampleKeys(t.hash, first, 7, v)
    ensures RawReads(t, [first as real, (first + 1) as real, (first + 2) as real, (first + 3) as real,
                         (first + 4) as real, (first + 6) as real, (first + 7) as real]) == seq(7, _ => v)
  {
    var keys := [first as real, (first + 1) as real, (first + 2) as real, (first + 3) as real,
                 (first + 4) as real, (first + 6) as real, (first + 7) as real];
    forall i | 0 <= i < 7
      ensures t.RawGet(Number(keys[i])) == v
    {
      assert SampleKey(first, i) == Number(keys[i]);
    }
  }

  /** Storing `v` at the next sample key extends the run of keys holding `v` by one. */
  lemma HoldsAfterPut(h: map<Value, Value>, first: int, n: nat, v: Value)
    requires n < 7 && HoldsAtSampleKeys(h, first, n, v)
    ensures HoldsAtSampleKeys(Put(h, SampleKey(first, n), v), first, n + 1, v)
  {
    var r := Put(h, SampleKey(first, n), v);
    forall j: nat | j < n + 1
      ensures Lookup(r, SampleKey(first, j)) == v
    {
      if j < n {
        assert SampleKey(first, j) != SampleKey(first, n);
      }
    }
  }

  /** `get` of the seven sample keys from a table without a metatable that holds `v` at each. */
  method ReadSampleKeys(reg: Registry, x: Table, first: int, v: Value) returns (results: seq<Result<Value, LuaError>>)
    requires x.metatable == null && HoldsAtSampleKeys(x.hash, first, 7, v)
    ensures results == seq(7, _ => Success(v))
  {
    results := [];
    for i := 0 to 7
      invariant |results| == i && forall j :: 0 <= j < i ==> results[j] == Success(v)
    {
      GetWithoutMetatable(reg, TableRef(x), SampleKey(first, i), ScenarioFuel);
      results := results + [Get(reg, TableRef(x), SampleKey(first, i), ScenarioFuel)];
    }
  }

  /**
   * A `__newindex` table receives the writes of every kind of value: afterwards it holds "abc"
   * at keys 2, 3, 4, 5, 6, 8 and 9.
   */
  method NewIndexByTableScenario(reg: Registry, table: Table, userdata: Userdata, mt: Table)
    returns (fallback: Table, outcomes: seq<Result<(), LuaError>>, results: seq<Result<Value, LuaError>>)
    requires mt.hash == map[] && Dressed(reg, table, userdata, mt)
    modifies mt
    ensures fresh(fallback)
    ensures mt.hash == old(mt.hash)[NewIndexKey := TableRef(fallback)] && Dressed(reg, table, userdata, mt)
    ensures outcomes == seq(7, _ => Success(()))
    ensures fallback.metatable == null
    ensures RawReads(fallback, [2.0, 3.0, 4.0, 5.0, 6.0, 8.0, 9.0]) == seq(7, _ => Str("abc"))
    ensures results == seq(7, _ => Success(Str("abc")))
  {
    fallback := new Table();
    var abc := Str("abc");
    var w := Set(reg, TableRef(mt), NewIndexKey, TableRef(fallback), ScenarioFuel);
    assert mt.RawGet(NewIndexKey) == TableRef(fallback);
    outcomes := FallbackWrites(reg, table, userdata, mt, fallback);
    results := ReadSampleKeys(reg, fallback, 2, abc);
    SampleKeysListed(fallback, 2, abc);
  }

  /**
   * The seven writes of "abc" at keys 2-6, 8 and 9, one per sample, under a metatable whose
   * `__newindex` is the table `fallback`.
   */
  method FallbackWrites(reg: Registry, table: Table, userdata: Userdata, mt: Table, fallback: Table)
    returns (outcomes: seq<Result<(), LuaError>>)
    requires Dressed(reg, table, userdata, mt) && fallback.metatable == null && fallback != mt
    requires mt.RawGet(NewIndexKey) == TableRef(fallback)
    modifies fallback
    ensures outcomes == seq(7, _ => Success(()))
    ensures fallback.metatable == null
    ensures HoldsAtSampleKeys(fallback.hash, 2, 7, Str("abc"))
  {
    var abc := Str("abc");
    var samples := Samples(table, userdata);
    outcomes := [];
    for i := 0 to 7
      invariant |outcomes| == i && forall j :: 0 <= j < i ==> outcomes[j] == Success(())
      invariant fallback.metatable == null
      invariant HoldsAtSampleKeys(fallback.hash, 2, i, abc)
    {
      FallbackWrite(reg, samples[i], SampleKey(2, i), fallback);
      var h := fallback.hash;
      var r := WriteLanding(reg, samples[i], SampleKey(2, i), abc, fallback);
      HoldsAfterPut(h, 2, i, abc);
      outcomes := outcomes + [r];
    }
  }

  /**
   * The seven writes of "abc" at keys 12-16, 18 and 19, one per sample, under a metatable whose
   * `__newindex` is the handler storing into `fallback`.
   */
  method HandledWrites(reg: Registry, table: Table, userdata: Userdata, mt: Table, fallback: Table)
    returns (outcomes: seq<Result<(), LuaError>>)
    requires Dressed(reg, table, userdata, mt) && fallback.metatable == null && fallback != mt
    requires mt.RawGet(NewIndexKey) == Function(RawsetInto(fallback, "via-func-"))
    modifies fallback
    ensures outcomes == seq(7, _ => Success(()))
    ensures fallback.metatable == null
    ensures HoldsAtSampleKeys(fallback.hash, 12, 7, Str("via-func-abc"))
  {
    var abc := Str("abc");
    var handler := RawsetInto(fallback, "via-func-");
    assert Text(abc) == "abc";
    assert "via-func-" + "abc" == "via-func-abc";
    var samples := Samples(table, userdata);
    outcomes := [];
    for i := 0 to 7
      invariant |outcomes| == i && forall j :: 0 <= j < i ==> outcomes[j] == Success(())
      invariant fallback.metatable == null
      invariant HoldsAtSampleKeys(fallback.hash, 12, i, Str("via-func-abc"))
    {
      HandlerWrite(reg, samples[i], SampleKey(12, i), handler);
      var h := fallback.hash;
      var r := WriteHandled(reg, samples[i], SampleKey(12, i), abc, fallback, "via-func-");
      HoldsAfterPut(h, 12, i, Str("via-func-abc"));
      outcomes := outcomes + [r];
    }
  }

  /**
   * A `__newindex` function that stores "via-func-" and the value raw into `fallback` under the
   * written key takes every kind of value's writes: afterwards `fallback` holds "via-func-abc"
   * at keys 12, 13, 14, 15, 16, 18 and 19.
   */
  method NewIndexByFunctionScenario(reg: Registry, table: Table, userdata: Userdata, mt: Table, fallback: Table)
    returns (outcomes: seq<Result<(), LuaError>>, results: seq<Result<Value, LuaError>>)
    requires Dressed(reg, table, userdata, mt) && fallback.metatable == null && fallback != mt
    modifies mt, fallback
    ensures mt.hash == old(mt.hash)[NewIndexKey := Function(RawsetInto(fallback, "via-func-"))]
    ensures Dressed(reg, table, userdata, mt)
    ensures outcomes == seq(7, _ => Success(()))
    ensures fallback.metatable == null
    ensures RawReads(fallback, [12.0, 13.0, 14.0, 15.0, 16.0, 18.0, 19.0]) == seq(7, _ => Str("via-func-abc"))
    ensures results == seq(7, _ => Success(Str("via-func-abc")))
  {
    var handler := RawsetInto(fallback, "via-func-");
    var w := Set(reg, TableRef(mt), NewIndexKey, Function(handler), ScenarioFuel);
    outcomes := HandledWrites(reg, table, userdata, mt, fallback);
    results := ReadSampleKeys(reg, fallback, 12, Str("via-func-abc"));
    SampleKeysListed(fallback, 12, Str("via-func-abc"));
  }

  /**
   * The whole newindex test: the samples are dressed with one metatable, whose `__newindex` is
   * first a fallback table and then a function that stores into that same fallback.
   */
  method MetatableNewIndex() returns (tableResults: seq<Result<Value, LuaError>>, functionResults: seq<Result<Value, LuaError>>)
    ensures tableResults == seq(7, _ => Success(Str("abc")))
    ensures functionResults == seq(7, _ => Success(Str("via-func-abc")))
  {
    var reg, table, userdata, mt := DressSamples();
    var fallback, outcomes, results := NewIndexByTableScenario(reg, table, userdata, mt);
    tableResults := results;
    outcomes, functionResults := NewIndexByFunctionScenario(reg, table, userdata, mt, fallback);
  }
}
