/**
 * The raw-versus-dispatched scenario of the runtime's test suite: three tables `s`, `t` and
 * `m`, where `m` is its own `__index` and `__newindex` and serves as `t`'s metatable, and later
 * `s` falls back to `t`. After each phase, every table is inspected through `get` and `rawget`
 * for the keys "aa" to "gg".
 */
module RawsetScenario {
  import opened Wrappers
  import opened LuaValues
  import opened Metatables

  /** Hops allowed to every walk; the longest chain here is s, t, m. */
  const Fuel: nat := 8

  /** The keys every inspection reads, in order. */
  const Keys: seq<Value> := [Str("aa"), Str("bb"), Str("cc"), Str("dd"), Str("ee"), Str("ff"), Str("gg")]

  /** `rawget` of each key from raw storage. */
  function Raws(h: map<Value, Value>): (r: seq<Value>)
    ensures |r| == |Keys|
  {
    seq(|Keys|, i requires 0 <= i < |Keys| => Lookup(h, Keys[i]))
  }

  /** `get` of each key through metatables. */
  function Gets(reg: Registry, t: Table): (r: seq<Result<Value, LuaError>>)
    reads *
    ensures |r| == |Keys|
  {
    [Get(reg, TableRef(t), Keys[0], Fuel), Get(reg, TableRef(t), Keys[1], Fuel),
     Get(reg, TableRef(t), Keys[2], Fuel), Get(reg, TableRef(t), Keys[3], Fuel),
     Get(reg, TableRef(t), Keys[4], Fuel), Get(reg, TableRef(t), Keys[5], Fuel),
     Get(reg, TableRef(t), Keys[6], Fuel)]
  }

  /** A raw write at one of the inspected keys changes that key's reading only. */
  lemma RawsAfterPut(h: map<Value, Value>, i: nat, v: Value)
    requires i < |Keys|
    ensures Raws(Put(h, Keys[i], v)) == Raws(h)[i := v]
  {
  }

  /** None of the inspected keys is a metatable tag. */
  lemma KeysAreNotTags(i: nat)
    requires i < |Keys|
    ensures Keys[i] != IndexKey && Keys[i] != NewIndexKey
  {
  }

  /**
   * `rawset` at the i-th inspected key: that reading of `x` becomes `v`, the others, the
   * metatable and the tag entries of `x` stay.
   */
  method RawSetAt(x: Table, i: nat, v: Value)
    requires i < |Keys|
    modifies x
    ensures Raws(x.hash) == old(Raws(x.hash))[i := v]
    ensures x.metatable == old(x.metatable)
    ensures x.RawGet(IndexKey) == old(x.RawGet(IndexKey)) && x.RawGet(NewIndexKey) == old(x.RawGet(NewIndexKey))
  {
    var h := x.hash;
    x.RawSet(Keys[i], v);
    RawsAfterPut(h, i, v);
    KeysAreNotTags(i);
  }

  /**
   * `set` at the i-th inspected key, when the walk from `x` ends in a raw write to `target`: the
   * write lands in `target` exactly as a `rawset` there would.
   */
  method SetAt(reg: Registry, x: Table, i: nat, v: Value, target: Table)
    requires i < |Keys| && ResolveSet(reg, TableRef(x), Keys[i], Fuel) == Success(RawWrite(target))
    modifies target
    ensures Raws(target.hash) == old(Raws(target.hash))[i := v]
    ensures target.metatable == old(target.metatable)
    ensures target.RawGet(IndexKey) == old(target.RawGet(IndexKey))
    ensures target.RawGet(NewIndexKey) == old(target.RawGet(NewIndexKey))
  {
    var h := target.hash;
    var r := Set(reg, TableRef(x), Keys[i], v, Fuel);
    RawsAfterPut(h, i, v);
    KeysAreNotTags(i);
  }

  /** Own readings where present, the fallback's readings elsewhere. */
  function Overlay(own: seq<Value>, below: seq<Value>): (r: seq<Value>)
    requires |own| == |below|
    ensures |r| == |own|
  {
    seq(|own|, i requires 0 <= i < |own| => if own[i] != Nil then own[i] else below[i])
  }

  /** Successful reads of the given values. */
  function Successes(vs: seq<Value>): (r: seq<Result<Value, LuaError>>)
    ensures |r| == |vs|
  {
    seq(|vs|, i requires 0 <= i < |vs| => Success(vs[i]))
  }

  /** What one `checkTable` inspection observes: the dispatched reads and the raw reads. */
  datatype View = View(gets: seq<Result<Value, LuaError>>, raws: seq<Value>)

  function ViewOf(reg: Registry, t: Table): View
    reads *
  {
    View(Gets(reg, t), Raws(t.hash))
  }

  /** The view the suite expects: the values `get` returns and the values `rawget` returns. */
  function Expected(gets: seq<Value>, raws: seq<Value>): View {
    View(Successes(gets), raws)
  }

  /** Without a metatable, `get` sees exactly what `rawget` sees. */
  lemma PlainReads(reg: Registry, x: Table, fuel: nat)
    requires x.metatable == null
    ensures forall k :: Get(reg, TableRef(x), k, fuel) == Success(x.RawGet(k))
  {
    forall k {
      GetWithoutMetatable(reg, TableRef(x), k, fuel);
    }
  }

  /**
   * Through an `__index` table `y`, `get` sees the receiver's own entries first and reads the
   * keys it lacks from `y`, with one hop less.
   */
  lemma IndexedReads(reg: Registry, x: Table, y: Table, fuel: nat)
    requires fuel > 0 && x.metatable != null && x.metatable.RawGet(IndexKey) == TableRef(y)
    ensures forall k :: Get(reg, TableRef(x), k, fuel) == if x.RawGet(k) != Nil then Success(x.RawGet(k)) else Get(reg, TableRef(y), k, fuel - 1)
  {
    forall k
      ensures Get(reg, TableRef(x), k, fuel) ==
        (if x.RawGet(k) != Nil then Success(x.RawGet(k)) else Get(reg, TableRef(y), k, fuel - 1))
    {
      if x.RawGet(k) == Nil {
        IndexDelegates(reg, TableRef(x), k, fuel);
      }
    }
  }

  /** A table without a metatable: `get` sees exactly what `rawget` sees. */
  lemma PlainTableView(reg: Registry, x: Table, raws: seq<Value>)
    requires x.metatable == null && Raws(x.hash) == raws
    ensures ViewOf(reg, x) == Expected(raws, raws)
  {
    PlainReads(reg, x, Fuel);
    forall i | 0 <= i < |Keys|
      ensures Gets(reg, x)[i] == Successes(raws)[i]
    {
      assert raws[i] == x.RawGet(Keys[i]);
    }
  }

  /** A table whose `__index` is a table `y` without a metatable: own entries, then `y`'s. */
  lemma IndexedTableView(reg: Registry, x: Table, y: Table, xr: seq<Value>, yr: seq<Value>)
    requires x.metatable != null && x.metatable.RawGet(IndexKey) == TableRef(y) && y.metatable == null
    requires Raws(x.hash) == xr && Raws(y.hash) == yr
    ensures ViewOf(reg, x) == Expected(Overlay(xr, yr), xr)
  {
    IndexedReads(reg, x, y, Fuel);
    PlainReads(reg, y, Fuel - 1);
    forall i | 0 <= i < |Keys|
      ensures Gets(reg, x)[i] == Successes(Overlay(xr, yr))[i]
    {
      assert xr[i] == x.RawGet(Keys[i]) && yr[i] == y.RawGet(Keys[i]);
    }
  }

  /** A table whose `__index` is `y`, whose `__index` in turn is `z`: own, then `y`'s, then `z`'s. */
  lemma DoublyIndexedTableView(reg: Registry, x: Table, y: Table, z: Table, xr: seq<Value>, yr: seq<Value>, zr: seq<Value>)
    requires x.metatable != null && x.metatable.RawGet(IndexKey) == TableRef(y)
    requires y.metatable != null && y.metatable.RawGet(IndexKey) == TableRef(z) && z.metatable == null
    requires Raws(x.hash) == xr && Raws(y.hash) == yr && Raws(z.hash) == zr
    ensures ViewOf(reg, x) == Expected(Overlay(xr, Overlay(yr, zr)), xr)
  {
    IndexedReads(reg, x, y, Fuel);
    IndexedReads(reg, y, z, Fuel - 1);
    PlainReads(reg, z, Fuel - 2);
    forall i | 0 <= i < |Keys|
      ensures Gets(reg, x)[i] == Successes(Overlay(xr, Overlay(yr, zr)))[i]
    {
      assert xr[i] == x.RawGet(Keys[i]) && yr[i] == y.RawGet(Keys[i]) && zr[i] == z.RawGet(Keys[i]);
    }
  }

  /** `m` is its own `__index` and `__newindex`, has no metatable, and is `t`'s metatable. */
  ghost predicate Layout(s: Table, t: Table, m: Table)
    reads s, t, m
  {
    && s != t && t != m && s != m
    && t.metatable == m && m.metatable == null
    && m.RawGet(IndexKey) == TableRef(m) && m.RawGet(NewIndexKey) == TableRef(m)
  }

  /** `s` falls back to `t` for both reads and writes through the metatable `sm`. */
  ghost predicate FallsBack(s: Table, t: Table, m: Table, sm: Table)
    reads s, sm
  {
    && s.metatable == sm && sm != s && sm != t && sm != m && sm.metatable == null
    && sm.RawGet(IndexKey) == TableRef(t) && sm.RawGet(NewIndexKey) == TableRef(t)
  }

  /** Without a metatable, every write lands in the table itself. */
  lemma PlainWrites(reg: Registry, x: Table, fuel: nat)
    requires x.metatable == null
    ensures forall k :: ResolveSet(reg, TableRef(x), k, fuel) == Success(RawWrite(x))
  {
    forall k {
      SetWithoutMetatable(reg, TableRef(x), k, fuel);
    }
  }

  /** A `set` of an inspected key the receiver holds is a raw write to the receiver. */
  lemma WriteKept(reg: Registry, x: Table, i: nat, fuel: nat)
    requires i < |Keys| && Raws(x.hash)[i] != Nil
    ensures ResolveSet(reg, TableRef(x), Keys[i], fuel) == Success(RawWrite(x))
  {
  }

  /**
   * A `set` of an inspected key the receiver lacks, under a `__newindex` table `y`, is resolved
   * from `y` with one hop less.
   */
  lemma WritePassed(reg: Registry, x: Table, y: Table, i: nat, fuel: nat)
    requires i < |Keys| && Raws(x.hash)[i] == Nil
    requires fuel > 0 && x.metatable != null && x.metatable.RawGet(NewIndexKey) == TableRef(y)
    ensures ResolveSet(reg, TableRef(x), Keys[i], fuel) == ResolveSet(reg, TableRef(y), Keys[i], fuel - 1)
  {
    NewIndexDelegates(reg, TableRef(x), Keys[i], fuel);
  }

  /** `makeTable`: a fresh table holding two string entries and no metatable. */
  method MakeTable(key1: string, val1: string, key2: string, val2: string) returns (t: Table)
    ensures fresh(t) && t.metatable == null
    ensures t.hash == map[Str(key1) := Str(val1), Str(key2) := Str(val2)]
  {
    t := new Table.Of(map[Str(key1) := Str(val1), Str(key2) := Str(val2)]);
  }

  /** Writes to the metatable tags leave every inspected reading as it was. */
  lemma RawsIgnoreTags(h: map<Value, Value>, v: Value)
    ensures Raws(Put(h, IndexKey, v)) == Raws(h) && Raws(Put(h, NewIndexKey, v)) == Raws(h)
  {
    forall i | 0 <= i < |Keys|
      ensures Keys[i] != IndexKey && Keys[i] != NewIndexKey
    {
      KeysAreNotTags(i);
    }
  }

  /** `m` of the set-up: aa and bb, and `set` makes it its own `__index` and `__newindex`. */
  method MakeSelfIndexed(reg: Registry) returns (m: Table)
    ensures fresh(m) && m.metatable == null
    ensures m.RawGet(IndexKey) == TableRef(m) && m.RawGet(NewIndexKey) == TableRef(m)
    ensures Raws(m.hash) == [Str("aaa"), Str("bbb"), Nil, Nil, Nil, Nil, Nil]
  {
    m := MakeTable("aa", "aaa", "bb", "bbb");
    assert Raws(m.hash) == [Str("aaa"), Str("bbb"), Nil, Nil, Nil, Nil, Nil];
    PlainWrites(reg, m, Fuel);
    var h := m.hash;
    var r := Set(reg, TableRef(m), IndexKey, TableRef(m), Fuel);
    RawsIgnoreTags(h, TableRef(m));
    PlainWrites(reg, m, Fuel);
    h := m.hash;
    r := Set(reg, TableRef(m), NewIndexKey, TableRef(m), Fuel);
    RawsIgnoreTags(h, TableRef(m));
  }

  /**
   * The set-up: `m` holds aa and bb and is made its own `__index` and `__newindex` with `set`;
   * `s` and `t` hold cc and dd; `t`'s metatable is `m`.
   */
  method Setup() returns (reg: Registry, s: Table, t: Table, m: Table)
    ensures fresh(reg) && fresh(s) && fresh(t) && fresh(m)
    ensures Layout(s, t, m) && s.metatable == null
    ensures Raws(s.hash) == [Nil, Nil, Str("ccc"), Str("ddd"), Nil, Nil, Nil]
    ensures Raws(t.hash) == [Nil, Nil, Str("ccc"), Str("ddd"), Nil, Nil, Nil]
    ensures Raws(m.hash) == [Str("aaa"), Str("bbb"), Nil, Nil, Nil, Nil, Nil]
  {
    reg := new Registry();
    m := MakeSelfIndexed(reg);
    s := MakeTable("cc", "ccc", "dd", "ddd");
    assert Raws(s.hash) == [Nil, Nil, Str("ccc"), Str("ddd"), Nil, Nil, Nil];
    t := MakeTable("cc", "ccc", "dd", "ddd");
    assert Raws(t.hash) == [Nil, Nil, Str("ccc"), Str("ddd"), Nil, Nil, Nil];
    var self := t.SetMetatable(m);
  }

  /** Initially `t` reads aa and bb through `m`, while `s`, without a metatable, does not. */
  lemma InitialViews(reg: Registry, s: Table, t: Table, m: Table)
    requires Layout(s, t, m) && s.metatable == null
    requires Raws(s.hash) == [Nil, Nil, Str("ccc"), Str("ddd"), Nil, Nil, Nil]
    requires Raws(t.hash) == [Nil, Nil, Str("ccc"), Str("ddd"), Nil, Nil, Nil]
    requires Raws(m.hash) == [Str("aaa"), Str("bbb"), Nil, Nil, Nil, Nil, Nil]
    ensures ViewOf(reg, s) == Expected([Nil, Nil, Str("ccc"), Str("ddd"), Nil, Nil, Nil],
                                      [Nil, Nil, Str("ccc"), Str("ddd"), Nil, Nil, Nil])
    ensures ViewOf(reg, t) == Expected([Str("aaa"), Str("bbb"), Str("ccc"), Str("ddd"), Nil, Nil, Nil],
                                      [Nil, Nil, Str("ccc"), Str("ddd"), Nil, Nil, Nil])
    ensures ViewOf(reg, m) == Expected([Str("aaa"), Str("bbb"), Nil, Nil, Nil, Nil, Nil],
                                      [Str("aaa"), Str("bbb"), Nil, Nil, Nil, Nil, Nil])
  {
    PlainTableView(reg, s, [Nil, Nil, Str("ccc"), Str("ddd"), Nil, Nil, Nil]);
    IndexedTableView(reg, t, m, [Nil, Nil, Str("ccc"), Str("ddd"), Nil, Nil, Nil],
                     [Str("aaa"), Str("bbb"), Nil, Nil, Nil, Nil, Nil]);
    PlainTableView(reg, m, [Str("aaa"), Str("bbb"), Nil, Nil, Nil, Nil, Nil]);
  }

  /** `rawset` writes only the table it is called on, whatever its metatable. */
  method RawsetPhase(s: Table, t: Table, m: Table)
    requires Layout(s, t, m) && s.metatable == null
    requires Raws(s.hash) == [Nil, Nil, Str("ccc"), Str("ddd"), Nil, Nil, Nil]
    requires Raws(t.hash) == [Nil, Nil, Str("ccc"), Str("ddd"), Nil, Nil, Nil]
    requires Raws(m.hash) == [Str("aaa"), Str("bbb"), Nil, Nil, Nil, Nil, Nil]
    modifies s, t
    ensures Layout(s, t, m) && s.metatable == null
    ensures Raws(s.hash) == [Str("www"), Nil, Str("xxx"), Str("ddd"), Nil, Nil, Nil]
    ensures Raws(t.hash) == [Nil, Str("yyy"), Str("ccc"), Str("zzz"), Nil, Nil, Nil]
    ensures Raws(m.hash) == [Str("aaa"), Str("bbb"), Nil, Nil, Nil, Nil, Nil]
  {
    RawSetAt(s, 0, Str("www"));  // s.rawset("aa", www)
    RawSetAt(s, 2, Str("xxx"));  // s.rawset("cc", xxx)
    RawSetAt(t, 1, Str("yyy"));  // t.rawset("bb", yyy)
    RawSetAt(t, 3, Str("zzz"));  // t.rawset("dd", zzz)
  }

  /** After the raw writes each table sees its new entries; `t` still reads aa through `m`. */
  lemma RawsetViews(reg: Registry, s: Table, t: Table, m: Table)
    requires Layout(s, t, m) && s.metatable == null
    requires Raws(s.hash) == [Str("www"), Nil, Str("xxx"), Str("ddd"), Nil, Nil, Nil]
    requires Raws(t.hash) == [Nil, Str("yyy"), Str("ccc"), Str("zzz"), Nil, Nil, Nil]
    requires Raws(m.hash) == [Str("aaa"), Str("bbb"), Nil, Nil, Nil, Nil, Nil]
    ensures ViewOf(reg, s) == Expected([Str("www"), Nil, Str("xxx"), Str("ddd"), Nil, Nil, Nil],
                                      [Str("www"), Nil, Str("xxx"), Str("ddd"), Nil, Nil, Nil])
    ensures ViewOf(reg, t) == Expected([Str("aaa"), Str("yyy"), Str("ccc"), Str("zzz"), Nil, Nil, Nil],
                                      [Nil, Str("yyy"), Str("ccc"), Str("zzz"), Nil, Nil, Nil])
    ensures ViewOf(reg, m) == Expected([Str("aaa"), Str("bbb"), Nil, Nil, Nil, Nil, Nil],
                                      [Str("aaa"), Str("bbb"), Nil, Nil, Nil, Nil, Nil])
  {
    PlainTableView(reg, s, [Str("www"), Nil, Str("xxx"), Str("ddd"), Nil, Nil, Nil]);
    IndexedTableView(reg, t, m, [Nil, Str("yyy"), Str("ccc"), Str("zzz"), Nil, Nil, Nil],
                     [Str("aaa"), Str("bbb"), Nil, Nil, Nil, Nil, Nil]);
    PlainTableView(reg, m, [Str("aaa"), Str("bbb"), Nil, Nil, Nil, Nil, Nil]);
  }

  /** `set` on `s`, which has no metatable, writes `s` itself, like `rawset`. */
  method SetPlainPhase(reg: Registry, s: Table, t: Table, m: Table)
    requires Layout(s, t, m) && s.metatable == null
    requires Raws(s.hash) == [Str("www"), Nil, Str("xxx"), Str("ddd"), Nil, Nil, Nil]
    modifies s
    ensures Layout(s, t, m) && s.metatable == null
    ensures Raws(s.hash) == [Str("www"), Nil, Str("qqq"), Str("ddd"), Str("ppp"), Nil, Nil]
  {
    PlainWrites(reg, s, Fuel);
    SetAt(reg, s, 4, Str("ppp"), s);  // s.set("ee", ppp)
    PlainWrites(reg, s, Fuel);
    SetAt(reg, s, 2, Str("qqq"), s);  // s.set("cc", qqq)
  }

  /**
   * `set` through `t`'s metatable: `t` keeps a write to a key it holds (dd) and passes a new
   * key (ff) on to `m`; `m` takes its own.
   */
  method SetChainPhase(reg: Registry, s: Table, t: Table, m: Table)
    requires Layout(s, t, m)
    requires Raws(t.hash) == [Nil, Str("yyy"), Str("ccc"), Str("zzz"), Nil, Nil, Nil]
    requires Raws(m.hash) == [Str("aaa"), Str("bbb"), Nil, Nil, Nil, Nil, Nil]
    modifies t, m
    ensures Layout(s, t, m)
    ensures Raws(t.hash) == [Nil, Str("yyy"), Str("ccc"), Str("sss"), Nil, Nil, Nil]
    ensures Raws(m.hash) == [Str("aaa"), Str("bbb"), Nil, Nil, Nil, Str("rrr"), Str("ttt")]
  {
    WritePassed(reg, t, m, 5, Fuel);
    PlainWrites(reg, m, Fuel - 1);
    SetAt(reg, t, 5, Str("rrr"), m);  // t.set("ff", rrr) lands in m
    WriteKept(reg, t, 3, Fuel);
    SetAt(reg, t, 3, Str("sss"), t);  // t.set("dd", sss) stays in t
    PlainWrites(reg, m, Fuel);
    SetAt(reg, m, 6, Str("ttt"), m);  // m.set("gg", ttt)
  }

  /** After the dispatched writes, `t` reads ff and gg through `m`, which now holds them. */
  lemma SetViews(reg: Registry, s: Table, t: Table, m: Table)
    requires Layout(s, t, m) && s.metatable == null
    requires Raws(s.hash) == [Str("www"), Nil, Str("qqq"), Str("ddd"), Str("ppp"), Nil, Nil]
    requires Raws(t.hash) == [Nil, Str("yyy"), Str("ccc"), Str("sss"), Nil, Nil, Nil]
    requires Raws(m.hash) == [Str("aaa"), Str("bbb"), Nil, Nil, Nil, Str("rrr"), Str("ttt")]
    ensures ViewOf(reg, s) == Expected([Str("www"), Nil, Str("qqq"), Str("ddd"), Str("ppp"), Nil, Nil],
                                      [Str("www"), Nil, Str("qqq"), Str("ddd"), Str("ppp"), Nil, Nil])
    ensures ViewOf(reg, t) == Expected([Str("aaa"), Str("yyy"), Str("ccc"), Str("sss"), Nil, Str("rrr"), Str("ttt")],
                                      [Nil, Str("yyy"), Str("ccc"), Str("sss"), Nil, Nil, Nil])
    ensures ViewOf(reg, m) == Expected([Str("aaa"), Str("bbb"), Nil, Nil, Nil, Str("rrr"), Str("ttt")],
                                      [Str("aaa"), Str("bbb"), Nil, Nil, Nil, Str("rrr"), Str("ttt")])
  {
    PlainTableView(reg, s, [Str("www"), Nil, Str("qqq"), Str("ddd"), Str("ppp"), Nil, Nil]);
    IndexedTableView(reg, t, m, [Nil, Str("yyy"), Str("ccc"), Str("sss"), Nil, Nil, Nil],
                     [Str("aaa"), Str("bbb"), Nil, Nil, Nil, Str("rrr"), Str("ttt")]);
    PlainTableView(reg, m, [Str("aaa"), Str("bbb"), Nil, Nil, Nil, Str("rrr"), Str("ttt")]);
  }

  /** `s` gets a metatable making `t` its `__index` and `__newindex`; no entry changes. */
  method InstallFallback(s: Table, t: Table, m: Table) returns (sm: Table)
    requires Layout(s, t, m)
    modifies s
    ensures fresh(sm) && Layout(s, t, m) && FallsBack(s, t, m, sm)
    ensures s.hash == old(s.hash)
  {
    sm := new Table.Of(map[IndexKey := TableRef(t), NewIndexKey := TableRef(t)]);
    var self := s.SetMetatable(sm);
  }

  /** With the fallback in place `s` reads bb, ff and gg through `t` and then `m`. */
  lemma FallbackViews(reg: Registry, s: Table, t: Table, m: Table, sm: Table)
    requires Layout(s, t, m) && FallsBack(s, t, m, sm)
    requires Raws(s.hash) == [Str("www"), Nil, Str("qqq"), Str("ddd"), Str("ppp"), Nil, Nil]
    requires Raws(t.hash) == [Nil, Str("yyy"), Str("ccc"), Str("sss"), Nil, Nil, Nil]
    requires Raws(m.hash) == [Str("aaa"), Str("bbb"), Nil, Nil, Nil, Str("rrr"), Str("ttt")]
    ensures ViewOf(reg, s) == Expected([Str("www"), Str("yyy"), Str("qqq"), Str("ddd"), Str("ppp"), Str("rrr"), Str("ttt")],
                                      [Str("www"), Nil, Str("qqq"), Str("ddd"), Str("ppp"), Nil, Nil])
  {
    DoublyIndexedTableView(reg, s, t, m, [Str("www"), Nil, Str("qqq"), Str("ddd"), Str("ppp"), Nil, Nil],
                           [Nil, Str("yyy"), Str("ccc"), Str("sss"), Nil, Nil, Nil],
                           [Str("aaa"), Str("bbb"), Nil, Nil, Nil, Str("rrr"), Str("ttt")]);
  }

  /** The fallback of `s` changes nothing about how `t` and `m` read. */
  lemma FallbackTailViews(reg: Registry, s: Table, t: Table, m: Table)
    requires Layout(s, t, m)
    requires Raws(t.hash) == [Nil, Str("yyy"), Str("ccc"), Str("sss"), Nil, Nil, Nil]
    requires Raws(m.hash) == [Str("aaa"), Str("bbb"), Nil, Nil, Nil, Str("rrr"), Str("ttt")]
    ensures ViewOf(reg, t) == Expected([Str("aaa"), Str("yyy"), Str("ccc"), Str("sss"), Nil, Str("rrr"), Str("ttt")],
                                      [Nil, Str("yyy"), Str("ccc"), Str("sss"), Nil, Nil, Nil])
    ensures ViewOf(reg, m) == Expected([Str("aaa"), Str("bbb"), Nil, Nil, Nil, Str("rrr"), Str("ttt")],
                                      [Str("aaa"), Str("bbb"), Nil, Nil, Nil, Str("rrr"), Str("ttt")])
  {
    IndexedTableView(reg, t, m, [Nil, Str("yyy"), Str("ccc"), Str("sss"), Nil, Nil, Nil],
                     [Str("aaa"), Str("bbb"), Nil, Nil, Nil, Str("rrr"), Str("ttt")]);
    PlainTableView(reg, m, [Str("aaa"), Str("bbb"), Nil, Nil, Nil, Str("rrr"), Str("ttt")]);
  }

  /**
   * Writes through `s` now follow the chain: aa stays in `s`, which holds it; bb goes to `t`,
   * which holds it.
   */
  method FallbackSetToT(reg: Registry, s: Table, t: Table, m: Table, sm: Table)
    requires Layout(s, t, m) && FallsBack(s, t, m, sm)
    requires Raws(s.hash) == [Str("www"), Nil, Str("qqq"), Str("ddd"), Str("ppp"), Nil, Nil]
    requires Raws(t.hash) == [Nil, Str("yyy"), Str("ccc"), Str("sss"), Nil, Nil, Nil]
    modifies s, t
    ensures Layout(s, t, m) && FallsBack(s, t, m, sm)
    ensures Raws(s.hash) == [Str("www"), Nil, Str("qqq"), Str("ddd"), Str("ppp"), Nil, Nil]
    ensures Raws(t.hash) == [Nil, Str("zzz"), Str("ccc"), Str("sss"), Nil, Nil, Nil]
  {
    WriteKept(reg, s, 0, Fuel);
    SetAt(reg, s, 0, Str("www"), s);  // s.set("aa", www) stays in s
    WritePassed(reg, s, t, 1, Fuel);
    WriteKept(reg, t, 1, Fuel - 1);
    SetAt(reg, s, 1, Str("zzz"), t);  // s.set("bb", zzz) lands in t
  }

  /** Then ee stays in `s`, which holds it, and ff passes `t` and lands in `m`, which holds it. */
  method FallbackSetToM(reg: Registry, s: Table, t: Table, m: Table, sm: Table)
    requires Layout(s, t, m) && FallsBack(s, t, m, sm)
    requires Raws(s.hash) == [Str("www"), Nil, Str("qqq"), Str("ddd"), Str("ppp"), Nil, Nil]
    requires Raws(t.hash) == [Nil, Str("zzz"), Str("ccc"), Str("sss"), Nil, Nil, Nil]
    requires Raws(m.hash) == [Str("aaa"), Str("bbb"), Nil, Nil, Nil, Str("rrr"), Str("ttt")]
    modifies s, m
    ensures Layout(s, t, m) && FallsBack(s, t, m, sm)
    ensures Raws(s.hash) == [Str("www"), Nil, Str("qqq"), Str("ddd"), Str("xxx"), Nil, Nil]
    ensures Raws(m.hash) == [Str("aaa"), Str("bbb"), Nil, Nil, Nil, Str("yyy"), Str("ttt")]
  {
    WriteKept(reg, s, 4, Fuel);
    SetAt(reg, s, 4, Str("xxx"), s);  // s.set("ee", xxx) stays in s
    WritePassed(reg, s, t, 5, Fuel);
    WritePassed(reg, t, m, 5, Fuel - 1);
    PlainWrites(reg, m, Fuel - 2);
    SetAt(reg, s, 5, Str("yyy"), m);  // s.set("ff", yyy) passes t and lands in m
  }

  /** The final inspection of `s`: bb and ff now read the values written through it. */
  lemma FinalViews(reg: Registry, s: Table, t: Table, m: Table, sm: Table)
    requires Layout(s, t, m) && FallsBack(s, t, m, sm)
    requires Raws(s.hash) == [Str("www"), Nil, Str("qqq"), Str("ddd"), Str("xxx"), Nil, Nil]
    requires Raws(t.hash) == [Nil, Str("zzz"), Str("ccc"), Str("sss"), Nil, Nil, Nil]
    requires Raws(m.hash) == [Str("aaa"), Str("bbb"), Nil, Nil, Nil, Str("yyy"), Str("ttt")]
    ensures ViewOf(reg, s) == Expected([Str("www"), Str("zzz"), Str("qqq"), Str("ddd"), Str("xxx"), Str("yyy"), Str("ttt")],
                                      [Str("www"), Nil, Str("qqq"), Str("ddd"), Str("xxx"), Nil, Nil])
  {
    DoublyIndexedTableView(reg, s, t, m, [Str("www"), Nil, Str("qqq"), Str("ddd"), Str("xxx"), Nil, Nil],
                           [Nil, Str("zzz"), Str("ccc"), Str("sss"), Nil, Nil, Nil],
                           [Str("aaa"), Str("bbb"), Nil, Nil, Nil, Str("yyy"), Str("ttt")]);
  }

  /** The final inspection of `t` and `m`: the writes through `s` landed in them. */
  lemma FinalTailViews(reg: Registry, s: Table, t: Table, m: Table)
    requires Layout(s, t, m)
    requires Raws(t.hash) == [Nil, Str("zzz"), Str("ccc"), Str("sss"), Nil, Nil, Nil]
    requires Raws(m.hash) == [Str("aaa"), Str("bbb"), Nil, Nil, Nil, Str("yyy"), Str("ttt")]
    ensures ViewOf(reg, t) == Expected([Str("aaa"), Str("zzz"), Str("ccc"), Str("sss"), Nil, Str("yyy"), Str("ttt")],
                                      [Nil, Str("zzz"), Str("ccc"), Str("sss"), Nil, Nil, Nil])
    ensures ViewOf(reg, m) == Expected([Str("aaa"), Str("bbb"), Nil, Nil, Nil, Str("yyy"), Str("ttt")],
                                      [Str("aaa"), Str("bbb"), Nil, Nil, Nil, Str("yyy"), Str("ttt")])
  {
    IndexedTableView(reg, t, m, [Nil, Str("zzz"), Str("ccc"), Str("sss"), Nil, Nil, Nil],
                     [Str("aaa"), Str("bbb"), Nil, Nil, Nil, Str("yyy"), Str("ttt")]);
    PlainTableView(reg, m, [Str("aaa"), Str("bbb"), Nil, Nil, Nil, Str("yyy"), Str("ttt")]);
  }

  /**
   * The whole scenario in order: set-up, raw writes, dispatched writes, the fallback of `s` to
   * `t`, and dispatched writes through `s`, each phase followed by its inspection.
   */
  method RawsetMetatableSet() returns (reg: Registry, s: Table, t: Table, m: Table)
    ensures ViewOf(reg, s) == Expected([Str("www"), Str("zzz"), Str("qqq"), Str("ddd"), Str("xxx"), Str("yyy"), Str("ttt")],
                                      [Str("www"), Nil, Str("qqq"), Str("ddd"), Str("xxx"), Nil, Nil])
    ensures ViewOf(reg, t) == Expected([Str("aaa"), Str("zzz"), Str("ccc"), Str("sss"), Nil, Str("yyy"), Str("ttt")],
                                      [Nil, Str("zzz"), Str("ccc"), Str("sss"), Nil, Nil, Nil])
    ensures ViewOf(reg, m) == Expected([Str("aaa"), Str("bbb"), Nil, Nil, Nil, Str("yyy"), Str("ttt")],
                                      [Str("aaa"), Str("bbb"), Nil, Nil, Nil, Str("yyy"), Str("ttt")])
  {
    reg, s, t, m := Setup();
    InitialViews(reg, s, t, m);
    RawsetPhase(s, t, m);
    RawsetViews(reg, s, t, m);
    SetPlainPhase(reg, s, t, m);
    SetChainPhase(reg, s, t, m);
    SetViews(reg, s, t, m);
    var sm := InstallFallback(s, t, m);
    FallbackViews(reg, s, t, m, sm);
    FallbackTailViews(reg, s, t, m);
    FallbackSetToT(reg, s, t, m, sm);
    FallbackSetToM(reg, s, t, m, sm);
    FinalViews(reg, s, t, m, sm);
    FinalTailViews(reg, s, t, m);
  }
}
