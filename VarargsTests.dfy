/**
 * The varargs test suite's fixtures and checks, stated for every representation of the
 * values involved: seven strings "a".."g" built as whole arrays, array windows, pairs and mixed
 * chains, sliced in every way the suite slices them.
 */
module VarargsTests {
  import opened Wrappers
  import opened LuaValues
  import opened Varargs

  const A: Value := Str("a")
  const B: Value := Str("b")
  const C: Value := Str("c")
  const D: Value := Str("d")
  const E: Value := Str("e")
  const F: Value := Str("f")
  const G: Value := Str("g")
  const H: Value := Str("h")
  const Z: Value := Str("z")

  /** The shared backing array; its windows start at 0-based offsets. */
  const Z_H_array: seq<Value> := [Z, A, B, C, D, E, F, G, H]

  const A_G: Varargs := ArrayOf([A, B, C, D, E, F, G])
  const B_E: Varargs := ArrayOf([B, C, D, E])
  const C_G: Varargs := ArrayOf([C, D, E, F, G])
  const C_E: Varargs := ArrayOf([C, D, E])
  const DE: Varargs := ArrayOf([D, E])
  const E_G: Varargs := ArrayOf([E, F, G])
  const FG: Varargs := ArrayOf([F, G])
  const A_G_alt: Varargs := ArrayPartVarargs(Z_H_array, 1, 7, NONE)
  const B_E_alt: Varargs := ArrayPartVarargs(Z_H_array, 2, 4, NONE)
  const C_G_alt: Varargs := ArrayPartVarargs(Z_H_array, 3, 5, NONE)
  const C_E_alt: Varargs := ArrayPartVarargs(Z_H_array, 3, 3, NONE)
  const C_E_alt2: Varargs := TwoMoreOf(C, D, Single(E))
  const DE_alt: Varargs := PairVarargs(D, Single(E))
  const DE_alt2: Varargs := PairOf(D, Single(E))
  const E_G_alt: Varargs := ArrayPartVarargs(Z_H_array, 5, 3, NONE)
  const FG_alt: Varargs := PairVarargs(F, Single(G))
  const NIL: Varargs := Single(Nil)

  /**
   * The suite's notion of two lists being equal: the same count, the same first value, and
   * the same value at positions -1, 0, 2, 3 and every position from 4 up to one past the end.
   */
  ghost predicate ExpectEquals(x: Varargs, y: Varargs) {
    Valid(x) && Valid(y) &&
    Narg(x) == Narg(y) && Arg1(x) == Arg1(y) &&
    Arg(x, 0) == Arg(y, 0) && Arg(x, -1) == Arg(y, -1) &&
    Arg(x, 2) == Arg(y, 2) && Arg(x, 3) == Arg(y, 3) &&
    forall i :: 4 <= i < Narg(x) + 2 ==> Arg(x, i) == Arg(y, i)
  }

  /** Lists that hold the same values pass the suite's equality check. */
  lemma SameValuesExpectEquals(x: Varargs, y: Varargs)
    requires Valid(x) && Valid(y) && Denote(x) == Denote(y)
    ensures ExpectEquals(x, y)
  {
    SameValuesSameObservations(x, y);
  }

  /** `v.subargs(start)` where the start is known to be valid. */
  function Sub(v: Varargs, start: int): (r: Varargs)
    requires Valid(v) && start >= 1
    ensures Valid(r) && Denote(r) == From(Denote(v), start)
  {
    Subargs(v, start).value
  }

  /** `expected` matches both `v.subargs(start)` and `v.subargs(start).subargs(1)`. */
  ghost predicate SliceMatches(v: Varargs, start: int, expected: Varargs) {
    Valid(v) && start >= 1 &&
    ExpectEquals(expected, Sub(v, start)) && ExpectEquals(expected, Sub(Sub(v, start), 1))
  }

  /** A list equal to `expected` from `start` on passes both checks of a slice. */
  lemma SliceCheck(v: Varargs, start: int, expected: Varargs)
    requires Valid(v) && Valid(expected) && start >= 1
    requires Denote(expected) == From(Denote(v), start)
    ensures SliceMatches(v, start, expected)
  {
    SameValuesExpectEquals(expected, Sub(v, start));
    SameValuesExpectEquals(expected, Sub(Sub(v, start), 1));
  }

  ghost predicate PassesFG(fg: Varargs) {
    Valid(fg) && ExpectEquals(FG, Sub(fg, 1)) && SliceMatches(fg, 2, Single(G)) && SliceMatches(fg, 3, NONE)
  }

  ghost predicate PassesE_G(e_g: Varargs) {
    Valid(e_g) && ExpectEquals(E_G, Sub(e_g, 1)) && SliceMatches(e_g, 2, FG) &&
    SliceMatches(e_g, 3, Single(G)) && SliceMatches(e_g, 4, NONE) && PassesFG(Sub(e_g, 2))
  }

  ghost predicate PassesC_G(c_g: Varargs) {
    Valid(c_g) && ExpectEquals(C_G, Sub(c_g, 1)) && SliceMatches(c_g, 3, E_G) && SliceMatches(c_g, 4, FG) &&
    SliceMatches(c_g, 5, Single(G)) && SliceMatches(c_g, 6, NONE) && PassesE_G(Sub(c_g, 3))
  }

  ghost predicate PassesA_G(a_g: Varargs) {
    Valid(a_g) && ExpectEquals(A_G, a_g) && ExpectEquals(A_G, Sub(a_g, 1)) &&
    ExpectEquals(C_G, Sub(Sub(a_g, 3), 1)) && SliceMatches(a_g, 5, E_G) && SliceMatches(a_g, 6, FG) &&
    SliceMatches(a_g, 7, Single(G)) && SliceMatches(a_g, 8, NONE) && PassesC_G(Sub(A_G, 3))
  }

  /** The suffixes of "f", "g" the suite slices to. */
  lemma SuffixesOfFG()
    ensures From([F, G], 1) == [F, G] && From([F, G], 2) == [G] && From([F, G], 3) == []
  {
  }

  /** The suffixes of "e".."g" the suite slices to. */
  lemma SuffixesOfE_G()
    ensures From([E, F, G], 1) == [E, F, G] && From([E, F, G], 2) == [F, G]
    ensures From([E, F, G], 3) == [G] && From([E, F, G], 4) == []
  {
  }

  /** The suffixes of "c".."g" the suite slices to. */
  lemma SuffixesOfC_G()
    ensures From([C, D, E, F, G], 1) == [C, D, E, F, G] && From([C, D, E, F, G], 3) == [E, F, G]
    ensures From([C, D, E, F, G], 4) == [F, G] && From([C, D, E, F, G], 5) == [G]
    ensures From([C, D, E, F, G], 6) == []
  {
  }

  /** Every representation of "f", "g" passes the two-value slicing checks. */
  lemma StandardTestsFG(fg: Varargs)
    requires Valid(fg) && Denote(fg) == [F, G]
    ensures PassesFG(fg)
  {
    SuffixesOfFG();
    SameValuesExpectEquals(FG, Sub(fg, 1));
    SliceCheck(fg, 2, Single(G));
    SliceCheck(fg, 3, NONE);
  }

  /** Every representation of "e".."g" passes the three-value slicing checks. */
  lemma StandardTestsE_G(e_g: Varargs)
    requires Valid(e_g) && Denote(e_g) == [E, F, G]
    ensures PassesE_G(e_g)
  {
    SuffixesOfE_G();
    SameValuesExpectEquals(E_G, Sub(e_g, 1));
    SliceCheck(e_g, 2, FG);
    SliceCheck(e_g, 3, Single(G));
    SliceCheck(e_g, 4, NONE);
    StandardTestsFG(Sub(e_g, 2));
  }

  /** Every representation of "c".."g" passes the five-value slicing checks. */
  lemma StandardTestsC_G(c_g: Varargs)
    requires Valid(c_g) && Denote(c_g) == [C, D, E, F, G]
    ensures PassesC_G(c_g)
  {
    SuffixesOfC_G();
    SameValuesExpectEquals(C_G, Sub(c_g, 1));
    SliceCheck(c_g, 3, E_G);
    SliceCheck(c_g, 4, FG);
    SliceCheck(c_g, 5, Single(G));
    SliceCheck(c_g, 6, NONE);
    StandardTestsE_G(Sub(c_g, 3));
  }

  /** The suffixes of "a".."g" the suite slices to. */
  lemma SuffixesOfA_G()
    ensures From([A, B, C, D, E, F, G], 3) == [C, D, E, F, G]
    ensures From([A, B, C, D, E, F, G], 5) == [E, F, G]
    ensures From([A, B, C, D, E, F, G], 6) == [F, G]
    ensures From([A, B, C, D, E, F, G], 7) == [G]
    ensures From([A, B, C, D, E, F, G], 8) == []
  {
  }

  /** Every representation of "a".."g" passes the seven-value slicing checks. */
  lemma StandardTestsA_G(a_g: Varargs)
    requires Valid(a_g) && Denote(a_g) == [A, B, C, D, E, F, G]
    ensures PassesA_G(a_g)
  {
    SuffixesOfA_G();
    SameValuesExpectEquals(A_G, a_g);
    SameValuesExpectEquals(A_G, Sub(a_g, 1));
    SameValuesExpectEquals(C_G, Sub(Sub(a_g, 3), 1));
    SliceCheck(a_g, 5, E_G);
    SliceCheck(a_g, 6, FG);
    SliceCheck(a_g, 7, Single(G));
    SliceCheck(a_g, 8, NONE);
    StandardTestsC_G(Sub(A_G, 3));
  }

  /** The empty list's slices at 1 and 2 are empty. */
  lemma StandardTestsNone(none: Varargs)
    requires Valid(none) && Denote(none) == []
    ensures ExpectEquals(NONE, Sub(none, 1)) && ExpectEquals(NONE, Sub(none, 2))
  {
    SameValuesExpectEquals(NONE, Sub(none, 1));
    SameValuesExpectEquals(NONE, Sub(none, 2));
  }

  /** The values each fixture stands for. */
  lemma FixtureValues()
    ensures Denote(A_G) == [A, B, C, D, E, F, G] && Denote(A_G_alt) == [A, B, C, D, E, F, G]
    ensures Denote(B_E) == [B, C, D, E] && Denote(B_E_alt) == [B, C, D, E]
    ensures Denote(C_G) == [C, D, E, F, G] && Denote(C_G_alt) == [C, D, E, F, G]
    ensures Denote(C_E) == [C, D, E] && Denote(C_E_alt) == [C, D, E] && Denote(C_E_alt2) == [C, D, E]
    ensures Denote(DE) == [D, E] && Denote(DE_alt) == [D, E] && Denote(DE_alt2) == [D, E]
    ensures Denote(E_G) == [E, F, G] && Denote(E_G_alt) == [E, F, G]
    ensures Denote(FG) == [F, G] && Denote(FG_alt) == [F, G]
  {
    assert Denote(A_G_alt) == Z_H_array[1..8] + [];
    assert Denote(B_E_alt) == Z_H_array[2..6] + [];
    assert Denote(C_G_alt) == Z_H_array[3..8] + [];
    assert Denote(C_E_alt) == Z_H_array[3..6] + [];
    assert Denote(E_G_alt) == Z_H_array[5..8] + [];
  }

  /** Each fixture equals its alternative representations. */
  lemma Sanity()
    ensures ExpectEquals(A_G, A_G) && ExpectEquals(A_G_alt, A_G_alt) && ExpectEquals(A_G, A_G_alt)
    ensures ExpectEquals(B_E, B_E_alt) && ExpectEquals(C_G, C_G_alt)
    ensures ExpectEquals(C_E, C_E_alt) && ExpectEquals(C_E, C_E_alt2)
    ensures ExpectEquals(DE, DE_alt) && ExpectEquals(DE, DE_alt2)
    ensures ExpectEquals(E_G, E_G_alt) && ExpectEquals(FG, FG_alt) && ExpectEquals(FG_alt, FG_alt)
    ensures ExpectEquals(Single(A), Single(A)) && ExpectEquals(NONE, NONE) && ExpectEquals(NIL, NIL)
  {
    FixtureValues();
    SameValuesExpectEquals(A_G, A_G);
    SameValuesExpectEquals(A_G_alt, A_G_alt);
    SameValuesExpectEquals(A_G, A_G_alt);
    SameValuesExpectEquals(B_E, B_E_alt);
    SameValuesExpectEquals(C_G, C_G_alt);
    SameValuesExpectEquals(C_E, C_E_alt);
    SameValuesExpectEquals(C_E, C_E_alt2);
    SameValuesExpectEquals(DE, DE_alt);
    SameValuesExpectEquals(DE, DE_alt2);
    SameValuesExpectEquals(E_G, E_G_alt);
    SameValuesExpectEquals(FG, FG_alt);
    SameValuesExpectEquals(FG_alt, FG_alt);
    SameValuesExpectEquals(Single(A), Single(A));
    SameValuesExpectEquals(NONE, NONE);
    SameValuesExpectEquals(NIL, NIL);
  }

  /** Slicing at 0 or -1 fails with the argument error, in every representation. */
  lemma ExpectNegSubargsError(v: Varargs)
    requires Valid(v)
    ensures Subargs(v, 0) == Failure(LuaError("bad argument #1: start must be > 0"))
    ensures Subargs(v, -1) == Failure(LuaError("bad argument #1: start must be > 0"))
  {
  }

  /** "a".."g" as a whole array and as a window slice the same way. */
  lemma VarargsSubargsA_G()
    ensures PassesA_G(A_G) && PassesA_G(A_G_alt)
  {
    FixtureValues();
    StandardTestsA_G(A_G);
    StandardTestsA_G(A_G_alt);
  }

  /** "c".."g" as a whole array and as a window slice the same way. */
  lemma VarargsSubargsC_G()
    ensures PassesC_G(C_G) && PassesC_G(C_G_alt)
  {
    FixtureValues();
    StandardTestsC_G(C_G);
    StandardTestsC_G(C_G_alt);
  }

  /** "e".."g" as a whole array and as a window slice the same way. */
  lemma VarargsSubargsE_G()
    ensures PassesE_G(E_G) && PassesE_G(E_G_alt)
  {
    FixtureValues();
    StandardTestsE_G(E_G);
    StandardTestsE_G(E_G_alt);
  }

  /** "f", "g" as an array and as a pair slice the same way, and the empty list stays empty. */
  lemma VarargsSubargsFG()
    ensures PassesFG(FG) && PassesFG(FG_alt)
    ensures ExpectEquals(NONE, Sub(NONE, 1)) && ExpectEquals(NONE, Sub(NONE, 2))
  {
    FixtureValues();
    StandardTestsFG(FG);
    StandardTestsFG(FG_alt);
    StandardTestsNone(NONE);
  }

  /** "a".."g" as an array followed by a list, split after the k-th value. */
  function ArraySplit(k: nat): (r: Varargs)
    requires 1 <= k <= 6
    ensures Valid(r) && Denote(r) == [A, B, C, D, E, F, G]
  {
    var values := [A, B, C, D, E, F, G];
    if k <= 3 then ArrayMoreOf(values[..k], ArrayOf(values[k..]))
    else if k == 4 then ArrayMoreOf(values[..k], TwoMoreOf(E, F, Single(G)))
    else if k == 5 then ArrayMoreOf(values[..k], PairOf(F, Single(G)))
    else ArrayMoreOf(values[..k], Single(G))
  }

  /** Every array-then-list split of "a".."g" slices like the whole array. */
  lemma VarargsMore(k: nat)
    requires 1 <= k <= 6
    ensures PassesA_G(ArraySplit(k))
  {
    StandardTestsA_G(ArraySplit(k));
  }

  /** "a".."g" as a chain of pairs. */
  lemma PairVarargsMore()
    ensures PassesA_G(PairVarargs(A, PairVarargs(B, PairVarargs(C, PairVarargs(D, PairVarargs(E, PairVarargs(F, Single(G))))))))
  {
    StandardTestsA_G(PairVarargs(A, PairVarargs(B, PairVarargs(C, PairVarargs(D, PairVarargs(E, PairVarargs(F, Single(G))))))));
  }

  /** "a".."g" as two adjacent windows of the backing array, split after the k-th value. */
  function WindowSplit(k: nat): (r: Varargs)
    requires 1 <= k <= 6
    ensures Valid(r) && Denote(r) == [A, B, C, D, E, F, G]
  {
    var tail := ArrayPartVarargs(Z_H_array, k + 1, 7 - k, NONE);
    assert Denote(tail) == Z_H_array[k + 1..8] + [];
    var r := ArrayPartVarargs(Z_H_array, 1, k, tail);
    assert Denote(r) == Z_H_array[1..k + 1] + Z_H_array[k + 1..8];
    assert Z_H_array[1..k + 1] + Z_H_array[k + 1..8] == Z_H_array[1..8];
    r
  }

  /** Every split of "a".."g" into two windows slices like the whole array. */
  lemma ArrayPartMore(k: nat)
    requires 1 <= k <= 6
    ensures PassesA_G(WindowSplit(k))
  {
    StandardTestsA_G(WindowSplit(k));
  }
}
