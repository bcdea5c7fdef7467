/**
 * The varargs protocol: "zero or more values" with 1-based access and lazy slicing, in five
 * interchangeable representations. Every representation denotes a sequence of values, and every
 * operation is stated against that denotation, which is what makes the representations
 * interchangeable.
 */
module Varargs {
  import opened Wrappers
  import opened LuaValues

  /**
   * The representations: the empty list, a single value (every value is a one-element list),
   * an array followed by more values, a window of `length` elements of an array starting at the
   * 0-based `offset` followed by more values, and a head value followed by a tail.
   */
  datatype Varargs =
    | NONE
    | Single(value: Value)
    | ArrayVarargs(values: seq<Value>, rest: Varargs)
    | ArrayPartVarargs(items: seq<Value>, offset: int, length: int, more: Varargs)
    | PairVarargs(head: Value, tail: Varargs)

  /** Every window lies inside its array. */
  predicate Valid(v: Varargs) {
    match v
    case NONE => true
    case Single(_) => true
    case ArrayVarargs(_, rest) => Valid(rest)
    case ArrayPartVarargs(items, offset, length, more) =>
      0 <= offset && 0 <= length && offset + length <= |items| && Valid(more)
    case PairVarargs(_, tail) => Valid(tail)
  }

  /** The values a representation stands for, in order. */
  function Denote(v: Varargs): seq<Value>
    requires Valid(v)
  {
    match v
    case NONE => []
    case Single(x) => [x]
    case ArrayVarargs(values, rest) => values + Denote(rest)
    case ArrayPartVarargs(items, offset, length, more) => items[offset..offset + length] + Denote(more)
    case PairVarargs(head, tail) => [head] + Denote(tail)
  }

  /** The error every representation raises for a start below 1. */
  const StartError: LuaError := LuaError("bad argument #1: start must be > 0")

  /** `narg`: each representation counts its own part and asks its continuation for the rest. */
  function Narg(v: Varargs): (n: int)
    requires Valid(v)
    ensures n == |Denote(v)|
  {
    match v
    case NONE => 0
    case Single(_) => 1
    case ArrayVarargs(values, rest) => |values| + Narg(rest)
    case ArrayPartVarargs(_, _, length, more) => length + Narg(more)
    case PairVarargs(_, tail) => 1 + Narg(tail)
  }

  /**
   * `arg(i)`: the i-th value, counting from 1, and nil at every position outside 1..narg,
   * zero and negative positions included.
   */
  function Arg(v: Varargs, i: int): (x: Value)
    requires Valid(v)
    ensures x == if 1 <= i <= |Denote(v)| then Denote(v)[i - 1] else Nil
  {
    match v
    case NONE => Nil
    case Single(y) => if i == 1 then y else Nil
    case ArrayVarargs(values, rest) =>
      if i < 1 then Nil else if i <= |values| then values[i - 1] else Arg(rest, i - |values|)
    case ArrayPartVarargs(items, offset, length, more) =>
      if i < 1 then Nil else if i <= length then items[offset + i - 1] else Arg(more, i - length)
    case PairVarargs(head, tail) => if i == 1 then head else Arg(tail, i - 1)
  }

  /** `arg1`: the first value, or nil for an empty list; the same as `arg(1)`. */
  function Arg1(v: Varargs): (x: Value)
    requires Valid(v)
    ensures x == Arg(v, 1)
    ensures x == if |Denote(v)| > 0 then Denote(v)[0] else Nil
  {
    match v
    case NONE => Nil
    case Single(y) => y
    case ArrayVarargs(values, rest) => if |values| > 0 then values[0] else Arg1(rest)
    case ArrayPartVarargs(items, offset, length, more) => if length > 0 then items[offset] else Arg1(more)
    case PairVarargs(head, _) => head
  }

  /** The values of `s` from the 1-based position `start` on; empty past the end. */
  function From(s: seq<Value>, start: int): seq<Value>
    requires start >= 1
  {
    if start - 1 <= |s| then s[start - 1..] else []
  }

  /**
   * `varargsOf(v, offset, length, more)`: a window followed by more values, choosing the
   * representation by the window's length.
   */
  function WindowOf(items: seq<Value>, offset: int, length: int, more: Varargs): (r: Varargs)
    requires 0 <= offset && 0 <= length && offset + length <= |items| && Valid(more)
    ensures Valid(r) && Denote(r) == items[offset..offset + length] + Denote(more)
  {
    if length == 0 then more
    else if length == 1 then
      (if Narg(more) > 0 then PairVarargs(items[offset], more) else Single(items[offset]))
    else if length == 2 then
      (if Narg(more) > 0 then PairVarargs(items[offset], PairVarargs(items[offset + 1], more))
       else PairVarargs(items[offset], Single(items[offset + 1])))
    else ArrayPartVarargs(items, offset, length, more)
  }

  /**
   * What `subargs(start)` promises: a start below 1 fails with the argument error, and any
   * other start yields the values from that position on.
   */
  predicate SliceOf(v: Varargs, start: int, r: Result<Varargs, LuaError>)
    requires Valid(v)
  {
    if start < 1 then r == Failure(StartError)
    else r.Success? && Valid(r.value) && Denote(r.value) == From(Denote(v), start)
  }

  /**
   * `subargs(start)`: the values from position `start` on. A start below 1 fails, `subargs(1)`
   * is the list itself, and a window or array that the start passes is skipped by asking the
   * continuation.
   */
  function Subargs(v: Varargs, start: int): (r: Result<Varargs, LuaError>)
    requires Valid(v)
    ensures r.Failure? <==> start < 1
    ensures r.Failure? ==> r.error == StartError
    ensures r.Success? ==> Valid(r.value) && Denote(r.value) == From(Denote(v), start)
    decreases v, 1
  {
    match v
    case NONE => if start > 0 then Success(NONE) else Failure(StartError)
    case Single(_) =>
      if start == 1 then Success(v) else if start > 1 then Success(NONE) else Failure(StartError)
    case ArrayVarargs(values, rest) => ArraySubargs(values, rest, start)
    case ArrayPartVarargs(items, offset, length, more) => PartSubargs(items, offset, length, more, start)
    case PairVarargs(head, tail) => PairSubargs(head, tail, start)
  }

  /** `subargs` of an array followed by more values. */
  function ArraySubargs(values: seq<Value>, rest: Varargs, start: int): (r: Result<Varargs, LuaError>)
    requires Valid(rest)
    ensures SliceOf(ArrayVarargs(values, rest), start, r)
    decreases ArrayVarargs(values, rest), 0
  {
    if start <= 0 then Failure(StartError)
    else if start == 1 then Success(ArrayVarargs(values, rest))
    else if start > |values| then
      AppendFrom(values, Denote(rest), start);
      Subargs(rest, start - |values|)
    else
      assert values[0..|values|] == values;
      WindowFrom(values, 0, |values|, Denote(rest), start);
      Success(WindowOf(values, start - 1, |values| - (start - 1), rest))
  }

  /** `subargs` of an array window followed by more values. */
  function PartSubargs(items: seq<Value>, offset: int, length: int, more: Varargs, start: int): (r: Result<Varargs, LuaError>)
    requires 0 <= offset && 0 <= length && offset + length <= |items| && Valid(more)
    ensures SliceOf(ArrayPartVarargs(items, offset, length, more), start, r)
    decreases ArrayPartVarargs(items, offset, length, more), 0
  {
    var window := items[offset..offset + length];
    assert Denote(ArrayPartVarargs(items, offset, length, more)) == window + Denote(more);
    if start <= 0 then Failure(StartError)
    else if start == 1 then Success(ArrayPartVarargs(items, offset, length, more))
    else if start > length then
      AppendFrom(window, Denote(more), start);
      Subargs(more, start - length)
    else
      WindowFrom(items, offset, length, Denote(more), start);
      Success(WindowOf(items, offset + start - 1, length - (start - 1), more))
  }

  /** `subargs` of a head value followed by a tail. */
  function PairSubargs(head: Value, tail: Varargs, start: int): (r: Result<Varargs, LuaError>)
    requires Valid(tail)
    ensures SliceOf(PairVarargs(head, tail), start, r)
    decreases PairVarargs(head, tail), 0
  {
    if start == 1 then Success(PairVarargs(head, tail))
    else if start == 2 then Success(tail)
    else if start > 2 then
      AppendFrom([head], Denote(tail), start);
      Subargs(tail, start - 1)
    else Failure(StartError)
  }

  /** Positions past a prefix are positions of what follows it. */
  lemma AppendFrom(front: seq<Value>, back: seq<Value>, start: int)
    requires start > |front| && start >= 1
    ensures From(front + back, start) == From(back, start - |front|)
  {
    if start - 1 <= |front + back| {
      assert (front + back)[start - 1..] == back[start - 1 - |front|..];
    }
  }

  /** Slicing inside a window leaves a narrower window of the same array. */
  lemma WindowFrom(items: seq<Value>, offset: int, length: int, rest: seq<Value>, start: int)
    requires 0 <= offset && 0 <= length && offset + length <= |items| && 1 <= start <= length
    ensures From(items[offset..offset + length] + rest, start) == items[offset + start - 1..offset + length] + rest
  {
    assert (items[offset..offset + length] + rest)[start - 1..] == items[offset + start - 1..offset + length] + rest;
  }

  /** `varargsOf(array)`: nothing, one value, a pair, or the whole array. */
  function ArrayOf(values: seq<Value>): (r: Varargs)
    ensures Valid(r) && Denote(r) == values
  {
    if |values| == 0 then NONE
    else if |values| == 1 then Single(values[0])
    else if |values| == 2 then PairVarargs(values[0], Single(values[1]))
    else ArrayVarargs(values, NONE)
  }

  /** `varargsOf(array, more)`: the array's values followed by more values. */
  function ArrayMoreOf(values: seq<Value>, more: Varargs): (r: Varargs)
    requires Valid(more)
    ensures Valid(r) && Denote(r) == values + Denote(more)
  {
    if |values| == 0 then more
    else if |values| == 1 then (if Narg(more) > 0 then PairVarargs(values[0], more) else Single(values[0]))
    else if |values| == 2 then
      (if Narg(more) > 0 then PairVarargs(values[0], PairVarargs(values[1], more))
       else PairVarargs(values[0], Single(values[1])))
    else ArrayVarargs(values, more)
  }

  /** `varargsOf(v, more)`: a value followed by more values, or the value alone. */
  function PairOf(v: Value, more: Varargs): (r: Varargs)
    requires Valid(more)
    ensures Valid(r) && Denote(r) == [v] + Denote(more)
  {
    if Narg(more) == 0 then Single(v) else PairVarargs(v, more)
  }

  /** `varargsOf(v1, v2, v3)`: two values followed by more values. */
  function TwoMoreOf(v1: Value, v2: Value, more: Varargs): (r: Varargs)
    requires Valid(more)
    ensures Valid(r) && Denote(r) == [v1, v2] + Denote(more)
  {
    if Narg(more) == 0 then PairVarargs(v1, Single(v2)) else ArrayPartVarargs([v1, v2], 0, 2, more)
  }

  /**
   * Representation independence: two lists that denote the same values agree on `narg`,
   * `arg1`, every `arg(i)` and every `subargs(start)`, failures included.
   */
  lemma SameValuesSameObservations(x: Varargs, y: Varargs)
    requires Valid(x) && Valid(y) && Denote(x) == Denote(y)
    ensures Narg(x) == Narg(y) && Arg1(x) == Arg1(y)
    ensures forall i :: Arg(x, i) == Arg(y, i)
    ensures forall start :: Subargs(x, start).Failure? == Subargs(y, start).Failure?
    ensures forall start :: start < 1 ==> Subargs(x, start) == Subargs(y, start)
    ensures forall start :: start >= 1 ==> Denote(Subargs(x, start).value) == Denote(Subargs(y, start).value)
  {
  }

  /** `subargs(1)` hands back the very same list, in every representation. */
  lemma SubargsOneIsIdentity(v: Varargs)
    requires Valid(v)
    ensures Subargs(v, 1) == Success(v)
  {
  }

  /** Slicing composes: `v.subargs(a).subargs(b)` holds the values of `v.subargs(a + b - 1)`. */
  lemma SubargsCompose(v: Varargs, a: int, b: int)
    requires Valid(v) && a >= 1 && b >= 1
    ensures Subargs(Subargs(v, a).value, b).Success?
    ensures Denote(Subargs(Subargs(v, a).value, b).value) == Denote(Subargs(v, a + b - 1).value)
  {
    var first := Subargs(v, a).value;
    FromFrom(Denote(v), a, b);
    assert Denote(Subargs(first, b).value) == From(From(Denote(v), a), b);
  }

  /** Two slices in a row are one slice. */
  lemma FromFrom(s: seq<Value>, a: int, b: int)
    requires a >= 1 && b >= 1
    ensures From(From(s, a), b) == From(s, a + b - 1)
  {
    if a - 1 <= |s| && b - 1 <= |s| - (a - 1) {
      assert s[a - 1..][b - 1..] == s[a + b - 2..];
    }
  }

  /** A start past the last value gives an empty list. */
  lemma SubargsPastEnd(v: Varargs, start: int)
    requires Valid(v) && start > Narg(v)
    ensures start >= 1 ==> Narg(Subargs(v, start).value) == 0
  {
  }

  /** The empty list slices to itself at every valid start. */
  lemma NoneSubargs(start: int)
    requires start >= 1
    ensures Subargs(NONE, start) == Success(NONE)
  {
  }
}
