/**
 * The compiler's per-compilation state, reduced to its string cache: while a chunk is being
 * compiled, every string constant goes through the cache so that at most one `LuaString`
 * object exists per byte content.
 */
module LuaC {
  import opened Bytes

  /** An immutable Lua string: its identity is the object, its content the bytes. */
  class LuaString {
    const bytes: seq<Byte>

    constructor (bytes: seq<Byte>)
      ensures this.bytes == bytes
    {
      this.bytes := bytes;
    }
  }

  class CompileState {
    /** Nesting depth of C calls during parsing; the cache never touches it. */
    var nCcalls: int
    /** The cache, keyed by content (a `LuaString` hashes and compares by its bytes). */
    var strings: map<seq<Byte>, LuaString>

    /** Every entry maps a content to the very object that was used as its key. */
    ghost predicate Valid()
      reads this
    {
      forall b :: b in strings ==> strings[b].bytes == b
    }

    constructor ()
      ensures Valid() && strings == map[] && nCcalls == 0
    {
      nCcalls := 0;
      strings := map[];
    }

    /**
     * `cachedLuaString`: the object already cached for this content if there is one, and the
     * map unchanged; otherwise s itself, newly cached under its content.
     */
    method CachedLuaString(s: LuaString) returns (r: LuaString)
      requires Valid()
      modifies this`strings
      ensures Valid()
      ensures r.bytes == s.bytes
      ensures s.bytes in old(strings) ==> r == old(strings)[s.bytes] && strings == old(strings)
      ensures s.bytes !in old(strings) ==> r == s && strings == old(strings)[s.bytes := s]
      ensures s.bytes in strings && strings[s.bytes] == r
      ensures forall b :: b in old(strings) ==> b in strings && strings[b] == old(strings)[b]
    {
      if s.bytes in strings {
        return strings[s.bytes];
      }
      strings := strings[s.bytes := s];
      return s;
    }

    /** `newTString(LuaString)`: the cached object for s's content. */
    method NewTString(s: LuaString) returns (r: LuaString)
      requires Valid()
      modifies this`strings
      ensures Valid()
      ensures r.bytes == s.bytes
      ensures s.bytes in old(strings) ==> r == old(strings)[s.bytes] && strings == old(strings)
      ensures s.bytes !in old(strings) ==> r == s && strings == old(strings)[s.bytes := s]
    {
      r := CachedLuaString(s);
    }

    /**
     * `newTString(String)`: the text is first made into a new `LuaString` (by `encode`, which
     * stands for `LuaString.valueOf`), then looked up in the cache.
     */
    method NewTStringOfText(text: string, encode: string -> seq<Byte>) returns (r: LuaString)
      requires Valid()
      modifies this`strings
      ensures Valid()
      ensures r.bytes == encode(text)
      ensures encode(text) in old(strings) ==> r == old(strings)[encode(text)] && strings == old(strings)
      ensures encode(text) !in old(strings) ==> strings == old(strings)[encode(text) := r]
    {
      var s := new LuaString(encode(text));
      r := CachedLuaString(s);
    }
  }

  /** Interning two strings of equal content returns one and the same object for both. */
  method InternTwice(state: CompileState, a: LuaString, b: LuaString) returns (ra: LuaString, rb: LuaString)
    requires state.Valid() && a.bytes == b.bytes
    modifies state`strings
    ensures state.Valid()
    ensures ra == rb && ra.bytes == a.bytes
    ensures a.bytes !in old(state.strings) ==> ra == a
    ensures |state.strings| <= |old(state.strings)| + 1
  {
    ra := state.CachedLuaString(a);
    rb := state.CachedLuaString(b);
  }
}
