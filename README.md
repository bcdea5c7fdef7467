# luak core: string literals, the compiler's string interner, varargs and metatables

This project models four parts of luak, a Lua 5.2 virtual machine written in Kotlin, and proves
properties of the model.

- **String literal decoding** (`Str.dfy`). This covers `unquote`, `quoteString`, `charString`,
  `longString` and `iso88591bytes`:
  - `unquote` turns the body of a short string literal into bytes. It decodes the named escapes,
    the `\ddd` decimal escapes, which truncate to a byte, and the unknown escapes. A backslash at
    the very end runs past the input.
  - `longString` cuts the long-bracket delimiters of any level and keeps the body undecoded.
  - The loop of `unquote` is an imperative method, proved equal to a suffix-by-suffix
    specification function.
- **The compiler's string interner** (`LuaC.dfy`). `CompileState` is a class whose `strings` map
  keeps at most one copy of each string. Interning hands back the first copy seen and never
  changes an entry once stored.
- **Varargs** (`Varargs.dfy`, `VarargsTests.dfy`). This is the "zero or more values" protocol in
  its five representations: `NONE`, a single value, an array with more values after it, an array
  window with more values after it, and a pair.
  - Every representation denotes a sequence of values.
  - `narg`, `arg`, `arg1` and `subargs` are proved against that sequence. This covers the
    1-based positions, nil outside `1..narg`, and the argument error for a start below 1.
  - Representation independence, the slicing laws and every fixture of the varargs test suite
    follow from that.
- **Metatables** (`LuaValues.dfy`, `Metatables.dfy`, `MetatableScenarios.dfy`,
  `RawsetScenario.dfy`). This covers `getmetatable`/`setmetatable`, the process-wide shared
  metatable slots of nil, boolean, number, function and thread values, and the `__index` and
  `__newindex` dispatch of `get` and `set` (section 2.4 of the Lua 5.2 Reference Manual).
  - Tables and userdata are classes whose storage and metatable slot their methods update in
    place.
  - Reads walk the heap as functions. A write resolves its target as a function, then changes
    that target in a method.
  - The scenarios of the metatable test suite run as methods on a real heap. Their results are
    proved equal to the values the suite asserts.

## Model

| member | source | states |
|---|---|---|
| Str.DecimalLength | luak/src/jvmMain/kotlin/org/luaj/vm2/ast/Str.kt:72-79 | a decimal escape takes one to three digits and stops early only before a non-digit or the end |
| Str.LowBytes | luak/src/jvmMain/kotlin/org/luaj/vm2/ast/Str.kt:139 | each char becomes the low byte of its code, one byte per char |
| Str.Unquoted | luak/src/jvmMain/kotlin/org/luaj/vm2/ast/Str.kt:63-144 | the only failure is reading past the end, and text without a backslash decodes to one byte per char |
| Str.Unquote | luak/src/jvmMain/kotlin/org/luaj/vm2/ast/Str.kt:63-144 | the decoding loop returns exactly the specification `Unquoted(s)`, including the failure on a trailing backslash |
| Str.UnquotedPlainAt | luak/src/jvmMain/kotlin/org/luaj/vm2/ast/Str.kt:138-141 | a char other than a backslash contributes its low byte, and decoding resumes after it |
| Str.UnquotedEscapeAt | luak/src/jvmMain/kotlin/org/luaj/vm2/ast/Str.kt:85-136 | a backslash followed by a non-digit contributes that escape's byte, and decoding resumes two chars later |
| Str.UnquotedDecimalAt | luak/src/jvmMain/kotlin/org/luaj/vm2/ast/Str.kt:72-84 | a backslash followed by digits contributes the low byte of their decimal value, and decoding resumes after the digits |
| Str.UnquotedPlainPrefix | luak/src/jvmMain/kotlin/org/luaj/vm2/ast/Str.kt:138-141 | a prefix without backslashes decodes to its low bytes, followed by the decoding of the rest |
| Str.UnquotedNoBackslash | luak/src/jvmMain/kotlin/org/luaj/vm2/ast/Str.kt:138-141 | text without backslashes decodes to its low bytes |
| Str.UnquotedLength | luak/src/jvmMain/kotlin/org/luaj/vm2/ast/Str.kt:63-144 | the output is never longer than the input, and strictly shorter once any backslash occurs |
| Str.EscapeAtFront | luak/src/jvmMain/kotlin/org/luaj/vm2/ast/Str.kt:85-136 | a leading non-digit escape contributes its byte in front of the decoding of the rest |
| Str.ControlEscapes | luak/src/jvmMain/kotlin/org/luaj/vm2/ast/Str.kt:85-120 | `\a`, `\b`, `\f` and `\v` decode to 7, 8, 12 and 11 |
| Str.LineEscapes | luak/src/jvmMain/kotlin/org/luaj/vm2/ast/Str.kt:101-115 | `\n`, `\r` and `\t` decode to 10, 13 and 9 |
| Str.QuoteEscapes | luak/src/jvmMain/kotlin/org/luaj/vm2/ast/Str.kt:121-135 | `\"`, `\'` and `\\` decode to the quoted char itself |
| Str.OtherEscape | luak/src/jvmMain/kotlin/org/luaj/vm2/ast/Str.kt:136 | an unknown escape drops the backslash and keeps the low byte of the escaped char |
| Str.DecimalEscape | luak/src/jvmMain/kotlin/org/luaj/vm2/ast/Str.kt:72-84 | one to three digits not followed by another digit decode to the low byte of their value |
| Str.FourthDigitIsPlain | luak/src/jvmMain/kotlin/org/luaj/vm2/ast/Str.kt:75 | a fourth digit after three is not part of the escape and is decoded as a plain char |
| Str.DecimalEscapeAlone | luak/src/jvmMain/kotlin/org/luaj/vm2/ast/Str.kt:72-84 | a decimal escape at the end of the input decodes to the one byte of its value |
| Str.DecimalEscapeExample | luak/src/jvmMain/kotlin/org/luaj/vm2/ast/Str.kt:72-80 | `\65` is the byte 65 |
| Str.DecimalEscapeWrapsToZero | luak/src/jvmMain/kotlin/org/luaj/vm2/ast/Str.kt:80 | `\256` truncates to the byte 0 |
| Str.DecimalEscapeWrapsAround | luak/src/jvmMain/kotlin/org/luaj/vm2/ast/Str.kt:80 | `\300` truncates to the byte 44 |
| Str.FourthDigitExample | luak/src/jvmMain/kotlin/org/luaj/vm2/ast/Str.kt:75 | `\0659` is the bytes 65 and 57 |
| Str.TrailingBackslash | luak/src/jvmMain/kotlin/org/luaj/vm2/ast/Str.kt:63-71 | whatever precedes it, once that prefix decodes, a final backslash makes the decoder read past the end of the input and fail |
| Str.QuoteString | luak/src/jvmMain/kotlin/org/luaj/vm2/ast/Str.kt:31-36 | an image shorter than two chars fails; otherwise the result is at most as long as the body between the delimiters |
| Str.CharString | luak/src/jvmMain/kotlin/org/luaj/vm2/ast/Str.kt:38-43 | the same as `QuoteString`, for single-quoted literals |
| Str.ShortStringDelimiters | luak/src/jvmMain/kotlin/org/luaj/vm2/ast/Str.kt:31-43 | both short-string forms drop one char at each end, whichever chars those are, and decode the body between them |
| Str.QuoteStringAgreesWithCharString | luak/src/jvmMain/kotlin/org/luaj/vm2/ast/Str.kt:31-43 | the two short-string forms agree on every image |
| Str.IndexOf | luak/src/jvmMain/kotlin/org/luaj/vm2/ast/Str.kt:47 | the first position at or after `from` holding the char, or -1 when there is none |
| Str.Iso88591Bytes | luak/src/jvmMain/kotlin/org/luaj/vm2/ast/Str.kt:53-61 | one byte per char: the char's code when it is at most 255, and `?` otherwise |
| Str.LongString | luak/src/jvmMain/kotlin/org/luaj/vm2/ast/Str.kt:45-51 | a cut that does not fit fails as `substring` does; otherwise the result is shorter than the image by an even number of bytes, and text without `[` is kept whole |
| Str.LongStringCutsBothEnds | luak/src/jvmMain/kotlin/org/luaj/vm2/ast/Str.kt:47-49 | a long string is the encoding of the image with the same number of chars cut from each end |
| Str.LongStringBody | luak/src/jvmMain/kotlin/org/luaj/vm2/ast/Str.kt:45-51 | a long bracket of any level yields exactly its body, encoded without escape decoding |
| Str.LongStringLevelTwo | luak/src/jvmMain/kotlin/org/luaj/vm2/ast/Str.kt:45-51 | `[==[abc]==]` is the three bytes of `abc` |
| Str.LongStringExamples | luak/src/jvmMain/kotlin/org/luaj/vm2/ast/Str.kt:45-51 | `[==[abc]==]` is `abc`, and `[[a\nb]]` keeps its backslash |
| Str.LongAndShortAgreeOnPlainLatin1 | luak/src/jvmMain/kotlin/org/luaj/vm2/ast/Str.kt:53-144 | on Latin-1 text without backslashes, `unquote` and `iso88591bytes` give the same bytes |
| LuaC.CompileState.constructor | luak/src/jvmMain/kotlin/org/luaj/vm2/compiler/LuaC.kt:110-113 | a new compile state has an empty string cache and no nested calls |
| LuaC.CompileState.CachedLuaString | luak/src/jvmMain/kotlin/org/luaj/vm2/compiler/LuaC.kt:143-149 | a cached copy with the same bytes is returned and the cache is left as it was; otherwise the argument is stored and returned; earlier entries never change |
| LuaC.CompileState.NewTString | luak/src/jvmMain/kotlin/org/luaj/vm2/compiler/LuaC.kt:138-141 | interning a string behaves as the cache lookup and store above |
| LuaC.CompileState.NewTStringOfText | luak/src/jvmMain/kotlin/org/luaj/vm2/compiler/LuaC.kt:133-136 | interning text returns the cached copy of its encoding, or the newly encoded string, which is then stored |
| LuaC.InternTwice | luak/src/jvmMain/kotlin/org/luaj/vm2/compiler/LuaC.kt:133-149 | interning two strings with equal bytes yields one and the same object, and the cache grows by at most one entry |
| LuaValues.Table.constructor | luak/src/test/java/org/luaj/vm2/MetatableTest.kt:39 | a new table is empty and has no metatable |
| LuaValues.Table.Of | luak/src/test/java/org/luaj/vm2/MetatableTest.kt:273-282 | a table built from key/value pairs holds exactly those entries and no metatable |
| LuaValues.Table.RawGet | luak/src/test/java/org/luaj/vm2/MetatableTest.kt:252-270 | `rawget` gives the table's own entry for a key it holds, and nil for a key it does not |
| LuaValues.Table.RawSet | luak/src/test/java/org/luaj/vm2/MetatableTest.kt:313-329 | `rawset` stores the value under the key; every other entry and the metatable stay as they were |
| LuaValues.Table.SetMetatable | luak/src/test/java/org/luaj/vm2/MetatableTest.kt:85-90 | `setmetatable` returns the receiver, and the receiver's metatable becomes the argument |
| LuaValues.Userdata.constructor | luak/src/test/java/org/luaj/vm2/MetatableTest.kt:47-48 | a userdata carries the metatable it was created with |
| LuaValues.Userdata.SetMetatable | luak/src/test/java/org/luaj/vm2/MetatableTest.kt:86-90 | `setmetatable` on a userdata returns the receiver, and its metatable becomes the argument |
| LuaValues.Put | luak/src/test/java/org/luaj/vm2/MetatableTest.kt:313-329 | after a raw store the key reads as the new value and every other key as before |
| Metatables.SharedKindOf | luak/src/test/java/org/luaj/vm2/MetatableTest.kt:100-131 | exactly strings, tables and userdata have no shared metatable slot |
| Metatables.Registry.constructor | luak/src/test/java/org/luaj/vm2/MetatableTest.kt:57-65 | every shared slot starts empty |
| Metatables.Registry.SetShared | luak/src/test/java/org/luaj/vm2/MetatableTest.kt:100-131 | assigning one kind's shared slot sets that slot and leaves the other four unchanged |
| Metatables.SharedSlotGoverns | luak/src/test/java/org/luaj/vm2/MetatableTest.kt:100-131 | `getmetatable` of a value with a shared kind is that kind's slot, and of a string is nil |
| Metatables.GetMetatable | luak/src/test/java/org/luaj/vm2/MetatableTest.kt:67-131 | `getmetatable` of a table or userdata is its own slot, of a nil, boolean, number, function or thread value its kind's shared slot, and of a string nil |
| Metatables.Get | luak/src/test/java/org/luaj/vm2/MetatableTest.kt:134-187 | a read fails only when the hop bound runs out or a value cannot be indexed; a table's own entry wins; without a metatable a table reads raw and a userdata reads nil; any other value with no `__index` to follow cannot be indexed |
| Metatables.ResolveSet | luak/src/test/java/org/luaj/vm2/MetatableTest.kt:191-249 | a held key is written in place; a raw write lands only in a table that holds the key or has no `__newindex`; a handler is the receiver's own `__newindex` function |
| Metatables.CallNewIndexHandler | luak/src/test/java/org/luaj/vm2/MetatableTest.kt:225-231 | the `__newindex` function stores its prefix and the value's text under the key in its target, and nothing else |
| Metatables.Set | luak/src/test/java/org/luaj/vm2/MetatableTest.kt:191-249 | `set` fails exactly when resolution fails, stores the value in the table the chain reaches, or calls the handler found |
| Metatables.GetWithoutMetatable | luak/src/test/java/org/luaj/vm2/MetatableTest.kt:134-140 | without a metatable, `get` is the raw read for a table and nil for a userdata, and every other kind fails with "attempt to index" naming the kind |
| Metatables.SetWithoutMetatable | luak/src/test/java/org/luaj/vm2/MetatableTest.kt:191-249 | without a metatable, `set` writes into a table itself and fails on any other kind with "attempt to index a <kind> value" |
| Metatables.RawEntryWins | luak/src/test/java/org/luaj/vm2/MetatableTest.kt:331-347 | a key the table holds itself is read and overwritten there, whatever its metatable says |
| Metatables.IndexFunction | luak/src/test/java/org/luaj/vm2/MetatableTest.kt:173-188 | on a raw miss with a function `__index`, `get` returns that function applied to (receiver, key) |
| Metatables.IndexDelegates | luak/src/test/java/org/luaj/vm2/MetatableTest.kt:161-171 | on a raw miss with a non-function `__index`, `get` continues on that value, one hop of the bound used |
| Metatables.NewIndexFunction | luak/src/test/java/org/luaj/vm2/MetatableTest.kt:224-248 | on a raw miss with a function `__newindex`, `set` calls that function |
| Metatables.NewIndexDelegates | luak/src/test/java/org/luaj/vm2/MetatableTest.kt:203-222 | on a raw miss with a non-function `__newindex`, `set` continues on that value, one hop of the bound used |
| Metatables.GetFuelMonotone | luak/src/test/java/org/luaj/vm2/MetatableTest.kt:286-288 | a read that succeeds within a hop bound gives the same result under any larger bound |
| Metatables.ResolveSetFuelMonotone | luak/src/test/java/org/luaj/vm2/MetatableTest.kt:286-288 | a write resolved within a hop bound resolves the same way under any larger bound |
| Metatables.SelfIndexLoops | luak/src/test/java/org/luaj/vm2/MetatableTest.kt:286-288 | a fact about the model's hop bound only: a table that is its own metatable and its own `__index` exhausts every bound on a missing key. The suite's `m` names itself as `__index` but is not its own metatable |
| Metatables.SelfNewIndexLoops | luak/src/test/java/org/luaj/vm2/MetatableTest.kt:286-288 | a fact about the model's hop bound only: the same for `__newindex` on a write |
| MetatableScenarios.MetatablesRead | luak/src/test/java/org/luaj/vm2/MetatableTest.kt:67-77 | the nine sample values read their metatables from the shared slots and the instance slots |
| MetatableScenarios.GetMetatableScenario | luak/src/test/java/org/luaj/vm2/MetatableTest.kt:67-78 | with fresh state, only the userdata created with a metatable has one |
| MetatableScenarios.SetMetatableScenario | luak/src/test/java/org/luaj/vm2/MetatableTest.kt:80-99 | `setmetatable` returns its receiver and is seen by the table and both userdata and by no shared kind |
| MetatableScenarios.SharedSlotsScenario | luak/src/test/java/org/luaj/vm2/MetatableTest.kt:100-131 | the nil, boolean, number, function and thread slots are assigned one at a time; after each, the values of that kind (1 and 1.25 for numbers, a function and a closure) read the slot and no other kind does |
| MetatableScenarios.ClearedScenario | luak/src/test/java/org/luaj/vm2/MetatableTest.kt:134-140 | after clearing the metatables, the table and both userdata read nil at key 1 |
| MetatableScenarios.DressSamples | luak/src/test/java/org/luaj/vm2/MetatableTest.kt:142-159 | one empty metatable is installed on the table, the userdata and every shared slot |
| MetatableScenarios.ListRead | luak/src/test/java/org/luaj/vm2/MetatableTest.kt:162-171 | a raw miss whose `__index` is the list {"abc"} reads "abc" at key 1 |
| MetatableScenarios.ListIndexReads | luak/src/test/java/org/luaj/vm2/MetatableTest.kt:162-171 | with `__index` set to that list, all seven sample values read "abc" at key 1 |
| MetatableScenarios.IndexByTableScenario | luak/src/test/java/org/luaj/vm2/MetatableTest.kt:161-171 | storing the list as `__index` succeeds, and then every sample reads "abc"; `mt` gains exactly that entry and still dresses every sample |
| MetatableScenarios.IndexByFunctionScenario | luak/src/test/java/org/luaj/vm2/MetatableTest.kt:173-187 | with a describing function as `__index`, each sample reads "<kind>[1]=xyz"; `mt`'s `__index` is replaced by the function and nothing else changes in it |
| MetatableScenarios.MetatableIndex | luak/src/test/java/org/luaj/vm2/MetatableTest.kt:142-187 | the whole index test on one dressed metatable: the list `__index` gives "abc" for all seven samples, then the function `__index` gives "table[1]=xyz" … "thread[1]=xyz" |
| MetatableScenarios.DescribeOne | luak/src/test/java/org/luaj/vm2/MetatableTest.kt:174-177 | the describing handler returns the receiver's type name, the key in brackets and the suffix |
| MetatableScenarios.DescribedRead | luak/src/test/java/org/luaj/vm2/MetatableTest.kt:173-187 | a raw miss dispatched to the describing handler reads "<kind>[1]=xyz" |
| MetatableScenarios.KindDescriptions | luak/src/test/java/org/luaj/vm2/MetatableTest.kt:180-187 | the type names give the seven expected strings, from "table[1]=xyz" to "thread[1]=xyz" |
| MetatableScenarios.FunctionIndexReads | luak/src/test/java/org/luaj/vm2/MetatableTest.kt:180-187 | with the describing `__index`, the seven samples read their own descriptions |
| MetatableScenarios.FallbackWrite | luak/src/test/java/org/luaj/vm2/MetatableTest.kt:203-214 | a raw miss whose `__newindex` is a table without a metatable writes into that table |
| MetatableScenarios.HandlerWrite | luak/src/test/java/org/luaj/vm2/MetatableTest.kt:224-239 | a raw miss whose `__newindex` is a function resolves to calling it |
| MetatableScenarios.WriteLanding | luak/src/test/java/org/luaj/vm2/MetatableTest.kt:206-214 | a write resolved to a table succeeds and stores the value there, with the metatable unchanged |
| MetatableScenarios.WriteHandled | luak/src/test/java/org/luaj/vm2/MetatableTest.kt:225-239 | a write resolved to the handler succeeds and stores "via-func-" and the value's text in the fallback |
| MetatableScenarios.SampleKey | luak/src/test/java/org/luaj/vm2/MetatableTest.kt:207-214 | the seven keys the samples write lie in consecutive unit intervals, skipping the string's slot |
| MetatableScenarios.SampleKeysListed | luak/src/test/java/org/luaj/vm2/MetatableTest.kt:207-222 | the seven sample keys are `first`..`first+4`, `first+6` and `first+7`, and a table holding a value at them reads it at each |
| MetatableScenarios.HoldsAfterPut | luak/src/test/java/org/luaj/vm2/MetatableTest.kt:207-214 | storing the value at the next key keeps every earlier key holding it |
| MetatableScenarios.ReadSampleKeys | luak/src/test/java/org/luaj/vm2/MetatableTest.kt:215-222 | reading the seven keys back from a table without a metatable gives the stored value seven times |
| MetatableScenarios.NewIndexByTableScenario | luak/src/test/java/org/luaj/vm2/MetatableTest.kt:203-222 | with a fallback table as `__newindex`, each sample's write succeeds, and the new fallback table then holds "abc" at keys 2-6, 8 and 9; `mt` gains only the `__newindex` entry |
| MetatableScenarios.FallbackWrites | luak/src/test/java/org/luaj/vm2/MetatableTest.kt:206-214 | with the fallback table as `__newindex`, each of the seven writes succeeds and leaves "abc" at its key in the fallback table, which stays without a metatable |
| MetatableScenarios.HandledWrites | luak/src/test/java/org/luaj/vm2/MetatableTest.kt:224-240 | with the storing function as `__newindex`, each of the seven writes succeeds and leaves "via-func-abc" at its key in the fallback table |
| MetatableScenarios.NewIndexByFunctionScenario | luak/src/test/java/org/luaj/vm2/MetatableTest.kt:224-248 | with a function as `__newindex`, each write succeeds, and the fallback table then holds "via-func-abc" at keys 12-16, 18 and 19; `mt`'s `__newindex` is replaced by the function |
| MetatableScenarios.MetatableNewIndex | luak/src/test/java/org/luaj/vm2/MetatableTest.kt:190-249 | the whole newindex test on one dressed metatable and one fallback table: "abc" at keys 2-6, 8 and 9, then "via-func-abc" at keys 12-16, 18 and 19 |
| RawsetScenario.RawsAfterPut | luak/src/test/java/org/luaj/vm2/MetatableTest.kt:264-270 | a raw store under one of the seven keys changes exactly that key's raw view |
| RawsetScenario.RawSetAt | luak/src/test/java/org/luaj/vm2/MetatableTest.kt:313-329 | `rawset` of a key changes that key's raw entry only, and neither the metatable nor the tag entries |
| RawsetScenario.SetAt | luak/src/test/java/org/luaj/vm2/MetatableTest.kt:331-373 | `set` on a key resolved to a table changes that table's raw entry for the key only |
| RawsetScenario.PlainReads | luak/src/test/java/org/luaj/vm2/MetatableTest.kt:309 | every read of a table without a metatable is its raw read |
| RawsetScenario.IndexedReads | luak/src/test/java/org/luaj/vm2/MetatableTest.kt:310 | a table whose `__index` is another table reads its own entry, or else that table's |
| RawsetScenario.PlainTableView | luak/src/test/java/org/luaj/vm2/MetatableTest.kt:252-271 | for a table without a metatable, `checkTable` sees the raw entries through both `get` and `rawget` |
| RawsetScenario.IndexedTableView | luak/src/test/java/org/luaj/vm2/MetatableTest.kt:252-271 | through one `__index` table, `get` overlays the table's own entries on the other's |
| RawsetScenario.DoublyIndexedTableView | luak/src/test/java/org/luaj/vm2/MetatableTest.kt:354-355 | through two `__index` hops, `get` overlays three tables in order |
| RawsetScenario.PlainWrites | luak/src/test/java/org/luaj/vm2/MetatableTest.kt:332-339 | every write to a table without a metatable lands in the table itself |
| RawsetScenario.WriteKept | luak/src/test/java/org/luaj/vm2/MetatableTest.kt:358-361 | a write to a key the table holds stays in the table |
| RawsetScenario.WritePassed | luak/src/test/java/org/luaj/vm2/MetatableTest.kt:362-373 | a write to a key the table lacks follows its `__newindex` table |
| RawsetScenario.MakeTable | luak/src/test/java/org/luaj/vm2/MetatableTest.kt:273-282 | `makeTable` builds a fresh table holding exactly the two given pairs |
| RawsetScenario.MakeSelfIndexed | luak/src/test/java/org/luaj/vm2/MetatableTest.kt:286-288 | `m` holds aa and bb, and its `__index` and `__newindex` entries name `m` itself |
| RawsetScenario.Setup | luak/src/test/java/org/luaj/vm2/MetatableTest.kt:285-291 | `s` and `t` hold cc and dd, `m` holds aa and bb, and only `t` has a metatable (`m`) |
| RawsetScenario.InitialViews | luak/src/test/java/org/luaj/vm2/MetatableTest.kt:307-311 | the three initial `checkTable` results |
| RawsetScenario.RawsetPhase | luak/src/test/java/org/luaj/vm2/MetatableTest.kt:313-329 | after the four `rawset` calls, each table's raw entries are the ones the suite checks |
| RawsetScenario.RawsetViews | luak/src/test/java/org/luaj/vm2/MetatableTest.kt:326-329 | the `checkTable` results after the `rawset` calls |
| RawsetScenario.SetPlainPhase | luak/src/test/java/org/luaj/vm2/MetatableTest.kt:331-339 | `s.set` of ee and cc writes into `s` itself |
| RawsetScenario.SetChainPhase | luak/src/test/java/org/luaj/vm2/MetatableTest.kt:340-351 | `t.set("ff")` lands in `m`, `t.set("dd")` stays in `t`, and `m.set("gg")` lands in `m` |
| RawsetScenario.SetViews | luak/src/test/java/org/luaj/vm2/MetatableTest.kt:348-351 | the `checkTable` results after the `set` calls |
| RawsetScenario.InstallFallback | luak/src/test/java/org/luaj/vm2/MetatableTest.kt:353-354 | `s` gets a new metatable whose `__index` and `__newindex` are `t`, and its entries stay as they were |
| RawsetScenario.FallbackViews | luak/src/test/java/org/luaj/vm2/MetatableTest.kt:355 | `s` now reads through `t` and `m` |
| RawsetScenario.FallbackTailViews | luak/src/test/java/org/luaj/vm2/MetatableTest.kt:356-357 | `t` and `m` read as before |
| RawsetScenario.FallbackSetToT | luak/src/test/java/org/luaj/vm2/MetatableTest.kt:358-365 | `s.set("aa")` stays in `s`, and `s.set("bb")` lands in `t` |
| RawsetScenario.FallbackSetToM | luak/src/test/java/org/luaj/vm2/MetatableTest.kt:366-373 | `s.set("ee")` stays in `s`, and `s.set("ff")` passes through `t` into `m` |
| RawsetScenario.FinalViews | luak/src/test/java/org/luaj/vm2/MetatableTest.kt:371 | the final `checkTable` result for `s` |
| RawsetScenario.FinalTailViews | luak/src/test/java/org/luaj/vm2/MetatableTest.kt:372-373 | the final `checkTable` results for `t` and `m` |
| RawsetScenario.RawsetMetatableSet | luak/src/test/java/org/luaj/vm2/MetatableTest.kt:284-376 | the whole scenario ends with the three tables showing the values the suite asserts last |
| Varargs.Narg | luak/src/jvmTest/kotlin/org/luaj/vm2/VarargsTest.kt:164-165 | `narg` is the number of values the representation denotes |
| Varargs.Arg | luak/src/jvmTest/kotlin/org/luaj/vm2/VarargsTest.kt:164-173 | `arg(i)` is the i-th denoted value for 1 <= i <= narg, and nil at 0, at negative positions and past the end |
| Varargs.Arg1 | luak/src/jvmTest/kotlin/org/luaj/vm2/VarargsTest.kt:166 | `arg1` equals `arg(1)`: the first value, or nil when there is none |
| Varargs.Subargs | luak/src/jvmTest/kotlin/org/luaj/vm2/VarargsTest.kt:175-243 | `subargs(start)` fails with "bad argument #1: start must be > 0" exactly when start < 1, and otherwise denotes the values from position start on |
| Varargs.ArraySubargs | luak/src/jvmTest/kotlin/org/luaj/vm2/VarargsTest.kt:81-95 | `subargs` on an array followed by more values keeps that promise |
| Varargs.PartSubargs | luak/src/jvmTest/kotlin/org/luaj/vm2/VarargsTest.kt:117-131 | `subargs` on an array window followed by more values keeps that promise |
| Varargs.PairSubargs | luak/src/jvmTest/kotlin/org/luaj/vm2/VarargsTest.kt:97-115 | `subargs` on a pair keeps that promise |
| Varargs.WindowOf | luak/src/jvmTest/kotlin/org/luaj/vm2/VarargsTest.kt:117-131 | a window followed by more values denotes the window's elements and then the rest |
| Varargs.ArrayOf | luak/src/jvmTest/kotlin/org/luaj/vm2/VarargsTest.kt:145-151 | `varargsOf(array)` denotes the array's values |
| Varargs.ArrayMoreOf | luak/src/jvmTest/kotlin/org/luaj/vm2/VarargsTest.kt:81-95 | `varargsOf(array, more)` denotes the array's values and then the rest |
| Varargs.PairOf | luak/src/jvmTest/kotlin/org/luaj/vm2/VarargsTest.kt:159 | `varargsOf(v, more)` denotes v and then the rest |
| Varargs.TwoMoreOf | luak/src/jvmTest/kotlin/org/luaj/vm2/VarargsTest.kt:157 | `varargsOf(v1, v2, more)` denotes v1, v2 and then the rest |
| Varargs.SameValuesSameObservations | luak/src/jvmTest/kotlin/org/luaj/vm2/VarargsTest.kt:31-47 | two representations of the same values agree on `narg`, `arg1`, every `arg` and every `subargs`, errors included |
| Varargs.SubargsOneIsIdentity | luak/src/jvmTest/kotlin/org/luaj/vm2/VarargsTest.kt:176-177 | `subargs(1)` returns the list itself in every representation |
| Varargs.SubargsCompose | luak/src/jvmTest/kotlin/org/luaj/vm2/VarargsTest.kt:175-220 | `v.subargs(a).subargs(b)` holds the same values as `v.subargs(a + b - 1)` |
| Varargs.SubargsPastEnd | luak/src/jvmTest/kotlin/org/luaj/vm2/VarargsTest.kt:184-185 | a start past the last value gives an empty list |
| Varargs.NoneSubargs | luak/src/jvmTest/kotlin/org/luaj/vm2/VarargsTest.kt:222-225 | the empty list slices to itself at every start of at least 1 |
| VarargsTests.SameValuesExpectEquals | luak/src/jvmTest/kotlin/org/luaj/vm2/VarargsTest.kt:164-173 | lists holding the same values pass the suite's `expectEquals` |
| VarargsTests.SliceCheck | luak/src/jvmTest/kotlin/org/luaj/vm2/VarargsTest.kt:175-220 | a list equal to the expected values from a start on passes both `subargs(start)` checks |
| VarargsTests.StandardTestsFG | luak/src/jvmTest/kotlin/org/luaj/vm2/VarargsTest.kt:214-220 | every representation of "f", "g" passes `standardTestsFG` |
| VarargsTests.StandardTestsE_G | luak/src/jvmTest/kotlin/org/luaj/vm2/VarargsTest.kt:203-212 | every representation of "e".."g" passes `standardTestsE_G` |
| VarargsTests.StandardTestsC_G | luak/src/jvmTest/kotlin/org/luaj/vm2/VarargsTest.kt:190-201 | every representation of "c".."g" passes `standardTestsC_G` |
| VarargsTests.StandardTestsA_G | luak/src/jvmTest/kotlin/org/luaj/vm2/VarargsTest.kt:175-188 | every representation of "a".."g" passes `standardTestsA_G` |
| VarargsTests.StandardTestsNone | luak/src/jvmTest/kotlin/org/luaj/vm2/VarargsTest.kt:222-225 | any empty list slices to an empty list at 1 and at 2 |
| VarargsTests.FixtureValues | luak/src/jvmTest/kotlin/org/luaj/vm2/VarargsTest.kt:145-161 | each fixture and each alternative representation denotes the values its name says |
| VarargsTests.Sanity | luak/src/jvmTest/kotlin/org/luaj/vm2/VarargsTest.kt:31-47 | each fixture passes `expectEquals` against itself and its alternative representations |
| VarargsTests.ExpectNegSubargsError | luak/src/jvmTest/kotlin/org/luaj/vm2/VarargsTest.kt:227-243 | `subargs(0)` and `subargs(-1)` fail with "bad argument #1: start must be > 0" in every representation |
| VarargsTests.VarargsSubargsA_G | luak/src/jvmTest/kotlin/org/luaj/vm2/VarargsTest.kt:69-72 | the whole-array and window forms of "a".."g" pass the standard tests |
| VarargsTests.VarargsSubargsC_G | luak/src/jvmTest/kotlin/org/luaj/vm2/VarargsTest.kt:73-74 | the whole-array and window forms of "c".."g" pass the standard tests |
| VarargsTests.VarargsSubargsE_G | luak/src/jvmTest/kotlin/org/luaj/vm2/VarargsTest.kt:75-76 | the whole-array and window forms of "e".."g" pass the standard tests |
| VarargsTests.VarargsSubargsFG | luak/src/jvmTest/kotlin/org/luaj/vm2/VarargsTest.kt:77-79 | the array and pair forms of "f", "g" and the empty list pass their standard tests |
| VarargsTests.ArraySplit | luak/src/jvmTest/kotlin/org/luaj/vm2/VarargsTest.kt:81-95 | each of the six array-then-list constructions denotes "a".."g" |
| VarargsTests.VarargsMore | luak/src/jvmTest/kotlin/org/luaj/vm2/VarargsTest.kt:81-95 | each of the six array-then-list constructions passes `standardTestsA_G` |
| VarargsTests.PairVarargsMore | luak/src/jvmTest/kotlin/org/luaj/vm2/VarargsTest.kt:97-115 | a chain of six pairs holding "a".."g" passes `standardTestsA_G` |
| VarargsTests.WindowSplit | luak/src/jvmTest/kotlin/org/luaj/vm2/VarargsTest.kt:117-131 | each pair of adjacent windows of the backing array denotes "a".."g" |
| VarargsTests.ArrayPartMore | luak/src/jvmTest/kotlin/org/luaj/vm2/VarargsTest.kt:117-131 | each pair of adjacent windows passes `standardTestsA_G` |

## Left out

- `LuaValue.kt`, `LuaTable.kt`, `LuaString.kt` and `Varargs.kt` are not part of this model.
  - `get`, `set`, `rawget`, `rawset` and the shared metatable slots follow the indexing rules
    of section 2.4 of the Lua 5.2 Reference Manual (the "index" and "newindex" events) and what
    `MetatableTest.kt` asserts.
- Metatables.Get: a userdata without any metatable reads nil, as MetatableTest.kt:139-140 asserts.
  The manual's index event would raise an error there. The text of the "attempt to index" error
  is the model's own.
  - The varargs representations and the `varargsOf` constructors follow the luaj design that
    `VarargsTest.kt` exercises. The suite observes only `narg`, `arg1`, `arg` and `subargs`.
- The `__index`/`__newindex` walk is bounded: 8 hops in the scenarios, a parameter elsewhere.
  - When the bound runs out, the model fails with "loop in gettable" or "loop in settable". That
    message is the model's own.
  - The suite never builds a cycle, so no claim is made about how the source ends one.
  - `SelfIndexLoops` and `SelfNewIndexLoops` state only what the bound does.
- A function used as `__newindex` is one of a closed set of handlers:
  - one that does nothing;
  - one that describes the access;
  - one that stores a prefixed value into a target table.

  Arbitrary host functions, their extra results and an `__index` function's side effects are
  not modelled.
- Integer and float numbers are one number kind (`Number(real)`). Number keys compare
  mathematically, so 1 and 1.0 are the same key. Nil keys, NaN keys and the array part of a table
  are not modelled.
- Strings have no metatable, as in the suite, where string metatables are commented out.
- `ArrayPartVarargs` takes a 0-based offset into its array. The suite's windows (`(Z..H, 1, 7)`
  is "a".."g") require this.
- `Valid` requires every window to lie inside its array. An out-of-range window, which would
  fail with an array index error on access in the source, is not modelled.
- `unquote` works on `char`s. Dafny chars are Unicode scalar values, not UTF-16 code units.
  - `toByte` keeps the low 8 bits, as modelled.
  - Surrogate pairs are not modelled.
  - In `iso88591bytes`, an unmappable char becomes `?`, as the JVM's Latin-1 encoder does.
- `LuaString.valueUsing` is the identity on bytes here. `LuaString.valueOf(String)` is the
  `encode` parameter of `NewTStringOfText`, because the UTF-8 encoder is outside this model.
- LuaC.CompileState.NewTStringOfText: does not say whether the object `LuaString.valueOf` returns
  on a cache miss is new or shared. The model builds a new one, and the contract promises only
  that the object returned is the one stored.
- `luaY_parser`, `compile`, `load`, `install` and `pushfstring` are left out. They are the parser
  and loader around the interner. `nCcalls` is kept as a field that starts at 0, but nothing in
  the model counts with it.
- `MetatableTest.kt` checks all three tables after every single write. The scenario methods check
  them at the end of each group of writes: after the `rawset` calls, after the `set` calls, after
  installing the fallback, and at the end.
- The process-wide shared metatable slots are the fields of a `Registry` object that is passed
  explicitly. Their reset in `tearDown` is a fresh `Registry`.
