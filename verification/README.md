# Logger façade — Dafny model

A model of `lib/logger.js`: the `Logger` capability with its five operations
(`warn`, `error`, `info`, `log`, `debug`) and its four implementations.

- **`ConsoleLogger`** stores a prefix. It formats each call's argument list into
  the items handed to the same-named console stream.
- **`FileLogger`** holds at most one descriptor. It appends level-tagged,
  encoded lines through that descriptor.
- **`CompositeLogger`** forwards every call to its children in registration order.
- **`NullLogger`** does nothing.

The arguments are dynamically typed JavaScript values (`Values.Value`). The
loggers' observable behaviour is a trace of events (`Events.Event`):
- console stream calls;
- `fs.openSync`, `fs.close` and `fs.writeSync` calls.

The text a file gains is read back from the trace (`Events.FileText`). Each
write is credited to the path its descriptor was bound to by the latest
`FsOpen` not yet followed by an `FsClose` (`Events.Binding`). The operating
system reuses descriptor numbers, and this binding keeps the files apart
when it does.

Files:
- `wrappers.dfy`: `Option`.
- `values.dfy`: argument values and the null filter `args_.filter(a => a != null)`.
- `events.dfy`: levels, level tags, events and the text of a file.
- `console.dfy`: `ConsoleLogger.format`, its partial inverse `Unformat`, and the five console methods.
- `files.dfy`: `FileLogger` `open`/`close`/`write` and the five level wrappers.
- `loggers.dfy`: the capability as one datatype over the four implementations, composite fan-out, `addLogger` and `NullLogger`.

Design decisions:
- **Console output is a `seq<Value>`.** It is exactly the JavaScript array that
  `format` returns: the leading text is a `Str` and the collected tail is an `Arr`.
  This keeps the model faithful to one consequence of the source. A string
  followed by one array of two or more non-null values prints the same items as
  the string followed by those values as separate arguments. `ConsoleLogging.CollisionIsReal`
  exhibits this. `ConsoleLogging.UnformatFormat` proves it is the only case where
  the filtered arguments cannot be read back.
- **The descriptor is modelled literally.** The field is `Option<int>`: `None` is
  `null`/`undefined`, and `Some(fd)` is whatever `fs.openSync` answered.
  "Holds a file" is JavaScript truthiness, so descriptor `0` counts as no
  file. `FileLogging.ZeroDescriptorIsIgnored` shows the result: if `openSync`
  answers 0, every write is dropped and `close` never releases the descriptor.
- **The foreign calls are parameters.** `fs.openSync`'s answer is the `fd`
  parameter of `Open`. `JSON.stringify` is the `encode` parameter, a total
  function the model knows nothing about.

## Model

| member | source | states |
|---|---|---|
| Values.DropNullish | lib/logger.js:43 | the filtered list is no longer than the input and holds no `null`/`undefined` |
| Values.DropNullishMembers | lib/logger.js:43 | a value survives the filter iff it occurs in the arguments and is not `null`/`undefined` |
| Values.DropNullishCounts | lib/logger.js:43 | every non-null value keeps its exact number of occurrences; `null` and `undefined` occur zero times |
| Values.KeptPositions | lib/logger.js:43 | the kept positions are strictly increasing and are exactly the non-null positions, and the filtered list reads the input at them in order (relative order kept) |
| Values.DropNullishAppend | lib/logger.js:43 | the filter judges each element on its own: it distributes over concatenation |
| Values.DropNullishIdempotent | lib/logger.js:43 | filtering an already filtered list changes nothing |
| ConsoleLogging.Format | lib/logger.js:42-55 | the result has one or two items, the first is text starting with the prefix, no item is `null`/`undefined`, and there is one item exactly when the filtered list is a single string |
| ConsoleLogging.FormatShapes | lib/logger.js:44-54 | single string gives `[prefix + " " + s]`; string plus one gives that text then the second value unchanged; string plus two or more gives the text then the tail as one nested array; otherwise the bare prefix then the whole filtered list |
| ConsoleLogging.FormatIgnoresNullish | lib/logger.js:43 | inserting `null`/`undefined` anywhere in a call leaves the formatted items unchanged |
| ConsoleLogging.FormatOfFiltered | lib/logger.js:43 | formatting the filtered list gives the same items as formatting the raw list |
| ConsoleLogging.UnformatFormat | lib/logger.js:42-55 | round trip: except for the one collision shape, the filtered arguments are recovered exactly from the console items |
| ConsoleLogging.FormatUnformat | lib/logger.js:42-55 | reverse round trip: any item list that `Unformat` accepts is exactly what `format` prints for the recovered arguments |
| ConsoleLogging.CollisionIsReal | lib/logger.js:47-50 | a string followed by one array of two or more values, and the same values spread out, are different calls with identical output |
| ConsoleLogging.AppScenarios | lib/logger.js:42-55 | with prefix `[APP]`: `("disk low", 42)` gives `["[APP] disk low", 42]`; `(null, "started")` gives `["[APP] started"]`; `(null, 7)` gives `["[APP]", [7]]` |
| ConsoleLogging.Emit | lib/logger.js:22-40 | each console method calls the same-named stream; its items always read back, to the filtered arguments or, for a colliding call, to their spread-out twin, so the items are exactly what `format` prints |
| ConsoleLogging.CollisionReadsSpread | lib/logger.js:47-50 | the items of a colliding call read back as the string followed by the array's elements |
| ConsoleLogging.UnformatAcceptsFormat | lib/logger.js:42-55 | the items of every `format` call are accepted by `Unformat`, so it rejects only items no call produces |
| Events.Tag | lib/logger.js:73-91 | every level tag is a non-empty word of upper-case letters (no space, no newline) |
| Events.TagInjective | lib/logger.js:73-91 | the five level tags are pairwise distinct |
| Events.FileTextGrows | lib/logger.js:93-98 | a file only grows: its text after a longer trace extends its text after any prefix |
| Events.FileTextNoWrites | lib/logger.js:61-71 | events that write nothing (opens and closes) change no file's text |
| Events.WriteLandsInBoundFile | lib/logger.js:96 | one `writeSync` adds its text to the file its descriptor is bound to at that moment, and to no other file |
| Events.OpenBinds | lib/logger.js:70 | right after `openSync(path)` answered a descriptor, that descriptor refers to `path` |
| FileLogging.Holds | lib/logger.js:62 | the descriptor field is falsy exactly when it is unset or the number 0 |
| FileLogging.Close | lib/logger.js:61-66 | afterwards no descriptor is held; with none held nothing changes and no call is made; with one held, exactly that descriptor is closed and the field is cleared |
| FileLogging.CloseIdempotent | lib/logger.js:61-66 | a second `close` straight after a first makes no call and changes no state |
| FileLogging.Open | lib/logger.js:68-71 | the previously held descriptor is closed first and only if one was held; then exactly the new descriptor is held, and its open is the last call |
| FileLogging.OpeningWritesNothing | lib/logger.js:68-71 | opening writes nothing into any file and leaves the new descriptor referring to the opened path |
| FileLogging.Line | lib/logger.js:95 | the written line is a newline, the level, one space, then the encoding of the arguments |
| FileLogging.LineNamesLevel | lib/logger.js:73-95 | two level lines are equal only for the same level and equal encodings, so a line names its level |
| FileLogging.Write | lib/logger.js:93-98 | exactly one write call happens, and only when a descriptor is held; it goes through that descriptor and carries `"\n" + level + " " + encode(args)` over the unfiltered arguments |
| FileLogging.Call | lib/logger.js:73-91 | the five wrappers write with the tags `WARN`, `ERROR`, `INFO`, `LOG` and `DEBUG` |
| FileLogging.WriteAppendsLine | lib/logger.js:93-98 | the file the held descriptor refers to grows by exactly the line; every other file, and every file when nothing is held, keeps its text |
| FileLogging.OpenRedirectsWrites | lib/logger.js:68-71 | after `open(path)` answered a non-zero descriptor, a write lands in the file at `path` and in no other file |
| FileLogging.ReusedDescriptorKeepsFilesApart | lib/logger.js:68-98 | when `open(first)` and a later `open(second)` answer the same number, the old one is closed first and each write lands in the file open at that moment |
| FileLogging.ZeroDescriptorIsIgnored | lib/logger.js:62 | if `openSync` answers 0, the descriptor is stored but writes are dropped and `close` does nothing |
| FileLogging.ErrorSession | lib/logger.js:61-98 | `open`, `error(args)`, `close` on a fresh logger makes exactly the calls open, write of `"\nERROR " + encode(args)`, close; the file gains only that line |
| Loggers.AddLogger | lib/logger.js:104-106 | the existing children are kept in place and the new child is last; nothing is removed or de-duplicated |
| Loggers.Dispatch | lib/logger.js:108-145 | every event a level call causes is either a console call on the same-named stream or a write of that level's line through a non-zero descriptor; no call opens or closes a file |
| Loggers.CompositeSplits | lib/logger.js:108-136 | a composite's events are its first children's events followed by the rest's, for any split |
| Loggers.CompositeOfOne | lib/logger.js:108-136 | a composite with one child behaves exactly as that child |
| Loggers.AddLoggerAppendsEvents | lib/logger.js:104-136 | after `addLogger(x)` every call causes the old events followed by `x`'s events |
| Loggers.NullChildIsInvisible | lib/logger.js:139-145 | a `NullLogger` registered anywhere in a composite changes nothing in any call |
| Loggers.NestedCompositesFlatten | lib/logger.js:101-137 | a composite of two composites behaves as one composite holding both child lists |
| Loggers.NullIsSilent | lib/logger.js:139-145 | a `NullLogger`, and a composite with no children, cause no event for any call |
| Loggers.Broadcast | lib/logger.js:108-136 | the loop makes one call per child, in registration order, each with the same level and identical arguments; those recorded calls, replayed on their children, produce exactly the events, which are the composite's |
| Loggers.InfoReachesChildrenInOrder | lib/logger.js:120-124 | `info("x")` on a composite of three console loggers A, B and C calls A, then B, then C, each with `"x"` |

## Left out

- Real console streams and how they render items. Only the stream name and the item list are modelled.
- Real `fs.openSync`, `fs.close` and `fs.writeSync`, and all their failures. Opening always succeeds, and the descriptor it answers is a parameter. `fs.close` is called without a callback; it is modelled as releasing the descriptor at once.
- Errors thrown by a child during a composite fan-out. In the source such an error aborts delivery to the remaining children. The model has no failing child, so every child is reached.
- `JSON.stringify`. It is an uninterpreted `encode` parameter, so its output format, and how it treats `undefined` and cyclic values, are not modelled.
- JavaScript numbers are modelled as unbounded integers. The loggers never inspect a number, so floating point and `NaN` make no difference to them.
- `document.all`, which exists in the renderer process an Atom package runs in. The source's filter (lib/logger.js:43) does inspect it: `document.all != null` is `false`, so `format` drops it exactly like `null`. `Value` has no such object, so within the model the filter drops exactly `null` and `undefined`.
- Object identity and aliasing of loggers. A composite holds its children as values, that is, as snapshots taken at `addLogger`. In the source, a composite holds references. After `c.addLogger(f); f.open(p)`, the source's composite writes to `p`, but the model's composite still holds the unopened `f` and writes nothing. Likewise, after `outer.addLogger(inner); inner.addLogger(x)`, the source's `outer` reaches `x`, but the model's `outer` keeps the earlier `inner`. So a model composite must be rebuilt after any `open`, `close` or `addLogger` on a child that was already registered.
- A composite registered inside itself. In the source, each call recurses until the stack overflows and a `RangeError` propagates to the caller. The children registered before the self-reference receive the call once per level of recursion. No datatype value can contain itself, so the model cannot express this.
- Two loggers holding descriptors for the same path both add to that path's text. The order of their writes is the order of the trace; how the operating system interleaves appends is not modelled.
- The Flow `Logger` type annotation is the `Loggers.Logger` datatype with one constructor per class. Structural typing is not modelled.
