/**
 * `FileLogger` (lib/logger.js:58-99): a descriptor that is either unset or the
 * number `fs.openSync` answered, and the file-system calls each operation
 * makes. Whether the logger holds a file is the JavaScript truthiness of the
 * descriptor field, so a descriptor equal to 0 counts as no file at all.
 */
module FileLogging {
  import opened Wrappers
  import opened Values
  import opened Events

  datatype FileLogger = FileLogger(fileDescriptor: Option<int>)

  /** A fresh instance: the field is declared but never initialised. */
  const Fresh := FileLogger(None)

  /** `if (this.fileDescriptor)`: set and not the number 0. */
  predicate Holds(f: FileLogger)
    ensures !Holds(f) <==> f.fileDescriptor == None || f.fileDescriptor == Some(0)
  {
    f.fileDescriptor.Some? && f.fileDescriptor.value != 0
  }

  /** `close()`: closes and forgets a held descriptor, otherwise does nothing. */
  function Close(f: FileLogger): (r: (FileLogger, seq<Event>))
    ensures !Holds(r.0)
    ensures !Holds(f) ==> r == (f, [])
    ensures Holds(f) ==> r.0 == Fresh && r.1 == [FsClose(f.fileDescriptor.value)]
  {
    if Holds(f) then (FileLogger(None), [FsClose(f.fileDescriptor.value)]) else (f, [])
  }

  /** A second `close()` right after a first one is a no-op. */
  lemma CloseIdempotent(f: FileLogger)
    ensures Close(Close(f).0) == (Close(f).0, [])
  {
  }

  /**
   * `open(filePath)`: `close()` first, then hold the descriptor `fd` that
   * `fs.openSync(filePath, 'a')` answered (the file system is not modelled, so
   * its answer is a parameter).
   */
  function Open(f: FileLogger, path: string, fd: int): (r: (FileLogger, seq<Event>))
    ensures r.0.fileDescriptor == Some(fd)
    ensures |r.1| >= 1 && r.1[|r.1| - 1] == FsOpen(path, fd)
    ensures Holds(f) <==> |r.1| == 2
    ensures Holds(f) ==> r.1 == [FsClose(f.fileDescriptor.value), FsOpen(path, fd)]
    ensures !Holds(f) ==> r.1 == [FsOpen(path, fd)]
  {
    var (closed, events) := Close(f);
    (FileLogger(Some(fd)), events + [FsOpen(path, fd)])
  }

  /** The text one `write(level, args)` appends: a newline, the level, a space, the encoding. */
  function Line(level: string, args: seq<Value>, encode: seq<Value> -> string): (r: string)
    ensures |r| == |level| + 2 + |encode(args)|
    ensures r[0] == '\n' && r[1..|level| + 1] == level && r[|level| + 1] == ' '
    ensures r[|level| + 2..] == encode(args)
  {
    "\n" + level + " " + encode(args)
  }

  /**
   * A level call's line names its level: tags hold no space, so the first
   * space after the newline ends the tag, and the rest is the encoding.
   */
  lemma LineNamesLevel(a: Level, b: Level, x: seq<Value>, y: seq<Value>, encode: seq<Value> -> string)
    requires Line(Tag(a), x, encode) == Line(Tag(b), y, encode)
    ensures a == b && encode(x) == encode(y)
  {
    TagInjective(a, b);
  }

  /**
   * `write(level, args)`: one synchronous write of the line through the held
   * descriptor, or nothing at all. `encode` stands for `JSON.stringify` and sees
   * the arguments exactly as given, `null` and `undefined` included.
   */
  function Write(f: FileLogger, level: string, args: seq<Value>, encode: seq<Value> -> string): (events: seq<Event>)
    ensures |events| <= 1
    ensures |events| == 1 <==> Holds(f)
    ensures forall e :: e in events ==> e == FsWriteSync(f.fileDescriptor.value, Line(level, args, encode))
  {
    if Holds(f) then [FsWriteSync(f.fileDescriptor.value, Line(level, args, encode))] else []
  }

  /** `warn`/`error`/`info`/`log`/`debug` (lib/logger.js:73-91): `write` with the level's tag. */
  function Call(f: FileLogger, level: Level, args: seq<Value>, encode: seq<Value> -> string): (events: seq<Event>)
    ensures Holds(f) ==> events == [FsWriteSync(f.fileDescriptor.value, "\n" + Tag(level) + " " + encode(args))]
    ensures !Holds(f) ==> events == []
  {
    Write(f, Tag(level), args, encode)
  }

  /**
   * `write` changes only the file its descriptor refers to, and that one by
   * exactly its line; with no descriptor held every file keeps its text.
   */
  lemma WriteAppendsLine(trace: seq<Event>, f: FileLogger, level: string, args: seq<Value>,
                         encode: seq<Value> -> string, path: string)
    ensures FileText(trace + Write(f, level, args, encode), path)
         == if Holds(f) && Binding(trace, f.fileDescriptor.value) == Some(path)
            then FileText(trace, path) + Line(level, args, encode)
            else FileText(trace, path)
  {
    if Holds(f) {
      WriteLandsInBoundFile(trace, f.fileDescriptor.value, Line(level, args, encode), path);
    } else {
      assert trace + Write(f, level, args, encode) == trace;
    }
  }

  /** Opening writes nothing into any file, and leaves the new descriptor referring to `path`. */
  lemma OpeningWritesNothing(trace: seq<Event>, f: FileLogger, path: string, fd: int, other: string)
    ensures FileText(trace + Open(f, path, fd).1, other) == FileText(trace, other)
    ensures Binding(trace + Open(f, path, fd).1, fd) == Some(path)
  {
    var opening := Open(f, path, fd).1;
    assert forall k :: 0 <= k < |opening| ==> !opening[k].FsWriteSync?;
    FileTextNoWrites(trace, opening, other);
    var closing := Close(f).1;
    assert trace + opening == (trace + closing) + [FsOpen(path, fd)];
    OpenBinds(trace + closing, path, fd);
  }

  /** After `open(path)` answered `fd` (not 0), a write lands in the file at `path` and in no other. */
  lemma OpenRedirectsWrites(trace: seq<Event>, f: FileLogger, path: string, fd: int,
                            level: string, args: seq<Value>, encode: seq<Value> -> string, other: string)
    requires fd != 0
    ensures FileText(trace + Open(f, path, fd).1 + Write(Open(f, path, fd).0, level, args, encode), path)
         == FileText(trace, path) + Line(level, args, encode)
    ensures other != path ==>
              FileText(trace + Open(f, path, fd).1 + Write(Open(f, path, fd).0, level, args, encode), other)
              == FileText(trace, other)
  {
    var g := Open(f, path, fd).0;
    var opening := Open(f, path, fd).1;
    assert Holds(g) && g.fileDescriptor.value == fd;
    OpeningWritesNothing(trace, f, path, fd, path);
    OpeningWritesNothing(trace, f, path, fd, other);
    WriteAppendsLine(trace + opening, g, level, args, encode, path);
    WriteAppendsLine(trace + opening, g, level, args, encode, other);
  }

  /** An open of `path` through `fd` followed by one write through `fd`: only `path` gains the text. */
  lemma OpenThenWriteText(trace: seq<Event>, path: string, fd: int, text: string, other: string)
    ensures FileText(trace + [FsOpen(path, fd), FsWriteSync(fd, text)], other)
         == if other == path then FileText(trace, other) + text else FileText(trace, other)
  {
    var t1 := trace + [FsOpen(path, fd)];
    assert t1 + [FsWriteSync(fd, text)] == trace + [FsOpen(path, fd), FsWriteSync(fd, text)];
    OpenBinds(trace, path, fd);
    FileTextNoWrites(trace, [FsOpen(path, fd)], other);
    WriteLandsInBoundFile(t1, fd, text, other);
  }

  /**
   * Descriptor reuse: `open(first)` and later `open(second)` may both answer
   * the same number, since the first is closed in between; each write still
   * lands in the file that was open when it was made.
   */
  lemma ReusedDescriptorKeepsFilesApart(trace: seq<Event>, first: string, second: string, fd: int,
                                        x: seq<Value>, y: seq<Value>, encode: seq<Value> -> string)
    requires fd != 0 && first != second
    ensures Open(Fresh, first, fd) == (FileLogger(Some(fd)), [FsOpen(first, fd)])
    ensures Open(FileLogger(Some(fd)), second, fd) == (FileLogger(Some(fd)), [FsClose(fd), FsOpen(second, fd)])
    ensures Call(FileLogger(Some(fd)), Info, x, encode) == [FsWriteSync(fd, Line("INFO", x, encode))]
    ensures Call(FileLogger(Some(fd)), Warn, y, encode) == [FsWriteSync(fd, Line("WARN", y, encode))]
    ensures var all := trace + [FsOpen(first, fd), FsWriteSync(fd, Line("INFO", x, encode)),
                                FsClose(fd), FsOpen(second, fd), FsWriteSync(fd, Line("WARN", y, encode))];
      && FileText(all, first) == FileText(trace, first) + Line("INFO", x, encode)
      && FileText(all, second) == FileText(trace, second) + Line("WARN", y, encode)
  {
    var l1, l2 := Line("INFO", x, encode), Line("WARN", y, encode);
    assert Tag(Info) == "INFO" && Tag(Warn) == "WARN";
    var t2 := trace + [FsOpen(first, fd), FsWriteSync(fd, l1)];
    var t3 := t2 + [FsClose(fd)];
    assert t3 + [FsOpen(second, fd), FsWriteSync(fd, l2)]
        == trace + [FsOpen(first, fd), FsWriteSync(fd, l1), FsClose(fd), FsOpen(second, fd), FsWriteSync(fd, l2)];
    OpenThenWriteText(trace, first, fd, l1, first);
    OpenThenWriteText(trace, first, fd, l1, second);
    FileTextNoWrites(t2, [FsClose(fd)], first);
    FileTextNoWrites(t2, [FsClose(fd)], second);
    OpenThenWriteText(t3, second, fd, l2, first);
    OpenThenWriteText(t3, second, fd, l2, second);
  }

  /**
   * The descriptor-0 quirk: if `fs.openSync` answers 0, later writes are
   * dropped and `close()` never releases the descriptor.
   */
  lemma ZeroDescriptorIsIgnored(f: FileLogger, path: string, level: string, args: seq<Value>,
                                encode: seq<Value> -> string)
    ensures var g := Open(f, path, 0).0;
      && Write(g, level, args, encode) == []
      && Close(g) == (g, [])
      && g.fileDescriptor == Some(0)
  {
  }

  /**
   * A whole session on a fresh logger: `open`, one `error(args)`, `close`. The
   * calls are exactly open, write, close, and the file gains exactly the one
   * ERROR line.
   */
  lemma ErrorSession(trace: seq<Event>, path: string, fd: int, args: seq<Value>, encode: seq<Value> -> string)
    requires fd != 0
    ensures Open(Fresh, path, fd) == (FileLogger(Some(fd)), [FsOpen(path, fd)])
    ensures Call(FileLogger(Some(fd)), Error, args, encode) == [FsWriteSync(fd, "\nERROR " + encode(args))]
    ensures Close(FileLogger(Some(fd))) == (Fresh, [FsClose(fd)])
    ensures FileText(trace + [FsOpen(path, fd), FsWriteSync(fd, "\nERROR " + encode(args)), FsClose(fd)], path)
         == FileText(trace, path) + "\nERROR " + encode(args)
  {
    var line := "\nERROR " + encode(args);
    assert "\n" + Tag(Error) + " " + encode(args) == line;
    var t1 := trace + [FsOpen(path, fd)];
    var t2 := t1 + [FsWriteSync(fd, line)];
    assert t2 + [FsClose(fd)] == trace + [FsOpen(path, fd), FsWriteSync(fd, line), FsClose(fd)];
    OpenBinds(trace, path, fd);
    FileTextNoWrites(trace, [FsOpen(path, fd)], path);
    WriteLandsInBoundFile(t1, fd, line, path);
    FileTextNoWrites(t2, [FsClose(fd)], path);
    assert FileText(trace, path) + line == FileText(trace, path) + "\nERROR " + encode(args);
  }
}
