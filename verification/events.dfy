/**
 * The five logging levels and the observable effects of logging: calls on the
 * console streams and calls into the file system. A run of the loggers is the
 * sequence of these events; the text of a file is read back from it.
 */
module Events {
  import opened Wrappers
  import opened Values

  /** The five operations every logger offers (lib/logger.js:5-11). */
  datatype Level = Warn | Error | Info | Log | Debug

  /** The tag the file logger writes for each level (lib/logger.js:73-91). */
  function Tag(level: Level): (t: string)
    ensures |t| > 0 && forall k :: 0 <= k < |t| ==> 'A' <= t[k] <= 'Z'
  {
    match level
    case Warn => "WARN"
    case Error => "ERROR"
    case Info => "INFO"
    case Log => "LOG"
    case Debug => "DEBUG"
  }

  /** Distinct levels write distinct tags, so a file line names its level unambiguously. */
  lemma TagInjective(a: Level, b: Level)
    ensures Tag(a) == Tag(b) <==> a == b
  {
  }

  /**
   * One call out of the logging code: `console.<stream>(...items)`,
   * `fs.openSync(path, 'a')` answering `fd`, `fs.close(fd)`, `fs.writeSync(fd, text)`.
   */
  datatype Event =
    | ConsoleCall(stream: Level, items: seq<Value>)
    | FsOpen(path: string, fd: int)
    | FsClose(fd: int)
    | FsWriteSync(fd: int, text: string)

  /**
   * The path descriptor `fd` refers to after `trace`: the path of its latest
   * open, unless it was closed since. The operating system reuses descriptor
   * numbers, so one number may name different files over a trace.
   */
  function Binding(trace: seq<Event>, fd: int): Option<string>
  {
    if |trace| == 0 then None
    else
      var last := trace[|trace| - 1];
      if last.FsOpen? && last.fd == fd then Some(last.path)
      else if last == FsClose(fd) then None
      else Binding(trace[..|trace| - 1], fd)
  }

  /**
   * The text appended to the file at `path` during `trace`: every write, in
   * order, through a descriptor bound to `path` at the time of the write.
   */
  function FileText(trace: seq<Event>, path: string): string
  {
    if |trace| == 0 then ""
    else
      var before := trace[..|trace| - 1];
      var last := trace[|trace| - 1];
      FileText(before, path)
        + (if last.FsWriteSync? && Binding(before, last.fd) == Some(path) then last.text else "")
  }

  /** A file only grows: the text after a longer trace extends the text after its prefix. */
  lemma {:induction false} FileTextGrows(a: seq<Event>, b: seq<Event>, path: string)
    ensures FileText(a, path) <= FileText(a + b, path)
    decreases |b|
  {
    if |b| == 0 {
      assert a + b == a;
    } else {
      var b' := b[..|b| - 1];
      assert (a + b)[..|a + b| - 1] == a + b';
      FileTextGrows(a, b', path);
    }
  }

  /** Events that write nothing leave the text of every file alone. */
  lemma {:induction false} FileTextNoWrites(a: seq<Event>, b: seq<Event>, path: string)
    requires forall k :: 0 <= k < |b| ==> !b[k].FsWriteSync?
    ensures FileText(a + b, path) == FileText(a, path)
    decreases |b|
  {
    if |b| == 0 {
      assert a + b == a;
    } else {
      var b' := b[..|b| - 1];
      assert (a + b)[..|a + b| - 1] == a + b';
      FileTextNoWrites(a, b', path);
    }
  }

  /** One write adds its text to the file its descriptor is bound to, and to no other file. */
  lemma WriteLandsInBoundFile(trace: seq<Event>, fd: int, text: string, path: string)
    ensures FileText(trace + [FsWriteSync(fd, text)], path)
         == if Binding(trace, fd) == Some(path) then FileText(trace, path) + text else FileText(trace, path)
  {
  }

  /** Right after `FsOpen(path, fd)` the descriptor refers to `path`. */
  lemma OpenBinds(trace: seq<Event>, path: string, fd: int)
    ensures Binding(trace + [FsOpen(path, fd)], fd) == Some(path)
  {
  }
}
