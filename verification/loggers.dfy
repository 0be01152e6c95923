/**
 * The `Logger` capability (lib/logger.js:5-11) over its four implementations,
 * `CompositeLogger` (lib/logger.js:101-137) and `NullLogger`
 * (lib/logger.js:139-145). A level call changes no logger's state, so its
 * whole meaning is the sequence of events it causes.
 */
module Loggers {
  import opened Values
  import opened Events
  import opened ConsoleLogging
  import opened FileLogging

  /** Any object offering the five operations; a composite holds others, in registration order. */
  datatype Logger =
    | ConsoleSink(console: ConsoleLogger)
    | FileSink(file: FileLogger)
    | CompositeSink(loggers: seq<Logger>)
    | NullSink

  /** `new CompositeLogger()`: no children. */
  const EmptyComposite := CompositeSink([])

  /** `addLogger(logger)`: the child goes last; nothing is removed or de-duplicated. */
  function AddLogger(composite: Logger, child: Logger): (r: Logger)
    requires composite.CompositeSink?
    ensures r.CompositeSink?
    ensures |r.loggers| == |composite.loggers| + 1
    ensures r.loggers[..|composite.loggers|] == composite.loggers
    ensures r.loggers[|composite.loggers|] == child
  {
    CompositeSink(composite.loggers + [child])
  }

  /** Concatenation of the event lists, in order. */
  function Flatten(parts: seq<seq<Event>>): (r: seq<Event>)
    ensures forall e :: e in r ==> exists k :: 0 <= k < |parts| && e in parts[k]
  {
    if |parts| == 0 then []
    else
      var joined := Flatten(parts[..|parts| - 1]) + parts[|parts| - 1];
      assert forall e :: e in joined ==> e in Flatten(parts[..|parts| - 1]) || e in parts[|parts| - 1];
      joined
  }

  lemma {:induction false} FlattenAppend(a: seq<seq<Event>>, b: seq<seq<Event>>)
    ensures Flatten(a + b) == Flatten(a) + Flatten(b)
    decreases |b|
  {
    if |b| == 0 {
      assert a + b == a;
    } else {
      var b' := b[..|b| - 1];
      assert (a + b)[..|a + b| - 1] == a + b';
      assert (a + b)[|a + b| - 1] == b[|b| - 1];
      FlattenAppend(a, b');
    }
  }

  /**
   * What a level call may leave behind: a call on the same-named console
   * stream, or a write of the level's line through a held (non-zero) descriptor.
   */
  predicate CausedBy(e: Event, level: Level, args: seq<Value>, encode: seq<Value> -> string) {
    match e
    case ConsoleCall(stream, items) => stream == level && |items| >= 1 && items[0].Str?
    case FsWriteSync(fd, text) => fd != 0 && text == Line(Tag(level), args, encode)
    case _ => false
  }

  /**
   * `logger.<level>(...args)` for every kind of logger; a composite forwards the
   * identical call to each child, in registration order.
   */
  function Dispatch(logger: Logger, level: Level, args: seq<Value>, encode: seq<Value> -> string): (r: seq<Event>)
    ensures forall e :: e in r ==> CausedBy(e, level, args, encode)
    decreases logger
  {
    match logger
    case ConsoleSink(c) => [Emit(c, level, args)]
    case FileSink(f) => Call(f, level, args, encode)
    case CompositeSink(children) =>
      Flatten(seq(|children|, i requires 0 <= i < |children| => Dispatch(children[i], level, args, encode)))
    case NullSink => []
  }

  /** The children's event lists, one per child, in registration order. */
  function PerChild(children: seq<Logger>, level: Level, args: seq<Value>, encode: seq<Value> -> string): (r: seq<seq<Event>>)
    ensures |r| == |children|
    ensures forall i :: 0 <= i < |children| ==> r[i] == Dispatch(children[i], level, args, encode)
  {
    seq(|children|, i requires 0 <= i < |children| => Dispatch(children[i], level, args, encode))
  }

  /** A composite's events are its children's event lists, joined in order. */
  lemma CompositeJoinsChildren(children: seq<Logger>, level: Level, args: seq<Value>, encode: seq<Value> -> string)
    ensures Dispatch(CompositeSink(children), level, args, encode) == Flatten(PerChild(children, level, args, encode))
  {
  }

  lemma PerChildAppend(a: seq<Logger>, b: seq<Logger>, level: Level, args: seq<Value>, encode: seq<Value> -> string)
    ensures PerChild(a + b, level, args, encode) == PerChild(a, level, args, encode) + PerChild(b, level, args, encode)
  {
    var pa, pb, pab := PerChild(a, level, args, encode), PerChild(b, level, args, encode), PerChild(a + b, level, args, encode);
    forall i | 0 <= i < |pab|
      ensures pab[i] == (pa + pb)[i]
    {
      if i < |a| {
        assert (a + b)[i] == a[i];
      } else {
        assert (a + b)[i] == b[i - |a|];
      }
    }
  }

  /** A composite's events split along any split of its children. */
  lemma CompositeSplits(a: seq<Logger>, b: seq<Logger>, level: Level, args: seq<Value>, encode: seq<Value> -> string)
    ensures Dispatch(CompositeSink(a + b), level, args, encode)
         == Dispatch(CompositeSink(a), level, args, encode) + Dispatch(CompositeSink(b), level, args, encode)
  {
    CompositeJoinsChildren(a + b, level, args, encode);
    CompositeJoinsChildren(a, level, args, encode);
    CompositeJoinsChildren(b, level, args, encode);
    PerChildAppend(a, b, level, args, encode);
    FlattenAppend(PerChild(a, level, args, encode), PerChild(b, level, args, encode));
  }

  /** A composite of one child behaves as that child. */
  lemma CompositeOfOne(child: Logger, level: Level, args: seq<Value>, encode: seq<Value> -> string)
    ensures Dispatch(CompositeSink([child]), level, args, encode) == Dispatch(child, level, args, encode)
  {
    var parts := PerChild([child], level, args, encode);
    assert Dispatch(CompositeSink([child]), level, args, encode) == Flatten(parts);
    assert parts[..0] == [];
    assert Flatten(parts) == Flatten([]) + parts[0];
  }

  /** Registering a child extends every later call's events by that child's events, at the end. */
  lemma AddLoggerAppendsEvents(composite: Logger, child: Logger, level: Level, args: seq<Value>,
                               encode: seq<Value> -> string)
    requires composite.CompositeSink?
    ensures Dispatch(AddLogger(composite, child), level, args, encode)
         == Dispatch(composite, level, args, encode) + Dispatch(child, level, args, encode)
  {
    CompositeSplits(composite.loggers, [child], level, args, encode);
    CompositeOfOne(child, level, args, encode);
  }

  /** A `NullLogger` child, wherever it was registered, changes nothing in any call. */
  lemma NullChildIsInvisible(a: seq<Logger>, b: seq<Logger>, level: Level, args: seq<Value>,
                             encode: seq<Value> -> string)
    ensures Dispatch(CompositeSink(a + [NullSink] + b), level, args, encode)
         == Dispatch(CompositeSink(a + b), level, args, encode)
  {
    CompositeSplits(a + [NullSink], b, level, args, encode);
    CompositeSplits(a, [NullSink], level, args, encode);
    CompositeOfOne(NullSink, level, args, encode);
    CompositeSplits(a, b, level, args, encode);
  }

  /** Composites nest: a composite of two composites acts as one holding both child lists. */
  lemma NestedCompositesFlatten(a: seq<Logger>, b: seq<Logger>, level: Level, args: seq<Value>,
                                encode: seq<Value> -> string)
    ensures Dispatch(CompositeSink([CompositeSink(a), CompositeSink(b)]), level, args, encode)
         == Dispatch(CompositeSink(a + b), level, args, encode)
  {
    assert [CompositeSink(a), CompositeSink(b)] == [CompositeSink(a)] + [CompositeSink(b)];
    CompositeSplits([CompositeSink(a)], [CompositeSink(b)], level, args, encode);
    CompositeOfOne(CompositeSink(a), level, args, encode);
    CompositeOfOne(CompositeSink(b), level, args, encode);
    CompositeSplits(a, b, level, args, encode);
  }

  /** A `NullLogger`, and a composite with no children, cause no event for any call. */
  lemma NullIsSilent(level: Level, args: seq<Value>, encode: seq<Value> -> string)
    ensures Dispatch(NullSink, level, args, encode) == []
    ensures Dispatch(EmptyComposite, level, args, encode) == []
  {
  }

  /** One forwarded call: child number `index` receives `level` with these arguments. */
  datatype Forward = Forward(index: nat, level: Level, args: seq<Value>)

  /**
   * The `for (const logger of this.loggers)` loop of each composite level
   * method: the calls it makes, one per child in order with identical
   * arguments, and the events they cause.
   */
  method Broadcast(children: seq<Logger>, level: Level, args: seq<Value>, encode: seq<Value> -> string)
    returns (calls: seq<Forward>, events: seq<Event>)
    ensures |calls| == |children|
    ensures forall i :: 0 <= i < |calls| ==> calls[i] == Forward(i, level, args)
    ensures events == Dispatch(CompositeSink(children), level, args, encode)
    ensures events == Flatten(seq(|calls|, k requires 0 <= k < |calls| =>
                                Dispatch(children[calls[k].index], calls[k].level, calls[k].args, encode)))
  {
    calls := [];
    events := [];
    var i := 0;
    while i < |children|
      invariant 0 <= i <= |children|
      invariant |calls| == i
      invariant forall j :: 0 <= j < i ==> calls[j] == Forward(j, level, args)
      invariant events == Dispatch(CompositeSink(children[..i]), level, args, encode)
    {
      assert children[..i + 1] == children[..i] + [children[i]];
      CompositeSplits(children[..i], [children[i]], level, args, encode);
      CompositeOfOne(children[i], level, args, encode);
      calls := calls + [Forward(i, level, args)];
      events := events + Dispatch(children[i], level, args, encode);
      i := i + 1;
    }
    assert children[..|children|] == children;
    assert seq(|calls|, k requires 0 <= k < |calls| =>
             Dispatch(children[calls[k].index], calls[k].level, calls[k].args, encode))
        == PerChild(children, level, args, encode);
  }

  /** Three console children `[A, B, C]` and `info("x")`: A, then B, then C, each with `"x"`. */
  lemma InfoReachesChildrenInOrder(a: ConsoleLogger, b: ConsoleLogger, c: ConsoleLogger, encode: seq<Value> -> string)
    ensures Dispatch(CompositeSink([ConsoleSink(a), ConsoleSink(b), ConsoleSink(c)]), Info, [Str("x")], encode)
         == [Emit(a, Info, [Str("x")]), Emit(b, Info, [Str("x")]), Emit(c, Info, [Str("x")])]
  {
    var args := [Str("x")];
    var children := [ConsoleSink(a), ConsoleSink(b), ConsoleSink(c)];
    assert children == [ConsoleSink(a)] + [ConsoleSink(b)] + [ConsoleSink(c)];
    CompositeSplits([ConsoleSink(a)] + [ConsoleSink(b)], [ConsoleSink(c)], Info, args, encode);
    CompositeSplits([ConsoleSink(a)], [ConsoleSink(b)], Info, args, encode);
    CompositeOfOne(ConsoleSink(a), Info, args, encode);
    CompositeOfOne(ConsoleSink(b), Info, args, encode);
    CompositeOfOne(ConsoleSink(c), Info, args, encode);
  }
}
