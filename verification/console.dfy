/**
 * `ConsoleLogger` (lib/logger.js:15-56): a prefix, a formatting rule that turns
 * the argument list into the items handed to a console stream, and five
 * operations that route the formatted items to the same-named stream.
 */
module ConsoleLogging {
  import opened Wrappers
  import opened Values
  import opened Events

  /** The prefix is stored verbatim by the constructor and never changes. */
  datatype ConsoleLogger = ConsoleLogger(prefix: string)

  /** `"<prefix> <text>"`, the template literal of lib/logger.js:46-50. */
  function Lead(prefix: string, text: string): string {
    prefix + " " + text
  }

  /**
   * `format(args_)`: drop `null`/`undefined`, then choose among four shapes by
   * whether the first remaining argument is a string and how many remain.
   */
  function Format(prefix: string, args_: seq<Value>): (r: seq<Value>)
    ensures 1 <= |r| <= 2
    ensures r[0].Str? && prefix <= r[0].s
    ensures NoNullish(r)
    ensures |r| == 1 <==> (|DropNullish(args_)| == 1 && DropNullish(args_)[0].Str?)
  {
    var args := DropNullish(args_);
    if |args| > 0 && args[0].Str? then
      if |args| == 1 then
        [Str(Lead(prefix, args[0].s))]
      else if |args| == 2 then
        [Str(Lead(prefix, args[0].s)), args[1]]
      else
        [Str(Lead(prefix, args[0].s)), Arr(args[1..])]
    else
      [Str(prefix), Arr(args)]
  }

  /** The four output shapes, stated in terms of the filtered argument list. */
  lemma FormatShapes(prefix: string, args_: seq<Value>)
    ensures var f := DropNullish(args_);
      && (|f| == 1 && f[0].Str? ==> Format(prefix, args_) == [Str(Lead(prefix, f[0].s))])
      && (|f| == 2 && f[0].Str? ==> Format(prefix, args_) == [Str(Lead(prefix, f[0].s)), f[1]])
      && (|f| >= 3 && f[0].Str? ==> Format(prefix, args_) == [Str(Lead(prefix, f[0].s)), Arr(f[1..])])
      && (|f| == 0 || !f[0].Str? ==> Format(prefix, args_) == [Str(prefix), Arr(f)])
  {
  }

  /** Only the filtered list matters: `null`/`undefined` anywhere in the call are invisible. */
  lemma FormatIgnoresNullish(prefix: string, a: seq<Value>, hole: Value, b: seq<Value>)
    requires IsNullish(hole)
    ensures Format(prefix, a + [hole] + b) == Format(prefix, a + b)
  {
    assert DropNullish([hole]) == [] by {
      assert [hole][1..] == [];
    }
    DropNullishAppend(a + [hole], b);
    DropNullishAppend(a, [hole]);
    DropNullishAppend(a, b);
    assert DropNullish(a + [hole] + b) == DropNullish(a + b);
  }

  /** Formatting an already filtered list gives the same items. */
  lemma FormatOfFiltered(prefix: string, args_: seq<Value>)
    ensures Format(prefix, DropNullish(args_)) == Format(prefix, args_)
  {
    DropNullishIdempotent(args_);
  }

  /**
   * The one pair of filtered lists the output cannot tell apart: a string
   * followed by a single array of two or more non-null values prints exactly
   * like the string followed by those values as separate arguments.
   */
  predicate Collides(f: seq<Value>) {
    |f| == 2 && f[0].Str? && f[1].Arr? && |f[1].elems| >= 2 && NoNullish(f[1].elems)
  }

  /**
   * Reads the filtered argument list back from the console items, or `None`
   * when no call of `format` with this prefix produces these items.
   */
  function Unformat(prefix: string, out: seq<Value>): (r: Option<seq<Value>>)
    ensures r.Some? ==> NoNullish(r.value)
  {
    if |out| == 0 || !out[0].Str? then None
    else if out[0].s == prefix then
      if |out| == 2 && out[1].Arr? && NoNullish(out[1].elems)
         && (|out[1].elems| == 0 || !out[1].elems[0].Str?)
      then Some(out[1].elems)
      else None
    else if |prefix| + 1 <= |out[0].s| && out[0].s[..|prefix| + 1] == prefix + " " then
      var first := Str(out[0].s[|prefix| + 1..]);
      if |out| == 1 then Some([first])
      else if |out| == 2 && out[1].Arr? && |out[1].elems| >= 2 && NoNullish(out[1].elems) then
        Some([first] + out[1].elems)
      else if |out| == 2 && !IsNullish(out[1]) then Some([first, out[1]])
      else None
    else None
  }

  lemma LeadSplits(prefix: string, text: string)
    ensures |prefix| + 1 <= |Lead(prefix, text)|
    ensures Lead(prefix, text)[..|prefix| + 1] == prefix + " "
    ensures Lead(prefix, text)[|prefix| + 1..] == text
    ensures Lead(prefix, text) != prefix
  {
    assert |Lead(prefix, text)| == |prefix| + 1 + |text|;
  }

  /** Round trip: apart from a collision, the console items determine the filtered arguments. */
  lemma UnformatFormat(prefix: string, args_: seq<Value>)
    requires !Collides(DropNullish(args_))
    ensures Unformat(prefix, Format(prefix, args_)) == Some(DropNullish(args_))
  {
    var f := DropNullish(args_);
    if |f| > 0 && f[0].Str? {
      LeadSplits(prefix, f[0].s);
      var out := Format(prefix, args_);
      assert out[0] == Str(Lead(prefix, f[0].s));
      assert out[0].s != prefix;
      assert Str(out[0].s[|prefix| + 1..]) == f[0];
      if |f| == 1 {
        assert [f[0]] == f;
      } else if |f| == 2 {
        assert !IsNullish(f[1]);
        assert [f[0], f[1]] == f;
      } else {
        assert out[1] == Arr(f[1..]);
        assert NoNullish(f[1..]);
        assert [f[0]] + f[1..] == f;
      }
    }
  }

  /** The other direction: whatever `Unformat` accepts is printed back exactly by `format`. */
  lemma FormatUnformat(prefix: string, out: seq<Value>)
    requires Unformat(prefix, out).Some?
    ensures Format(prefix, Unformat(prefix, out).value) == out
  {
    var f := Unformat(prefix, out).value;
    DropNullishOfClean(f);
    if out[0].s != prefix {
      var text := out[0].s[|prefix| + 1..];
      assert out[0].s == prefix + " " + text by {
        assert out[0].s == out[0].s[..|prefix| + 1] + text;
      }
      assert f[0] == Str(text);
      if |out| == 2 && out[1].Arr? && |out[1].elems| >= 2 && NoNullish(out[1].elems) {
        assert f[1..] == out[1].elems;
      }
    }
  }

  /** A colliding list and its spread-out twin are different calls printing the same items. */
  lemma CollisionIsReal(prefix: string, f: seq<Value>)
    requires Collides(f)
    ensures [f[0]] + f[1].elems != f
    ensures Format(prefix, [f[0]] + f[1].elems) == Format(prefix, f)
  {
    var spread := [f[0]] + f[1].elems;
    assert |spread| >= 3;
    DropNullishOfClean(f);
    DropNullishOfClean(spread);
    assert spread[1..] == f[1].elems;
  }

  /** A colliding call is read back as its spread-out twin. */
  lemma CollisionReadsSpread(prefix: string, args_: seq<Value>)
    requires Collides(DropNullish(args_))
    ensures var f := DropNullish(args_);
      Unformat(prefix, Format(prefix, args_)) == Some([f[0]] + f[1].elems)
  {
    var f := DropNullish(args_);
    var spread := [f[0]] + f[1].elems;
    CollisionIsReal(prefix, f);
    FormatOfFiltered(prefix, args_);
    DropNullishOfClean(spread);
    assert !Collides(spread);
    UnformatFormat(prefix, spread);
  }

  /** `Unformat` accepts the items of every call of `format`, so it answers `None` only for foreign items. */
  lemma UnformatAcceptsFormat(prefix: string, args_: seq<Value>)
    ensures Unformat(prefix, Format(prefix, args_)).Some?
  {
    if Collides(DropNullish(args_)) {
      CollisionReadsSpread(prefix, args_);
    } else {
      UnformatFormat(prefix, args_);
    }
  }

  /**
   * Three concrete calls on a logger with prefix `[APP]`: text plus a number,
   * a leading null before the only text, and a leading null before a number.
   */
  lemma AppScenarios()
    ensures Format("[APP]", [Str("disk low"), Num(42)]) == [Str("[APP] disk low"), Num(42)]
    ensures Format("[APP]", [Null, Str("started")]) == [Str("[APP] started")]
    ensures Format("[APP]", [Null, Num(7)]) == [Str("[APP]"), Arr([Num(7)])]
  {
    assert DropNullish([Str("disk low"), Num(42)]) == [Str("disk low"), Num(42)] by {
      DropNullishOfClean([Str("disk low"), Num(42)]);
    }
    assert Lead("[APP]", "disk low") == "[APP] disk low";
    assert Lead("[APP]", "started") == "[APP] started";
    assert [Null, Str("started")][1..] == [Str("started")];
    assert DropNullish([Null, Str("started")]) == [Str("started")] by {
      DropNullishOfClean([Str("started")]);
    }
    assert [Null, Num(7)][1..] == [Num(7)];
    assert DropNullish([Null, Num(7)]) == [Num(7)] by {
      DropNullishOfClean([Num(7)]);
    }
  }

  /**
   * `warn`/`error`/`info`/`debug`/`log` (lib/logger.js:22-40): one call on the
   * same-named console stream, carrying the formatted items.
   */
  function Emit(logger: ConsoleLogger, level: Level, args: seq<Value>): (e: Event)
    ensures e.ConsoleCall? && e.stream == level
    ensures Unformat(logger.prefix, e.items).Some?
    ensures !Collides(DropNullish(args)) ==> Unformat(logger.prefix, e.items) == Some(DropNullish(args))
    ensures var f := DropNullish(args);
      Collides(f) ==> Unformat(logger.prefix, e.items) == Some([f[0]] + f[1].elems)
  {
    var f := DropNullish(args);
    assert !Collides(f) ==> Unformat(logger.prefix, Format(logger.prefix, args)) == Some(f) by {
      if !Collides(f) {
        UnformatFormat(logger.prefix, args);
      }
    }
    assert Collides(f) ==> Unformat(logger.prefix, Format(logger.prefix, args)) == Some([f[0]] + f[1].elems) by {
      if Collides(f) {
        CollisionReadsSpread(logger.prefix, args);
      }
    }
    ConsoleCall(level, Format(logger.prefix, args))
  }
}
