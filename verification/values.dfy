/**
 * The dynamically typed arguments every logging call accepts, and the
 * null filter the console logger applies to them (lib/logger.js:43).
 */
module Values {

  /** A JavaScript argument value, as far as the loggers tell values apart. */
  datatype Value =
    | Null
    | Undefined
    | Bool(b: bool)
    | Num(n: int)
    | Str(s: string)
    | Arr(elems: seq<Value>)
    | Obj(fields: seq<(string, Value)>)

  /**
   * `a != null` under loose equality: false for `null` and `undefined`, the only
   * such values in `Value`. In a browser, `document.all` is also loosely equal
   * to `null`, but `Value` has no such object.
   */
  predicate IsNullish(v: Value) {
    v.Null? || v.Undefined?
  }

  /** No element of `vs` is `null` or `undefined`. */
  predicate NoNullish(vs: seq<Value>) {
    forall k :: 0 <= k < |vs| ==> !IsNullish(vs[k])
  }

  /** `args.filter(a => a != null)` */
  function DropNullish(args: seq<Value>): (r: seq<Value>)
    ensures |r| <= |args|
    ensures NoNullish(r)
  {
    if |args| == 0 then []
    else if IsNullish(args[0]) then DropNullish(args[1..])
    else [args[0]] + DropNullish(args[1..])
  }

  /** A value survives the filter exactly when it occurs in the input and is not `null`/`undefined`. */
  lemma {:induction false} DropNullishMembers(args: seq<Value>, v: Value)
    ensures v in DropNullish(args) <==> v in args && !IsNullish(v)
  {
    if |args| > 0 {
      DropNullishMembers(args[1..], v);
      assert args == [args[0]] + args[1..];
    }
  }

  /** The filter distributes over concatenation: it judges every element on its own. */
  lemma {:induction false} DropNullishAppend(a: seq<Value>, b: seq<Value>)
    ensures DropNullish(a + b) == DropNullish(a) + DropNullish(b)
  {
    if |a| == 0 {
      assert a + b == b;
    } else {
      assert (a + b)[0] == a[0];
      assert (a + b)[1..] == a[1..] + b;
      DropNullishAppend(a[1..], b);
    }
  }

  /** A list without `null`/`undefined` passes the filter unchanged. */
  lemma {:induction false} DropNullishOfClean(args: seq<Value>)
    requires NoNullish(args)
    ensures DropNullish(args) == args
  {
    if |args| > 0 {
      assert !IsNullish(args[0]);
      DropNullishOfClean(args[1..]);
    }
  }

  /** Filtering twice is filtering once. */
  lemma DropNullishIdempotent(args: seq<Value>)
    ensures DropNullish(DropNullish(args)) == DropNullish(args)
  {
    DropNullishOfClean(DropNullish(args));
  }

  /** Every value that is not `null`/`undefined` keeps its exact number of occurrences. */
  lemma {:induction false} DropNullishCounts(args: seq<Value>)
    ensures forall v :: !IsNullish(v) ==> multiset(DropNullish(args))[v] == multiset(args)[v]
    ensures multiset(DropNullish(args))[Null] == 0 && multiset(DropNullish(args))[Undefined] == 0
  {
    if |args| > 0 {
      DropNullishCounts(args[1..]);
      assert args == [args[0]] + args[1..];
      assert multiset(args) == multiset([args[0]]) + multiset(args[1..]);
    }
  }

  /**
   * The positions of `args` the filter keeps: strictly increasing, exactly the
   * non-null positions, and the filtered list reads `args` at them in order.
   */
  method KeptPositions(args: seq<Value>) returns (idx: seq<nat>)
    ensures |idx| == |DropNullish(args)|
    ensures forall k :: 0 <= k < |idx| ==> idx[k] < |args| && DropNullish(args)[k] == args[idx[k]]
    ensures forall k, l :: 0 <= k < l < |idx| ==> idx[k] < idx[l]
    ensures forall i :: 0 <= i < |args| && !IsNullish(args[i]) ==> i in idx
  {
    idx := [];
    var i := 0;
    while i < |args|
      invariant 0 <= i <= |args|
      invariant |idx| == |DropNullish(args[..i])|
      invariant forall k :: 0 <= k < |idx| ==> idx[k] < i && DropNullish(args[..i])[k] == args[idx[k]]
      invariant forall k, l :: 0 <= k < l < |idx| ==> idx[k] < idx[l]
      invariant forall j :: 0 <= j < i && !IsNullish(args[j]) ==> j in idx
    {
      ghost var before := DropNullish(args[..i]);
      assert args[..i + 1] == args[..i] + [args[i]];
      DropNullishAppend(args[..i], [args[i]]);
      assert [args[i]][1..] == [];
      if !IsNullish(args[i]) {
        assert DropNullish(args[..i + 1]) == before + [args[i]];
        idx := idx + [i];
      } else {
        assert DropNullish(args[..i + 1]) == before;
      }
      i := i + 1;
    }
    assert args[..|args|] == args;
  }
}
