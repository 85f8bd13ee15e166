/** The `vectorize` decorator of sandbox2.py: when any positional argument
    is a list, the wrapped function is called once per index up to the
    longest list, each list argument cycling through its items and each
    other argument passed unchanged. */
module Vectorize {
  import opened Errors

  /** A positional argument: a list, or any other value. */
  datatype Arg<T> = Scalar(v: T) | List(items: seq<T>)

  /** What the wrapper returns: `func`'s own result, or the list of results. */
  datatype Call<R> = Direct(value: R) | Vectorized(values: seq<R>)

  /** `any(isinstance(arg, list) for arg in args)`. */
  predicate AnyList<T>(args: seq<Arg<T>>) {
    exists k :: 0 <= k < |args| && args[k].List?
  }

  /** Some list argument is empty, so `i % len(arg)` divides by zero. */
  predicate HasEmptyList<T>(args: seq<Arg<T>>) {
    exists k :: 0 <= k < |args| && args[k] == List([])
  }

  /** `len(arg) if isinstance(arg, list) else 1`. */
  function Len<T>(a: Arg<T>): nat {
    if a.List? then |a.items| else 1
  }

  /** `max(...)` of `Len` over the arguments: the largest length, attained
      by some argument (0 only for no arguments). */
  function MaxLen<T>(args: seq<Arg<T>>): (m: nat)
    ensures forall k :: 0 <= k < |args| ==> Len(args[k]) <= m
    ensures |args| > 0 ==> exists k :: 0 <= k < |args| && Len(args[k]) == m
    ensures |args| == 0 ==> m == 0
  {
    if |args| == 0 then 0
    else
      var m := MaxLen(args[..|args| - 1]);
      var l := Len(args[|args| - 1]);
      if l > m then l else m
  }

  /** The value argument `a` contributes to call `i`. */
  function Pick<T>(a: Arg<T>, i: nat): T
    requires a != List([])
  {
    if a.List? then a.items[i % |a.items|] else a.v
  }

  /** `new_args` for call `i`. */
  function Broadcast<T>(args: seq<Arg<T>>, i: nat): (r: seq<T>)
    requires !HasEmptyList(args)
    ensures |r| == |args|
    ensures forall k :: 0 <= k < |args| ==> r[k] == Pick(args[k], i)
  {
    if |args| == 0 then []
    else Broadcast(args[..|args| - 1], i) + [Pick(args[|args| - 1], i)]
  }

  /** The wrapper's result: one plain call without list arguments, a
      `ZeroDivisionError` when an empty list has to be cycled, and
      otherwise the results of the calls 0..max_len-1 in order. */
  function Wrapped<T, K, R>(func: (seq<T>, K) -> R, args: seq<Arg<T>>, kwargs: K): (r: Result<Call<R>>)
    ensures r.Err? <==> AnyList(args) && HasEmptyList(args) && MaxLen(args) > 0
    ensures r.Err? ==> r.error == ZeroDivisionError
    ensures r.Ok? && r.value.Direct? <==> !AnyList(args)
    ensures r.Ok? && r.value.Vectorized? ==> |r.value.values| == MaxLen(args)
  {
    if !AnyList(args) then
      assert !HasEmptyList(args);
      Ok(Direct(func(Broadcast(args, 0), kwargs)))
    else if MaxLen(args) > 0 && HasEmptyList(args) then Err(ZeroDivisionError)
    else if MaxLen(args) == 0 then Ok(Vectorized([]))
    else Ok(Vectorized(seq(MaxLen(args), i requires 0 <= i => func(Broadcast(args, i), kwargs))))
  }

  /** The `any(...)` scan over the arguments. */
  method ContainsList<T>(args: seq<Arg<T>>) returns (found: bool)
    ensures found <==> AnyList(args)
  {
    found := false;
    for k := 0 to |args|
      invariant found <==> exists j :: 0 <= j < k && args[j].List?
    {
      if args[k].List? {
        found := true;
      }
    }
  }

  /** The `max(...)` over the argument lengths. */
  method Longest<T>(args: seq<Arg<T>>) returns (maxLen: nat)
    ensures maxLen == MaxLen(args)
  {
    maxLen := 0;
    for k := 0 to |args|
      invariant maxLen == MaxLen(args[..k])
    {
      assert args[..k + 1][..k] == args[..k];
      maxLen := if Len(args[k]) > maxLen then Len(args[k]) else maxLen;
    }
    assert args[..|args|] == args;
  }

  /** The inner loop building `new_args` for call `i`; `i % len(arg)` on an
      empty list raises `ZeroDivisionError`. */
  method NewArgs<T>(args: seq<Arg<T>>, i: nat) returns (r: Result<seq<T>>)
    ensures r.Err? <==> HasEmptyList(args)
    ensures r.Err? ==> r.error == ZeroDivisionError
    ensures r.Ok? ==> r.value == Broadcast(args, i)
  {
    var newArgs: seq<T> := [];
    for k := 0 to |args|
      invariant forall j :: 0 <= j < k ==> args[j] != List([])
      invariant |newArgs| == k
      invariant forall j :: 0 <= j < k ==> newArgs[j] == Pick(args[j], i)
    {
      if args[k].List? {
        if |args[k].items| == 0 {
          assert args[k] == List([]);
          return Err(ZeroDivisionError);
        }
        newArgs := newArgs + [args[k].items[i % |args[k].items|]];
      } else {
        newArgs := newArgs + [args[k].v];
      }
    }
    return Ok(newArgs);
  }

  /** `wrapper(*args, **kwargs)`. */
  method Wrapper<T, K, R>(func: (seq<T>, K) -> R, args: seq<Arg<T>>, kwargs: K) returns (r: Result<Call<R>>)
    ensures r == Wrapped(func, args, kwargs)
  {
    var anyList := ContainsList(args);
    if !anyList {
      assert !HasEmptyList(args);
      return Ok(Direct(func(Broadcast(args, 0), kwargs)));
    }
    var maxLen := Longest(args);
    var results: seq<R> := [];
    for i := 0 to maxLen
      invariant i > 0 ==> !HasEmptyList(args)
      invariant |results| == i
      invariant forall j :: 0 <= j < i ==> !HasEmptyList(args) && results[j] == func(Broadcast(args, j), kwargs)
    {
      var newArgs := NewArgs(args, i);
      if newArgs.Err? {
        return Err(newArgs.error);
      }
      results := results + [func(newArgs.value, kwargs)];
    }
    if maxLen == 0 {
      return Ok(Vectorized([]));
    }
    assert results == seq(maxLen, i requires 0 <= i => func(Broadcast(args, i), kwargs));
    return Ok(Vectorized(results));
  }

  /** Without list arguments `func` is called once, on the arguments as given. */
  lemma NoListCallsOnce<T, K, R>(func: (seq<T>, K) -> R, args: seq<T>, kwargs: K)
    ensures Wrapped(func, seq(|args|, k requires 0 <= k < |args| => Scalar(args[k])), kwargs) == Ok(Direct(func(args, kwargs)))
  {
    var wrapped := seq(|args|, k requires 0 <= k < |args| => Scalar(args[k]));
    assert !AnyList(wrapped);
    assert Broadcast(wrapped, 0) == args;
  }

  /** Call `i` gets `arg[i % len(arg)]` from each list and every other
      argument unchanged. */
  lemma CallArguments<T, K, R>(func: (seq<T>, K) -> R, args: seq<Arg<T>>, kwargs: K, i: nat, k: nat)
    requires AnyList(args) && !HasEmptyList(args)
    requires i < MaxLen(args) && k < |args|
    ensures Wrapped(func, args, kwargs).Ok? && Wrapped(func, args, kwargs).value.Vectorized?
    ensures |Wrapped(func, args, kwargs).value.values| == MaxLen(args)
    ensures Wrapped(func, args, kwargs).value.values[i] == func(Broadcast(args, i), kwargs)
    ensures args[k].List? ==> Broadcast(args, i)[k] == args[k].items[i % |args[k].items|]
    ensures args[k].Scalar? ==> Broadcast(args, i)[k] == args[k].v
  {
  }

  /** An empty list next to a non-empty argument raises `ZeroDivisionError`;
      when every argument is an empty list the result is `[]`. */
  lemma EmptyLists<T, K, R>(func: (seq<T>, K) -> R, args: seq<Arg<T>>, kwargs: K)
    requires HasEmptyList(args)
    ensures (exists k :: 0 <= k < |args| && Len(args[k]) > 0) ==> Wrapped(func, args, kwargs) == Err(ZeroDivisionError)
    ensures (forall k :: 0 <= k < |args| ==> args[k] == List([])) ==> Wrapped(func, args, kwargs) == Ok(Vectorized([]))
  {
  }

  /** Lists of one common length `n` pair up elementwise. */
  lemma EqualLengthsPairUp<T, K, R>(args: seq<Arg<T>>, n: nat, i: nat, k: nat)
    requires forall j :: 0 <= j < |args| ==> args[j].List? && |args[j].items| == n
    requires i < n && k < |args|
    ensures !HasEmptyList(args)
    ensures Broadcast(args, i)[k] == args[k].items[i]
  {
    forall j | 0 <= j < |args|
      ensures args[j] != List([])
    {
      assert |args[j].items| == n > 0;
    }
    assert i % n == i;
  }

  /** `add(a, b)`. */
  function Add(xs: seq<int>, kwargs: ()): int {
    if |xs| == 2 then xs[0] + xs[1] else 0
  }

  /** `add([1, 2], [10, 20])` is `[11, 22]`. */
  lemma AddPairs()
    ensures Wrapped(Add, [List([1, 2]), List([10, 20])], ()) == Ok(Vectorized([11, 22]))
  {
    var args := [List([1, 2]), List([10, 20])];
    assert args[0].List?;
    assert MaxLen(args) == 2 by {
      assert args[..1] == [List([1, 2])];
      assert args[..1][..0] == [];
    }
    assert Broadcast(args, 0) == [1, 10];
    assert Broadcast(args, 1) == [2, 20];
    assert !HasEmptyList(args);
    var w := Wrapped(Add, args, ());
    assert w.value.values[0] == Add(Broadcast(args, 0), ()) == 11;
    assert w.value.values[1] == Add(Broadcast(args, 1), ()) == 22;
    assert w.value.values == [11, 22];
  }

  /** `add([1, 2, 3], 10)` is `[11, 12, 13]`. */
  lemma AddScalar()
    ensures Wrapped(Add, [List([1, 2, 3]), Scalar(10)], ()) == Ok(Vectorized([11, 12, 13]))
  {
    var args := [List([1, 2, 3]), Scalar(10)];
    assert args[0].List?;
    assert MaxLen(args) == 3 by {
      assert args[..1] == [List([1, 2, 3])];
      assert args[..1][..0] == [];
    }
    assert Broadcast(args, 0) == [1, 10];
    assert Broadcast(args, 1) == [2, 10];
    assert Broadcast(args, 2) == [3, 10];
    assert !HasEmptyList(args);
    var w := Wrapped(Add, args, ());
    assert w.value.values[0] == Add(Broadcast(args, 0), ()) == 11;
    assert w.value.values[1] == Add(Broadcast(args, 1), ()) == 12;
    assert w.value.values[2] == Add(Broadcast(args, 2), ()) == 13;
    assert w.value.values == [11, 12, 13];
  }
}
