/**
 * The thread-pool helpers of offchain/concurrency.py.
 *
 * The pool itself is not modelled: a pool run is the ordered, sequential
 * evaluation of its tasks, and `[f.result() for f in futures]` re-raises the
 * exception of the first failing task in submission order. A call that may
 * raise is a function into `Result<U, Exception>`.
 */
module Concurrency {
  import opened Wrappers
  import opened Exceptions

  /** What `multiprocessing.cpu_count()` reports: some positive number. */
  type CpuCount = n: nat | n >= 1 witness 1

  /** A zero-argument callable submitted to the pool. */
  type Task<U> = () -> Result<U, Exception>

  /** Default `batch_size` of `batched_parmap`. */
  const DefaultBatchSize: int := 10

  /** Message of the ValueError raised by `ThreadPoolExecutor(max_workers=0)`. */
  const MaxWorkersMessage: string := "max_workers must be greater than 0"

  /** Message of the ValueError raised by `range(0, n, 0)`. */
  const RangeStepMessage: string := "range() arg 3 must not be zero"

  /** `MAX_PROCS`: twice the CPU count plus one. */
  function MaxProcs(cpus: CpuCount): (n: nat)
    ensures n >= 3 && n % 2 == 1 && n > cpus
  {
    cpus * 2 + 1
  }

  /** `min(n_tasks, MAX_PROCS)`, the pool's `max_workers`. */
  function WorkerCount(nTasks: nat, maxProcs: nat): (w: nat)
    ensures w <= nTasks && w <= maxProcs
    ensures w == nTasks || w == maxProcs
  {
    Min(nTasks, maxProcs)
  }

  function Min(a: int, b: int): int {
    if a <= b then a else b
  }

  /**
   * Reference semantics of mapping a possibly-raising `fn` over `xs`:
   * left to right, the first exception propagates.
   */
  function MapAll<T, U>(fn: T -> Result<U, Exception>, xs: seq<T>): Result<seq<U>, Exception>
    decreases |xs|
  {
    if xs == [] then Success([])
    else
      match fn(xs[0])
      case Failure(e) => Failure(e)
      case Success(u) => Prepend(u, MapAll(fn, xs[1..]))
  }

  /** `u` in front of the results, unless they are an exception. */
  function Prepend<U>(u: U, r: Result<seq<U>, Exception>): Result<seq<U>, Exception> {
    match r
    case Failure(e) => Failure(e)
    case Success(us) => Success([u] + us)
  }

  /** Running two maps one after the other: the first exception wins, else the results concatenate. */
  function Chain<U>(a: Result<seq<U>, Exception>, b: Result<seq<U>, Exception>): Result<seq<U>, Exception> {
    match a
    case Failure(e) => Failure(e)
    case Success(us) =>
      match b
      case Failure(e) => Failure(e)
      case Success(vs) => Success(us + vs)
  }

  /**
   * What `MapAll` computes: it succeeds exactly when every call returns, then
   * with one result per argument in argument order; otherwise it raises the
   * exception of the first call that raised.
   */
  lemma {:induction false} MapAllSpec<T, U>(fn: T -> Result<U, Exception>, xs: seq<T>)
    ensures MapAll(fn, xs).Success? <==> forall i :: 0 <= i < |xs| ==> fn(xs[i]).Success?
    ensures MapAll(fn, xs).Success? ==>
      |MapAll(fn, xs).value| == |xs| &&
      forall i :: 0 <= i < |xs| ==> MapAll(fn, xs).value[i] == fn(xs[i]).value
    ensures MapAll(fn, xs).Failure? ==>
      exists k :: 0 <= k < |xs| && fn(xs[k]).Failure? && fn(xs[k]).error == MapAll(fn, xs).error &&
        forall j :: 0 <= j < k ==> fn(xs[j]).Success?
    decreases |xs|
  {
    if xs != [] {
      MapAllSpec(fn, xs[1..]);
      assert forall j :: 1 <= j < |xs| ==> xs[1..][j - 1] == xs[j];
      if fn(xs[0]).Success? && MapAll(fn, xs[1..]).Failure? {
        var k :| 0 <= k < |xs[1..]| && fn(xs[1..][k]).Failure? && fn(xs[1..][k]).error == MapAll(fn, xs[1..]).error &&
          forall j :: 0 <= j < k ==> fn(xs[1..][j]).Success?;
        assert fn(xs[k + 1]).Failure?;
        assert forall j :: 0 <= j < k + 1 ==> fn(xs[j]).Success?;
      }
    }
  }

  /**
   * `parallelize_with_threads(*tasks)`: runs every task on a pool of
   * `WorkerCount(|tasks|, maxProcs)` workers and collects the results in
   * submission order. A pool of zero workers cannot be built.
   */
  function ParallelizeWithThreads<U>(tasks: seq<Task<U>>, maxProcs: nat): (r: Result<seq<U>, Exception>)
    ensures WorkerCount(|tasks|, maxProcs) == 0 ==> r == Failure(ValueError(MaxWorkersMessage))
    ensures WorkerCount(|tasks|, maxProcs) > 0 ==>
      (r.Success? <==> forall i :: 0 <= i < |tasks| ==> tasks[i]().Success?)
    ensures r.Success? ==> |r.value| == |tasks| && forall i :: 0 <= i < |tasks| ==> r.value[i] == tasks[i]().value
    ensures WorkerCount(|tasks|, maxProcs) > 0 && r.Failure? ==>
      exists k :: 0 <= k < |tasks| && tasks[k]().Failure? && tasks[k]().error == r.error &&
        forall j :: 0 <= j < k ==> tasks[j]().Success?
  {
    if WorkerCount(|tasks|, maxProcs) == 0 then Failure(ValueError(MaxWorkersMessage))
    else
      var r := MapAll((t: Task<U>) => t(), tasks);
      MapAllSpec((t: Task<U>) => t(), tasks);
      r
  }

  /**
   * The `map(lambda i: lambda: fn(i), args)` inside `parmap`: one task per
   * argument, each closing over its own argument.
   */
  function Bind<T, U>(fn: T -> Result<U, Exception>, args: seq<T>): (tasks: seq<Task<U>>)
    ensures |tasks| == |args|
    ensures forall i :: 0 <= i < |args| ==> tasks[i]() == fn(args[i])
  {
    seq(|args|, i requires 0 <= i < |args| => () => fn(args[i]))
  }

  /** `parmap(fn, args)` on a host with `cpus` CPUs. */
  function Parmap<T, U>(fn: T -> Result<U, Exception>, args: seq<T>, cpus: CpuCount): (r: Result<seq<U>, Exception>)
    ensures args == [] ==> r == Failure(ValueError(MaxWorkersMessage))
    ensures args != [] ==> r == MapAll(fn, args)
  {
    var tasks := Bind(fn, args);
    var r := ParallelizeWithThreads(tasks, MaxProcs(cpus));
    if args != [] then
      MapAllPointwise(fn, args, (t: Task<U>) => t(), tasks);
      r
    else r
  }

  /** Two maps agree when their functions agree element by element. */
  lemma {:induction false} MapAllPointwise<T, S, U>(f: T -> Result<U, Exception>, xs: seq<T>,
                                                     g: S -> Result<U, Exception>, ys: seq<S>)
    requires |xs| == |ys|
    requires forall i :: 0 <= i < |xs| ==> f(xs[i]) == g(ys[i])
    ensures MapAll(f, xs) == MapAll(g, ys)
    decreases |xs|
  {
    if xs != [] {
      assert forall i :: 0 <= i < |xs| - 1 ==> xs[1..][i] == xs[i + 1] && ys[1..][i] == ys[i + 1];
      MapAllPointwise(f, xs[1..], g, ys[1..]);
    }
  }

  /** Mapping over a concatenation runs the first part, then the second. */
  lemma MapAllAppend<T, U>(fn: T -> Result<U, Exception>, xs: seq<T>, ys: seq<T>)
    ensures MapAll(fn, xs).Failure? ==> MapAll(fn, xs + ys) == MapAll(fn, xs)
    ensures MapAll(fn, xs).Success? && MapAll(fn, ys).Failure? ==> MapAll(fn, xs + ys) == MapAll(fn, ys)
    ensures MapAll(fn, xs).Success? && MapAll(fn, ys).Success? ==>
      MapAll(fn, xs + ys) == Success(MapAll(fn, xs).value + MapAll(fn, ys).value)
  {
    MapAllChain(fn, xs, ys);
  }

  lemma {:induction false} MapAllChain<T, U>(fn: T -> Result<U, Exception>, xs: seq<T>, ys: seq<T>)
    ensures MapAll(fn, xs + ys) == Chain(MapAll(fn, xs), MapAll(fn, ys))
    decreases |xs|
  {
    if xs == [] {
      assert xs + ys == ys;
      assert MapAll(fn, ys).Success? ==> [] + MapAll(fn, ys).value == MapAll(fn, ys).value;
    } else {
      var zs := xs + ys;
      assert zs[0] == xs[0];
      assert zs[1..] == xs[1..] + ys;
      MapAllChain(fn, xs[1..], ys);
      if fn(xs[0]).Success? {
        PrependChain(fn(xs[0]).value, MapAll(fn, xs[1..]), MapAll(fn, ys));
      }
    }
  }

  lemma PrependChain<U>(u: U, a: Result<seq<U>, Exception>, b: Result<seq<U>, Exception>)
    ensures Prepend(u, Chain(a, b)) == Chain(Prepend(u, a), b)
  {
    if a.Success? && b.Success? {
      assert [u] + (a.value + b.value) == ([u] + a.value) + b.value;
    }
  }

  /** The slices `args[i:i+size]` for `i` in `range(0, len(args), size)`. */
  function Batches<T>(args: seq<T>, size: nat): (bs: seq<seq<T>>)
    requires size > 0
    decreases |args|
  {
    if args == [] then []
    else
      var end := Min(size, |args|);
      [args[..end]] + Batches(args[end..], size)
  }

  /** The concatenation of a list of lists (`results.extend` applied batch by batch). */
  function Flatten<T>(bs: seq<seq<T>>): seq<T> {
    if bs == [] then [] else bs[0] + Flatten(bs[1..])
  }

  /** The batches partition the arguments, and every batch holds 1 to `size` of them. */
  lemma {:induction false} BatchesPartition<T>(args: seq<T>, size: nat)
    requires size > 0
    ensures Flatten(Batches(args, size)) == args
    ensures forall k :: 0 <= k < |Batches(args, size)| ==> 1 <= |Batches(args, size)[k]| <= size
    decreases |args|
  {
    if args != [] {
      var end := Min(size, |args|);
      BatchesPartition(args[end..], size);
      var bs := Batches(args, size);
      assert bs[1..] == Batches(args[end..], size);
      assert args[..end] + args[end..] == args;
    }
  }

  /**
   * There are `ceil(len(args) / size)` batches, so `parmap` is called that
   * many times: the batches minus one do not cover `args`, all of them do.
   */
  lemma {:induction false} BatchesCount<T>(args: seq<T>, size: nat)
    requires size > 0
    ensures |Batches(args, size)| == 0 <==> args == []
    ensures (|Batches(args, size)| - 1) * size < |args| <= |Batches(args, size)| * size
    decreases |args|
  {
    if args != [] {
      var end := Min(size, |args|);
      var n := |Batches(args[end..], size)|;
      BatchesCount(args[end..], size);
      assert |Batches(args, size)| == n + 1;
      assert (n + 1) * size == n * size + size;
      if |args| > size {
        assert (n - 1) * size + size == n * size;
      }
    }
  }

  /** Batch `k` is `args[k * size : k * size + size]`, cut at the end of `args`, and starts inside `args`. */
  lemma BatchAt<T>(args: seq<T>, size: nat, k: nat)
    requires size > 0
    requires k < |Batches(args, size)|
    ensures k * size < |args|
    ensures Batches(args, size)[k] == args[k * size .. Min(k * size + size, |args|)]
  {
    BatchAtOffset(args, size, k);
    OffsetIsProduct(k, size);
  }

  /** Where batch `k` starts: `k` batch sizes in. */
  function Offset(k: nat, size: nat): nat {
    if k == 0 then 0 else Offset(k - 1, size) + size
  }

  lemma {:induction false} OffsetIsProduct(k: nat, size: nat)
    ensures Offset(k, size) == k * size
  {
    if k > 0 {
      OffsetIsProduct(k - 1, size);
      assert (k - 1) * size + size == k * size;
    }
  }

  lemma {:induction false} BatchAtOffset<T>(args: seq<T>, size: nat, k: nat)
    requires size > 0
    requires k < |Batches(args, size)|
    ensures Offset(k, size) < |args|
    ensures Batches(args, size)[k] == args[Offset(k, size) .. Min(Offset(k, size) + size, |args|)]
    decreases k
  {
    if k > 0 {
      BatchesShift(args, size, k);
      var rest := args[size..];
      BatchAtOffset(rest, size, k - 1);
      var s := Offset(k - 1, size);
      var t := Min(s + size, |rest|);
      assert Offset(k, size) == size + s;
      assert Min(Offset(k, size) + size, |args|) == size + t;
      SliceShift(args, size, s, t);
    } else {
      BatchesFirst(args, size);
    }
  }

  /** The first batch is the first `size` arguments, or all of them. */
  lemma BatchesFirst<T>(args: seq<T>, size: nat)
    requires size > 0 && |Batches(args, size)| > 0
    ensures 0 < |args| && Batches(args, size)[0] == args[0 .. Min(size, |args|)]
  {
    assert args[..Min(size, |args|)] == args[0 .. Min(size, |args|)];
  }

  /** Past the first, batch `k` of `args` is batch `k - 1` of what follows the first `size` arguments. */
  lemma BatchesShift<T>(args: seq<T>, size: nat, k: nat)
    requires size > 0 && 0 < k < |Batches(args, size)|
    ensures size < |args| && k - 1 < |Batches(args[size..], size)|
    ensures Batches(args, size)[k] == Batches(args[size..], size)[k - 1]
  {
    var end := Min(size, |args|);
    var rest := args[end..];
    assert Batches(args, size) == [args[..end]] + Batches(rest, size);
    assert rest != [];
  }

  lemma SliceShift<T>(args: seq<T>, d: nat, lo: nat, hi: nat)
    requires d <= |args| && lo <= hi <= |args| - d
    ensures args[d..][lo..hi] == args[d + lo .. d + hi]
  {
  }

  /** One step of the loop: the batches from `i` on are the slice at `i`, then those after it. */
  lemma BatchesStep<T>(args: seq<T>, size: nat, i: nat)
    requires size > 0 && i < |args|
    ensures Batches(args[i..], size) ==
      [args[i .. Min(i + size, |args|)]] + Batches(args[Min(i + size, |args|)..], size)
  {
    var s := args[i..];
    var end := Min(size, |s|);
    assert s[..end] == args[i .. Min(i + size, |args|)];
    assert s[end..] == args[Min(i + size, |args|)..];
  }

  /**
   * One turn of the loop of `batched_parmap`: if the arguments before `i`
   * mapped to `results`, mapping the slice at `i` either raises, and then so
   * does mapping all of `args`, or extends `results` to the next prefix.
   */
  lemma BatchedStep<T, U>(fn: T -> Result<U, Exception>, args: seq<T>, i: nat, hi: nat, results: seq<U>)
    requires i < hi <= |args|
    requires Success(results) == MapAll(fn, args[..i])
    ensures MapAll(fn, args[i..hi]).Failure? ==> MapAll(fn, args) == MapAll(fn, args[i..hi])
    ensures MapAll(fn, args[i..hi]).Success? ==>
      MapAll(fn, args[..hi]) == Success(results + MapAll(fn, args[i..hi]).value)
  {
    assert args[..hi] == args[..i] + args[i..hi];
    MapAllAppend(fn, args[..i], args[i..hi]);
    assert args == args[..hi] + args[hi..];
    MapAllAppend(fn, args[..hi], args[hi..]);
  }

  lemma PrefixOfConcat<T>(a: seq<T>, b: seq<T>)
    ensures a <= a + b
  {
    assert (a + b)[..|a|] == a;
  }

  /**
   * A whole turn of the loop of `batched_parmap` at index `i`: the slice
   * handed to `parmap` is the next batch, and its outcome either decides the
   * outcome of mapping all of `args` or extends the results and the
   * dispatched batches to the next index.
   */
  lemma BatchedTurn<T, U>(fn: T -> Result<U, Exception>, args: seq<T>, size: nat, i: nat, hi: nat,
                          results: seq<U>, dispatched: seq<seq<T>>)
    requires size > 0 && i < |args| && hi == Min(i + size, |args|)
    requires Success(results) == MapAll(fn, args[..i])
    requires dispatched + Batches(args[i..], size) == Batches(args, size)
    ensures MapAll(fn, args[i..hi]).Failure? ==>
      MapAll(fn, args) == MapAll(fn, args[i..hi]) && dispatched + [args[i..hi]] <= Batches(args, size)
    ensures MapAll(fn, args[i..hi]).Success? ==>
      MapAll(fn, args[..hi]) == Success(results + MapAll(fn, args[i..hi]).value) &&
      (dispatched + [args[i..hi]]) + Batches(args[hi..], size) == Batches(args, size)
  {
    BatchesStep(args, size, i);
    BatchedStep(fn, args, i, hi, results);
    var rest := Batches(args[hi..], size);
    assert (dispatched + [args[i..hi]]) + rest == Batches(args, size);
    PrefixOfConcat(dispatched + [args[i..hi]], rest);
  }

  /**
   * `batched_parmap(fn, args, batch_size)`: `parmap` over successive slices
   * of at most `batch_size` arguments, extending `results` batch by batch.
   * `dispatched` lists the batches handed to `parmap`, in order. A caller
   * that omits `batch_size` passes `DefaultBatchSize`.
   */
  method BatchedParmap<T, U>(fn: T -> Result<U, Exception>, args: seq<T>, batchSize: int, cpus: CpuCount)
    returns (r: Result<seq<U>, Exception>, ghost dispatched: seq<seq<T>>)
    ensures batchSize == 0 ==> r == Failure(ValueError(RangeStepMessage)) && dispatched == []
    ensures batchSize < 0 ==> r == Success([]) && dispatched == []
    ensures batchSize > 0 ==> r == MapAll(fn, args)
    ensures batchSize > 0 ==> dispatched <= Batches(args, batchSize)
    ensures batchSize > 0 && r.Success? ==> dispatched == Batches(args, batchSize)
    ensures batchSize > 0 && r.Failure? ==>
      dispatched != [] && MapAll(fn, dispatched[|dispatched| - 1]) == r &&
      forall k :: 0 <= k < |dispatched| - 1 ==> MapAll(fn, dispatched[k]).Success?
  {
    dispatched := [];
    if batchSize == 0 {
      return Failure(ValueError(RangeStepMessage)), dispatched;
    }
    if batchSize < 0 {
      // range(0, len(args), batch_size) is empty for a negative step.
      return Success([]), dispatched;
    }
    var results: seq<U> := [];
    var i: nat := 0;
    while i < |args|
      invariant Success(results) == MapAll(fn, args[..Min(i, |args|)])
      invariant dispatched + Batches(args[Min(i, |args|)..], batchSize) == Batches(args, batchSize)
      invariant forall k :: 0 <= k < |dispatched| ==> MapAll(fn, dispatched[k]).Success?
    {
      var batchEnd := i + batchSize;
      ghost var hi := Min(batchEnd, |args|);
      var batch := args[i .. Min(batchEnd, |args|)];
      assert Min(i, |args|) == i;
      BatchedTurn(fn, args, batchSize, i, hi, results, dispatched);
      dispatched := dispatched + [batch];
      var res := Parmap(fn, batch, cpus);
      if res.Failure? {
        return res, dispatched;
      }
      results := results + res.value;
      i := batchEnd;
      assert Min(i, |args|) == hi;
    }
    assert args[..Min(i, |args|)] == args;
    assert args[Min(i, |args|)..] == [];
    r := Success(results);
  }
}
