/** Mapping a list with a bounded number of workers that share one index. */
module Concurrency {
  import opened Options

  /** The promise's fate; the first rejection of the mapper decides it, though the other workers go on. */
  datatype Outcome<+R> = Values(results: seq<R>) | Rejected(index: nat) | OutOfRange

  function Upto(n: nat): seq<nat> {
    seq(n, i => i)
  }

  ghost predicate Stored<T, R>(items: seq<T>, mapper: (T, nat) -> Option<R>, results: seq<Option<R>>, i: nat)
    requires |results| == |items|
  {
    i < |items| && results[i].Some? && results[i] == mapper(items[i], i)
  }

  /** The first `m` indices whose mapper call is a rejection. */
  ghost function Refusals<T, R>(items: seq<T>, mapper: (T, nat) -> Option<R>, m: nat): set<nat> {
    set i: nat | i < Min(m, |items|) && mapper(items[i], i).None?
  }

  /** Every index taken so far is awaited by one worker, has its own value, or was refused. */
  ghost predicate Progress<T, R>(items: seq<T>, mapper: (T, nat) -> Option<R>, results: seq<Option<R>>, waiting: set<nat>, taken: nat,
                                 refused: set<nat>, workers: nat) {
    && |results| == |items| && taken <= |items|
    && (forall i :: i in waiting ==> i < taken && i !in refused)
    && (forall i: nat :: i < taken ==> i in waiting || i in refused || Stored(items, mapper, results, i))
    && refused <= Refusals(items, mapper, taken)
    && |waiting| <= workers && (taken < |items| ==> |waiting| + |refused| == workers)
  }

  /** All workers start, each with an index of its own. */
  method Start(workerCount: nat) returns (waiting: set<nat>)
    ensures (forall i: nat :: i in waiting <==> i < workerCount) && |waiting| == workerCount
  {
    waiting := {};
    for k := 0 to workerCount
      invariant (forall i: nat :: i in waiting <==> i < k) && |waiting| == k
    {
      waiting := waiting + {k};
    }
  }

  lemma Started<T, R>(items: seq<T>, mapper: (T, nat) -> Option<R>, results: seq<Option<R>>, waiting: set<nat>, count: nat)
    requires |results| == |items| && count == |waiting| <= |items| && forall i: nat :: i in waiting <==> i < count
    ensures Progress(items, mapper, results, waiting, count, {}, count)
  {
  }

  /** A worker stores its value and takes the next index, if there is one. */
  lemma StepStores<T, R>(items: seq<T>, mapper: (T, nat) -> Option<R>, results: seq<Option<R>>, waiting: set<nat>, taken: nat,
                         refused: set<nat>, workers: nat, i: nat)
    requires Progress(items, mapper, results, waiting, taken, refused, workers) && i in waiting && mapper(items[i], i).Some?
    ensures var after := results[i := mapper(items[i], i)];
      if taken < |items| then Progress(items, mapper, after, waiting - {i} + {taken}, taken + 1, refused, workers)
      else Progress(items, mapper, after, waiting - {i}, taken, refused, workers)
    ensures |waiting - {i}| == |waiting| - 1 && (taken < |items| ==> |waiting - {i} + {taken}| == |waiting|)
  {
  }

  /** A worker whose value is refused stops; the others keep what they hold. */
  lemma StepRefuses<T, R>(items: seq<T>, mapper: (T, nat) -> Option<R>, results: seq<Option<R>>, waiting: set<nat>, taken: nat,
                          refused: set<nat>, workers: nat, i: nat)
    requires Progress(items, mapper, results, waiting, taken, refused, workers) && i in waiting && mapper(items[i], i).None?
    ensures Progress(items, mapper, results, waiting - {i}, taken, refused + {i}, workers)
    ensures |waiting - {i}| == |waiting| - 1
  {
    assert |refused + {i}| == |refused| + 1;
  }

  lemma InRange<T, R>(items: seq<T>, mapper: (T, nat) -> Option<R>, results: seq<Option<R>>, waiting: set<nat>, taken: nat,
                      refused: set<nat>, workers: nat, i: nat)
    requires Progress(items, mapper, results, waiting, taken, refused, workers) && i in waiting
    ensures i < taken <= |items| == |results| && |waiting| <= workers
  {
  }

  /** When nobody waits any more, what was not refused is stored. */
  lemma Finished<T, R>(items: seq<T>, mapper: (T, nat) -> Option<R>, results: seq<Option<R>>, taken: nat, refused: set<nat>, workers: nat)
    requires Progress(items, mapper, results, {}, taken, refused, workers)
    ensures refused == Refusals(items, mapper, taken) && (taken < |items| ==> |refused| == workers)
    ensures forall i :: i in refused ==> i < taken && mapper(items[i], i).None?
    ensures forall i: nat :: i < taken && i !in refused ==> results[i].Some? && results[i] == mapper(items[i], i)
  {
    forall i: nat | i < taken && i !in refused
      ensures Stored(items, mapper, results, i)
    {
    }
  }

  /** The values, once each has come. */
  function Collected<R>(results: seq<Option<R>>): (values: seq<R>)
    requires forall i :: 0 <= i < |results| ==> results[i].Some?
    ensures |values| == |results| && forall i :: 0 <= i < |results| ==> values[i] == results[i].value
  {
    seq(|results|, i requires 0 <= i < |results| => results[i].value)
  }

  /** One worker's turn: it stores the value it waited for and takes the next index, or stops at a rejection. */
  method Turn<T, R>(items: seq<T>, mapper: (T, nat) -> Option<R>, results: array<Option<R>>, waiting: set<nat>, nextIndex: nat,
                    rejected: Option<nat>, ghost refused: set<nat>, ghost workers: nat)
    returns (waits: set<nat>, next: nat, rejection: Option<nat>, ghost refusals: set<nat>)
    requires waiting != {} && Progress(items, mapper, results[..], waiting, Min(nextIndex, |items|), refused, workers)
    requires if rejected.Some? then rejected.value in refused else refused == {}
    modifies results
    ensures Progress(items, mapper, results[..], waits, Min(next, |items|), refusals, workers) && |waits| <= workers
    ensures if rejection.Some? then rejection.value in refusals else refusals == {}
    ensures nextIndex <= next <= nextIndex + 1
    ensures |waits| == if nextIndex < Min(next, |items|) then |waiting| else |waiting| - 1
  {
    hide Progress;
    ghost var taken := Min(nextIndex, |items|);
    var index :| index in waiting;
    InRange(items, mapper, results[..], waiting, taken, refused, workers, index);
    var value := mapper(items[index], index);
    waits, next, rejection, refusals := waiting - {index}, nextIndex, rejected, refused;
    if value.None? {
      StepRefuses(items, mapper, results[..], waiting, taken, refused, workers, index);
      rejection, refusals := Some(rejected.Or(index)), refused + {index};
    } else {
      StepStores(items, mapper, results[..], waiting, taken, refused, workers, index);
      ghost var stored := results[..][index := value];
      results[index] := value;
      assert results[..] == stored;
      if nextIndex < |items| {
        waits := waits + {nextIndex};
      }
      next := nextIndex + 1;
    }
  }

  /**
   * Workers take their turns in any order, so this is every interleaving. `calls` lists the indices in the order their mapper
   * calls begin, those after a rejection included, and `peak` is the largest number of calls in flight at once.
   */
  method MapWithConcurrency<T, R>(items: seq<T>, concurrency: int, mapper: (T, nat) -> Option<R>)
    returns (r: Outcome<R>, ghost calls: seq<nat>, ghost peak: nat)
    ensures r.OutOfRange? <==> concurrency < 1
    ensures r.OutOfRange? ==> calls == []
    ensures r.Values? ==> calls == Upto(|items|) && |r.results| == |items|
    ensures r.Values? ==> forall i :: 0 <= i < |items| ==> mapper(items[i], i) == Some(r.results[i])
    ensures r.Rejected? ==> r.index < |calls| <= |items| && calls == Upto(|calls|) && mapper(items[r.index], r.index).None?
    ensures r.Rejected? ==> |calls| == |items| || |Refusals(items, mapper, |calls|)| == Min(concurrency, |items|)
    ensures peak <= Max(0, Min(concurrency, |items|))
  {
    hide Progress, Refusals;
    if concurrency < 1 {
      return OutOfRange, [], 0;
    }
    var n := |items|;
    if n == 0 {
      return Values([]), [], 0;
    }
    var results := new Option<R>[n](_ => None);
    var rejected: Option<nat> := None;
    var workerCount: nat := Min(concurrency, n);
    var waiting := Start(workerCount);
    var nextIndex: nat := workerCount;
    Started(items, mapper, results[..], waiting, workerCount);
    calls, peak := Upto(workerCount), workerCount;
    ghost var refused: set<nat> := {};
    while waiting != {}
      invariant nextIndex >= workerCount && calls == Upto(Min(nextIndex, n)) && peak == workerCount
      invariant Progress(items, mapper, results[..], waiting, Min(nextIndex, n), refused, workerCount)
      invariant if rejected.Some? then rejected.value in refused else refused == {}
      decreases Max(0, n - nextIndex) + |waiting|
    {
      var next;
      waiting, next, rejected, refused := Turn(items, mapper, results, waiting, nextIndex, rejected, refused, workerCount);
      calls := calls + if nextIndex < Min(next, n) then [nextIndex] else [];
      nextIndex := next;
      peak := Max(peak, |waiting|);
    }
    Finished(items, mapper, results[..], Min(nextIndex, n), refused, workerCount);
    r := if rejected.Some? then Rejected(rejected.value) else Values(Collected(results[..]));
  }
}
