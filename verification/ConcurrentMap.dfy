// The bounded-concurrency mapper, under every interleaving of its workers.

module ConcurrentMap {
  import opened Numbers

  // A JavaScript number, as far as the clamp looks at it.
  datatype Number = Finite(value: real) | NonFinite

  datatype Outcome<R> = Resolved(value: R) | Failed

  // What the returned promise does: all results, or the first failure.
  datatype Reply<R> = Fulfilled(results: seq<R>) | Rejected(index: nat)

  // `Math.trunc`: toward zero.
  function Trunc(x: real): int {
    if x >= 0.0 then x.Floor else -((-x).Floor)
  }

  // How many workers are started.
  function Limit(n: nat, concurrency: Number): (limit: nat)
    ensures limit <= n && (n > 0 ==> limit > 0)
    ensures n > 0 && (concurrency.NonFinite? || concurrency.value < 2.0) ==> limit == 1
    ensures concurrency.Finite? && n as real <= concurrency.value ==> limit == n
    ensures concurrency.Finite? && 1.0 <= concurrency.value < n as real ==>
              limit as real <= concurrency.value < (limit + 1) as real
  {
    Min(n, Max(1, if concurrency.Finite? then Trunc(concurrency.value) else 1))
  }

  // Every taken index is awaited, has its result, or belongs to a failed mapper after
  // which the reply is a rejection.
  ghost predicate Accounted<T, R>(items: seq<T>, mapper: (T, nat) -> Outcome<R>, nextIndex: nat,
                                  results: map<nat, R>, awaited: set<nat>, rejected: int)
  {
    && nextIndex <= |items|
    && (forall i | i in awaited :: i < nextIndex)
    && (forall i | i in results :: i < nextIndex && mapper(items[i], i) == Resolved(results[i]))
    && (if rejected == -1 then forall i: nat | i < nextIndex :: i in results || i in awaited
        else 0 <= rejected < nextIndex && mapper(items[rejected], rejected).Failed?)
  }

  // The mapper of an awaited index answers.
  lemma AfterAnswer<T, R>(items: seq<T>, mapper: (T, nat) -> Outcome<R>, nextIndex: nat,
                          results: map<nat, R>, awaited: set<nat>, rejected: int, index: nat)
    requires Accounted(items, mapper, nextIndex, results, awaited, rejected) && index in awaited
    ensures index < |items|
    ensures match mapper(items[index], index)
            case Resolved(value) =>
              Accounted(items, mapper, nextIndex, results[index := value], awaited - {index}, rejected)
            case Failed =>
              Accounted(items, mapper, nextIndex, results, awaited - {index},
                        if rejected == -1 then index else rejected)
  {
  }

  lemma AfterTake<T, R>(items: seq<T>, mapper: (T, nat) -> Outcome<R>, nextIndex: nat,
                        results: map<nat, R>, awaited: set<nat>, rejected: int)
    requires Accounted(items, mapper, nextIndex, results, awaited, rejected) && nextIndex < |items|
    ensures nextIndex !in awaited
    ensures Accounted(items, mapper, nextIndex + 1, results, awaited + {nextIndex}, rejected)
  {
  }

  lemma WhenAllStopped<T, R>(items: seq<T>, mapper: (T, nat) -> Outcome<R>, nextIndex: nat,
                             results: map<nat, R>, rejected: int)
    requires Accounted(items, mapper, nextIndex, results, {}, rejected)
    requires rejected == -1 ==> nextIndex == |items|
    ensures rejected == -1 ==>
              forall i | 0 <= i < |items| :: i in results && mapper(items[i], i) == Resolved(results[i])
    ensures rejected != -1 ==> 0 <= rejected < |items| && mapper(items[rejected], rejected).Failed?
  {
  }

  // One pass of the loop is one step of one worker, picked arbitrarily: a worker that
  // is ready takes the next index or stops, one that awaits gets its mapper's result
  // back. `takes` lists the indices in the order they were taken and `peak` the most
  // mappers in flight at once. A worker whose mapper failed is gone; the others go on.
  method MapWithConcurrency<T, R>(items: seq<T>, concurrency: Number, mapper: (T, nat) -> Outcome<R>)
    returns (reply: Reply<R>, takes: seq<nat>, peak: nat)
    ensures reply.Fulfilled? <==> forall i | 0 <= i < |items| :: mapper(items[i], i).Resolved?
    ensures reply.Fulfilled? ==>
      && |reply.results| == |items| == |takes|
      && forall i | 0 <= i < |items| :: mapper(items[i], i) == Resolved(reply.results[i])
    ensures reply.Rejected? ==> reply.index < |items| && mapper(items[reply.index], reply.index).Failed?
    ensures |takes| <= |items| && forall i | 0 <= i < |takes| :: takes[i] == i
    ensures peak <= Limit(|items|, concurrency)
  {
    hide Trunc, Accounted;
    takes, peak := [], 0;
    if items == [] {
      return Fulfilled([]), takes, peak;
    }
    var limit := Limit(|items|, concurrency);
    var results: map<nat, R> := map[];
    var nextIndex := 0;
    var rejected: int := -1;
    // How many workers are about to look for an index, and the indices awaited.
    var ready: nat := limit;
    var awaited: set<nat> := {};
    NothingTaken(items, mapper);
    while ready > 0 || awaited != {}
      invariant Accounted(items, mapper, nextIndex, results, awaited, rejected)
      invariant nextIndex <= |items| && |takes| == nextIndex
      invariant forall i | 0 <= i < nextIndex :: takes[i] == i
      invariant ready + |awaited| <= limit && peak <= limit
      invariant rejected == -1 && nextIndex < |items| ==> ready + |awaited| == limit
      decreases 3 * (|items| - nextIndex) + 2 * |awaited| + ready
    {
      var resumes: bool := *;
      if awaited != {} && (ready == 0 || resumes) {
        var index :| index in awaited;
        AfterAnswer(items, mapper, nextIndex, results, awaited, rejected, index);
        awaited := awaited - {index};
        match mapper(items[index], index)
        case Resolved(value) =>
          results := results[index := value];
          ready := ready + 1;
        case Failed =>
          if rejected == -1 { rejected := index; }
      } else {
        ready := ready - 1;
        if nextIndex < |items| {
          AfterTake(items, mapper, nextIndex, results, awaited, rejected);
          awaited := awaited + {nextIndex};
          takes := takes + [nextIndex];
          nextIndex := nextIndex + 1;
          peak := Max(peak, |awaited|);
        }
      }
    }
    WhenAllStopped(items, mapper, nextIndex, results, rejected);
    if rejected != -1 {
      return Rejected(rejected), takes, peak;
    }
    return Fulfilled(seq(|items|, i requires 0 <= i < |items| && i in results => results[i])), takes, peak;
  }

  lemma NothingTaken<T, R>(items: seq<T>, mapper: (T, nat) -> Outcome<R>)
    ensures Accounted(items, mapper, 0, map[], {}, -1)
  {
  }
}
