/** The choice of a worker for a step: a left fold over the eligible workers. */
module WorkerSelection {
  import opened Prelude

  /** A worker entry of a workflow definition; `threads` may be missing. */
  datatype Worker = Worker(workerId: string, instanceId: string, threads: Option<real>)

  /** The comparison `a.threads <= b.threads`, false as soon as one side is missing. */
  predicate NoHeavier(a: Worker, b: Worker) {
    a.threads.Some? && b.threads.Some? && a.threads.value <= b.threads.value
  }

  function Reduce(prev: Worker, rest: seq<Worker>): Worker
    decreases |rest|
  {
    if rest == [] then prev
    else Reduce(if NoHeavier(prev, rest[0]) then prev else rest[0], rest[1..])
  }

  function Select(workers: seq<Worker>): Worker
    requires workers != []
  {
    Reduce(workers[0], workers[1..])
  }

  /** Index of the last worker without a thread count, or -1. */
  function LastMissing(workers: seq<Worker>): (m: int)
    ensures -1 <= m < |workers|
    ensures m >= 0 ==> workers[m].threads.None?
    ensures forall j :: m < j < |workers| ==> workers[j].threads.Some?
  {
    if workers == [] then -1
    else if workers[|workers| - 1].threads.None? then |workers| - 1
    else LastMissing(workers[..|workers| - 1])
  }

  /**
   * `k` is the place of the chosen worker: the leftmost minimum of the suffix after the last
   * worker without a thread count, or that worker itself when nothing follows it.
   */
  ghost predicate Chosen(workers: seq<Worker>, k: nat) {
    var m := LastMissing(workers);
    && k < |workers|
    && if m == |workers| - 1 then k == m
       else m < k && forall j :: m < j < |workers| ==>
         && workers[k].threads.value <= workers[j].threads.value
         && (j < k ==> workers[k].threads.value < workers[j].threads.value)
  }

  lemma {:induction false} ReduceLast(prev: Worker, rest: seq<Worker>, w: Worker)
    ensures Reduce(prev, rest + [w]) ==
            (if NoHeavier(Reduce(prev, rest), w) then Reduce(prev, rest) else w)
    decreases |rest|
  {
    if rest == [] {
      assert (rest + [w])[1..] == [];
    } else {
      assert (rest + [w])[1..] == rest[1..] + [w];
      ReduceLast(if NoHeavier(prev, rest[0]) then prev else rest[0], rest[1..], w);
    }
  }

  /** The fold returns exactly the worker at the unique chosen place. */
  lemma {:induction false} SelectIsChosen(workers: seq<Worker>) returns (k: nat)
    requires workers != []
    ensures Chosen(workers, k) && Select(workers) == workers[k]
    ensures forall k': nat :: Chosen(workers, k') ==> k' == k
  {
    var n := |workers| - 1;
    if n == 0 {
      k := 0;
    } else {
      var init, w := workers[..n], workers[n];
      assert workers == init + [w];
      assert workers[1..] == init[1..] + [w];
      ReduceLast(workers[0], init[1..], w);
      k := SelectIsChosen(init);
      assert LastMissing(workers) == if w.threads.None? then n else LastMissing(init);
      if !NoHeavier(init[k], w) { k := n; }
    }
  }

  /** When every count is a number the result is a worker of minimum load, the leftmost such. */
  lemma SelectLeastLoaded(workers: seq<Worker>) returns (k: nat)
    requires workers != [] && forall w :: w in workers ==> w.threads.Some?
    ensures k < |workers| && Select(workers) == workers[k]
    ensures forall j :: 0 <= j < |workers| ==> workers[k].threads.value <= workers[j].threads.value
    ensures forall j :: 0 <= j < k ==> workers[k].threads.value < workers[j].threads.value
  {
    k := SelectIsChosen(workers);
    assert LastMissing(workers) == -1;
  }
}
