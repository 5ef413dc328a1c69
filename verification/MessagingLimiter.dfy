/**
  The compacting queue of outgoing messages (messaging/limiter.py): an update enqueued under a key that is
  still waiting replaces the waiting one and takes over its futures.
 */
module MessagingLimiter {
  import opened Prelude

  /** A function to run, by number, and the futures waiting for its result. */
  datatype Update = Update(func: nat, futures: seq<nat>)

  /** The keys in order of service and the entry of each key. */
  datatype Queue = Queue(list: seq<string>, entries: map<string, Update>)

  const EmptyQueue: Queue := Queue([], map[])

  function Enqueue(q: Queue, key: string, u: Update, front: bool): Queue {
    if key in q.entries then
      q.(entries := q.entries[key := Update(u.func, q.entries[key].futures + u.futures)])
    else
      Queue(if front then [key] + q.list else q.list + [key], q.entries[key := u])
  }

  function Pop(q: Queue): Queue
    requires q.list != []
  {
    Queue(q.list[1..], q.entries - {q.list[0]})
  }

  /** What running a function comes to. */
  datatype Outcome = Returned(value: string) | Raised(error: string)

  datatype Resolution = Resolution(func: nat, outcome: Outcome)

  /** Every future that is not done yet takes the outcome. */
  function Resolve(done: map<nat, Resolution>, futures: seq<nat>, r: Resolution): map<nat, Resolution> {
    if futures == [] then done
    else
      var front := Resolve(done, futures[..|futures| - 1], r);
      var f := futures[|futures| - 1];
      if f in front then front else front[f := r]
  }

  /** The list holds the keys of the map, once each. */
  ghost predicate Consistent(q: Queue) {
    Distinct(q.list) && forall k :: k in q.list <==> k in q.entries
  }

  lemma EnqueueConsistent(q: Queue, key: string, u: Update, front: bool)
    requires Consistent(q)
    ensures Consistent(Enqueue(q, key, u, front))
  {
  }

  lemma PopConsistent(q: Queue)
    requires Consistent(q) && q.list != []
    ensures Consistent(Pop(q)) && q.list[0] in q.entries
  {
  }

  class MessagingRateLimiter {
    var queueList: seq<string>
    var queueMap: map<string, Update>
    var done: map<nat, Resolution>

    function State(): Queue
      reads this
    {
      Queue(queueList, queueMap)
    }

    constructor ()
      ensures State() == EmptyQueue && done == map[] && Consistent(State())
    {
      queueList, queueMap, done := [], map[], map[];
    }

    method EnqueueInternalMulti(func: nat, futures: seq<nat>, dedupKey: string, front: bool)
      requires Consistent(State())
      modifies this
      ensures Consistent(State()) && done == old(done)
      ensures State() == Enqueue(old(State()), dedupKey, Update(func, futures), front)
    {
      EnqueueConsistent(State(), dedupKey, Update(func, futures), front);
      if dedupKey in queueMap {
        var oldFutures := queueMap[dedupKey].futures;
        queueMap := queueMap[dedupKey := Update(func, oldFutures + futures)];
      } else {
        queueMap := queueMap[dedupKey := Update(func, futures)];
        if front {
          queueList := [dedupKey] + queueList;
        } else {
          queueList := queueList + [dedupKey];
        }
      }
    }

    /** One turn of the worker: take the first entry, run its function with the given outcome, resolve its futures. */
    method ServeNext(outcome: Outcome) returns (key: string, u: Update)
      requires Consistent(State()) && queueList != []
      modifies this
      ensures Consistent(State()) && State() == Pop(old(State()))
      ensures key == old(queueList)[0] && u == old(queueMap)[key]
      ensures done == Resolve(old(done), u.futures, Resolution(u.func, outcome))
    {
      PopConsistent(State());
      key := queueList[0];
      u := queueMap[key];
      queueList := queueList[1..];
      queueMap := queueMap - {key};
      for k := 0 to |u.futures|
        invariant done == Resolve(old(done), u.futures[..k], Resolution(u.func, outcome))
        invariant State() == Pop(old(State()))
      {
        assert u.futures[..k + 1][..k] == u.futures[..k];
        if u.futures[k] !in done {
          done := done[u.futures[k] := Resolution(u.func, outcome)];
        }
      }
      assert u.futures[..|u.futures|] == u.futures;
    }
  }

  // ---------------------------------------------------------------------------------------------
  // Runs.

  /** Serving an empty queue does nothing: the worker waits. */
  datatype Op = Put(key: string, update: Update, front: bool) | Serve(outcome: Outcome)

  /** An entry handed to execution; `began` is the position of the operation that put the key into the list. */
  datatype Execution = Execution(key: string, update: Update, outcome: Outcome, began: nat)

  datatype Run = Run(queue: Queue, born: map<string, nat>, log: seq<Execution>)

  function RunStep(r: Run, op: Op, now: nat): Run {
    match op
    case Put(key, u, front) =>
      Run(Enqueue(r.queue, key, u, front), if key in r.queue.entries then r.born else r.born[key := now], r.log)
    case Serve(outcome) =>
      if r.queue.list == [] || r.queue.list[0] !in r.queue.entries || r.queue.list[0] !in r.born then r
      else
        var key := r.queue.list[0];
        Run(Pop(r.queue), r.born, r.log + [Execution(key, r.queue.entries[key], outcome, r.born[key])])
  }

  function RunAll(ops: seq<Op>): Run {
    if ops == [] then Run(EmptyQueue, map[], []) else RunStep(RunAll(ops[..|ops| - 1]), ops[|ops| - 1], |ops| - 1)
  }

  /** The updates enqueued for a key, in order: the uncompacted queue. */
  function Enqueued(ops: seq<Op>, key: string): seq<Update> {
    if ops == [] then []
    else
      var front, op := Enqueued(ops[..|ops| - 1], key), ops[|ops| - 1];
      if op.Put? && op.key == key then front + [op.update] else front
  }

  /** The updates executed for a key, in order. */
  function Executed(log: seq<Execution>, key: string): seq<Update> {
    if log == [] then []
    else
      var front, e := Executed(log[..|log| - 1], key), log[|log| - 1];
      if e.key == key then front + [e.update] else front
  }

  function Waiting(q: Queue, key: string): seq<Update> {
    if key in q.entries then [q.entries[key]] else []
  }

  function FuturesOf(us: seq<Update>): seq<nat> {
    if us == [] then [] else FuturesOf(us[..|us| - 1]) + us[|us| - 1].futures
  }

  /**
    The enqueued updates fall into consecutive batches, one for each compacted one: it has the function of
    the batch's last update and the futures of all of them, in order.
   */
  ghost predicate Compacts(enqueued: seq<Update>, compacted: seq<Update>)
    decreases |compacted|, 1
  {
    if compacted == [] then enqueued == []
    else exists n :: 0 <= n < |enqueued| && CompactsLast(enqueued, compacted, n)
  }

  ghost predicate CompactsLast(enqueued: seq<Update>, compacted: seq<Update>, n: int)
    requires compacted != [] && 0 <= n < |enqueued|
    decreases |compacted|, 0
  {
    var last := compacted[|compacted| - 1];
    && Compacts(enqueued[..n], compacted[..|compacted| - 1])
    && last.func == enqueued[|enqueued| - 1].func
    && last.futures == FuturesOf(enqueued[n..])
  }

  lemma FuturesSnoc(us: seq<Update>, u: Update)
    ensures FuturesOf(us + [u]) == FuturesOf(us) + u.futures
  {
    assert (us + [u])[..|us|] == us;
  }

  lemma {:induction false} FuturesConcat(a: seq<Update>, b: seq<Update>)
    ensures FuturesOf(a + b) == FuturesOf(a) + FuturesOf(b)
    decreases |b|
  {
    if b == [] {
      assert a + b == a;
    } else {
      var front, last := b[..|b| - 1], b[|b| - 1];
      FuturesConcat(a, front);
      ConcatLast(a, b);
      Associative(FuturesOf(a), FuturesOf(front), last.futures);
    }
  }

  lemma NewBatch(enqueued: seq<Update>, compacted: seq<Update>, u: Update)
    requires Compacts(enqueued, compacted)
    ensures Compacts(enqueued + [u], compacted + [u])
  {
    var e, c, n := enqueued + [u], compacted + [u], |enqueued|;
    assert e[..n] == enqueued && c[..|c| - 1] == compacted;
    assert e[n..] == [] + [u];
    FuturesSnoc([], u);
    assert CompactsLast(e, c, n);
  }

  lemma ExtendBatch(enqueued: seq<Update>, compacted: seq<Update>, last: Update, u: Update)
    requires Compacts(enqueued, compacted + [last])
    ensures Compacts(enqueued + [u], compacted + [Update(u.func, last.futures + u.futures)])
  {
    var before := compacted + [last];
    var n :| 0 <= n < |enqueued| && CompactsLast(enqueued, before, n);
    var e, c := enqueued + [u], compacted + [Update(u.func, last.futures + u.futures)];
    assert before[..|before| - 1] == compacted == c[..|c| - 1];
    assert e[..n] == enqueued[..n];
    assert e[n..] == enqueued[n..] + [u];
    FuturesSnoc(enqueued[n..], u);
    assert CompactsLast(e, c, n);
  }

  ghost predicate Sound(r: Run, ops: seq<Op>) {
    && Consistent(r.queue)
    && (forall k :: k in r.queue.entries ==> k in r.born)
    && (forall key :: Compacts(Enqueued(ops, key), Executed(r.log, key) + Waiting(r.queue, key)))
  }

  lemma PutSound(r: Run, ops: seq<Op>, op: Op)
    requires Sound(r, ops) && op.Put?
    ensures Sound(RunStep(r, op, |ops|), ops + [op])
  {
    var r' := RunStep(r, op, |ops|);
    EnqueueConsistent(r.queue, op.key, op.update, op.front);
    forall key
      ensures Compacts(Enqueued(ops + [op], key), Executed(r'.log, key) + Waiting(r'.queue, key))
    {
      assert (ops + [op])[..|ops|] == ops;
      var executed := Executed(r.log, key);
      assert Compacts(Enqueued(ops, key), executed + Waiting(r.queue, key));
      hide Compacts;
      if key == op.key {
        if key in r.queue.entries {
          ExtendBatch(Enqueued(ops, key), executed, r.queue.entries[key], op.update);
        } else {
          assert executed + [] == executed;
          NewBatch(Enqueued(ops, key), executed, op.update);
        }
      }
    }
  }

  lemma ServeSound(r: Run, ops: seq<Op>, op: Op)
    requires Sound(r, ops) && op.Serve?
    ensures Sound(RunStep(r, op, |ops|), ops + [op])
  {
    var r' := RunStep(r, op, |ops|);
    if r.queue.list != [] { PopConsistent(r.queue); }
    forall key
      ensures Compacts(Enqueued(ops + [op], key), Executed(r'.log, key) + Waiting(r'.queue, key))
    {
      assert (ops + [op])[..|ops|] == ops;
      assert Compacts(Enqueued(ops, key), Executed(r.log, key) + Waiting(r.queue, key));
      hide Compacts;
      if r.queue.list != [] {
        var e := Execution(r.queue.list[0], r.queue.entries[r.queue.list[0]], op.outcome, r.born[r.queue.list[0]]);
        assert (r.log + [e])[..|r.log|] == r.log;
        assert Executed(r'.log, key) + Waiting(r'.queue, key) == Executed(r.log, key) + Waiting(r.queue, key);
      }
    }
  }

  /** At any time, for each key, what was executed and what waits compact what was enqueued. */
  lemma {:induction false} RunSound(ops: seq<Op>)
    ensures Sound(RunAll(ops), ops)
  {
    if ops != [] {
      var front, op := ops[..|ops| - 1], ops[|ops| - 1];
      assert ops == front + [op];
      RunSound(front);
      hide Sound;
      if op.Put? { PutSound(RunAll(front), front, op); } else { ServeSound(RunAll(front), front, op); }
    }
  }

  // What compaction guarantees.

  /** No future is lost, doubled or reordered. */
  lemma {:induction false} CompactsFutures(enqueued: seq<Update>, compacted: seq<Update>)
    requires Compacts(enqueued, compacted)
    ensures FuturesOf(compacted) == FuturesOf(enqueued)
    decreases |compacted|
  {
    if compacted != [] {
      var n :| 0 <= n < |enqueued| && CompactsLast(enqueued, compacted, n);
      CompactsFutures(enqueued[..n], compacted[..|compacted| - 1]);
      FuturesConcat(enqueued[..n], enqueued[n..]);
      assert enqueued == enqueued[..n] + enqueued[n..];
    }
  }

  /** A future is resolved by an update that is its own or a later one of the same key. */
  lemma {:induction false} CompactsNeverOlder(enqueued: seq<Update>, compacted: seq<Update>, j: nat) returns (lo: nat,
      hi: nat)
    requires Compacts(enqueued, compacted) && j < |compacted|
    ensures lo < hi <= |enqueued|
    ensures compacted[j].futures == FuturesOf(enqueued[lo..hi]) && compacted[j].func == enqueued[hi - 1].func
    ensures j == |compacted| - 1 ==> hi == |enqueued|
    decreases |compacted|
  {
    var n :| 0 <= n < |enqueued| && CompactsLast(enqueued, compacted, n);
    if j == |compacted| - 1 {
      lo, hi := n, |enqueued|;
      assert enqueued[lo..hi] == enqueued[n..];
    } else {
      lo, hi := CompactsNeverOlder(enqueued[..n], compacted[..|compacted| - 1], j);
      assert enqueued[..n][lo..hi] == enqueued[lo..hi];
    }
  }

  /**
    Once the queue is drained, every future of a key was handed to exactly one execution, in the order of
    enqueueing, and the last function run for the key is the last one enqueued for it.
   */
  lemma DrainedRunsLatest(ops: seq<Op>, key: string)
    requires RunAll(ops).queue.list == []
    ensures var executed, enqueued := Executed(RunAll(ops).log, key), Enqueued(ops, key);
            && FuturesOf(executed) == FuturesOf(enqueued)
            && (executed == [] <==> enqueued == [])
            && (enqueued != [] ==> executed[|executed| - 1].func == enqueued[|enqueued| - 1].func)
  {
    RunSound(ops);
    var r := RunAll(ops);
    var executed, enqueued := Executed(r.log, key), Enqueued(ops, key);
    assert key !in r.queue.list && Waiting(r.queue, key) == [];
    assert executed + [] == executed;
    assert Compacts(enqueued, executed);
    CompactsFutures(enqueued, executed);
    if executed != [] {
      var lo, hi := CompactsNeverOlder(enqueued, executed, |executed| - 1);
    }
  }

  // Each future has one home.

  function AllFutures(ops: seq<Op>): seq<nat> {
    if ops == [] then []
    else AllFutures(ops[..|ops| - 1]) + if ops[|ops| - 1].Put? then ops[|ops| - 1].update.futures else []
  }

  ghost predicate Disjoint(a: seq<nat>, b: seq<nat>) {
    forall i, j :: 0 <= i < |a| && 0 <= j < |b| ==> a[i] != b[j]
  }

  lemma DistinctParts(a: seq<nat>, b: seq<nat>)
    requires Distinct(a + b)
    ensures Distinct(a) && Distinct(b) && Disjoint(a, b)
  {
    var s := a + b;
    assert forall i :: 0 <= i < |a| ==> s[i] == a[i];
    assert forall j :: 0 <= j < |b| ==> s[|a| + j] == b[j];
  }

  lemma DistinctWhole(a: seq<nat>, b: seq<nat>)
    requires Distinct(a) && Distinct(b) && Disjoint(a, b)
    ensures Distinct(a + b)
  {
  }

  ghost predicate Within(a: seq<nat>, b: seq<nat>) {
    forall x :: x in a ==> x in b
  }

  lemma WithinApart(part: seq<nat>, whole: seq<nat>, other: seq<nat>)
    requires Within(part, whole) && Disjoint(whole, other)
    ensures Disjoint(part, other) && Disjoint(other, part)
  {
    forall i, j | 0 <= i < |part| && 0 <= j < |other|
      ensures part[i] != other[j]
    {
      assert part[i] in whole;
      var k :| 0 <= k < |whole| && whole[k] == part[i];
    }
  }

  lemma DisjointAppend(a: seq<nat>, b: seq<nat>, c: seq<nat>)
    requires Disjoint(a, c) && Disjoint(b, c)
    ensures Disjoint(a + b, c) && Disjoint(c, a + b)
  {
  }

  lemma EnqueuedStep(front: seq<Op>, op: Op, key: string)
    ensures FuturesOf(Enqueued(front + [op], key))
         == FuturesOf(Enqueued(front, key)) + if op.Put? && op.key == key then op.update.futures else []
    ensures AllFutures(front + [op]) == AllFutures(front) + if op.Put? then op.update.futures else []
  {
    assert (front + [op])[..|front|] == front;
    if op.Put? && op.key == key { FuturesSnoc(Enqueued(front, key), op.update); }
  }

  /** Futures that are distinct over a whole run are distinct within one key. */
  lemma {:induction false} FuturesDistinct(ops: seq<Op>, key: string)
    requires Distinct(AllFutures(ops))
    ensures Distinct(FuturesOf(Enqueued(ops, key))) && Within(FuturesOf(Enqueued(ops, key)), AllFutures(ops))
  {
    if ops != [] {
      var front, op := ops[..|ops| - 1], ops[|ops| - 1];
      assert ops == front + [op];
      var added := if op.Put? then op.update.futures else [];
      EnqueuedStep(front, op, key);
      DistinctParts(AllFutures(front), added);
      FuturesDistinct(front, key);
      var mine := FuturesOf(Enqueued(front, key));
      WithinApart(mine, AllFutures(front), added);
      DistinctWhole(mine, added);
      assert mine + [] == mine;
    }
  }

  /** Futures that are distinct over a whole run are distinct between keys. */
  lemma {:induction false} FuturesApart(ops: seq<Op>, key: string, other: string)
    requires Distinct(AllFutures(ops)) && key != other
    ensures Disjoint(FuturesOf(Enqueued(ops, key)), FuturesOf(Enqueued(ops, other)))
  {
    if ops != [] {
      var front, op := ops[..|ops| - 1], ops[|ops| - 1];
      assert ops == front + [op];
      var added := if op.Put? then op.update.futures else [];
      EnqueuedStep(front, op, key);
      EnqueuedStep(front, op, other);
      DistinctParts(AllFutures(front), added);
      FuturesApart(front, key, other);
      FuturesDistinct(front, key);
      FuturesDistinct(front, other);
      var mine, theirs := FuturesOf(Enqueued(front, key)), FuturesOf(Enqueued(front, other));
      WithinApart(mine, AllFutures(front), added);
      WithinApart(theirs, AllFutures(front), added);
      hide Enqueued, FuturesOf, AllFutures, Within, Distinct;
      if op.Put? && op.key == key {
        DisjointAppend(mine, added, theirs);
        assert theirs + [] == theirs;
      } else if op.Put? && op.key == other {
        DisjointAppend(theirs, added, mine);
        assert mine + [] == mine;
      } else {
        assert mine + [] == mine && theirs + [] == theirs;
      }
    }
  }

  /** Each future is in exactly one place: in one execution or waiting in one entry, under its own key only. */
  lemma EachFutureOneHome(ops: seq<Op>, key: string, other: string)
    requires Distinct(AllFutures(ops))
    ensures var r := RunAll(ops);
            var home := FuturesOf(Executed(r.log, key) + Waiting(r.queue, key));
            var elsewhere := FuturesOf(Executed(r.log, other) + Waiting(r.queue, other));
            && home == FuturesOf(Enqueued(ops, key)) && Distinct(home)
            && (key != other ==> Disjoint(home, elsewhere))
  {
    RunSound(ops);
    FuturesDistinct(ops, key);
    if key != other { FuturesApart(ops, key, other); }
    var r := RunAll(ops);
    CompactsFutures(Enqueued(ops, key), Executed(r.log, key) + Waiting(r.queue, key));
    CompactsFutures(Enqueued(ops, other), Executed(r.log, other) + Waiting(r.queue, other));
  }

  // Keys are served first come, first served.

  ghost predicate NeverFront(ops: seq<Op>) {
    forall k :: 0 <= k < |ops| && ops[k].Put? ==> !ops[k].front
  }

  ghost predicate InOrder(r: Run, now: nat) {
    && Consistent(r.queue)
    && (forall k :: 0 <= k < |r.queue.list| ==> r.queue.list[k] in r.born && r.born[r.queue.list[k]] < now)
    && (forall i, j :: 0 <= i < j < |r.queue.list| ==> r.born[r.queue.list[i]] < r.born[r.queue.list[j]])
    && (forall i, j :: 0 <= i < j < |r.log| ==> r.log[i].began < r.log[j].began)
    && (forall i, k :: 0 <= i < |r.log| && 0 <= k < |r.queue.list| ==> r.log[i].began < r.born[r.queue.list[k]])
    && (forall i :: 0 <= i < |r.log| ==> r.log[i].began < now)
  }

  lemma StepInOrder(r: Run, op: Op, now: nat)
    requires InOrder(r, now) && (op.Put? ==> !op.front)
    ensures InOrder(RunStep(r, op, now), now + 1)
  {
    if op.Put? {
      EnqueueConsistent(r.queue, op.key, op.update, op.front);
    } else if r.queue.list != [] {
      PopConsistent(r.queue);
      ServeInOrder(r, op, now);
    }
  }

  lemma ServeInOrder(r: Run, op: Op, now: nat)
    requires InOrder(r, now) && op.Serve? && r.queue.list != [] && r.queue.list[0] in r.queue.entries && Consistent(Pop(r.queue))
    ensures InOrder(RunStep(r, op, now), now + 1)
  {
    var r' := RunStep(r, op, now);
    assert forall k :: 0 <= k < |r'.queue.list| ==> r'.queue.list[k] == r.queue.list[k + 1];
  }

  lemma {:induction false} RunInOrder(ops: seq<Op>)
    requires NeverFront(ops)
    ensures InOrder(RunAll(ops), |ops|)
  {
    if ops == [] {
      assert RunAll(ops) == Run(EmptyQueue, map[], []);
    } else {
      var front, op := ops[..|ops| - 1], ops[|ops| - 1];
      assert op.Put? ==> !op.front;
      assert NeverFront(front) by {
        assert forall k :: 0 <= k < |front| ==> front[k] == ops[k];
      }
      assert RunAll(ops) == RunStep(RunAll(front), op, |front|);
      hide InOrder, NeverFront, RunStep;
      RunInOrder(front);
      StepInOrder(RunAll(front), op, |front|);
    }
  }

  /** Without the front option, executions come in the order in which their batches began. */
  lemma ServedInOrder(ops: seq<Op>)
    requires NeverFront(ops)
    ensures forall i, j :: 0 <= i < j < |RunAll(ops).log| ==> RunAll(ops).log[i].began < RunAll(ops).log[j].began
  {
    RunInOrder(ops);
  }

  // Resolution.

  /** Resolving gives the outcome to exactly the futures that were not done. */
  lemma {:induction false} ResolveMeans(done: map<nat, Resolution>, futures: seq<nat>, r: Resolution)
    ensures var done' := Resolve(done, futures, r);
            && (forall f :: f in done ==> f in done' && done'[f] == done[f])
            && (forall f :: f in done' <==> f in done || f in futures)
            && (forall f :: f in futures && f !in done ==> done'[f] == r)
  {
    if futures != [] {
      ResolveMeans(done, futures[..|futures| - 1], r);
      assert futures == futures[..|futures| - 1] + [futures[|futures| - 1]];
    }
  }

  /** The futures resolved by the executions of a log. */
  function Done(log: seq<Execution>): map<nat, Resolution> {
    if log == [] then map[]
    else
      var e := log[|log| - 1];
      Resolve(Done(log[..|log| - 1]), e.update.futures, Resolution(e.update.func, e.outcome))
  }

  ghost predicate ResolvedBy(log: seq<Execution>, f: nat, j: int) {
    && 0 <= j < |log| && f in log[j].update.futures
    && f in Done(log) && Done(log)[f] == Resolution(log[j].update.func, log[j].outcome)
  }

  /** A future is resolved exactly when an execution holds it, and then by the outcome of such an execution. */
  lemma {:induction false} DoneMeans(log: seq<Execution>, f: nat)
    ensures f in Done(log) ==> exists j :: ResolvedBy(log, f, j)
    ensures (exists j :: 0 <= j < |log| && f in log[j].update.futures) ==> f in Done(log)
  {
    if log != [] {
      var front, e := log[..|log| - 1], log[|log| - 1];
      DoneMeans(front, f);
      ResolveMeans(Done(front), e.update.futures, Resolution(e.update.func, e.outcome));
      if f in Done(front) {
        var j :| ResolvedBy(front, f, j);
        assert ResolvedBy(log, f, j);
      } else if f in e.update.futures {
        assert ResolvedBy(log, f, |log| - 1);
      } else {
        assert forall j :: 0 <= j < |front| ==> log[j] == front[j];
      }
    }
  }

  lemma {:induction false} FutureHasUpdate(us: seq<Update>, f: nat) returns (i: nat)
    requires f in FuturesOf(us)
    ensures i < |us| && f in us[i].futures
  {
    if f in us[|us| - 1].futures {
      i := |us| - 1;
    } else {
      i := FutureHasUpdate(us[..|us| - 1], f);
    }
  }

  lemma {:induction false} UpdateHasFuture(us: seq<Update>, i: nat, f: nat)
    requires i < |us| && f in us[i].futures
    ensures f in FuturesOf(us)
  {
    if i < |us| - 1 { UpdateHasFuture(us[..|us| - 1], i, f); }
  }

  lemma {:induction false} OneUpdate(us: seq<Update>, i: nat, k: nat, f: nat)
    requires i < k < |us| && f in us[i].futures && f in us[k].futures
    ensures !Distinct(FuturesOf(us))
  {
    if Distinct(FuturesOf(us)) {
      assert us == us[..k] + us[k..];
      FuturesConcat(us[..k], us[k..]);
      UpdateHasFuture(us[..k], i, f);
      UpdateHasFuture(us[k..], 0, f);
      DistinctParts(FuturesOf(us[..k]), FuturesOf(us[k..]));
      assert false;
    }
  }

  lemma {:induction false} ExecutionOfKey(log: seq<Execution>, j: nat) returns (p: nat)
    requires j < |log|
    ensures p < |Executed(log, log[j].key)| && Executed(log, log[j].key)[p] == log[j].update
  {
    if j == |log| - 1 {
      p := |Executed(log[..j], log[j].key)|;
    } else {
      p := ExecutionOfKey(log[..|log| - 1], j);
    }
  }

  lemma {:induction false} KeyOfExecution(log: seq<Execution>, key: string, p: nat) returns (j: nat)
    requires p < |Executed(log, key)|
    ensures j < |log| && log[j].key == key && log[j].update == Executed(log, key)[p]
  {
    var front := log[..|log| - 1];
    if p < |Executed(front, key)| {
      j := KeyOfExecution(front, key, p);
    } else {
      j := |log| - 1;
    }
  }

  lemma ExecutionHoldsItsKeysFutures(ops: seq<Op>, j: nat, f: nat)
    requires j < |RunAll(ops).log| && f in RunAll(ops).log[j].update.futures
    ensures f in FuturesOf(Enqueued(ops, RunAll(ops).log[j].key))
  {
    RunSound(ops);
    var r := RunAll(ops);
    var key := r.log[j].key;
    var p := ExecutionOfKey(r.log, j);
    var compacted := Executed(r.log, key) + Waiting(r.queue, key);
    assert compacted[p] == r.log[j].update;
    UpdateHasFuture(compacted, p, f);
    CompactsFutures(Enqueued(ops, key), compacted);
  }

  lemma BatchHoldsFuture(enqueued: seq<Update>, compacted: seq<Update>, p: nat, i: nat, f: nat) returns (m: nat)
    requires Compacts(enqueued, compacted) && Distinct(FuturesOf(enqueued))
    requires p < |compacted| && f in compacted[p].futures
    requires i < |enqueued| && f in enqueued[i].futures
    ensures i <= m < |enqueued| && compacted[p].func == enqueued[m].func
  {
    var lo, hi := CompactsNeverOlder(enqueued, compacted, p);
    var k := FutureHasUpdate(enqueued[lo..hi], f);
    assert enqueued[lo..hi][k] == enqueued[lo + k];
    if lo + k < i { OneUpdate(enqueued, lo + k, i, f); }
    if i < lo + k { OneUpdate(enqueued, i, lo + k, f); }
    m := hi - 1;
  }

  ghost predicate RunsUpdateFrom(enqueued: seq<Update>, i: nat, func: nat) {
    exists m :: i <= m < |enqueued| && enqueued[m].func == func
  }

  lemma SameKey(ops: seq<Op>, key: string, f: nat, j: nat)
    requires Distinct(AllFutures(ops)) && f in FuturesOf(Enqueued(ops, key))
    requires j < |RunAll(ops).log| && f in RunAll(ops).log[j].update.futures
    ensures RunAll(ops).log[j].key == key
  {
    var other := RunAll(ops).log[j].key;
    if other != key {
      ExecutionHoldsItsKeysFutures(ops, j, f);
      FuturesApart(ops, key, other);
      assert false;
    }
  }

  /** A future is never resolved by an update older than the one it came with, nor by another key's. */
  lemma NeverResolvedByOlder(ops: seq<Op>, key: string, i: nat, f: nat)
    requires Distinct(AllFutures(ops))
    requires i < |Enqueued(ops, key)| && f in Enqueued(ops, key)[i].futures && f in Done(RunAll(ops).log)
    ensures RunsUpdateFrom(Enqueued(ops, key), i, Done(RunAll(ops).log)[f].func)
  {
    var r, enqueued := RunAll(ops), Enqueued(ops, key);
    DoneMeans(r.log, f);
    var j :| ResolvedBy(r.log, f, j);
    UpdateHasFuture(enqueued, i, f);
    SameKey(ops, key, f, j);
    RunSound(ops);
    FuturesDistinct(ops, key);
    var p := ExecutionOfKey(r.log, j);
    var compacted := Executed(r.log, key) + Waiting(r.queue, key);
    assert compacted[p] == r.log[j].update;
    var m := BatchHoldsFuture(enqueued, compacted, p, i, f);
    assert enqueued[m].func == Done(r.log)[f].func;
  }

  /** Once the queue is drained, every future of every update is resolved. */
  lemma DrainedResolvesAll(ops: seq<Op>, key: string, i: nat, f: nat)
    requires RunAll(ops).queue.list == []
    requires i < |Enqueued(ops, key)| && f in Enqueued(ops, key)[i].futures
    ensures f in Done(RunAll(ops).log)
  {
    var log := RunAll(ops).log;
    UpdateHasFuture(Enqueued(ops, key), i, f);
    DrainedRunsLatest(ops, key);
    var p := FutureHasUpdate(Executed(log, key), f);
    var j := KeyOfExecution(log, key, p);
    DoneMeans(log, f);
  }
}
