// The leased recovery queue of the operational store, and the worker that
// drains it.
module RecoveryQueue {
  import opened Prelude

  datatype JobStatus = Queued | Running | Succeeded | Failed

  datatype Job = Job(
    jobId: Hash, status: JobStatus, reason: string, missingShards: set<nat>, attempts: nat,
    createdAt: nat, updatedAt: nat, leaseUntil: Option<nat>, workerId: Option<string>,
    result: Option<string>, lastError: Option<string>, completedAt: Option<nat>)

  // In insertion order, as an object's values are listed.
  type Queue = seq<Job>

  datatype QueueError = BlobIdRequired | InvalidLease | JobNotFound

  datatype Op =
    | Enqueue(blobId: Hash, reason: string, missingShards: set<nat>)
    | Claim(worker: string, leaseMs: nat)
    | Complete(jobId: Hash, result: string)
    | Fail(jobId: Hash, error: string, retry: bool)

  // ---- What each operation does ----

  function IndexOf(q: Queue, id: Hash): (k: nat)
    ensures k <= |q| && (k < |q| ==> q[k].jobId == id)
    ensures forall j :: 0 <= j < k ==> q[j].jobId != id
  {
    if q == [] || q[0].jobId == id then 0 else IndexOf(q[1..], id) + 1
  }

  predicate Has(q: Queue, id: Hash) {
    IndexOf(q, id) < |q|
  }

  function JobOf(q: Queue, id: Hash): Job
    requires Has(q, id)
  {
    q[IndexOf(q, id)]
  }

  function AfterEnqueue(q: Queue, id: Hash, reason: string, missing: set<nat>, now: nat): Queue {
    var k := IndexOf(q, id);
    if k < |q| then
      if q[k].status.Failed?
      then q[k := q[k].(status := Queued, reason := reason, missingShards := missing, updatedAt := now,
                        leaseUntil := None, lastError := None)]
      else q
    else q + [Job(id, Queued, reason, missing, 0, now, now, None, None, None, None, None)]
  }

  // A running job whose lease is over goes back to the queue.
  function Released(j: Job, now: nat): Job {
    if j.status.Running? && j.leaseUntil.Some? && j.leaseUntil.value <= now
    then j.(status := Queued, leaseUntil := None, updatedAt := now) else j
  }

  function Release(q: Queue, now: nat): Queue {
    seq(|q|, i requires 0 <= i < |q| => Released(q[i], now))
  }

  // Oldest first; equal ages keep their place.
  predicate Before(q: Queue, i: nat, j: nat)
    requires i < |q| && j < |q|
  {
    q[i].createdAt < q[j].createdAt || (q[i].createdAt == q[j].createdAt && i < j)
  }

  // The first of the queued jobs in that order.
  function Next(q: Queue): (r: Option<nat>)
    ensures r.Some? ==> r.value < |q| && q[r.value].status.Queued?
    ensures r.Some? ==> forall j :: 0 <= j < |q| && q[j].status.Queued? && j != r.value ==> Before(q, r.value, j)
    ensures r.None? ==> forall j :: 0 <= j < |q| ==> !q[j].status.Queued?
  {
    if q == [] then None
    else
      var k := |q| - 1;
      var best := Next(q[..k]);
      if q[k].status.Queued? && (best.None? || q[k].createdAt < q[best.value].createdAt) then Some(k) else best
  }

  function Started(j: Job, worker: string, leaseMs: nat, now: nat): Job {
    j.(status := Running, workerId := Some(worker), attempts := j.attempts + 1, updatedAt := now, leaseUntil := Some(now + leaseMs))
  }

  function AfterClaim(q: Queue, worker: string, leaseMs: nat, now: nat): (Queue, Option<nat>) {
    var released := Release(q, now);
    var next := Next(released);
    (if next.Some? then released[next.value := Started(released[next.value], worker, leaseMs, now)] else released, next)
  }

  function Completed(j: Job, result: string, now: nat): Job {
    if j.status.Succeeded? then j
    else j.(status := Succeeded, result := Some(result), completedAt := Some(now), updatedAt := now, leaseUntil := None, lastError := None)
  }

  function Failing(j: Job, error: string, retry: bool, now: nat): Job {
    if j.status.Succeeded? then j
    else j.(status := if retry then Queued else Failed, updatedAt := now, leaseUntil := None, lastError := Some(error))
  }

  // The queue after one operation; a refused one changes nothing.
  function Do(q: Queue, now: nat, op: Op): Queue {
    match op
    case Enqueue(id, reason, missing) => if id == ZeroHash then q else AfterEnqueue(q, id, reason, missing, now)
    case Claim(worker, leaseMs) => if leaseMs < 1 then q else AfterClaim(q, worker, leaseMs, now).0
    case Complete(id, result) =>
      var k := IndexOf(q, id);
      if k < |q| then q[k := Completed(q[k], result, now)] else q
    case Fail(id, error, retry) =>
      var k := IndexOf(q, id);
      if k < |q| then q[k := Failing(q[k], error, retry, now)] else q
  }

  datatype Timed = Timed(now: nat, op: Op)

  function Run(q: Queue, ops: seq<Timed>): Queue {
    if ops == [] then q else Do(Run(q, ops[..|ops| - 1]), ops[|ops| - 1].now, ops[|ops| - 1].op)
  }

  // The job an operation hands to a worker, if it does.
  function HandedOut(q: Queue, now: nat, op: Op): Option<Hash> {
    if op.Claim? && op.leaseMs >= 1 then
      var next := AfterClaim(q, op.worker, op.leaseMs, now).1;
      if next.Some? && next.value < |q| then Some(q[next.value].jobId) else None
    else None
  }

  // ---- One operation ----

  predicate Unique(q: Queue) {
    forall i, j :: 0 <= i < j < |q| ==> q[i].jobId != q[j].jobId
  }

  // What one operation may do to the job at position `k`.
  lemma DoAt(q: Queue, now: nat, op: Op, k: nat)
    requires Unique(q) && k < |q|
    ensures var q' := Do(q, now, op);
            && k < |q'| && q'[k].jobId == q[k].jobId
            && (q[k].status.Succeeded? ==> q'[k] == q[k])
            && q'[k].attempts == q[k].attempts + (if HandedOut(q, now, op) == Some(q[k].jobId) then 1 else 0)
            && (HandedOut(q, now, op) == Some(q[k].jobId) ==>
                  && op.Claim? && q'[k] == Started(Released(q[k], now), op.worker, op.leaseMs, now)
                  && Released(q[k], now).status.Queued?)
  {
    var q' := Do(q, now, op);
    match op
    case Claim(worker, leaseMs) =>
      var released := Release(q, now);
      var next := Next(released);
      assert next.Some? && next.value != k ==> q[next.value].jobId != q[k].jobId;
    case _ =>
  }

  lemma DoKeepsUnique(q: Queue, now: nat, op: Op)
    requires Unique(q)
    ensures Unique(Do(q, now, op)) && |q| <= |Do(q, now, op)|
  {
    var q' := Do(q, now, op);
    forall i, j | 0 <= i < j < |q'| ensures q'[i].jobId != q'[j].jobId {
      DoAt(q, now, op, i);
      if j < |q| {
        DoAt(q, now, op, j);
      }
    }
  }

  lemma {:induction false} RunKeepsUnique(q: Queue, ops: seq<Timed>)
    requires Unique(q)
    ensures Unique(Run(q, ops)) && |q| <= |Run(q, ops)|
  {
    hide Do, Unique;
    if ops != [] {
      RunKeepsUnique(q, ops[..|ops| - 1]);
      DoKeepsUnique(Run(q, ops[..|ops| - 1]), ops[|ops| - 1].now, ops[|ops| - 1].op);
    }
  }

  // ---- Whole runs ----

  // A job that succeeded keeps its first result, whatever follows.
  lemma {:induction false} SucceededForever(q: Queue, ops: seq<Timed>, k: nat)
    requires Unique(q) && k < |q| && q[k].status.Succeeded?
    ensures k < |Run(q, ops)| && Run(q, ops)[k] == q[k]
  {
    hide Do, Unique;
    if ops != [] {
      var front, last := ops[..|ops| - 1], ops[|ops| - 1];
      SucceededForever(q, front, k);
      RunKeepsUnique(q, front);
      DoAt(Run(q, front), last.now, last.op, k);
    }
  }

  // The first completion decides; later completions and failures do not.
  lemma FirstResultStays(q: Queue, now: nat, id: Hash, result: string, ops: seq<Timed>)
    requires Unique(q) && Has(q, id) && !JobOf(q, id).status.Succeeded?
    ensures var k, after := IndexOf(q, id), Run(Do(q, now, Complete(id, result)), ops);
            k < |after| && after[k].jobId == id && after[k].status.Succeeded? && after[k].result == Some(result)
  {
    var q' := Do(q, now, Complete(id, result));
    DoKeepsUnique(q, now, Complete(id, result));
    SucceededForever(q', ops, IndexOf(q, id));
  }

  // How often the job was handed to a worker.
  function ClaimsOf(ops: seq<Timed>, id: Hash): nat {
    if ops == [] then 0
    else
      var front, last := ops[..|ops| - 1], ops[|ops| - 1];
      ClaimsOf(front, id) + if HandedOut(Run([], front), last.now, last.op) == Some(id) then 1 else 0
  }

  lemma {:induction false} AttemptsCountClaims(ops: seq<Timed>, id: Hash)
    ensures ClaimsOf(ops, id) == if Has(Run([], ops), id) then JobOf(Run([], ops), id).attempts else 0
  {
    if ops != [] {
      hide Do, Unique, HandedOut;
      var front, last := ops[..|ops| - 1], ops[|ops| - 1];
      var before, after := Run([], front), Run([], ops);
      AttemptsCountClaims(front, id);
      EmptyIsUnique();
      RunKeepsUnique([], front);
      DoKeepsUnique(before, last.now, last.op);
      if Has(before, id) {
        var k := IndexOf(before, id);
        DoAt(before, last.now, last.op, k);
        UniquePosition(after, id, k);
      } else {
        NewJob(before, last.now, last.op, id);
      }
    }
  }

  lemma EmptyIsUnique()
    ensures Unique([])
  {
  }

  lemma UniquePosition(q: Queue, id: Hash, k: nat)
    requires Unique(q) && k < |q| && q[k].jobId == id
    ensures Has(q, id) && IndexOf(q, id) == k
  {
  }

  // A job that was not there was not handed out, and starts with no attempts.
  lemma NewJob(q: Queue, now: nat, op: Op, id: Hash)
    requires Unique(q) && !Has(q, id)
    ensures HandedOut(q, now, op) != Some(id)
    ensures Has(Do(q, now, op), id) ==> JobOf(Do(q, now, op), id).attempts == 0
  {
    var q' := Do(q, now, op);
    forall k | 0 <= k < |q| ensures q'[k].jobId == q[k].jobId != id {
      DoAt(q, now, op, k);
    }
    if Has(q', id) {
      assert op.Enqueue?;
    }
  }

  // While the lease runs, and nobody fails the job, no claim hands it out
  // again: it is still running as it was, or has succeeded.
  lemma {:induction false} LeaseHolds(q: Queue, ops: seq<Timed>, k: nat)
    requires Unique(q) && k < |q| && q[k].status.Running? && q[k].leaseUntil.Some?
    requires forall i :: 0 <= i < |ops| && ops[i].op.Claim? ==> ops[i].now < q[k].leaseUntil.value
    requires forall i :: 0 <= i < |ops| && ops[i].op.Fail? ==> ops[i].op.jobId != q[k].jobId
    ensures k < |Run(q, ops)| && Run(q, ops)[k].jobId == q[k].jobId
    ensures Run(q, ops)[k] == q[k] || Run(q, ops)[k].status.Succeeded?
    ensures forall i :: 0 <= i < |ops| ==> HandedOut(Run(q, ops[..i]), ops[i].now, ops[i].op) != Some(q[k].jobId)
  {
    if ops != [] {
      var front, last := ops[..|ops| - 1], ops[|ops| - 1];
      LeaseHolds(q, front, k);
      RunKeepsUnique(q, front);
      var before := Run(q, front);
      LeasedStays(before, last.now, last.op, k);
      forall i | 0 <= i < |ops| ensures HandedOut(Run(q, ops[..i]), ops[i].now, ops[i].op) != Some(q[k].jobId) {
        assert ops[..i] == if i < |front| then front[..i] else front;
      }
    }
  }

  lemma LeasedStays(q: Queue, now: nat, op: Op, k: nat)
    requires Unique(q) && k < |q|
    requires q[k].status.Succeeded? || (q[k].status.Running? && q[k].leaseUntil.Some? && (op.Claim? ==> now < q[k].leaseUntil.value))
    requires op.Fail? ==> op.jobId != q[k].jobId
    ensures HandedOut(q, now, op) != Some(q[k].jobId)
    ensures var q' := Do(q, now, op);
            k < |q'| && q'[k].jobId == q[k].jobId && (q'[k] == q[k] || q'[k].status.Succeeded?)
  {
    DoAt(q, now, op, k);
    match op
    case Claim(worker, leaseMs) =>
      var next := Next(Release(q, now));
      assert next.Some? ==> next.value != k;
    case Fail(id, _, _) => assert IndexOf(q, id) != k;
    case _ =>
  }

  // From the claim itself: for `leaseMs` the job is this worker's, and handed
  // to no one else unless somebody fails it; then, if it is still running, it
  // can be claimed again.
  lemma ClaimLeases(q: Queue, now: nat, worker: string, leaseMs: nat, ops: seq<Timed>, k: nat)
    requires Unique(q) && k < |q| && HandedOut(q, now, Claim(worker, leaseMs)) == Some(q[k].jobId)
    requires forall i :: 0 <= i < |ops| && ops[i].op.Claim? ==> ops[i].now < now + leaseMs
    requires forall i :: 0 <= i < |ops| && ops[i].op.Fail? ==> ops[i].op.jobId != q[k].jobId
    ensures var claimed := Do(q, now, Claim(worker, leaseMs));
            var after := Run(claimed, ops);
            && k < |claimed| && claimed[k].status.Running? && claimed[k].workerId == Some(worker)
            && claimed[k].attempts == q[k].attempts + 1
            && (forall i :: 0 <= i < |ops| ==> HandedOut(Run(claimed, ops[..i]), ops[i].now, ops[i].op) != Some(q[k].jobId))
            && k < |after| && (after[k] == claimed[k] || after[k].status.Succeeded?)
            && (after[k].status.Running? ==> forall later: nat :: Claimable(after, k, later) <==> later >= now + leaseMs)
  {
    var claimed := Do(q, now, Claim(worker, leaseMs));
    DoAt(q, now, Claim(worker, leaseMs), k);
    DoKeepsUnique(q, now, Claim(worker, leaseMs));
    assert claimed[k].leaseUntil == Some(now + leaseMs);
    hide Do, HandedOut, Unique, Started, Released;
    LeaseHolds(claimed, ops, k);
    if Run(claimed, ops)[k].status.Running? {
      forall later: nat ensures Claimable(Run(claimed, ops), k, later) <==> later >= now + leaseMs {
        LeaseOver(Run(claimed, ops), k, later);
      }
    }
  }

  lemma LeaseOver(q: Queue, k: nat, now: nat)
    requires k < |q| && q[k].status.Running? && q[k].leaseUntil.Some?
    ensures Claimable(q, k, now) <==> now >= q[k].leaseUntil.value
  {
  }

  // ---- What the others do ----

  // An unknown or failed blob is queued with the new reason and shards, keeping
  // its age and the attempts so far; any other is left as it is.
  lemma EnqueuedAs(q: Queue, now: nat, id: Hash, reason: string, missing: set<nat>)
    requires Unique(q)
    ensures var q' := Do(q, now, Enqueue(id, reason, missing));
            if id == ZeroHash || (Has(q, id) && !JobOf(q, id).status.Failed?) then q' == q
            else
              && Has(q', id)
              && var j := JobOf(q', id);
                 && j.status.Queued? && j.reason == reason && j.missingShards == missing && j.updatedAt == now
                 && j.leaseUntil.None? && j.lastError.None?
                 && (if Has(q, id)
                     then q' == q[IndexOf(q, id) := j] && j.attempts == JobOf(q, id).attempts && j.createdAt == JobOf(q, id).createdAt
                     else q' == q + [j] && j.attempts == 0 && j.createdAt == now)
  {
    var q' := Do(q, now, Enqueue(id, reason, missing));
    DoKeepsUnique(q, now, Enqueue(id, reason, missing));
    if id != ZeroHash {
      UniquePosition(q', id, IndexOf(q, id));
    }
  }

  // A completion and a failure touch their own job only, and only until it
  // has succeeded; a failed job goes back to the queue if it is to be retried.
  lemma EndedAs(q: Queue, now: nat, id: Hash, result: string, error: string, retry: bool)
    requires Has(q, id) && !JobOf(q, id).status.Succeeded?
    ensures var k, completed, failed := IndexOf(q, id), Do(q, now, Complete(id, result)), Do(q, now, Op.Fail(id, error, retry));
            && completed == q[k := completed[k]] && failed == q[k := failed[k]]
            && completed[k] == q[k].(status := Succeeded, result := Some(result), completedAt := Some(now), updatedAt := now,
                                     leaseUntil := None, lastError := None)
            && failed[k] == q[k].(status := if retry then Queued else Failed, updatedAt := now, leaseUntil := None, lastError := Some(error))
  {
  }

  // A job given up is handed to nobody until it is enqueued again.
  lemma {:induction false} GivenUp(q: Queue, ops: seq<Timed>, k: nat)
    requires Unique(q) && k < |q| && q[k].status.Failed?
    requires forall i :: 0 <= i < |ops| ==>
               match ops[i].op
               case Enqueue(id, _, _) => id != q[k].jobId
               case Fail(id, _, retry) => id != q[k].jobId || !retry
               case _ => true
    ensures k < |Run(q, ops)| && Run(q, ops)[k].jobId == q[k].jobId
    ensures Run(q, ops)[k].status.Failed? || Run(q, ops)[k].status.Succeeded?
    ensures forall i :: 0 <= i < |ops| ==> HandedOut(Run(q, ops[..i]), ops[i].now, ops[i].op) != Some(q[k].jobId)
  {
    if ops != [] {
      var front, last := ops[..|ops| - 1], ops[|ops| - 1];
      GivenUp(q, front, k);
      RunKeepsUnique(q, front);
      GivenUpStays(Run(q, front), last.now, last.op, k);
      forall i | 0 <= i < |ops| ensures HandedOut(Run(q, ops[..i]), ops[i].now, ops[i].op) != Some(q[k].jobId) {
        assert ops[..i] == if i < |front| then front[..i] else front;
      }
    }
  }

  lemma GivenUpStays(q: Queue, now: nat, op: Op, k: nat)
    requires Unique(q) && k < |q| && (q[k].status.Failed? || q[k].status.Succeeded?)
    requires match op
             case Enqueue(id, _, _) => id != q[k].jobId
             case Fail(id, _, retry) => id != q[k].jobId || !retry
             case _ => true
    ensures HandedOut(q, now, op) != Some(q[k].jobId)
    ensures var q' := Do(q, now, op);
            k < |q'| && q'[k].jobId == q[k].jobId && (q'[k].status.Failed? || q'[k].status.Succeeded?)
  {
    DoAt(q, now, op, k);
    match op
    case Claim(worker, leaseMs) =>
      var next := Next(Release(q, now));
      assert next.Some? ==> next.value != k;
    case _ =>
  }

  // ---- No job waits for ever ----

  // Queued, or running on a lease that is over.
  predicate Claimable(q: Queue, k: nat, now: nat)
    requires k < |q|
  {
    Released(q[k], now).status.Queued?
  }

  ghost function Ahead(q: Queue, k: nat, now: nat): set<nat>
    requires k < |q|
  {
    set i | 0 <= i < |q| && Claimable(q, i, now) && Before(q, i, k)
  }

  // One claim after the other, all at the same instant.
  function AfterClaims(q: Queue, claims: seq<(string, nat)>, now: nat): Queue
    decreases |claims|
  {
    if claims == [] then q else AfterClaims(AfterClaim(q, claims[0].0, claims[0].1, now).0, claims[1..], now)
  }

  // A claim takes one job from those ahead, or the job itself.
  lemma ClaimTakesOne(q: Queue, worker: string, leaseMs: nat, now: nat, k: nat)
    requires k < |q| && Claimable(q, k, now) && leaseMs >= 1
    ensures var (q', next) := AfterClaim(q, worker, leaseMs, now);
            && next.Some? && |q'| == |q|
            && (next.value != k ==>
                  Claimable(q', k, now) && next.value in Ahead(q, k, now) && Ahead(q', k, now) == Ahead(q, k, now) - {next.value})
  {
    var released := Release(q, now);
    var (q', next) := AfterClaim(q, worker, leaseMs, now);
    assert released[k].status.Queued?;
    var i := next.value;
    assert forall j :: 0 <= j < |q| && j != i ==> q'[j] == released[j] && Released(released[j], now) == released[j];
    assert forall j :: 0 <= j < |q| ==> q'[j].createdAt == q[j].createdAt;
    assert !Claimable(q', i, now);
    if i != k {
      assert Before(released, i, k);
    }
  }

  lemma {:induction false} ClaimedInTurn(q: Queue, claims: seq<(string, nat)>, now: nat, k: nat) returns (n: nat)
    requires k < |q| && Claimable(q, k, now) && |Ahead(q, k, now)| < |claims|
    requires forall i :: 0 <= i < |claims| ==> claims[i].1 >= 1
    ensures n <= |Ahead(q, k, now)|
    ensures AfterClaim(AfterClaims(q, claims[..n], now), claims[n].0, claims[n].1, now).1 == Some(k)
    decreases |Ahead(q, k, now)|
  {
    hide Claimable, Ahead, AfterClaim;
    ClaimTakesOne(q, claims[0].0, claims[0].1, now, k);
    var (q', next) := AfterClaim(q, claims[0].0, claims[0].1, now);
    if next.value == k {
      n := 0;
      assert claims[..0] == [];
    } else {
      var m := ClaimedInTurn(q', claims[1..], now, k);
      n := m + 1;
      assert claims[..n][1..] == claims[1..][..m];
    }
  }

  // Any job that is queued, or whose lease is over, is handed out within as
  // many successive claims as there are jobs.
  lemma ClaimedWithinQueueLength(q: Queue, claims: seq<(string, nat)>, now: nat, k: nat) returns (n: nat)
    requires k < |q| && Claimable(q, k, now) && |claims| >= |q|
    requires forall i :: 0 <= i < |claims| ==> claims[i].1 >= 1
    ensures n < |q|
    ensures AfterClaim(AfterClaims(q, claims[..n], now), claims[n].0, claims[n].1, now).1 == Some(k)
  {
    var rest := Below(|q|) - {k};
    assert Below(|q|) == rest + {k};
    BelowSize(|q|);
    SubsetSize(Ahead(q, k, now), rest);
    n := ClaimedInTurn(q, claims, now, k);
  }

  // ---- No job is lost ----

  // Succeeded, waiting, or running on a lease that will end.
  predicate Alive(j: Job) {
    j.status.Succeeded? || j.status.Queued? || (j.status.Running? && j.leaseUntil.Some?)
  }

  lemma {:induction false} NoJobIsLost(ops: seq<Timed>)
    requires forall i :: 0 <= i < |ops| && ops[i].op.Fail? ==> ops[i].op.retry
    ensures forall k :: 0 <= k < |Run([], ops)| ==> Alive(Run([], ops)[k])
  {
    if ops != [] {
      var front, last := ops[..|ops| - 1], ops[|ops| - 1];
      NoJobIsLost(front);
      var before, after := Run([], front), Run([], ops);
      forall k | 0 <= k < |after| ensures Alive(after[k]) {
        if k < |before| {
          assert Alive(before[k]);
        }
      }
    }
  }

  // Once enqueued a job is there for good: it has succeeded, or it can be
  // claimed as soon as its present lease, if any, is over.
  lemma EnqueuedIsServed(ops: seq<Timed>, id: Hash, now: nat)
    requires forall i :: 0 <= i < |ops| && ops[i].op.Fail? ==> ops[i].op.retry
    requires Has(Run([], ops), id)
    ensures var q := Run([], ops);
            var k := IndexOf(q, id);
            && (q[k].status.Succeeded? || ((q[k].leaseUntil.Some? ==> q[k].leaseUntil.value <= now) ==> Claimable(q, k, now)))
  {
    NoJobIsLost(ops);
    assert Alive(Run([], ops)[IndexOf(Run([], ops), id)]);
  }

  // ---- The store ----

  class JsonOperationalStore {
    var recoveryJobs: Queue

    constructor ()
      ensures recoveryJobs == [] && Unique(recoveryJobs)
    {
      recoveryJobs := [];
    }

    method EnqueueRecovery(now: nat, blobId: Hash, reason: string, missingShards: set<nat>) returns (r: Result<Job, QueueError>)
      modifies this
      ensures recoveryJobs == Do(old(recoveryJobs), now, Enqueue(blobId, reason, missingShards))
      ensures r == if blobId == ZeroHash then Err(BlobIdRequired)
                   else if Has(recoveryJobs, blobId) then Ok(JobOf(recoveryJobs, blobId)) else Err(JobNotFound)
    {
      if blobId == ZeroHash {
        return Err(BlobIdRequired);
      }
      var k := IndexOf(recoveryJobs, blobId);
      var job: Job;
      if k < |recoveryJobs| {
        var current := recoveryJobs[k];
        if !current.status.Failed? {
          return Ok(current);
        }
        job := current.(status := Queued, reason := reason, missingShards := missingShards, updatedAt := now,
                        leaseUntil := None, lastError := None);
        recoveryJobs := recoveryJobs[k := job];
      } else {
        job := Job(blobId, Queued, reason, missingShards, 0, now, now, None, None, None, None, None);
        recoveryJobs := recoveryJobs + [job];
      }
      FoundAt(recoveryJobs, blobId, k);
      r := Ok(job);
    }

    method ClaimRecovery(now: nat, workerId: string, leaseMs: nat) returns (r: Result<Option<Job>, QueueError>)
      modifies this
      ensures recoveryJobs == Do(old(recoveryJobs), now, Claim(workerId, leaseMs))
      ensures if leaseMs < 1 then r == Err(InvalidLease)
              else
                var next := AfterClaim(old(recoveryJobs), workerId, leaseMs, now).1;
                r == Ok(if next.Some? && next.value < |recoveryJobs| then Some(recoveryJobs[next.value]) else None)
    {
      if leaseMs < 1 {
        return Err(InvalidLease);
      }
      ghost var before := recoveryJobs;
      for i := 0 to |recoveryJobs|
        invariant |recoveryJobs| == |before|
        invariant forall j :: 0 <= j < i ==> recoveryJobs[j] == Released(before[j], now)
        invariant forall j :: i <= j < |before| ==> recoveryJobs[j] == before[j]
      {
        var job := recoveryJobs[i];
        if job.status.Running? && job.leaseUntil.Some? && job.leaseUntil.value <= now {
          recoveryJobs := recoveryJobs[i := job.(status := Queued, leaseUntil := None, updatedAt := now)];
        }
      }
      assert recoveryJobs == Release(before, now);
      var next := Next(recoveryJobs);
      if next.None? {
        return Ok(None);
      }
      var job := recoveryJobs[next.value];
      job := job.(status := Running, workerId := Some(workerId), attempts := job.attempts + 1, updatedAt := now,
                  leaseUntil := Some(now + leaseMs));
      recoveryJobs := recoveryJobs[next.value := job];
      r := Ok(Some(job));
    }

    method CompleteRecovery(now: nat, jobId: Hash, result: string) returns (r: Result<Job, QueueError>)
      modifies this
      ensures recoveryJobs == Do(old(recoveryJobs), now, Complete(jobId, result))
      ensures r == if Has(recoveryJobs, jobId) then Ok(JobOf(recoveryJobs, jobId)) else Err(JobNotFound)
    {
      var k := IndexOf(recoveryJobs, jobId);
      if k == |recoveryJobs| {
        return Err(JobNotFound);
      }
      var job := recoveryJobs[k];
      if job.status.Succeeded? {
        return Ok(job);
      }
      job := job.(status := Succeeded, result := Some(result), completedAt := Some(now), updatedAt := now,
                  leaseUntil := None, lastError := None);
      recoveryJobs := recoveryJobs[k := job];
      FoundAt(recoveryJobs, jobId, k);
      r := Ok(job);
    }

    method FailRecovery(now: nat, jobId: Hash, error: string, retry: bool) returns (r: Result<Job, QueueError>)
      modifies this
      ensures recoveryJobs == Do(old(recoveryJobs), now, Op.Fail(jobId, error, retry))
      ensures r == if Has(recoveryJobs, jobId) then Ok(JobOf(recoveryJobs, jobId)) else Err(JobNotFound)
    {
      var k := IndexOf(recoveryJobs, jobId);
      if k == |recoveryJobs| {
        return Err(JobNotFound);
      }
      var job := recoveryJobs[k];
      if job.status.Succeeded? {
        return Ok(job);
      }
      job := job.(status := if retry then Queued else Failed, updatedAt := now, leaseUntil := None, lastError := Some(error));
      recoveryJobs := recoveryJobs[k := job];
      FoundAt(recoveryJobs, jobId, k);
      r := Ok(job);
    }
  }

  lemma FoundAt(q: Queue, id: Hash, k: nat)
    requires k < |q| && q[k].jobId == id && forall j :: 0 <= j < k ==> q[j].jobId != id
    ensures IndexOf(q, id) == k
  {
  }

  // ---- The worker ----

  datatype Processed = Processed(job: Job, outcome: Result<string, string>)

  // Claim a job, run it, and complete it or put it back. `handler` is what the
  // recovery does for a blob; `took` is how long it takes.
  method ProcessNext(
    store: JsonOperationalStore, now: nat, took: nat, workerId: string, leaseMs: nat, handler: Hash -> Result<string, string>
  ) returns (r: Result<Option<Processed>, QueueError>)
    requires Unique(store.recoveryJobs)
    modifies store
    ensures Unique(store.recoveryJobs)
    ensures var q := old(store.recoveryJobs);
            var id := HandedOut(q, now, Claim(workerId, leaseMs));
            if leaseMs < 1 then r == Err(InvalidLease) && store.recoveryJobs == q
            else if id.None? then r == Ok(None)
            else
              var outcome := handler(id.value);
              && store.recoveryJobs == Run(q, [Timed(now, Claim(workerId, leaseMs)), Timed(now + took, Ending(id.value, outcome))])
              && Has(store.recoveryJobs, id.value)
              && JobOf(store.recoveryJobs, id.value).status == (if outcome.Ok? then Succeeded else Queued)
              && r == Ok(Some(Processed(JobOf(store.recoveryJobs, id.value), outcome)))
  {
    ghost var q, claim := store.recoveryJobs, Claim(workerId, leaseMs);
    DoKeepsUnique(q, now, claim);
    var claimed := store.ClaimRecovery(now, workerId, leaseMs);
    if claimed.Err? {
      return Err(claimed.error);
    }
    if claimed.value.None? {
      return Ok(None);
    }
    var id := claimed.value.value.jobId;
    ghost var q1 := store.recoveryJobs;
    ClaimHandsOut(q, now, workerId, leaseMs);
    var outcome := handler(id);
    RunTwo(q, Timed(now, claim), Timed(now + took, Ending(id, outcome)));
    DoKeepsUnique(q1, now + took, Ending(id, outcome));
    Ends(q1, now + took, id, outcome);
    var ended;
    if outcome.Ok? {
      ended := store.CompleteRecovery(now + took, id, outcome.value);
    } else {
      ended := store.FailRecovery(now + took, id, outcome.error, true);
    }
    r := Ok(Some(Processed(ended.value, outcome)));
  }

  function Ending(id: Hash, outcome: Result<string, string>): Op {
    if outcome.Ok? then Complete(id, outcome.value) else Op.Fail(id, outcome.error, true)
  }

  lemma RunTwo(q: Queue, a: Timed, b: Timed)
    ensures Run(q, [a, b]) == Do(Do(q, a.now, a.op), b.now, b.op)
  {
    hide Do;
    assert [a, b][..1] == [a] && [a][..0] == [];
    assert Run(q, [a]) == Do(q, a.now, a.op);
  }

  // The job that is handed out is running afterwards.
  lemma ClaimHandsOut(q: Queue, now: nat, worker: string, leaseMs: nat)
    requires Unique(q) && leaseMs >= 1
    ensures var (q', next) := AfterClaim(q, worker, leaseMs, now);
            next.Some? ==>
              && next.value < |q'| && HandedOut(q, now, Claim(worker, leaseMs)) == Some(q'[next.value].jobId)
              && q'[next.value].status.Running? && Has(q', q'[next.value].jobId) && IndexOf(q', q'[next.value].jobId) == next.value
  {
    var (q', next) := AfterClaim(q, worker, leaseMs, now);
    DoKeepsUnique(q, now, Claim(worker, leaseMs));
    if next.Some? {
      UniquePosition(q', q'[next.value].jobId, next.value);
    }
  }

  lemma Ends(q: Queue, now: nat, id: Hash, outcome: Result<string, string>)
    requires Unique(q) && Has(q, id) && q[IndexOf(q, id)].status.Running?
    ensures var q' := Do(q, now, Ending(id, outcome));
            Has(q', id) && JobOf(q', id).status == if outcome.Ok? then Succeeded else Queued
  {
    DoKeepsUnique(q, now, Ending(id, outcome));
    UniquePosition(Do(q, now, Ending(id, outcome)), id, IndexOf(q, id));
  }
}
