// What holds of one blob's slots after every entry point: shard placement and
// acknowledgement counting, and the settlement accounts.
module BlobInvariants {
  import opened Prelude
  import opened Quote
  import opened Blob

  // ---- The invariant ----

  ghost predicate Geometry(e: Entry) {
    && 1 <= e.terms.dataShards <= e.terms.totalShards
    && e.terms.size > 0
    && e.status != Revoked
  }

  // Placements and acknowledgements name shards of the blob; the counter is
  // the number of acknowledged (provider, shard) pairs.
  ghost predicate Counted(e: Entry) {
    && e.placement.Keys <= Below(e.terms.totalShards)
    && (forall i :: i in e.placement ==> e.placement[i] > 0)
    && (forall k :: k in e.acks ==> k.1 < e.terms.totalShards)
    && e.ackCount == |e.acks.Keys|
  }

  // Until finalization nothing is reassigned, so only placed providers have
  // acknowledged; from finalization on every shard is placed, and while Active
  // the current placements are all acknowledged.
  ghost predicate Placed(e: Entry) {
    && (e.status.Pending? ==> forall k :: k in e.acks ==> k.1 in e.placement && e.placement[k.1] == k.0)
    && (!e.status.Pending? ==> e.placement.Keys == Below(e.terms.totalShards))
    && (e.status.Active? ==> forall i :: 0 <= i < e.terms.totalShards ==> Acked(e.placement, e.acks, i))
  }

  function Gross(e: Entry): nat {
    if e.terms.totalShards == 0 then 0 else e.payment.providerPool / e.terms.totalShards
  }

  function ReserveShare(e: Entry): int {
    Gross(e) - e.payment.rewardPerShard
  }

  // The two markers nest, and the settled amount is what they say.
  ghost predicate Accounts(e: Entry) {
    var p := e.payment;
    && e.reserve <= e.immediate <= Below(e.terms.totalShards)
    && p.providerPool == Gross(e) * e.terms.totalShards
    && ReserveShare(e) >= 1
    && p.totalPaid == p.providerPool + p.protocolFee
    && e.terms.expiresAt > 0
    && p.providerSettled == p.rewardPerShard * |e.immediate| + ReserveShare(e) * |e.reserve|
  }

  // Payment status and blob status move in lockstep.
  ghost predicate Lockstep(e: Entry) {
    var p := e.payment;
    match p.status
    case NoPayment => p == NO_PAYMENT && e.immediate == {} && e.reserve == {}
    case Escrowed => Accounts(e) && e.status.Pending? && e.immediate == {}
    case Refunded => Accounts(e) && e.immediate == {}
    case Claimable => Accounts(e) && !e.status.Pending? && e.immediate == {}
    case PartiallySettled => Accounts(e) && !e.status.Pending? && 0 < p.providerSettled < p.providerPool
    case Settled => Accounts(e) && !e.status.Pending? && e.reserve == Below(e.terms.totalShards)
  }

  // The shard side of the invariant; the account side does not depend on it.
  ghost predicate Shards(e: Entry) {
    Geometry(e) && Counted(e) && Placed(e)
  }

  ghost predicate Sound(e: Entry) {
    Shards(e) && Lockstep(e)
  }

  lemma AccountsFrame(e: Entry, after: Entry)
    requires Lockstep(e) && after.terms == e.terms && after.payment == e.payment
    requires after.immediate == e.immediate && after.reserve == e.reserve
    requires after.status.Pending? == e.status.Pending?
    ensures Lockstep(after)
  {
    assert Gross(after) == Gross(e);
  }

  lemma ShardsFrame(e: Entry, after: Entry)
    requires Shards(e) && after.terms == e.terms && after.status == e.status && after.ackCount == e.ackCount
    requires after.placement == e.placement && after.acks == e.acks
    ensures Shards(after)
  {
  }

  // ---- Finalization: a pigeonhole argument ----

  // The shards whose placed provider has acknowledged.
  ghost function AcknowledgedShards(e: Entry): set<nat> {
    set i | i in e.placement && Acked(e.placement, e.acks, i)
  }

  lemma {:induction false} PairsProjectInjectively(pairs: set<(nat, nat)>, placement: map<nat, nat>)
    requires forall k :: k in pairs ==> k.1 in placement && placement[k.1] == k.0
    ensures |set k | k in pairs :: k.1| == |pairs|
    decreases |pairs|
  {
    var shards := set k | k in pairs :: k.1;
    if pairs == {} {
      assert shards == {};
    } else {
      var k :| k in pairs;
      var rest := pairs - {k};
      PairsProjectInjectively(rest, placement);
      var fewer := set j | j in rest :: j.1;
      assert k.1 !in fewer;
      assert shards == fewer + {k.1};
    }
  }

  // While Pending the counter counts shards, not just pairs.
  lemma CounterCountsShards(e: Entry)
    requires Shards(e) && e.status.Pending?
    ensures e.ackCount == |AcknowledgedShards(e)|
    ensures AcknowledgedShards(e) <= Below(e.terms.totalShards)
  {
    PairsProjectInjectively(e.acks.Keys, e.placement);
    var shards := set k | k in e.acks.Keys :: k.1;
    forall i | i in AcknowledgedShards(e) ensures i in shards {
      assert (e.placement[i], i) in e.acks.Keys;
    }
    assert shards == AcknowledgedShards(e);
  }

  // Finalization succeeds exactly when every shard is placed and acknowledged
  // by its placed provider.
  lemma FinalizeNeedsEveryShard(e: Entry)
    requires Shards(e) && e.status.Pending?
    ensures Finalize(e).Ok? <==> forall i :: 0 <= i < e.terms.totalShards ==> Acked(e.placement, e.acks, i)
  {
    var n := e.terms.totalShards;
    CounterCountsShards(e);
    BelowSize(n);
    SubsetSize(AcknowledgedShards(e), Below(n));
    assert Finalize(e).Ok? <==> AcknowledgedShards(e) == Below(n);
    if AcknowledgedShards(e) == Below(n) {
      forall i | 0 <= i < n ensures Acked(e.placement, e.acks, i) {
        assert i in AcknowledgedShards(e);
      }
    }
    if forall i :: 0 <= i < n ==> Acked(e.placement, e.acks, i) {
      forall i | i in Below(n) ensures i in AcknowledgedShards(e) {
        assert Acked(e.placement, e.acks, i);
      }
    }
  }

  // ---- Settlement arithmetic ----

  lemma SettledBound(reward: nat, reserve: nat, i: nat, r: nat, n: nat)
    requires r <= i <= n && reserve >= 1
    ensures reward * i + reserve * r <= (reward + reserve) * n
    ensures reward * i + reserve * r == (reward + reserve) * n <==> r == n
  {
    assert (reward + reserve) * n == reward * n + reserve * n;
    MulMono(i, n, reward);
    if r < n {
      MulMono(r + 1, n, reserve);
      assert reserve * (r + 1) == reserve * r + reserve;
    }
  }

  // The pool is never exceeded and is used up exactly when every reserve is paid.
  lemma PoolUsedUpByReserves(e: Entry)
    requires Accounts(e)
    ensures e.payment.providerSettled <= e.payment.providerPool
    ensures e.payment.providerSettled == e.payment.providerPool <==> e.reserve == Below(e.terms.totalShards)
  {
    var n := e.terms.totalShards;
    BelowSize(n);
    SubsetSize(e.reserve, e.immediate);
    SubsetSize(e.immediate, Below(n));
    SubsetSize(e.reserve, Below(n));
    SettledBound(e.payment.rewardPerShard, ReserveShare(e), |e.immediate|, |e.reserve|, n);
    assert e.payment.rewardPerShard + ReserveShare(e) == Gross(e);
  }

  // ---- The claim loop is a function of the set of indices ----

  predicate Payable(e: Entry, pid: nat, i: nat) {
    i < e.terms.totalShards && i in e.placement && e.placement[i] == pid && (pid, i) in e.acks
  }

  ghost predicate AllPayable(e: Entry, pid: nat, shards: set<nat>) {
    forall i :: i in shards ==> Payable(e, pid, i)
  }

  function IndexSet(indices: seq<uint8>): set<nat> {
    set k | 0 <= k < |indices| :: indices[k] as nat
  }

  lemma IndexSetAppend(front: seq<uint8>, last: uint8)
    ensures IndexSet(front + [last]) == IndexSet(front) + {last as nat}
  {
    var whole := front + [last];
    forall i | i in IndexSet(front) + {last as nat} ensures i in IndexSet(whole) {
      if i == last {
        assert whole[|front|] == last;
      } else {
        var k :| 0 <= k < |front| && front[k] as nat == i;
        assert whole[k] as nat == i;
      }
    }
  }

  ghost function MarkAll(e: Entry, perShard: nat, now: nat, shards: set<nat>): Marks {
    var due := now >= e.terms.expiresAt;
    Marks(e.immediate + shards, if due then e.reserve + shards else e.reserve,
          e.payment.rewardPerShard * |shards - e.immediate|,
          if due then perShard * |shards - e.reserve| else 0)
  }

  lemma AddOne(s: set<nat>, marked: set<nat>, i: nat, unit: nat)
    ensures unit * |s + {i} - marked| == unit * |s - marked| + if i in marked + s then 0 else unit
  {
    if i in marked + s {
      assert s + {i} - marked == s - marked;
    } else {
      assert s + {i} - marked == (s - marked) + {i};
      MulAdd(unit, |s - marked|, 1);
    }
  }

  // One turn, as sums and unions.
  lemma ClaimOneAdds(e: Entry, pid: nat, perShard: nat, now: nat, m: Marks, i: uint8)
    ensures var turn, due := ClaimOne(e, pid, perShard, now, m, i), now >= e.terms.expiresAt;
            if Payable(e, pid, i) then
              turn == Ok(Marks(m.immediate + {i as nat}, if due then m.reserve + {i as nat} else m.reserve,
                               m.amount + (if i in m.immediate then 0 else e.payment.rewardPerShard),
                               m.reserveAmount + (if due && i !in m.reserve then perShard else 0)))
            else turn.Err?
  {
    assert i in m.immediate ==> m.immediate + {i as nat} == m.immediate;
    assert i in m.reserve ==> m.reserve + {i as nat} == m.reserve;
  }

  // One more shard in the closed form.
  lemma MarkOneMore(e: Entry, perShard: nat, now: nat, s: set<nat>, i: nat)
    ensures var m, due := MarkAll(e, perShard, now, s), now >= e.terms.expiresAt;
            MarkAll(e, perShard, now, s + {i})
            == Marks(m.immediate + {i}, if due then m.reserve + {i} else m.reserve,
                     m.amount + (if i in m.immediate then 0 else e.payment.rewardPerShard),
                     m.reserveAmount + (if due && i !in m.reserve then perShard else 0))
  {
    hide MarkAll;
    ImmediateOneMore(e, perShard, now, s, i);
    ReserveOneMore(e, perShard, now, s, i);
  }

  lemma ImmediateOneMore(e: Entry, perShard: nat, now: nat, s: set<nat>, i: nat)
    ensures var m, m' := MarkAll(e, perShard, now, s), MarkAll(e, perShard, now, s + {i});
            && m'.immediate == m.immediate + {i}
            && m'.amount == m.amount + if i in m.immediate then 0 else e.payment.rewardPerShard
  {
    AddOne(s, e.immediate, i, e.payment.rewardPerShard);
    assert e.immediate + (s + {i}) == e.immediate + s + {i};
  }

  lemma ReserveOneMore(e: Entry, perShard: nat, now: nat, s: set<nat>, i: nat)
    ensures var m, m', due := MarkAll(e, perShard, now, s), MarkAll(e, perShard, now, s + {i}), now >= e.terms.expiresAt;
            && m'.reserve == (if due then m.reserve + {i} else m.reserve)
            && m'.reserveAmount == m.reserveAmount + if due && i !in m.reserve then perShard else 0
  {
    AddOne(s, e.reserve, i, perShard);
    assert e.reserve + (s + {i}) == e.reserve + s + {i};
  }

  // One turn of the loop adds one shard to the set already marked.
  lemma ClaimOneMarksOne(e: Entry, pid: nat, perShard: nat, now: nat, s: set<nat>, i: uint8)
    ensures var turn := ClaimOne(e, pid, perShard, now, MarkAll(e, perShard, now, s), i);
            if Payable(e, pid, i) then turn == Ok(MarkAll(e, perShard, now, s + {i})) else turn.Err?
  {
    hide ClaimOne, MarkAll, Payable;
    ClaimOneAdds(e, pid, perShard, now, MarkAll(e, perShard, now, s), i);
    MarkOneMore(e, perShard, now, s, i);
  }

  lemma {:induction false} ClaimLoopIsASetFunction(e: Entry, pid: nat, perShard: nat, now: nat, indices: seq<uint8>)
    ensures ClaimLoop(e, pid, perShard, now, indices).Ok? <==> forall i :: i in IndexSet(indices) ==> Payable(e, pid, i)
    ensures ClaimLoop(e, pid, perShard, now, indices).Ok? ==>
              ClaimLoop(e, pid, perShard, now, indices).value == MarkAll(e, perShard, now, IndexSet(indices))
  {
    if indices == [] {
      NothingMarked(e, perShard, now);
    } else {
      var front, last := indices[..|indices| - 1], indices[|indices| - 1];
      ClaimLoopIsASetFunction(e, pid, perShard, now, front);
      IndexSetAppend(front, last);
      assert indices == front + [last];
      ClaimOneMarksOne(e, pid, perShard, now, IndexSet(front), last);
    }
  }

  lemma NothingMarked(e: Entry, perShard: nat, now: nat)
    ensures MarkAll(e, perShard, now, {}) == Marks(e.immediate, e.reserve, 0, 0)
  {
    assert {} - e.immediate == {} && {} - e.reserve == {};
    assert e.immediate + {} == e.immediate && e.reserve + {} == e.reserve;
  }

  // ---- One claim ----

  // What a claim by `pid` over `shards` pays: the shards not yet marked, and
  // after expiry their reserves.
  ghost function AmountFor(e: Entry, now: nat, shards: set<nat>): int {
    e.payment.rewardPerShard * |shards - e.immediate|
    + (if now >= e.terms.expiresAt then ReserveShare(e) * |shards - e.reserve| else 0)
  }

  lemma MarkedSize(a: set<nat>, b: set<nat>)
    ensures |a + b| == |a| + |b - a|
  {
    assert a + b == a + (b - a);
  }

  // Who may claim, and what for.
  ghost predicate ClaimAllowed(e: Entry, pid: nat, shards: set<nat>, now: nat) {
    ClaimOpen(e) && AllPayable(e, pid, shards) && AmountFor(e, now, shards) > 0
  }

  // The slots after an allowed claim.
  ghost function AfterClaim(e: Entry, shards: set<nat>, now: nat): Entry
    requires Accounts(e)
  {
    Settle(e, MarkAll(e, ReserveShare(e), now, shards), e.payment.providerSettled + AmountFor(e, now, shards), now)
  }

  // Before expiry no reserve has been paid.
  ghost predicate Timely(e: Entry, now: nat) {
    now < e.terms.expiresAt ==> e.reserve == {}
  }

  // Marking `shards` pays for the newly marked.
  lemma UnitsAdd(unit: nat, marked: set<nat>, shards: set<nat>)
    ensures unit * |marked + shards| == unit * |marked| + unit * |shards - marked|
  {
    MarkedSize(marked, shards);
    MulAdd(unit, |marked|, |shards - marked|);
  }

  // The fields a claim writes, and those it leaves.
  lemma AfterClaimFields(e: Entry, shards: set<nat>, now: nat)
    requires Accounts(e)
    ensures var after, p := AfterClaim(e, shards, now), AfterClaim(e, shards, now).payment;
            && after.terms == e.terms && after.placement == e.placement && after.acks == e.acks && after.status == e.status
            && after.immediate == e.immediate + shards
            && after.reserve == (if now >= e.terms.expiresAt then e.reserve + shards else e.reserve)
            && p.providerSettled == e.payment.providerSettled + AmountFor(e, now, shards)
            && p.providerPool == e.payment.providerPool && p.rewardPerShard == e.payment.rewardPerShard
            && p.totalPaid == e.payment.totalPaid && p.protocolFee == e.payment.protocolFee
            && p.status == (if p.providerSettled == p.providerPool then Settled else PartiallySettled)
            && Gross(after) == Gross(e) && ReserveShare(after) == ReserveShare(e)
  {
    hide Accounts, AmountFor;
  }

  // The settled amount follows the markers.
  lemma SettledFollowsMarkers(e: Entry, now: nat, shards: set<nat>)
    requires Accounts(e)
    ensures var share := ReserveShare(e);
            e.payment.providerSettled + AmountFor(e, now, shards)
            == e.payment.rewardPerShard * |e.immediate + shards|
               + share * |if now >= e.terms.expiresAt then e.reserve + shards else e.reserve|
  {
    var reward, share: nat := e.payment.rewardPerShard, ReserveShare(e);
    assert e.payment.providerSettled == reward * |e.immediate| + share * |e.reserve|;
    hide Accounts, ReserveShare;
    UnitsAdd(reward, e.immediate, shards);
    UnitsAdd(share, e.reserve, shards);
  }

  // The accounts balance after a claim, so neither checked subtraction nor the
  // pool check can fail.
  lemma ClaimKeepsAccounts(e: Entry, now: nat, shards: set<nat>)
    requires Accounts(e) && shards <= Below(e.terms.totalShards)
    requires Timely(e, now)
    ensures Accounts(AfterClaim(e, shards, now))
  {
    hide AfterClaim, AmountFor, Below, ReserveShare, Gross;
    AfterClaimFields(e, shards, now);
    SettledFollowsMarkers(e, now, shards);
  }

  // The status a claim leaves follows from the amount it leaves settled.
  lemma ClaimedIsInLockstep(after: Entry)
    requires Accounts(after) && !after.status.Pending? && after.payment.providerSettled > 0
    requires after.payment.status == if after.payment.providerSettled == after.payment.providerPool then Settled else PartiallySettled
    ensures Lockstep(after)
  {
    PoolUsedUpByReserves(after);
  }

  lemma ClaimLeavesShards(e: Entry, shards: set<nat>, now: nat)
    requires Accounts(e) && Shards(e)
    ensures Shards(AfterClaim(e, shards, now))
  {
    hide Accounts, Shards, AmountFor, MarkAll;
    ShardsFrame(e, AfterClaim(e, shards, now));
  }

  lemma ClaimLeavesLockstep(e: Entry, shards: set<nat>, now: nat)
    requires Accounts(e) && Accounts(AfterClaim(e, shards, now)) && !e.status.Pending?
    requires AmountFor(e, now, shards) > 0
    ensures Lockstep(AfterClaim(e, shards, now))
  {
    hide Accounts, AmountFor, MarkAll, Lockstep;
    ClaimedIsInLockstep(AfterClaim(e, shards, now));
  }

  lemma AfterClaimIsSound(e: Entry, pid: nat, shards: set<nat>, now: nat)
    requires Sound(e) && Timely(e, now) && ClaimAllowed(e, pid, shards, now)
    ensures Sound(AfterClaim(e, shards, now))
  {
    assert shards <= Below(e.terms.totalShards);
    hide Accounts, Shards, AmountFor, MarkAll, AfterClaim, Timely, Below;
    ClaimLeavesShards(e, shards, now);
    ClaimKeepsAccounts(e, now, shards);
    ClaimLeavesLockstep(e, shards, now);
  }

  lemma AfterClaimIsCovered(e: Entry, pid: nat, shards: set<nat>, now: nat)
    requires Sound(e) && Timely(e, now) && ClaimAllowed(e, pid, shards, now)
    ensures Timely(AfterClaim(e, shards, now), now)
    ensures e.payment.providerSettled + AmountFor(e, now, shards) <= e.payment.providerPool
  {
    assert shards <= Below(e.terms.totalShards);
    hide Accounts, Shards, AmountFor, Below;
    ClaimKeepsAccounts(e, now, shards);
    PoolUsedUpByReserves(AfterClaim(e, shards, now));
  }

  // A claim is its guards, the loop's closed form, and the checks after it.
  lemma ClaimUnfolds(e: Entry, pid: nat, perShard: nat, indices: seq<uint8>, now: nat)
    requires ClaimOpen(e) && ReservePerShard(e) == Ok(perShard)
    ensures indices == [] ==> Claim(e, Ok(pid), indices, now) == Err(Error.ShardsRequired)
    ensures indices != [] && !AllPayable(e, pid, IndexSet(indices)) ==>
              var loop := ClaimLoop(e, pid, perShard, now, indices);
              loop.Err? && Claim(e, Ok(pid), indices, now) == Err(loop.error)
    ensures indices != [] && AllPayable(e, pid, IndexSet(indices)) ==>
              Claim(e, Ok(pid), indices, now) == Conclude(e, pid, MarkAll(e, perShard, now, IndexSet(indices)), now)
  {
    ClaimLoopIsASetFunction(e, pid, perShard, now, indices);
    hide MarkAll, Payable, IndexSet, ReservePerShard, ClaimLoop, Conclude;
  }

  // A failed turn of the loop names a shard, never an arithmetic fault.
  lemma {:induction false} LoopFaults(e: Entry, pid: nat, perShard: nat, now: nat, indices: seq<uint8>)
    ensures var r := ClaimLoop(e, pid, perShard, now, indices);
            r.Err? ==> r.error in {InvalidShardIndex, ProviderNotAssigned, ShardNotAcknowledged}
  {
    if indices != [] {
      LoopFaults(e, pid, perShard, now, indices[..|indices| - 1]);
    }
  }

  // The closed form of a successful claim.
  ghost function Receipt(e: Entry, pid: nat, shards: set<nat>, now: nat): Claimed
    requires Accounts(e)
  {
    var after := AfterClaim(e, shards, now);
    Claimed(after, pid, shards - e.immediate, if now >= e.terms.expiresAt then shards - e.reserve else {},
            AmountFor(e, now, shards), if after.payment.status.Settled? then e.payment.protocolFee else 0)
  }

  lemma MarkAllMarks(e: Entry, shards: set<nat>, now: nat)
    requires Accounts(e)
    ensures var m := MarkAll(e, ReserveShare(e), now, shards);
            && m.amount + m.reserveAmount == AmountFor(e, now, shards)
            && m.immediate - e.immediate == shards - e.immediate
            && m.reserve - e.reserve == (if now >= e.terms.expiresAt then shards - e.reserve else {})
    ensures shards == {} ==> AmountFor(e, now, shards) == 0
    ensures AmountFor(e, now, shards) >= 0
  {
    assert shards == {} ==> shards - e.immediate == {} && shards - e.reserve == {};
  }

  // The checks after the loop never fail for want of pool.
  lemma ConcludeAllowed(e: Entry, pid: nat, shards: set<nat>, now: nat)
    requires Accounts(e) && ClaimOpen(e)
    requires e.payment.providerSettled + AmountFor(e, now, shards) <= e.payment.providerPool
    ensures var c := Conclude(e, pid, MarkAll(e, ReserveShare(e), now, shards), now);
            if AmountFor(e, now, shards) == 0 then c == Err(SettlementEmpty) else c == Ok(Receipt(e, pid, shards, now))
  {
    MarkAllMarks(e, shards, now);
    assert AmountFor(e, now, shards) == 0 || AmountFor(e, now, shards) > 0;
    hide Accounts, AmountFor, MarkAll, ReserveShare;
  }

  // Exactly which claims succeed, and what they do. In particular the reserve
  // subtraction never underflows and the pool is never exhausted.
  lemma ClaimOutcome(e: Entry, pid: nat, indices: seq<uint8>, now: nat)
    requires Sound(e) && Timely(e, now)
    ensures var c := Claim(e, Ok(pid), indices, now);
            && c != Err(ArithmeticPanic) && c != Err(PoolExhausted)
            && (c.Ok? <==> ClaimAllowed(e, pid, IndexSet(indices), now))
            && (c.Ok? ==> Accounts(e) && c.value == Receipt(e, pid, IndexSet(indices), now))
  {
    var shards := IndexSet(indices);
    if ClaimOpen(e) {
      assert Accounts(e);
      assert ReservePerShard(e) == Ok(ReserveShare(e));
      assert indices == [] ==> shards == {};
      MarkAllMarks(e, shards, now);
      hide Accounts, Shards, AmountFor, MarkAll, IndexSet, Payable, ReserveShare, Lockstep, Timely, ReservePerShard, ClaimLoop,
        Claim, Receipt, Conclude;
      ClaimUnfolds(e, pid, ReserveShare(e), indices, now);
      LoopFaults(e, pid, ReserveShare(e), now, indices);
      if AllPayable(e, pid, shards) && indices != [] {
        if ClaimAllowed(e, pid, shards, now) {
          AfterClaimIsCovered(e, pid, shards, now);
        } else {
          NothingStillCovered(e, shards, now);
        }
        ConcludeAllowed(e, pid, shards, now);
      }
    } else {
      hide Accounts, Shards, AmountFor, MarkAll, IndexSet, Payable, ReserveShare, Lockstep, Timely, ReservePerShard, ClaimLoop,
        Receipt, Conclude;
    }
  }

  lemma NothingStillCovered(e: Entry, shards: set<nat>, now: nat)
    requires Accounts(e) && AmountFor(e, now, shards) == 0
    ensures e.payment.providerSettled + AmountFor(e, now, shards) <= e.payment.providerPool
  {
    PoolUsedUpByReserves(e);
    hide Accounts, AmountFor;
  }

  // Permuting or repeating indices changes nothing about a claim.
  lemma ClaimIgnoresOrderAndRepeats(e: Entry, caller: Result<nat, Error>, a: seq<uint8>, b: seq<uint8>, now: nat)
    requires IndexSet(a) == IndexSet(b)
    ensures Claim(e, caller, a, now).Ok? <==> Claim(e, caller, b, now).Ok?
    ensures Claim(e, caller, a, now).Ok? ==> Claim(e, caller, a, now) == Claim(e, caller, b, now)
  {
    if caller.Ok? && ReservePerShard(e).Ok? && ClaimOpen(e) {
      assert a == [] <==> b == [] by {
        assert a != [] ==> a[0] as nat in IndexSet(a);
        assert b != [] ==> b[0] as nat in IndexSet(b);
      }
      hide MarkAll, Payable, IndexSet, ReservePerShard, ClaimLoop, Conclude, Claim;
      ClaimUnfolds(e, caller.value, ReservePerShard(e).value, a, now);
      ClaimUnfolds(e, caller.value, ReservePerShard(e).value, b, now);
    } else {
      hide ClaimLoop, ReservePerShard;
    }
  }

  // Splitting a claim: two successful claims by one provider at one instant
  // are one claim over both batches, with the same slots and the same sum.
  lemma ClaimsMerge(e: Entry, pid: nat, a: seq<uint8>, b: seq<uint8>, now: nat)
    requires Sound(e) && Timely(e, now)
    requires Claim(e, Ok(pid), a, now).Ok? && Claim(Claim(e, Ok(pid), a, now).value.entry, Ok(pid), b, now).Ok?
    ensures var first := Claim(e, Ok(pid), a, now).value;
            var second := Claim(first.entry, Ok(pid), b, now).value;
            Claim(e, Ok(pid), a + b, now) == Ok(Claimed(second.entry, pid, first.immediate + second.immediate,
                first.reserve + second.reserve, first.amount + second.amount, first.feeReleased + second.feeReleased))
  {
    hide Accounts, Shards, Lockstep, Timely, AmountFor, MarkAll, AfterClaim, IndexSet, Claim, ClaimAllowed;
    var sa, sb := IndexSet(a), IndexSet(b);
    ClaimOutcome(e, pid, a, now);
    AfterClaimIsSound(e, pid, sa, now);
    AfterClaimIsCovered(e, pid, sa, now);
    AfterClaimHasAccounts(e, pid, sa, now);
    var mid := AfterClaim(e, sa, now);
    ClaimOutcome(mid, pid, b, now);
    ClaimOutcome(e, pid, a + b, now);
    IndexSetConcat(a, b);
    ClaimsMergeSets(e, pid, sa, sb, now);
  }

  lemma AfterClaimHasAccounts(e: Entry, pid: nat, shards: set<nat>, now: nat)
    requires Sound(e) && Timely(e, now) && ClaimAllowed(e, pid, shards, now)
    ensures Accounts(e) && Accounts(AfterClaim(e, shards, now))
  {
    assert shards <= Below(e.terms.totalShards);
    hide Accounts, Shards, AmountFor, MarkAll, AfterClaim, Timely, Below;
    ClaimKeepsAccounts(e, now, shards);
  }

  lemma ClaimsMergeSets(e: Entry, pid: nat, a: set<nat>, b: set<nat>, now: nat)
    requires ClaimAllowed(e, pid, a, now) && Accounts(e) && Accounts(AfterClaim(e, a, now))
    requires ClaimAllowed(AfterClaim(e, a, now), pid, b, now)
    ensures ClaimAllowed(e, pid, a + b, now)
    ensures var first, second := Receipt(e, pid, a, now), Receipt(AfterClaim(e, a, now), pid, b, now);
            Receipt(e, pid, a + b, now) == Claimed(second.entry, pid, first.immediate + second.immediate,
                first.reserve + second.reserve, first.amount + second.amount, first.feeReleased + second.feeReleased)
  {
    hide Accounts, AmountFor, MarkAll;
    AmountsAdd(e, a, b, now);
    var mid := AfterClaim(e, a, now);
    assert mid.payment.status.PartiallySettled? && ClaimOpen(e);
    MergedPayable(e, mid, pid, a, b);
    MergedEntry(e, a, b, now);
    MergedMarks(e, a, b, now);
    hide AllPayable, AfterClaim;
  }

  lemma MergedPayable(e: Entry, mid: Entry, pid: nat, a: set<nat>, b: set<nat>)
    requires AllPayable(e, pid, a) && AllPayable(mid, pid, b)
    requires mid.terms == e.terms && mid.placement == e.placement && mid.acks == e.acks
    ensures AllPayable(e, pid, a + b)
  {
    forall i | i in a + b ensures Payable(e, pid, i) {
      assert i in a || Payable(mid, pid, i);
    }
  }

  lemma MergedMarks(e: Entry, a: set<nat>, b: set<nat>, now: nat)
    requires Accounts(e)
    ensures var mid := AfterClaim(e, a, now);
            && a + b - e.immediate == (a - e.immediate) + (b - mid.immediate)
            && (now >= e.terms.expiresAt ==> a + b - e.reserve == (a - e.reserve) + (b - mid.reserve))
            && mid.payment.protocolFee == e.payment.protocolFee && mid.terms == e.terms
  {
    hide Accounts, AmountFor;
    MergedSets(e.immediate, a, b);
    MergedSets(e.reserve, a, b);
  }

  lemma MergedSets(marked: set<nat>, a: set<nat>, b: set<nat>)
    ensures marked + (a + b) == marked + a + b
    ensures a + b - marked == (a - marked) + (b - (marked + a))
  {
  }

  lemma MergedEntry(e: Entry, a: set<nat>, b: set<nat>, now: nat)
    requires Accounts(e) && Accounts(AfterClaim(e, a, now))
    requires AmountFor(e, now, a + b) == AmountFor(e, now, a) + AmountFor(AfterClaim(e, a, now), now, b)
    requires AfterClaim(e, a, now).payment.status.PartiallySettled?
    ensures AfterClaim(e, a + b, now) == AfterClaim(AfterClaim(e, a, now), b, now)
  {
    MergedSets(e.immediate, a, b);
    MergedSets(e.reserve, a, b);
    hide Accounts, AmountFor;
  }

  lemma IndexSetConcat(a: seq<uint8>, b: seq<uint8>)
    ensures IndexSet(a + b) == IndexSet(a) + IndexSet(b)
  {
    var whole := a + b;
    forall i | i in IndexSet(a) + IndexSet(b) ensures i in IndexSet(whole) {
      if i in IndexSet(a) {
        var k :| 0 <= k < |a| && a[k] as nat == i;
        assert whole[k] as nat == i;
      } else {
        var k :| 0 <= k < |b| && b[k] as nat == i;
        assert whole[|a| + k] as nat == i;
      }
    }
  }

  lemma AmountsAdd(e: Entry, a: set<nat>, b: set<nat>, now: nat)
    requires Accounts(e)
    ensures AmountFor(e, now, a + b) == AmountFor(e, now, a) + AmountFor(AfterClaim(e, a, now), now, b)
  {
    Additive(a, b, e.immediate, e.payment.rewardPerShard);
    Additive(a, b, e.reserve, ReserveShare(e));
    assert Gross(AfterClaim(e, a, now)) == Gross(e);
  }

  lemma Additive(a: set<nat>, b: set<nat>, marked: set<nat>, unit: nat)
    ensures unit * |a + b - marked| == unit * |a - marked| + unit * |b - (marked + a)|
  {
    assert a + b - marked == (a - marked) + (b - (marked + a));
    var x, y := |a - marked|, |b - (marked + a)|;
    assert unit * (x + y) == unit * x + unit * y;
  }

  // ---- A batch split into any sequence of claims ----

  function Flat(batches: seq<seq<uint8>>): seq<uint8> {
    if batches == [] then [] else Flat(batches[..|batches| - 1]) + batches[|batches| - 1]
  }

  // One provider's claims one after the other, all at the same time: the slots
  // they end in, and the sums of what each of them marked, paid and released.
  function InTurn(e: Entry, pid: nat, batches: seq<seq<uint8>>, now: nat): Result<Claimed, Error> {
    if batches == [] then Ok(Claimed(e, pid, {}, {}, 0, 0))
    else
      var so :- InTurn(e, pid, batches[..|batches| - 1], now);
      var next :- Claim(so.entry, Ok(pid), batches[|batches| - 1], now);
      Ok(Claimed(next.entry, pid, so.immediate + next.immediate, so.reserve + next.reserve, so.amount + next.amount,
                 so.feeReleased + next.feeReleased))
  }

  // Among `shards`, one whose immediate reward, or whose reserve if it is due,
  // is unpaid and not claimed by the `earlier` ones.
  ghost predicate Gains(e: Entry, now: nat, earlier: set<nat>, shards: set<nat>) {
    || (e.payment.rewardPerShard > 0 && shards - (e.immediate + earlier) != {})
    || (now >= e.terms.expiresAt && shards - (e.reserve + earlier) != {})
  }

  ghost predicate EachGains(e: Entry, now: nat, batches: seq<seq<uint8>>) {
    forall k :: 0 <= k < |batches| ==> Gains(e, now, IndexSet(Flat(batches[..k])), IndexSet(batches[k]))
  }

  // A claim pays something exactly when it gains something.
  lemma GainsPays(e: Entry, now: nat, shards: set<nat>)
    requires Accounts(e)
    ensures AmountFor(e, now, shards) > 0 <==> Gains(e, now, {}, shards)
    ensures AmountFor(e, now, shards) >= 0
  {
    var reward, share: nat := e.payment.rewardPerShard, ReserveShare(e);
    assert share >= 1;
    assert e.immediate + {} == e.immediate && e.reserve + {} == e.reserve;
    hide Accounts, ReserveShare;
    UnitsPay(reward, shards - e.immediate);
    UnitsPay(share, shards - e.reserve);
  }

  lemma UnitsPay(unit: nat, shards: set<nat>)
    ensures unit * |shards| > 0 <==> unit > 0 && shards != {}
  {
    if unit > 0 && shards != {} {
      MulPos(unit, |shards|);
    }
  }

  // What is left to gain after a claim is what was left aside from its shards.
  lemma GainsLater(e: Entry, now: nat, a: set<nat>, b: set<nat>)
    requires Accounts(e)
    ensures Gains(AfterClaim(e, a, now), now, {}, b) <==> Gains(e, now, a, b)
  {
    hide AfterClaim, Accounts;
    AfterClaimFields(e, a, now);
    var mid := AfterClaim(e, a, now);
    assert mid.immediate + {} == e.immediate + a;
    assert now >= e.terms.expiresAt ==> mid.reserve + {} == e.reserve + a;
  }

  // A settled payment leaves nothing to gain.
  lemma SettledGainsNothing(e: Entry, pid: nat, a: set<nat>, b: set<nat>, now: nat)
    requires Accounts(e) && Accounts(AfterClaim(e, a, now)) && AllPayable(e, pid, b) && Timely(e, now)
    requires AfterClaim(e, a, now).payment.status.Settled?
    ensures !Gains(e, now, a, b)
  {
    hide Accounts, AfterClaim, AmountFor, AllPayable, Below;
    BelowOfPayable(e, pid, b);
    AfterClaimFields(e, a, now);
    var mid := AfterClaim(e, a, now);
    PoolUsedUpByReserves(mid);
    MarkersNest(mid);
    assert b - (e.immediate + a) == {};
  }

  // Something left to gain keeps the payment open.
  lemma GainsOpen(e: Entry, pid: nat, a: set<nat>, b: set<nat>, now: nat)
    requires ClaimAllowed(e, pid, a, now) && Accounts(e) && Accounts(AfterClaim(e, a, now)) && Timely(e, now)
    requires AllPayable(e, pid, b) && Gains(e, now, a, b)
    ensures ClaimOpen(AfterClaim(e, a, now))
  {
    hide Accounts, AfterClaim, AmountFor, AllPayable, Gains, Timely;
    AfterClaimFields(e, a, now);
    if AfterClaim(e, a, now).payment.status.Settled? {
      SettledGainsNothing(e, pid, a, b, now);
    }
  }

  lemma BelowOfPayable(e: Entry, pid: nat, shards: set<nat>)
    requires AllPayable(e, pid, shards)
    ensures shards <= Below(e.terms.totalShards)
  {
    forall i | i in shards ensures i in Below(e.terms.totalShards) {
      assert Payable(e, pid, i);
    }
  }

  lemma MarkersNest(e: Entry)
    requires Accounts(e)
    ensures e.reserve <= e.immediate <= Below(e.terms.totalShards)
  {
    hide Below;
  }

  // Exactly which splittings of a batch are accepted one after the other, and
  // that together they do what the one claim over the whole batch does.
  ghost predicate SplitsRight(e: Entry, pid: nat, batches: seq<seq<uint8>>, now: nat) {
    var all, shards := InTurn(e, pid, batches, now), IndexSet(Flat(batches));
    && (all.Ok? <==> ClaimOpen(e) && AllPayable(e, pid, shards) && EachGains(e, now, batches))
    && (all.Ok? ==> Accounts(e) && ClaimAllowed(e, pid, shards, now) && all.value == Receipt(e, pid, shards, now))
  }

  lemma FirstSplit(e: Entry, pid: nat, batch: seq<uint8>, now: nat)
    requires Sound(e) && Timely(e, now)
    ensures SplitsRight(e, pid, [batch], now)
  {
    FirstInTurn(e, pid, batch, now);
    OpenHasAccounts(e);
    hide Accounts, Sound, Timely, AmountFor, AfterClaim, IndexSet, Claim, ClaimOpen, AllPayable, Gains, InTurn, Flat;
    ClaimOutcome(e, pid, batch, now);
    if ClaimOpen(e) {
      GainsPays(e, now, IndexSet(batch));
    }
    assert [batch][..0] == [] && IndexSet([]) == {} by {
      NoIndices();
    }
  }

  lemma OpenHasAccounts(e: Entry)
    requires Sound(e)
    ensures ClaimOpen(e) ==> Accounts(e)
  {
    hide Accounts, Shards;
  }

  lemma NoIndices()
    ensures IndexSet([]) == {} && Flat([]) == []
  {
  }

  lemma FirstInTurn(e: Entry, pid: nat, batch: seq<uint8>, now: nat)
    ensures InTurn(e, pid, [batch], now).Ok? <==> Claim(e, Ok(pid), batch, now).Ok?
    ensures Claim(e, Ok(pid), batch, now).Ok? ==>
              var c := Claim(e, Ok(pid), batch, now).value;
              InTurn(e, pid, [batch], now)
              == Ok(Claimed(c.entry, pid, c.immediate, c.reserve, c.amount, c.feeReleased))
    ensures Flat([batch]) == batch
  {
    hide Claim;
    assert [batch][..0] == [] && [] + batch == batch;
    if Claim(e, Ok(pid), batch, now).Ok? {
      var c, none: set<nat> := Claim(e, Ok(pid), batch, now).value, {};
      assert none + c.immediate == c.immediate && none + c.reserve == c.reserve;
    }
  }

  // The claim after a claim.
  lemma NextClaim(e: Entry, pid: nat, a: set<nat>, last: seq<uint8>, now: nat)
    requires Sound(e) && Timely(e, now) && ClaimAllowed(e, pid, a, now) && Accounts(e)
    ensures var mid, b := AfterClaim(e, a, now), IndexSet(last);
            var c := Claim(mid, Ok(pid), last, now);
            && (c.Ok? <==> AllPayable(e, pid, b) && Gains(e, now, a, b))
            && (c.Ok? ==>
                  var first := Receipt(e, pid, a, now);
                  && ClaimAllowed(e, pid, a + b, now)
                  && Receipt(e, pid, a + b, now)
                     == Claimed(c.value.entry, pid, first.immediate + c.value.immediate, first.reserve + c.value.reserve,
                                first.amount + c.value.amount, first.feeReleased + c.value.feeReleased))
  {
    hide Sound, Accounts, Timely, AmountFor, AfterClaim, IndexSet, Claim, AllPayable, Gains, ClaimOpen, Receipt;
    var mid, b := AfterClaim(e, a, now), IndexSet(last);
    AfterClaimHasAccounts(e, pid, a, now);
    AfterClaimIsSound(e, pid, a, now);
    AfterClaimIsCovered(e, pid, a, now);
    ClaimOutcome(mid, pid, last, now);
    SamePayable(e, pid, a, b, now);
    GainsPays(mid, now, b);
    GainsLater(e, now, a, b);
    if AllPayable(e, pid, b) && Gains(e, now, a, b) {
      GainsOpen(e, pid, a, b, now);
      ClaimsMergeSets(e, pid, a, b, now);
    }
  }

  lemma SamePayable(e: Entry, pid: nat, a: set<nat>, b: set<nat>, now: nat)
    requires Accounts(e)
    ensures AllPayable(AfterClaim(e, a, now), pid, b) <==> AllPayable(e, pid, b)
  {
    hide Accounts, AfterClaim;
    AfterClaimFields(e, a, now);
    var mid := AfterClaim(e, a, now);
    assert forall i :: Payable(mid, pid, i) <==> Payable(e, pid, i);
  }

  lemma PayableUnion(e: Entry, pid: nat, a: set<nat>, b: set<nat>)
    ensures AllPayable(e, pid, a + b) <==> AllPayable(e, pid, a) && AllPayable(e, pid, b)
  {
    hide Payable;
  }

  lemma GainsGrow(e: Entry, now: nat, front: seq<seq<uint8>>, last: seq<uint8>)
    ensures EachGains(e, now, front + [last])
       <==> EachGains(e, now, front) && Gains(e, now, IndexSet(Flat(front)), IndexSet(last))
  {
    hide Gains, IndexSet, Flat;
    var whole := front + [last];
    assert whole[..|front|] == front && whole[|front|] == last;
    forall k | 0 <= k < |front| ensures whole[..k] == front[..k] && whole[k] == front[k] {
    }
    if EachGains(e, now, whole) {
      assert Gains(e, now, IndexSet(Flat(whole[..|front|])), IndexSet(whole[|front|]));
      forall k | 0 <= k < |front| ensures Gains(e, now, IndexSet(Flat(front[..k])), IndexSet(front[k])) {
        assert Gains(e, now, IndexSet(Flat(whole[..k])), IndexSet(whole[k]));
      }
    }
  }

  lemma InTurnGrows(e: Entry, pid: nat, front: seq<seq<uint8>>, last: seq<uint8>, now: nat)
    ensures Flat(front + [last]) == Flat(front) + last
    ensures var so, all := InTurn(e, pid, front, now), InTurn(e, pid, front + [last], now);
            && (so.Err? ==> all.Err?)
            && (so.Ok? ==>
                  var next := Claim(so.value.entry, Ok(pid), last, now);
                  && (all.Ok? <==> next.Ok?)
                  && (next.Ok? ==>
                        all.value == Claimed(next.value.entry, pid, so.value.immediate + next.value.immediate,
                                             so.value.reserve + next.value.reserve, so.value.amount + next.value.amount,
                                             so.value.feeReleased + next.value.feeReleased)))
  {
    hide Claim;
    assert (front + [last])[..|front|] == front;
  }

  lemma SplitOneMore(e: Entry, pid: nat, front: seq<seq<uint8>>, last: seq<uint8>, now: nat)
    requires Sound(e) && Timely(e, now) && SplitsRight(e, pid, front, now)
    ensures SplitsRight(e, pid, front + [last], now)
  {
    hide Accounts, Sound, Timely, IndexSet, Claim, ClaimAllowed, ClaimOpen, AllPayable, Gains, EachGains, InTurn, Flat, AfterClaim, AmountFor;
    var a, b := IndexSet(Flat(front)), IndexSet(last);
    InTurnGrows(e, pid, front, last, now);
    IndexSetConcat(Flat(front), last);
    PayableUnion(e, pid, a, b);
    GainsGrow(e, now, front, last);
    if InTurn(e, pid, front, now).Ok? {
      NextClaim(e, pid, a, last, now);
    }
  }

  lemma {:induction false} SplitClaims(e: Entry, pid: nat, batches: seq<seq<uint8>>, now: nat)
    requires Sound(e) && Timely(e, now) && batches != []
    ensures SplitsRight(e, pid, batches, now)
  {
    hide Sound, Timely, SplitsRight;
    var front, last := batches[..|batches| - 1], batches[|batches| - 1];
    assert batches == front + [last];
    if front == [] {
      FirstSplit(e, pid, last, now);
    } else {
      SplitClaims(e, pid, front, now);
      SplitOneMore(e, pid, front, last, now);
    }
  }

  // In the caller's terms: claims that all go through are one claim.
  lemma SplitIsOneClaim(e: Entry, pid: nat, batches: seq<seq<uint8>>, now: nat)
    requires Sound(e) && Timely(e, now) && batches != []
    ensures InTurn(e, pid, batches, now).Ok? ==> InTurn(e, pid, batches, now) == Claim(e, Ok(pid), Flat(batches), now)
    ensures Claim(e, Ok(pid), Flat(batches), now).Ok? ==>
              (InTurn(e, pid, batches, now).Ok? <==> EachGains(e, now, batches))
  {
    hide Sound, Timely, InTurn, Claim, Flat, IndexSet, AmountFor, AllPayable, ClaimOpen, EachGains, Receipt;
    SplitClaims(e, pid, batches, now);
    ClaimOutcome(e, pid, Flat(batches), now);
  }

  // ---- Every other entry point keeps the slots sound ----

  lemma NewEntryIsSound(owner: Address, r: Registration, origin: BlobOrigin, policy: Policy)
    requires 1 <= r.dataShards <= r.totalShards && r.size > 0
    ensures Sound(NewEntry(owner, r, origin, policy, NO_PAYMENT))
  {
  }

  lemma PaidEntryIsSound(
    owner: Address, r: Registration, origin: BlobOrigin, policy: Policy,
    mode: StorageMode, now: nat, rate: nat, feeBps: nat
  )
    requires 1 <= r.dataShards <= r.totalShards && r.size > 0 && rate > 0 && feeBps <= BPS
    requires QuoteNativePayment(r.size, r.totalShards, mode, r.expiresAt, now, rate, feeBps).Ok?
    ensures Sound(NewEntry(owner, r, origin, policy,
                           Escrow(owner, QuoteNativePayment(r.size, r.totalShards, mode, r.expiresAt, now, rate, feeBps).value, now)))
  {
    hide QuoteNativePayment, QuotedPrice, SplitsExactly, Sound;
    QuoteShape(r.size, r.totalShards, mode, r.expiresAt, now, rate, feeBps);
    EscrowIsSound(owner, r, origin, policy, QuoteNativePayment(r.size, r.totalShards, mode, r.expiresAt, now, rate, feeBps).value,
                  QuotedPrice(r.size, mode, r.expiresAt, now, rate), now, feeBps);
  }

  lemma EscrowIsSound(
    owner: Address, r: Registration, origin: BlobOrigin, policy: Policy, t: Terms, price: nat, now: nat, feeBps: nat
  )
    requires 1 <= r.dataShards <= r.totalShards && r.size > 0 && r.expiresAt > 0
    requires SplitsExactly(t, price, r.totalShards, feeBps)
    ensures Sound(NewEntry(owner, r, origin, policy, Escrow(owner, t, now)))
  {
    hide SplitsExactly, CeilDiv;
    SplitLeavesReserve(t, price, r.totalShards, feeBps);
    var e := NewEntry(owner, r, origin, policy, Escrow(owner, t, now));
    assert Gross(e) == GrossPerShard(t, r.totalShards);
    NothingSettled(e);
  }

  lemma SplitLeavesReserve(t: Terms, price: nat, totalShards: uint8, feeBps: nat)
    requires totalShards > 0 && SplitsExactly(t, price, totalShards, feeBps)
    ensures var gross := GrossPerShard(t, totalShards);
            t.providerPool == gross * totalShards && gross - t.rewardPerShard >= 1 && t.total == t.providerPool + t.protocolFee
  {
    assert CeilDiv(GrossPerShard(t, totalShards), 10) >= 1;
  }

  lemma NothingSettled(e: Entry)
    requires e.immediate == {} && e.reserve == {}
    ensures e.payment.rewardPerShard * |e.immediate| + ReserveShare(e) * |e.reserve| == 0
  {
    hide ReserveShare;
  }

  lemma AssignKeepsSound(e: Entry, i: uint8, pid: nat, active: bool)
    requires Sound(e) && Assign(e, i, pid, active).Ok? && pid > 0
    ensures Sound(Assign(e, i, pid, active).value)
  {
    var after := Assign(e, i, pid, active).value;
    AccountsFrame(e, after);
    AssignKeepsShards(e, i, pid, active);
  }

  lemma AssignKeepsShards(e: Entry, i: uint8, pid: nat, active: bool)
    requires Shards(e) && Assign(e, i, pid, active).Ok? && pid > 0
    ensures Shards(Assign(e, i, pid, active).value)
  {
    PlaceWriteKeepsShards(e, i, pid);
  }

  lemma PlaceWriteKeepsShards(e: Entry, i: nat, pid: nat)
    requires Shards(e) && pid > 0 && i < e.terms.totalShards
    requires (e.status.Pending? && i !in e.placement) || e.status.Recovering?
    ensures Shards(e.(placement := e.placement[i := pid]))
  {
    hide Geometry, Counted, Placed, Below;
    PlaceWriteKeepsCount(e, i, pid);
    PlaceWriteKeepsPlaced(e, i, pid);
    GeometryFrame(e, e.(placement := e.placement[i := pid]));
  }

  lemma GeometryFrame(e: Entry, after: Entry)
    requires Geometry(e) && after.terms == e.terms && after.status == e.status
    ensures Geometry(after)
  {
  }

  lemma PlaceWriteKeepsCount(e: Entry, i: nat, pid: nat)
    requires Counted(e) && pid > 0 && i < e.terms.totalShards
    ensures Counted(e.(placement := e.placement[i := pid]))
  {
    assert i in Below(e.terms.totalShards);
    hide Below;
  }

  lemma PlaceWriteKeepsPlaced(e: Entry, i: nat, pid: nat)
    requires Placed(e) && i < e.terms.totalShards
    requires (e.status.Pending? && i !in e.placement) || e.status.Recovering?
    ensures Placed(e.(placement := e.placement[i := pid]))
  {
    var after := e.(placement := e.placement[i := pid]);
    assert i in Below(e.terms.totalShards);
    hide Below;
    if e.status.Pending? {
      forall k | k in e.acks ensures k.1 in after.placement && after.placement[k.1] == k.0 {
        assert k.1 != i;
      }
    } else {
      assert after.placement.Keys == e.placement.Keys;
    }
  }

  lemma AcknowledgeKeepsSound(e: Entry, i: uint8, caller: Result<nat, Error>, commitment: Hash, size: uint64, now: nat)
    requires Sound(e) && Acknowledge(e, i, caller, commitment, size, now).Ok?
    ensures Sound(Acknowledge(e, i, caller, commitment, size, now).value)
  {
    AccountsFrame(e, Acknowledge(e, i, caller, commitment, size, now).value);
    AcknowledgeKeepsShards(e, i, caller, commitment, size, now);
  }

  lemma AcknowledgeKeepsShards(e: Entry, i: uint8, caller: Result<nat, Error>, commitment: Hash, size: uint64, now: nat)
    requires Shards(e) && Acknowledge(e, i, caller, commitment, size, now).Ok?
    ensures Shards(Acknowledge(e, i, caller, commitment, size, now).value)
  {
    AckWriteKeepsShards(e, (caller.value, i as nat), Acknowledgement(commitment, size, Stamp(now)));
  }

  lemma AckWriteKeepsShards(e: Entry, key: (nat, nat), ack: Acknowledgement)
    requires Shards(e) && key.1 in e.placement && e.placement[key.1] == key.0
    requires e.status.Pending? || e.status.Recovering?
    ensures Shards(e.(ackCount := if key in e.acks then e.ackCount else e.ackCount + 1, acks := e.acks[key := ack]))
  {
    hide Below;
    var acks := e.acks[key := ack];
    assert acks.Keys == e.acks.Keys + {key};
    assert key in e.acks ==> acks.Keys == e.acks.Keys;
    assert key.1 < e.terms.totalShards by {
      assert key.1 in e.placement.Keys;
    }
  }

  lemma FinalizeKeepsSound(e: Entry)
    requires Sound(e) && Finalize(e).Ok?
    ensures Sound(Finalize(e).value)
  {
    FinalizeNeedsEveryShard(e);
    var after := Finalize(e).value;
    assert Lockstep(after) by {
      assert Gross(after) == Gross(e);
    }
    FinalizeKeepsShards(e);
  }

  lemma FinalizeKeepsShards(e: Entry)
    requires Shards(e) && Finalize(e).Ok?
    ensures Shards(Finalize(e).value)
  {
    FinalizeNeedsEveryShard(e);
    var after := Finalize(e).value;
    forall i | 0 <= i < e.terms.totalShards ensures Acked(after.placement, after.acks, i) && i in e.placement.Keys {
      assert Acked(e.placement, e.acks, i);
    }
    assert e.placement.Keys == Below(e.terms.totalShards);
  }

  lemma StartRecoveryKeepsSound(e: Entry, i: uint8)
    requires Sound(e) && StartRecovery(e, i).Ok?
    ensures Sound(StartRecovery(e, i).value)
  {
    AccountsFrame(e, StartRecovery(e, i).value);
  }

  lemma ReassignKeepsSound(e: Entry, i: uint8, pid: nat, active: bool)
    requires Sound(e) && Reassign(e, i, pid, active).Ok? && pid > 0
    ensures Sound(Reassign(e, i, pid, active).value)
  {
    AccountsFrame(e, Reassign(e, i, pid, active).value);
    PlaceWriteKeepsShards(e, i, pid);
  }

  lemma RecordRebuiltKeepsSound(e: Entry, i: uint8, pid: nat, commitment: Hash)
    requires Sound(e) && RecordRebuilt(e, i, pid, commitment).Ok?
    ensures Sound(RecordRebuilt(e, i, pid, commitment).value)
  {
    AccountsFrame(e, RecordRebuilt(e, i, pid, commitment).value);
  }

  lemma RefundKeepsSound(e: Entry, now: nat)
    requires Sound(e) && Refund(e, now).Ok?
    ensures Sound(Refund(e, now).value)
  {
    assert Gross(Refund(e, now).value) == Gross(e);
  }
}
