// Where the money can still go. From every reachable state a claimable payment
// has a run that settles it in full, and an escrow a refund that goes through
// exactly when its payer takes the ether: while the payer refuses, and the blob
// is not finalized, the escrow stays where it is.
module Liveness {
  import opened Prelude
  import opened Quote
  import opened Blob
  import opened BlobInvariants
  import opened Protocol
  import opened Ledgers
  import opened Invariants
  import opened Runs
  import opened Evolution

  // ---- Refunds ----

  lemma RunTwo(s: State, a: Event, b: Event)
    ensures Run(s, [a, b]) == Apply(Apply(s, a), b)
  {
    RunOne(s, a);
    assert [a, b][..1] == [a];
    hide Apply;
  }

  lemma ChainTwo(s: State, a: Action, b: Action)
    ensures Chain(s, [a, b]) == Act(Act(s, a), b)
  {
    hide Act;
    assert [a, b][..1] == [a] && [a][..0] == [];
    assert Chain(s, [a]) == Act(s, a);
  }

  // The owner waits until the window opens and asks for the escrow. If the
  // payer takes the ether, whatever else it does with the control it is given,
  // the whole escrow is paid out and the payment is refunded for good; if it
  // refuses, only time has passed.
  lemma EscrowCanBeRefunded(s: State, id: Hash, nested: seq<Transaction>, accepts: bool)
    requires Valid(s) && id in s.entries && s.entries[id].payment.status.Escrowed?
    ensures var e := s.entries[id];
            var wait, refund := Wait(e.terms.expiresAt + 1), Send(Transaction(RefundPaidBlob(e.owner, id), nested, accepts));
            var s' := Chain(s, [wait, refund]);
            && (accepts ==>
                  && id in s'.entries && s'.entries[id].payment.status.Refunded?
                  && Extends(s.ledger.history + [RefundTo(id, e.payment.payer, e.payment.totalPaid)], s'.ledger.history))
            && (!accepts ==> s' == Act(s, wait))
  {
    hide Valid, Step, Sound, Timely, PlacedWith, Run, Refund, Chain;
    var e := s.entries[id];
    var wait, refund := Wait(e.terms.expiresAt + 1), RefundPaidBlob(e.owner, id);
    var later := Act(s, wait);
    ChainTwo(s, wait, Send(Transaction(refund, nested, accepts)));
    ApplyKeepsValid(s, Elapse(e.terms.expiresAt + 1));
    ValidSlots(later, id);
    EscrowIsRefundable(e, later.now);
    RefundGoesThrough(later, id);
    if accepts {
      RefundIsFinal(later, id, refund, nested);
    }
  }

  // What the payer does when it is called changes nothing about the refund.
  lemma RefundIsFinal(s: State, id: Hash, c: Call, nested: seq<Transaction>)
    requires Valid(s) && Step(s, c).Ok? && id in Step(s, c).value.entries
    requires Step(s, c).value.entries[id].payment.status.Refunded?
    ensures var s1, s' := Step(s, c).value, ExecuteAll(Step(s, c).value, nested);
            && id in s'.entries && s'.entries[id].payment == s1.entries[id].payment
            && Extends(s1.ledger.history, s'.ledger.history)
  {
    hide Valid, Step, Run, EntriesMove, ProvidersMove, AccessMoves;
    var s1 := Step(s, c).value;
    StepKeepsValid(s, c);
    ReentrancyIsARunAll(s1, nested);
    FinalPaymentsStay(s1, FlattenAll(s1, nested), id);
    RunMoves(s1, FlattenAll(s1, nested));
  }

  lemma EscrowIsRefundable(e: Entry, now: nat)
    requires Sound(e) && e.payment.status.Escrowed? && now > e.terms.expiresAt
    ensures Refund(e, now).Ok? && Refund(e, now).value.payment.status.Refunded?
  {
  }

  lemma RefundGoesThrough(s: State, id: Hash)
    requires Valid(s) && id in s.entries && Refund(s.entries[id], s.now).Ok?
    ensures var e := s.entries[id];
            var p := RefundTo(id, e.payment.payer, e.payment.totalPaid);
            && e.payment.totalPaid <= s.ledger.balance
            && Step(s, RefundPaidBlob(e.owner, id)) == Ok(Put(s, id, Refund(e, s.now).value).(ledger := PayoutOf(s.ledger, p)))
  {
    hide Valid, Refund;
    NeverShortOfFunds(s, RefundPaidBlob(s.entries[id].owner, id));
  }

  // ---- An escrow whose payer refuses ----

  // Somewhere in the transaction a refund of `id` is made and taken.
  predicate TakesRefund(t: Transaction, id: Hash)
    decreases t, 1
  {
    || (t.call.RefundPaidBlob? && t.call.blobId == id && t.accepts)
    || AnyTakesRefund(t.nested, id)
  }

  predicate AnyTakesRefund(ts: seq<Transaction>, id: Hash)
    decreases ts, 0
  {
    ts != [] && (TakesRefund(ts[0], id) || AnyTakesRefund(ts[1..], id))
  }

  ghost predicate NoRefund(events: seq<Event>, id: Hash) {
    forall k :: 0 <= k < |events| && events[k].Do? ==> !(events[k].call.RefundPaidBlob? && events[k].call.blobId == id)
  }

  // A refund always transfers, so one that is refused leaves no trace.
  lemma RefundTransfers(s: State, c: Call)
    requires c.RefundPaidBlob? && Step(s, c).Ok?
    ensures Transfers(s, Step(s, c).value)
  {
    hide Refund;
  }

  lemma {:induction false} FlatWithoutRefund(s: State, t: Transaction, id: Hash)
    requires !TakesRefund(t, id)
    ensures NoRefund(Flatten(s, t), id)
    decreases t, 1
  {
    hide Step, Transfers;
    if Step(s, t.call).Ok? {
      if t.call.RefundPaidBlob? {
        RefundTransfers(s, t.call);
      }
      AllFlatWithoutRefund(Step(s, t.call).value, t.nested, id);
    }
  }

  lemma {:induction false} AllFlatWithoutRefund(s: State, ts: seq<Transaction>, id: Hash)
    requires !AnyTakesRefund(ts, id)
    ensures NoRefund(FlattenAll(s, ts), id)
    decreases ts, 0
  {
    hide Step;
    if ts != [] {
      FlatWithoutRefund(s, ts[0], id);
      AllFlatWithoutRefund(Execute(s, ts[0]), ts[1..], id);
    }
  }

  lemma StepWithoutRefund(s: State, c: Call, id: Hash)
    requires Valid(s) && Step(s, c).Ok? && !(c.RefundPaidBlob? && c.blobId == id)
    requires id in s.entries && !s.entries[id].payment.status.Refunded?
    ensures id in Step(s, c).value.entries && !Step(s, c).value.entries[id].payment.status.Refunded?
  {
    hide Valid, Step, Sound, Timely, PlacedWith, LifecycleEntry, Claim, Refund, QuoteNativePayment, AddBlob, Receipt, MovesQuietly;
    if IsQuiet(c) {
      QuietFrame(s, c);
    } else if IsLifecycle(c) {
      LifecycleShape(s, c);
      ProvidersArePositive(s);
      ValidSlots(s, c.blobId);
      LifecycleMoves(s, c);
      QuietlyUnrefunded(s.entries[c.blobId], LifecycleEntry(s, c).value);
    } else if c.CreateBlob? || c.CreateBlobPaid? {
      CreateLeavesOthers(s, c, id);
    } else if c.ClaimProviderSettlement? {
      ClaimShape(s, c);
      ValidSlots(s, c.blobId);
      ClaimIsNoRefund(s.entries[c.blobId], CallerProvider(s, c.sender).value, c.shards, s.now);
    } else if c.RefundPaidBlob? {
      RefundShape(s, c);
    } else {
      WithdrawFrame(s, c);
    }
  }

  lemma QuietlyUnrefunded(e: Entry, after: Entry)
    requires MovesQuietly(e, after)
    ensures after.payment.status.Refunded? == e.payment.status.Refunded?
  {
    hide Sound, SameDeal, Liability, FeeEarned;
  }

  lemma ClaimIsNoRefund(e: Entry, pid: nat, shards: seq<uint8>, now: nat)
    requires Claim(e, Ok(pid), shards, now).Ok?
    ensures !Claim(e, Ok(pid), shards, now).value.entry.payment.status.Refunded?
  {
    hide ClaimLoop, ReservePerShard;
  }

  lemma CreateLeavesOthers(s: State, c: Call, id: Hash)
    requires (c.CreateBlob? || c.CreateBlobPaid?) && Step(s, c).Ok? && id in s.entries
    ensures id in Step(s, c).value.entries && Step(s, c).value.entries[id] == s.entries[id]
  {
    hide Step;
    if c.CreateBlob? {
      PlainCreateLeavesOthers(s, c, id);
    } else {
      PaidCreateLeavesOthers(s, c, id);
    }
  }

  lemma PlainCreateLeavesOthers(s: State, c: Call, id: Hash)
    requires c.CreateBlob? && Step(s, c).Ok? && id in s.entries
    ensures id in Step(s, c).value.entries && Step(s, c).value.entries[id] == s.entries[id]
  {
    hide AddBlob;
    AddBlobShape(s, c.sender, c.terms, c.named, c.origin, NO_POLICY, NO_PAYMENT);
  }

  lemma PaidCreateLeavesOthers(s: State, c: Call, id: Hash)
    requires c.CreateBlobPaid? && Step(s, c).Ok? && id in s.entries
    ensures id in Step(s, c).value.entries && Step(s, c).value.entries[id] == s.entries[id]
  {
    hide QuoteNativePayment, AddBlob, CreatePaid, Escrow;
    var r := c.terms;
    CreatePaidShape(s, c);
    var quote := QuoteNativePayment(r.size, r.totalShards, c.policy.storageMode, r.expiresAt, s.now, s.rate, s.feeBps).value;
    AddBlobShape(Receive(s, c.value), c.sender, r, c.named, User, c.policy, Escrow(c.sender, quote, s.now));
  }

  lemma {:induction false} RunWithoutRefund(s: State, events: seq<Event>, id: Hash)
    requires Valid(s) && NoRefund(events, id) && id in s.entries && !s.entries[id].payment.status.Refunded?
    ensures id in Run(s, events).entries && !Run(s, events).entries[id].payment.status.Refunded?
  {
    hide Valid, Apply;
    if events != [] {
      var front, last := events[..|events| - 1], events[|events| - 1];
      RunWithoutRefund(s, front, id);
      RunKeepsValid(s, front);
      EventWithoutRefund(Run(s, front), last, id);
    }
  }

  lemma EventWithoutRefund(s: State, ev: Event, id: Hash)
    requires Valid(s) && id in s.entries && !s.entries[id].payment.status.Refunded?
    requires ev.Do? ==> !(ev.call.RefundPaidBlob? && ev.call.blobId == id)
    ensures id in Apply(s, ev).entries && !Apply(s, ev).entries[id].payment.status.Refunded?
  {
    hide Valid, Step;
    if ev.Do? && Step(s, ev.call).Ok? {
      StepWithoutRefund(s, ev.call, id);
    }
  }

  // Whatever happens on the chain, as long as no refund of the blob is taken
  // its payment is not refunded; and as long as the blob is not finalized
  // either, the whole escrow is still there, owed to the same payer.
  lemma {:induction false} EscrowWaitsForItsPayer(s: State, actions: seq<Action>, id: Hash)
    requires Valid(s) && id in s.entries && s.entries[id].payment.status.Escrowed?
    requires forall k :: 0 <= k < |actions| && actions[k].Send? ==> !TakesRefund(actions[k].t, id)
    ensures var e, s' := s.entries[id], Chain(s, actions);
            && Valid(s') && id in s'.entries && EntryMoves(e, s'.entries[id])
            && !s'.entries[id].payment.status.Refunded?
            && (s'.entries[id].status.Pending? ==>
                  s'.entries[id].payment.status.Escrowed? && e.payment.totalPaid <= s'.ledger.balance)
  {
    hide Valid, Sound, Timely, PlacedWith, EntryMoves, Execute, Flatten;
    if actions == [] {
      EntryStays(s.entries[id]);
      EscrowIsThere(s, id);
    } else {
      var front, a := actions[..|actions| - 1], actions[|actions| - 1];
      EscrowWaitsForItsPayer(s, front, id);
      var before := Chain(s, front);
      var events := ActEvents(before, a);
      ActIsRun(before, a);
      if a.Send? {
        FlatWithoutRefund(before, a.t, id);
      }
      RunWithoutRefund(before, events, id);
      RunKeepsValid(before, events);
      RunMovesEntry(before, events, id);
      EntryMovesTwice(s.entries[id], before.entries[id], Chain(s, actions).entries[id]);
      EscrowStaysEscrow(s.entries[id], Chain(s, actions), id);
    }
  }

  lemma ActIsRun(s: State, a: Action)
    ensures Act(s, a) == Run(s, ActEvents(s, a))
  {
    hide Execute, Flatten, Apply;
    match a
    case Wait(seconds) => RunOne(s, Elapse(seconds));
    case Force(amount) => RunOne(s, ForceSend(amount));
    case Send(t) => ReentrancyIsARun(s, t);
  }

  lemma RunMovesEntry(s: State, events: seq<Event>, id: Hash)
    requires Valid(s) && id in s.entries
    ensures id in Run(s, events).entries && EntryMoves(s.entries[id], Run(s, events).entries[id])
  {
    hide Valid, Run, EntryMoves, ProvidersMove, AccessMoves;
    RunMoves(s, events);
  }

  lemma EscrowIsThere(s: State, id: Hash)
    requires Valid(s) && id in s.entries && s.entries[id].payment.status.Escrowed?
    ensures s.entries[id].payment.totalPaid <= s.ledger.balance
  {
    hide NamesValid, NoncesValid, ProvidersValid, AllPlaced, Recorded, Solvent, AllSound;
    BalanceCovers(s.entries, s.ledger, s.now, id);
  }

  lemma EscrowStaysEscrow(e: Entry, s: State, id: Hash)
    requires Valid(s) && id in s.entries && EntryMoves(e, s.entries[id])
    requires e.payment.status.Escrowed? && !s.entries[id].payment.status.Refunded?
    ensures s.entries[id].status.Pending? ==>
              s.entries[id].payment.status.Escrowed? && e.payment.totalPaid <= s.ledger.balance
  {
    hide Valid, Shards, Accounts, Timely, PlacedWith, StatusMoves;
    ValidSlots(s, id);
    if s.entries[id].payment.status.Escrowed? {
      EscrowIsThere(s, id);
    }
  }

  // ---- Settlement ----

  // An operator with an active provider, and a blob to move onto it.
  ghost predicate Ready(s: State, id: Hash, a: Address, pid: nat) {
    && Valid(s) && id in s.entries && a in s.providerIdOf && s.providerIdOf[a] == pid && IsActive(s, pid) && pid > 0
    && s.entries[id].status.Recovering?
  }

  // Everything about money stays as it was.
  ghost predicate SameMoney(s: State, s': State, id: Hash)
    requires id in s.entries && id in s'.entries
  {
    var e, e' := s.entries[id], s'.entries[id];
    && e'.owner == e.owner && e'.terms == e.terms && e'.payment == e.payment
    && e'.immediate == e.immediate && e'.reserve == e.reserve
    && s'.ledger == s.ledger
  }

  // The first `k` shards are placed with `pid`.
  ghost predicate MovedUpTo(e: Entry, pid: nat, k: nat) {
    forall i :: 0 <= i < k ==> i in e.placement && e.placement[i] == pid
  }

  ghost predicate AckedUpTo(e: Entry, pid: nat, k: nat) {
    forall i: nat :: i < k ==> (pid, i) in e.acks
  }

  lemma StepAsEvent(s: State, events: seq<Event>, c: Call)
    requires Step(Run(s, events), c).Ok?
    ensures Run(s, events + [Do(c)]) == Step(Run(s, events), c).value
  {
    assert (events + [Do(c)])[..|events|] == events;
    hide Step;
  }

  lemma ReassignOne(s: State, id: Hash, a: Address, pid: nat, i: uint8)
    requires Ready(s, id, a, pid) && i < s.entries[id].terms.totalShards
    ensures var e := s.entries[id];
            var s' := Put(s, id, e.(placement := e.placement[i := pid]));
            Step(s, ReassignShard(e.owner, id, i, pid)) == Ok(s') && Ready(s', id, a, pid) && SameMoney(s, s', id)
  {
    hide Valid;
    StepKeepsValid(s, ReassignShard(s.entries[id].owner, id, i, pid));
  }

  lemma {:induction false} ReassignAll(s: State, id: Hash, a: Address, pid: nat, k: nat) returns (events: seq<Event>)
    requires Ready(s, id, a, pid) && k <= s.entries[id].terms.totalShards
    ensures var s' := Run(s, events); Ready(s', id, a, pid) && SameMoney(s, s', id) && MovedUpTo(s'.entries[id], pid, k)
    decreases k
  {
    hide Valid, Step, Apply;
    if k == 0 {
      events := [];
    } else {
      events := ReassignAll(s, id, a, pid, k - 1);
      var mid := Run(s, events);
      ReassignOne(mid, id, a, pid, k - 1);
      var c := ReassignShard(mid.entries[id].owner, id, k - 1, pid);
      StepAsEvent(s, events, c);
      events := events + [Do(c)];
    }
  }

  lemma AcknowledgeOne(s: State, id: Hash, a: Address, pid: nat, i: nat)
    requires Ready(s, id, a, pid) && i < s.entries[id].terms.totalShards
    requires i in s.entries[id].placement && s.entries[id].placement[i] == pid
    ensures var c := AcknowledgeShard(a, id, i, Word(1), 1);
            && Step(s, c).Ok?
            && var s' := Step(s, c).value;
               && Ready(s', id, a, pid) && SameMoney(s, s', id)
               && s'.entries[id].placement == s.entries[id].placement
               && s'.entries[id].acks.Keys == s.entries[id].acks.Keys + {(pid, i)}
  {
    hide Valid;
    var c := AcknowledgeShard(a, id, i, Word(1), 1);
    assert Step(s, c).Ok?;
    StepKeepsValid(s, c);
  }

  lemma {:induction false} AcknowledgeAll(s: State, id: Hash, a: Address, pid: nat, k: nat) returns (events: seq<Event>)
    requires Ready(s, id, a, pid) && k <= s.entries[id].terms.totalShards
    requires MovedUpTo(s.entries[id], pid, s.entries[id].terms.totalShards)
    ensures var s' := Run(s, events);
            && Ready(s', id, a, pid) && SameMoney(s, s', id)
            && MovedUpTo(s'.entries[id], pid, s.entries[id].terms.totalShards) && AckedUpTo(s'.entries[id], pid, k)
    decreases k
  {
    hide Valid, Step, Apply;
    if k == 0 {
      events := [];
    } else {
      events := AcknowledgeAll(s, id, a, pid, k - 1);
      var mid := Run(s, events);
      AcknowledgeOne(mid, id, a, pid, k - 1);
      var c := AcknowledgeShard(a, id, k - 1, Word(1), 1);
      StepAsEvent(s, events, c);
      events := events + [Do(c)];
      forall i: nat | i < k ensures (pid, i) in Run(s, events).entries[id].acks {
        assert (pid, i) in mid.entries[id].acks.Keys + {(pid, k - 1)};
      }
    }
  }

  // Some account has no provider yet.
  lemma {:induction false} FreshAccount(taken: set<Address>) returns (a: Address)
    ensures a != 0 && forall b :: b in taken ==> b < a
    decreases |taken|
  {
    if taken == {} {
      a := 1;
    } else {
      var b :| b in taken;
      var rest := FreshAccount(taken - {b});
      a := if rest > b then rest else b + 1;
      assert forall c :: c in taken ==> c == b || c in taken - {b};
    }
  }

  lemma NextIdPositive(s: State)
    requires Valid(s)
    ensures s.nextProviderId >= 1
  {
    hide BooksValid, NamesValid, NoncesValid, AllPlaced;
  }

  lemma RegisterFresh(s: State, id: Hash) returns (a: Address)
    requires Valid(s) && id in s.entries
    ensures var c := RegisterProvider(a, "endpoint", Word(1));
            && Step(s, c).Ok?
            && var s' := Step(s, c).value;
               && Valid(s') && s'.entries == s.entries && s'.ledger == s.ledger && s'.now == s.now
               && a in s'.providerIdOf && IsActive(s', s'.providerIdOf[a]) && s'.providerIdOf[a] > 0
  {
    hide Valid;
    a := FreshAccount(s.providerIdOf.Keys);
    var c := RegisterProvider(a, "endpoint", Word(1));
    NextIdPositive(s);
    assert a !in s.providerIdOf.Keys;
    assert Step(s, c).Ok?;
    StepKeepsValid(s, c);
  }

  // A blob whose payment is claimable can be brought into recovery.
  lemma BeginRecovery(s: State, id: Hash, a: Address, pid: nat) returns (events: seq<Event>)
    requires Valid(s) && id in s.entries && a in s.providerIdOf && s.providerIdOf[a] == pid && IsActive(s, pid) && pid > 0
    requires s.entries[id].payment.status.Claimable? || s.entries[id].payment.status.PartiallySettled?
    ensures var s' := Run(s, events); Ready(s', id, a, pid) && SameMoney(s, s', id)
  {
    hide Valid, Step;
    if s.entries[id].status.Recovering? {
      events := [];
    } else {
      var c := StartShardRecovery(s.entries[id].owner, id, 0);
      RecoveryStarts(s, id);
      StepAsEvent(s, [], c);
      events := [] + [Do(c)];
    }
  }

  lemma RecoveryStarts(s: State, id: Hash)
    requires Valid(s) && id in s.entries && !s.entries[id].status.Recovering?
    requires s.entries[id].payment.status.Claimable? || s.entries[id].payment.status.PartiallySettled?
    ensures var c, after := StartShardRecovery(s.entries[id].owner, id, 0), s.entries[id].(status := Recovering);
            && Step(s, c) == Ok(Put(s, id, after)) && Valid(Put(s, id, after))
  {
    hide Valid, StartRecovery, Sound, Timely, PlacedWith;
    ValidSlots(s, id);
    StartableFromFinal(s.entries[id]);
    StepKeepsValid(s, StartShardRecovery(s.entries[id].owner, id, 0));
  }

  lemma StartableFromFinal(e: Entry)
    requires Sound(e) && (e.payment.status.Claimable? || e.payment.status.PartiallySettled?) && !e.status.Recovering?
    ensures StartRecovery(e, 0).Ok?
    ensures var after := StartRecovery(e, 0).value;
            after == e.(status := Recovering)
  {
    assert 0 in Below(e.terms.totalShards);
    assert 0 in e.placement.Keys;
  }

  lemma HasShards(e: Entry)
    requires Sound(e)
    ensures e.terms.totalShards >= 1
  {
    hide Lockstep;
  }

  lemma EndRecovery(s: State, id: Hash, a: Address, pid: nat)
    requires Ready(s, id, a, pid) && MovedUpTo(s.entries[id], pid, s.entries[id].terms.totalShards)
    ensures var c := RecordRebuiltShard(s.entries[id].owner, id, 0, pid, Word(1));
            && Step(s, c).Ok?
            && var s' := Step(s, c).value;
               && Valid(s') && s' == Put(s, id, s.entries[id].(status := Rebuilt)) && SameMoney(s, s', id)
  {
    hide Valid, Sound, Timely, PlacedWith;
    ValidSlots(s, id);
    HasShards(s.entries[id]);
    var c := RecordRebuiltShard(s.entries[id].owner, id, 0, pid, Word(1));
    assert Step(s, c).Ok?;
    StepKeepsValid(s, c);
  }

  function AllIndices(n: uint8): (indices: seq<uint8>)
    ensures |indices| == n && forall k :: 0 <= k < n ==> indices[k] == k
  {
    if n == 0 then [] else AllIndices(n - 1) + [n - 1]
  }

  lemma AllIndicesCover(n: uint8)
    ensures IndexSet(AllIndices(n)) == Below(n)
  {
    var indices := AllIndices(n);
    forall i | i in Below(n) ensures i in IndexSet(indices) {
      assert indices[i] as nat == i;
    }
    forall i | i in IndexSet(indices) ensures i in Below(n) {
      var k :| 0 <= k < |indices| && indices[k] as nat == i;
    }
  }

  // Past expiry a provider placed on and acknowledged for every shard collects
  // all that is left of the pool in one claim.
  lemma ClaimAllSettles(e: Entry, pid: nat, now: nat)
    requires Sound(e) && ClaimOpen(e) && now >= e.terms.expiresAt
    requires MovedUpTo(e, pid, e.terms.totalShards) && AckedUpTo(e, pid, e.terms.totalShards)
    ensures var c := Claim(e, Ok(pid), AllIndices(e.terms.totalShards), now);
            && c.Ok? && c.value.entry.payment.status.Settled?
            && c.value.amount == e.payment.providerPool - e.payment.providerSettled
            && c.value.feeReleased == e.payment.protocolFee
  {
    var n := e.terms.totalShards;
    var shards := Below(n);
    AllIndicesCover(n);
    assert Accounts(e);
    assert AllPayable(e, pid, shards);
    assert Timely(e, now);
    hide Sound, IndexSet, Claim, MovedUpTo, AckedUpTo, AllPayable, Accounts;
    SomethingLeft(e, now);
    ClaimOutcome(e, pid, AllIndices(n), now);
    AfterClaimHasAccounts(e, pid, shards, now);
    AfterClaimIsSound(e, pid, shards, now);
    PoolUsedUpByReserves(AfterClaim(e, shards, now));
    AllReserved(e, now);
  }

  lemma AllReserved(e: Entry, now: nat)
    requires Accounts(e) && now >= e.terms.expiresAt
    ensures var after := AfterClaim(e, Below(e.terms.totalShards), now);
            && after.reserve == Below(e.terms.totalShards)
            && after.terms == e.terms && after.payment.providerPool == e.payment.providerPool
            && after.payment.providerSettled == e.payment.providerSettled + AmountFor(e, now, Below(e.terms.totalShards))
            && (after.payment.providerSettled == after.payment.providerPool ==> after.payment.status.Settled?)
  {
    hide AmountFor;
  }

  lemma SomethingLeft(e: Entry, now: nat)
    requires Sound(e) && ClaimOpen(e) && now >= e.terms.expiresAt
    ensures AmountFor(e, now, Below(e.terms.totalShards)) > 0
  {
    var all := Below(e.terms.totalShards);
    NotAllReserved(e);
    var i :| i in all && i !in e.reserve;
    assert i in all - e.reserve;
    SomethingReserved(e, all, now);
  }

  lemma SomethingReserved(e: Entry, shards: set<nat>, now: nat)
    requires Accounts(e) && now >= e.terms.expiresAt && shards - e.reserve != {}
    ensures AmountFor(e, now, shards) > 0
  {
    hide Accounts, AmountFor;
    assert e.reserve + {} == e.reserve;
    GainsPays(e, now, shards);
  }

  lemma NotAllReserved(e: Entry)
    requires Sound(e) && ClaimOpen(e)
    ensures Accounts(e) && exists i :: i in Below(e.terms.totalShards) && i !in e.reserve
  {
    HasShards(e);
    var all := Below(e.terms.totalShards);
    assert 0 in all;
    assert Accounts(e);
    PoolUsedUpByReserves(e);
    if e.payment.status.PartiallySettled? {
      assert e.reserve != all && e.reserve <= all;
    }
    hide Accounts, Shards;
  }

  lemma ClaimGoesThrough(s: State, id: Hash, a: Address, pid: nat)
    requires Valid(s) && id in s.entries && a in s.providerIdOf && s.providerIdOf[a] == pid && IsActive(s, pid)
    requires s.entries[id].status.Rebuilt? && ClaimOpen(s.entries[id]) && s.now >= s.entries[id].terms.expiresAt
    requires MovedUpTo(s.entries[id], pid, s.entries[id].terms.totalShards)
    requires AckedUpTo(s.entries[id], pid, s.entries[id].terms.totalShards)
    ensures var e := s.entries[id];
            var c := ClaimProviderSettlement(a, id, AllIndices(e.terms.totalShards));
            && Step(s, c).Ok?
            && var s' := Step(s, c).value;
               && id in s'.entries && s'.entries[id].payment.status.Settled?
               && Sum(s'.ledger.history, PaidFor(id))
               == Sum(s.ledger.history, PaidFor(id)) + (e.payment.providerPool - e.payment.providerSettled)
               && s'.ledger.withdrawable == s.ledger.withdrawable + e.payment.protocolFee
  {
    hide Valid, Claim, Sound, MovedUpTo, AckedUpTo, ClaimOpen, Timely, PlacedWith, AllIndices, Sum;
    var e := s.entries[id];
    var c := ClaimProviderSettlement(a, id, AllIndices(e.terms.totalShards));
    ValidSlots(s, id);
    ClaimAllSettles(e, pid, s.now);
    NeverShortOfFunds(s, c);
    var claimed := Claim(e, Ok(pid), AllIndices(e.terms.totalShards), s.now).value;
    SumAppend(s.ledger.history, ToProvider(id, claimed.provider, a, claimed.immediate, claimed.reserve, claimed.amount), PaidFor(id));
  }

  // The calls by which any claimable payment is settled.
  lemma SettlingRun(s: State, id: Hash) returns (events: seq<Event>)
    requires Valid(s) && id in s.entries
    requires s.entries[id].payment.status.Claimable? || s.entries[id].payment.status.PartiallySettled?
    ensures var e, s' := s.entries[id], Run(s, events);
            && id in s'.entries && s'.entries[id].payment.status.Settled?
            && Sum(s'.ledger.history, PaidFor(id))
               == Sum(s.ledger.history, PaidFor(id)) + (e.payment.providerPool - e.payment.providerSettled)
            && s'.ledger.withdrawable == s.ledger.withdrawable + e.payment.protocolFee
  {
    hide Valid, Step, Run, Sum, PaidFor;
    var e := s.entries[id];
    var n := e.terms.totalShards;
    var a := RegisterFresh(s, id);
    var s1 := Step(s, RegisterProvider(a, "endpoint", Word(1))).value;
    var pid := s1.providerIdOf[a];
    RunOne(s, Do(RegisterProvider(a, "endpoint", Word(1))));
    var begin := BeginRecovery(s1, id, a, pid);
    var s2 := Run(s1, begin);
    var reassign := ReassignAll(s2, id, a, pid, n);
    var s3 := Run(s2, reassign);
    var acks := AcknowledgeAll(s3, id, a, pid, n);
    var s4 := Run(s3, acks);
    var finish := FinishSettlement(s4, id, a, pid);
    events := [Do(RegisterProvider(a, "endpoint", Word(1)))] + begin + reassign + acks + finish;
    var start := [Do(RegisterProvider(a, "endpoint", Word(1)))];
    RunConcat(s, start, begin);
    RunConcat(s, start + begin, reassign);
    RunConcat(s, start + begin + reassign, acks);
    RunConcat(s, start + begin + reassign + acks, finish);
  }

  lemma FinishSettlement(s: State, id: Hash, a: Address, pid: nat) returns (events: seq<Event>)
    requires Ready(s, id, a, pid)
    requires s.entries[id].payment.status.Claimable? || s.entries[id].payment.status.PartiallySettled?
    requires MovedUpTo(s.entries[id], pid, s.entries[id].terms.totalShards)
    requires AckedUpTo(s.entries[id], pid, s.entries[id].terms.totalShards)
    ensures var e, s' := s.entries[id], Run(s, events);
            && id in s'.entries && s'.entries[id].payment.status.Settled?
            && Sum(s'.ledger.history, PaidFor(id))
               == Sum(s.ledger.history, PaidFor(id)) + (e.payment.providerPool - e.payment.providerSettled)
            && s'.ledger.withdrawable == s.ledger.withdrawable + e.payment.protocolFee
  {
    hide Valid, Step, Run, Sum, PaidFor;
    var e := s.entries[id];
    var rebuilt := RecordRebuiltShard(e.owner, id, 0, pid, Word(1));
    EndRecovery(s, id, a, pid);
    var s1 := Step(s, rebuilt).value;
    var wait := Elapse(e.terms.expiresAt);
    ApplyKeepsValid(s1, wait);
    var s2 := Apply(s1, wait);
    ClaimGoesThrough(s2, id, a, pid);
    var claim := ClaimProviderSettlement(a, id, AllIndices(e.terms.totalShards));
    events := [Do(rebuilt)] + [wait, Do(claim)];
    RunOne(s, Do(rebuilt));
    RunTwo(s1, wait, Do(claim));
    RunConcat(s, [Do(rebuilt)], [wait, Do(claim)]);
  }

  // From any reachable state: register a fresh provider, move every shard onto
  // it, acknowledge, wait past expiry, and claim. With the one transfer, to the
  // new provider's operator, accepted, the providers get exactly what was left
  // of the pool, and the protocol its fee.
  lemma ClaimableCanBeSettled(s: State, id: Hash) returns (actions: seq<Action>)
    requires Valid(s) && id in s.entries
    requires s.entries[id].payment.status.Claimable? || s.entries[id].payment.status.PartiallySettled?
    ensures forall k :: 0 <= k < |actions| && actions[k].Send? ==> actions[k].t.nested == [] && actions[k].t.accepts
    ensures var e, s' := s.entries[id], Chain(s, actions);
            && id in s'.entries && s'.entries[id].payment.status.Settled?
            && Sum(s'.ledger.history, PaidFor(id))
               == Sum(s.ledger.history, PaidFor(id)) + (e.payment.providerPool - e.payment.providerSettled)
            && s'.ledger.withdrawable == s.ledger.withdrawable + e.payment.protocolFee
  {
    hide Valid, Run, Chain, Sum, PaidFor;
    var events := SettlingRun(s, id);
    actions := Accepted(events);
    AcceptedIsRun(s, events);
  }
}
