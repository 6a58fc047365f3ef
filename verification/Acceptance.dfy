// Exactly when each entry point of the contract goes through, and everything
// it writes, in terms of the caller, the arguments and the stored fields.
module Acceptance {
  import opened Prelude
  import opened Quote
  import opened Blob
  import opened BlobInvariants
  import opened Protocol
  import opened Ledgers
  import opened Invariants

  // ---- Administration ----

  lemma CoordinatorSet(s: State, sender: Address, account: Address, allowed: bool)
    ensures var r := Step(s, SetCoordinator(sender, account, allowed));
            && (r.Ok? <==> sender == s.admin && account != 0)
            && (r.Ok? ==> r.value == s.(coordinators := if allowed then s.coordinators + {account} else s.coordinators - {account}))
  {
  }

  lemma ControllerSet(s: State, sender: Address, account: Address, allowed: bool)
    ensures var r := Step(s, SetAccessController(sender, account, allowed));
            && (r.Ok? <==> sender == s.admin && account != 0)
            && (r.Ok? ==> r.value == s.(controllers := if allowed then s.controllers + {account} else s.controllers - {account}))
  {
  }

  lemma PricingSet(s: State, sender: Address, rate: nat, feeBps: nat)
    ensures var r := Step(s, SetNativePricing(sender, rate, feeBps));
            && (r.Ok? <==> sender == s.admin && rate > 0 && feeBps <= 10_000)
            && (r.Ok? ==> r.value == s.(rate := rate, feeBps := feeBps))
  {
  }

  lemma FeesWithdrawn(s: State, sender: Address, recipient: Address, amount: nat)
    requires Valid(s)
    ensures var r, l := Step(s, WithdrawProtocolFees(sender, recipient, amount)), s.ledger;
            && (r.Ok? <==> sender == s.admin && recipient != 0 && 0 < amount <= l.withdrawable)
            && (r.Ok? ==>
                  && amount <= l.balance
                  && r.value == s.(ledger := Ledger(l.withdrawable - amount, l.balance - amount, l.received, l.forced,
                                                    l.feesWithdrawn + amount, l.history + [FeesTo(recipient, amount)])))
  {
    hide Valid;
    NeverShortOfFunds(s, WithdrawProtocolFees(sender, recipient, amount));
  }

  // ---- Providers ----

  lemma ProviderRegistered(s: State, sender: Address, endpoint: string, signingKey: Hash)
    ensures var r, pid := Step(s, RegisterProvider(sender, endpoint, signingKey)), s.nextProviderId;
            && (r.Ok? <==> sender != 0 && sender !in s.providerIdOf && endpoint != "" && signingKey != ZeroHash)
            && (r.Ok? ==>
                  r.value == s.(nextProviderId := pid + 1,
                                providers := s.providers[pid := Provider(sender, endpoint, signingKey, true, s.now % 0x1_0000_0000_0000_0000)],
                                providerIdOf := s.providerIdOf[sender := pid]))
  {
  }

  lemma ProviderStatusSet(s: State, sender: Address, pid: nat, active: bool)
    ensures var r := Step(s, SetProviderStatus(sender, pid, active));
            && (r.Ok? <==> pid in s.providers && s.providers[pid].operator == sender)
            && (r.Ok? ==> r.value == s.(providers := s.providers[pid := s.providers[pid].(active := active)]))
  {
  }

  // ---- Registration ----

  // What every registration must meet.
  ghost predicate WellFormed(s: State, owner: Address, t: Registration) {
    && owner != 0 && t.blobId !in s.entries && t.blobId != ZeroHash && t.commitment != ZeroHash
    && t.size > 0 && t.chunkSize > 0 && 0 < t.dataShards <= t.totalShards
  }

  // A name is one to 1024 bytes, does not begin or end with a slash, and is
  // not yet taken by its owner.
  ghost predicate Nameable(s: State, owner: Address, name: seq<Byte>) {
    0 < |name| <= 1024 && name[0] != 0x2f && name[|name| - 1] != 0x2f && (owner, Keccak(name)) !in s.names
  }

  // The blob as it is first stored: pending, with nothing placed or claimed.
  ghost predicate Born(e: Entry, owner: Address, t: Registration, origin: BlobOrigin) {
    && e.owner == owner && e.terms == t && e.origin == origin && e.status.Pending? && e.ackCount == 0
    && e.placement == map[] && e.acks == map[] && e.immediate == {} && e.reserve == {}
  }

  lemma Added(
    s: State, owner: Address, t: Registration, named: bool, origin: BlobOrigin, policy: Policy, payment: Payment
  )
    ensures var r := AddBlob(s, owner, t, named, origin, policy, payment);
            && (r.Ok? <==> && WellFormed(s, owner, t) && (t.expiresAt == 0 || t.expiresAt > s.now)
                           && (if named then Nameable(s, owner, t.name) else t.name == []))
            && (r.Ok? ==>
                  && t.blobId in r.value.entries
                  && var e := r.value.entries[t.blobId];
                     && Born(e, owner, t, origin) && e.policy == policy && e.payment == payment
                     && r.value == s.(entries := s.entries[t.blobId := e],
                                      names := if named then s.names[(owner, Keccak(t.name)) := t.blobId] else s.names))
  {
  }

  lemma BlobCreated(s: State, sender: Address, t: Registration, named: bool, origin: BlobOrigin)
    ensures var r := Step(s, CreateBlob(sender, t, named, origin));
            && (r.Ok? <==> && (origin.Operator? <==> sender in s.coordinators) && WellFormed(s, sender, t)
                           && (t.expiresAt == 0 || t.expiresAt > s.now)
                           && (if named then Nameable(s, sender, t.name) else t.name == []))
            && (r.Ok? ==>
                  && t.blobId in r.value.entries
                  && var e := r.value.entries[t.blobId];
                     && Born(e, sender, t, origin) && e.payment.status.NoPayment? && e.policy.storageMode.Public?
                     && r.value == s.(entries := s.entries[t.blobId := e],
                                      names := if named then s.names[(sender, Keccak(t.name)) := t.blobId] else s.names))
  {
    hide AddBlob, WellFormed, Nameable;
    Added(s, sender, t, named, origin, NO_POLICY, NO_PAYMENT);
  }

  // Public blobs have no key envelope, others have one; confidential blobs,
  // and only they, are for computation only.
  ghost predicate SoundPolicy(p: Policy) {
    && p.policyCommitment != ZeroHash
    && (p.storageMode.Public? <==> p.keyEnvelopeCommitment == ZeroHash)
    && (p.storageMode.Confidential? <==> p.accessPolicy.ComputeOnly?)
  }

  // A paid creation takes exactly the quoted total and keeps it in escrow for
  // the sender, who gets the rest back.
  lemma PaidBlobCreated(s: State, sender: Address, value: nat, t: Registration, named: bool, policy: Policy)
    ensures var r := Step(s, CreateBlobPaid(sender, value, t, named, policy));
            var quote := QuoteNativePayment(t.size, t.totalShards, policy.storageMode, t.expiresAt, s.now, s.rate, s.feeBps);
            && (r.Ok? <==> && sender !in s.coordinators && WellFormed(s, sender, t) && t.expiresAt > s.now
                           && (named <==> t.name != []) && (named ==> Nameable(s, sender, t.name))
                           && SoundPolicy(policy) && quote.Ok? && value >= quote.value.total)
            && (r.Ok? ==>
                  && t.blobId in r.value.entries
                  && var e, q, l := r.value.entries[t.blobId], quote.value, s.ledger;
                     && Born(e, sender, t, User) && e.policy == policy
                     && e.payment == Payment(Escrowed, sender, q.total, q.providerPool, q.rewardPerShard, q.protocolFee, 0,
                                             s.now % 0x1_0000_0000_0000_0000, 0)
                     && r.value == s.(entries := s.entries[t.blobId := e],
                                      names := if named then s.names[(sender, Keccak(t.name)) := t.blobId] else s.names,
                                      ledger := Ledger(l.withdrawable, l.balance + q.total, l.received + value, l.forced, l.feesWithdrawn,
                                                       if value == q.total then l.history
                                                       else l.history + [ChangeTo(sender, value - q.total)])))
  {
    hide Step, QuoteNativePayment, WellFormed, Nameable, SoundPolicy, Born;
    PaidGuards(s, sender, value, t, named, policy);
    if Step(s, Call.CreateBlobPaid(sender, value, t, named, policy)).Ok? {
      PaidWrites(s, sender, value, t, named, policy);
    }
  }

  lemma PaidGuards(s: State, sender: Address, value: nat, t: Registration, named: bool, policy: Policy)
    ensures var quote := QuoteNativePayment(t.size, t.totalShards, policy.storageMode, t.expiresAt, s.now, s.rate, s.feeBps);
            Step(s, Call.CreateBlobPaid(sender, value, t, named, policy)).Ok?
            <==> && sender !in s.coordinators && WellFormed(s, sender, t) && t.expiresAt > s.now
                 && (named <==> t.name != []) && (named ==> Nameable(s, sender, t.name))
                 && SoundPolicy(policy) && quote.Ok? && value >= quote.value.total
  {
    hide QuoteNativePayment, AddBlob, WellFormed, Nameable, Born, Receive, Escrow, ReturnChange;
    var c := Call.CreateBlobPaid(sender, value, t, named, policy);
    assert Step(s, c) == CreatePaid(s, c);
    var quote := QuoteNativePayment(t.size, t.totalShards, policy.storageMode, t.expiresAt, s.now, s.rate, s.feeBps);
    if quote.Ok? && value >= quote.value.total {
      AddedFunded(s, sender, value, t, named, policy, Escrow(sender, quote.value, s.now), quote.value.total);
    }
  }

  // What was received covers the change.
  lemma AddedFunded(
    s: State, sender: Address, value: nat, t: Registration, named: bool, policy: Policy, payment: Payment, total: nat
  )
    requires total <= value
    ensures var r := AddBlob(Receive(s, value), sender, t, named, User, policy, payment);
            && (r.Ok? <==> && WellFormed(s, sender, t) && (t.expiresAt == 0 || t.expiresAt > s.now)
                           && (if named then Nameable(s, sender, t.name) else t.name == []))
            && (r.Ok? ==> ReturnChange(r.value, sender, value - total).Ok?)
  {
    hide AddBlob, WellFormed, Nameable, Born;
    Added(Receive(s, value), sender, t, named, User, policy, payment);
    WellFormedIgnoresMoney(s, Receive(s, value), sender, t);
  }

  lemma PaidWrites(s: State, sender: Address, value: nat, t: Registration, named: bool, policy: Policy)
    requires Step(s, Call.CreateBlobPaid(sender, value, t, named, policy)).Ok?
    ensures var s' := Step(s, Call.CreateBlobPaid(sender, value, t, named, policy)).value;
            var quote := QuoteNativePayment(t.size, t.totalShards, policy.storageMode, t.expiresAt, s.now, s.rate, s.feeBps);
            && quote.Ok? && quote.value.total <= value && t.blobId in s'.entries
            && var e, q, l := s'.entries[t.blobId], quote.value, s.ledger;
               && Born(e, sender, t, User) && e.policy == policy
               && e.payment == Payment(Escrowed, sender, q.total, q.providerPool, q.rewardPerShard, q.protocolFee, 0,
                                       s.now % 0x1_0000_0000_0000_0000, 0)
               && s' == s.(entries := s.entries[t.blobId := e],
                           names := if named then s.names[(sender, Keccak(t.name)) := t.blobId] else s.names,
                           ledger := Ledger(l.withdrawable, l.balance + q.total, l.received + value, l.forced, l.feesWithdrawn,
                                            if value == q.total then l.history else l.history + [ChangeTo(sender, value - q.total)]))
  {
    hide QuoteNativePayment, AddBlob, CreatePaid, WellFormed, Nameable, Born;
    var c := Call.CreateBlobPaid(sender, value, t, named, policy);
    assert Step(s, c) == CreatePaid(s, c);
    CreatePaidShape(s, c);
    var quote := QuoteNativePayment(t.size, t.totalShards, policy.storageMode, t.expiresAt, s.now, s.rate, s.feeBps).value;
    Added(Receive(s, value), sender, t, named, User, policy, Escrow(sender, quote, s.now));
  }

  lemma WellFormedIgnoresMoney(s: State, s': State, owner: Address, t: Registration)
    requires s'.entries == s.entries && s'.names == s.names
    ensures WellFormed(s', owner, t) == WellFormed(s, owner, t) && Nameable(s', owner, t.name) == Nameable(s, owner, t.name)
  {
  }

  // ---- Claims ----

  // The claim pays the reward of a shard once, and from the expiry on its
  // reserve, which is the rest of its share of the pool.
  ghost predicate SomethingDue(e: Entry, shards: set<nat>, now: nat) {
    || (e.payment.rewardPerShard > 0 && exists i :: i in shards && i !in e.immediate)
    || (now >= e.terms.expiresAt && exists i :: i in shards && i !in e.reserve)
  }

  ghost function Due(e: Entry, shards: set<nat>, now: nat): int
    requires e.terms.totalShards > 0
  {
    var reward := e.payment.rewardPerShard;
    reward * |shards - e.immediate|
    + (if now >= e.terms.expiresAt then (e.payment.providerPool / e.terms.totalShards - reward) * |shards - e.reserve| else 0)
  }

  lemma DueIs(e: Entry, pid: nat, shards: set<nat>, now: nat)
    requires Sound(e) && ClaimOpen(e)
    ensures e.terms.totalShards > 0 && Due(e, shards, now) == AmountFor(e, now, shards)
    ensures AmountFor(e, now, shards) > 0 <==> SomethingDue(e, shards, now)
  {
    hide Lockstep, Accounts, Counted, Placed, AmountFor, Due, SomethingDue, Gains;
    assert e.terms.totalShards > 0;
    OpenHasAccounts(e);
    AmountIsDue(e, shards, now);
    GainsPays(e, now, shards);
    GainsIsSomething(e, shards, now);
  }

  lemma AmountIsDue(e: Entry, shards: set<nat>, now: nat)
    requires e.terms.totalShards > 0
    ensures Due(e, shards, now) == AmountFor(e, now, shards)
  {
    var share := ReserveShare(e);
    assert share == e.payment.providerPool / e.terms.totalShards - e.payment.rewardPerShard;
    hide ReserveShare;
  }

  lemma GainsIsSomething(e: Entry, shards: set<nat>, now: nat)
    ensures Gains(e, now, {}, shards) <==> SomethingDue(e, shards, now)
  {
    assert e.immediate + {} == e.immediate && e.reserve + {} == e.reserve;
    SomeLeft(shards, e.immediate);
    SomeLeft(shards, e.reserve);
  }

  lemma SomeLeft(shards: set<nat>, marked: set<nat>)
    ensures shards - marked != {} <==> exists i :: i in shards && i !in marked
  {
    if i :| i in shards && i !in marked {
      assert i in shards - marked;
    }
    if shards - marked != {} {
      var i :| i in shards - marked;
      assert i in shards && i !in marked;
    }
  }

  lemma ClaimAccepted(s: State, sender: Address, id: Hash, indices: seq<uint8>)
    requires Valid(s)
    ensures Step(s, ClaimProviderSettlement(sender, id, indices)).Ok?
       <==> && id in s.entries && sender in s.providerIdOf && ProviderUp(s, s.providerIdOf[sender])
            && var e, pid, shards := s.entries[id], s.providerIdOf[sender], IndexSet(indices);
               && (e.status.Active? || e.status.Rebuilt?)
               && (e.payment.status.Claimable? || e.payment.status.PartiallySettled?)
               && (forall i :: i in shards ==>
                     i < e.terms.totalShards && i in e.placement && e.placement[i] == pid && (pid, i) in e.acks)
               && SomethingDue(e, shards, s.now)
  {
    hide Valid, Sound, Timely, PlacedWith, Claim, IndexSet, AmountFor, SomethingDue;
    var c := ClaimProviderSettlement(sender, id, indices);
    if id in s.entries && CallerProvider(s, sender).Ok? {
      var e, pid := s.entries[id], s.providerIdOf[sender];
      ValidSlots(s, id);
      ClaimOutcome(e, pid, indices, s.now);
      if ClaimOpen(e) {
        DueIs(e, pid, IndexSet(indices), s.now);
      }
      NeverShortOfFunds(s, c);
    } else if Step(s, c).Ok? {
      ClaimShape(s, c);
      assert false;
    }
  }

  // The slots after a claim, and the ledger after its payout.
  ghost predicate ClaimedInto(e: Entry, e': Entry, shards: set<nat>, now: nat)
    requires e.terms.totalShards > 0
  {
    var p, settled := e.payment, e.payment.providerSettled + Due(e, shards, now);
    && settled >= 0
    && e' == e.(
         immediate := e.immediate + shards,
         reserve := if now >= e.terms.expiresAt then e.reserve + shards else e.reserve,
         payment := if settled == p.providerPool
                    then p.(providerSettled := settled, status := Settled, settledAt := now % 0x1_0000_0000_0000_0000)
                    else p.(providerSettled := settled, status := PartiallySettled))
  }

  lemma ClaimWritten(s: State, sender: Address, id: Hash, indices: seq<uint8>)
    requires Valid(s) && Step(s, ClaimProviderSettlement(sender, id, indices)).Ok?
    ensures id in s.entries && sender in s.providerIdOf && s.entries[id].terms.totalShards > 0
    ensures var s', e, shards := Step(s, ClaimProviderSettlement(sender, id, indices)).value, s.entries[id], IndexSet(indices);
            && id in s'.entries && ClaimedInto(e, s'.entries[id], shards, s.now)
            && var amount, l := Due(e, shards, s.now), s.ledger;
               && 0 < amount <= l.balance
               && s' == s.(entries := s.entries[id := s'.entries[id]],
                           ledger := l.(
                             withdrawable := l.withdrawable + if s'.entries[id].payment.status.Settled? then e.payment.protocolFee else 0,
                             balance := l.balance - amount,
                             history := l.history + [ToProvider(id, s.providerIdOf[sender], sender, shards - e.immediate,
                                                                if s.now >= e.terms.expiresAt then shards - e.reserve else {}, amount)]))
  {
    hide Valid, Sound, Timely, PlacedWith, Claim, Step, IndexSet, AmountFor, SomethingDue, Due, MarkAll;
    var c := ClaimProviderSettlement(sender, id, indices);
    ClaimShape(s, c);
    ValidSlots(s, id);
    var e, pid := s.entries[id], s.providerIdOf[sender];
    ClaimOutcome(e, pid, indices, s.now);
    DueIs(e, pid, IndexSet(indices), s.now);
    AfterClaimIsWritten(e, IndexSet(indices), s.now);
  }

  lemma AfterClaimIsWritten(e: Entry, shards: set<nat>, now: nat)
    requires Accounts(e) && e.terms.totalShards > 0 && Due(e, shards, now) == AmountFor(e, now, shards) > 0
    ensures ClaimedInto(e, AfterClaim(e, shards, now), shards, now)
  {
    hide Accounts, AmountFor, Due, ReserveShare;
  }

  // ---- Money back ----

  // Only the owner, only from an escrow that was never finalized, and only
  // after the expiry.
  lemma BlobRefunded(s: State, sender: Address, id: Hash)
    requires Valid(s)
    ensures var r := Step(s, RefundPaidBlob(sender, id));
            && (r.Ok? <==> && id in s.entries && s.entries[id].owner == sender
                           && s.entries[id].payment.status.Escrowed? && s.entries[id].status.Pending?
                           && s.now > s.entries[id].terms.expiresAt > 0)
            && (r.Ok? ==>
                  var e, l := s.entries[id], s.ledger;
                  var p := e.payment;
                  && p.totalPaid <= l.balance
                  && r.value == s.(entries := s.entries[id := e.(payment := p.(status := Refunded))],
                                   ledger := l.(balance := l.balance - p.totalPaid,
                                                history := l.history + [RefundTo(id, p.payer, p.totalPaid)])))
  {
    hide Valid;
    NeverShortOfFunds(s, RefundPaidBlob(sender, id));
  }

  // ---- Confidential access ----

  lemma WalletSelected(s: State, sender: Address, id: Hash, wallet: Address, allowed: bool)
    ensures var r := Step(s, SetBlobWalletAccess(sender, id, wallet, allowed));
            && (r.Ok? <==> && id in s.entries && s.entries[id].owner == sender && wallet != 0
                           && s.entries[id].policy.accessPolicy.SelectedWallets?)
            && (r.Ok? ==> r.value == s.(selected := if allowed then s.selected + {(id, wallet)} else s.selected - {(id, wallet)}))
  {
  }

  // The blob is neither revoked nor expired, and the requester is its owner or
  // one of the wallets its owner has selected.
  ghost predicate Accessible(s: State, id: Hash, requester: Address) {
    && id in s.entries
    && var e := s.entries[id];
       && !e.status.Revoked? && (e.terms.expiresAt == 0 || e.terms.expiresAt > s.now)
       && (requester == e.owner || (e.policy.accessPolicy.SelectedWallets? && (id, requester) in s.selected))
  }

  // Computation where the data must not leave, viewing elsewhere.
  ghost predicate Purposeful(p: Policy, purpose: AccessPurpose) {
    && !p.storageMode.Public?
    && (purpose.Compute? <==> p.storageMode.Confidential? || p.accessPolicy.ComputeOnly?)
  }

  lemma AccessAuthorized(s: State, sender: Address, r: AccessRequest, signer: Option<Address>)
    ensures var result, key := Step(s, AuthorizeAccess(sender, r, signer)), (r.blobId, r.requester);
            && (result.Ok? <==> && Accessible(s, r.blobId, r.requester) && Purposeful(s.entries[r.blobId].policy, r.purpose)
                                && r.requester != 0 && r.deviceKey != ZeroHash && signer == Some(r.requester)
                                && s.now <= r.deadline <= s.now + 86_400
                                && r.nonce == (if key in s.nonces then s.nonces[key] else 0))
            && (result.Ok? ==>
                  result.value == s.(nonces := s.nonces[key := r.nonce + 1], requests := s.requests[r := false]))
  {
  }

  lemma ResultRecorded(s: State, sender: Address, r: AccessRequest, response: Hash)
    ensures var result := Step(s, RecordAccessResult(sender, r, response));
            && (result.Ok? <==> && sender in s.controllers && response != ZeroHash
                                && r in s.requests && !s.requests[r] && s.now <= r.deadline && Accessible(s, r.blobId, r.requester))
            && (result.Ok? ==> result.value == s.(requests := s.requests[r := true]))
  {
  }

  // ---- Placement and recovery ----

  // The blob's owner or a coordinator.
  ghost predicate InCharge(s: State, sender: Address, id: Hash) {
    id in s.entries && (s.entries[id].owner == sender || sender in s.coordinators)
  }

  ghost predicate ProviderUp(s: State, pid: nat) {
    pid in s.providers && s.providers[pid].active
  }

  lemma ShardAssigned(s: State, sender: Address, id: Hash, i: uint8, pid: nat)
    ensures var r := Step(s, AssignShard(sender, id, i, pid));
            && (r.Ok? <==> && InCharge(s, sender, id) && s.entries[id].status.Pending? && i < s.entries[id].terms.totalShards
                           && ProviderUp(s, pid) && i !in s.entries[id].placement)
            && (r.Ok? ==> r.value == s.(entries := s.entries[id := s.entries[id].(placement := s.entries[id].placement[i := pid])]))
  {
  }

  lemma ShardAcknowledged(s: State, sender: Address, id: Hash, i: uint8, commitment: Hash, size: uint64)
    ensures var r := Step(s, AcknowledgeShard(sender, id, i, commitment, size));
            && (r.Ok? <==> && id in s.entries && (s.entries[id].status.Pending? || s.entries[id].status.Recovering?)
                           && i < s.entries[id].terms.totalShards && commitment != ZeroHash && size > 0
                           && sender in s.providerIdOf && ProviderUp(s, s.providerIdOf[sender])
                           && i in s.entries[id].placement && s.entries[id].placement[i] == s.providerIdOf[sender])
            && (r.Ok? ==>
                  var e, key := s.entries[id], (s.providerIdOf[sender], i as nat);
                  r.value == s.(entries := s.entries[id := e.(
                    ackCount := if key in e.acks then e.ackCount else e.ackCount + 1,
                    acks := e.acks[key := Acknowledgement(commitment, size, s.now % 0x1_0000_0000_0000_0000)])]))
  {
  }

  lemma BlobFinalized(s: State, sender: Address, id: Hash)
    ensures var r := Step(s, FinalizeBlob(sender, id));
            && (r.Ok? <==> && InCharge(s, sender, id) && s.entries[id].status.Pending?
                           && s.entries[id].ackCount == s.entries[id].terms.totalShards)
            && (r.Ok? ==>
                  var e := s.entries[id];
                  r.value == s.(entries := s.entries[id := e.(
                    status := BlobStatus.Active,
                    payment := if e.payment.status.Escrowed? then e.payment.(status := Claimable) else e.payment)]))
  {
  }

  lemma RecoveryStarted(s: State, sender: Address, id: Hash, i: uint8)
    ensures var r := Step(s, StartShardRecovery(sender, id, i));
            && (r.Ok? <==> && InCharge(s, sender, id) && (s.entries[id].status.Active? || s.entries[id].status.Rebuilt?)
                           && i < s.entries[id].terms.totalShards && i in s.entries[id].placement)
            && (r.Ok? ==> r.value == s.(entries := s.entries[id := s.entries[id].(status := Recovering)]))
  {
  }

  lemma ShardReassigned(s: State, sender: Address, id: Hash, i: uint8, pid: nat)
    ensures var r := Step(s, ReassignShard(sender, id, i, pid));
            && (r.Ok? <==> && InCharge(s, sender, id) && s.entries[id].status.Recovering?
                           && i < s.entries[id].terms.totalShards && ProviderUp(s, pid))
            && (r.Ok? ==> r.value == s.(entries := s.entries[id := s.entries[id].(placement := s.entries[id].placement[i := pid])]))
  {
  }

  lemma RebuiltRecorded(s: State, sender: Address, id: Hash, i: uint8, pid: nat, commitment: Hash)
    ensures var r := Step(s, RecordRebuiltShard(sender, id, i, pid, commitment));
            && (r.Ok? <==> && InCharge(s, sender, id) && s.entries[id].status.Recovering?
                           && i < s.entries[id].terms.totalShards && pid != 0 && commitment != ZeroHash
                           && i in s.entries[id].placement && s.entries[id].placement[i] == pid)
            && (r.Ok? ==> r.value == s.(entries := s.entries[id := s.entries[id].(status := Rebuilt)]))
  {
  }
}
