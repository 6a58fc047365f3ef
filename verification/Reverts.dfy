// Every revert names a guard that really failed.
module Reverts {
  import opened Prelude
  import opened Quote
  import opened Blob
  import opened BlobInvariants
  import opened Protocol
  import opened Ledgers
  import opened Invariants
  import opened Acceptance

  ghost predicate AdministrationAmiss(s: State, c: Call, reason: Error)
    requires c.SetCoordinator? || c.SetAccessController? || c.SetNativePricing? || c.WithdrawProtocolFees?
  {
    || (reason.NotAdmin? && c.sender != s.admin)
    || (reason.InvalidAddress? && !c.SetNativePricing? && (if c.WithdrawProtocolFees? then c.recipient else c.account) == 0)
    || (reason.InvalidPricing? && c.SetNativePricing? && (c.newRate == 0 || c.newFeeBps > 10_000))
    || (reason.InvalidFeeAmount? && c.WithdrawProtocolFees? && !(0 < c.amount <= s.ledger.withdrawable))
  }

  ghost predicate ProviderAmiss(s: State, c: Call, reason: Error)
    requires c.RegisterProvider? || c.SetProviderStatus?
  {
    if c.RegisterProvider? then
      || (reason.InvalidAddress? && c.sender == 0)
      || (reason.ProviderAlreadyRegistered? && c.sender in s.providerIdOf)
      || (reason.EndpointRequired? && c.endpoint == "")
      || (reason.SigningKeyRequired? && c.signingKey == ZeroHash)
    else
      reason.NotProviderOperator? && !(c.providerId in s.providers && s.providers[c.providerId].operator == c.sender)
  }

  ghost predicate SelectionAmiss(s: State, c: Call, reason: Error)
    requires c.SetBlobWalletAccess?
  {
    if c.blobId !in s.entries then reason.BlobMissing?
    else
      var e := s.entries[c.blobId];
      || (reason.NotBlobOwner? && e.owner != c.sender)
      || (reason.InvalidAddress? && c.wallet == 0)
      || (reason.SelectedWalletPolicyRequired? && !e.policy.accessPolicy.SelectedWallets?)
  }

  ghost predicate RequestAmiss(s: State, c: Call, reason: Error)
    requires c.AuthorizeAccess?
  {
    var r, key := c.request, (c.request.blobId, c.request.requester);
    if r.blobId !in s.entries then reason.BlobMissing?
    else
      var e := s.entries[r.blobId];
      || (reason.EncryptedStorageRequired? && e.policy.storageMode.Public?)
      || (reason.RequesterRequired? && r.requester == 0)
      || (reason.DeviceKeyRequired? && r.deviceKey == ZeroHash)
      || (reason.BlobRevoked? && e.status.Revoked?)
      || (reason.AccessExpired? && (0 < e.terms.expiresAt <= s.now || r.deadline < s.now))
      || (reason.DeadlineTooFar? && r.deadline > s.now + 86_400)
      || (reason.InvalidNonce? && r.nonce != if key in s.nonces then s.nonces[key] else 0)
      || (reason.WrongPurpose? && !Purposeful(e.policy, r.purpose))
      || (reason.NotAuthorized? && r.requester != e.owner && !(e.policy.accessPolicy.SelectedWallets? && key in s.selected))
      || (reason.InvalidSignature? && c.signer != Some(r.requester))
  }

  ghost predicate RecordAmiss(s: State, c: Call, reason: Error)
    requires c.RecordAccessResult?
  {
    var r := c.request;
    || (reason.NotAccessController? && c.sender !in s.controllers)
    || (reason.ResponseRequired? && c.response == ZeroHash)
    || (reason.AccessUnusable?
        && !(r in s.requests && !s.requests[r] && s.now <= r.deadline && Accessible(s, r.blobId, r.requester)))
  }

  ghost predicate RegistrationAmiss(s: State, c: Call, reason: Error)
    requires c.CreateBlob? || c.CreateBlobPaid?
  {
    var t := c.terms;
    || (reason.CoordinatorMustUseOperatorCreation? && c.sender in s.coordinators && (c.CreateBlob? ==> c.origin.User?))
    || (reason.NotCoordinator? && c.CreateBlob? && c.origin.Operator? && c.sender !in s.coordinators)
    || (reason.InvalidAddress? && c.sender == 0)
    || (reason.BlobExists? && t.blobId in s.entries)
    || (reason.BlobIdRequired? && t.blobId == ZeroHash)
    || (reason.CommitmentRequired? && t.commitment == ZeroHash)
    || (reason.SizeRequired? && t.size == 0)
    || (reason.ChunkSizeRequired? && t.chunkSize == 0)
    || (reason.DataShardsRequired? && t.dataShards == 0)
    || (reason.InvalidShardCount? && t.totalShards < t.dataShards)
    || (reason.InvalidExpiry? && 0 < t.expiresAt <= s.now)
    || (reason.UnexpectedBlobName? && !c.named && t.name != [])
    || (reason.InvalidBlobName?
        && (c.named != (t.name != []) || !(0 < |t.name| <= 1024) || t.name[0] == 0x2f || t.name[|t.name| - 1] == 0x2f))
    || (reason.BlobNameTaken? && c.named && (c.sender, Keccak(t.name)) in s.names)
    || (c.CreateBlobPaid? && PaymentAmiss(s, c, reason))
  }

  ghost predicate PaymentAmiss(s: State, c: Call, reason: Error)
    requires c.CreateBlobPaid?
  {
    var t := c.terms;
    var quote := QuoteNativePayment(t.size, t.totalShards, c.policy.storageMode, t.expiresAt, s.now, s.rate, s.feeBps);
    || (reason.PaidExpiryRequired? && t.expiresAt <= s.now)
    || (reason.InvalidPolicy? && !SoundPolicy(c.policy))
    || (reason.QuoteFailed? && quote == Err(reason.reason))
    || (reason.IncorrectPayment? && quote.Ok? && c.value < quote.value.total)
  }

  ghost predicate PlacementAmiss(s: State, c: Call, reason: Error)
    requires c.AssignShard? || c.FinalizeBlob?
  {
    if c.blobId !in s.entries then reason.BlobMissing?
    else
      var e := s.entries[c.blobId];
      || (reason.NotBlobController? && !InCharge(s, c.sender, c.blobId))
      || (reason.BlobNotPending? && !e.status.Pending?)
      || (if c.FinalizeBlob? then reason.MissingAcknowledgements? && e.ackCount != e.terms.totalShards
          else
            || (reason.InvalidShardIndex? && c.shard >= e.terms.totalShards)
            || (reason.ProviderInactive? && !ProviderUp(s, c.providerId))
            || (reason.ShardAlreadyAssigned? && c.shard in e.placement))
  }

  ghost predicate AcknowledgementAmiss(s: State, c: Call, reason: Error)
    requires c.AcknowledgeShard?
  {
    if c.blobId !in s.entries then reason.BlobMissing?
    else
      var e := s.entries[c.blobId];
      || (reason.BlobNotWritable? && !e.status.Pending? && !e.status.Recovering?)
      || (reason.InvalidShardIndex? && c.shard >= e.terms.totalShards)
      || (reason.CommitmentRequired? && c.commitment == ZeroHash)
      || (reason.SizeRequired? && c.size == 0)
      || (if c.sender !in s.providerIdOf then reason.ProviderNotRegistered?
          else
            var pid := s.providerIdOf[c.sender];
            || (reason.ProviderInactive? && !ProviderUp(s, pid))
            || (reason.ProviderNotAssigned? && !(c.shard in e.placement && e.placement[c.shard] == pid)))
  }

  ghost predicate RecoveryAmiss(s: State, c: Call, reason: Error)
    requires c.StartShardRecovery? || c.ReassignShard? || c.RecordRebuiltShard?
  {
    if c.blobId !in s.entries then reason.BlobMissing?
    else
      var e := s.entries[c.blobId];
      var placed := if c.shard in e.placement then e.placement[c.shard] else 0;
      || (reason.NotBlobController? && !InCharge(s, c.sender, c.blobId))
      || (reason.InvalidShardIndex? && c.shard >= e.terms.totalShards)
      || (if c.StartShardRecovery? then
            || (reason.BlobNotActive? && !e.status.Active? && !e.status.Rebuilt?)
            || (reason.ShardNotAssigned? && c.shard !in e.placement)
          else if c.ReassignShard? then
            || (reason.RecoveryNotActive? && !e.status.Recovering?)
            || (reason.ProviderInactive? && !ProviderUp(s, c.providerId))
          else
            || (reason.RecoveryNotActive? && !e.status.Recovering?)
            || (reason.ProviderNotAssigned? && placed != c.providerId)
            || (reason.ShardNotAssigned? && placed == c.providerId == 0)
            || (reason.CommitmentRequired? && c.commitment == ZeroHash))
  }

  ghost predicate RefundAmiss(s: State, c: Call, reason: Error)
    requires c.RefundPaidBlob?
  {
    if c.blobId !in s.entries then reason.BlobMissing?
    else
      var e := s.entries[c.blobId];
      || (reason.NotBlobOwner? && e.owner != c.sender)
      || (reason.PaymentNotRefundable? && !e.payment.status.Escrowed?)
      || (reason.BlobAlreadyActive? && !e.status.Pending?)
      || (reason.RefundWindowClosed? && (e.terms.expiresAt == 0 || s.now <= e.terms.expiresAt))
  }

  ghost predicate ClaimAmiss(s: State, c: Call, reason: Error)
    requires c.ClaimProviderSettlement?
  {
    if c.blobId !in s.entries then reason.BlobMissing?
    else
      var e := s.entries[c.blobId];
      || (reason.BlobNotSettled? && !e.status.Active? && !e.status.Rebuilt?)
      || (reason.PaymentNotClaimable? && !e.payment.status.Claimable? && !e.payment.status.PartiallySettled?)
      || (if c.sender !in s.providerIdOf then reason.ProviderNotRegistered?
          else
            var pid := s.providerIdOf[c.sender];
            (reason.ProviderInactive? && !ProviderUp(s, pid)) || ListAmiss(e, pid, c.shards, s.now, reason))
  }

  // What is wrong with the shards an active provider lists.
  ghost predicate ListAmiss(e: Entry, pid: nat, indices: seq<uint8>, now: nat, reason: Error) {
    || (reason.ShardsRequired? && indices == [])
    || (reason.SettlementEmpty? && !SomethingDue(e, IndexSet(indices), now))
    || exists i: uint8 :: i in indices && ShardAmiss(e, pid, i, reason)
  }

  ghost predicate ShardAmiss(e: Entry, pid: nat, i: uint8, reason: Error) {
    || (reason.InvalidShardIndex? && i >= e.terms.totalShards)
    || (reason.ProviderNotAssigned? && !(i in e.placement && e.placement[i] == pid))
    || (reason.ShardNotAcknowledged? && (pid, i as nat) !in e.acks)
  }

  ghost predicate Amiss(s: State, c: Call, reason: Error) {
    if c.SetBlobWalletAccess? then SelectionAmiss(s, c, reason)
    else if c.AuthorizeAccess? then RequestAmiss(s, c, reason)
    else if c.RecordAccessResult? then RecordAmiss(s, c, reason)
    else if c.RegisterProvider? || c.SetProviderStatus? then ProviderAmiss(s, c, reason)
    else if c.CreateBlob? || c.CreateBlobPaid? then RegistrationAmiss(s, c, reason)
    else if c.AssignShard? || c.FinalizeBlob? then PlacementAmiss(s, c, reason)
    else if c.AcknowledgeShard? then AcknowledgementAmiss(s, c, reason)
    else if c.StartShardRecovery? || c.ReassignShard? || c.RecordRebuiltShard? then RecoveryAmiss(s, c, reason)
    else if c.ClaimProviderSettlement? then ClaimAmiss(s, c, reason)
    else if c.RefundPaidBlob? then RefundAmiss(s, c, reason)
    else AdministrationAmiss(s, c, reason)
  }

  lemma AddingReverts(s: State, owner: Address, t: Registration, named: bool, origin: BlobOrigin, policy: Policy, payment: Payment, c: Call)
    requires (c.CreateBlob? || c.CreateBlobPaid?) && c.sender == owner && c.terms == t && c.named == named
    requires AddBlob(s, owner, t, named, origin, policy, payment).Err?
    ensures RegistrationAmiss(s, c, AddBlob(s, owner, t, named, origin, policy, payment).error)
  {
  }

  lemma CreationReverts(s: State, c: Call)
    requires (c.CreateBlob? || c.CreateBlobPaid?) && Step(s, c).Err?
    ensures RegistrationAmiss(s, c, Step(s, c).error)
  {
    hide QuoteNativePayment, AddBlob, ReturnChange;
    if c.CreateBlob? {
      if AddBlob(s, c.sender, c.terms, c.named, c.origin, NO_POLICY, NO_PAYMENT).Err? {
        AddingReverts(s, c.sender, c.terms, c.named, c.origin, NO_POLICY, NO_PAYMENT, c);
      }
    } else {
      PaidCreationReverts(s, c);
    }
  }

  // The checks before the registration itself.
  ghost predicate PaymentInOrder(s: State, c: Call)
    requires c.CreateBlobPaid?
  {
    var t := c.terms;
    var quote := QuoteNativePayment(t.size, t.totalShards, c.policy.storageMode, t.expiresAt, s.now, s.rate, s.feeBps);
    && c.sender !in s.coordinators && (c.named <==> t.name != []) && t.expiresAt > s.now && ValidPolicy(c.policy)
    && quote.Ok? && c.value >= quote.value.total
  }

  lemma PaidCreationReverts(s: State, c: Call)
    requires c.CreateBlobPaid? && Step(s, c).Err?
    ensures RegistrationAmiss(s, c, Step(s, c).error)
  {
    hide CreatePaid, PaymentInOrder, RegistrationAmiss;
    assert Step(s, c) == CreatePaid(s, c);
    if PaymentInOrder(s, c) {
      FundedCreationReverts(s, c);
    } else {
      EarlyPaidReverts(s, c);
    }
  }

  lemma EarlyPaidReverts(s: State, c: Call)
    requires c.CreateBlobPaid? && !PaymentInOrder(s, c)
    ensures CreatePaid(s, c).Err? && RegistrationAmiss(s, c, CreatePaid(s, c).error)
  {
    hide QuoteNativePayment, AddBlob, ReturnChange, Receive, Escrow;
  }

  lemma FundedCreationReverts(s: State, c: Call)
    requires c.CreateBlobPaid? && PaymentInOrder(s, c) && CreatePaid(s, c).Err?
    ensures RegistrationAmiss(s, c, CreatePaid(s, c).error)
  {
    hide QuoteNativePayment, AddBlob, ReturnChange, WellFormed, Nameable, RegistrationAmiss, Escrow;
    var t := c.terms;
    var quote := QuoteNativePayment(t.size, t.totalShards, c.policy.storageMode, t.expiresAt, s.now, s.rate, s.feeBps).value;
    var payment, funded := Escrow(c.sender, quote, s.now), Receive(s, c.value);
    if AddBlob(funded, c.sender, t, c.named, User, c.policy, payment).Err? {
      AddingReverts(funded, c.sender, t, c.named, User, c.policy, payment, c);
      AmissIgnoresMoney(s, c, CreatePaid(s, c).error);
    } else {
      AddedFunded(s, c.sender, c.value, t, c.named, c.policy, payment, quote.total);
    }
  }

  lemma AmissIgnoresMoney(s: State, c: Call, reason: Error)
    requires c.CreateBlobPaid? && RegistrationAmiss(Receive(s, c.value), c, reason)
    ensures RegistrationAmiss(s, c, reason)
  {
    hide QuoteNativePayment, SoundPolicy;
  }

  lemma {:induction false} LoopReverts(e: Entry, pid: nat, perShard: nat, now: nat, indices: seq<uint8>)
    requires ClaimLoop(e, pid, perShard, now, indices).Err?
    ensures exists i: uint8 :: i in indices && ShardAmiss(e, pid, i, ClaimLoop(e, pid, perShard, now, indices).error)
  {
    var front, last := indices[..|indices| - 1], indices[|indices| - 1];
    if ClaimLoop(e, pid, perShard, now, front).Err? {
      LoopReverts(e, pid, perShard, now, front);
      var i: uint8 :| i in front && ShardAmiss(e, pid, i, ClaimLoop(e, pid, perShard, now, front).error);
      assert i in indices;
    } else {
      assert last in indices && ShardAmiss(e, pid, last, ClaimLoop(e, pid, perShard, now, indices).error);
    }
  }

  lemma ClaimReverts(s: State, c: Call)
    requires Valid(s) && c.ClaimProviderSettlement? && Step(s, c).Err?
    ensures ClaimAmiss(s, c, Step(s, c).error)
  {
    hide Valid, Sound, Timely, PlacedWith, Claim, PayClaim, ListAmiss;
    NeverShortOfFunds(s, c);
    if c.blobId in s.entries {
      var e, caller := s.entries[c.blobId], CallerProvider(s, c.sender);
      ValidSlots(s, c.blobId);
      EarlyClaimReverts(e, caller, c.shards, s.now);
      if Claim(e, caller, c.shards, s.now).Ok? {
        PaidOrShort(s, c.blobId, c.sender, Claim(e, caller, c.shards, s.now).value);
      } else if ClaimOpen(e) && caller.Ok? {
        OpenClaimReverts(e, caller.value, c.shards, s.now);
      }
    }
  }

  lemma EarlyClaimReverts(e: Entry, caller: Result<nat, Error>, indices: seq<uint8>, now: nat)
    ensures var r := Claim(e, caller, indices, now);
            && (!e.status.Active? && !e.status.Rebuilt? ==> r == Err(BlobNotSettled))
            && ((e.status.Active? || e.status.Rebuilt?) && !e.payment.status.Claimable? && !e.payment.status.PartiallySettled?
                ==> r == Err(PaymentNotClaimable))
            && (ClaimOpen(e) && caller.Err? ==> r == Err(caller.error))
  {
    hide ClaimLoop, ReservePerShard, Conclude;
  }

  lemma PaidOrShort(s: State, id: Hash, operator: Address, c: Claimed)
    ensures PayClaim(s, id, operator, c).Ok? || PayClaim(s, id, operator, c) == Err(TransferFailed)
  {
  }

  lemma OpenClaimReverts(e: Entry, pid: nat, indices: seq<uint8>, now: nat)
    requires Sound(e) && Timely(e, now) && ClaimOpen(e) && Claim(e, Ok(pid), indices, now).Err?
    ensures ListAmiss(e, pid, indices, now, Claim(e, Ok(pid), indices, now).error)
  {
    hide Sound, Timely, IndexSet, SomethingDue, AmountFor, ClaimLoop, ShardAmiss, ReserveShare, ReservePerShard, Conclude;
    ClaimOutcome(e, pid, indices, now);
    DueIs(e, pid, IndexSet(indices), now);
    var perShard := ReservePerShard(e);
    ReserveFaults(e);
    if indices != [] && perShard.Ok? {
      var loop := ClaimLoop(e, pid, perShard.value, now, indices);
      LoopFaults(e, pid, perShard.value, now, indices);
      if loop.Err? {
        LoopReverts(e, pid, perShard.value, now, indices);
      } else {
        ConcludeFaults(e, pid, loop.value, now);
        LoopCovers(e, pid, perShard.value, now, indices);
      }
    }
  }

  lemma {:induction false} LoopCovers(e: Entry, pid: nat, perShard: nat, now: nat, indices: seq<uint8>)
    requires ClaimLoop(e, pid, perShard, now, indices).Ok?
    ensures AllPayable(e, pid, IndexSet(indices))
  {
    if indices == [] {
    } else {
      var front, last := indices[..|indices| - 1], indices[|indices| - 1];
      LoopCovers(e, pid, perShard, now, front);
      IndexSetAppend(front, last);
      assert indices == front + [last];
    }
  }

  lemma ReserveFaults(e: Entry)
    ensures ReservePerShard(e).Err? ==> ReservePerShard(e) == Err(ArithmeticPanic)
  {
  }

  lemma ConcludeFaults(e: Entry, pid: nat, m: Marks, now: nat)
    ensures var r := Conclude(e, pid, m, now); r.Err? ==> r == Err(SettlementEmpty) || r == Err(PoolExhausted)
  {
  }

  lemma LifecycleError(s: State, c: Call)
    requires IsLifecycle(c) && Step(s, c).Err?
    ensures LifecycleEntry(s, c) == Err(Step(s, c).error)
  {
    hide LifecycleEntry;
    assert Step(s, c) == Lifecycle(s, c);
  }

  lemma PlacementReverts(s: State, c: Call)
    requires (c.AssignShard? || c.FinalizeBlob?) && LifecycleEntry(s, c).Err?
    ensures PlacementAmiss(s, c, LifecycleEntry(s, c).error)
  {
  }

  lemma AcknowledgementReverts(s: State, c: Call)
    requires c.AcknowledgeShard? && LifecycleEntry(s, c).Err?
    ensures AcknowledgementAmiss(s, c, LifecycleEntry(s, c).error)
  {
  }

  lemma RecoveryReverts(s: State, c: Call)
    requires (c.StartShardRecovery? || c.ReassignShard? || c.RecordRebuiltShard?) && LifecycleEntry(s, c).Err?
    ensures RecoveryAmiss(s, c, LifecycleEntry(s, c).error)
  {
  }

  lemma SelectionReverts(s: State, c: Call)
    requires c.SetBlobWalletAccess? && SelectWallet(s, c).Err?
    ensures SelectionAmiss(s, c, SelectWallet(s, c).error)
  {
  }

  lemma RecordReverts(s: State, c: Call)
    requires c.RecordAccessResult? && RecordResult(s, c).Err?
    ensures RecordAmiss(s, c, RecordResult(s, c).error)
  {
  }

  lemma RequestReverts(s: State, c: Call)
    requires c.AuthorizeAccess? && Authorize(s, c).Err?
    ensures RequestAmiss(s, c, Authorize(s, c).error)
  {
  }

  lemma RefundReverts(s: State, c: Call)
    requires Valid(s) && c.RefundPaidBlob? && Step(s, c).Err?
    ensures RefundAmiss(s, c, Step(s, c).error)
  {
    hide Valid;
    NeverShortOfFunds(s, c);
  }

  lemma AccessReverts(s: State, c: Call)
    requires (c.SetBlobWalletAccess? || c.AuthorizeAccess? || c.RecordAccessResult?) && Step(s, c).Err?
    ensures Amiss(s, c, Step(s, c).error)
  {
    hide SelectWallet, Authorize, RecordResult, SelectionAmiss, RequestAmiss, RecordAmiss;
    if c.SetBlobWalletAccess? {
      SelectionReverts(s, c);
    } else if c.AuthorizeAccess? {
      RequestReverts(s, c);
    } else {
      RecordReverts(s, c);
    }
  }

  lemma ProviderReverts(s: State, c: Call)
    requires (c.RegisterProvider? || c.SetProviderStatus?) && Step(s, c).Err?
    ensures ProviderAmiss(s, c, Step(s, c).error)
  {
  }

  lemma AdministrationReverts(s: State, c: Call)
    requires Valid(s) && Step(s, c).Err?
    requires c.SetCoordinator? || c.SetAccessController? || c.SetNativePricing? || c.WithdrawProtocolFees?
    ensures AdministrationAmiss(s, c, Step(s, c).error)
  {
    hide Valid;
    NeverShortOfFunds(s, c);
  }

  // In every reachable state, whatever is called: the reason given for a revert
  // is true of the caller, the arguments and the stored fields. Arithmetic
  // panics, exhausted pools and failed transfers are never the reason.
  lemma RevertsForReason(s: State, c: Call)
    requires Valid(s) && Step(s, c).Err?
    ensures Amiss(s, c, Step(s, c).error)
  {
    hide Valid, Step, LifecycleEntry, AdministrationAmiss, ProviderAmiss, RegistrationAmiss, PlacementAmiss, AcknowledgementAmiss,
      RecoveryAmiss, ClaimAmiss, RefundAmiss, SelectionAmiss, RequestAmiss, RecordAmiss;
    if c.CreateBlob? || c.CreateBlobPaid? {
      CreationReverts(s, c);
    } else if c.ClaimProviderSettlement? {
      ClaimReverts(s, c);
    } else if c.RefundPaidBlob? {
      RefundReverts(s, c);
    } else if c.SetBlobWalletAccess? || c.AuthorizeAccess? || c.RecordAccessResult? {
      AccessReverts(s, c);
    } else if c.RegisterProvider? || c.SetProviderStatus? {
      ProviderReverts(s, c);
    } else if IsLifecycle(c) {
      LifecycleError(s, c);
      if c.AssignShard? || c.FinalizeBlob? {
        PlacementReverts(s, c);
      } else if c.AcknowledgeShard? {
        AcknowledgementReverts(s, c);
      } else {
        RecoveryReverts(s, c);
      }
    } else {
      AdministrationReverts(s, c);
    }
  }
}
