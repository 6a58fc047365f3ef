// What must have happened: every transfer, blob, access request and recorded
// result of a reachable state is traced to the one call that made it and to
// the state that call found; and what nobody but those concerned can change.
module Histories {
  import opened Prelude
  import opened Quote
  import opened Blob
  import opened BlobInvariants
  import opened Protocol
  import opened Ledgers
  import opened Invariants
  import opened Runs
  import opened Evolution
  import opened Acceptance

  // ---- Every transfer was due ----

  // What the contract owed, in the state the call found.
  ghost predicate OwedTransfer(s: State, c: Call, p: Payout) {
    match p
    case ToProvider(id, pid, operator, immediate, reserve, amount) =>
      && c.ClaimProviderSettlement? && c.sender == operator && c.blobId == id && Entitled(s, p)
    case RefundTo(id, payer, amount) =>
      && c.RefundPaidBlob? && c.blobId == id && id in s.entries
      && var e := s.entries[id];
         && c.sender == e.owner && e.payment.status.Escrowed? && e.status.Pending? && s.now > e.terms.expiresAt > 0
         && payer == e.payment.payer && amount == e.payment.totalPaid
    case FeesTo(recipient, amount) =>
      c == WithdrawProtocolFees(s.admin, recipient, amount) && recipient != 0 && 0 < amount <= s.ledger.withdrawable
    case ChangeTo(payer, amount) =>
      && c.CreateBlobPaid? && c.sender == payer
      && var t := c.terms;
         var quote := QuoteNativePayment(t.size, t.totalShards, c.policy.storageMode, t.expiresAt, s.now, s.rate, s.feeBps);
         quote.Ok? && amount > 0 && c.value == quote.value.total + amount
  }

  // The call appended at most one transfer, and that one was owed.
  ghost predicate Transferred(s: State, c: Call, s': State) {
    var h, h' := s.ledger.history, s'.ledger.history;
    |h| <= |h'| <= |h| + 1 && h'[..|h|] == h && (|h'| > |h| ==> OwedTransfer(s, c, h'[|h|]))
  }

  lemma CallTransfers(s: State, c: Call)
    requires Valid(s) && Step(s, c).Ok?
    ensures Transferred(s, c, Step(s, c).value)
  {
    hide Valid, Step, OwedTransfer, LifecycleEntry, WellFormed, Nameable, Born;
    if IsQuiet(c) {
      QuietFrame(s, c);
    } else if IsLifecycle(c) {
      LifecycleShape(s, c);
    } else if c.CreateBlob? {
      BlobCreated(s, c.sender, c.terms, c.named, c.origin);
    } else {
      MoneyTransfers(s, c);
    }
  }

  lemma MoneyTransfers(s: State, c: Call)
    requires Valid(s) && Step(s, c).Ok?
    requires c.CreateBlobPaid? || c.ClaimProviderSettlement? || c.RefundPaidBlob? || c.WithdrawProtocolFees?
    ensures Transferred(s, c, Step(s, c).value)
  {
    hide Valid, Step, Entitled, QuoteNativePayment, WellFormed, Nameable, SoundPolicy, Born;
    if c.CreateBlobPaid? {
      PaidBlobCreated(s, c.sender, c.value, c.terms, c.named, c.policy);
    } else if c.ClaimProviderSettlement? {
      ClaimTransfers(s, c);
    } else if c.RefundPaidBlob? {
      BlobRefunded(s, c.sender, c.blobId);
    } else {
      FeesWithdrawn(s, c.sender, c.recipient, c.amount);
    }
  }

  lemma ClaimTransfers(s: State, c: Call)
    requires Valid(s) && c.ClaimProviderSettlement? && Step(s, c).Ok?
    ensures var h, h' := s.ledger.history, Step(s, c).value.ledger.history;
            |h'| == |h| + 1 && h'[..|h|] == h && OwedTransfer(s, c, h'[|h|])
  {
    hide Valid, Step, Entitled, ClaimedInto, Due, IndexSet;
    ClaimEntitles(s, c);
    ClaimWritten(s, c.sender, c.blobId, c.shards);
  }

  // Event `j` made transfer `k`, which was owed.
  ghost predicate OwedAt(deployer: Address, now: nat, events: seq<Event>, j: nat, k: nat)
    requires j < |events| && k < |Deployed(deployer, now, events).ledger.history|
  {
    var before, p := Deployed(deployer, now, events[..j]), Deployed(deployer, now, events).ledger.history[k];
    |before.ledger.history| == k && events[j].Do? && Step(before, events[j].call).Ok? && OwedTransfer(before, events[j].call, p)
  }

  // No ether leaves the contract but to a provider for shards it holds, to the
  // payer of an expired and unfinalized escrow, to whom the admin sends earned
  // fees, or as change beyond the quoted price.
  lemma {:induction false} EveryTransferWasOwed(deployer: Address, now: nat, events: seq<Event>, k: nat)
    requires k < |Deployed(deployer, now, events).ledger.history|
    ensures exists j :: 0 <= j < |events| && OwedAt(deployer, now, events, j, k)
  {
    hide Valid, Step, OwedTransfer;
    if events != [] {
      var front, last := events[..|events| - 1], events[|events| - 1];
      var before := Deployed(deployer, now, front);
      DeployedIsValid(deployer, now, front);
      if last.Do? && Step(before, last.call).Ok? {
        CallTransfers(before, last.call);
      }
      if k < |before.ledger.history| {
        assert Deployed(deployer, now, events).ledger.history[..|before.ledger.history|][k] == before.ledger.history[k];
        EveryTransferWasOwed(deployer, now, front, k);
        var j :| 0 <= j < |front| && OwedAt(deployer, now, front, j, k);
        assert front[..j] == events[..j];
        assert OwedAt(deployer, now, events, j, k);
      } else {
        assert OwedAt(deployer, now, events, |events| - 1, k);
      }
    }
  }

  // ---- Every blob is what was registered, at the price that was quoted ----

  ghost predicate CreatedBy(s: State, c: Call, e: Entry) {
    if c.CreateBlob? then
      && e.owner == c.sender && e.terms == c.terms && e.origin == c.origin
      && e.payment.status.NoPayment? && e.policy.storageMode.Public?
    else
      && c.CreateBlobPaid? && e.owner == c.sender && e.terms == c.terms && e.origin.User? && e.policy == c.policy
      && var t, p := c.terms, e.payment;
         var quote := QuoteNativePayment(t.size, t.totalShards, c.policy.storageMode, t.expiresAt, s.now, s.rate, s.feeBps);
         && quote.Ok? && Terms(p.totalPaid, p.providerPool, p.protocolFee, p.rewardPerShard) == quote.value
         && !p.status.NoPayment? && p.payer == c.sender && p.paidAt == s.now % 0x1_0000_0000_0000_0000
  }

  lemma NewBlobIsCreated(s: State, c: Call, id: Hash)
    requires Valid(s) && Step(s, c).Ok? && id in Step(s, c).value.entries && id !in s.entries
    ensures CreatedBy(s, c, Step(s, c).value.entries[id]) && c.terms.blobId == id
  {
    hide Valid, Step, LifecycleEntry, QuoteNativePayment, WellFormed, Nameable, SoundPolicy, ClaimedInto, Due, IndexSet;
    if IsQuiet(c) {
      QuietFrame(s, c);
    } else if IsLifecycle(c) {
      LifecycleShape(s, c);
    } else if c.CreateBlob? {
      BlobCreated(s, c.sender, c.terms, c.named, c.origin);
    } else if c.CreateBlobPaid? {
      PaidBlobCreated(s, c.sender, c.value, c.terms, c.named, c.policy);
    } else if c.ClaimProviderSettlement? {
      ClaimWritten(s, c.sender, c.blobId, c.shards);
    } else if c.RefundPaidBlob? {
      BlobRefunded(s, c.sender, c.blobId);
    } else {
      FeesWithdrawn(s, c.sender, c.recipient, c.amount);
    }
  }

  lemma CreatedStays(s: State, c: Call, e: Entry, after: Entry)
    requires CreatedBy(s, c, e) && EntryMoves(e, after)
    ensures CreatedBy(s, c, after)
  {
    hide QuoteNativePayment;
  }

  ghost predicate CreatedAt(deployer: Address, now: nat, events: seq<Event>, j: nat, id: Hash)
    requires j < |events| && id in Deployed(deployer, now, events).entries
  {
    var before := Deployed(deployer, now, events[..j]);
    && id !in before.entries && events[j].Do? && Step(before, events[j].call).Ok?
    && CreatedBy(before, events[j].call, Deployed(deployer, now, events).entries[id])
  }

  // Owner, terms, policy and price of a blob are for ever those of its one
  // registration; whoever registered and paid it owns it.
  lemma {:induction false} EveryBlobWasCreated(deployer: Address, now: nat, events: seq<Event>, id: Hash)
    requires id in Deployed(deployer, now, events).entries
    ensures exists j :: 0 <= j < |events| && CreatedAt(deployer, now, events, j, id)
  {
    hide Valid, Step, CreatedBy, EntryMoves, ProvidersMove, AccessMoves;
    if events != [] {
      var front, last := events[..|events| - 1], events[|events| - 1];
      var before := Deployed(deployer, now, front);
      DeployedIsValid(deployer, now, front);
      if id in before.entries {
        EveryBlobWasCreated(deployer, now, front, id);
        var j :| 0 <= j < |front| && CreatedAt(deployer, now, front, j, id);
        assert front[..j] == events[..j];
        ApplyMoves(before, last);
        CreatedStays(Deployed(deployer, now, events[..j]), events[j].call, before.entries[id],
                     Deployed(deployer, now, events).entries[id]);
        assert CreatedAt(deployer, now, events, j, id);
      } else {
        NewBlobIsCreated(before, last.call, id);
        assert CreatedAt(deployer, now, events, |events| - 1, id);
      }
    }
  }

  // ---- Every access request was authorized, every result recorded once ----

  ghost predicate AuthorizedBy(s: State, c: Call, r: AccessRequest) {
    && c.AuthorizeAccess? && c.request == r && c.signer == Some(r.requester)
    && Accessible(s, r.blobId, r.requester) && Purposeful(s.entries[r.blobId].policy, r.purpose)
    && s.now <= r.deadline <= s.now + 86_400
  }

  ghost predicate AuthorizedAt(deployer: Address, now: nat, events: seq<Event>, j: nat, r: AccessRequest)
    requires j < |events|
  {
    var before := Deployed(deployer, now, events[..j]);
    r !in before.requests && events[j].Do? && Step(before, events[j].call).Ok? && AuthorizedBy(before, events[j].call, r)
  }

  lemma NewRequestIsAuthorized(s: State, c: Call, r: AccessRequest)
    requires Step(s, c).Ok? && r in Step(s, c).value.requests && r !in s.requests
    ensures AuthorizedBy(s, c, r)
  {
    hide Step, Accessible, Purposeful;
    if c.AuthorizeAccess? {
      AccessAuthorized(s, c.sender, c.request, c.signer);
    } else if c.RecordAccessResult? {
      ResultRecorded(s, c.sender, c.request, c.response);
    } else if IsQuiet(c) {
      QuietFrame(s, c);
    } else {
      OtherCallsKeepRest(s, c);
    }
  }

  lemma {:induction false} EveryRequestWasAuthorized(deployer: Address, now: nat, events: seq<Event>, r: AccessRequest)
    requires r in Deployed(deployer, now, events).requests
    ensures exists j :: 0 <= j < |events| && AuthorizedAt(deployer, now, events, j, r)
  {
    hide Step, AuthorizedBy;
    if events != [] {
      var front, last := events[..|events| - 1], events[|events| - 1];
      var before := Deployed(deployer, now, front);
      if r in before.requests {
        EveryRequestWasAuthorized(deployer, now, front, r);
        var j :| 0 <= j < |front| && AuthorizedAt(deployer, now, front, j, r);
        assert front[..j] == events[..j];
        assert AuthorizedAt(deployer, now, events, j, r);
      } else {
        NewRequestIsAuthorized(before, last.call, r);
        assert AuthorizedAt(deployer, now, events, |events| - 1, r);
      }
    }
  }

  // A result for the request that the contract accepts.
  predicate Records(s: State, ev: Event, r: AccessRequest) {
    ev.Do? && ev.call.RecordAccessResult? && ev.call.request == r && Step(s, ev.call).Ok?
  }

  function ResultsOf(s: State, events: seq<Event>, r: AccessRequest): nat {
    if events == [] then 0
    else
      var front := events[..|events| - 1];
      ResultsOf(s, front, r) + if Records(Run(s, front), events[|events| - 1], r) then 1 else 0
  }

  predicate Consumed(s: State, r: AccessRequest) {
    r in s.requests && s.requests[r]
  }

  lemma RecordingConsumes(s: State, ev: Event, r: AccessRequest)
    requires Valid(s)
    ensures Records(s, ev, r) ==> !Consumed(s, r) && Consumed(Apply(s, ev), r)
    ensures !Records(s, ev, r) ==> Consumed(Apply(s, ev), r) == Consumed(s, r)
  {
    hide BooksValid, NamesValid, ProvidersValid, AllPlaced, NoncesValid, Step, Accessible, Purposeful;
    if ev.Do? && Step(s, ev.call).Ok? {
      var c := ev.call;
      if c.AuthorizeAccess? {
        AccessAuthorized(s, c.sender, c.request, c.signer);
        FreshRequest(s, c);
      } else if c.RecordAccessResult? {
        ResultRecorded(s, c.sender, c.request, c.response);
      } else if IsQuiet(c) {
        QuietFrame(s, c);
      } else {
        OtherCallsKeepRest(s, c);
      }
    }
  }

  lemma FreshRequest(s: State, c: Call)
    requires Valid(s) && c.AuthorizeAccess? && Step(s, c).Ok?
    ensures c.request !in s.requests
  {
    hide BooksValid, NamesValid, ProvidersValid, AllPlaced, NoncesValid, Authorize;
    AuthorizeKeepsNonces(s, c);
  }

  // Over any history a request is consumed exactly when a result for it was
  // accepted, and no request ever gets two.
  lemma {:induction false} ResultsAreOnce(deployer: Address, now: nat, events: seq<Event>, r: AccessRequest)
    ensures ResultsOf(Init(deployer, now), events, r) == (if Consumed(Deployed(deployer, now, events), r) then 1 else 0)
    ensures ResultsOf(Init(deployer, now), events, r) <= 1
  {
    hide Valid, Apply, Records;
    if events != [] {
      var front := events[..|events| - 1];
      ResultsAreOnce(deployer, now, front, r);
      DeployedIsValid(deployer, now, front);
      RecordingConsumes(Deployed(deployer, now, front), events[|events| - 1], r);
    }
  }

  // ---- Who can change what ----

  // Rates, roles and earned fees stay as they are without the admin.
  lemma {:induction false} NothingWithoutAdmin(s: State, events: seq<Event>)
    requires Valid(s)
    requires forall k :: 0 <= k < |events| && events[k].Do? ==> events[k].call.sender != s.admin
    ensures var s' := Run(s, events);
            && s'.admin == s.admin && s'.coordinators == s.coordinators && s'.controllers == s.controllers
            && s'.rate == s.rate && s'.feeBps == s.feeBps && s'.ledger.feesWithdrawn == s.ledger.feesWithdrawn
  {
    hide Valid, Apply;
    if events != [] {
      var front := events[..|events| - 1];
      NothingWithoutAdmin(s, front);
      RunKeepsValid(s, front);
      EventWithoutAdmin(Run(s, front), events[|events| - 1]);
    }
  }

  lemma EventWithoutAdmin(s: State, ev: Event)
    requires Valid(s) && (ev.Do? ==> ev.call.sender != s.admin)
    ensures var s' := Apply(s, ev);
            && s'.admin == s.admin && s'.coordinators == s.coordinators && s'.controllers == s.controllers
            && s'.rate == s.rate && s'.feeBps == s.feeBps && s'.ledger.feesWithdrawn == s.ledger.feesWithdrawn
  {
    hide Valid, Step;
    if ev.Do? && Step(s, ev.call).Ok? {
      if IsQuiet(ev.call) {
        QuietWithoutAdmin(s, ev.call);
      } else {
        OthersKeepRoles(s, ev.call);
        FeesWithoutAdmin(s, ev.call);
      }
    }
  }

  lemma QuietWithoutAdmin(s: State, c: Call)
    requires IsQuiet(c) && c.sender != s.admin && Step(s, c).Ok?
    ensures var s' := Step(s, c).value;
            && s'.admin == s.admin && s'.coordinators == s.coordinators && s'.controllers == s.controllers
            && s'.rate == s.rate && s'.feeBps == s.feeBps && s'.ledger == s.ledger
  {
    hide Step, Accessible, Purposeful;
    match c
    case SetCoordinator(sender, account, allowed) => CoordinatorSet(s, sender, account, allowed);
    case SetAccessController(sender, account, allowed) => ControllerSet(s, sender, account, allowed);
    case SetNativePricing(sender, rate, feeBps) => PricingSet(s, sender, rate, feeBps);
    case SetBlobWalletAccess(sender, id, wallet, allowed) => WalletSelected(s, sender, id, wallet, allowed);
    case AuthorizeAccess(sender, request, signer) => AccessAuthorized(s, sender, request, signer);
    case RecordAccessResult(sender, request, response) => ResultRecorded(s, sender, request, response);
    case RegisterProvider(sender, endpoint, key) => ProviderRegistered(s, sender, endpoint, key);
    case SetProviderStatus(sender, pid, active) => ProviderStatusSet(s, sender, pid, active);
  }

  // The calls that are about blobs and money touch nothing else.
  lemma OthersKeepRoles(s: State, c: Call)
    requires !IsQuiet(c) && Valid(s) && Step(s, c).Ok?
    ensures var s' := Step(s, c).value; s' == s.(entries := s'.entries, names := s'.names, ledger := s'.ledger)
  {
    hide Valid, Step, LifecycleEntry, QuoteNativePayment, WellFormed, Nameable, SoundPolicy, Born, ClaimedInto, Due, IndexSet;
    if IsLifecycle(c) {
      LifecycleShape(s, c);
    } else if c.CreateBlob? {
      BlobCreated(s, c.sender, c.terms, c.named, c.origin);
    } else if c.CreateBlobPaid? {
      PaidBlobCreated(s, c.sender, c.value, c.terms, c.named, c.policy);
    } else if c.ClaimProviderSettlement? {
      ClaimWritten(s, c.sender, c.blobId, c.shards);
    } else if c.RefundPaidBlob? {
      BlobRefunded(s, c.sender, c.blobId);
    } else {
      FeesWithdrawn(s, c.sender, c.recipient, c.amount);
    }
  }

  lemma FeesWithoutAdmin(s: State, c: Call)
    requires !IsQuiet(c) && Valid(s) && Step(s, c).Ok? && c.sender != s.admin
    ensures Step(s, c).value.ledger.feesWithdrawn == s.ledger.feesWithdrawn
  {
    hide Valid, Step, LifecycleEntry, QuoteNativePayment, WellFormed, Nameable, SoundPolicy, Born, ClaimedInto, Due, IndexSet;
    if IsLifecycle(c) {
      LifecycleShape(s, c);
    } else if c.CreateBlob? {
      BlobCreated(s, c.sender, c.terms, c.named, c.origin);
    } else if c.CreateBlobPaid? {
      PaidBlobCreated(s, c.sender, c.value, c.terms, c.named, c.policy);
    } else if c.ClaimProviderSettlement? {
      ClaimWritten(s, c.sender, c.blobId, c.shards);
    } else if c.RefundPaidBlob? {
      BlobRefunded(s, c.sender, c.blobId);
    } else {
      FeesWithdrawn(s, c.sender, c.recipient, c.amount);
    }
  }

  // The provider the account operates holds a shard of the blob.
  ghost predicate Holds(s: State, account: Address, id: Hash) {
    id in s.entries && account in s.providerIdOf && exists i :: i in s.entries[id].placement && s.entries[id].placement[i] == s.providerIdOf[account]
  }

  // Only its owner or a coordinator places a blob and moves its status; only a
  // provider that holds one of its shards acknowledges or is paid.
  lemma OnlyThoseConcerned(s: State, c: Call, id: Hash)
    requires Valid(s) && Step(s, c).Ok? && id in s.entries
    ensures id in Step(s, c).value.entries
    ensures var e, e' := s.entries[id], Step(s, c).value.entries[id];
            && (e' != e ==> InCharge(s, c.sender, id) || Holds(s, c.sender, id))
            && (e'.placement != e.placement || e'.status != e.status ==> InCharge(s, c.sender, id))
            && (e'.acks != e.acks || e'.immediate != e.immediate || e'.reserve != e.reserve ==> Holds(s, c.sender, id))
            && (e'.payment.status.Refunded? && !e.payment.status.Refunded? ==> c.sender == e.owner)
  {
    hide Valid, Step, QuoteNativePayment, Nameable, SoundPolicy, Born, IndexSet, LifecycleEntry;
    if IsQuiet(c) {
      QuietFrame(s, c);
    } else if c.CreateBlob? {
      BlobCreated(s, c.sender, c.terms, c.named, c.origin);
    } else if c.CreateBlobPaid? {
      PaidBlobCreated(s, c.sender, c.value, c.terms, c.named, c.policy);
    } else if c.ClaimProviderSettlement? {
      ClaimerHolds(s, c, id);
    } else if c.RefundPaidBlob? {
      BlobRefunded(s, c.sender, c.blobId);
    } else if c.WithdrawProtocolFees? {
      FeesWithdrawn(s, c.sender, c.recipient, c.amount);
    } else {
      LifecycleConcerns(s, c, id);
    }
  }

  lemma ClaimerHolds(s: State, c: Call, id: Hash)
    requires Valid(s) && c.ClaimProviderSettlement? && Step(s, c).Ok? && id in s.entries
    ensures id in Step(s, c).value.entries
    ensures var e, e' := s.entries[id], Step(s, c).value.entries[id];
            && (e' != e ==> Holds(s, c.sender, id))
            && e'.placement == e.placement && e'.status == e.status && e'.acks == e.acks
            && (e' != e ==> !e'.payment.status.Refunded?)
  {
    hide Valid, Step, IndexSet, Due;
    ClaimAccepted(s, c.sender, c.blobId, c.shards);
    ClaimWritten(s, c.sender, c.blobId, c.shards);
    var e, shards := s.entries[c.blobId], IndexSet(c.shards);
    var i :| i in shards;
    assert e.placement[i] == s.providerIdOf[c.sender];
  }

  lemma LifecycleConcerns(s: State, c: Call, id: Hash)
    requires Valid(s) && IsLifecycle(c) && Step(s, c).Ok? && id in s.entries
    ensures id in Step(s, c).value.entries
    ensures var e, e' := s.entries[id], Step(s, c).value.entries[id];
            && (e' != e ==> InCharge(s, c.sender, id) || Holds(s, c.sender, id))
            && (e'.placement != e.placement || e'.status != e.status ==> InCharge(s, c.sender, id))
            && (e'.acks != e.acks ==> Holds(s, c.sender, id))
            && e'.immediate == e.immediate && e'.reserve == e.reserve
            && e'.payment.status.Refunded? == e.payment.status.Refunded?
  {
    hide Valid, Step, LifecycleEntry;
    match c
    case AssignShard(sender, blobId, i, pid) => ShardAssigned(s, sender, blobId, i, pid);
    case AcknowledgeShard(sender, blobId, i, commitment, size) => ShardAcknowledged(s, sender, blobId, i, commitment, size);
    case FinalizeBlob(sender, blobId) => BlobFinalized(s, sender, blobId);
    case StartShardRecovery(sender, blobId, i) => RecoveryStarted(s, sender, blobId, i);
    case ReassignShard(sender, blobId, i, pid) => ShardReassigned(s, sender, blobId, i, pid);
    case RecordRebuiltShard(sender, blobId, i, pid, commitment) => RebuiltRecorded(s, sender, blobId, i, pid, commitment);
  }

  // While none of them acts, a blob stays exactly as it is.
  lemma {:induction false} UntouchedWithoutThem(s: State, events: seq<Event>, id: Hash)
    requires Valid(s) && id in s.entries
    requires forall k :: 0 <= k < |events| && events[k].Do? ==>
               !InCharge(Run(s, events[..k]), events[k].call.sender, id) && !Holds(Run(s, events[..k]), events[k].call.sender, id)
    ensures id in Run(s, events).entries && Run(s, events).entries[id] == s.entries[id]
  {
    hide Valid, Step, InCharge, Holds;
    if events != [] {
      var front, last := events[..|events| - 1], events[|events| - 1];
      forall k | 0 <= k < |front| ensures front[..k] == events[..k] {
      }
      UntouchedWithoutThem(s, front, id);
      RunKeepsValid(s, front);
      if last.Do? && Step(Run(s, front), last.call).Ok? {
        OnlyThoseConcerned(Run(s, front), last.call, id);
      }
    }
  }
}
