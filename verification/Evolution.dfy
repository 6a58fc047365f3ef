// What a run can only move forward: statuses, markers, acknowledgements,
// history and consumed access requests.
module Evolution {
  import opened Prelude
  import opened Quote
  import opened Blob
  import opened BlobInvariants
  import opened Protocol
  import opened Ledgers
  import opened Invariants
  import opened Runs
  import opened Acceptance

  // Active can only be entered from Pending; nothing leads back to Pending and
  // nothing leads to Revoked.
  predicate StatusMoves(a: BlobStatus, b: BlobStatus) {
    match a
    case Pending => b != Revoked
    case Active => b == Active || b == Recovering || b == Rebuilt
    case Recovering => b == Recovering || b == Rebuilt
    case Rebuilt => b == Recovering || b == Rebuilt
    case Revoked => b == Revoked
  }

  // Settled and Refunded are final, and only an escrow can be refunded.
  predicate PaymentMoves(a: Payment, b: Payment) {
    match a.status
    case NoPayment => b == a
    case Escrowed => !b.status.NoPayment?
    case Claimable => b.status.Claimable? || b.status.PartiallySettled? || b.status.Settled?
    case PartiallySettled => b.status.PartiallySettled? || b.status.Settled?
    case Settled => b == a
    case Refunded => b == a
  }

  ghost predicate EntryMoves(e: Entry, after: Entry) {
    && SameDeal(e, after)
    && StatusMoves(e.status, after.status) && PaymentMoves(e.payment, after.payment)
    && e.immediate <= after.immediate && e.reserve <= after.reserve
    && e.payment.providerSettled <= after.payment.providerSettled
    && e.acks.Keys <= after.acks.Keys
    && (after.status.Pending? ==> forall i :: i in e.placement ==> i in after.placement && after.placement[i] == e.placement[i])
  }

  ghost predicate Extends(h: seq<Payout>, h': seq<Payout>) {
    |h| <= |h'| && h'[..|h|] == h
  }

  ghost predicate AccessMoves(s: State, s': State) {
    && (forall r :: r in s.requests ==> r in s'.requests && (s.requests[r] ==> s'.requests[r]))
    && (forall k: (Hash, Address) :: NonceIn(s.nonces, k) <= NonceIn(s'.nonces, k))
  }

  ghost predicate EntriesMove(entries: map<Hash, Entry>, after: map<Hash, Entry>) {
    forall id :: id in entries ==> id in after && EntryMoves(entries[id], after[id])
  }

  ghost predicate ProvidersMove(providers: map<nat, Provider>, after: map<nat, Provider>) {
    forall p :: p in providers ==> p in after && after[p].operator == providers[p].operator
  }

  ghost predicate Moves(s: State, s': State) {
    && s.now <= s'.now
    && EntriesMove(s.entries, s'.entries)
    && ProvidersMove(s.providers, s'.providers)
    && AccessMoves(s, s')
    && Extends(s.ledger.history, s'.ledger.history)
  }

  // ---- The relation is a preorder ----

  lemma EntryMovesTwice(a: Entry, b: Entry, c: Entry)
    requires EntryMoves(a, b) && EntryMoves(b, c)
    ensures EntryMoves(a, c)
  {
  }

  lemma MovesTwice(a: State, b: State, c: State)
    requires Moves(a, b) && Moves(b, c)
    ensures Moves(a, c)
  {
    forall id | id in a.entries ensures id in c.entries && EntryMoves(a.entries[id], c.entries[id]) {
      EntryMovesTwice(a.entries[id], b.entries[id], c.entries[id]);
    }
    assert c.ledger.history[..|a.ledger.history|] == b.ledger.history[..|a.ledger.history|];
    hide EntryMoves;
  }

  lemma EntryStays(e: Entry)
    ensures EntryMoves(e, e)
  {
  }

  // ---- Every call moves forward ----

  lemma LifecycleEntryMoves(s: State, c: Call)
    requires IsLifecycle(c) && LifecycleEntry(s, c).Ok? && c.blobId in s.entries
    ensures EntryMoves(s.entries[c.blobId], LifecycleEntry(s, c).value)
  {
  }

  lemma ClaimEntryMoves(e: Entry, pid: nat, indices: seq<uint8>, now: nat)
    requires Sound(e) && Timely(e, now) && Claim(e, Ok(pid), indices, now).Ok?
    ensures EntryMoves(e, Claim(e, Ok(pid), indices, now).value.entry)
  {
    hide Sound, Timely, Claim, IndexSet, AllPayable, Accounts, AmountFor;
    ClaimOutcome(e, pid, indices, now);
    assert e.payment.providerSettled + AmountFor(e, now, IndexSet(indices)) >= e.payment.providerSettled;
  }

  lemma RefundEntryMoves(e: Entry, now: nat)
    requires Refund(e, now).Ok?
    ensures EntryMoves(e, Refund(e, now).value)
  {
  }

  lemma PutMoves(entries: map<Hash, Entry>, id: Hash, after: Entry)
    requires id in entries ==> EntryMoves(entries[id], after)
    ensures EntriesMove(entries, entries[id := after])
  {
    forall j | j in entries ensures EntryMoves(entries[j], entries[id := after][j]) {
      EntryStays(entries[j]);
    }
    hide EntryMoves;
  }

  lemma EntriesStay(entries: map<Hash, Entry>)
    ensures EntriesMove(entries, entries)
  {
  }

  // The entries a call leaves, whatever else it does.
  lemma StepMovesEntries(s: State, c: Call)
    requires Valid(s) && Step(s, c).Ok?
    ensures EntriesMove(s.entries, Step(s, c).value.entries)
  {
    hide Valid, Step, EntryMoves, EntriesMove, Sound, Timely, PlacedWith, LifecycleEntry, Claim, Refund, QuoteNativePayment, AddBlob;
    if IsQuiet(c) {
      QuietFrame(s, c);
      EntriesStay(s.entries);
    } else if IsLifecycle(c) {
      LifecycleShape(s, c);
      LifecycleEntryMoves(s, c);
      PutMoves(s.entries, c.blobId, LifecycleEntry(s, c).value);
    } else if c.CreateBlob? || c.CreateBlobPaid? {
      CreateMoves(s, c);
    } else if c.ClaimProviderSettlement? {
      ClaimShape(s, c);
      ValidSlots(s, c.blobId);
      var e, pid := s.entries[c.blobId], CallerProvider(s, c.sender).value;
      ClaimEntryMoves(e, pid, c.shards, s.now);
      PutMoves(s.entries, c.blobId, Claim(e, Ok(pid), c.shards, s.now).value.entry);
    } else if c.RefundPaidBlob? {
      RefundShape(s, c);
      RefundEntryMoves(s.entries[c.blobId], s.now);
      PutMoves(s.entries, c.blobId, Refund(s.entries[c.blobId], s.now).value);
    } else {
      WithdrawFrame(s, c);
      EntriesStay(s.entries);
    }
  }

  lemma CreateMoves(s: State, c: Call)
    requires (c.CreateBlob? || c.CreateBlobPaid?) && Step(s, c).Ok?
    ensures EntriesMove(s.entries, Step(s, c).value.entries)
  {
    hide EntryMoves, EntriesMove, QuoteNativePayment, AddBlob, CreatePaid;
    var r := c.terms;
    if c.CreateBlob? {
      AddBlobShape(s, c.sender, r, c.named, c.origin, NO_POLICY, NO_PAYMENT);
      PutMoves(s.entries, r.blobId, NewEntry(c.sender, r, c.origin, NO_POLICY, NO_PAYMENT));
    } else {
      CreatePaidShape(s, c);
      var quote := QuoteNativePayment(r.size, r.totalShards, c.policy.storageMode, r.expiresAt, s.now, s.rate, s.feeBps).value;
      var payment := Escrow(c.sender, quote, s.now);
      AddBlobShape(Receive(s, c.value), c.sender, r, c.named, User, c.policy, payment);
      PutMoves(s.entries, r.blobId, NewEntry(c.sender, r, User, c.policy, payment));
    }
  }

  lemma WithdrawFrame(s: State, c: Call)
    requires c.WithdrawProtocolFees? && Step(s, c).Ok?
    ensures Step(s, c).value == s.(ledger := Step(s, c).value.ledger)
  {
  }

  // Access requests, providers and the clock after a call.
  lemma StepMovesRest(s: State, c: Call)
    requires Valid(s) && Step(s, c).Ok?
    ensures AccessMoves(s, Step(s, c).value) && ProvidersMove(s.providers, Step(s, c).value.providers) && Step(s, c).value.now == s.now
  {
    hide Valid, Sound, Timely, PlacedWith, LifecycleEntry, Claim, Refund, QuoteNativePayment, AddBlob;
    if IsQuiet(c) {
      QuietMovesRest(s, c);
    } else {
      OtherCallsKeepRest(s, c);
    }
  }

  lemma QuietMovesRest(s: State, c: Call)
    requires Valid(s) && IsQuiet(c) && Step(s, c).Ok?
    ensures AccessMoves(s, Step(s, c).value) && ProvidersMove(s.providers, Step(s, c).value.providers) && Step(s, c).value.now == s.now
  {
    hide Valid, Step, ProvidersMove, AccessMoves;
    QuietFrame(s, c);
    if c.AuthorizeAccess? {
      AuthorizeMoves(s, c);
    } else if c.RecordAccessResult? {
      RecordResultMoves(s, c);
    } else if c.RegisterProvider? || c.SetProviderStatus? {
      ProvidersOnlyMove(s, c);
    }
    AccessStays(s);
    ProvidersStay(s);
  }

  lemma AccessStays(s: State)
    ensures forall s': State :: s'.requests == s.requests && s'.nonces == s.nonces ==> AccessMoves(s, s')
  {
  }

  lemma ProvidersStay(s: State)
    ensures ProvidersMove(s.providers, s.providers)
  {
  }

  lemma AuthorizeMoves(s: State, c: Call)
    requires Valid(s) && c.AuthorizeAccess? && Step(s, c).Ok?
    ensures AccessMoves(s, Step(s, c).value)
  {
    hide BooksValid, NamesValid, AllPlaced, ProvidersValid, NoncesValid, Authorize;
    AuthorizeKeepsNonces(s, c);
    AuthorizeShape(s, c);
  }

  lemma RecordResultMoves(s: State, c: Call)
    requires c.RecordAccessResult? && Step(s, c).Ok?
    ensures AccessMoves(s, Step(s, c).value)
  {
  }

  lemma ProvidersOnlyMove(s: State, c: Call)
    requires Valid(s) && (c.RegisterProvider? || c.SetProviderStatus?) && Step(s, c).Ok?
    ensures ProvidersMove(s.providers, Step(s, c).value.providers)
  {
    hide BooksValid, NamesValid, AllPlaced, NoncesValid;
  }

  lemma OtherCallsKeepRest(s: State, c: Call)
    requires !IsQuiet(c) && Step(s, c).Ok?
    ensures var s' := Step(s, c).value;
            && s'.requests == s.requests && s'.nonces == s.nonces && s'.providers == s.providers && s'.now == s.now
  {
    if IsLifecycle(c) {
      hide Step;
      LifecycleShape(s, c);
    } else if c.CreateBlobPaid? {
      hide Step, CreatePaid, AddBlob, QuoteNativePayment;
      assert Step(s, c) == CreatePaid(s, c) by { StepIsCreatePaid(s, c); }
      CreatePaidShape(s, c);
      var r := c.terms;
      var quote := QuoteNativePayment(r.size, r.totalShards, c.policy.storageMode, r.expiresAt, s.now, s.rate, s.feeBps).value;
      AddBlobShape(Receive(s, c.value), c.sender, r, c.named, User, c.policy, Escrow(c.sender, quote, s.now));
    } else if c.ClaimProviderSettlement? {
      hide Step, Claim;
      ClaimShape(s, c);
    } else if c.RefundPaidBlob? {
      hide Step, Refund;
      RefundShape(s, c);
    }
  }

  lemma ApplyMoves(s: State, ev: Event)
    requires Valid(s)
    ensures Moves(s, Apply(s, ev))
  {
    hide Valid, Step, EntriesMove;
    EntriesStay(s.entries);
    if ev.Do? && Step(s, ev.call).Ok? {
      StepMovesEntries(s, ev.call);
      StepMovesRest(s, ev.call);
      StepHistory(s, ev.call);
    }
  }

  // Any run, from any reachable state, only moves forward.
  lemma {:induction false} RunMoves(s: State, events: seq<Event>)
    requires Valid(s)
    ensures Moves(s, Run(s, events))
  {
    hide Valid, Apply, Moves;
    if events == [] {
      MovesNowhere(s);
    } else {
      var front := events[..|events| - 1];
      RunMoves(s, front);
      RunKeepsValid(s, front);
      ApplyMoves(Run(s, front), events[|events| - 1]);
      MovesTwice(s, Run(s, front), Run(s, events));
    }
  }

  lemma MovesNowhere(s: State)
    ensures Moves(s, s)
  {
    EntriesStay(s.entries);
    hide EntriesMove;
  }

  // ---- Consequences ----

  // A settled or refunded payment never changes again, whatever anyone does.
  lemma FinalPaymentsStay(s: State, events: seq<Event>, id: Hash)
    requires Valid(s) && id in s.entries
    requires s.entries[id].payment.status.Settled? || s.entries[id].payment.status.Refunded?
    ensures id in Run(s, events).entries && Run(s, events).entries[id].payment == s.entries[id].payment
  {
    hide Valid, Run;
    RunMoves(s, events);
  }

  // The lockstep of blob status and payment status, in every reachable state.
  lemma StatusLockstep(deployer: Address, now: nat, actions: seq<Action>, id: Hash)
    requires id in Chain(Init(deployer, now), actions).entries
    ensures var e := Chain(Init(deployer, now), actions).entries[id];
            var p := e.payment;
            && e.status != Revoked
            && (p.status.Escrowed? ==> e.status.Pending? && p.providerSettled == 0)
            && (p.status.Claimable? ==> !e.status.Pending? && p.providerSettled == 0)
            && (p.status.PartiallySettled? ==> !e.status.Pending? && 0 < p.providerSettled < p.providerPool)
            && (p.status.Settled? <==> p.providerPool > 0 && p.providerSettled == p.providerPool)
            && (p.status.Settled? ==> !e.status.Pending? && e.reserve == Below(e.terms.totalShards))
            && (p.status.Refunded? ==> p.providerSettled == 0)
            && (e.status.Active? ==> forall i :: 0 <= i < e.terms.totalShards ==> Acked(e.placement, e.acks, i))
  {
    hide Chain, Valid, Solvent, Timely, PlacedWith, Sound;
    SolventForever(deployer, now, actions);
    var s := Chain(Init(deployer, now), actions);
    ValidSlots(s, id);
    SoundLockstep(s.entries[id]);
  }

  lemma SoundLockstep(e: Entry)
    requires Sound(e)
    ensures var p := e.payment;
            && e.status != Revoked
            && (p.status.Escrowed? ==> e.status.Pending? && p.providerSettled == 0)
            && (p.status.Claimable? ==> !e.status.Pending? && p.providerSettled == 0)
            && (p.status.PartiallySettled? ==> !e.status.Pending? && 0 < p.providerSettled < p.providerPool)
            && (p.status.Settled? <==> p.providerPool > 0 && p.providerSettled == p.providerPool)
            && (p.status.Settled? ==> !e.status.Pending? && e.reserve == Below(e.terms.totalShards))
            && (p.status.Refunded? ==> p.providerSettled == 0)
            && (e.status.Active? ==> forall i :: 0 <= i < e.terms.totalShards ==> Acked(e.placement, e.acks, i))
  {
    RefundedUnsettled(e);
    var p := e.payment;
    if !p.status.NoPayment? {
      PoolUsedUpByReserves(e);
      PoolIsPositive(e);
      if e.immediate == {} {
        assert |e.immediate| == 0 && e.reserve == {} && |e.reserve| == 0;
        assert p.providerSettled == 0;
      }
    }
    hide Accounts;
  }

  lemma PoolIsPositive(e: Entry)
    requires Accounts(e) && e.terms.totalShards >= 1
    ensures e.payment.providerPool > 0
  {
    MulPos(Gross(e), e.terms.totalShards);
  }

  // ---- Access requests ----

  // In every reachable state the stored requests of a blob and requester carry
  // the nonces below the current one, each exactly once.
  lemma NoncesAreUsedOnce(deployer: Address, now: nat, actions: seq<Action>)
    ensures var s := Chain(Init(deployer, now), actions); NoncesValid(s.nonces, s.requests)
  {
    hide Chain, NoncesValid, Solvent, Recorded, AllSound, NamesValid, ProvidersValid, AllPlaced;
    SolventForever(deployer, now, actions);
  }

  // A stored request can never be stored again; recording a result consumes it;
  // and once consumed it is never usable, and no result is accepted for it, in
  // any later state.
  lemma RequestsAreNeverReplayed(
    s: State, events: seq<Event>, r: AccessRequest, sender: Address, signer: Option<Address>, response: Hash
  )
    requires Valid(s) && r in s.requests
    ensures r in Run(s, events).requests
    ensures Step(Run(s, events), AuthorizeAccess(sender, r, signer)).Err?
    ensures s.requests[r] ==>
              !Usable(Run(s, events), r) && Step(Run(s, events), RecordAccessResult(sender, r, response)).Err?
    ensures Step(s, RecordAccessResult(sender, r, response)).Ok? ==>
              !s.requests[r] && r in Apply(s, Do(RecordAccessResult(sender, r, response))).requests
              && Apply(s, Do(RecordAccessResult(sender, r, response))).requests[r]
  {
    hide Run, BooksValid, NamesValid, ProvidersValid, AllPlaced, EntriesMove, ProvidersMove, Accessible, Purposeful;
    RunMoves(s, events);
    RunKeepsValid(s, events);
    var later, c := Run(s, events), AuthorizeAccess(sender, r, signer);
    if Authorize(later, c).Ok? {
      AuthorizeKeepsNonces(later, c);
    }
    ResultRecorded(s, sender, r, response);
    ResultRecorded(later, sender, r, response);
  }
}
