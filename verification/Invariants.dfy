// The registry's invariant, kept by every entry point.
module Invariants {
  import opened Prelude
  import opened Quote
  import opened Blob
  import opened BlobInvariants
  import opened Protocol
  import opened Ledgers

  // Provider ids run from 1 and each belongs to one operator.
  ghost predicate ProvidersValid(next: nat, providers: map<nat, Provider>, idOf: map<Address, nat>) {
    && next >= 1
    && (forall p :: p in providers ==> 1 <= p < next)
    && (forall p :: p in providers ==> providers[p].operator in idOf && idOf[providers[p].operator] == p)
    && (forall a :: a in idOf ==> a != 0 && idOf[a] in providers && providers[idOf[a]].operator == a)
  }

  // A named blob is the one its owner's name leads to.
  ghost predicate NamesValid(entries: map<Hash, Entry>, names: map<(Address, Hash), Hash>) {
    && (forall k :: k in names ==>
          names[k] in entries && entries[names[k]].owner == k.0 && Keccak(entries[names[k]].terms.name) == k.1)
    && (forall id :: id in entries && entries[id].terms.name != [] ==>
          (entries[id].owner, Keccak(entries[id].terms.name)) in names
          && names[(entries[id].owner, Keccak(entries[id].terms.name))] == id)
  }

  function NonceIn(nonces: map<(Hash, Address), nat>, k: (Hash, Address)): nat {
    if k in nonces then nonces[k] else 0
  }

  ghost predicate Holds(requests: map<AccessRequest, bool>, k: (Hash, Address), n: nat) {
    exists r :: r in requests && (r.blobId, r.requester) == k && r.nonce == n
  }

  // The stored requests of a blob and requester carry the nonces below the
  // current one, each exactly once.
  ghost predicate NoncesValid(nonces: map<(Hash, Address), nat>, requests: map<AccessRequest, bool>) {
    && (forall r :: r in requests ==> r.nonce < NonceIn(nonces, (r.blobId, r.requester)))
    && (forall r, q :: r in requests && q in requests && r.blobId == q.blobId && r.requester == q.requester && r.nonce == q.nonce
                       ==> r == q)
    && (forall k: (Hash, Address), n: nat :: n < NonceIn(nonces, k) ==> Holds(requests, k, n))
  }

  ghost predicate PlacedWith(e: Entry, providers: map<nat, Provider>) {
    forall i :: i in e.placement ==> e.placement[i] in providers
  }

  ghost predicate AllPlaced(entries: map<Hash, Entry>, providers: map<nat, Provider>) {
    forall id :: id in entries ==> PlacedWith(entries[id], providers)
  }

  ghost predicate BooksValid(s: State) {
    AllSound(s.entries, s.now) && Solvent(s.entries, s.ledger) && Recorded(s.entries, s.ledger.history)
  }

  ghost predicate Valid(s: State) {
    && s.rate > 0 && s.feeBps <= BPS
    && ProvidersValid(s.nextProviderId, s.providers, s.providerIdOf)
    && NamesValid(s.entries, s.names)
    && NoncesValid(s.nonces, s.requests)
    && AllPlaced(s.entries, s.providers)
    && BooksValid(s)
  }

  lemma InitValid(deployer: Address, now: nat)
    ensures Valid(Init(deployer, now))
  {
  }

  // ---- Calls that touch no blob and move no money ----

  predicate IsQuiet(c: Call) {
    || c.SetCoordinator? || c.SetAccessController? || c.SetNativePricing? || c.SetBlobWalletAccess?
    || c.AuthorizeAccess? || c.RecordAccessResult? || c.RegisterProvider? || c.SetProviderStatus?
  }

  lemma QuietFrame(s: State, c: Call)
    requires IsQuiet(c) && Step(s, c).Ok?
    ensures var s' := Step(s, c).value;
            && s'.now == s.now && s'.entries == s.entries && s'.names == s.names && s'.ledger == s.ledger
            && (!c.SetNativePricing? ==> s'.rate == s.rate && s'.feeBps == s.feeBps)
            && (!c.AuthorizeAccess? && !c.RecordAccessResult? ==> s'.nonces == s.nonces && s'.requests == s.requests)
            && (!c.RegisterProvider? && !c.SetProviderStatus? ==>
                  s'.providers == s.providers && s'.providerIdOf == s.providerIdOf && s'.nextProviderId == s.nextProviderId)
  {
  }

  lemma AuthorizeShape(s: State, c: Call)
    requires c.AuthorizeAccess? && Authorize(s, c).Ok?
    ensures var r := c.request;
            && r.nonce == NonceIn(s.nonces, (r.blobId, r.requester))
            && Authorize(s, c).value
               == s.(nonces := s.nonces[(r.blobId, r.requester) := r.nonce + 1], requests := s.requests[r := false])
  {
    hide Authorized, Unexpired, RequiredPurpose;
  }

  lemma AuthorizeKeepsNonces(s: State, c: Call)
    requires c.AuthorizeAccess? && Authorize(s, c).Ok? && NoncesValid(s.nonces, s.requests)
    ensures NoncesValid(Authorize(s, c).value.nonces, Authorize(s, c).value.requests)
    ensures c.request !in s.requests
  {
    hide Authorize;
    AuthorizeShape(s, c);
    var r, s' := c.request, Authorize(s, c).value;
    var key := (r.blobId, r.requester);
    assert NonceIn(s.nonces, key) == r.nonce;
    forall k: (Hash, Address), n: nat | n < NonceIn(s'.nonces, k) ensures Holds(s'.requests, k, n) {
      if k == key && n == r.nonce {
        assert r in s'.requests;
      } else {
        assert Holds(s.requests, k, n);
        var q :| q in s.requests && (q.blobId, q.requester) == k && q.nonce == n;
        assert q in s'.requests;
      }
    }
  }

  lemma RecordResultKeepsNonces(s: State, c: Call)
    requires c.RecordAccessResult? && RecordResult(s, c).Ok? && NoncesValid(s.nonces, s.requests)
    ensures NoncesValid(RecordResult(s, c).value.nonces, RecordResult(s, c).value.requests)
  {
    var s' := RecordResult(s, c).value;
    assert s'.requests.Keys == s.requests.Keys;
    forall k: (Hash, Address), n: nat | n < NonceIn(s'.nonces, k) ensures Holds(s'.requests, k, n) {
      assert Holds(s.requests, k, n);
      var q :| q in s.requests && (q.blobId, q.requester) == k && q.nonce == n;
      assert q in s'.requests;
    }
  }

  lemma ProvidersKept(s: State, c: Call)
    requires (c.RegisterProvider? || c.SetProviderStatus?) && Step(s, c).Ok?
    requires ProvidersValid(s.nextProviderId, s.providers, s.providerIdOf)
    ensures var s' := Step(s, c).value; ProvidersValid(s'.nextProviderId, s'.providers, s'.providerIdOf)
    ensures s.providers.Keys <= Step(s, c).value.providers.Keys
  {
  }

  lemma QuietKeepsValid(s: State, c: Call)
    requires Valid(s) && IsQuiet(c) && Step(s, c).Ok?
    ensures Valid(Step(s, c).value)
  {
    hide AllSound, Solvent, Recorded, NamesValid, NoncesValid;
    QuietFrame(s, c);
    if c.AuthorizeAccess? {
      AuthorizeKeepsNonces(s, c);
    } else if c.RecordAccessResult? {
      RecordResultKeepsNonces(s, c);
    } else if c.RegisterProvider? || c.SetProviderStatus? {
      ProvidersKept(s, c);
    }
  }

  // ---- New blobs ----

  // The blob that a successful creation adds.
  lemma AddBlobShape(
    s: State, owner: Address, r: Registration, named: bool, origin: BlobOrigin, policy: Policy, payment: Payment
  )
    requires AddBlob(s, owner, r, named, origin, policy, payment).Ok?
    ensures var s' := AddBlob(s, owner, r, named, origin, policy, payment).value;
            && r.blobId !in s.entries && 1 <= r.dataShards <= r.totalShards && r.size > 0
            && s' == s.(entries := s.entries[r.blobId := NewEntry(owner, r, origin, policy, payment)], names := s'.names)
            && s'.names == (if named then s.names[(owner, Keccak(r.name)) := r.blobId] else s.names)
            && (named <==> r.name != [])
            && (named ==> (owner, Keccak(r.name)) !in s.names)
  {
  }

  lemma AddBlobKeepsNames(entries: map<Hash, Entry>, names: map<(Address, Hash), Hash>, id: Hash, e: Entry)
    requires NamesValid(entries, names) && id !in entries
    requires e.terms.name != [] ==> (e.owner, Keccak(e.terms.name)) !in names
    ensures NamesValid(entries[id := e], if e.terms.name == [] then names else names[(e.owner, Keccak(e.terms.name)) := id])
  {
  }

  lemma CreateKeepsValid(s: State, c: Call)
    requires Valid(s) && c.CreateBlob? && Step(s, c).Ok?
    ensures Valid(Step(s, c).value)
  {
    hide Sound, Recorded, Solvent, NamesValid, NoncesValid, ProvidersValid, AllPlaced, AddBlob, AllSound;
    var r := c.terms;
    var e := NewEntry(c.sender, r, c.origin, NO_POLICY, NO_PAYMENT);
    AddBlobShape(s, c.sender, r, c.named, c.origin, NO_POLICY, NO_PAYMENT);
    NewEntryIsSound(c.sender, r, c.origin, NO_POLICY);
    AddBlobKeepsNames(s.entries, s.names, r.blobId, e);
    AddBlobSlots(s, r.blobId, e);
    CreateBooks(s, r.blobId, e);
  }

  lemma CreateBooks(s: State, id: Hash, e: Entry)
    requires Solvent(s.entries, s.ledger) && Recorded(s.entries, s.ledger.history)
    requires id !in s.entries && e.payment == NO_PAYMENT && e.immediate == {} && e.reserve == {}
    ensures Solvent(s.entries[id := e], s.ledger) && Recorded(s.entries[id := e], s.ledger.history)
  {
    hide Recorded, Solvent;
    NewBlobTallied(s.entries, s.ledger.history, id, e);
    NewBlobSolvent(s.entries, s.ledger, id, e, 0, e.owner);
  }

  lemma StepIsCreatePaid(s: State, c: Call)
    requires c.CreateBlobPaid?
    ensures Step(s, c) == CreatePaid(s, c)
  {
    hide CreatePaid;
  }

  // What a successful paid creation does.
  lemma CreatePaidShape(s: State, c: Call)
    requires c.CreateBlobPaid?
    requires CreatePaid(s, c).Ok? || CreatePaid(s, c) == Err(TransferFailed)
    ensures var r := c.terms;
            var quote := QuoteNativePayment(r.size, r.totalShards, c.policy.storageMode, r.expiresAt, s.now, s.rate, s.feeBps);
            && quote.Ok? && quote.value.total <= c.value
            && var payment := Escrow(c.sender, quote.value, s.now);
               var added := AddBlob(Receive(s, c.value), c.sender, r, c.named, User, c.policy, payment);
               && added.Ok?
               && CreatePaid(s, c) ==
                  if c.value == quote.value.total then Ok(added.value)
                  else Pay(added.value, ChangeTo(c.sender, c.value - quote.value.total))
  {
    hide QuoteNativePayment;
  }

  lemma ValidPricing(s: State)
    requires Valid(s)
    ensures s.rate > 0 && s.feeBps <= BPS
  {
    hide BooksValid, NamesValid, NoncesValid, AllPlaced, ProvidersValid;
  }

  lemma CreatePaidKeepsValid(s: State, c: Call)
    requires Valid(s) && c.CreateBlobPaid? && (Step(s, c).Ok? || Step(s, c) == Err(TransferFailed))
    ensures Step(s, c).Ok? && Valid(Step(s, c).value)
  {
    hide Sound, Valid, AddBlob, QuoteNativePayment, CreatePaid, Pay;
    ValidPricing(s);
    CreatePaidShape(s, c);
    var r := c.terms;
    var quote := QuoteNativePayment(r.size, r.totalShards, c.policy.storageMode, r.expiresAt, s.now, s.rate, s.feeBps).value;
    var payment := Escrow(c.sender, quote, s.now);
    var e := NewEntry(c.sender, r, User, c.policy, payment);
    AddBlobShape(Receive(s, c.value), c.sender, r, c.named, User, c.policy, payment);
    PaidEntryIsSound(c.sender, r, User, c.policy, c.policy.storageMode, s.now, s.rate, s.feeBps);
    FundedKeepsValid(s, r.blobId, e, c.value, c.sender, quote);
  }

  // The new blob, the money and the change together.
  lemma FundedKeepsValid(s: State, id: Hash, e: Entry, value: nat, payer: Address, quote: Terms)
    requires Valid(s) && id !in s.entries && e.terms.blobId == id && Sound(e) && e.placement == map[]
    requires e.terms.name != [] ==> (e.owner, Keccak(e.terms.name)) !in s.names
    requires quote.total <= value && e.payment == Escrow(payer, quote, s.now) && e.immediate == {} && e.reserve == {}
    ensures var funded := Receive(s, value).(entries := s.entries[id := e],
                                             names := if e.terms.name == [] then s.names
                                                      else s.names[(e.owner, Keccak(e.terms.name)) := id]);
            && (value == quote.total ==> Valid(funded))
            && (value > quote.total ==>
                  var paid := Pay(funded, ChangeTo(payer, value - quote.total)); paid.Ok? && Valid(paid.value))
  {
    hide Sound, Recorded, Solvent, NamesValid, NoncesValid, ProvidersValid, AllPlaced, AllSound;
    AddBlobKeepsNames(s.entries, s.names, id, e);
    AddBlobSlots(s, id, e);
    CreatePaidBooks(s, value, payer, e, quote);
  }

  lemma AddBlobSlots(s: State, id: Hash, e: Entry)
    requires AllSound(s.entries, s.now) && AllPlaced(s.entries, s.providers)
    requires Sound(e) && e.terms.blobId == id && e.placement == map[] && e.reserve == {}
    ensures AllSound(s.entries[id := e], s.now) && AllPlaced(s.entries[id := e], s.providers)
  {
    hide Sound;
  }

  lemma CreatePaidBooks(s: State, value: nat, payer: Address, e: Entry, quote: Terms)
    requires Solvent(s.entries, s.ledger) && Recorded(s.entries, s.ledger.history)
    requires e.terms.blobId !in s.entries && quote.total <= value && e.payment == Escrow(payer, quote, s.now)
    requires e.immediate == {} && e.reserve == {}
    ensures var entries, funded := s.entries[e.terms.blobId := e], Receive(s, value).ledger;
            var change := ChangeTo(payer, value - quote.total);
            && Recorded(entries, s.ledger.history)
            && Recorded(entries, s.ledger.history + [change])
            && Solvent(entries, if value == quote.total then funded else PayoutOf(funded, change))
  {
    hide Recorded, Solvent;
    NewBlobTallied(s.entries, s.ledger.history, e.terms.blobId, e);
    NewBlobSolvent(s.entries, s.ledger, e.terms.blobId, e, value, payer);
    OtherPayoutRecorded(s.entries[e.terms.blobId := e], s.ledger.history, ChangeTo(payer, value - quote.total));
  }

  // ---- Calls that move one blob's lifecycle ----

  // What a lifecycle call may do to a blob's slots: nobody is paid.
  ghost predicate MovesQuietly(e: Entry, after: Entry) {
    && Sound(after) && SameDeal(e, after) && Liability(after) == Liability(e) && FeeEarned(after) == FeeEarned(e)
    && after.immediate == e.immediate && after.reserve == e.reserve
    && after.payment.providerSettled == e.payment.providerSettled
    && after.payment.status.Refunded? == e.payment.status.Refunded?
  }

  lemma FinalizeMoves(e: Entry)
    requires Sound(e) && Finalize(e).Ok?
    ensures MovesQuietly(e, Finalize(e).value)
  {
    FinalizeKeepsSound(e);
    assert e.payment.status.Escrowed? ==> e.payment.providerSettled == 0 by {
      if e.payment.status.Escrowed? {
        assert |e.immediate| == 0 && |e.reserve| == 0;
      }
    }
    hide Sound;
  }

  lemma PlacementMoves(e: Entry, i: uint8, pid: nat, active: bool, commitment: Hash)
    requires Sound(e)
    ensures Assign(e, i, pid, active).Ok? && pid > 0 ==> MovesQuietly(e, Assign(e, i, pid, active).value)
    ensures StartRecovery(e, i).Ok? ==> MovesQuietly(e, StartRecovery(e, i).value)
    ensures Reassign(e, i, pid, active).Ok? && pid > 0 ==> MovesQuietly(e, Reassign(e, i, pid, active).value)
    ensures RecordRebuilt(e, i, pid, commitment).Ok? ==> MovesQuietly(e, RecordRebuilt(e, i, pid, commitment).value)
  {
    hide Sound;
    if Assign(e, i, pid, active).Ok? && pid > 0 { AssignKeepsSound(e, i, pid, active); }
    if StartRecovery(e, i).Ok? { StartRecoveryKeepsSound(e, i); }
    if Reassign(e, i, pid, active).Ok? && pid > 0 { ReassignKeepsSound(e, i, pid, active); }
    if RecordRebuilt(e, i, pid, commitment).Ok? { RecordRebuiltKeepsSound(e, i, pid, commitment); }
  }

  lemma AcknowledgeMoves(e: Entry, i: uint8, caller: Result<nat, Error>, commitment: Hash, size: uint64, now: nat)
    requires Sound(e) && Acknowledge(e, i, caller, commitment, size, now).Ok?
    ensures MovesQuietly(e, Acknowledge(e, i, caller, commitment, size, now).value)
  {
    hide Sound;
    AcknowledgeKeepsSound(e, i, caller, commitment, size, now);
  }

  lemma LifecycleMoves(s: State, c: Call)
    requires IsLifecycle(c) && LifecycleEntry(s, c).Ok?
    requires forall p :: p in s.providers ==> p > 0
    requires c.blobId in s.entries ==> Sound(s.entries[c.blobId])
    ensures c.blobId in s.entries && MovesQuietly(s.entries[c.blobId], LifecycleEntry(s, c).value)
  {
    var e := s.entries[c.blobId];
    hide Sound, MovesQuietly, Assign, Acknowledge, Finalize, StartRecovery, Reassign, RecordRebuilt;
    match c
    case AssignShard(_, _, i, pid) =>
      AssignNeedsActive(e, i, pid, IsActive(s, pid));
      PlacementMoves(e, i, pid, IsActive(s, pid), ZeroHash);
    case AcknowledgeShard(sender, _, i, commitment, size) =>
      AcknowledgeMoves(e, i, CallerProvider(s, sender), commitment, size, s.now);
    case FinalizeBlob(_, _) =>
      FinalizeMoves(e);
    case StartShardRecovery(_, _, i) =>
      PlacementMoves(e, i, 0, false, ZeroHash);
    case ReassignShard(_, _, i, pid) =>
      AssignNeedsActive(e, i, pid, IsActive(s, pid));
      PlacementMoves(e, i, pid, IsActive(s, pid), ZeroHash);
    case RecordRebuiltShard(_, _, i, pid, commitment) =>
      PlacementMoves(e, i, pid, false, commitment);
  }

  lemma AssignNeedsActive(e: Entry, i: uint8, pid: nat, active: bool)
    ensures Assign(e, i, pid, active).Ok? || Reassign(e, i, pid, active).Ok? ==> active
  {
  }

  // The only placements written are of active providers.
  lemma LifecyclePlaces(s: State, c: Call)
    requires IsLifecycle(c) && LifecycleEntry(s, c).Ok? && c.blobId in s.entries
    requires PlacedWith(s.entries[c.blobId], s.providers)
    ensures PlacedWith(LifecycleEntry(s, c).value, s.providers)
  {
  }

  // One blob's slots change; every other part of the invariant is framed.
  lemma PutKeepsSlots(s: State, id: Hash, after: Entry)
    requires AllSound(s.entries, s.now) && AllPlaced(s.entries, s.providers) && NamesValid(s.entries, s.names)
    requires id in s.entries && SameDeal(s.entries[id], after)
    requires Sound(after) && Timely(after, s.now) && PlacedWith(after, s.providers)
    ensures var entries := s.entries[id := after];
            AllSound(entries, s.now) && AllPlaced(entries, s.providers) && NamesValid(entries, s.names)
  {
    hide Sound, PlacedWith;
  }

  lemma QuietlyTimely(e: Entry, after: Entry, now: nat)
    requires MovesQuietly(e, after) && Timely(e, now)
    ensures Timely(after, now)
  {
    hide Sound, Liability, FeeEarned;
  }

  lemma QuietPutKeepsValid(s: State, id: Hash, after: Entry)
    requires Valid(s) && id in s.entries && MovesQuietly(s.entries[id], after) && PlacedWith(after, s.providers)
    ensures Valid(Put(s, id, after))
  {
    hide Sound, Recorded, Solvent, NamesValid, NoncesValid, ProvidersValid, AllPlaced, SameDeal, Liability, FeeEarned, PlacedWith, Timely;
    QuietlyTimely(s.entries[id], after, s.now);
    PutKeepsSlots(s, id, after);
    QuietChange(s.entries, s.ledger, id, after);
  }

  lemma LifecycleShape(s: State, c: Call)
    requires IsLifecycle(c) && Step(s, c).Ok?
    ensures LifecycleEntry(s, c).Ok? && c.blobId in s.entries
    ensures Step(s, c) == Ok(Put(s, c.blobId, LifecycleEntry(s, c).value))
  {
    hide Assign, Acknowledge, Finalize, StartRecovery, Reassign, RecordRebuilt;
  }

  lemma LifecycleKeepsValid(s: State, c: Call)
    requires Valid(s) && IsLifecycle(c) && Step(s, c).Ok?
    ensures Valid(Step(s, c).value)
  {
    hide Valid, Step, Lifecycle, MovesQuietly, LifecycleEntry, Sound, PlacedWith, Timely;
    LifecycleShape(s, c);
    ProvidersArePositive(s);
    ValidSlots(s, c.blobId);
    LifecycleMoves(s, c);
    LifecyclePlaces(s, c);
    QuietPutKeepsValid(s, c.blobId, LifecycleEntry(s, c).value);
  }

  lemma ValidSlots(s: State, id: Hash)
    requires Valid(s) && id in s.entries
    ensures Sound(s.entries[id]) && Timely(s.entries[id], s.now) && PlacedWith(s.entries[id], s.providers)
    ensures s.entries[id].terms.blobId == id
  {
    hide Sound, Timely, PlacedWith, Solvent, Recorded, NamesValid, NoncesValid, ProvidersValid;
  }

  lemma ProvidersArePositive(s: State)
    requires Valid(s)
    ensures forall p :: p in s.providers ==> p > 0
  {
    hide Solvent, Recorded, NamesValid, NoncesValid, AllSound, AllPlaced;
  }

  // ---- Calls that pay ----

  // A payout of what is owed is covered and keeps the invariant.
  lemma PaidPutKeepsValid(s: State, after: Entry, p: Payout, fee: nat)
    requires Valid(s) && (p.ToProvider? || p.RefundTo?) && p.blobId in s.entries
    requires var e := s.entries[p.blobId]; Pays(e, after, p, fee) && p.amount <= Liability(e)
    requires Sound(after) && Timely(after, s.now) && PlacedWith(after, s.providers)
    ensures p.amount <= s.ledger.balance
    ensures Valid(Put(s, p.blobId, after).(ledger := PayoutOf(s.ledger.(withdrawable := s.ledger.withdrawable + fee), p)))
  {
    hide Sound, Recorded, Solvent, NamesValid, NoncesValid, ProvidersValid, AllPlaced, AllSound, PlacedWith, Timely, Pays, Liability;
    BalanceCovers(s.entries, s.ledger, s.now, p.blobId);
    PaysSameDeal(s.entries[p.blobId], after, p, fee);
    PutKeepsSlots(s, p.blobId, after);
    PayoutKeepsBooks(s.entries, s.ledger, after, p, fee);
  }

  lemma PaysSameDeal(e: Entry, after: Entry, p: Payout, fee: nat)
    requires Pays(e, after, p, fee)
    ensures SameDeal(e, after)
  {
  }

  // Claim reverts for its own reasons, never for a failed transfer, and only
  // an active provider gets through.
  lemma ClaimNeedsCaller(e: Entry, caller: Result<nat, Error>, indices: seq<uint8>, now: nat)
    requires caller.Err? ==> caller.error != TransferFailed
    ensures Claim(e, caller, indices, now) != Err(TransferFailed)
    ensures Claim(e, caller, indices, now).Ok? ==> caller.Ok?
  {
    if caller.Ok? && ReservePerShard(e).Ok? {
      LoopFaults(e, caller.value, ReservePerShard(e).value, now, indices);
    }
    hide ClaimLoop;
  }

  lemma ClaimShape(s: State, c: Call)
    requires c.ClaimProviderSettlement? && (Step(s, c).Ok? || Step(s, c) == Err(TransferFailed))
    ensures c.blobId in s.entries && CallerProvider(s, c.sender).Ok?
    ensures var claimed := Claim(s.entries[c.blobId], CallerProvider(s, c.sender), c.shards, s.now);
            claimed.Ok? && Step(s, c) ==
              Pay(Put(s, c.blobId, claimed.value.entry)
                    .(ledger := s.ledger.(withdrawable := s.ledger.withdrawable + claimed.value.feeReleased)),
                  ClaimPayout(c.blobId, c.sender, claimed.value))
  {
    hide Claim;
    if c.blobId in s.entries {
      ClaimNeedsCaller(s.entries[c.blobId], CallerProvider(s, c.sender), c.shards, s.now);
    }
  }

  // A successful claim pays what it marks and leaves the slots sound.
  lemma ClaimPaysAndKeeps(e: Entry, pid: nat, indices: seq<uint8>, now: nat, id: Hash, operator: Address, providers: map<nat, Provider>)
    requires Sound(e) && Timely(e, now) && PlacedWith(e, providers) && Claim(e, Ok(pid), indices, now).Ok?
    ensures var c := Claim(e, Ok(pid), indices, now).value;
            && Sound(c.entry) && Timely(c.entry, now) && PlacedWith(c.entry, providers)
            && Pays(e, c.entry, ClaimPayout(id, operator, c), c.feeReleased) && c.amount <= Liability(e)
  {
    hide Sound, Timely, ClaimAllowed, Accounts, AmountFor, AfterClaim, Claim, Pays, IndexSet, Liability;
    ClaimOutcome(e, pid, indices, now);
    AfterClaimIsSound(e, pid, IndexSet(indices), now);
    AfterClaimIsCovered(e, pid, IndexSet(indices), now);
    ClaimPays(e, pid, IndexSet(indices), now, id, operator);
    SettleLeavesPlacement(e, pid, IndexSet(indices), now);
  }

  lemma SettleLeavesPlacement(e: Entry, pid: nat, shards: set<nat>, now: nat)
    requires Accounts(e)
    ensures AfterClaim(e, shards, now).placement == e.placement
  {
    hide Accounts, AmountFor, MarkAll;
  }

  // A claim that gets past its guards is always paid.
  lemma ClaimKeepsValid(s: State, c: Call)
    requires Valid(s) && c.ClaimProviderSettlement? && (Step(s, c).Ok? || Step(s, c) == Err(TransferFailed))
    ensures Step(s, c).Ok? && Valid(Step(s, c).value)
  {
    hide Valid, Step, ClaimStep, Sound, Timely, PlacedWith, Claim, Pays, Liability, CallerProvider;
    ClaimShape(s, c);
    var e, pid := s.entries[c.blobId], CallerProvider(s, c.sender).value;
    ValidSlots(s, c.blobId);
    ClaimPaysAndKeeps(e, pid, c.shards, s.now, c.blobId, c.sender, s.providers);
    var claimed := Claim(e, Ok(pid), c.shards, s.now).value;
    PaidPutKeepsValid(s, claimed.entry, ClaimPayout(c.blobId, c.sender, claimed), claimed.feeReleased);
  }

  lemma RefundShape(s: State, c: Call)
    requires c.RefundPaidBlob? && (Step(s, c).Ok? || Step(s, c) == Err(TransferFailed))
    ensures c.blobId in s.entries
    ensures var e := s.entries[c.blobId];
            && Refund(e, s.now).Ok? && e.owner == c.sender
            && Step(s, c) == Pay(Put(s, c.blobId, Refund(e, s.now).value), RefundTo(c.blobId, e.payment.payer, e.payment.totalPaid))
  {
  }

  lemma RefundFrame(e: Entry, now: nat, providers: map<nat, Provider>)
    requires Refund(e, now).Ok? && Timely(e, now) && PlacedWith(e, providers)
    ensures Timely(Refund(e, now).value, now) && PlacedWith(Refund(e, now).value, providers)
  {
  }

  lemma RefundKeepsValid(s: State, c: Call)
    requires Valid(s) && c.RefundPaidBlob? && (Step(s, c).Ok? || Step(s, c) == Err(TransferFailed))
    ensures Step(s, c).Ok? && Valid(Step(s, c).value)
  {
    hide Valid, Step, RefundStep, Sound, Timely, PlacedWith, Refund, Pays, Liability;
    RefundShape(s, c);
    var e := s.entries[c.blobId];
    var after, p := Refund(e, s.now).value, RefundTo(c.blobId, e.payment.payer, e.payment.totalPaid);
    ValidSlots(s, c.blobId);
    RefundFrame(e, s.now, s.providers);
    RefundKeepsSound(e, s.now);
    RefundPays(e, s.now, c.blobId);
    PaidPutKeepsValid(s, after, p, 0);
  }

  lemma WithdrawKeepsValid(s: State, c: Call)
    requires Valid(s) && c.WithdrawProtocolFees? && (Step(s, c).Ok? || Step(s, c) == Err(TransferFailed))
    ensures Step(s, c).Ok? && Valid(Step(s, c).value)
  {
    hide Recorded, Solvent, NamesValid, NoncesValid, ProvidersValid, AllPlaced, AllSound;
    WithdrawalSolvent(s.entries, s.ledger, s.now, c.recipient, c.amount);
    OtherPayoutRecorded(s.entries, s.ledger.history, FeesTo(c.recipient, c.amount));
  }

  // ---- Every call ----

  // The invariant is kept by every call that succeeds.
  lemma StepKeepsValid(s: State, c: Call)
    requires Valid(s) && Step(s, c).Ok?
    ensures Valid(Step(s, c).value)
  {
    hide Valid, Step;
    if IsQuiet(c) {
      QuietKeepsValid(s, c);
    } else if IsLifecycle(c) {
      LifecycleKeepsValid(s, c);
    } else if c.CreateBlob? {
      CreateKeepsValid(s, c);
    } else if c.CreateBlobPaid? {
      CreatePaidKeepsValid(s, c);
    } else if c.ClaimProviderSettlement? {
      ClaimKeepsValid(s, c);
    } else if c.RefundPaidBlob? {
      RefundKeepsValid(s, c);
    } else {
      WithdrawKeepsValid(s, c);
    }
  }

  lemma QuietNeverTransfers(s: State, c: Call)
    requires IsQuiet(c)
    ensures Step(s, c) != Err(TransferFailed)
  {
  }

  lemma CreateNeverTransfers(s: State, c: Call)
    requires c.CreateBlob?
    ensures Step(s, c) != Err(TransferFailed)
  {
  }

  lemma LifecycleNeverTransfers(s: State, c: Call)
    requires IsLifecycle(c)
    ensures Step(s, c) != Err(TransferFailed)
  {
  }

  // The contract always has the money for a payout its rules allow.
  lemma NeverShortOfFunds(s: State, c: Call)
    requires Valid(s)
    ensures Step(s, c) != Err(TransferFailed)
  {
    hide Valid, Step;
    if IsQuiet(c) {
      QuietNeverTransfers(s, c);
    } else if IsLifecycle(c) {
      LifecycleNeverTransfers(s, c);
    } else if c.CreateBlob? {
      CreateNeverTransfers(s, c);
    } else if Step(s, c) == Err(TransferFailed) {
      if c.CreateBlobPaid? {
        CreatePaidKeepsValid(s, c);
      } else if c.ClaimProviderSettlement? {
        ClaimKeepsValid(s, c);
      } else if c.RefundPaidBlob? {
        RefundKeepsValid(s, c);
      } else {
        WithdrawKeepsValid(s, c);
      }
    }
  }
}
