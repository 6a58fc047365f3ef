// The contract as a mutable object: its storage variables, updated method by
// method, each proved to do exactly what the transition function says.
module Registry {
  import opened Prelude
  import opened Quote
  import opened Blob
  import opened BlobInvariants
  import opened Protocol
  import opened Ledgers
  import opened Invariants

  // A method either reverts, leaving no trace, or takes the protocol's step;
  // either way the invariant survives.
  ghost predicate Outcome<T>(s: State, c: Call, s': State, r: Result<T, Error>) {
    && (match Step(s, c)
        case Ok(next) => r.Ok? && s' == next
        case Err(e) => r == Err(e) && s' == s)
    && (Valid(s) ==> Valid(s'))
  }

  lemma OutcomeOfStep<T>(s: State, c: Call, s': State, r: Result<T, Error>)
    requires match Step(s, c)
             case Ok(next) => r.Ok? && s' == next
             case Err(e) => r == Err(e) && s' == s
    ensures Outcome(s, c, s', r)
  {
    hide Valid, Step;
    if Valid(s) && Step(s, c).Ok? {
      StepKeepsValid(s, c);
    }
  }

  // A fault in a prefix of the indices is the fault of the whole loop.
  lemma {:induction false} LoopStopsAtFault(e: Entry, pid: nat, perShard: nat, now: nat, indices: seq<uint8>, k: nat)
    requires k <= |indices| && ClaimLoop(e, pid, perShard, now, indices[..k]).Err?
    ensures ClaimLoop(e, pid, perShard, now, indices) == ClaimLoop(e, pid, perShard, now, indices[..k])
  {
    if k == |indices| {
      assert indices[..k] == indices;
    } else {
      var front := indices[..|indices| - 1];
      assert front[..k] == indices[..k];
      LoopStopsAtFault(e, pid, perShard, now, front, k);
    }
  }

  // The creation checks read nothing that receiving ether changes.
  lemma RegistrationIgnoresMoney(
    s: State, value: nat, owner: Address, t: Registration, named: bool, policy: Policy, payment: Payment
  )
    ensures var plain, funded := AddBlob(s, owner, t, named, User, policy, payment),
                                 AddBlob(Receive(s, value), owner, t, named, User, policy, payment);
            if plain.Err? then funded == Err(plain.error) else funded == Ok(Receive(plain.value, value))
  {
    NameCheckIgnoresMoney(s, value, owner, t, named);
    hide CheckName, NewEntry;
  }

  lemma NameCheckIgnoresMoney(s: State, value: nat, owner: Address, t: Registration, named: bool)
    ensures CheckName(Receive(s, value), owner, t, named) == CheckName(s, owner, t, named)
  {
  }

  lemma StepIsLifecycle(s: State, c: Call)
    requires IsLifecycle(c)
    ensures Step(s, c) == Lifecycle(s, c)
  {
    hide Lifecycle;
  }

  lemma StepIsRegister(s: State, c: Call)
    requires c.RegisterProvider?
    ensures Step(s, c) == Register(s, c)
  {
    hide Register;
  }

  lemma StepIsClaim(s: State, c: Call)
    requires c.ClaimProviderSettlement?
    ensures Step(s, c) == ClaimStep(s, c)
  {
    hide ClaimStep;
  }

  lemma StepIsRefund(s: State, c: Call)
    requires c.RefundPaidBlob?
    ensures Step(s, c) == RefundStep(s, c)
  {
    hide RefundStep;
  }

  lemma StepIsWithdraw(s: State, c: Call)
    requires c.WithdrawProtocolFees?
    ensures Step(s, c) == WithdrawStep(s, c)
  {
    hide WithdrawStep;
  }

  lemma StepIsAuthorize(s: State, c: Call)
    requires c.AuthorizeAccess?
    ensures Step(s, c) == Authorize(s, c)
  {
    hide Authorize;
  }

  // The checks of authorizeConfidentialAccess in order.
  function AccessFault(
    e: Entry, r: AccessRequest, signer: Option<Address>, now: nat, nonce: nat, authorized: bool
  ): Option<Error>
  {
    var computeOnly := e.policy.storageMode.Confidential? || e.policy.accessPolicy.ComputeOnly?;
    if e.policy.storageMode.Public? then Some(EncryptedStorageRequired)
    else if r.requester == 0 then Some(RequesterRequired)
    else if r.deviceKey == ZeroHash then Some(DeviceKeyRequired)
    else if e.status.Revoked? then Some(BlobRevoked)
    else if e.terms.expiresAt != 0 && e.terms.expiresAt <= now then Some(AccessExpired)
    else if r.deadline < now then Some(AccessExpired)
    else if r.deadline > now + MAX_ACCESS_LIFETIME then Some(DeadlineTooFar)
    else if r.nonce != nonce then Some(InvalidNonce)
    else if r.purpose != (if computeOnly then Compute else View) then Some(WrongPurpose)
    else if !authorized then Some(NotAuthorized)
    else if signer != Some(r.requester) then Some(InvalidSignature)
    else None
  }

  lemma AuthorizeByFault(s: State, c: Call)
    requires c.AuthorizeAccess?
    ensures var r := c.request;
            Authorize(s, c) ==
            if r.blobId !in s.entries then Err(BlobMissing)
            else
              var e := s.entries[r.blobId];
              match AccessFault(e, r, c.signer, s.now, NonceOf(s, r.blobId, r.requester), Authorized(s, e, r.blobId, r.requester))
              case Some(fault) => Err(fault)
              case None => Ok(s.(nonces := s.nonces[(r.blobId, r.requester) := r.nonce + 1], requests := s.requests[r := false]))
  {
    hide NonceOf, Authorized;
  }

  class PrimeServerRegistry {
    var admin: Address
    var coordinators: set<Address>
    var controllers: set<Address>
    var rate: nat
    var feeBps: nat
    var withdrawable: nat
    var nextProviderId: nat
    var providers: map<nat, Provider>
    var providerIdOf: map<Address, nat>
    var entries: map<Hash, Entry>
    var names: map<(Address, Hash), Hash>
    var nonces: map<(Hash, Address), nat>
    var requests: map<AccessRequest, bool>
    var selected: set<(Hash, Address)>

    // Kept by the chain: block.timestamp and the contract's own balance.
    var now: nat
    var balance: nat

    ghost var received: nat
    ghost var forced: nat
    ghost var feesWithdrawn: nat
    ghost var history: seq<Payout>

    ghost function View(): State
      reads this
    {
      State(now, admin, coordinators, controllers, rate, feeBps, nextProviderId, providers, providerIdOf,
            entries, names, nonces, requests, selected,
            Ledger(withdrawable, balance, received, forced, feesWithdrawn, history))
    }

    constructor (deployer: Address, timestamp: nat)
      ensures View() == Init(deployer, timestamp) && Valid(View())
    {
      admin, coordinators, controllers := deployer, {deployer}, {};
      rate, feeBps, withdrawable, nextProviderId := DEFAULT_RATE, 500, 0, 1;
      providers, providerIdOf, entries, names := map[], map[], map[], map[];
      nonces, requests, selected := map[], map[], {};
      now, balance := timestamp, 0;
      received, forced, feesWithdrawn, history := 0, 0, 0, [];
      new;
      InitValid(deployer, timestamp);
    }

    // ---- Modifiers and lookups ----

    function Find(blobId: Hash): Result<Entry, Error>
      reads this
    {
      if blobId in entries then Ok(entries[blobId]) else Err(BlobMissing)
    }

    function OnlyOwner(sender: Address, blobId: Hash): Result<Entry, Error>
      reads this
    {
      if blobId !in entries then Err(BlobMissing)
      else if entries[blobId].owner != sender then Err(NotBlobOwner)
      else Ok(entries[blobId])
    }

    function OnlyController(sender: Address, blobId: Hash): Result<Entry, Error>
      reads this
    {
      if blobId !in entries then Err(BlobMissing)
      else if entries[blobId].owner != sender && sender !in coordinators then Err(NotBlobController)
      else Ok(entries[blobId])
    }

    predicate Active(providerId: nat)
      reads this
    {
      providerId in providers && providers[providerId].active
    }

    function ActiveProviderOf(sender: Address): Result<nat, Error>
      reads this
    {
      if sender !in providerIdOf then Err(ProviderNotRegistered)
      else if !Active(providerIdOf[sender]) then Err(ProviderInactive)
      else Ok(providerIdOf[sender])
    }

    // `call{value: amount}` at the end of a method.
    method Transfer(amount: nat, ghost p: Payout)
      requires p.amount == amount <= balance
      modifies this`balance, this`history
      ensures Pay(old(View()), p) == Ok(View())
    {
      balance, history := balance - amount, history + [p];
    }

    // ---- Administration and providers ----

    method SetCoordinator(sender: Address, account: Address, allowed: bool) returns (r: Result<(), Error>)
      modifies this
      ensures Outcome(old(View()), Call.SetCoordinator(sender, account, allowed), View(), r)
    {
      hide Valid, Outcome;
      ghost var s, c := View(), Call.SetCoordinator(sender, account, allowed);
      if sender != admin {
        r := Err(NotAdmin);
      } else if account == 0 {
        r := Err(InvalidAddress);
      } else {
        coordinators := if allowed then coordinators + {account} else coordinators - {account};
        r := Ok(());
      }
      OutcomeOfStep(s, c, View(), r);
    }

    method SetConfidentialAccessController(sender: Address, account: Address, allowed: bool) returns (r: Result<(), Error>)
      modifies this
      ensures Outcome(old(View()), Call.SetAccessController(sender, account, allowed), View(), r)
    {
      hide Valid, Outcome;
      ghost var s, c := View(), Call.SetAccessController(sender, account, allowed);
      if sender != admin {
        r := Err(NotAdmin);
      } else if account == 0 {
        r := Err(InvalidAddress);
      } else {
        controllers := if allowed then controllers + {account} else controllers - {account};
        r := Ok(());
      }
      OutcomeOfStep(s, c, View(), r);
    }

    method SetNativePricing(sender: Address, newRate: nat, newFeeBps: nat) returns (r: Result<(), Error>)
      modifies this
      ensures Outcome(old(View()), Call.SetNativePricing(sender, newRate, newFeeBps), View(), r)
    {
      hide Valid, Outcome;
      ghost var s, c := View(), Call.SetNativePricing(sender, newRate, newFeeBps);
      if sender != admin {
        r := Err(NotAdmin);
      } else if newRate == 0 || newFeeBps > BPS {
        r := Err(InvalidPricing);
      } else {
        rate, feeBps := newRate, newFeeBps;
        r := Ok(());
      }
      OutcomeOfStep(s, c, View(), r);
    }

    method RegisterProvider(sender: Address, endpoint: string, signingKey: Hash) returns (r: Result<nat, Error>)
      modifies this
      ensures Outcome(old(View()), Call.RegisterProvider(sender, endpoint, signingKey), View(), r)
      ensures r.Ok? ==> r.value == old(nextProviderId) && sender in providerIdOf && providerIdOf[sender] == r.value
    {
      hide Valid, Outcome, Step;
      ghost var s, c := View(), Call.RegisterProvider(sender, endpoint, signingKey);
      StepIsRegister(s, c);
      if sender == 0 {
        r := Err(InvalidAddress);
      } else if sender in providerIdOf {
        r := Err(ProviderAlreadyRegistered);
      } else if endpoint == "" {
        r := Err(EndpointRequired);
      } else if signingKey == ZeroHash {
        r := Err(SigningKeyRequired);
      } else {
        var providerId := nextProviderId;
        nextProviderId := nextProviderId + 1;
        providers := providers[providerId := Provider(sender, endpoint, signingKey, true, Stamp(now))];
        providerIdOf := providerIdOf[sender := providerId];
        r := Ok(providerId);
      }
      OutcomeOfStep(s, c, View(), r);
    }

    method SetProviderStatus(sender: Address, providerId: nat, active: bool) returns (r: Result<(), Error>)
      modifies this
      ensures Outcome(old(View()), Call.SetProviderStatus(sender, providerId, active), View(), r)
    {
      hide Valid, Outcome;
      ghost var s, c := View(), Call.SetProviderStatus(sender, providerId, active);
      if providerId !in providers || providers[providerId].operator != sender {
        r := Err(NotProviderOperator);
      } else {
        providers := providers[providerId := providers[providerId].(active := active)];
        r := Ok(());
      }
      OutcomeOfStep(s, c, View(), r);
    }

    // ---- Confidential access ----

    method SetBlobWalletAccess(sender: Address, blobId: Hash, wallet: Address, allowed: bool) returns (r: Result<(), Error>)
      modifies this
      ensures Outcome(old(View()), Call.SetBlobWalletAccess(sender, blobId, wallet, allowed), View(), r)
    {
      hide Valid, Outcome;
      ghost var s, c := View(), Call.SetBlobWalletAccess(sender, blobId, wallet, allowed);
      var e := OnlyOwner(sender, blobId);
      if e.Err? {
        r := Err(e.error);
      } else if wallet == 0 {
        r := Err(InvalidAddress);
      } else if !e.value.policy.accessPolicy.SelectedWallets? {
        r := Err(SelectedWalletPolicyRequired);
      } else {
        selected := if allowed then selected + {(blobId, wallet)} else selected - {(blobId, wallet)};
        r := Ok(());
      }
      OutcomeOfStep(s, c, View(), r);
    }

    predicate MayAccess(e: Entry, blobId: Hash, requester: Address)
      reads this
    {
      e.owner == requester || (e.policy.accessPolicy.SelectedWallets? && (blobId, requester) in selected)
    }

    function FaultOf(e: Entry, request: AccessRequest, signer: Option<Address>): (fault: Option<Error>)
      reads this
      ensures fault == AccessFault(e, request, signer, now, NonceOf(View(), request.blobId, request.requester),
                                   Authorized(View(), e, request.blobId, request.requester))
    {
      var key := (request.blobId, request.requester);
      AccessFault(e, request, signer, now, if key in nonces then nonces[key] else 0,
                  MayAccess(e, request.blobId, request.requester))
    }

    // `signer` is the account recovered from the signature, if it is well formed.
    method AuthorizeConfidentialAccess(sender: Address, request: AccessRequest, signer: Option<Address>)
      returns (r: Result<AccessRequest, Error>)
      modifies this
      ensures Outcome(old(View()), AuthorizeAccess(sender, request, signer), View(), r)
      ensures r.Ok? ==> r.value == request
    {
      hide Valid, Outcome, Step, AccessFault, Authorize, Authorized, NonceOf;
      ghost var s, c := View(), AuthorizeAccess(sender, request, signer);
      StepIsAuthorize(s, c);
      AuthorizeByFault(s, c);
      var found := Find(request.blobId);
      if found.Err? {
        r := Err(found.error);
      } else {
        var fault := FaultOf(found.value, request, signer);
        if fault.Some? {
          r := Err(fault.value);
        } else {
          nonces := nonces[(request.blobId, request.requester) := request.nonce + 1];
          requests := requests[request := false];
          r := Ok(request);
        }
      }
      OutcomeOfStep(s, c, View(), r);
    }

    method RecordConfidentialAccessResult(sender: Address, request: AccessRequest, response: Hash) returns (r: Result<(), Error>)
      modifies this
      ensures Outcome(old(View()), RecordAccessResult(sender, request, response), View(), r)
    {
      hide Valid, Outcome;
      ghost var s, c := View(), RecordAccessResult(sender, request, response);
      if sender !in controllers {
        r := Err(NotAccessController);
      } else if response == ZeroHash {
        r := Err(ResponseRequired);
      } else {
        var usable := request in requests && !requests[request] && request.deadline >= now && request.blobId in entries;
        if usable {
          var e := entries[request.blobId];
          usable := !e.status.Revoked? && (e.terms.expiresAt == 0 || e.terms.expiresAt > now)
            && MayAccess(e, request.blobId, request.requester);
        }
        if usable {
          requests := requests[request := true];
          r := Ok(());
        } else {
          r := Err(AccessUnusable);
        }
      }
      OutcomeOfStep(s, c, View(), r);
    }

    // ---- Registration ----

    // The checks of _createBlob.
    method CheckRegistration(owner: Address, t: Registration, named: bool) returns (r: Check<Error>)
      ensures forall origin: BlobOrigin, policy: Policy, payment: Payment ::
                AddBlob(View(), owner, t, named, origin, policy, payment) ==
                  if r.Fail? then Err(r.error)
                  else Ok(View().(entries := entries[t.blobId := NewEntry(owner, t, origin, policy, payment)],
                                  names := if named then names[(owner, Keccak(t.name)) := t.blobId] else names))
    {
      if owner == 0 {
        r := Fail(InvalidAddress);
      } else if t.blobId in entries {
        r := Fail(BlobExists);
      } else if t.blobId == ZeroHash {
        r := Fail(BlobIdRequired);
      } else if t.commitment == ZeroHash {
        r := Fail(CommitmentRequired);
      } else if t.size == 0 {
        r := Fail(Error.SizeRequired);
      } else if t.chunkSize == 0 {
        r := Fail(ChunkSizeRequired);
      } else if t.dataShards == 0 {
        r := Fail(DataShardsRequired);
      } else if t.totalShards < t.dataShards {
        r := Fail(InvalidShardCount);
      } else if t.expiresAt != 0 && t.expiresAt <= now {
        r := Fail(InvalidExpiry);
      } else if named {
        if |t.name| == 0 || |t.name| > 1024 || t.name[0] == SLASH || t.name[|t.name| - 1] == SLASH {
          r := Fail(InvalidBlobName);
        } else if (owner, Keccak(t.name)) in names {
          r := Fail(BlobNameTaken);
        } else {
          r := Pass;
        }
      } else if t.name != [] {
        r := Fail(UnexpectedBlobName);
      } else {
        r := Pass;
      }
    }

    // The writes of _createBlob.
    method StoreBlob(owner: Address, t: Registration, named: bool, e: Entry)
      modifies this`entries, this`names
      ensures View() == old(View()).(entries := old(entries)[t.blobId := e],
                                     names := if named then old(names)[(owner, Keccak(t.name)) := t.blobId] else old(names))
    {
      entries := entries[t.blobId := e];
      if named {
        names := names[(owner, Keccak(t.name)) := t.blobId];
      }
    }

    // createBlob, createBlobWithExpiry, createBlobNamed and their operator forms.
    method CreateBlob(sender: Address, t: Registration, named: bool, origin: BlobOrigin) returns (r: Result<(), Error>)
      modifies this
      ensures Outcome(old(View()), Call.CreateBlob(sender, t, named, origin), View(), r)
    {
      hide Valid, Outcome, AddBlob;
      ghost var s, c := View(), Call.CreateBlob(sender, t, named, origin);
      if origin.User? && sender in coordinators {
        r := Err(CoordinatorMustUseOperatorCreation);
      } else if origin.Operator? && sender !in coordinators {
        r := Err(NotCoordinator);
      } else {
        var check := CheckRegistration(sender, t, named);
        if check.Fail? {
          r := Err(check.error);
        } else {
          StoreBlob(sender, t, named, NewEntry(sender, t, origin, NO_POLICY, NO_PAYMENT));
          r := Ok(());
        }
      }
      OutcomeOfStep(s, c, View(), r);
    }

    // createBlobPaid and createBlobNamedPaid, with `value` attached.
    method CreateBlobPaid(sender: Address, value: nat, t: Registration, named: bool, policy: Policy) returns (r: Result<(), Error>)
      modifies this
      ensures Outcome(old(View()), Call.CreateBlobPaid(sender, value, t, named, policy), View(), r)
    {
      hide Valid, Outcome, Step, AddBlob, QuoteNativePayment, ReturnChange, Receive;
      ghost var s, c := View(), Call.CreateBlobPaid(sender, value, t, named, policy);
      StepIsCreatePaid(s, c);
      if sender in coordinators {
        r := Err(CoordinatorMustUseOperatorCreation);
      } else if named != (t.name != []) {
        r := Err(InvalidBlobName);
      } else if t.expiresAt <= now {
        r := Err(PaidExpiryRequired);
      } else if !ValidPolicy(policy) {
        r := Err(InvalidPolicy);
      } else {
        var quote := QuoteNativePayment(t.size, t.totalShards, policy.storageMode, t.expiresAt, now, rate, feeBps);
        if quote.Err? {
          r := Err(QuoteFailed(quote.error));
        } else if value < quote.value.total {
          r := Err(IncorrectPayment);
        } else {
          r := AddPaidBlob(sender, value, t, named, policy, Escrow(sender, quote.value, now));
          if r.Ok? {
            GiveChange(sender, value - quote.value.total);
          }
        }
      }
      OutcomeOfStep(s, c, View(), r);
    }

    // Take the payment and store the blob with its escrow.
    method AddPaidBlob(sender: Address, value: nat, t: Registration, named: bool, policy: Policy, payment: Payment)
      returns (r: Result<(), Error>)
      modifies this
      ensures match AddBlob(Receive(old(View()), value), sender, t, named, User, policy, payment)
              case Err(fault) => r == Err(fault) && View() == old(View())
              case Ok(next) => r == Ok(()) && View() == next && balance >= value
    {
      hide AddBlob, NewEntry;
      ghost var s := View();
      RegistrationIgnoresMoney(s, value, sender, t, named, policy, payment);
      var check := CheckRegistration(sender, t, named);
      assert View() == s;
      if check.Fail? {
        r := Err(check.error);
      } else {
        balance, received := balance + value, received + value;
        assert View() == Receive(s, value);
        StoreBlob(sender, t, named, NewEntry(sender, t, User, policy, payment));
        r := Ok(());
      }
    }

    // What was sent beyond the price goes back to the payer.
    method GiveChange(payer: Address, excess: nat)
      requires excess <= balance
      modifies this
      ensures ReturnChange(old(View()), payer, excess) == Ok(View())
    {
      if excess > 0 {
        Transfer(excess, ChangeTo(payer, excess));
      }
    }

    // ---- Placement, acknowledgement, recovery ----

    method AssignShard(sender: Address, blobId: Hash, shard: uint8, providerId: nat) returns (r: Result<(), Error>)
      modifies this
      ensures Outcome(old(View()), Call.AssignShard(sender, blobId, shard, providerId), View(), r)
    {
      hide Valid, Outcome, Step;
      ghost var s, c := View(), Call.AssignShard(sender, blobId, shard, providerId);
      StepIsLifecycle(s, c);
      var found := OnlyController(sender, blobId);
      if found.Err? {
        r := Err(found.error);
      } else {
        var e := found.value;
        if !e.status.Pending? {
          r := Err(BlobNotPending);
        } else if shard >= e.terms.totalShards {
          r := Err(InvalidShardIndex);
        } else if !Active(providerId) {
          r := Err(ProviderInactive);
        } else if shard in e.placement {
          r := Err(ShardAlreadyAssigned);
        } else {
          entries := entries[blobId := e.(placement := e.placement[shard := providerId])];
          r := Ok(());
        }
      }
      OutcomeOfStep(s, c, View(), r);
    }

    method AcknowledgeShard(sender: Address, blobId: Hash, shard: uint8, commitment: Hash, size: uint64) returns (r: Result<(), Error>)
      modifies this
      ensures Outcome(old(View()), Call.AcknowledgeShard(sender, blobId, shard, commitment, size), View(), r)
    {
      hide Valid, Outcome, Step;
      ghost var s, c := View(), Call.AcknowledgeShard(sender, blobId, shard, commitment, size);
      StepIsLifecycle(s, c);
      var found, caller := Find(blobId), ActiveProviderOf(sender);
      if found.Err? {
        r := Err(found.error);
      } else {
        var e := found.value;
        if !e.status.Pending? && !e.status.Recovering? {
          r := Err(BlobNotWritable);
        } else if shard >= e.terms.totalShards {
          r := Err(InvalidShardIndex);
        } else if commitment == ZeroHash {
          r := Err(CommitmentRequired);
        } else if size == 0 {
          r := Err(Error.SizeRequired);
        } else if caller.Err? {
          r := Err(caller.error);
        } else if shard !in e.placement || e.placement[shard] != caller.value {
          r := Err(ProviderNotAssigned);
        } else {
          var key := (caller.value, shard as nat);
          if key !in e.acks {
            e := e.(ackCount := e.ackCount + 1);
          }
          e := e.(acks := e.acks[key := Acknowledgement(commitment, size, Stamp(now))]);
          entries := entries[blobId := e];
          r := Ok(());
        }
      }
      OutcomeOfStep(s, c, View(), r);
    }

    method FinalizeBlob(sender: Address, blobId: Hash) returns (r: Result<(), Error>)
      modifies this
      ensures Outcome(old(View()), Call.FinalizeBlob(sender, blobId), View(), r)
    {
      hide Valid, Outcome, Step;
      ghost var s, c := View(), Call.FinalizeBlob(sender, blobId);
      StepIsLifecycle(s, c);
      var found := OnlyController(sender, blobId);
      if found.Err? {
        r := Err(found.error);
      } else {
        var e := found.value;
        if !e.status.Pending? {
          r := Err(BlobNotPending);
        } else if e.ackCount != e.terms.totalShards {
          r := Err(MissingAcknowledgements);
        } else {
          e := e.(status := BlobStatus.Active);
          if e.payment.status.Escrowed? {
            e := e.(payment := e.payment.(status := Claimable));
          }
          entries := entries[blobId := e];
          r := Ok(());
        }
      }
      OutcomeOfStep(s, c, View(), r);
    }

    method StartRecovery(sender: Address, blobId: Hash, shard: uint8) returns (r: Result<(), Error>)
      modifies this
      ensures Outcome(old(View()), StartShardRecovery(sender, blobId, shard), View(), r)
    {
      hide Valid, Outcome, Step;
      ghost var s, c := View(), StartShardRecovery(sender, blobId, shard);
      StepIsLifecycle(s, c);
      var found := OnlyController(sender, blobId);
      if found.Err? {
        r := Err(found.error);
      } else {
        var e := found.value;
        if !e.status.Active? && !e.status.Rebuilt? {
          r := Err(BlobNotActive);
        } else if shard >= e.terms.totalShards {
          r := Err(InvalidShardIndex);
        } else if shard !in e.placement {
          r := Err(ShardNotAssigned);
        } else {
          entries := entries[blobId := e.(status := Recovering)];
          r := Ok(());
        }
      }
      OutcomeOfStep(s, c, View(), r);
    }

    method ReassignShard(sender: Address, blobId: Hash, shard: uint8, providerId: nat) returns (r: Result<(), Error>)
      modifies this
      ensures Outcome(old(View()), Call.ReassignShard(sender, blobId, shard, providerId), View(), r)
    {
      hide Valid, Outcome, Step;
      ghost var s, c := View(), Call.ReassignShard(sender, blobId, shard, providerId);
      StepIsLifecycle(s, c);
      var found := OnlyController(sender, blobId);
      if found.Err? {
        r := Err(found.error);
      } else {
        var e := found.value;
        if !e.status.Recovering? {
          r := Err(RecoveryNotActive);
        } else if shard >= e.terms.totalShards {
          r := Err(InvalidShardIndex);
        } else if !Active(providerId) {
          r := Err(ProviderInactive);
        } else {
          entries := entries[blobId := e.(placement := e.placement[shard := providerId])];
          r := Ok(());
        }
      }
      OutcomeOfStep(s, c, View(), r);
    }

    method RecordRebuiltShard(sender: Address, blobId: Hash, shard: uint8, providerId: nat, commitment: Hash) returns (r: Result<(), Error>)
      modifies this
      ensures Outcome(old(View()), Call.RecordRebuiltShard(sender, blobId, shard, providerId, commitment), View(), r)
    {
      hide Valid, Outcome, Step;
      ghost var s, c := View(), Call.RecordRebuiltShard(sender, blobId, shard, providerId, commitment);
      StepIsLifecycle(s, c);
      var found := OnlyController(sender, blobId);
      if found.Err? {
        r := Err(found.error);
      } else {
        var e := found.value;
        var placed := if shard in e.placement then e.placement[shard] else 0;
        if !e.status.Recovering? {
          r := Err(RecoveryNotActive);
        } else if shard >= e.terms.totalShards {
          r := Err(InvalidShardIndex);
        } else if placed != providerId {
          r := Err(ProviderNotAssigned);
        } else if providerId == 0 {
          r := Err(ShardNotAssigned);
        } else if commitment == ZeroHash {
          r := Err(CommitmentRequired);
        } else {
          entries := entries[blobId := e.(status := Rebuilt)];
          r := Ok(());
        }
      }
      OutcomeOfStep(s, c, View(), r);
    }

    // ---- Settlement ----

    // The loop over the claimed indices, with its two accumulators.
    method ClaimProviderSettlement(sender: Address, blobId: Hash, shardIndices: seq<uint8>) returns (r: Result<nat, Error>)
      modifies this
      ensures Outcome(old(View()), Call.ClaimProviderSettlement(sender, blobId, shardIndices), View(), r)
    {
      hide Valid, Outcome, Step, ClaimLoop, Conclude, PayClaim;
      ghost var s, c := View(), Call.ClaimProviderSettlement(sender, blobId, shardIndices);
      StepIsClaim(s, c);
      var found, caller := Find(blobId), ActiveProviderOf(sender);
      if found.Err? {
        r := Err(found.error);
      } else {
        var e := found.value;
        if !e.status.Active? && !e.status.Rebuilt? {
          r := Err(BlobNotSettled);
        } else if !e.payment.status.Claimable? && !e.payment.status.PartiallySettled? {
          r := Err(PaymentNotClaimable);
        } else if caller.Err? {
          r := Err(caller.error);
        } else if |shardIndices| == 0 {
          r := Err(Error.ShardsRequired);
        } else if e.terms.totalShards == 0 || e.payment.providerPool / e.terms.totalShards < e.payment.rewardPerShard {
          r := Err(ArithmeticPanic);
        } else {
          var reservePerShard := e.payment.providerPool / e.terms.totalShards - e.payment.rewardPerShard;
          var loop := ClaimShards(e, caller.value, reservePerShard, shardIndices);
          if loop.Err? {
            r := Err(loop.error);
          } else {
            r := PaySettlement(sender, blobId, e, caller.value, loop.value);
          }
        }
      }
      OutcomeOfStep(s, c, View(), r);
    }

    // The checks after the loop, the write-back and the transfer.
    method PaySettlement(sender: Address, blobId: Hash, e: Entry, pid: nat, m: Marks) returns (r: Result<nat, Error>)
      modifies this
      ensures var s := old(View());
              match Conclude(e, pid, m, s.now)
              case Err(fault) => r == Err(fault) && View() == s
              case Ok(claimed) =>
                match PayClaim(s, blobId, sender, claimed)
                case Err(fault) => r == Err(fault) && View() == s
                case Ok(next) => r == Ok(claimed.amount) && View() == next
    {
      var amount: nat := m.amount + m.reserveAmount;
      var settled: nat := e.payment.providerSettled + amount;
      if amount == 0 {
        r := Err(SettlementEmpty);
      } else if settled > e.payment.providerPool {
        r := Err(PoolExhausted);
      } else if balance < amount {
        r := Err(TransferFailed);
      } else {
        var payment, fee: nat := e.payment.(providerSettled := settled, status := PartiallySettled), 0;
        if settled == payment.providerPool {
          payment, fee := payment.(status := Settled, settledAt := Stamp(now)), payment.protocolFee;
        }
        var after := e.(immediate := m.immediate, reserve := m.reserve, payment := payment);
        ghost var p := ToProvider(blobId, pid, sender, m.immediate - e.immediate, m.reserve - e.reserve, amount);
        ghost var claimed := Claimed(after, pid, p.immediate, p.reserve, amount, fee);
        assert Conclude(e, pid, m, now) == Ok(claimed);
        hide Conclude, Pay, Put;
        WritePayout(blobId, after, fee, amount, p);
        r := Ok(amount);
      }
    }

    // Store the slots, release the fee, and let `call{value: amount}` go out.
    method WritePayout(blobId: Hash, after: Entry, fee: nat, amount: nat, ghost p: Payout)
      requires p.amount == amount <= balance
      modifies this
      ensures var s := old(View());
              Pay(Put(s, blobId, after).(ledger := s.ledger.(withdrawable := s.ledger.withdrawable + fee)), p) == Ok(View())
    {
      hide Pay;
      entries := entries[blobId := after];
      withdrawable := withdrawable + fee;
      Transfer(amount, p);
    }

    method ClaimShards(e: Entry, pid: nat, reservePerShard: nat, shardIndices: seq<uint8>) returns (r: Result<Marks, Error>)
      ensures r == ClaimLoop(e, pid, reservePerShard, now, shardIndices)
    {
      var immediate: set<nat>, reserve: set<nat>, amount: nat, reserveAmount: nat := e.immediate, e.reserve, 0, 0;
      for index := 0 to |shardIndices|
        invariant ClaimLoop(e, pid, reservePerShard, now, shardIndices[..index]) == Ok(Marks(immediate, reserve, amount, reserveAmount))
      {
        var shardIndex := shardIndices[index];
        assert shardIndices[..index + 1][..index] == shardIndices[..index];
        var fault := if shardIndex >= e.terms.totalShards then Some(InvalidShardIndex)
                     else if shardIndex !in e.placement || e.placement[shardIndex] != pid then Some(ProviderNotAssigned)
                     else if (pid, shardIndex) !in e.acks then Some(ShardNotAcknowledged)
                     else None;
        if fault.Some? {
          LoopStopsAtFault(e, pid, reservePerShard, now, shardIndices, index + 1);
          return Err(fault.value);
        }
        if shardIndex !in immediate {
          immediate := immediate + {shardIndex};
          amount := amount + e.payment.rewardPerShard;
        }
        if now >= e.terms.expiresAt && shardIndex !in reserve {
          reserve := reserve + {shardIndex};
          reserveAmount := reserveAmount + reservePerShard;
        }
      }
      assert shardIndices[..|shardIndices|] == shardIndices;
      r := Ok(Marks(immediate, reserve, amount, reserveAmount));
    }

    method RefundPaidBlob(sender: Address, blobId: Hash) returns (r: Result<(), Error>)
      modifies this
      ensures Outcome(old(View()), Call.RefundPaidBlob(sender, blobId), View(), r)
    {
      hide Valid, Outcome, Step;
      ghost var s, c := View(), Call.RefundPaidBlob(sender, blobId);
      StepIsRefund(s, c);
      var found := OnlyOwner(sender, blobId);
      if found.Err? {
        r := Err(found.error);
      } else {
        var e := found.value;
        if !e.payment.status.Escrowed? {
          r := Err(PaymentNotRefundable);
        } else if !e.status.Pending? {
          r := Err(BlobAlreadyActive);
        } else if e.terms.expiresAt == 0 || now <= e.terms.expiresAt {
          r := Err(RefundWindowClosed);
        } else if balance < e.payment.totalPaid {
          r := Err(TransferFailed);
        } else {
          entries := entries[blobId := e.(payment := e.payment.(status := Refunded))];
          Transfer(e.payment.totalPaid, RefundTo(blobId, e.payment.payer, e.payment.totalPaid));
          r := Ok(());
        }
      }
      OutcomeOfStep(s, c, View(), r);
    }

    method WithdrawProtocolFees(sender: Address, recipient: Address, amount: nat) returns (r: Result<(), Error>)
      modifies this
      ensures Outcome(old(View()), Call.WithdrawProtocolFees(sender, recipient, amount), View(), r)
    {
      hide Valid, Outcome, Step;
      ghost var s, c := View(), Call.WithdrawProtocolFees(sender, recipient, amount);
      StepIsWithdraw(s, c);
      if sender != admin {
        r := Err(NotAdmin);
      } else if recipient == 0 {
        r := Err(InvalidAddress);
      } else if amount == 0 || amount > withdrawable {
        r := Err(InvalidFeeAmount);
      } else if balance < amount {
        r := Err(TransferFailed);
      } else {
        withdrawable, feesWithdrawn := withdrawable - amount, feesWithdrawn + amount;
        Transfer(amount, FeesTo(recipient, amount));
        r := Ok(());
      }
      OutcomeOfStep(s, c, View(), r);
    }
  }
}
