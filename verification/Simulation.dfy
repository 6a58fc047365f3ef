// The in-memory registry follows the contract: whatever the contract accepts,
// the stand-in accepts too, knowing nothing of payments, and ends in the same
// place.
module Simulation {
  import opened Prelude
  import opened Quote
  import opened Blob
  import opened BlobInvariants
  import opened Protocol
  import opened Ledgers
  import opened Invariants
  import opened Runs
  import opened Settling
  import L = LocalRegistry

  // ---- The relation ----

  ghost predicate Mirrors(e: Entry, b: L.LocalBlob) {
    && b.owner == e.owner && b.terms == e.terms && b.origin == e.origin && b.status == e.status && b.placement == e.placement
    && b.acks.Keys == e.acks.Keys
    && (forall k :: k in e.acks ==> b.acks[k] == L.LocalAck(e.acks[k].commitment, e.acks[k].size))
  }

  ghost predicate ProvidersMatch(providers: map<nat, Provider>, local: map<nat, L.LocalProvider>) {
    && local.Keys == providers.Keys
    && (forall p :: p in providers ==> local[p].active && local[p].publicKey == providers[p].signingKey)
  }

  ghost predicate BlobsMatch(entries: map<Hash, Entry>, blobs: map<Hash, L.LocalBlob>) {
    blobs.Keys == entries.Keys && forall id :: id in entries ==> Mirrors(entries[id], blobs[id])
  }

  // Same providers, blobs and names; the stand-in may still think a provider
  // active that the contract does not.
  ghost predicate Matches(s: State, m: L.Local) {
    ProvidersMatch(s.providers, m.providers) && BlobsMatch(s.entries, m.blobs) && m.names == s.names
  }

  // ---- What the client of the contract would send instead ----

  // An honest acknowledgement: the provider signs the expected text.
  function Honest(e: Entry, key: Hash, id: Hash, shard: nat, pid: nat, commitment: Hash, size: nat): L.Request {
    var text := L.Payload(id, e.owner, e.terms.name, pid, shard, commitment, size);
    L.Confirm(id, shard, pid, commitment, size, L.Proof(Some(text), text, Some(key)))
  }

  function Translate(s: State, c: Call): Option<L.Request> {
    match c
    case RegisterProvider(_, endpoint, key) => Some(L.AddProvider(s.nextProviderId, endpoint, key))
    case CreateBlob(sender, terms, named, origin) => Some(L.AddBlob(sender, terms, named, origin))
    case CreateBlobPaid(sender, _, terms, named, _) => Some(L.AddBlob(sender, terms, named, User))
    case AssignShard(_, id, shard, pid) => Some(L.Place(id, shard, pid))
    case AcknowledgeShard(sender, id, shard, commitment, size) =>
      if id in s.entries && sender in s.providerIdOf && s.providerIdOf[sender] in s.providers
      then
        var pid := s.providerIdOf[sender];
        Some(Honest(s.entries[id], s.providers[pid].signingKey, id, shard, pid, commitment, size))
      else None
    case FinalizeBlob(_, id) => Some(L.Complete(id))
    case StartShardRecovery(_, id, shard) => Some(L.BeginRecovery(id, shard))
    case ReassignShard(_, id, shard, pid) => Some(L.Move(id, shard, pid))
    case RecordRebuiltShard(_, id, shard, pid, commitment) => Some(L.EndRecovery(id, shard, pid, commitment))
    case _ => None
  }

  // Creations without a NUL in the name, operator blobs by the one coordinator
  // the stand-in knows.
  predicate Within(coordinator: Address, c: Call) {
    && (c.CreateBlob? || c.CreateBlobPaid? ==> c.named ==> 0 !in c.terms.name)
    && (c.CreateBlob? && c.origin.Operator? ==> c.sender == coordinator)
  }

  // ---- One step ----

  lemma PutMirrors(entries: map<Hash, Entry>, blobs: map<Hash, L.LocalBlob>, id: Hash, e: Entry, b: L.LocalBlob)
    requires BlobsMatch(entries, blobs) && Mirrors(e, b)
    ensures BlobsMatch(entries[id := e], blobs[id := b])
  {
    hide Mirrors;
  }

  // The stand-in accepts the request, and its blob `id` then mirrors `e`.
  ghost predicate Follows(m: L.Local, request: L.Request, id: Hash, e: Entry) {
    var r := L.Serve(m, request);
    && r.Ok? && id in r.value.blobs && Mirrors(e, r.value.blobs[id])
    && r.value == L.Store(m, id, r.value.blobs[id])
  }

  lemma AssignFollows(m: L.Local, id: Hash, e: Entry, i: uint8, pid: nat, active: bool)
    requires id in m.blobs && Mirrors(e, m.blobs[id]) && Assign(e, i, pid, active).Ok?
    requires active ==> L.Active(m, pid)
    ensures Follows(m, L.Place(id, i, pid), id, Assign(e, i, pid, active).value)
  {
  }

  lemma AcknowledgeFollows(m: L.Local, id: Hash, e: Entry, i: uint8, pid: nat, commitment: Hash, size: uint64, now: nat)
    requires id in m.blobs && Mirrors(e, m.blobs[id]) && Acknowledge(e, i, Ok(pid), commitment, size, now).Ok?
    requires L.Active(m, pid)
    ensures Follows(m, Honest(e, m.providers[pid].publicKey, id, i, pid, commitment, size), id,
                    Acknowledge(e, i, Ok(pid), commitment, size, now).value)
  {
  }

  // The stand-in counts its acknowledgements; the contract kept a counter.
  lemma FinalizeFollows(m: L.Local, id: Hash, e: Entry)
    requires id in m.blobs && Mirrors(e, m.blobs[id]) && Finalize(e).Ok? && Counted(e)
    ensures Follows(m, L.Complete(id), id, Finalize(e).value)
  {
    assert |m.blobs[id].acks| == |m.blobs[id].acks.Keys|;
  }

  lemma StartRecoveryFollows(m: L.Local, id: Hash, e: Entry, i: uint8)
    requires id in m.blobs && Mirrors(e, m.blobs[id]) && StartRecovery(e, i).Ok?
    ensures Follows(m, L.BeginRecovery(id, i), id, StartRecovery(e, i).value)
  {
  }

  lemma ReassignFollows(m: L.Local, id: Hash, e: Entry, i: uint8, pid: nat, active: bool)
    requires id in m.blobs && Mirrors(e, m.blobs[id]) && Reassign(e, i, pid, active).Ok?
    requires active ==> L.Active(m, pid)
    ensures Follows(m, L.Move(id, i, pid), id, Reassign(e, i, pid, active).value)
  {
  }

  lemma RecordRebuiltFollows(m: L.Local, id: Hash, e: Entry, i: uint8, pid: nat, commitment: Hash)
    requires id in m.blobs && Mirrors(e, m.blobs[id]) && RecordRebuilt(e, i, pid, commitment).Ok?
    ensures Follows(m, L.EndRecovery(id, i, pid, commitment), id, RecordRebuilt(e, i, pid, commitment).value)
  {
  }

  lemma ActiveMatches(s: State, m: L.Local, pid: nat)
    requires ProvidersMatch(s.providers, m.providers)
    ensures IsActive(s, pid) ==> L.Active(m, pid) && m.providers[pid].publicKey == s.providers[pid].signingKey
  {
  }

  lemma LifecycleFollows(s: State, m: L.Local, c: Call)
    requires Valid(s) && Matches(s, m) && IsLifecycle(c) && c.blobId in s.entries && LifecycleEntry(s, c).Ok?
    ensures Translate(s, c).Some? && Follows(m, Translate(s, c).value, c.blobId, LifecycleEntry(s, c).value)
  {
    hide Valid, Follows, Mirrors, Assign, Acknowledge, Finalize, StartRecovery, Reassign, RecordRebuilt, Honest, ProvidersMatch, Sound,
      IsActive, L.Active, Lockstep, Geometry, Placed, Counted;
    var id := c.blobId;
    var e := s.entries[id];
    ValidSlots(s, id);
    match c
    case AssignShard(_, _, i, pid) =>
      ActiveMatches(s, m, pid);
      AssignFollows(m, id, e, i, pid, IsActive(s, pid));
    case AcknowledgeShard(sender, _, i, commitment, size) =>
      AcknowledgerIs(s, e, sender, i, commitment, size);
      var pid := s.providerIdOf[sender];
      ActiveMatches(s, m, pid);
      AcknowledgeFollows(m, id, e, i, pid, commitment, size, s.now);
    case FinalizeBlob(_, _) =>
      SoundCounts(e);
      FinalizeFollows(m, id, e);
    case StartShardRecovery(_, _, i) =>
      StartRecoveryFollows(m, id, e, i);
    case ReassignShard(_, _, i, pid) =>
      ActiveMatches(s, m, pid);
      ReassignFollows(m, id, e, i, pid, IsActive(s, pid));
    case RecordRebuiltShard(_, _, i, pid, commitment) =>
      RecordRebuiltFollows(m, id, e, i, pid, commitment);
  }

  lemma SoundCounts(e: Entry)
    requires Sound(e)
    ensures Counted(e)
  {
    hide Lockstep, Counted;
  }

  lemma AcknowledgerIs(s: State, e: Entry, sender: Address, i: uint8, commitment: Hash, size: uint64)
    requires Acknowledge(e, i, CallerProvider(s, sender), commitment, size, s.now).Ok?
    ensures sender in s.providerIdOf && IsActive(s, s.providerIdOf[sender])
            && CallerProvider(s, sender) == Ok(s.providerIdOf[sender]) && s.providerIdOf[sender] in s.providers
  {
  }

  lemma LifecycleSimulated(s: State, m: L.Local, c: Call)
    requires Valid(s) && Matches(s, m) && IsLifecycle(c) && Step(s, c).Ok?
    ensures Translate(s, c).Some? && L.Serve(m, Translate(s, c).value).Ok?
    ensures Matches(Step(s, c).value, L.Serve(m, Translate(s, c).value).value)
  {
    hide Valid, Step, LifecycleEntry, Mirrors, ProvidersMatch, Translate, BlobsMatch, L.Serve;
    LifecycleShape(s, c);
    LifecycleFollows(s, m, c);
    var e := LifecycleEntry(s, c).value;
    var next := L.Serve(m, Translate(s, c).value).value;
    PutMirrors(s.entries, m.blobs, c.blobId, e, next.blobs[c.blobId]);
  }

  lemma SameBlobs(entries: map<Hash, Entry>, blobs: map<Hash, L.LocalBlob>)
    requires BlobsMatch(entries, blobs)
    ensures blobs.Keys == entries.Keys
  {
    hide Mirrors;
  }

  // The new blob is the stand-in's too, whatever was paid for it.
  lemma AddSimulated(
    s: State, s': State, m: L.Local, owner: Address, r: Registration, named: bool, origin: BlobOrigin, policy: Policy, payment: Payment
  )
    requires Matches(s, m) && AddBlob(s, owner, r, named, origin, policy, payment).Ok?
    requires (named ==> 0 !in r.name) && (origin.Operator? ==> owner == m.coordinator)
    requires var added := AddBlob(s, owner, r, named, origin, policy, payment).value;
             s'.entries == added.entries && s'.names == added.names && s'.providers == s.providers
    ensures var request := L.AddBlob(owner, r, named, origin);
            L.Serve(m, request).Ok? && Matches(s', L.Serve(m, request).value)
  {
    hide ProvidersMatch, BlobsMatch, AddBlob;
    AddedName(s, owner, r, named, origin, policy, payment);
    AddBlobShape(s, owner, r, named, origin, policy, payment);
    var e := NewEntry(owner, r, origin, policy, payment);
    var b := L.LocalBlob(owner, r, origin, Pending, map[], map[]);
    SameBlobs(s.entries, m.blobs);
    if !named {
      match r case Registration(_, _, _, _, _, _, _, _) => assert r.(name := []) == r;
    }
    assert Mirrors(e, b);
    PutMirrors(s.entries, m.blobs, r.blobId, e, b);
  }

  lemma AddedName(s: State, owner: Address, r: Registration, named: bool, origin: BlobOrigin, policy: Policy, payment: Payment)
    requires AddBlob(s, owner, r, named, origin, policy, payment).Ok?
    ensures named ==> 0 < |r.name| <= 1024 && r.name[0] != SLASH && r.name[|r.name| - 1] != SLASH
  {
  }

  lemma CreateSimulated(s: State, m: L.Local, c: Call)
    requires Matches(s, m) && c.CreateBlob? && Step(s, c).Ok? && Within(m.coordinator, c)
    ensures Translate(s, c).Some? && L.Serve(m, Translate(s, c).value).Ok?
    ensures Matches(Step(s, c).value, L.Serve(m, Translate(s, c).value).value)
  {
    hide Matches, L.Serve, AddBlob;
    var s' := Step(s, c).value;
    AddBlobShape(s, c.sender, c.terms, c.named, c.origin, NO_POLICY, NO_PAYMENT);
    AddSimulated(s, s', m, c.sender, c.terms, c.named, c.origin, NO_POLICY, NO_PAYMENT);
  }

  lemma PaidCreateSimulated(s: State, m: L.Local, c: Call)
    requires Matches(s, m) && c.CreateBlobPaid? && Step(s, c).Ok? && Within(m.coordinator, c)
    ensures Translate(s, c).Some? && L.Serve(m, Translate(s, c).value).Ok?
    ensures Matches(Step(s, c).value, L.Serve(m, Translate(s, c).value).value)
  {
    hide Matches, L.Serve, AddBlob, QuoteNativePayment, CreatePaid, Escrow;
    assert Step(s, c) == CreatePaid(s, c);
    CreatePaidShape(s, c);
    var r := c.terms;
    var quote := QuoteNativePayment(r.size, r.totalShards, c.policy.storageMode, r.expiresAt, s.now, s.rate, s.feeBps).value;
    var payment, funded := Escrow(c.sender, quote, s.now), Receive(s, c.value);
    AddBlobShape(funded, c.sender, r, c.named, User, c.policy, payment);
    MatchesIgnoresMoney(s, funded, m);
    AddSimulated(funded, Step(s, c).value, m, c.sender, r, c.named, User, c.policy, payment);
  }

  lemma MatchesIgnoresMoney(s: State, s': State, m: L.Local)
    requires Matches(s, m) && s'.entries == s.entries && s'.names == s.names && s'.providers == s.providers
    ensures Matches(s', m)
  {
    hide ProvidersMatch, BlobsMatch;
  }

  lemma RegisterSimulated(s: State, m: L.Local, c: Call)
    requires Valid(s) && Matches(s, m) && c.RegisterProvider? && Step(s, c).Ok?
    ensures Translate(s, c).Some? && L.Serve(m, Translate(s, c).value).Ok?
    ensures Matches(Step(s, c).value, L.Serve(m, Translate(s, c).value).value)
  {
    hide BooksValid, NamesValid, NoncesValid, AllPlaced, BlobsMatch;
  }

  // Calls without a counterpart leave what is compared as it was.
  lemma OthersSimulated(s: State, m: L.Local, c: Call)
    requires Matches(s, m) && Step(s, c).Ok? && Translate(s, c).None? && !IsLifecycle(c)
    ensures Matches(Step(s, c).value, m)
  {
    hide Step, BlobsMatch, Claim, Mirrors;
    if IsQuiet(c) {
      QuietFrame(s, c);
      if c.SetProviderStatus? {
        StatusMatches(s, m, c);
      }
    } else if c.ClaimProviderSettlement? {
      ClaimShape(s, c);
      var e, caller := s.entries[c.blobId], CallerProvider(s, c.sender);
      ClaimLeavesSlots(e, caller, c.shards, s.now);
      PaymentMirrors(s.entries, m.blobs, c.blobId, Claim(e, caller, c.shards, s.now).value.entry);
    } else if c.RefundPaidBlob? {
      RefundShape(s, c);
      PaymentMirrors(s.entries, m.blobs, c.blobId, Refund(s.entries[c.blobId], s.now).value);
    } else {
      WithdrawMatches(s, m, c);
    }
  }

  lemma StatusMatches(s: State, m: L.Local, c: Call)
    requires Matches(s, m) && c.SetProviderStatus? && Step(s, c).Ok?
    ensures ProvidersMatch(Step(s, c).value.providers, m.providers)
  {
    hide BlobsMatch;
  }

  lemma WithdrawMatches(s: State, m: L.Local, c: Call)
    requires Matches(s, m) && c.WithdrawProtocolFees? && Step(s, c).Ok?
    ensures Matches(Step(s, c).value, m)
  {
    hide BlobsMatch, ProvidersMatch;
  }

  lemma PaymentMirrors(entries: map<Hash, Entry>, blobs: map<Hash, L.LocalBlob>, id: Hash, e: Entry)
    requires BlobsMatch(entries, blobs) && id in entries && SameSlots(entries[id], e)
    ensures BlobsMatch(entries[id := e], blobs)
  {
    assert Mirrors(entries[id], blobs[id]);
    assert Mirrors(e, blobs[id]);
    PutMirrors(entries, blobs, id, e, blobs[id]);
    assert blobs[id := blobs[id]] == blobs;
  }

  // One accepted call of the contract is one accepted request, or none.
  lemma StepSimulated(s: State, m: L.Local, c: Call)
    requires Valid(s) && Matches(s, m) && Step(s, c).Ok? && Within(m.coordinator, c)
    ensures match Translate(s, c)
            case Some(request) => L.Serve(m, request).Ok? && Matches(Step(s, c).value, L.Serve(m, request).value)
            case None => Matches(Step(s, c).value, m)
  {
    hide Valid, Step, Matches, L.Serve, Within, Translate;
    if IsLifecycle(c) {
      LifecycleSimulated(s, m, c);
    } else if c.CreateBlob? {
      CreateSimulated(s, m, c);
    } else if c.CreateBlobPaid? {
      PaidCreateSimulated(s, m, c);
    } else if c.RegisterProvider? {
      RegisterSimulated(s, m, c);
    } else {
      NoCounterpart(s, c);
      OthersSimulated(s, m, c);
    }
  }

  lemma NoCounterpart(s: State, c: Call)
    ensures !IsLifecycle(c) && !c.CreateBlob? && !c.CreateBlobPaid? && !c.RegisterProvider? ==> Translate(s, c).None?
  {
  }

  // ---- Whole runs ----

  // The stand-in alongside the contract: every call the contract accepts is
  // translated and served; one refusal fails the whole run.
  function Shadow(s: State, m: L.Local, events: seq<Event>): Result<L.Local, L.LocalError> {
    if events == [] then Ok(m)
    else
      var k := |events| - 1;
      var before := Run(s, events[..k]);
      var so := Shadow(s, m, events[..k]);
      if so.Ok? && events[k].Do? && Step(before, events[k].call).Ok? && Translate(before, events[k].call).Some?
      then L.Serve(so.value, Translate(before, events[k].call).value)
      else so
  }

  lemma {:induction false} RunSimulated(s: State, m: L.Local, events: seq<Event>)
    requires Valid(s) && Matches(s, m)
    requires forall k :: 0 <= k < |events| && events[k].Do? ==> Within(m.coordinator, events[k].call)
    ensures Shadow(s, m, events).Ok? && Matches(Run(s, events), Shadow(s, m, events).value)
    ensures Shadow(s, m, events).value.coordinator == m.coordinator
  {
    hide Valid, Matches, Step, L.Serve, Within, Translate;
    if events != [] {
      var k := |events| - 1;
      RunSimulated(s, m, events[..k]);
      RunKeepsValid(s, events[..k]);
      var before, so := Run(s, events[..k]), Shadow(s, m, events[..k]).value;
      match events[k]
      case Do(c) =>
        if Step(before, c).Ok? {
          assert Within(m.coordinator, c);
          StepSimulated(before, so, c);
          ServeKeepsCoordinator(so, before, c);
        }
      case _ =>
        ClockAndCoins(before, so, events[k]);
    }
  }

  lemma ServeKeepsCoordinator(m: L.Local, s: State, c: Call)
    ensures Translate(s, c).Some? && L.Serve(m, Translate(s, c).value).Ok? ==>
              L.Serve(m, Translate(s, c).value).value.coordinator == m.coordinator
  {
    hide Translate;
  }

  lemma ClockAndCoins(s: State, m: L.Local, ev: Event)
    requires Matches(s, m) && !ev.Do?
    ensures Matches(Apply(s, ev), m)
  {
    hide BlobsMatch, ProvidersMatch;
  }

  // From deployment: every run of the contract on blobs with NUL-free names,
  // paid for or not, is accepted step for step, with equal status, placement
  // and acknowledgements.
  lemma ContractRunsAreLocalRuns(deployer: Address, now: nat, events: seq<Event>, coordinator: Address)
    requires forall k :: 0 <= k < |events| && events[k].Do? ==> Within(coordinator, events[k].call)
    ensures var shadow := Shadow(Init(deployer, now), L.Local(coordinator, map[], map[], map[]), events);
            && shadow.Ok? && shadow.value.blobs.Keys == Deployed(deployer, now, events).entries.Keys
            && forall id :: id in shadow.value.blobs ==> Mirrors(Deployed(deployer, now, events).entries[id], shadow.value.blobs[id])
  {
    hide Valid, Run, Mirrors, Shadow, Within;
    InitValid(deployer, now);
    RunSimulated(Init(deployer, now), L.Local(coordinator, map[], map[], map[]), events);
  }

  // ---- Where the two part ways ----

  // The stand-in finalizes whatever has the right count; the contract only
  // what is pending. They agree on a finalization by whoever controls the blob
  // exactly when it is pending or the count is wrong.
  lemma FinalizeAgreement(s: State, m: L.Local, sender: Address, id: Hash)
    requires Valid(s) && Matches(s, m) && id in s.entries && Controlled(s, sender, id).Ok?
    ensures var e := s.entries[id];
            (L.Serve(m, L.Complete(id)).Ok? <==> Step(s, FinalizeBlob(sender, id)).Ok?)
            <==> e.status.Pending? || e.ackCount != e.terms.totalShards
  {
    hide Valid, ProvidersMatch, Sound;
    ValidSlots(s, id);
    SoundCounts(s.entries[id]);
    assert Mirrors(s.entries[id], m.blobs[id]);
    assert |m.blobs[id].acks| == |m.blobs[id].acks.Keys|;
  }

  // A name the contract's checks let through is one the stand-in takes exactly
  // when it holds no NUL.
  lemma NameAgreement(s: State, owner: Address, r: Registration)
    requires CheckName(s, owner, r, true).Pass?
    ensures L.ValidName(r.name) <==> 0 !in r.name
  {
    if !L.ValidName(r.name) {
      var k :| 0 <= k < |r.name| && r.name[k] == 0;
      assert r.name[k] in r.name;
    }
  }
}
