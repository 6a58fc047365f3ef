// The in-memory stand-in for the contract: the same lifecycle over plain maps,
// without callers, payments or a clock.
module LocalRegistry {
  import opened Prelude
  import opened Blob

  datatype LocalProvider = LocalProvider(endpoint: string, publicKey: Hash, active: bool)

  datatype LocalAck = LocalAck(commitment: Hash, size: nat)

  datatype LocalBlob = LocalBlob(
    owner: Address, terms: Registration, origin: BlobOrigin, status: BlobStatus,
    placement: map<nat, nat>, acks: map<(nat, nat), LocalAck>)

  datatype Local = Local(
    coordinator: Address, providers: map<nat, LocalProvider>, blobs: map<Hash, LocalBlob>, names: map<(Address, Hash), Hash>)

  datatype LocalError =
    | ProviderExists | BlobExistsAlready | InvalidName | NameTaken | NoSuchBlob | NotPending | InactiveProvider
    | AlreadyAssigned | NotWritable | NotAssigned | BadSignature | ContextMismatch | PayloadMismatch
    | MissingAcks | NotActive | Unassigned | NotRecovering | NoCommitment

  // The text an acknowledgement signs; equal texts have equal fields.
  datatype Payload = Payload(blobId: Hash, owner: Address, name: seq<Byte>, providerId: nat, shard: nat, commitment: Hash, size: nat)

  // What a provider sends with an acknowledgement: the context it was given, if
  // any, the text it signed, and the key under which its signature verifies.
  datatype Proof = Proof(context: Option<Payload>, signed: Payload, verifiesUnder: Option<Hash>)

  datatype Request =
    | AddProvider(providerId: nat, endpoint: string, publicKey: Hash)
    | AddBlob(owner: Address, terms: Registration, named: bool, origin: BlobOrigin)
    | Place(blobId: Hash, shard: nat, providerId: nat)
    | Confirm(blobId: Hash, shard: nat, providerId: nat, commitment: Hash, size: nat, proof: Proof)
    | Complete(blobId: Hash)
    | BeginRecovery(blobId: Hash, shard: nat)
    | Move(blobId: Hash, shard: nat, providerId: nat)
    | EndRecovery(blobId: Hash, shard: nat, providerId: nat, commitment: Hash)

  const SLASH: Byte := 0x2f

  predicate ValidName(name: seq<Byte>) {
    && 0 < |name| <= 1024 && (forall k :: 0 <= k < |name| ==> name[k] != 0)
    && name[0] != SLASH && name[|name| - 1] != SLASH
  }

  function Lookup(m: Local, blobId: Hash): Result<LocalBlob, LocalError> {
    if blobId in m.blobs then Ok(m.blobs[blobId]) else Err(NoSuchBlob)
  }

  predicate Active(m: Local, providerId: nat) {
    providerId in m.providers && m.providers[providerId].active
  }

  predicate PlacedAt(b: LocalBlob, shard: nat, providerId: nat) {
    shard in b.placement && b.placement[shard] == providerId
  }

  function Store(m: Local, blobId: Hash, b: LocalBlob): Local {
    m.(blobs := m.blobs[blobId := b])
  }

  // Operator blobs belong to the coordinator; unnamed blobs have the empty name.
  function Add(m: Local, r: Request): Result<Local, LocalError>
    requires r.AddBlob?
  {
    var owner := if r.origin.Operator? then m.coordinator else r.owner;
    var id, key := r.terms.blobId, (owner, Keccak(r.terms.name));
    if r.named && !ValidName(r.terms.name) then Err(InvalidName)
    else if r.named && key in m.names then Err(NameTaken)
    else if id in m.blobs then Err(BlobExistsAlready)
    else
      var terms := if r.named then r.terms else r.terms.(name := []);
      Ok(Store(m, id, LocalBlob(owner, terms, r.origin, Pending, map[], map[]))
           .(names := if r.named then m.names[key := id] else m.names))
  }

  function Signed(b: LocalBlob, r: Request): Payload
    requires r.Confirm?
  {
    Payload(r.blobId, b.owner, b.terms.name, r.providerId, r.shard, r.commitment, r.size)
  }

  function Acknowledge(m: Local, r: Request): Result<Local, LocalError>
    requires r.Confirm?
  {
    var b :- Lookup(m, r.blobId);
    var expected := Signed(b, r);
    if !b.status.Pending? && !b.status.Recovering? then Err(NotWritable)
    else if !PlacedAt(b, r.shard, r.providerId) then Err(NotAssigned)
    else if !Active(m, r.providerId) then Err(InactiveProvider)
    else if r.proof.verifiesUnder != Some(m.providers[r.providerId].publicKey) then Err(BadSignature)
    else if r.proof.context.Some? && r.proof.context.value != expected then Err(ContextMismatch)
    else if r.proof.signed != expected then Err(PayloadMismatch)
    else Ok(Store(m, r.blobId, b.(acks := b.acks[(r.providerId, r.shard) := LocalAck(r.commitment, r.size)])))
  }

  function Serve(m: Local, r: Request): Result<Local, LocalError> {
    match r
    case AddProvider(pid, endpoint, key) =>
      if pid in m.providers then Err(ProviderExists)
      else Ok(m.(providers := m.providers[pid := LocalProvider(endpoint, key, true)]))
    case AddBlob(_, _, _, _) => Add(m, r)
    case Confirm(_, _, _, _, _, _) => Acknowledge(m, r)
    case Place(id, shard, pid) =>
      var b :- Lookup(m, id);
      if !b.status.Pending? then Err(NotPending)
      else if !Active(m, pid) then Err(InactiveProvider)
      else if shard in b.placement then Err(AlreadyAssigned)
      else Ok(Store(m, id, b.(placement := b.placement[shard := pid])))
    case Complete(id) =>
      var b :- Lookup(m, id);
      if |b.acks| != b.terms.totalShards then Err(MissingAcks)
      else Ok(Store(m, id, b.(status := BlobStatus.Active)))
    case BeginRecovery(id, shard) =>
      var b :- Lookup(m, id);
      if !b.status.Active? && !b.status.Rebuilt? then Err(NotActive)
      else if shard !in b.placement then Err(Unassigned)
      else Ok(Store(m, id, b.(status := Recovering)))
    case Move(id, shard, pid) =>
      var b :- Lookup(m, id);
      if !b.status.Recovering? then Err(NotRecovering)
      else if !Active(m, pid) then Err(InactiveProvider)
      else Ok(Store(m, id, b.(placement := b.placement[shard := pid])))
    case EndRecovery(id, shard, pid, commitment) =>
      var b :- Lookup(m, id);
      if !b.status.Recovering? then Err(NotRecovering)
      else if !PlacedAt(b, shard, pid) then Err(NotAssigned)
      else if commitment == ZeroHash then Err(NoCommitment)
      else Ok(Store(m, id, b.(status := Rebuilt)))
  }

  // What a request did: the next contents, or a refusal that changed nothing.
  ghost predicate Served(m: Local, request: Request, m': Local, r: Result<(), LocalError>) {
    match Serve(m, request)
    case Ok(next) => r.Ok? && m' == next
    case Err(e) => r == Err(e) && m' == m
  }

  // ---- Exactly what is served ----

  lemma ProviderAdded(m: Local, pid: nat, endpoint: string, key: Hash)
    ensures var r := Serve(m, AddProvider(pid, endpoint, key));
            && (r.Ok? <==> pid !in m.providers)
            && (r.Ok? ==> r.value == m.(providers := m.providers[pid := LocalProvider(endpoint, key, true)]))
  {
  }

  // A named blob has a proper, NUL-free name that its owner has not used; the
  // owner of an operator blob is the coordinator.
  lemma BlobAdded(m: Local, owner: Address, terms: Registration, named: bool, origin: BlobOrigin)
    ensures var r := Serve(m, AddBlob(owner, terms, named, origin));
            var holder, name := if origin.Operator? then m.coordinator else owner, terms.name;
            && (r.Ok? <==> && terms.blobId !in m.blobs
                           && (named ==> && 0 < |name| <= 1024 && name[0] != 0x2f && name[|name| - 1] != 0x2f
                                         && (forall k :: 0 <= k < |name| ==> name[k] != 0) && (holder, Keccak(name)) !in m.names))
            && (r.Ok? ==>
                  r.value == m.(
                    blobs := m.blobs[terms.blobId := LocalBlob(holder, if named then terms else terms.(name := []), origin, Pending, map[], map[])],
                    names := if named then m.names[(holder, Keccak(name)) := terms.blobId] else m.names))
  {
  }

  lemma ShardPlaced(m: Local, id: Hash, i: nat, pid: nat)
    ensures var r := Serve(m, Place(id, i, pid));
            && (r.Ok? <==> && id in m.blobs && m.blobs[id].status.Pending? && i !in m.blobs[id].placement
                           && pid in m.providers && m.providers[pid].active)
            && (r.Ok? ==> r.value == m.(blobs := m.blobs[id := m.blobs[id].(placement := m.blobs[id].placement[i := pid])]))
  {
  }

  // Only the placed, active provider, with a signature under its own key over
  // the text that names this blob, owner, name, provider, shard, digest and
  // size; a context that is sent along must be that text too.
  ghost predicate ProperlySigned(m: Local, id: Hash, i: nat, pid: nat, commitment: Hash, size: nat, proof: Proof)
    requires id in m.blobs && pid in m.providers
  {
    var text := Payload(id, m.blobs[id].owner, m.blobs[id].terms.name, pid, i, commitment, size);
    && proof.signed == text && (proof.context.None? || proof.context.value == text)
    && proof.verifiesUnder == Some(m.providers[pid].publicKey)
  }

  lemma ShardConfirmed(m: Local, id: Hash, i: nat, pid: nat, commitment: Hash, size: nat, proof: Proof)
    ensures var r := Serve(m, Confirm(id, i, pid, commitment, size, proof));
            && (r.Ok? <==> && id in m.blobs && (m.blobs[id].status.Pending? || m.blobs[id].status.Recovering?)
                           && i in m.blobs[id].placement && m.blobs[id].placement[i] == pid
                           && pid in m.providers && m.providers[pid].active
                           && ProperlySigned(m, id, i, pid, commitment, size, proof))
            && (r.Ok? ==>
                  r.value == m.(blobs := m.blobs[id := m.blobs[id].(acks := m.blobs[id].acks[(pid, i) := LocalAck(commitment, size)])]))
  {
  }

  lemma BlobCompleted(m: Local, id: Hash)
    ensures var r := Serve(m, Complete(id));
            && (r.Ok? <==> id in m.blobs && |m.blobs[id].acks| == m.blobs[id].terms.totalShards)
            && (r.Ok? ==> r.value == m.(blobs := m.blobs[id := m.blobs[id].(status := BlobStatus.Active)]))
  {
  }

  lemma RecoveryServed(m: Local, id: Hash, i: nat, pid: nat, commitment: Hash)
    ensures var begun := Serve(m, BeginRecovery(id, i));
            && (begun.Ok? <==> id in m.blobs && (m.blobs[id].status.Active? || m.blobs[id].status.Rebuilt?) && i in m.blobs[id].placement)
            && (begun.Ok? ==> begun.value == m.(blobs := m.blobs[id := m.blobs[id].(status := Recovering)]))
    ensures var moved := Serve(m, Move(id, i, pid));
            && (moved.Ok? <==> id in m.blobs && m.blobs[id].status.Recovering? && pid in m.providers && m.providers[pid].active)
            && (moved.Ok? ==> moved.value == m.(blobs := m.blobs[id := m.blobs[id].(placement := m.blobs[id].placement[i := pid])]))
    ensures var ended := Serve(m, EndRecovery(id, i, pid, commitment));
            && (ended.Ok? <==> && id in m.blobs && m.blobs[id].status.Recovering? && commitment != ZeroHash
                               && i in m.blobs[id].placement && m.blobs[id].placement[i] == pid)
            && (ended.Ok? ==> ended.value == m.(blobs := m.blobs[id := m.blobs[id].(status := Rebuilt)]))
  {
  }

  // ---- Whole histories of the stand-in ----

  // A refused request leaves no trace.
  function ServeAll(m: Local, requests: seq<Request>): Local {
    if requests == [] then m
    else
      var before := ServeAll(m, requests[..|requests| - 1]);
      var r := Serve(before, requests[|requests| - 1]);
      if r.Ok? then r.value else before
  }

  // Request `j` was the confirmation that stored this acknowledgement.
  ghost predicate SignedAt(m: Local, requests: seq<Request>, j: nat, id: Hash, pid: nat, i: nat, a: LocalAck)
    requires j < |requests|
  {
    var before, r := ServeAll(m, requests[..j]), requests[j];
    && r.Confirm? && r.blobId == id && r.providerId == pid && r.shard == i && LocalAck(r.commitment, r.size) == a
    && id in before.blobs && i in before.blobs[id].placement && before.blobs[id].placement[i] == pid
    && pid in before.providers && before.providers[pid].active && ProperlySigned(before, id, i, pid, r.commitment, r.size, r.proof)
  }

  lemma NewAckIsSigned(m: Local, r: Request, id: Hash, pid: nat, i: nat)
    requires Serve(m, r).Ok?
    requires id in Serve(m, r).value.blobs && (pid, i) in Serve(m, r).value.blobs[id].acks
    ensures var a := Serve(m, r).value.blobs[id].acks[(pid, i)];
            || (id in m.blobs && (pid, i) in m.blobs[id].acks && m.blobs[id].acks[(pid, i)] == a)
            || SignedAt(m, [r], 0, id, pid, i, a)
  {
    hide Serve, ProperlySigned;
    match r
    case AddProvider(p, endpoint, key) => ProviderAdded(m, p, endpoint, key);
    case AddBlob(owner, terms, named, origin) => BlobAdded(m, owner, terms, named, origin);
    case Place(b, j, p) => ShardPlaced(m, b, j, p);
    case Confirm(b, j, p, commitment, size, proof) =>
      ShardConfirmed(m, b, j, p, commitment, size, proof);
      assert [r][..0] == [];
    case Complete(b) => BlobCompleted(m, b);
    case BeginRecovery(b, j) => RecoveryServed(m, b, j, 0, ZeroHash);
    case Move(b, j, p) => RecoveryServed(m, b, j, p, ZeroHash);
    case EndRecovery(b, j, p, commitment) => RecoveryServed(m, b, j, p, commitment);
  }

  // Every acknowledgement the stand-in holds was signed for exactly what it
  // says by the provider the shard was then placed with.
  lemma {:induction false} EveryAckWasSigned(coordinator: Address, requests: seq<Request>, id: Hash, pid: nat, i: nat)
    requires id in ServeAll(Local(coordinator, map[], map[], map[]), requests).blobs
    requires (pid, i) in ServeAll(Local(coordinator, map[], map[], map[]), requests).blobs[id].acks
    ensures var empty := Local(coordinator, map[], map[], map[]);
            exists j :: 0 <= j < |requests| && SignedAt(empty, requests, j, id, pid, i, ServeAll(empty, requests).blobs[id].acks[(pid, i)])
  {
    hide Serve, ProperlySigned;
    var empty := Local(coordinator, map[], map[], map[]);
    var n := |requests|;
    if n > 0 {
      var front, last := requests[..n - 1], requests[n - 1];
      var before, a := ServeAll(empty, front), ServeAll(empty, requests).blobs[id].acks[(pid, i)];
      if Serve(before, last).Ok? {
        NewAckIsSigned(before, last, id, pid, i);
      }
      if id in before.blobs && (pid, i) in before.blobs[id].acks && before.blobs[id].acks[(pid, i)] == a {
        EveryAckWasSigned(coordinator, front, id, pid, i);
        var j :| 0 <= j < n - 1 && SignedAt(empty, front, j, id, pid, i, a);
        assert front[..j] == requests[..j];
        assert SignedAt(empty, requests, j, id, pid, i, a);
      } else {
        assert [last][..0] == [];
        assert SignedAt(empty, requests, n - 1, id, pid, i, a);
      }
    }
  }

  // ---- The registry object ----

  class MemoryRegistry {
    const coordinator: Address
    var providers: map<nat, LocalProvider>
    var blobs: map<Hash, LocalBlob>
    var blobIdByOwnerNameHash: map<(Address, Hash), Hash>

    ghost function View(): Local
      reads this
    {
      Local(coordinator, providers, blobs, blobIdByOwnerNameHash)
    }

    constructor (coordinator: Address)
      ensures View() == Local(coordinator, map[], map[], map[])
    {
      this.coordinator := coordinator;
      providers, blobs, blobIdByOwnerNameHash := map[], map[], map[];
    }

    method RegisterProvider(providerId: nat, endpoint: string, publicKey: Hash) returns (r: Result<(), LocalError>)
      modifies this
      ensures Served(old(View()), AddProvider(providerId, endpoint, publicKey), View(), r)
    {
      if providerId in providers {
        return Err(ProviderExists);
      }
      providers := providers[providerId := LocalProvider(endpoint, publicKey, true)];
      r := Ok(());
    }

    method CreateBlob(owner: Address, terms: Registration) returns (r: Result<(), LocalError>)
      modifies this
      ensures Served(old(View()), AddBlob(owner, terms, false, User), View(), r)
    {
      r := Insert(owner, terms.(name := []), User);
    }

    method Insert(owner: Address, terms: Registration, origin: BlobOrigin) returns (r: Result<(), LocalError>)
      modifies this
      ensures if terms.blobId in old(blobs) then r == Err(BlobExistsAlready) && View() == old(View())
              else r.Ok? && View() == Store(old(View()), terms.blobId, LocalBlob(owner, terms, origin, Pending, map[], map[]))
    {
      if terms.blobId in blobs {
        return Err(BlobExistsAlready);
      }
      blobs := blobs[terms.blobId := LocalBlob(owner, terms, origin, Pending, map[], map[])];
      r := Ok(());
    }

    method CreateBlobNamed(owner: Address, terms: Registration) returns (r: Result<(), LocalError>)
      modifies this
      ensures Served(old(View()), AddBlob(owner, terms, true, User), View(), r)
    {
      r := InsertNamed(owner, terms, User);
    }

    method InsertNamed(owner: Address, terms: Registration, origin: BlobOrigin) returns (r: Result<(), LocalError>)
      requires origin.Operator? ==> owner == coordinator
      modifies this
      ensures Served(old(View()), AddBlob(owner, terms, true, origin), View(), r)
    {
      if !ValidName(terms.name) {
        return Err(InvalidName);
      }
      var nameKey := (owner, Keccak(terms.name));
      if nameKey in blobIdByOwnerNameHash {
        return Err(NameTaken);
      }
      r := Insert(owner, terms, origin);
      if r.Ok? {
        blobIdByOwnerNameHash := blobIdByOwnerNameHash[nameKey := terms.blobId];
      }
    }

    method CreateOperatorBlob(terms: Registration) returns (r: Result<(), LocalError>)
      modifies this
      ensures forall owner :: Served(old(View()), AddBlob(owner, terms, false, Operator), View(), r)
    {
      r := Insert(coordinator, terms.(name := []), Operator);
    }

    method CreateOperatorBlobNamed(terms: Registration) returns (r: Result<(), LocalError>)
      modifies this
      ensures forall owner :: Served(old(View()), AddBlob(owner, terms, true, Operator), View(), r)
    {
      r := InsertNamed(coordinator, terms, Operator);
    }

    method AssignShard(blobId: Hash, shardIndex: nat, providerId: nat) returns (r: Result<(), LocalError>)
      modifies this
      ensures Served(old(View()), Place(blobId, shardIndex, providerId), View(), r)
    {
      if blobId !in blobs {
        return Err(NoSuchBlob);
      }
      var blob := blobs[blobId];
      if !blob.status.Pending? {
        return Err(NotPending);
      }
      if providerId !in providers || !providers[providerId].active {
        return Err(InactiveProvider);
      }
      if shardIndex in blob.placement {
        return Err(AlreadyAssigned);
      }
      blobs := blobs[blobId := blob.(placement := blob.placement[shardIndex := providerId])];
      r := Ok(());
    }

    method AcknowledgeShard(blobId: Hash, shardIndex: nat, providerId: nat, commitment: Hash, size: nat, proof: Proof)
      returns (r: Result<(), LocalError>)
      modifies this
      ensures Served(old(View()), Confirm(blobId, shardIndex, providerId, commitment, size, proof), View(), r)
    {
      if blobId !in blobs {
        return Err(NoSuchBlob);
      }
      var blob := blobs[blobId];
      if !blob.status.Pending? && !blob.status.Recovering? {
        return Err(NotWritable);
      }
      if shardIndex !in blob.placement || blob.placement[shardIndex] != providerId {
        return Err(NotAssigned);
      }
      if providerId !in providers || !providers[providerId].active {
        return Err(InactiveProvider);
      }
      if proof.verifiesUnder != Some(providers[providerId].publicKey) {
        return Err(BadSignature);
      }
      var expected := Payload(blobId, blob.owner, blob.terms.name, providerId, shardIndex, commitment, size);
      if proof.context.Some? && proof.context.value != expected {
        return Err(ContextMismatch);
      }
      if proof.signed != expected {
        return Err(PayloadMismatch);
      }
      blobs := blobs[blobId := blob.(acks := blob.acks[(providerId, shardIndex) := LocalAck(commitment, size)])];
      r := Ok(());
    }

    method FinalizeBlob(blobId: Hash) returns (r: Result<(), LocalError>)
      modifies this
      ensures Served(old(View()), Complete(blobId), View(), r)
    {
      if blobId !in blobs {
        return Err(NoSuchBlob);
      }
      var blob := blobs[blobId];
      if |blob.acks| != blob.terms.totalShards {
        return Err(MissingAcks);
      }
      blobs := blobs[blobId := blob.(status := BlobStatus.Active)];
      r := Ok(());
    }

    method StartRecovery(blobId: Hash, shardIndex: nat) returns (r: Result<(), LocalError>)
      modifies this
      ensures Served(old(View()), BeginRecovery(blobId, shardIndex), View(), r)
    {
      if blobId !in blobs {
        return Err(NoSuchBlob);
      }
      var blob := blobs[blobId];
      if !blob.status.Active? && !blob.status.Rebuilt? {
        return Err(NotActive);
      }
      if shardIndex !in blob.placement {
        return Err(Unassigned);
      }
      blobs := blobs[blobId := blob.(status := Recovering)];
      r := Ok(());
    }

    method ReassignShard(blobId: Hash, shardIndex: nat, providerId: nat) returns (r: Result<(), LocalError>)
      modifies this
      ensures Served(old(View()), Move(blobId, shardIndex, providerId), View(), r)
    {
      if blobId !in blobs {
        return Err(NoSuchBlob);
      }
      var blob := blobs[blobId];
      if !blob.status.Recovering? {
        return Err(NotRecovering);
      }
      if providerId !in providers || !providers[providerId].active {
        return Err(InactiveProvider);
      }
      blobs := blobs[blobId := blob.(placement := blob.placement[shardIndex := providerId])];
      r := Ok(());
    }

    method RecordRebuiltShard(blobId: Hash, shardIndex: nat, providerId: nat, commitment: Hash) returns (r: Result<(), LocalError>)
      modifies this
      ensures Served(old(View()), EndRecovery(blobId, shardIndex, providerId, commitment), View(), r)
    {
      if blobId !in blobs {
        return Err(NoSuchBlob);
      }
      var blob := blobs[blobId];
      if !blob.status.Recovering? {
        return Err(NotRecovering);
      }
      if shardIndex !in blob.placement || blob.placement[shardIndex] != providerId {
        return Err(NotAssigned);
      }
      if commitment == ZeroHash {
        return Err(NoCommitment);
      }
      blobs := blobs[blobId := blob.(status := Rebuilt)];
      r := Ok(());
    }
  }
}
