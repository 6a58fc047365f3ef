// What the coordinator knows of its providers, and the registry steps it
// issues, in the form its loops use them.
module Nodes {
  import opened Prelude
  import opened Blob
  import opened BlobInvariants
  import opened Protocol
  import opened Ledgers
  import opened Invariants
  import opened Acceptance
  import opened Registry
  import opened Erasure
  import opened Storage

  // A provider as configured: its registry id, its operator's wallet, and the
  // directory behind its URL.
  datatype Node = Node(providerId: nat, operator: Address, storage: ProviderStorage)

  // Why a registered blob is not uploaded.
  datatype Mismatch =
    | WrongBlob | NotUserRegistered | WrongAccount | WrongName | NoLongerPending | RegistrationExpired
    | WrongSize | WrongCommitment | UnsupportedParameters

  datatype Fault =
    | Refused(mismatch: Mismatch)
    | EncodingFailed(reason: CodecError)
    | FourProvidersRequired
    | BlobNotFound
    | ProviderUnavailable(shard: nat)
    | UploadRejected(rejection: StorageError)
    | AcknowledgementMismatch(shard: nat)
    | Reverted(revert: Error)
    | ReadFailed(failure: ReadError)
    | ProviderRequired(providerId: nat)
    | ShardUnrecovered(shard: nat)
    | StillMissing

  // providers.find(candidate => candidate.providerId === id)
  function FindNode(nodes: seq<Node>, id: nat): (r: Option<Node>)
    ensures r.Some? ==> r.value in nodes && r.value.providerId == id
  {
    if nodes == [] then None
    else if nodes[0].providerId == id then Some(nodes[0])
    else FindNode(nodes[1..], id)
  }

  ghost function Disks(nodes: seq<Node>): set<ProviderStorage> {
    set k | 0 <= k < |nodes| :: nodes[k].storage
  }

  type Shelves = map<ProviderStorage, Disk>

  // The contents of the nodes' directories.
  ghost function Views(nodes: seq<Node>): Shelves
    reads Disks(nodes)
  {
    map st | st in Disks(nodes) :: st.View()
  }

  ghost predicate AllIntact(disks: Shelves) {
    forall st :: st in disks ==> Intact(disks[st])
  }

  lemma NodeDisk(nodes: seq<Node>, node: Node)
    requires node in nodes
    ensures node.storage in Disks(nodes)
  {
    var k :| 0 <= k < |nodes| && nodes[k] == node;
    assert nodes[k].storage in Disks(nodes);
  }

  // The node's wallet is the operator of an active provider with its id.
  ghost predicate NodeReady(s: State, node: Node) {
    && node.operator in s.providerIdOf && s.providerIdOf[node.operator] == node.providerId
    && IsActive(s, node.providerId)
  }

  ghost predicate Controls(s: State, sender: Address, e: Entry) {
    e.owner == sender || sender in s.coordinators
  }

  // Only the blob's own slots differ.
  ghost predicate OnlyBlob(s: State, s': State, id: Hash) {
    id in s.entries && id in s'.entries && s' == Put(s, id, s'.entries[id])
  }

  // Everything but the lifecycle slots is as it was.
  ghost predicate SameTerms(e: Entry, e': Entry) {
    && SameDeal(e, e') && e'.payment == e.payment
    && e'.immediate == e.immediate && e'.reserve == e.reserve
  }

  // ---- The registry as the coordinator's client sees it ----

  // Exactly when the write goes through, and the slots it leaves.
  ghost predicate Wrote<T, E>(s: State, s': State, id: Hash, allowed: bool, after: Entry, r: Result<T, E>) {
    && (r.Ok? <==> allowed)
    && s' == (if allowed then Put(s, id, after) else s)
    && (Valid(s) ==> Valid(s'))
  }

  lemma WroteOnlyBlob<T, E>(s: State, s': State, id: Hash, allowed: bool, after: Entry, r: Result<T, E>)
    requires id in s.entries && Wrote(s, s', id, allowed, after, r)
    ensures OnlyBlob(s, s', id) && s'.entries[id] == (if allowed then after else s.entries[id])
    ensures Valid(s) ==> Valid(s')
    ensures s'.providers == s.providers && s'.providerIdOf == s.providerIdOf && s'.coordinators == s.coordinators
  {
    hide Valid;
    assert s.entries[id := s.entries[id]] == s.entries;
  }

  lemma OnlyBlobIs(s: State, s': State, id: Hash)
    requires OnlyBlob(s, s', id)
    ensures id in s.entries && id in s'.entries && s'.now == s.now
  {
  }

  lemma OnlyBlobStart(s: State, id: Hash)
    requires id in s.entries
    ensures OnlyBlob(s, s, id)
  {
    assert s.entries[id := s.entries[id]] == s.entries;
  }

  lemma OnlyBlobTwice(s0: State, s1: State, s2: State, id: Hash)
    requires OnlyBlob(s0, s1, id) && OnlyBlob(s1, s2, id)
    ensures OnlyBlob(s0, s2, id)
  {
    assert s2.entries == s0.entries[id := s2.entries[id]];
  }

  method WriteAssign(registry: PrimeServerRegistry, sender: Address, id: Hash, i: uint8, pid: nat) returns (r: Result<(), Error>)
    requires id in registry.entries
    modifies registry
    ensures var s := old(registry.View());
            var e := s.entries[id];
            Wrote(s, registry.View(), id,
                  Controls(s, sender, e) && e.status.Pending? && i < e.terms.totalShards && IsActive(s, pid) && i !in e.placement,
                  e.(placement := e.placement[i := pid]), r)
  {
    hide Valid, Step;
    ShardAssigned(registry.View(), sender, id, i, pid);
    r := registry.AssignShard(sender, id, i, pid);
  }

  // The slots after `pid` acknowledges shard `i`.
  function Acknowledged(e: Entry, pid: nat, i: nat, a: Acknowledgement): Entry {
    e.(ackCount := if (pid, i) in e.acks then e.ackCount else e.ackCount + 1, acks := e.acks[(pid, i) := a])
  }

  ghost predicate AcknowledgeAllowed(s: State, e: Entry, operator: Address, i: nat, commitment: Hash, size: nat) {
    && (e.status.Pending? || e.status.Recovering?) && i < e.terms.totalShards && commitment != ZeroHash && size > 0
    && operator in s.providerIdOf && IsActive(s, s.providerIdOf[operator])
    && i in e.placement && e.placement[i] == s.providerIdOf[operator]
  }

  method WriteAcknowledge(
    registry: PrimeServerRegistry, operator: Address, id: Hash, i: uint8, commitment: Hash, size: uint64
  ) returns (r: Result<(), Error>)
    requires id in registry.entries
    modifies registry
    ensures var s := old(registry.View());
            var e := s.entries[id];
            Wrote(s, registry.View(), id, AcknowledgeAllowed(s, e, operator, i, commitment, size),
                  if operator in s.providerIdOf
                  then Acknowledged(e, s.providerIdOf[operator], i, Acknowledgement(commitment, size, Stamp(s.now))) else e, r)
  {
    hide Valid, Step;
    ShardAcknowledged(registry.View(), operator, id, i, commitment, size);
    r := registry.AcknowledgeShard(operator, id, i, commitment, size);
  }

  method WriteFinalize(registry: PrimeServerRegistry, sender: Address, id: Hash) returns (r: Result<(), Error>)
    requires id in registry.entries
    modifies registry
    ensures var s := old(registry.View());
            var e := s.entries[id];
            Wrote(s, registry.View(), id, Controls(s, sender, e) && Finalize(e).Ok?,
                  if Finalize(e).Ok? then Finalize(e).value else e, r)
  {
    hide Valid, Step;
    BlobFinalized(registry.View(), sender, id);
    r := registry.FinalizeBlob(sender, id);
  }

  method WriteStartRecovery(registry: PrimeServerRegistry, sender: Address, id: Hash, i: uint8) returns (r: Result<(), Error>)
    requires id in registry.entries
    modifies registry
    ensures var s := old(registry.View());
            var e := s.entries[id];
            Wrote(s, registry.View(), id,
                  Controls(s, sender, e) && (e.status.Active? || e.status.Rebuilt?) && i < e.terms.totalShards && i in e.placement,
                  e.(status := Recovering), r)
  {
    hide Valid, Step;
    RecoveryStarted(registry.View(), sender, id, i);
    r := registry.StartRecovery(sender, id, i);
  }

  method WriteReassign(registry: PrimeServerRegistry, sender: Address, id: Hash, i: uint8, pid: nat) returns (r: Result<(), Error>)
    requires id in registry.entries
    modifies registry
    ensures var s := old(registry.View());
            var e := s.entries[id];
            Wrote(s, registry.View(), id,
                  Controls(s, sender, e) && e.status.Recovering? && i < e.terms.totalShards && IsActive(s, pid),
                  e.(placement := e.placement[i := pid]), r)
  {
    hide Valid, Step;
    ShardReassigned(registry.View(), sender, id, i, pid);
    r := registry.ReassignShard(sender, id, i, pid);
  }

  method WriteRecordRebuilt(
    registry: PrimeServerRegistry, sender: Address, id: Hash, i: uint8, pid: nat, commitment: Hash
  ) returns (r: Result<(), Error>)
    requires id in registry.entries
    modifies registry
    ensures var s := old(registry.View());
            var e := s.entries[id];
            Wrote(s, registry.View(), id,
                  Controls(s, sender, e) && e.status.Recovering? && i < e.terms.totalShards && pid != 0
                  && i in e.placement && e.placement[i] == pid && commitment != ZeroHash,
                  e.(status := Rebuilt), r)
  {
    hide Valid, Step;
    RebuiltRecorded(registry.View(), sender, id, i, pid, commitment);
    r := registry.RecordRebuiltShard(sender, id, i, pid, commitment);
  }
}
