// Placing an encoded blob: assign, upload and acknowledge shard by shard, then
// finalize. The loop skips what an earlier, interrupted run already did.
module Placement {
  import opened Prelude
  import opened Quote
  import opened Blob
  import opened BlobInvariants
  import opened Protocol
  import opened Ledgers
  import opened Invariants
  import opened Registry
  import opened Erasure
  import opened Storage
  import opened Nodes

  datatype Receipt = Receipt(providerId: nat, shard: nat, commitment: Hash, size: nat)

  // The provider a shard goes to: where it is placed already, or the node in
  // the same position.
  function Chosen(e: Entry, nodes: seq<Node>, i: nat): (r: Option<Node>)
    ensures r.Some? ==> r.value in nodes && (i in e.placement ==> r.value.providerId == e.placement[i])
  {
    if i in e.placement then FindNode(nodes, e.placement[i])
    else if i < |nodes| then Some(nodes[i]) else None
  }

  predicate AckMatches(a: Acknowledgement, chunk: Chunk) {
    a.commitment == Sha256(chunk) && a.size == |chunk|
  }

  // The shard is placed where chosen and acknowledged under its commitment.
  ghost predicate Confirmed(e: Entry, pid: nat, i: nat, chunk: Chunk) {
    && i in e.placement && e.placement[i] == pid
    && (pid, i) in e.acks && AckMatches(e.acks[(pid, i)], chunk)
  }

  // ---- One shard ----

  // What handling shard `i` for provider `pid` may do to the blob's slots,
  // whether or not it gets to the end.
  ghost predicate Handling(e: Entry, e': Entry, pid: nat, i: nat, chunk: Chunk) {
    && SameTerms(e, e') && e'.status == e.status
    && (e'.placement == e.placement || e'.placement == e.placement[i := pid])
    && (forall k :: k != (pid, i) ==> (k in e'.acks <==> k in e.acks) && (k in e.acks ==> e'.acks[k] == e.acks[k]))
    && ((pid, i) in e'.acks ==>
          AckMatches(e'.acks[(pid, i)], chunk) || ((pid, i) in e.acks && e'.acks[(pid, i)] == e.acks[(pid, i)]))
  }

  // A shard that an interrupted run may have left in any stage.
  ghost predicate ShardResumable(e: Entry, i: nat, pid: nat, chunk: Chunk) {
    && (i in e.placement ==> e.placement[i] == pid)
    && ((pid, i) in e.acks ==> AckMatches(e.acks[(pid, i)], chunk))
  }

  // The directory holds nothing else under this key.
  ghost predicate DiskResumable(d: Disk, key: Key, chunk: Chunk) {
    Intact(d) && (key in d.metadata ==> d.metadata[key] == MetadataOf(chunk))
  }

  // The sender may place shards of this blob with this provider.
  ghost predicate MayPlace(s: State, sender: Address, e: Entry, node: Node) {
    Controls(s, sender, e) && e.status.Pending? && NodeReady(s, node)
  }

  // Assign the shard unless it is placed already.
  method EnsureAssigned(registry: PrimeServerRegistry, sender: Address, id: Hash, i: uint8, pid: nat, placed: bool)
    returns (r: Result<(), Fault>)
    requires id in registry.entries
    requires placed <==> i in registry.entries[id].placement
    requires placed ==> registry.entries[id].placement[i] == pid
    modifies registry
    ensures var s := old(registry.View());
            var e := s.entries[id];
            Wrote(s, registry.View(), id,
                  placed || (Controls(s, sender, e) && e.status.Pending? && i < e.terms.totalShards && IsActive(s, pid)),
                  e.(placement := e.placement[i := pid]), r)
  {
    hide Valid;
    ghost var s := registry.View();
    if placed {
      assert s.entries[id].placement[i := pid] == s.entries[id].placement;
      assert s.entries[id := s.entries[id]] == s.entries;
      return Ok(());
    }
    var a := WriteAssign(registry, sender, id, i, pid);
    r := if a.Ok? then Ok(()) else Err(Reverted(a.error));
  }

  // Acknowledge the shard, or compare with the acknowledgement it has.
  method EnsureAcknowledged(
    registry: PrimeServerRegistry, operator: Address, id: Hash, i: uint8, existing: Option<Acknowledgement>, stored: Metadata
  ) returns (r: Result<(), Fault>)
    requires id in registry.entries && stored.Metadata? && stored.size < 0x1_0000_0000_0000_0000
    modifies registry
    ensures var s := old(registry.View());
            var e := s.entries[id];
            Wrote(s, registry.View(), id,
                  if existing.Some? then existing.value.commitment == stored.commitment && existing.value.size == stored.size
                  else AcknowledgeAllowed(s, e, operator, i, stored.commitment, stored.size),
                  if existing.Some? || operator !in s.providerIdOf then e
                  else Acknowledged(e, s.providerIdOf[operator], i, Acknowledgement(stored.commitment, stored.size, Stamp(s.now))), r)
  {
    hide Valid;
    ghost var s := registry.View();
    if existing.Some? {
      assert s.entries[id := s.entries[id]] == s.entries;
      return if existing.value.commitment != stored.commitment || existing.value.size != stored.size
             then Err(AcknowledgementMismatch(i)) else Ok(());
    }
    var a := WriteAcknowledge(registry, operator, id, i, stored.commitment, stored.size);
    r := if a.Ok? then Ok(()) else Err(Reverted(a.error));
  }

  function PutOf(id: Hash, i: nat, chunk: Chunk): Upload {
    Upload((id, i), chunk, Some(Sha256(chunk)), Never)
  }

  lemma AssignedShape(
    s: State, s': State, sender: Address, id: Hash, i: uint8, chunk: Chunk, node: Node, placed: bool, r: Result<(), Fault>
  )
    requires id in s.entries && (placed <==> i in s.entries[id].placement)
    requires var e := s.entries[id];
             Wrote(s, s', id,
                   placed || (Controls(s, sender, e) && e.status.Pending? && i < e.terms.totalShards && IsActive(s, node.providerId)),
                   e.(placement := e.placement[i := node.providerId]), r)
    ensures id in s'.entries && OnlyBlob(s, s', id) && (Valid(s) ==> Valid(s'))
    ensures Handling(s.entries[id], s'.entries[id], node.providerId, i, chunk)
    ensures r.Ok? ==> s'.entries[id] == s.entries[id].(placement := s.entries[id].placement[i := node.providerId])
    ensures MayPlace(s, sender, s.entries[id], node) && i < s.entries[id].terms.totalShards ==> r.Ok?
    ensures NodeReady(s, node) ==> NodeReady(s', node)
  {
    hide Valid;
    WroteOnlyBlob(s, s', id,
                  placed || (Controls(s, sender, s.entries[id]) && s.entries[id].status.Pending?
                             && i < s.entries[id].terms.totalShards && IsActive(s, node.providerId)),
                  s.entries[id].(placement := s.entries[id].placement[i := node.providerId]), r);
  }

  lemma AcknowledgedShape(
    s0: State, s: State, s': State, id: Hash, i: uint8, chunk: Chunk, node: Node, existing: Option<Acknowledgement>,
    r: Result<(), Fault>
  )
    requires id in s0.entries && id in s.entries && OnlyBlob(s0, s, id) && i in s.entries[id].placement
    requires s.entries[id] == s0.entries[id].(placement := s0.entries[id].placement[i := node.providerId])
    requires var key := (node.providerId, i as nat);
             existing == if key in s.entries[id].acks then Some(s.entries[id].acks[key]) else None
    requires |chunk| < 0x1_0000_0000_0000_0000
    requires var e := s.entries[id];
             Wrote(s, s', id,
                   if existing.Some? then AckMatches(existing.value, chunk)
                   else AcknowledgeAllowed(s, e, node.operator, i, Sha256(chunk), |chunk|),
                   if existing.Some? || node.operator !in s.providerIdOf then e
                   else Acknowledged(e, s.providerIdOf[node.operator], i, Acknowledgement(Sha256(chunk), |chunk|, Stamp(s.now))), r)
    ensures id in s'.entries && OnlyBlob(s0, s', id) && (Valid(s) ==> Valid(s'))
    ensures Handling(s0.entries[id], s'.entries[id], node.providerId, i, chunk)
    ensures r.Ok? ==> Confirmed(s'.entries[id], node.providerId, i, chunk)
    ensures existing.None? && NodeReady(s, node) && s.entries[id].status.Pending? && i < s.entries[id].terms.totalShards && |chunk| > 0
            ==> r.Ok?
    ensures existing.Some? && AckMatches(existing.value, chunk) ==> r.Ok?
  {
    hide Valid, OnlyBlob;
    var e := s.entries[id];
    WroteOnlyBlob(s, s', id,
                  if existing.Some? then AckMatches(existing.value, chunk)
                  else AcknowledgeAllowed(s, e, node.operator, i, Sha256(chunk), |chunk|),
                  if existing.Some? || node.operator !in s.providerIdOf then e
                  else Acknowledged(e, s.providerIdOf[node.operator], i, Acknowledgement(Sha256(chunk), |chunk|, Stamp(s.now))), r);
    OnlyBlobTwice(s0, s, s', id);
  }

  method PlaceOne(
    registry: PrimeServerRegistry, sender: Address, id: Hash, i: uint8, chunk: Chunk, node: Node, placed: bool,
    existing: Option<Acknowledgement>
  ) returns (r: Result<Receipt, Fault>)
    requires id in registry.entries && |chunk| < 0x1_0000_0000_0000_0000
    requires placed <==> i in registry.entries[id].placement
    requires placed ==> registry.entries[id].placement[i] == node.providerId
    requires existing == (if (node.providerId, i as nat) in registry.entries[id].acks
                          then Some(registry.entries[id].acks[(node.providerId, i as nat)]) else None)
    modifies registry, node.storage
    ensures OnlyBlob(old(registry.View()), registry.View(), id)
    ensures Valid(old(registry.View())) ==> Valid(registry.View())
    ensures Handling(old(registry.View()).entries[id], registry.View().entries[id], node.providerId, i, chunk)
    ensures node.storage.View() == old(node.storage.View())
         || node.storage.View() == Store(old(node.storage.View()), PutOf(id, i, chunk)).0
    ensures r.Ok? ==>
              && Confirmed(registry.View().entries[id], node.providerId, i, chunk)
              && r.value == Receipt(node.providerId, i, Sha256(chunk), |chunk|)
              && Store(old(node.storage.View()), PutOf(id, i, chunk)) == (node.storage.View(), Ok(MetadataOf(chunk)))
    ensures var s := old(registry.View());
            (&& MayPlace(s, sender, s.entries[id], node) && i < s.entries[id].terms.totalShards && |chunk| > 0
             && ShardResumable(s.entries[id], i, node.providerId, chunk)
             && DiskResumable(old(node.storage.View()), (id, i), chunk)) ==> r.Ok?
  {
    hide Valid, Wrote, OnlyBlob, Put, Handling;
    var pid := node.providerId;
    ghost var s0 := registry.View();
    var a := EnsureAssigned(registry, sender, id, i, pid, placed);
    ghost var s1 := registry.View();
    AssignedShape(s0, s1, sender, id, i, chunk, node, placed, a);
    if a.Err? {
      return Err(a.error);
    }
    var upload := node.storage.PutShard(id, i, chunk, Some(Sha256(chunk)), Never);
    if upload.Err? {
      return Err(UploadRejected(upload.error));
    }
    var k := EnsureAcknowledged(registry, node.operator, id, i, existing, upload.value);
    AcknowledgedShape(s0, s1, registry.View(), id, i, chunk, node, existing, k);
    r := if k.Err? then Err(k.error) else Ok(Receipt(pid, i, upload.value.commitment, upload.value.size));
  }

  // ---- The whole blob ----

  // Between `e0` and `e` the loop has finished the first `k` shards: each is
  // confirmed where it was chosen, and the slots of the others are untouched.
  ghost predicate Progress(e0: Entry, e: Entry, nodes: seq<Node>, chunks: seq<Chunk>, k: nat) {
    && k <= |chunks| && SameTerms(e0, e) && e.status == e0.status
    && (forall j :: 0 <= j < k ==> Chosen(e0, nodes, j).Some? && Confirmed(e, Chosen(e0, nodes, j).value.providerId, j, chunks[j]))
    && (forall j :: j >= k ==> (j in e.placement <==> j in e0.placement) && (j in e0.placement ==> e.placement[j] == e0.placement[j]))
    && (forall key: (nat, nat) :: key.1 >= k ==> (key in e.acks <==> key in e0.acks) && (key in e0.acks ==> e.acks[key] == e0.acks[key]))
  }

  lemma ProgressStep(e0: Entry, e: Entry, e': Entry, nodes: seq<Node>, chunks: seq<Chunk>, k: nat)
    requires Progress(e0, e, nodes, chunks, k) && k < |chunks| && Chosen(e0, nodes, k).Some?
    requires Handling(e, e', Chosen(e0, nodes, k).value.providerId, k, chunks[k])
    requires Confirmed(e', Chosen(e0, nodes, k).value.providerId, k, chunks[k])
    ensures Progress(e0, e', nodes, chunks, k + 1)
  {
  }

  // ---- The shard directories ----

  ghost predicate StoredAs(d: Disk, key: Key, chunk: Chunk) {
    key in d.metadata && d.metadata[key] == MetadataOf(chunk) && key in d.data && d.data[key] == chunk
  }

  // One put may have added one shard; nothing stored was touched.
  ghost predicate Grown(d: Disk, d': Disk, key: Key, chunk: Chunk) {
    && Intact(d')
    && (forall k :: k in d.metadata ==> k in d'.metadata && d'.metadata[k] == d.metadata[k])
    && (forall k :: k in d'.metadata ==> k in d.metadata || (k == key && d'.metadata[k] == MetadataOf(chunk)))
  }

  lemma StoreGrows(d: Disk, id: Hash, i: nat, chunk: Chunk)
    requires Intact(d)
    ensures var (d', r) := Store(d, PutOf(id, i, chunk));
            Grown(d, d', (id, i), chunk) && Grown(d, d, (id, i), chunk) && (r.Ok? ==> StoredAs(d', (id, i), chunk))
  {
  }

  lemma GrownKeeps(d: Disk, d': Disk, key: Key, chunk: Chunk, other: Key, content: Chunk)
    requires Grown(d, d', key, chunk) && (other == key ==> content == chunk)
    ensures StoredAs(d, other, content) ==> StoredAs(d', other, content) && Served(d', other) == Some(content)
    ensures DiskResumable(d, other, content) ==> DiskResumable(d', other, content)
  {
    if StoredAs(d, other, content) {
      assert MetadataOf(d'.data[other]) == MetadataOf(content);
    }
  }

  lemma GrownIntact(d: Disk, d': Disk, key: Key, chunk: Chunk)
    requires Grown(d, d', key, chunk)
    ensures Intact(d')
  {
    hide Intact;
  }

  lemma HandlingKeeps(e: Entry, e': Entry, pid: nat, k: nat, chunk: Chunk, j: nat, other: nat, content: Chunk)
    requires Handling(e, e', pid, k, chunk) && (j == k ==> other == pid && content == chunk)
    ensures ShardResumable(e, j, other, content) ==> ShardResumable(e', j, other, content)
    ensures j in e.placement ==> j in e'.placement
  {
  }

  // The first k shards are on the disks of their chosen nodes.
  ghost predicate Shelved(e0: Entry, id: Hash, nodes: seq<Node>, chunks: seq<Chunk>, disks: Shelves, k: nat)
    requires k <= |chunks|
  {
    forall j :: 0 <= j < k ==>
      && Chosen(e0, nodes, j).Some? && Chosen(e0, nodes, j).value.storage in disks
      && StoredAs(disks[Chosen(e0, nodes, j).value.storage], (id, j), chunks[j])
  }

  // Every shard can be brought to the end from here, by the choices made for `e0`.
  ghost predicate Tidy(e0: Entry, e: Entry, id: Hash, nodes: seq<Node>, chunks: seq<Chunk>, disks: Shelves) {
    forall j :: 0 <= j < |chunks| ==>
      && Chosen(e0, nodes, j).Some? && Chosen(e0, nodes, j).value.storage in disks
      && (j in e0.placement ==> j in e.placement) && ShardResumable(e, j, Chosen(e0, nodes, j).value.providerId, chunks[j])
      && DiskResumable(disks[Chosen(e0, nodes, j).value.storage], (id, j), chunks[j])
  }

  // Sender, blob and providers are in a condition to place.
  ghost predicate Ready(s: State, sender: Address, e: Entry, nodes: seq<Node>, chunks: seq<Chunk>) {
    && Controls(s, sender, e) && e.status.Pending? && |chunks| == e.terms.totalShards
    && (forall j :: 0 <= j < |chunks| ==> |chunks[j]| > 0)
    && (forall j :: 0 <= j < |chunks| && Chosen(e, nodes, j).Some? ==> NodeReady(s, Chosen(e, nodes, j).value))
  }

  lemma PutKeepsDisks(
    e0: Entry, e: Entry, e': Entry, id: Hash, nodes: seq<Node>, chunks: seq<Chunk>, k: nat, node: Node,
    disks: Shelves, disks': Shelves, stored: bool
  )
    requires k < |chunks| && Chosen(e0, nodes, k) == Some(node) && node.storage in disks
    requires AllIntact(disks) && Shelved(e0, id, nodes, chunks, disks, k)
    requires disks' == disks
          || disks' == disks[node.storage := Store(disks[node.storage], PutOf(id, k, chunks[k])).0]
    requires stored ==>
               Store(disks[node.storage], PutOf(id, k, chunks[k])) == (disks'[node.storage], Ok(MetadataOf(chunks[k])))
    requires Handling(e, e', node.providerId, k, chunks[k])
    ensures AllIntact(disks') && Shelved(e0, id, nodes, chunks, disks', k)
    ensures stored ==> Shelved(e0, id, nodes, chunks, disks', k + 1)
    ensures Tidy(e0, e, id, nodes, chunks, disks) ==> Tidy(e0, e', id, nodes, chunks, disks')
  {
    hide Store, Intact, Handling, StoredAs, Grown, DiskResumable, ShardResumable, FindNode, Chosen;
    forall st | st in disks
      ensures Grown(disks[st], disks'[st], (id, k), chunks[k]) && Intact(disks'[st])
      ensures stored && st == node.storage ==> StoredAs(disks'[st], (id, k), chunks[k])
    {
      StoreGrows(disks[st], id, k, chunks[k]);
      GrownIntact(disks[st], disks'[st], (id, k), chunks[k]);
    }
    forall st, j: nat | st in disks && j < |chunks|
      ensures StoredAs(disks[st], (id, j), chunks[j]) ==> StoredAs(disks'[st], (id, j), chunks[j])
      ensures DiskResumable(disks[st], (id, j), chunks[j]) ==> DiskResumable(disks'[st], (id, j), chunks[j])
    {
      GrownKeeps(disks[st], disks'[st], (id, k), chunks[k], (id, j), chunks[j]);
    }
    forall j | 0 <= j < |chunks| && Chosen(e0, nodes, j).Some?
      ensures var pid := Chosen(e0, nodes, j).value.providerId;
              && (ShardResumable(e, j, pid, chunks[j]) ==> ShardResumable(e', j, pid, chunks[j]))
              && (j in e.placement ==> j in e'.placement)
    {
      HandlingKeeps(e, e', node.providerId, k, chunks[k], j, Chosen(e0, nodes, j).value.providerId, chunks[j]);
    }
  }

  // ---- The upload ----

  // Finalized, with every given shard confirmed where it was chosen.
  ghost predicate FinallyPlaced(e0: Entry, e: Entry, nodes: seq<Node>, chunks: seq<Chunk>) {
    && SameDeal(e0, e) && e.status.Active? && e.immediate == e0.immediate && e.reserve == e0.reserve
    && e.payment == (if e0.payment.status.Escrowed? then e0.payment.(status := Claimable) else e0.payment)
    && (forall i :: 0 <= i < e.terms.totalShards ==> Acked(e.placement, e.acks, i))
    && (forall i :: 0 <= i < |chunks| ==>
          Chosen(e0, nodes, i).Some? && Confirmed(e, Chosen(e0, nodes, i).value.providerId, i, chunks[i]))
  }

  ghost predicate ReceiptsFor(e0: Entry, nodes: seq<Node>, chunks: seq<Chunk>, receipts: seq<Receipt>, k: nat)
    requires k <= |chunks|
  {
    && |receipts| == k
    && forall j :: 0 <= j < k ==>
         Chosen(e0, nodes, j).Some?
         && receipts[j] == Receipt(Chosen(e0, nodes, j).value.providerId, j, Sha256(chunks[j]), |chunks[j]|)
  }

  lemma FinishPlacing(e0: Entry, e: Entry, nodes: seq<Node>, chunks: seq<Chunk>)
    requires Sound(e) && Progress(e0, e, nodes, chunks, |chunks|)
    ensures e0.status.Pending? && |chunks| == e0.terms.totalShards ==> Finalize(e).Ok?
    ensures Finalize(e).Ok? ==>
              && FinallyPlaced(e0, Finalize(e).value, nodes, chunks)
              && Finalize(e).value.placement == e.placement && Finalize(e).value.acks == e.acks
  {
    hide Lockstep, Chosen;
    forall i | 0 <= i < |chunks| ensures Acked(e.placement, e.acks, i) {
      assert Confirmed(e, Chosen(e0, nodes, i).value.providerId, i, chunks[i]);
    }
    if e.status.Pending? {
      FinalizeNeedsEveryShard(e);
    }
  }

  lemma UnplacedIsUnacknowledged(s: State, id: Hash, pid: nat, i: nat)
    requires Valid(s) && id in s.entries && i !in s.entries[id].placement
    ensures (pid, i) !in s.entries[id].acks
  {
    hide Valid, Lockstep;
    ValidSlots(s, id);
  }

  // Where the loop stands before its turn for shard `k`.
  ghost predicate Turn(s0: State, s: State, id: Hash, nodes: seq<Node>, chunks: seq<Chunk>, disks: Shelves, k: nat) {
    && Valid(s0) && Valid(s) && OnlyBlob(s0, s, id) && AllIntact(disks) && k <= |chunks|
    && Progress(s0.entries[id], s.entries[id], nodes, chunks, k) && Shelved(s0.entries[id], id, nodes, chunks, disks, k)
  }

  lemma FirstTurn(s: State, id: Hash, nodes: seq<Node>, chunks: seq<Chunk>, disks: Shelves)
    requires Valid(s) && id in s.entries && AllIntact(disks)
    ensures Turn(s, s, id, nodes, chunks, disks, 0) && ReceiptsFor(s.entries[id], nodes, chunks, [], 0)
  {
    hide Valid;
    assert s.entries[id := s.entries[id]] == s.entries;
  }

  lemma TurnIs(s0: State, s: State, id: Hash, nodes: seq<Node>, chunks: seq<Chunk>, disks: Shelves, k: nat)
    requires Turn(s0, s, id, nodes, chunks, disks, k)
    ensures id in s0.entries && id in s.entries
    ensures Valid(s) && OnlyBlob(s0, s, id) && AllIntact(disks) && k <= |chunks| && Shelved(s0.entries[id], id, nodes, chunks, disks, k)
  {
    hide Valid, AllIntact, Shelved;
  }

  lemma BlobStays(s: State, s': State, id: Hash)
    requires OnlyBlob(s, s', id)
    ensures id in s.entries && id in s'.entries
  {
  }

  // The slots of the next shard are still those of the snapshot.
  lemma SlotUntouched(s0: State, s: State, id: Hash, nodes: seq<Node>, chunks: seq<Chunk>, disks: Shelves, i: nat)
    requires Turn(s0, s, id, nodes, chunks, disks, i) && i < |chunks|
    ensures var e0, e := s0.entries[id], s.entries[id];
            && (i in e.placement <==> i in e0.placement) && (i in e0.placement ==> e.placement[i] == e0.placement[i])
            && forall pid: nat :: ((pid, i) in e.acks <==> (pid, i) in e0.acks && i in e0.placement)
                                  && ((pid, i) in e.acks ==> e.acks[(pid, i)] == e0.acks[(pid, i)])
  {
    hide Valid, Shelved, AllIntact;
    forall pid: nat | i !in s0.entries[id].placement
      ensures (pid, i) !in s0.entries[id].acks
    {
      UnplacedIsUnacknowledged(s0, id, pid, i);
    }
  }

  lemma TurnMayPlace(s0: State, s: State, sender: Address, id: Hash, nodes: seq<Node>, chunks: seq<Chunk>, disks: Shelves, i: nat)
    requires Turn(s0, s, id, nodes, chunks, disks, i) && i < |chunks|
    requires Ready(s0, sender, s0.entries[id], nodes, chunks)
             && Tidy(s0.entries[id], s.entries[id], id, nodes, chunks, disks)
    ensures Chosen(s0.entries[id], nodes, i).Some?
    ensures var node, e := Chosen(s0.entries[id], nodes, i).value, s.entries[id];
            && MayPlace(s, sender, e, node) && i < e.terms.totalShards && |chunks[i]| > 0
            && ShardResumable(e, i, node.providerId, chunks[i])
            && node.storage in disks && DiskResumable(disks[node.storage], (id, i), chunks[i])
  {
    hide DiskResumable, ShardResumable, Chosen, Valid, AllIntact, Shelved;
  }

  lemma TurnPasses(
    s0: State, s: State, s': State, id: Hash, nodes: seq<Node>, chunks: seq<Chunk>, disks: Shelves, disks': Shelves,
    i: nat, node: Node, done: bool
  )
    requires Turn(s0, s, id, nodes, chunks, disks, i) && i < |chunks|
    requires Valid(s') && OnlyBlob(s, s', id)
    requires Chosen(s0.entries[id], nodes, i) == Some(node) && node.storage in disks
    requires Handling(s.entries[id], s'.entries[id], node.providerId, i, chunks[i])
    requires disks' == disks || disks' == disks[node.storage := Store(disks[node.storage], PutOf(id, i, chunks[i])).0]
    requires done ==>
               && Confirmed(s'.entries[id], node.providerId, i, chunks[i])
               && Store(disks[node.storage], PutOf(id, i, chunks[i])) == (disks'[node.storage], Ok(MetadataOf(chunks[i])))
    ensures id in s'.entries && OnlyBlob(s0, s', id) && AllIntact(disks')
    ensures done ==> Turn(s0, s', id, nodes, chunks, disks', i + 1)
    ensures Tidy(s0.entries[id], s.entries[id], id, nodes, chunks, disks) ==>
              Tidy(s0.entries[id], s'.entries[id], id, nodes, chunks, disks')
  {
    var e0, e, e' := s0.entries[id], s.entries[id], s'.entries[id];
    hide Valid, Store, Handling, Tidy, Shelved, AllIntact, Progress, Confirmed, Chosen;
    OnlyBlobTwice(s0, s, s', id);
    PutKeepsDisks(e0, e, e', id, nodes, chunks, i, node, disks, disks', done);
    if done {
      ProgressStep(e0, e, e', nodes, chunks, i);
    }
  }

  // One turn of the loop, for the snapshot `e0` taken before it.
  method PlaceNext(
    registry: PrimeServerRegistry, sender: Address, id: Hash, ghost s0: State, e0: Entry, chunks: seq<Chunk>,
    nodes: seq<Node>, i: uint8
  ) returns (r: Result<Receipt, Fault>)
    requires id in s0.entries && e0 == s0.entries[id] && i < |chunks| && |chunks[i]| < 0x1_0000_0000_0000_0000
    requires Turn(s0, registry.View(), id, nodes, chunks, Views(nodes), i)
    modifies registry, Disks(nodes)
    ensures Valid(registry.View()) && OnlyBlob(s0, registry.View(), id) && AllIntact(Views(nodes))
    ensures Unfinished(e0, registry.View().entries[id])
    ensures r.Ok? ==>
              && Turn(s0, registry.View(), id, nodes, chunks, Views(nodes), i + 1)
              && Chosen(e0, nodes, i).Some?
              && r.value == Receipt(Chosen(e0, nodes, i).value.providerId, i, Sha256(chunks[i]), |chunks[i]|)
    ensures old(Tidy(e0, registry.View().entries[id], id, nodes, chunks, Views(nodes))) ==>
              && Tidy(e0, registry.View().entries[id], id, nodes, chunks, Views(nodes))
              && (Ready(s0, sender, e0, nodes, chunks) ==> r.Ok?)
  {
    hide Valid, Put, Progress, Tidy, Shelved, Handling, Ready, AllIntact, Confirmed, Chosen, MayPlace, ShardResumable,
      DiskResumable, Store, NodeReady, Unfinished, Turn, OnlyBlob;
    ghost var s, disks := registry.View(), Views(nodes);
    TurnIs(s0, s, id, nodes, chunks, disks, i);
    TurnUnfinished(s0, s, s.entries[id], id, nodes, chunks, disks, i, 0, []);
    if Ready(s0, sender, e0, nodes, chunks) && Tidy(e0, s.entries[id], id, nodes, chunks, disks) {
      TurnMayPlace(s0, s, sender, id, nodes, chunks, disks, i);
    }
    var provider := Chosen(e0, nodes, i);
    if provider.None? {
      return Err(ProviderUnavailable(i));
    }
    var node := provider.value;
    NodeDisk(nodes, node);
    var placed := i in e0.placement;
    var key := (node.providerId, i as nat);
    var existing := if placed && key in e0.acks then Some(e0.acks[key]) else None;
    SlotUntouched(s0, s, id, nodes, chunks, disks, i);
    r := PlaceOne(registry, sender, id, i, chunks[i], node, placed, existing);
    BlobStays(s, registry.View(), id);
    TurnUnfinished(s0, s, registry.View().entries[id], id, nodes, chunks, disks, i, node.providerId, chunks[i]);
    TurnPasses(s0, s, registry.View(), id, nodes, chunks, disks, Views(nodes), i, node, r.Ok?);
  }

  lemma FinalizeTurn(
    s0: State, s: State, s': State, sender: Address, id: Hash, nodes: seq<Node>, chunks: seq<Chunk>, disks: Shelves,
    r: Result<(), Error>
  )
    requires Turn(s0, s, id, nodes, chunks, disks, |chunks|)
    requires var e := s.entries[id];
             Wrote(s, s', id, Controls(s, sender, e) && Finalize(e).Ok?, if Finalize(e).Ok? then Finalize(e).value else e, r)
    ensures Valid(s') && OnlyBlob(s0, s', id)
    ensures r.Ok? ==> FinallyPlaced(s0.entries[id], s'.entries[id], nodes, chunks)
    ensures r.Err? ==> s'.entries[id] == s.entries[id]
    ensures Tidy(s0.entries[id], s.entries[id], id, nodes, chunks, disks) ==>
              Tidy(s0.entries[id], s'.entries[id], id, nodes, chunks, disks)
    ensures Ready(s0, sender, s0.entries[id], nodes, chunks) ==> r.Ok?
  {
    hide Valid, Chosen, Sound, FinallyPlaced, Shelved, AllIntact, DiskResumable, Finalize;
    var e0, e := s0.entries[id], s.entries[id];
    ValidSlots(s, id);
    FinishPlacing(e0, e, nodes, chunks);
    WroteOnlyBlob(s, s', id, Controls(s, sender, e) && Finalize(e).Ok?, if Finalize(e).Ok? then Finalize(e).value else e, r);
    OnlyBlobTwice(s0, s, s', id);
  }

  // Not finalized: nothing but placements and acknowledgements has moved.
  ghost predicate Unfinished(e0: Entry, e: Entry) {
    SameTerms(e0, e) && e.status == e0.status
  }

  lemma TurnUnfinished(
    s0: State, s: State, e': Entry, id: Hash, nodes: seq<Node>, chunks: seq<Chunk>, disks: Shelves, i: nat, pid: nat, chunk: Chunk
  )
    requires Turn(s0, s, id, nodes, chunks, disks, i)
    ensures id in s0.entries && id in s.entries && Unfinished(s0.entries[id], s.entries[id])
    ensures Handling(s.entries[id], e', pid, i, chunk) ==> Unfinished(s0.entries[id], e')
  {
    hide Valid, Chosen, Confirmed, Shelved, AllIntact;
  }

  // ---- Running it again ----

  ghost predicate DistinctIds(nodes: seq<Node>) {
    forall i, j :: 0 <= i < j < |nodes| ==> nodes[i].providerId != nodes[j].providerId
  }

  lemma {:induction false} FindsEach(nodes: seq<Node>, i: nat)
    requires DistinctIds(nodes) && i < |nodes|
    ensures FindNode(nodes, nodes[i].providerId) == Some(nodes[i])
  {
    if i > 0 {
      assert nodes[0].providerId != nodes[i].providerId;
      assert DistinctIds(nodes[1..]);
      FindsEach(nodes[1..], i - 1);
    }
  }

  // The choice made for an unplaced shard is what its placement leads back to.
  lemma ChoiceStays(e0: Entry, e: Entry, nodes: seq<Node>, j: nat)
    requires DistinctIds(nodes) && Chosen(e0, nodes, j).Some?
    requires j in e0.placement ==> j in e.placement
    requires j in e.placement ==> e.placement[j] == Chosen(e0, nodes, j).value.providerId
    ensures Chosen(e, nodes, j) == Chosen(e0, nodes, j)
  {
    if j !in e0.placement {
      FindsEach(nodes, j);
    }
  }

  // Wherever a run stopped, the next one, deciding afresh, can take over.
  lemma StoppedRunResumes(e0: Entry, e: Entry, id: Hash, nodes: seq<Node>, chunks: seq<Chunk>, disks: Shelves)
    requires DistinctIds(nodes) && Tidy(e0, e, id, nodes, chunks, disks)
    ensures Tidy(e, e, id, nodes, chunks, disks)
  {
    hide Chosen, DistinctIds, DiskResumable;
    forall j | 0 <= j < |chunks| ensures Chosen(e, nodes, j) == Chosen(e0, nodes, j) {
      ChoiceStays(e0, e, nodes, j);
    }
  }

  lemma RerunFrom(e0: Entry, e: Entry, id: Hash, nodes: seq<Node>, chunks: seq<Chunk>, disks: Shelves)
    ensures DistinctIds(nodes) && Tidy(e0, e, id, nodes, chunks, disks) ==> Tidy(e, e, id, nodes, chunks, disks)
  {
    hide Tidy, DistinctIds;
    if DistinctIds(nodes) && Tidy(e0, e, id, nodes, chunks, disks) {
      StoppedRunResumes(e0, e, id, nodes, chunks, disks);
    }
  }

  // A provider that stops between the two files of a shard leaves it resumable.
  lemma CutPutResumes(
    e0: Entry, e: Entry, id: Hash, nodes: seq<Node>, chunks: seq<Chunk>, disks: Shelves, st: ProviderStorage, i: nat
  )
    requires Tidy(e0, e, id, nodes, chunks, disks) && AllIntact(disks) && st in disks && i < |chunks|
    ensures var cut := Store(disks[st], Upload((id, i), chunks[i], Some(Sha256(chunks[i])), BetweenFiles)).0;
            AllIntact(disks[st := cut]) && Tidy(e0, e, id, nodes, chunks, disks[st := cut])
  {
    var cut := Store(disks[st], Upload((id, i), chunks[i], Some(Sha256(chunks[i])), BetweenFiles)).0;
    assert Grown(disks[st], cut, (id, i), chunks[i]);
    hide Store, Grown, Intact, Chosen, DiskResumable, ShardResumable;
    GrownIntact(disks[st], cut, (id, i), chunks[i]);
    forall j: nat | j < |chunks|
      ensures DiskResumable(disks[st], (id, j), chunks[j]) ==> DiskResumable(cut, (id, j), chunks[j])
    {
      GrownKeeps(disks[st], cut, (id, i), chunks[i], (id, j), chunks[j]);
    }
  }

  // A blob that was just registered, with none of its shards on any disk.
  lemma FreshResumes(e: Entry, id: Hash, nodes: seq<Node>, chunks: seq<Chunk>)
    requires e.placement == map[] && e.acks == map[] && |chunks| <= |nodes| && AllIntact(Views(nodes))
    requires forall st, i :: st in Views(nodes) ==> (id, i) !in Views(nodes)[st].metadata
    ensures Tidy(e, e, id, nodes, chunks, Views(nodes))
  {
    forall i | 0 <= i < |chunks| ensures nodes[i].storage in Disks(nodes) {
      NodeDisk(nodes, nodes[i]);
    }
  }

  // Each shard is acknowledged where it is placed, under its own commitment,
  // and on that provider's disk.
  ghost predicate Kept(e: Entry, id: Hash, nodes: seq<Node>, chunks: seq<Chunk>, disks: Shelves) {
    forall i :: 0 <= i < |chunks| ==>
      && i in e.placement && Confirmed(e, e.placement[i], i, chunks[i])
      && FindNode(nodes, e.placement[i]).Some? && FindNode(nodes, e.placement[i]).value.storage in disks
      && StoredAs(disks[FindNode(nodes, e.placement[i]).value.storage], (id, i), chunks[i])
  }

  lemma PlacedNode(e0: Entry, e: Entry, nodes: seq<Node>, chunks: seq<Chunk>, i: nat)
    requires DistinctIds(nodes) && FinallyPlaced(e0, e, nodes, chunks) && i < |chunks|
    ensures i in e.placement && Chosen(e0, nodes, i).Some? && FindNode(nodes, e.placement[i]) == Chosen(e0, nodes, i)
  {
    assert Chosen(e0, nodes, i).Some? && Confirmed(e, Chosen(e0, nodes, i).value.providerId, i, chunks[i]);
    if i !in e0.placement {
      FindsEach(nodes, i);
    }
  }

  lemma PlacedIsKept(e0: Entry, e: Entry, id: Hash, nodes: seq<Node>, chunks: seq<Chunk>, disks: Shelves)
    requires DistinctIds(nodes) && FinallyPlaced(e0, e, nodes, chunks) && Shelved(e0, id, nodes, chunks, disks, |chunks|)
    ensures Kept(e, id, nodes, chunks, disks)
  {
    hide StoredAs, DistinctIds, FindNode, Chosen;
    forall i | 0 <= i < |chunks|
      ensures i in e.placement && Chosen(e0, nodes, i).Some? && FindNode(nodes, e.placement[i]) == Chosen(e0, nodes, i)
      ensures Chosen(e0, nodes, i).value.storage in disks && Confirmed(e, e.placement[i], i, chunks[i])
      ensures StoredAs(disks[Chosen(e0, nodes, i).value.storage], (id, i), chunks[i])
    {
      PlacedNode(e0, e, nodes, chunks, i);
      assert Confirmed(e, Chosen(e0, nodes, i).value.providerId, i, chunks[i]);
    }
  }

  // Where each shard ends up: where it was placed before, or else with the
  // provider in the shard's own position.
  ghost predicate InPosition(e0: Entry, e: Entry, nodes: seq<Node>, n: nat) {
    forall i :: 0 <= i < n ==>
      && i in e.placement
      && (i in e0.placement ==> e.placement[i] == e0.placement[i])
      && (i !in e0.placement ==> i < |nodes| && e.placement[i] == nodes[i].providerId)
  }

  lemma PlacedInPosition(e0: Entry, e: Entry, nodes: seq<Node>, chunks: seq<Chunk>)
    requires FinallyPlaced(e0, e, nodes, chunks)
    ensures InPosition(e0, e, nodes, |chunks|)
  {
    hide FindNode;
    forall i | 0 <= i < |chunks|
      ensures i in e.placement && (if i in e0.placement then e.placement[i] == e0.placement[i]
                                   else i < |nodes| && e.placement[i] == nodes[i].providerId)
    {
      assert Chosen(e0, nodes, i).Some?;
    }
  }

  // One receipt a shard, of its provider, digest and size.
  ghost predicate ReceiptsOf(e: Entry, chunks: seq<Chunk>, receipts: seq<Receipt>) {
    && |receipts| == |chunks|
    && forall i :: 0 <= i < |chunks| ==>
         i in e.placement && receipts[i] == Receipt(e.placement[i], i, Sha256(chunks[i]), |chunks[i]|)
  }

  lemma ReceiptsMatch(e0: Entry, e: Entry, nodes: seq<Node>, chunks: seq<Chunk>, receipts: seq<Receipt>)
    requires FinallyPlaced(e0, e, nodes, chunks) && ReceiptsFor(e0, nodes, chunks, receipts, |chunks|)
    ensures ReceiptsOf(e, chunks, receipts)
  {
    hide Chosen;
    forall i | 0 <= i < |chunks|
      ensures i in e.placement && receipts[i] == Receipt(e.placement[i], i, Sha256(chunks[i]), |chunks[i]|)
    {
      assert Chosen(e0, nodes, i).Some?;
    }
  }

  method PlaceShards(registry: PrimeServerRegistry, sender: Address, id: Hash, chunks: seq<Chunk>, nodes: seq<Node>)
    returns (r: Result<seq<Receipt>, Fault>)
    requires Valid(registry.View()) && AllIntact(Views(nodes))
    requires |chunks| < 0x100 && forall i :: 0 <= i < |chunks| ==> |chunks[i]| < 0x1_0000_0000_0000_0000
    modifies registry, Disks(nodes)
    ensures Valid(registry.View()) && AllIntact(Views(nodes))
    ensures if id !in old(registry.entries) then r.Err? && registry.View() == old(registry.View())
            else OnlyBlob(old(registry.View()), registry.View(), id)
    ensures |nodes| != 4 ==> r == Err(FourProvidersRequired) && registry.View() == old(registry.View())
    ensures r.Err? && id in old(registry.entries) ==> Unfinished(old(registry.entries[id]), registry.View().entries[id])
    ensures r.Ok? ==>
              && id in old(registry.entries)
              && var e0, e := old(registry.entries[id]), registry.View().entries[id];
                 && FinallyPlaced(e0, e, nodes, chunks) && Shelved(e0, id, nodes, chunks, Views(nodes), |chunks|)
                 && InPosition(e0, e, nodes, |chunks|) && ReceiptsOf(e, chunks, r.value)
    ensures id in old(registry.entries) && old(Tidy(registry.entries[id], registry.entries[id], id, nodes, chunks, Views(nodes))) ==>
              var e0, e := old(registry.entries[id]), registry.View().entries[id];
              && Tidy(e0, e, id, nodes, chunks, Views(nodes))
              && (DistinctIds(nodes) ==> Tidy(e, e, id, nodes, chunks, Views(nodes)))
              && (|nodes| == 4 && Ready(old(registry.View()), sender, e0, nodes, chunks) ==> r.Ok?)
    ensures r.Ok? && DistinctIds(nodes) ==> Kept(registry.View().entries[id], id, nodes, chunks, Views(nodes))
  {
    hide Valid, Put, Progress, Tidy, Shelved, Ready, AllIntact, Chosen, Turn, FinallyPlaced, Wrote, Finalize, DistinctIds, Kept,
      Unfinished, InPosition, ReceiptsOf;
    ghost var s0 := registry.View();
    if id !in registry.entries {
      return Err(if |nodes| != 4 then FourProvidersRequired else BlobNotFound);
    }
    FirstTurn(s0, id, nodes, chunks, Views(nodes));
    TurnIs(s0, s0, id, nodes, chunks, Views(nodes), 0);
    TurnUnfinished(s0, s0, s0.entries[id], id, nodes, chunks, Views(nodes), 0, 0, []);
    if |nodes| != 4 {
      return Err(FourProvidersRequired);
    }
    var e0 := registry.entries[id];
    var receipts: seq<Receipt> := [];
    for i := 0 to |chunks|
      invariant id in registry.entries && Turn(s0, registry.View(), id, nodes, chunks, Views(nodes), i)
      invariant old(Tidy(registry.entries[id], registry.entries[id], id, nodes, chunks, Views(nodes))) ==>
                  Tidy(e0, registry.View().entries[id], id, nodes, chunks, Views(nodes))
      invariant ReceiptsFor(e0, nodes, chunks, receipts, i)
    {
      var receipt := PlaceNext(registry, sender, id, s0, e0, chunks, nodes, i);
      if receipt.Err? {
        RerunFrom(e0, registry.entries[id], id, nodes, chunks, Views(nodes));
        return Err(receipt.error);
      }
      receipts := receipts + [receipt.value];
    }
    ghost var s := registry.View();
    TurnIs(s0, s, id, nodes, chunks, Views(nodes), |chunks|);
    TurnUnfinished(s0, s, s.entries[id], id, nodes, chunks, Views(nodes), |chunks|, 0, []);
    var finalized := WriteFinalize(registry, sender, id);
    FinalizeTurn(s0, s, registry.View(), sender, id, nodes, chunks, Views(nodes), finalized);
    RerunFrom(e0, registry.entries[id], id, nodes, chunks, Views(nodes));
    if finalized.Ok? && DistinctIds(nodes) {
      PlacedIsKept(e0, registry.entries[id], id, nodes, chunks, Views(nodes));
    }
    if finalized.Ok? {
      PlacedInPosition(e0, registry.entries[id], nodes, chunks);
      ReceiptsMatch(e0, registry.entries[id], nodes, chunks, receipts);
    }
    r := if finalized.Err? then Err(Reverted(finalized.error)) else Ok(receipts);
  }
}
