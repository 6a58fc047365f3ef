// Rebuilding the shards a read could not verify: recover, restart, re-upload,
// acknowledge and record them one by one, then read again.
module Rebuilding {
  import opened Prelude
  import opened Blob
  import opened BlobInvariants
  import opened Protocol
  import opened Ledgers
  import opened Invariants
  import opened Registry
  import opened Erasure
  import opened Storage
  import opened Nodes
  import opened Placement
  import opened Reading

  // ---- One shard ----

  // The slots after shard `i` was rebuilt where it is placed.
  function Mended(e: Entry, pid: nat, i: nat, a: Acknowledgement): Entry {
    Acknowledged(e, pid, i, a).(status := Rebuilt)
  }

  ghost predicate MayRebuild(s: State, sender: Address, e: Entry, node: Node, i: nat, chunk: Chunk) {
    && Controls(s, sender, e) && (e.status.Active? || e.status.Rebuilt?) && i < e.terms.totalShards
    && NodeReady(s, node) && |chunk| > 0
  }

  // Since `s0` only the blob's slots have changed, and they are now `e`.
  ghost predicate At(s0: State, s: State, id: Hash, e: Entry) {
    Valid(s) && OnlyBlob(s0, s, id) && s.entries[id] == e
  }

  lemma AtStart(s: State, id: Hash)
    requires Valid(s) && id in s.entries
    ensures forall i :: i in s.entries[id].placement ==> s.entries[id].placement[i] > 0
    ensures At(s, s, id, s.entries[id])
  {
    hide Valid, Lockstep;
    ValidSlots(s, id);
    assert s.entries[id := s.entries[id]] == s.entries;
  }

  lemma AtIs(s0: State, s: State, id: Hash, e: Entry)
    requires At(s0, s, id, e)
    ensures Valid(s) && OnlyBlob(s0, s, id) && id in s.entries && s.entries[id] == e
    ensures s.providers == s0.providers && s.providerIdOf == s0.providerIdOf && s.coordinators == s0.coordinators && s.now == s0.now
  {
    hide Valid;
  }

  lemma AtAfter<T>(s0: State, s: State, s': State, id: Hash, e: Entry, allowed: bool, after: Entry, r: Result<T, Error>)
    requires At(s0, s, id, e) && Wrote(s, s', id, allowed, after, r)
    ensures At(s0, s', id, if allowed then after else e) && (r.Ok? <==> allowed)
  {
    hide Valid;
    WroteOnlyBlob(s, s', id, allowed, after, r);
    OnlyBlobTwice(s0, s, s', id);
  }

  // What a rebuild of shard `i` may do to the blob's slots, whether or not it
  // gets to the end: an acknowledgement of the right chunk, and the status.
  ghost predicate Touched(e: Entry, e': Entry, pid: nat, i: nat, chunk: Chunk) {
    && SameTerms(e, e') && e'.placement == e.placement
    && (forall k :: k != (pid, i) ==> (k in e'.acks <==> k in e.acks) && (k in e.acks ==> e'.acks[k] == e.acks[k]))
    && ((pid, i) in e.acks ==> (pid, i) in e'.acks)
    && ((pid, i) in e'.acks ==>
          AckMatches(e'.acks[(pid, i)], chunk) || ((pid, i) in e.acks && e'.acks[(pid, i)] == e.acks[(pid, i)]))
  }

  lemma MendedTouches(e: Entry, pid: nat, i: nat, chunk: Chunk, a: Acknowledgement)
    requires AckMatches(a, chunk)
    ensures Touched(e, e, pid, i, chunk) && Touched(e, Acknowledged(e, pid, i, a), pid, i, chunk)
    ensures Touched(e, Mended(e, pid, i, a), pid, i, chunk)
  {
  }

  lemma RecoveringTouches(e: Entry, e': Entry, pid: nat, i: nat, chunk: Chunk)
    requires Touched(e.(status := Recovering), e', pid, i, chunk)
    ensures Touched(e, e', pid, i, chunk)
  {
  }

  // From reassignment on.
  method FinishRebuild(
    registry: PrimeServerRegistry, sender: Address, id: Hash, i: uint8, chunk: Chunk, node: Node, ghost s0: State, ghost e: Entry
  ) returns (r: Result<(), Fault>)
    requires At(s0, registry.View(), id, e) && |chunk| < 0x1_0000_0000_0000_0000
    requires Controls(s0, sender, e) && e.status.Recovering? && i < e.terms.totalShards
    requires node.providerId > 0 && i in e.placement && e.placement[i] == node.providerId
    modifies registry, node.storage
    ensures Valid(registry.View()) && OnlyBlob(s0, registry.View(), id)
    ensures Touched(e, registry.View().entries[id], node.providerId, i, chunk)
    ensures node.storage.View() == old(node.storage.View())
         || node.storage.View() == Store(old(node.storage.View()), PutOf(id, i, chunk)).0
    ensures var stored := Store(old(node.storage.View()), PutOf(id, i, chunk));
            && (r.Ok? <==> NodeReady(s0, node) && |chunk| > 0 && stored.1.Ok?)
            && (r.Ok? ==> node.storage.View() == stored.0
                          && registry.View().entries[id]
                             == Mended(e, node.providerId, i, Acknowledgement(Sha256(chunk), |chunk|, Stamp(s0.now))))
  {
    hide Valid, At, Wrote, OnlyBlob, Touched;
    AtIs(s0, registry.View(), id, e);
    MendedTouches(e, node.providerId, i, chunk, Acknowledgement(Sha256(chunk), |chunk|, Stamp(s0.now)));
    ghost var s1 := registry.View();
    assert e.placement[i := node.providerId] == e.placement;
    var b := WriteReassign(registry, sender, id, i, node.providerId);
    AtAfter(s0, s1, registry.View(), id, e, IsActive(s0, node.providerId), e, b);
    AtIs(s0, registry.View(), id, e);
    if b.Err? {
      return Err(Reverted(b.error));
    }
    var upload := node.storage.PutShard(id, i, chunk, Some(Sha256(chunk)), Never);
    if upload.Err? {
      return Err(UploadRejected(upload.error));
    }
    ghost var s2 := registry.View();
    ghost var ack := Acknowledgement(Sha256(chunk), |chunk|, Stamp(s0.now));
    var k := WriteAcknowledge(registry, node.operator, id, i, upload.value.commitment, upload.value.size);
    ghost var acked := Acknowledged(e, node.providerId, i, ack);
    AtAfter(s0, s2, registry.View(), id, e, AcknowledgeAllowed(s2, e, node.operator, i, Sha256(chunk), |chunk|),
            if node.operator in s2.providerIdOf then Acknowledged(e, s2.providerIdOf[node.operator], i, ack) else e, k);
    AtIs(s0, registry.View(), id, if k.Ok? then acked else e);
    if k.Err? {
      return Err(Reverted(k.error));
    }
    ghost var s3 := registry.View();
    var d := WriteRecordRebuilt(registry, sender, id, i, node.providerId, upload.value.commitment);
    r := if d.Ok? then Ok(()) else Err(Reverted(d.error));
    AtAfter(s0, s3, registry.View(), id, acked, true, acked.(status := Rebuilt), d);
    AtIs(s0, registry.View(), id, acked.(status := Rebuilt));
  }

  method RebuildShard(registry: PrimeServerRegistry, sender: Address, id: Hash, i: uint8, chunk: Chunk, node: Node)
    returns (r: Result<(), Fault>)
    requires Valid(registry.View()) && id in registry.entries && |chunk| < 0x1_0000_0000_0000_0000
    requires i in registry.entries[id].placement && registry.entries[id].placement[i] == node.providerId
    modifies registry, node.storage
    ensures Valid(registry.View()) && OnlyBlob(old(registry.View()), registry.View(), id)
    ensures Touched(old(registry.View()).entries[id], registry.View().entries[id], node.providerId, i, chunk)
    ensures node.storage.View() == old(node.storage.View())
         || node.storage.View() == Store(old(node.storage.View()), PutOf(id, i, chunk)).0
    ensures var s, stored := old(registry.View()), Store(old(node.storage.View()), PutOf(id, i, chunk));
            var e := s.entries[id];
            && (r.Ok? <==> MayRebuild(s, sender, e, node, i, chunk) && stored.1.Ok?)
            && (r.Ok? ==> node.storage.View() == stored.0
                          && registry.View().entries[id]
                             == Mended(e, node.providerId, i, Acknowledgement(Sha256(chunk), |chunk|, Stamp(s.now))))
  {
    hide Valid, At, Wrote, OnlyBlob, Touched;
    ghost var s0, e0 := registry.View(), registry.entries[id];
    AtStart(s0, id);
    MendedTouches(e0, node.providerId, i, chunk, Acknowledgement(Sha256(chunk), |chunk|, Stamp(s0.now)));
    ghost var e := e0.(status := Recovering);
    var a := WriteStartRecovery(registry, sender, id, i);
    AtAfter(s0, s0, registry.View(), id, e0,
            Controls(s0, sender, e0) && (e0.status.Active? || e0.status.Rebuilt?) && i < e0.terms.totalShards && i in e0.placement, e, a);
    AtIs(s0, registry.View(), id, if a.Ok? then e else e0);
    if a.Err? {
      return Err(Reverted(a.error));
    }
    r := FinishRebuild(registry, sender, id, i, chunk, node, s0, e);
    OnlyBlobIs(s0, registry.View(), id);
    RecoveringTouches(e0, registry.entries[id], node.providerId, i, chunk);
  }

  // ---- The slots and the disks while the loop runs ----

  // The acknowledgement of a shard by the provider it is placed with.
  ghost predicate SameAck(e: Entry, e': Entry, i: nat) {
    && (Acked(e'.placement, e'.acks, i) <==> Acked(e.placement, e.acks, i))
    && (Acked(e.placement, e.acks, i) ==> e'.acks[(e'.placement[i], i)] == e.acks[(e.placement[i], i)])
  }

  // The first `j` missing shards are acknowledged afresh; nothing else moved.
  ghost predicate Mending(e0: Entry, e: Entry, missing: seq<nat>, chunks: seq<Chunk>, j: nat)
    requires j <= |missing|
  {
    && SameTerms(e0, e) && e.placement == e0.placement && e.status == (if j == 0 then e0.status else Rebuilt)
    && (forall i: nat :: i !in missing[..j] ==> SameAck(e0, e, i))
    && (forall l :: 0 <= l < j ==> AckedAs(e, chunks, missing[l]))
  }

  ghost predicate AckedAs(e: Entry, chunks: seq<Chunk>, i: nat) {
    i < |chunks| && Acked(e.placement, e.acks, i) && AckMatches(e.acks[(e.placement[i], i)], chunks[i])
  }

  predicate Distinct(missing: seq<nat>) {
    forall j, k :: 0 <= j < k < |missing| ==> missing[j] != missing[k]
  }

  lemma MendOne(e0: Entry, e: Entry, missing: seq<nat>, chunks: seq<Chunk>, j: nat, a: Acknowledgement)
    requires j < |missing| && missing[j] < |chunks| && missing[j] in e0.placement && Distinct(missing)
    requires Mending(e0, e, missing, chunks, j) && AckMatches(a, chunks[missing[j]])
    ensures Mending(e0, Mended(e, e0.placement[missing[j]], missing[j], a), missing, chunks, j + 1)
  {
    var i := missing[j];
    var e' := Mended(e, e0.placement[i], i, a);
    assert missing[..j + 1] == missing[..j] + [i];
    forall k: nat | k !in missing[..j + 1] ensures SameAck(e0, e', k) {
      assert SameAck(e0, e, k);
    }
    forall l | 0 <= l < j + 1 ensures AckedAs(e', chunks, missing[l]) {
      if l < j {
        assert AckedAs(e, chunks, missing[l]);
      }
    }
  }

  ghost predicate SameSlot(d: Disk, d': Disk, key: Key) {
    && (key in d'.metadata <==> key in d.metadata) && (key in d.metadata ==> d'.metadata[key] == d.metadata[key])
    && (key in d'.data <==> key in d.data) && (key in d.data ==> d'.data[key] == d.data[key])
  }

  // The put went through: either it wrote the shard, or it found it described.
  ghost predicate PutBack(d: Disk, d': Disk, key: Key, chunk: Chunk) {
    if key in d.metadata then d.metadata[key] == MetadataOf(chunk) && SameSlot(d, d', key) else StoredAs(d', key, chunk)
  }

  ghost predicate DisksMending(
    disks0: Shelves, disks: Shelves, e0: Entry, id: Hash, nodes: seq<Node>, missing: seq<nat>, chunks: seq<Chunk>, j: nat
  )
    requires j <= |missing|
  {
    && disks.Keys == disks0.Keys
    && (forall st, key: Key :: st in disks0 && !(key.0 == id && key.1 in missing[..j]) ==> SameSlot(disks0[st], disks[st], key))
    && (forall l :: 0 <= l < j ==> Returned(disks0, disks, e0, id, nodes, missing[l], chunks))
  }

  ghost predicate Returned(disks0: Shelves, disks: Shelves, e0: Entry, id: Hash, nodes: seq<Node>, i: nat, chunks: seq<Chunk>) {
    && i in e0.placement && i < |chunks| && FindNode(nodes, e0.placement[i]).Some?
    && var st := FindNode(nodes, e0.placement[i]).value.storage;
       st in disks0 && st in disks && PutBack(disks0[st], disks[st], (id, i), chunks[i])
  }

  // At the next missing shard the directory is still as it was, so the put
  // goes through unless something else is described there.
  lemma PutDecides(d0: Disk, d: Disk, id: Hash, i: nat, chunk: Chunk)
    requires SameSlot(d0, d, (id, i))
    ensures var (d', r) := Store(d, PutOf(id, i, chunk));
            && (r.Ok? <==> ((id, i) in d0.metadata ==> d0.metadata[(id, i)] == MetadataOf(chunk)))
            && (r.Ok? ==> PutBack(d0, d', (id, i), chunk))
            && (forall key: Key :: key != (id, i) ==> SameSlot(d, d', key))
  {
  }

  lemma ReturnOne(
    disks0: Shelves, disks: Shelves, e0: Entry, id: Hash, nodes: seq<Node>, missing: seq<nat>, chunks: seq<Chunk>, j: nat, node: Node
  )
    requires j < |missing| && missing[j] < |chunks| && missing[j] in e0.placement && Distinct(missing)
    requires FindNode(nodes, e0.placement[missing[j]]) == Some(node) && node.storage in disks
    requires DisksMending(disks0, disks, e0, id, nodes, missing, chunks, j)
    ensures var i := missing[j];
            var stored := Store(disks[node.storage], PutOf(id, i, chunks[i]));
            && (stored.1.Ok? <==> var d := disks0[node.storage];
                                  (id, i) in d.metadata ==> d.metadata[(id, i)] == MetadataOf(chunks[i]))
            && (stored.1.Ok? ==> DisksMending(disks0, disks[node.storage := stored.0], e0, id, nodes, missing, chunks, j + 1))
  {
    hide Store, SameSlot, PutBack, FindNode, MetadataOf;
    var i := missing[j];
    var stored := Store(disks[node.storage], PutOf(id, i, chunks[i]));
    var disks' := disks[node.storage := stored.0];
    assert missing[..j + 1] == missing[..j] + [i];
    assert i !in missing[..j];
    PutDecides(disks0[node.storage], disks[node.storage], id, i, chunks[i]);
    if stored.1.Ok? {
      forall st, key: Key | st in disks0 && !(key.0 == id && key.1 in missing[..j + 1])
        ensures SameSlot(disks0[st], disks'[st], key)
      {
        SameSlotTwice(disks0[st], disks[st], disks'[st], key);
      }
      forall l | 0 <= l < j + 1 ensures Returned(disks0, disks', e0, id, nodes, missing[l], chunks) {
        if l < j {
          ReturnedStays(disks0, disks, disks', e0, id, nodes, missing[l], i, chunks, node);
        }
      }
    }
  }

  lemma SameSlotTwice(a: Disk, b: Disk, c: Disk, key: Key)
    ensures SameSlot(a, b, key) && (b == c || SameSlot(b, c, key)) ==> SameSlot(a, c, key)
  {
  }

  // A put of shard `i` leaves the other shards that were put back.
  lemma ReturnedStays(
    disks0: Shelves, disks: Shelves, disks': Shelves, e0: Entry, id: Hash, nodes: seq<Node>, other: nat, i: nat,
    chunks: seq<Chunk>, node: Node
  )
    requires Returned(disks0, disks, e0, id, nodes, other, chunks) && other != i && node.storage in disks
    requires node.storage in disks' && disks' == disks[node.storage := disks'[node.storage]]
    requires forall key: Key :: key != (id, i) ==> SameSlot(disks[node.storage], disks'[node.storage], key)
    ensures Returned(disks0, disks', e0, id, nodes, other, chunks)
  {
    hide FindNode;
    var st := FindNode(nodes, e0.placement[other]).value.storage;
    assert st == node.storage ==> SameSlot(disks[st], disks'[st], (id, other));
  }

  // ---- The loop ----

  // The writes for shard `i` all go through, once recovery may start.
  ghost predicate Acceptable(s: State, e: Entry, id: Hash, nodes: seq<Node>, disks: Shelves, chunks: seq<Chunk>, i: nat) {
    && i < |chunks| && 0 < |chunks[i]| < 0x1_0000_0000_0000_0000 && i in e.placement
    && FindNode(nodes, e.placement[i]).Some?
    && var node := FindNode(nodes, e.placement[i]).value;
       && NodeReady(s, node) && node.storage in disks
       && ((id, i) in disks[node.storage].metadata ==> disks[node.storage].metadata[(id, i)] == MetadataOf(chunks[i]))
  }

  ghost predicate Startable(s: State, sender: Address, e: Entry) {
    Controls(s, sender, e) && (e.status.Active? || e.status.Rebuilt?)
  }

  ghost predicate RebuildTurn(
    s0: State, s: State, sender: Address, id: Hash, nodes: seq<Node>, missing: seq<nat>, chunks: seq<Chunk>,
    disks0: Shelves, disks: Shelves, j: nat
  )
    requires id in s0.entries
  {
    var e0 := s0.entries[id];
    && j <= |missing| && Valid(s) && OnlyBlob(s0, s, id)
    && Mending(e0, s.entries[id], missing, chunks, j)
    && DisksMending(disks0, disks, e0, id, nodes, missing, chunks, j)
    && (forall l :: 0 <= l < j ==> Acceptable(s0, e0, id, nodes, disks0, chunks, missing[l]))
    && (j > 0 ==> Startable(s0, sender, e0))
  }

  // At any point of the loop: the shards that were not missing are acknowledged
  // and stored as they were, and a missing one is acknowledged as it was or as
  // the chunk it should be.
  ghost predicate Spared(
    e0: Entry, e: Entry, id: Hash, missing: seq<nat>, chunks: seq<Chunk>, disks0: Shelves, disks: Shelves
  ) {
    && SameTerms(e0, e) && e.placement == e0.placement
    && (forall i: nat :: i !in missing ==> SameAck(e0, e, i))
    && (forall i: nat :: i in missing ==> SameAck(e0, e, i) || AckedAs(e, chunks, i))
    && disks.Keys == disks0.Keys
    && (forall st, key: Key :: st in disks0 && !(key.0 == id && key.1 in missing) ==> SameSlot(disks0[st], disks[st], key))
  }

  lemma TurnSpares(
    e0: Entry, e: Entry, id: Hash, nodes: seq<Node>, missing: seq<nat>, chunks: seq<Chunk>, disks0: Shelves, disks: Shelves, j: nat
  )
    requires j <= |missing| && Mending(e0, e, missing, chunks, j) && DisksMending(disks0, disks, e0, id, nodes, missing, chunks, j)
    ensures Spared(e0, e, id, missing, chunks, disks0, disks)
  {
    hide SameTerms, SameAck, AckedAs, SameSlot, Returned;
    assert forall i :: i in missing[..j] ==> i in missing;
    forall i: nat | i in missing ensures SameAck(e0, e, i) || AckedAs(e, chunks, i) {
      if i in missing[..j] {
        var l :| 0 <= l < j && missing[l] == i;
      }
    }
  }

  lemma TouchSpares(
    e0: Entry, e: Entry, e': Entry, id: Hash, nodes: seq<Node>, missing: seq<nat>, chunks: seq<Chunk>, disks0: Shelves,
    disks: Shelves, disks': Shelves, j: nat, node: Node
  )
    requires j < |missing| && missing[j] < |chunks| && missing[j] in e0.placement && e0.placement[missing[j]] == node.providerId
    requires Mending(e0, e, missing, chunks, j) && DisksMending(disks0, disks, e0, id, nodes, missing, chunks, j)
    requires Touched(e, e', node.providerId, missing[j], chunks[missing[j]]) && node.storage in disks
    requires disks' == disks
          || disks' == disks[node.storage := Store(disks[node.storage], PutOf(id, missing[j], chunks[missing[j]])).0]
    ensures Spared(e0, e', id, missing, chunks, disks0, disks')
  {
    var i, pid := missing[j], node.providerId;
    TurnSpares(e0, e, id, nodes, missing, chunks, disks0, disks, j);
    TouchedAcks(e0, e, e', missing, chunks, pid, i);
    PutDecides(disks[node.storage], disks[node.storage], id, i, chunks[i]);
    hide Mending, DisksMending, Touched, Store, SameAck, AckedAs, SameTerms;
    forall st, key: Key | st in disks0 && !(key.0 == id && key.1 in missing) ensures SameSlot(disks0[st], disks'[st], key) {
      SameSlotTwice(disks0[st], disks[st], disks'[st], key);
    }
  }

  lemma TouchedAcks(e0: Entry, e: Entry, e': Entry, missing: seq<nat>, chunks: seq<Chunk>, pid: nat, i: nat)
    requires i in missing && i < |chunks| && i in e0.placement && e0.placement[i] == pid && e.placement == e0.placement
    requires Touched(e, e', pid, i, chunks[i]) && SameTerms(e0, e)
    requires forall k: nat :: k !in missing ==> SameAck(e0, e, k)
    requires forall k: nat :: k in missing ==> SameAck(e0, e, k) || AckedAs(e, chunks, k)
    ensures SameTerms(e0, e') && e'.placement == e0.placement
    ensures forall k: nat :: k !in missing ==> SameAck(e0, e', k)
    ensures forall k: nat :: k in missing ==> SameAck(e0, e', k) || AckedAs(e', chunks, k)
  {
    forall k: nat | k != i ensures SameAck(e0, e, k) ==> SameAck(e0, e', k)
      ensures AckedAs(e, chunks, k) ==> AckedAs(e', chunks, k)
    {
      assert e.placement == e'.placement;
    }
    forall k: nat | k in missing ensures SameAck(e0, e', k) || AckedAs(e', chunks, k) {
      if k == i && SameAck(e0, e, i) && Acked(e'.placement, e'.acks, i) {
        assert AckMatches(e'.acks[(pid, i)], chunks[i]) || e'.acks[(pid, i)] == e.acks[(pid, i)];
      }
    }
  }

  lemma FirstRebuild(
    s: State, sender: Address, id: Hash, nodes: seq<Node>, missing: seq<nat>, chunks: seq<Chunk>, disks: Shelves
  )
    requires Valid(s) && id in s.entries
    ensures RebuildTurn(s, s, sender, id, nodes, missing, chunks, disks, disks, 0)
  {
    hide Valid;
    assert s.entries[id := s.entries[id]] == s.entries;
  }

  lemma RebuildTurnIs(
    s0: State, s: State, sender: Address, id: Hash, nodes: seq<Node>, missing: seq<nat>, chunks: seq<Chunk>,
    disks0: Shelves, disks: Shelves, j: nat
  )
    requires id in s0.entries && RebuildTurn(s0, s, sender, id, nodes, missing, chunks, disks0, disks, j)
    ensures id in s.entries && s.entries[id].placement == s0.entries[id].placement
    ensures Valid(s) && OnlyBlob(s0, s, id) && disks.Keys == disks0.Keys && j <= |missing|
    ensures Mending(s0.entries[id], s.entries[id], missing, chunks, j)
    ensures DisksMending(disks0, disks, s0.entries[id], id, nodes, missing, chunks, j)
    ensures s.now == s0.now && s.providers == s0.providers && s.providerIdOf == s0.providerIdOf
  {
    hide Valid, SameAck, AckedAs, Acceptable, SameSlot, Returned;
  }

  // Being rebuilt has not changed who may rebuild.
  lemma RebuildTurnMay(
    s0: State, s: State, sender: Address, id: Hash, nodes: seq<Node>, missing: seq<nat>, chunks: seq<Chunk>,
    disks0: Shelves, disks: Shelves, j: nat, node: Node, i: nat, chunk: Chunk
  )
    requires id in s0.entries && RebuildTurn(s0, s, sender, id, nodes, missing, chunks, disks0, disks, j) && id in s.entries
    ensures MayRebuild(s, sender, s.entries[id], node, i, chunk)
       <==> Startable(s0, sender, s0.entries[id]) && NodeReady(s0, node) && i < s0.entries[id].terms.totalShards && |chunk| > 0
  {
    hide Valid, SameAck, AckedAs, Acceptable, SameSlot, Returned;
  }

  // One shard further, or the reason why not.
  lemma RebuildDecides(
    s0: State, s: State, sender: Address, id: Hash, nodes: seq<Node>, missing: seq<nat>, chunks: seq<Chunk>,
    disks0: Shelves, disks: Shelves, j: nat, node: Node
  )
    requires id in s0.entries && RebuildTurn(s0, s, sender, id, nodes, missing, chunks, disks0, disks, j) && id in s.entries
    requires j < |missing| && Distinct(missing) && missing[j] < |chunks| && |chunks[missing[j]]| < 0x1_0000_0000_0000_0000
    requires var e0 := s0.entries[id];
             missing[j] < e0.terms.totalShards && missing[j] in e0.placement && FindNode(nodes, e0.placement[missing[j]]) == Some(node)
    requires node.storage in disks
    ensures var i := missing[j];
            MayRebuild(s, sender, s.entries[id], node, i, chunks[i]) && Store(disks[node.storage], PutOf(id, i, chunks[i])).1.Ok?
            <==> Startable(s0, sender, s0.entries[id]) && Acceptable(s0, s0.entries[id], id, nodes, disks0, chunks, i)
  {
    RebuildTurnIs(s0, s, sender, id, nodes, missing, chunks, disks0, disks, j);
    RebuildTurnMay(s0, s, sender, id, nodes, missing, chunks, disks0, disks, j, node, missing[j], chunks[missing[j]]);
    hide RebuildTurn, Valid, Mending, DisksMending, Store, MayRebuild, Startable, NodeReady, OnlyBlob, FindNode, Distinct;
    ReturnOne(disks0, disks, s0.entries[id], id, nodes, missing, chunks, j, node);
  }

  lemma RebuildTurnPasses(
    s0: State, s: State, s': State, sender: Address, id: Hash, nodes: seq<Node>, missing: seq<nat>, chunks: seq<Chunk>,
    disks0: Shelves, disks: Shelves, disks': Shelves, j: nat
  )
    requires id in s0.entries && id in s'.entries
    requires RebuildTurn(s0, s, sender, id, nodes, missing, chunks, disks0, disks, j) && j < |missing|
    requires Valid(s') && OnlyBlob(s, s', id)
    requires Startable(s0, sender, s0.entries[id]) && Acceptable(s0, s0.entries[id], id, nodes, disks0, chunks, missing[j])
    requires Mending(s0.entries[id], s'.entries[id], missing, chunks, j + 1)
    requires DisksMending(disks0, disks', s0.entries[id], id, nodes, missing, chunks, j + 1)
    ensures RebuildTurn(s0, s', sender, id, nodes, missing, chunks, disks0, disks', j + 1)
  {
    hide Valid, Mending, DisksMending, Startable, OnlyBlob, Acceptable;
    OnlyBlobTwice(s0, s, s', id);
  }

  // The slots and the disks after one more shard.
  lemma OneMoreMended(
    s0: State, s: State, e': Entry, sender: Address, id: Hash, nodes: seq<Node>, missing: seq<nat>, chunks: seq<Chunk>,
    disks0: Shelves, disks: Shelves, j: nat, node: Node, a: Acknowledgement
  )
    requires id in s0.entries && id in s.entries
    requires RebuildTurn(s0, s, sender, id, nodes, missing, chunks, disks0, disks, j)
    requires j < |missing| && Distinct(missing) && missing[j] < |chunks| && AckMatches(a, chunks[missing[j]])
    requires var e0 := s0.entries[id];
             missing[j] in e0.placement && FindNode(nodes, e0.placement[missing[j]]) == Some(node) && node.storage in disks
    requires e' == Mended(s.entries[id], node.providerId, missing[j], a)
    requires Store(disks[node.storage], PutOf(id, missing[j], chunks[missing[j]])).1.Ok?
    ensures var i := missing[j];
            && Mending(s0.entries[id], e', missing, chunks, j + 1)
            && DisksMending(disks0, disks[node.storage := Store(disks[node.storage], PutOf(id, i, chunks[i])).0],
                            s0.entries[id], id, nodes, missing, chunks, j + 1)
  {
    RebuildTurnIs(s0, s, sender, id, nodes, missing, chunks, disks0, disks, j);
    hide RebuildTurn, Valid, Mending, DisksMending, Store, OnlyBlob, FindNode, Mended, Distinct, AckMatches;
    ReturnOne(disks0, disks, s0.entries[id], id, nodes, missing, chunks, j, node);
    MendOne(s0.entries[id], s.entries[id], missing, chunks, j, a);
  }

  datatype RebuiltShard = RebuiltShard(shard: nat, providerId: nat, commitment: Hash)

  // One turn of the loop over the missing shards.
  method RebuildNext(
    registry: PrimeServerRegistry, sender: Address, id: Hash, ghost s0: State, e0: Entry, nodes: seq<Node>,
    missing: seq<nat>, chunks: seq<Chunk>, ghost disks0: Shelves, j: nat
  ) returns (r: Result<RebuiltShard, Fault>)
    requires id in s0.entries && e0 == s0.entries[id] && j < |missing| && Distinct(missing)
    requires missing[j] < e0.terms.totalShards
    requires RebuildTurn(s0, registry.View(), sender, id, nodes, missing, chunks, disks0, Views(nodes), j)
    modifies registry, Disks(nodes)
    ensures Valid(registry.View()) && OnlyBlob(s0, registry.View(), id)
    ensures r.Ok? <==> Startable(s0, sender, e0) && Acceptable(s0, e0, id, nodes, disks0, chunks, missing[j])
    ensures Spared(e0, registry.View().entries[id], id, missing, chunks, disks0, Views(nodes))
    ensures r.Ok? ==>
              && RebuildTurn(s0, registry.View(), sender, id, nodes, missing, chunks, disks0, Views(nodes), j + 1)
              && missing[j] < |chunks| && missing[j] in e0.placement
              && r.value == RebuiltShard(missing[j], e0.placement[missing[j]], Sha256(chunks[missing[j]]))
  {
    hide RebuildTurn, Valid, Startable, Distinct, Store, OnlyBlob, Mended, MayRebuild, Mending, DisksMending, NodeReady, Touched, Spared;
    ghost var s, disks := registry.View(), Views(nodes);
    RebuildTurnIs(s0, s, sender, id, nodes, missing, chunks, disks0, disks, j);
    TurnSpares(e0, s.entries[id], id, nodes, missing, chunks, disks0, disks, j);
    var i := missing[j];
    var provider := if i in e0.placement then FindNode(nodes, e0.placement[i]) else None;
    if provider.None? {
      return Err(ProviderRequired(if i in e0.placement then e0.placement[i] else 0));
    }
    var node := provider.value;
    NodeDisk(nodes, node);
    if i >= |chunks| || |chunks[i]| >= 0x1_0000_0000_0000_0000 {
      return Err(ShardUnrecovered(i));
    }
    RebuildDecides(s0, s, sender, id, nodes, missing, chunks, disks0, disks, j, node);
    var rebuilt := RebuildShard(registry, sender, id, i, chunks[i], node);
    OnlyBlobTwice(s0, s, registry.View(), id);
    OnlyBlobIs(s0, registry.View(), id);
    assert Views(nodes) == disks[node.storage := node.storage.View()];
    assert disks[node.storage := disks[node.storage]] == disks;
    TouchSpares(e0, s.entries[id], registry.View().entries[id], id, nodes, missing, chunks, disks0, disks, Views(nodes), j, node);
    if rebuilt.Err? {
      return Err(rebuilt.error);
    }
    OnlyBlobIs(s, registry.View(), id);
    OneMoreMended(s0, s, registry.View().entries[id], sender, id, nodes, missing, chunks, disks0, disks, j, node,
                  Acknowledgement(Sha256(chunks[i]), |chunks[i]|, Stamp(s.now)));
    RebuildTurnPasses(s0, s, registry.View(), sender, id, nodes, missing, chunks, disks0, disks, Views(nodes), j);
    r := Ok(RebuiltShard(i, node.providerId, Sha256(chunks[i])));
  }

  // ---- What the read says before and after ----

  lemma {:induction false} MissingRange(verified: seq<Option<Chunk>>)
    ensures Distinct(Missing(verified))
    ensures forall i :: i in Missing(verified) <==> 0 <= i < |verified| && verified[i].None?
  {
    if verified != [] {
      var front := verified[..|verified| - 1];
      MissingRange(front);
      forall j | 0 <= j < |Missing(front)| ensures Missing(front)[j] < |front| {
        assert Missing(front)[j] in Missing(front);
      }
    }
  }

  // Nothing healthy was lost, so what matters is what was missing.
  lemma OnlyMissingMatter(before: seq<Option<Chunk>>, after: seq<Option<Chunk>>)
    requires |before| == |after| && forall i: nat :: i < |after| && i !in Missing(before) ==> after[i] == before[i]
    ensures |Healthy(before)| <= |Healthy(after)|
    ensures forall i :: i in Missing(before) ==> 0 <= i < |after|
    ensures Missing(after) == [] <==> forall i :: i in Missing(before) ==> after[i].Some?
  {
    hide Missing;
    MissingRange(before);
    MissingRange(after);
    forall i | i in Healthy(before) ensures i in Healthy(after) {
      assert i !in Missing(before);
    }
    SubsetSize(Healthy(before), Healthy(after));
    if Missing(after) != [] {
      var i := Missing(after)[0];
      assert i in Missing(after) && after[i].None?;
      assert i in Missing(before);
    }
    if i :| i in Missing(before) && after[i].None? {
      assert i in Missing(after);
    }
  }

  // A missing shard that a rebuild would bring back: its provider is there, and
  // its directory is free for it or still holds it.
  ghost predicate Restorable(s: State, e: Entry, id: Hash, nodes: seq<Node>, disks: Shelves, chunks: seq<Chunk>, i: nat) {
    && Acceptable(s, e, id, nodes, disks, chunks, i)
    && var d := disks[FindNode(nodes, e.placement[i]).value.storage];
       (id, i) in d.metadata ==> Served(d, (id, i)) == Some(chunks[i])
  }

  // A shard that was not missing is read as before.
  lemma OthersRead(
    disks0: Shelves, disks: Shelves, e0: Entry, e: Entry, id: Hash, nodes: seq<Node>, missing: seq<nat>, chunks: seq<Chunk>, i: nat
  )
    requires Mending(e0, e, missing, chunks, |missing|) && DisksMending(disks0, disks, e0, id, nodes, missing, chunks, |missing|)
    requires i !in missing
    ensures VerifiedShard(e, id, nodes, disks, i) == VerifiedShard(e0, id, nodes, disks0, i)
  {
    assert missing[..|missing|] == missing;
    assert SameAck(e0, e, i);
    hide Mending, FindNode, Returned;
    if Acked(e0.placement, e0.acks, i) && FindNode(nodes, e0.placement[i]).Some? {
      var st := FindNode(nodes, e0.placement[i]).value.storage;
      if st in disks0 {
        assert SameSlot(disks0[st], disks[st], (id, i));
      }
    }
  }

  // The put wrote the shard, or what was there already is served intact.
  ghost predicate ReturnedServed(disks0: Shelves, disks: Shelves, e0: Entry, id: Hash, nodes: seq<Node>, i: nat, chunks: seq<Chunk>) {
    && Returned(disks0, disks, e0, id, nodes, i, chunks)
    && var d := disks0[FindNode(nodes, e0.placement[i]).value.storage];
       (id, i) in d.metadata ==> Served(d, (id, i)) == Some(chunks[i])
  }

  // A rebuilt shard passes verification exactly when the put wrote it or what
  // was there is served intact.
  lemma RebuiltRead(
    disks0: Shelves, disks: Shelves, e0: Entry, e: Entry, id: Hash, nodes: seq<Node>, missing: seq<nat>, chunks: seq<Chunk>, i: nat
  )
    requires Mending(e0, e, missing, chunks, |missing|) && DisksMending(disks0, disks, e0, id, nodes, missing, chunks, |missing|)
    requires i in missing
    ensures Returned(disks0, disks, e0, id, nodes, i, chunks)
    ensures VerifiedShard(e, id, nodes, disks, i).Some? <==> ReturnedServed(disks0, disks, e0, id, nodes, i, chunks)
  {
    var l :| 0 <= l < |missing| && missing[l] == i;
    assert Returned(disks0, disks, e0, id, nodes, missing[l], chunks) && AckedAs(e, chunks, missing[l]);
    hide Mending, DisksMending, FindNode;
    var st := FindNode(nodes, e0.placement[i]).value.storage;
    var a := e.acks[(e.placement[i], i)];
    var now := Served(disks[st], (id, i));
    assert Verify(now, a).Some? <==> now == Some(chunks[i]) by {
      if Verify(now, a).Some? {
        assert Sha256(now.value) == Sha256(chunks[i]);
      }
    }
  }

  // The blob still encodes the input once its missing shards are acknowledged afresh.
  lemma StillEncoded(e0: Entry, e: Entry, c: Codec, input: seq<Symbol>, missing: seq<nat>)
    requires EncodedAs(e0, c, input) && Mending(e0, e, missing, Encode(c, input).value.chunks, |missing|)
    ensures EncodedAs(e, c, input)
  {
    var chunks := Encode(c, input).value.chunks;
    assert missing[..|missing|] == missing;
    forall i | 0 <= i < c.config.n && Acked(e.placement, e.acks, i)
      ensures AckMatches(e.acks[(e.placement[i], i)], chunks[i])
    {
      if i in missing {
        var l :| 0 <= l < |missing| && missing[l] == i;
        assert AckedAs(e, chunks, missing[l]);
      } else {
        assert SameAck(e0, e, i);
      }
    }
  }

  // The read after the loop finds nothing missing exactly when every shard
  // that was missing could be brought back.
  lemma ReadAfterRebuild(
    disks0: Shelves, disks: Shelves, e0: Entry, e: Entry, c: Codec, input: seq<Symbol>, id: Hash, nodes: seq<Node>
  )
    requires Lawful(c) && EncodedAs(e0, c, input)
    requires |Healthy(VerifiedShards(e0, id, nodes, disks0))| >= c.config.k
    requires var missing, chunks := Missing(VerifiedShards(e0, id, nodes, disks0)), Encode(c, input).value.chunks;
             && Mending(e0, e, missing, chunks, |missing|) && DisksMending(disks0, disks, e0, id, nodes, missing, chunks, |missing|)
    ensures EncodedAs(e, c, input) && ReadOutcome(c, e, id, nodes, disks).Ok?
    ensures ReadOutcome(c, e, id, nodes, disks).value.bytes == input
    ensures var missing, chunks := Missing(VerifiedShards(e0, id, nodes, disks0)), Encode(c, input).value.chunks;
            ReadOutcome(c, e, id, nodes, disks).value.missing == []
            <==> forall i :: i in missing ==> ReturnedServed(disks0, disks, e0, id, nodes, i, chunks)
  {
    var before, after := VerifiedShards(e0, id, nodes, disks0), VerifiedShards(e, id, nodes, disks);
    var missing, chunks := Missing(before), Encode(c, input).value.chunks;
    StillEncoded(e0, e, c, input, missing);
    assert |before| == |after|;
    hide Lawful, EncodedAs, Mending, DisksMending, VerifiedShard, FindNode, Served, ReadOutcome, Missing, Encode, ReturnedServed, Healthy;
    forall i: nat | i < |after| && i !in missing ensures after[i] == before[i] {
      OthersRead(disks0, disks, e0, e, id, nodes, missing, chunks, i);
    }
    OnlyMissingMatter(before, after);
    forall i | i in missing
      ensures ReturnedServed(disks0, disks, e0, id, nodes, i, chunks) <==> after[i].Some?
    {
      RebuiltRead(disks0, disks, e0, e, id, nodes, missing, chunks, i);
    }
    ReadsBack(e, c, input, id, nodes, disks);
  }

  // ---- The rebuild ----

  datatype Report = Report(rebuilt: seq<RebuiltShard>, contentHash: Hash)

  ghost predicate RebuiltEach(rebuilt: seq<RebuiltShard>, missing: seq<nat>, placement: map<nat, nat>, chunks: seq<Chunk>) {
    && |rebuilt| <= |missing|
    && forall j :: 0 <= j < |rebuilt| ==>
         missing[j] in placement && missing[j] < |chunks|
         && rebuilt[j] == RebuiltShard(missing[j], placement[missing[j]], Sha256(chunks[missing[j]]))
  }

  // Enough shards are healthy to read, and the others can all be brought back.
  ghost predicate Rebuildable(
    s: State, sender: Address, k: nat, chunks: seq<Chunk>, id: Hash, nodes: seq<Node>, disks: Shelves
  )
    requires id in s.entries
  {
    var e := s.entries[id];
    var verified := VerifiedShards(e, id, nodes, disks);
    && |Healthy(verified)| >= k
    && (Missing(verified) == [] ||
        (&& Startable(s, sender, e)
         && forall i :: i in Missing(verified) ==> Restorable(s, e, id, nodes, disks, chunks, i)))
  }

  // The same deal, payment and placement; nothing missing; the input as before.
  ghost predicate Healed(
    e0: Entry, e: Entry, c: Codec, input: seq<Symbol>, id: Hash, nodes: seq<Node>, missing: seq<nat>, disks: Shelves
  ) {
    && SameTerms(e0, e) && e.placement == e0.placement && e.status == (if missing == [] then e0.status else Rebuilt)
    && EncodedAs(e, c, input)
    && var content := ReadOutcome(c, e, id, nodes, disks);
       content.Ok? && content.value.missing == [] && content.value.bytes == input
  }

  // Exactly when a rebuild of an encoded blob goes through, and what it leaves.
  ghost predicate RebuildSpec(
    s0: State, s: State, sender: Address, c: Codec, input: seq<Symbol>, id: Hash, nodes: seq<Node>,
    disks0: Shelves, disks: Shelves, r: Result<Report, Fault>
  )
    requires id in s0.entries && id in s.entries && |input| <= c.config.k * c.config.chunkSize
  {
    var e0, chunks := s0.entries[id], Encode(c, input).value.chunks;
    var missing := Missing(VerifiedShards(e0, id, nodes, disks0));
    && (r.Ok? <==> Rebuildable(s0, sender, c.config.k, chunks, id, nodes, disks0))
    && (r.Ok? ==>
          && r.value.contentHash == Sha256(input) && |r.value.rebuilt| == |missing|
          && RebuiltEach(r.value.rebuilt, missing, e0.placement, chunks)
          && Healed(e0, s.entries[id], c, input, id, nodes, missing, disks))
  }

  // However a rebuild of an encoded blob ends, it stays encoded, no shard that
  // could be read is lost, and what could be read back still can.
  ghost predicate Unharmed(
    e0: Entry, e: Entry, c: Codec, input: seq<Symbol>, id: Hash, nodes: seq<Node>, disks0: Shelves, disks: Shelves
  ) {
    && SameTerms(e0, e) && e.placement == e0.placement && EncodedAs(e, c, input)
    && Healthy(VerifiedShards(e0, id, nodes, disks0)) <= Healthy(VerifiedShards(e, id, nodes, disks))
    && (ReadOutcome(c, e0, id, nodes, disks0).Ok? ==>
          var content := ReadOutcome(c, e, id, nodes, disks); content.Ok? && content.value.bytes == input)
  }

  lemma SparedIsUnharmed(
    e0: Entry, e: Entry, c: Codec, input: seq<Symbol>, id: Hash, nodes: seq<Node>, missing: seq<nat>, chunks: seq<Chunk>,
    disks0: Shelves, disks: Shelves
  )
    requires Lawful(c) && EncodedAs(e0, c, input) && chunks == Encode(c, input).value.chunks
    requires missing == Missing(VerifiedShards(e0, id, nodes, disks0)) && Spared(e0, e, id, missing, chunks, disks0, disks)
    ensures Unharmed(e0, e, c, input, id, nodes, disks0, disks)
  {
    var before, after := VerifiedShards(e0, id, nodes, disks0), VerifiedShards(e, id, nodes, disks);
    SparedEncoded(e0, e, c, input, id, missing, disks0, disks);
    assert |before| == |after|;
    hide Lawful, EncodedAs, Spared, VerifiedShard, ReadOutcome, Missing, Encode, Healthy;
    forall i: nat | i < |after| && i !in missing ensures after[i] == before[i] {
      SparedRead(e0, e, id, nodes, missing, chunks, disks0, disks, i);
    }
    HealthyStays(before, after);
    OnlyMissingMatter(before, after);
    ReadsBack(e0, c, input, id, nodes, disks0);
    ReadsBack(e, c, input, id, nodes, disks);
    SparedTerms(e0, e, id, missing, chunks, disks0, disks);
  }

  lemma UntouchedIsUnharmed(e: Entry, c: Codec, input: seq<Symbol>, id: Hash, nodes: seq<Node>, disks: Shelves)
    requires Lawful(c) && EncodedAs(e, c, input)
    ensures Unharmed(e, e, c, input, id, nodes, disks, disks)
  {
    hide Lawful, EncodedAs, ReadOutcome, VerifiedShards, Healthy;
    ReadsBack(e, c, input, id, nodes, disks);
  }

  // The loop works on what the first read recovered.
  lemma LoopUnharmed(
    e0: Entry, e: Entry, c: Codec, input: seq<Symbol>, id: Hash, nodes: seq<Node>, missing: seq<nat>, chunks: seq<Chunk>,
    disks0: Shelves, disks: Shelves
  )
    requires Lawful(c) && EncodedAs(e0, c, input) && Spared(e0, e, id, missing, chunks, disks0, disks)
    requires var content := ReadOutcome(c, e0, id, nodes, disks0);
             content.Ok? && content.value.missing == missing != [] && content.value.chunks == chunks
    ensures Unharmed(e0, e, c, input, id, nodes, disks0, disks)
  {
    hide Lawful, EncodedAs, ReadOutcome, VerifiedShards, Healthy, Unharmed, Spared, Missing, Encode;
    ReadsBack(e0, c, input, id, nodes, disks0);
    SparedIsUnharmed(e0, e, c, input, id, nodes, missing, chunks, disks0, disks);
  }

  lemma SparedTerms(e0: Entry, e: Entry, id: Hash, missing: seq<nat>, chunks: seq<Chunk>, disks0: Shelves, disks: Shelves)
    requires Spared(e0, e, id, missing, chunks, disks0, disks)
    ensures SameTerms(e0, e) && e.placement == e0.placement
  {
    hide SameTerms, SameAck, AckedAs, SameSlot;
  }

  lemma HealthyStays(before: seq<Option<Chunk>>, after: seq<Option<Chunk>>)
    requires |before| == |after| && forall i: nat :: i < |after| && i !in Missing(before) ==> after[i] == before[i]
    ensures Healthy(before) <= Healthy(after)
  {
    hide Missing;
    MissingRange(before);
    forall i | i in Healthy(before) ensures i in Healthy(after) {
      assert i !in Missing(before);
    }
  }

  lemma SparedRead(
    e0: Entry, e: Entry, id: Hash, nodes: seq<Node>, missing: seq<nat>, chunks: seq<Chunk>, disks0: Shelves, disks: Shelves, i: nat
  )
    requires Spared(e0, e, id, missing, chunks, disks0, disks) && i !in missing
    ensures VerifiedShard(e, id, nodes, disks, i) == VerifiedShard(e0, id, nodes, disks0, i)
  {
    assert SameAck(e0, e, i);
    hide FindNode;
    if Acked(e0.placement, e0.acks, i) && FindNode(nodes, e0.placement[i]).Some? {
      var st := FindNode(nodes, e0.placement[i]).value.storage;
      if st in disks0 {
        assert SameSlot(disks0[st], disks[st], (id, i));
      }
    }
  }

  lemma SparedEncoded(
    e0: Entry, e: Entry, c: Codec, input: seq<Symbol>, id: Hash, missing: seq<nat>, disks0: Shelves, disks: Shelves
  )
    requires EncodedAs(e0, c, input) && Spared(e0, e, id, missing, Encode(c, input).value.chunks, disks0, disks)
    ensures EncodedAs(e, c, input)
  {
    var chunks := Encode(c, input).value.chunks;
    hide Encode;
    forall i | 0 <= i < c.config.n && Acked(e.placement, e.acks, i)
      ensures AckMatches(e.acks[(e.placement[i], i)], chunks[i])
    {
      assert SameAck(e0, e, i) || AckedAs(e, chunks, i);
    }
  }

  lemma AssembledMissing(c: Codec, dataShards: nat, size: nat, available: seq<Shard>, missing: seq<nat>)
    ensures var r := Assemble(c, dataShards, size, available, missing); r.Ok? ==> r.value.missing == missing
  {
    hide Decode, Flatten, Truncate, DataShards;
  }

  // Nothing was missing: the report is of the read alone.
  lemma NothingToRebuild(
    s: State, sender: Address, c: Codec, input: seq<Symbol>, id: Hash, nodes: seq<Node>, disks: Shelves, bytes: seq<Symbol>
  )
    requires id in s.entries && Lawful(c) && EncodedAs(s.entries[id], c, input)
    requires var content := ReadOutcome(c, s.entries[id], id, nodes, disks);
             content.Ok? && content.value.missing == [] && content.value.bytes == bytes
    ensures RebuildSpec(s, s, sender, c, input, id, nodes, disks, disks, Ok(Report([], Sha256(bytes))))
  {
    hide Lawful, Healthy, Assemble, Available, Missing, VerifiedShard, VerifiedShards;
    ReadsBack(s.entries[id], c, input, id, nodes, disks);
  }

  // The read failed, or a turn of the loop did.
  lemma CannotRebuild(
    s0: State, s: State, sender: Address, c: Codec, input: seq<Symbol>, id: Hash, nodes: seq<Node>,
    disks0: Shelves, disks: Shelves, chunks: seq<Chunk>, j: nat, fault: Fault
  )
    requires id in s0.entries && id in s.entries && Lawful(c) && EncodedAs(s0.entries[id], c, input)
    requires var content := ReadOutcome(c, s0.entries[id], id, nodes, disks0);
             content.Ok? ==> j < |content.value.missing| && chunks == content.value.chunks
                             && !(&& Startable(s0, sender, s0.entries[id])
                                  && Acceptable(s0, s0.entries[id], id, nodes, disks0, chunks, content.value.missing[j]))
    ensures RebuildSpec(s0, s, sender, c, input, id, nodes, disks0, disks, Err(fault))
  {
    hide Lawful, Healthy, Assemble, Available, Missing, VerifiedShard, VerifiedShards, Acceptable, Startable, Served, FindNode, Healed;
    ReadsBack(s0.entries[id], c, input, id, nodes, disks0);
    var content := ReadOutcome(c, s0.entries[id], id, nodes, disks0);
    if content.Ok? {
      assert content.value.missing[j] in content.value.missing;
    }
  }

  // Once the loop is through, what is left to ask of each shard is the same.
  lemma TurnedRestorable(
    s0: State, s: State, sender: Address, id: Hash, nodes: seq<Node>, missing: seq<nat>, chunks: seq<Chunk>,
    disks0: Shelves, disks: Shelves
  )
    requires id in s0.entries && RebuildTurn(s0, s, sender, id, nodes, missing, chunks, disks0, disks, |missing|)
    ensures missing != [] ==> Startable(s0, sender, s0.entries[id])
    ensures forall i :: i in missing ==>
              (Restorable(s0, s0.entries[id], id, nodes, disks0, chunks, i)
               <==> ReturnedServed(disks0, disks, s0.entries[id], id, nodes, i, chunks))
  {
    var e0 := s0.entries[id];
    hide Valid, Mending, Startable, OnlyBlob, FindNode, NodeReady, PutBack, Served;
    forall i | i in missing
      ensures Restorable(s0, e0, id, nodes, disks0, chunks, i) <==> ReturnedServed(disks0, disks, e0, id, nodes, i, chunks)
    {
      var l :| 0 <= l < |missing| && missing[l] == i;
      assert Acceptable(s0, e0, id, nodes, disks0, chunks, missing[l]) && Returned(disks0, disks, e0, id, nodes, missing[l], chunks);
    }
  }

  // The loop is through; the second read decides.
  lemma RebuildDone(
    s0: State, s: State, sender: Address, c: Codec, input: seq<Symbol>, id: Hash, nodes: seq<Node>,
    disks0: Shelves, disks: Shelves, missing: seq<nat>, chunks: seq<Chunk>, rebuilt: seq<RebuiltShard>, r: Result<Report, Fault>
  )
    requires id in s0.entries && id in s.entries && Lawful(c) && EncodedAs(s0.entries[id], c, input)
    requires var content := ReadOutcome(c, s0.entries[id], id, nodes, disks0);
             content.Ok? && missing == content.value.missing != [] && chunks == content.value.chunks
    requires RebuildTurn(s0, s, sender, id, nodes, missing, chunks, disks0, disks, |missing|)
    requires |rebuilt| == |missing| && RebuiltEach(rebuilt, missing, s0.entries[id].placement, chunks)
    requires var final := ReadOutcome(c, s.entries[id], id, nodes, disks);
             r == if final.Err? then Err(ReadFailed(final.error)) else if final.value.missing != [] then Err(StillMissing)
                  else Ok(Report(rebuilt, Sha256(final.value.bytes)))
    ensures RebuildSpec(s0, s, sender, c, input, id, nodes, disks0, disks, r)
  {
    hide RebuildTurn, Lawful, Healthy, Missing, VerifiedShards, Startable, EncodedAs, RebuiltEach, ReadOutcome, DisksMending, Mending,
      Valid, Encode, Restorable, ReturnedServed, OnlyBlob, Rebuildable, Healed;
    var e0, e := s0.entries[id], s.entries[id];
    RebuildTurnIs(s0, s, sender, id, nodes, missing, chunks, disks0, disks, |missing|);
    TurnedRebuildable(s0, s, sender, c.config.k, id, nodes, missing, chunks, disks0, disks);
    ReadsBack(e0, c, input, id, nodes, disks0);
    ReadAfterRebuild(disks0, disks, e0, e, c, input, id, nodes);
    MendedIsHealed(e0, e, c, input, id, nodes, missing, chunks, disks);
  }

  lemma MendedIsHealed(
    e0: Entry, e: Entry, c: Codec, input: seq<Symbol>, id: Hash, nodes: seq<Node>, missing: seq<nat>, chunks: seq<Chunk>, disks: Shelves
  )
    requires Mending(e0, e, missing, chunks, |missing|) && EncodedAs(e, c, input) && missing != []
    requires var content := ReadOutcome(c, e, id, nodes, disks);
             content.Ok? && content.value.bytes == input
    ensures ReadOutcome(c, e, id, nodes, disks).value.missing == [] ==> Healed(e0, e, c, input, id, nodes, missing, disks)
  {
    hide EncodedAs, ReadOutcome, SameTerms;
  }

  lemma TurnedRebuildable(
    s0: State, s: State, sender: Address, k: nat, id: Hash, nodes: seq<Node>, missing: seq<nat>, chunks: seq<Chunk>,
    disks0: Shelves, disks: Shelves
  )
    requires id in s0.entries && RebuildTurn(s0, s, sender, id, nodes, missing, chunks, disks0, disks, |missing|)
    requires missing != []
    ensures missing == Missing(VerifiedShards(s0.entries[id], id, nodes, disks0))
            && |Healthy(VerifiedShards(s0.entries[id], id, nodes, disks0))| >= k ==>
              (Rebuildable(s0, sender, k, chunks, id, nodes, disks0)
               <==> forall i :: i in missing ==> ReturnedServed(disks0, disks, s0.entries[id], id, nodes, i, chunks))
  {
    hide RebuildTurn, Healthy, Missing, VerifiedShards, Startable, Restorable, ReturnedServed;
    TurnedRestorable(s0, s, sender, id, nodes, missing, chunks, disks0, disks);
  }

  // `input` is what the blob was encoded from, if it was; the program never
  // looks at it.
  method RebuildBlob(
    registry: PrimeServerRegistry, sender: Address, c: Codec, id: Hash, nodes: seq<Node>, ghost input: seq<Symbol>
  ) returns (r: Result<Report, Fault>)
    requires Valid(registry.View())
    modifies registry, Disks(nodes)
    ensures Valid(registry.View())
    ensures if id !in old(registry.entries) then r == Err(BlobNotFound) && registry.View() == old(registry.View())
            else OnlyBlob(old(registry.View()), registry.View(), id)
    ensures id in old(registry.entries) && Lawful(c) && EncodedAs(old(registry.entries[id]), c, input) ==>
              && RebuildSpec(old(registry.View()), registry.View(), sender, c, input, id, nodes, old(Views(nodes)), Views(nodes), r)
              && Unharmed(old(registry.entries[id]), registry.entries[id], c, input, id, nodes, old(Views(nodes)), Views(nodes))
  {
    hide Valid, Lawful, EncodedAs, RebuildSpec, Unharmed, Spared, Mending, DisksMending, RebuildTurn, OnlyBlob, ReadOutcome, Distinct,
      Startable, Acceptable, RebuiltEach;
    ghost var s0, disks0 := registry.View(), Views(nodes);
    if id !in registry.entries {
      return Err(BlobNotFound);
    }
    var e0 := registry.entries[id];
    ghost var encoded := Lawful(c) && EncodedAs(e0, c, input);
    var read := ReadBlob(registry, c, id, nodes);
    OnlyBlobStart(s0, id);
    if read.Err? {
      if encoded {
        CannotRebuild(s0, s0, sender, c, input, id, nodes, disks0, disks0, [], 0, read.error);
        UntouchedIsUnharmed(e0, c, input, id, nodes, disks0);
      }
      return Err(read.error);
    }
    var missing, chunks := read.value.missing, read.value.chunks;
    if missing == [] {
      if encoded {
        NothingToRebuild(s0, sender, c, input, id, nodes, disks0, read.value.bytes);
        UntouchedIsUnharmed(e0, c, input, id, nodes, disks0);
      }
      return Ok(Report([], Sha256(read.value.bytes)));
    }
    ReadMissing(c, e0, id, nodes, disks0);
    FirstRebuild(s0, sender, id, nodes, missing, chunks, disks0);
    var rebuilt: seq<RebuiltShard> := [];
    NothingRebuilt(missing, e0.placement, chunks);
    for j := 0 to |missing|
      invariant RebuildTurn(s0, registry.View(), sender, id, nodes, missing, chunks, disks0, Views(nodes), j)
      invariant |rebuilt| == j && RebuiltEach(rebuilt, missing, e0.placement, chunks)
    {
      var next := RebuildNext(registry, sender, id, s0, e0, nodes, missing, chunks, disks0, j);
      if next.Err? {
        OnlyBlobIs(s0, registry.View(), id);
        if encoded {
          CannotRebuild(s0, registry.View(), sender, c, input, id, nodes, disks0, Views(nodes), chunks, j, next.error);
          LoopUnharmed(e0, registry.entries[id], c, input, id, nodes, missing, chunks, disks0, Views(nodes));
        }
        return Err(next.error);
      }
      OneMoreRebuilt(rebuilt, next.value, missing, e0.placement, chunks);
      rebuilt := rebuilt + [next.value];
    }
    RebuildTurnIs(s0, registry.View(), sender, id, nodes, missing, chunks, disks0, Views(nodes), |missing|);
    var final := ReadBlob(registry, c, id, nodes);
    if final.Err? {
      r := Err(final.error);
    } else if final.value.missing != [] {
      r := Err(StillMissing);
    } else {
      r := Ok(Report(rebuilt, Sha256(final.value.bytes)));
    }
    if encoded {
      RebuildDone(s0, registry.View(), sender, c, input, id, nodes, disks0, Views(nodes), missing, chunks, rebuilt, r);
      TurnSpares(e0, registry.entries[id], id, nodes, missing, chunks, disks0, Views(nodes), |missing|);
      LoopUnharmed(e0, registry.entries[id], c, input, id, nodes, missing, chunks, disks0, Views(nodes));
    }
  }

  // The missing list of any successful read names each lost shard once.
  lemma ReadMissing(c: Codec, e: Entry, id: Hash, nodes: seq<Node>, disks: Shelves)
    requires ReadOutcome(c, e, id, nodes, disks).Ok?
    ensures var missing := ReadOutcome(c, e, id, nodes, disks).value.missing;
            Distinct(missing) && forall j :: 0 <= j < |missing| ==> missing[j] < e.terms.totalShards
  {
    hide Assemble, VerifiedShard, Distinct;
    var verified := VerifiedShards(e, id, nodes, disks);
    AssembledMissing(c, e.terms.dataShards, e.terms.size, Available(verified), Missing(verified));
    MissingRange(verified);
    forall j | 0 <= j < |Missing(verified)| ensures Missing(verified)[j] < e.terms.totalShards {
      assert Missing(verified)[j] in Missing(verified);
    }
  }

  lemma NothingRebuilt(missing: seq<nat>, placement: map<nat, nat>, chunks: seq<Chunk>)
    ensures RebuiltEach([], missing, placement, chunks)
  {
  }

  lemma OneMoreRebuilt(rebuilt: seq<RebuiltShard>, next: RebuiltShard, missing: seq<nat>, placement: map<nat, nat>, chunks: seq<Chunk>)
    requires RebuiltEach(rebuilt, missing, placement, chunks) && |rebuilt| < |missing|
    requires var i := missing[|rebuilt|];
             i in placement && i < |chunks| && next == RebuiltShard(i, placement[i], Sha256(chunks[i]))
    ensures RebuiltEach(rebuilt + [next], missing, placement, chunks)
  {
  }

  // Shards lost with their metadata come back once their providers do.
  lemma LostShardsComeBack(
    s: State, sender: Address, c: Codec, input: seq<Symbol>, id: Hash, nodes: seq<Node>, disks: Shelves
  )
    requires id in s.entries && Lawful(c) && EncodedAs(s.entries[id], c, input) && Startable(s, sender, s.entries[id])
    requires |Healthy(VerifiedShards(s.entries[id], id, nodes, disks))| >= c.config.k
    requires forall i :: i in Missing(VerifiedShards(s.entries[id], id, nodes, disks)) ==>
               && i in s.entries[id].placement && FindNode(nodes, s.entries[id].placement[i]).Some?
               && var node := FindNode(nodes, s.entries[id].placement[i]).value;
                  NodeReady(s, node) && node.storage in disks && (id, i) !in disks[node.storage].metadata
    ensures Rebuildable(s, sender, c.config.k, Encode(c, input).value.chunks, id, nodes, disks)
  {
    hide Healthy, Missing, FindNode, NodeReady, Served, Startable, VerifiedShard, Recoverable, Flatten;
    var e, chunks := s.entries[id], Encode(c, input).value.chunks;
    var verified := VerifiedShards(e, id, nodes, disks);
    assert Systematic(c, Pad(input, c.config.k * c.config.chunkSize));
    MissingRange(verified);
    forall i | i in Missing(verified) ensures Restorable(s, e, id, nodes, disks, chunks, i) {
      assert |chunks[i]| == c.config.chunkSize;
    }
  }
}
