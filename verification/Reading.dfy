// Reading a blob back from its placed providers: fetch each shard, check it
// against its acknowledgement, and assemble or decode.
module Reading {
  import opened Prelude
  import opened Blob
  import opened BlobInvariants
  import opened Protocol
  import opened Registry
  import opened Erasure
  import opened Storage
  import opened Nodes
  import opened Placement

  // The shard's size and digest must be those its provider acknowledged.
  function Verify(served: Option<Chunk>, a: Acknowledgement): Option<Chunk> {
    if served.Some? && |served.value| == a.size && Sha256(served.value) == a.commitment then served else None
  }

  // What the read loop gets for shard `i`.
  ghost function VerifiedShard(e: Entry, id: Hash, nodes: seq<Node>, disks: Shelves, i: nat): Option<Chunk> {
    if Acked(e.placement, e.acks, i)
    then
      var node := FindNode(nodes, e.placement[i]);
      if node.Some? && node.value.storage in disks
      then Verify(Served(disks[node.value.storage], (id, i)), e.acks[(e.placement[i], i)])
      else None
    else None
  }

  ghost function VerifiedShards(e: Entry, id: Hash, nodes: seq<Node>, disks: Shelves): seq<Option<Chunk>> {
    seq(e.terms.totalShards, i requires 0 <= i < e.terms.totalShards => VerifiedShard(e, id, nodes, disks, i))
  }

  ghost function ReadOutcome(c: Codec, e: Entry, id: Hash, nodes: seq<Node>, disks: Shelves): Result<Content, ReadError> {
    var verified := VerifiedShards(e, id, nodes, disks);
    Assemble(c, e.terms.dataShards, e.terms.size, Available(verified), Missing(verified))
  }

  method ReadProviderShard(node: Node, id: Hash, i: nat, a: Acknowledgement) returns (r: Option<Chunk>)
    ensures r == Verify(Served(node.storage.View(), (id, i)), a)
  {
    var bytes := node.storage.GetShard(id, i);
    if bytes.None? || |bytes.value| != a.size || Sha256(bytes.value) != a.commitment {
      return None;
    }
    r := bytes;
  }

  lemma ListsGrow(verified: seq<Option<Chunk>>, next: Option<Chunk>)
    ensures Available(verified + [next]) == Available(verified) + if next.Some? then [Shard(|verified|, next.value)] else []
    ensures Missing(verified + [next]) == Missing(verified) + if next.None? then [|verified|] else []
  {
    assert (verified + [next])[..|verified|] == verified;
  }

  method ReadBlob(registry: PrimeServerRegistry, c: Codec, id: Hash, nodes: seq<Node>) returns (r: Result<Content, Fault>)
    ensures id !in registry.entries ==> r == Err(BlobNotFound)
    ensures id in registry.entries ==>
              match ReadOutcome(c, registry.entries[id], id, nodes, Views(nodes))
              case Ok(content) => r == Ok(content)
              case Err(cause) => r == Err(ReadFailed(cause))
  {
    hide Available, Missing, Assemble, Served, Verify;
    if id !in registry.entries {
      return Err(BlobNotFound);
    }
    var e := registry.entries[id];
    var available: seq<Shard>, missing: seq<nat> := [], [];
    ghost var verified := VerifiedShards(e, id, nodes, Views(nodes));
    NothingRead();
    for i := 0 to e.terms.totalShards
      invariant available == Available(verified[..i]) && missing == Missing(verified[..i])
    {
      var shard: Option<Chunk> := None;
      if Acked(e.placement, e.acks, i) {
        var provider := FindNode(nodes, e.placement[i]);
        if provider.Some? {
          NodeDisk(nodes, provider.value);
          shard := ReadProviderShard(provider.value, id, i, e.acks[(e.placement[i], i)]);
        }
      }
      assert shard == verified[i];
      ListsGrow(verified[..i], shard);
      assert verified[..i + 1] == verified[..i] + [shard];
      if shard.Some? {
        available := available + [Shard(i, shard.value)];
      } else {
        missing := missing + [i];
      }
    }
    assert verified[..e.terms.totalShards] == verified;
    var content := Assemble(c, e.terms.dataShards, e.terms.size, available, missing);
    r := if content.Ok? then Ok(content.value) else Err(ReadFailed(content.error));
  }

  lemma NothingRead()
    ensures Available([]) == [] && Missing([]) == []
  {
  }

  // ---- What is read is what was written ----

  // The blob was registered for `input`, and every current acknowledgement is
  // of the chunk it should be.
  ghost predicate EncodedAs(e: Entry, c: Codec, input: seq<Symbol>) {
    && |input| <= c.config.k * c.config.chunkSize
    && e.terms.totalShards == c.config.n && e.terms.dataShards == c.config.k && e.terms.chunkSize == c.config.chunkSize
    && e.terms.size == |input| && |Encode(c, input).value.chunks| == c.config.n
    && (forall i :: 0 <= i < c.config.n && Acked(e.placement, e.acks, i) ==>
          AckMatches(e.acks[(e.placement[i], i)], Encode(c, input).value.chunks[i]))
  }

  // Shard `i` is read exactly when it is placed, its placed provider has
  // acknowledged it and is known, and that provider serves bytes of the
  // acknowledged size and digest.
  lemma VerifiedExactly(e: Entry, id: Hash, nodes: seq<Node>, disks: Shelves, i: nat, bytes: Chunk)
    ensures VerifiedShard(e, id, nodes, disks, i) == Some(bytes)
       <==> && i in e.placement && (e.placement[i], i) in e.acks
            && var node := FindNode(nodes, e.placement[i]);
               && node.Some? && node.value.storage in disks && Served(disks[node.value.storage], (id, i)) == Some(bytes)
               && e.acks[(e.placement[i], i)].size == |bytes| && e.acks[(e.placement[i], i)].commitment == Sha256(bytes)
  {
    hide Served, FindNode;
  }

  // Whatever the disks hold, a shard that passes verification is the chunk
  // that was encoded.
  lemma VerifiedIsFaithful(e: Entry, c: Codec, input: seq<Symbol>, id: Hash, nodes: seq<Node>, disks: Shelves)
    requires EncodedAs(e, c, input)
    ensures Faithful(VerifiedShards(e, id, nodes, disks), Encode(c, input).value.chunks)
  {
    hide Served, FindNode;
    var verified, chunks := VerifiedShards(e, id, nodes, disks), Encode(c, input).value.chunks;
    forall i | 0 <= i < |verified| && verified[i].Some? ensures verified[i].value == chunks[i] {
      assert Acked(e.placement, e.acks, i);
      assert Sha256(verified[i].value) == Sha256(chunks[i]);
    }
  }

  // A read succeeds exactly when at least k shards are healthy, and then
  // returns the input.
  lemma ReadsBack(e: Entry, c: Codec, input: seq<Symbol>, id: Hash, nodes: seq<Node>, disks: Shelves)
    requires Lawful(c) && EncodedAs(e, c, input)
    ensures var verified, r := VerifiedShards(e, id, nodes, disks), ReadOutcome(c, e, id, nodes, disks);
            && (r.Ok? <==> |Healthy(verified)| >= c.config.k)
            && (r.Ok? ==> r.value.bytes == input && r.value.missing == Missing(verified)
                          && (r.value.missing != [] ==> r.value.chunks == Encode(c, input).value.chunks))
  {
    hide Lawful, Healthy, Assemble, Available, Missing, VerifiedShard;
    VerifiedIsFaithful(e, c, input, id, nodes, disks);
    ReadReturnsInput(c, input, VerifiedShards(e, id, nodes, disks));
  }

  // A blob that is kept is read without loss.
  lemma KeptIsHealthy(e: Entry, c: Codec, input: seq<Symbol>, id: Hash, nodes: seq<Node>, disks: Shelves)
    requires EncodedAs(e, c, input) && Kept(e, id, nodes, Encode(c, input).value.chunks, disks)
    ensures Healthy(VerifiedShards(e, id, nodes, disks)) == Below(c.config.n)
  {
    hide FindNode, Encode;
    var verified := VerifiedShards(e, id, nodes, disks);
    forall i | i in Below(c.config.n) ensures i in Healthy(verified) {
      assert verified[i].Some?;
    }
  }
}
