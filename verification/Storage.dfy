// A provider's shard directory: a data file and a metadata file per shard,
// written in that order and never overwritten once a metadata file exists.
module Storage {
  import opened Prelude
  import opened Erasure

  type Key = (Hash, nat)

  // What a metadata file holds: a description, or text cut short that no
  // longer parses.
  datatype Metadata = Metadata(commitment: Hash, size: nat) | Torn

  datatype Disk = Disk(data: map<Key, Chunk>, metadata: map<Key, Metadata>)

  datatype StorageError = CommitmentDiffers | ShardConflict | MetadataUnreadable | Interrupted | NotFound

  // Where the process stops in a put that gets to write: nowhere, after the
  // data file was renamed into place, or inside the metadata write.
  datatype Stop = Never | BetweenFiles | InMetadata

  datatype Upload = Upload(key: Key, bytes: Chunk, commitment: Option<Hash>, stop: Stop)

  function MetadataOf(bytes: Chunk): Metadata {
    Metadata(Sha256(bytes), |bytes|)
  }

  function Store(d: Disk, p: Upload): (Disk, Result<Metadata, StorageError>) {
    var m := MetadataOf(p.bytes);
    if p.commitment.Some? && p.commitment.value != m.commitment then (d, Err(CommitmentDiffers))
    else if p.key in d.metadata then
      (d, if d.metadata[p.key].Torn? then Err(MetadataUnreadable) else if d.metadata[p.key] == m then Ok(m) else Err(ShardConflict))
    else match p.stop
      case BetweenFiles => (d.(data := d.data[p.key := p.bytes]), Err(Interrupted))
      case InMetadata => (Disk(d.data[p.key := p.bytes], d.metadata[p.key := Torn]), Err(Interrupted))
      case Never => (Disk(d.data[p.key := p.bytes], d.metadata[p.key := m]), Ok(m))
  }

  function StoreAll(d: Disk, puts: seq<Upload>): Disk {
    if puts == [] then d else Store(StoreAll(d, puts[..|puts| - 1]), puts[|puts| - 1]).0
  }

  // Whatever metadata describes is on disk and is what it says.
  ghost predicate Intact(d: Disk) {
    forall key :: key in d.metadata && d.metadata[key].Metadata? ==> key in d.data && MetadataOf(d.data[key]) == d.metadata[key]
  }

  // What GET serves: the file, cut to the size its metadata gives.
  function Served(d: Disk, key: Key): Option<Chunk> {
    if key in d.metadata && d.metadata[key].Metadata? && key in d.data
    then Some(if d.metadata[key].size < |d.data[key]| then d.data[key][..d.metadata[key].size] else d.data[key])
    else None
  }

  // A put succeeds exactly when the bytes are those announced, and are the ones
  // described or new and written to the end. What is described, and what is
  // announced wrongly, is not touched; otherwise the data file holds the bytes
  // and its description follows unless the put stops first.
  lemma PutOutcome(d: Disk, key: Key, bytes: Chunk, commitment: Option<Hash>, stop: Stop)
    ensures var (after, r) := Store(d, Upload(key, bytes, commitment, stop));
            var announced := commitment.None? || commitment.value == Sha256(bytes);
            && (r.Ok? <==> announced && (if key in d.metadata then d.metadata[key] == Metadata(Sha256(bytes), |bytes|) else stop.Never?))
            && (r.Ok? ==> r.value == Metadata(Sha256(bytes), |bytes|))
            && (!announced || key in d.metadata ==> after == d)
            && (announced && key !in d.metadata ==>
                  && after.data == d.data[key := bytes]
                  && after.metadata == match stop
                                       case Never => d.metadata[key := Metadata(Sha256(bytes), |bytes|)]
                                       case BetweenFiles => d.metadata
                                       case InMetadata => d.metadata[key := Torn])
  {
  }

  // A shard is served exactly when it is described and its file is there, up
  // to the described size and no further.
  lemma ServedUpToSize(d: Disk, key: Key)
    ensures Served(d, key).Some? <==> key in d.metadata && d.metadata[key] != Torn && key in d.data
    ensures Served(d, key).Some? ==>
              var bytes := Served(d, key).value;
              && bytes <= d.data[key] && |bytes| <= d.metadata[key].size
              && (|bytes| == d.metadata[key].size || bytes == d.data[key])
  {
  }

  // Over any sequence of puts, wherever they stop, a shard that was stored is
  // served for ever as it was first stored.
  lemma {:induction false} StoredOnce(d: Disk, puts: seq<Upload>, key: Key)
    requires Intact(d) && key in d.metadata && d.metadata[key].Metadata?
    ensures var after := StoreAll(d, puts);
            && Intact(after) && key in after.metadata
            && after.metadata[key] == d.metadata[key] && after.data[key] == d.data[key]
            && Served(after, key) == Some(d.data[key])
  {
    if puts != [] {
      StoredOnce(d, puts[..|puts| - 1], key);
    }
  }

  // Trying a stopped put again completes it exactly when the stop was not
  // inside the metadata write, or the shard was described before.
  lemma RetryCompletes(d: Disk, key: Key, bytes: Chunk, stop: Stop)
    requires Intact(d) && (key in d.metadata ==> d.metadata[key] == MetadataOf(bytes))
    ensures var stopped := Store(d, Upload(key, bytes, Some(Sha256(bytes)), stop)).0;
            var (after, r) := Store(stopped, Upload(key, bytes, Some(Sha256(bytes)), Never));
            && Intact(stopped) && Intact(after)
            && (r.Ok? <==> stop != InMetadata || key in d.metadata)
            && (r.Ok? ==> r == Ok(MetadataOf(bytes)) && Served(after, key) == Some(bytes))
  {
    assert key in d.metadata ==> d.data[key] == bytes;
  }

  // A torn metadata file is never repaired: no put of that shard succeeds any
  // more, and it is never served.
  lemma {:induction false} TornForever(d: Disk, puts: seq<Upload>, key: Key, bytes: Chunk, commitment: Option<Hash>, stop: Stop)
    requires key in d.metadata && d.metadata[key].Torn?
    ensures var after := StoreAll(d, puts);
            && key in after.metadata && after.metadata[key].Torn?
            && Served(after, key).None? && Store(after, Upload(key, bytes, commitment, stop)).1.Err?
  {
    if puts != [] {
      TornForever(d, puts[..|puts| - 1], key, bytes, commitment, stop);
    }
  }

  class ProviderStorage {
    var data: map<Key, Chunk>
    var metadata: map<Key, Metadata>

    ghost function View(): Disk
      reads this
    {
      Disk(data, metadata)
    }

    constructor ()
      ensures View() == Disk(map[], map[]) && Intact(View())
    {
      data, metadata := map[], map[];
    }

    method PutShard(blobId: Hash, shardIndex: nat, bytes: Chunk, commitment: Option<Hash>, stop: Stop)
      returns (r: Result<Metadata, StorageError>)
      modifies this
      ensures (View(), r) == Store(old(View()), Upload((blobId, shardIndex), bytes, commitment, stop))
      ensures Intact(old(View())) ==> Intact(View())
    {
      var computed := Sha256(bytes);
      if commitment.Some? && commitment.value != computed {
        return Err(CommitmentDiffers);
      }
      var key := (blobId, shardIndex);
      if key in metadata {
        var existing := metadata[key];
        if existing.Torn? {
          return Err(MetadataUnreadable);
        }
        if existing.commitment != computed || existing.size != |bytes| {
          return Err(ShardConflict);
        }
        return Ok(existing);
      }
      data := data[key := bytes];
      if stop == BetweenFiles {
        return Err(Interrupted);
      }
      if stop == InMetadata {
        metadata := metadata[key := Torn];
        return Err(Interrupted);
      }
      var written := Metadata(computed, |bytes|);
      metadata := metadata[key := written];
      r := Ok(written);
    }

    // Clamp the bounds to the file, then fill a buffer.
    method ReadShard(blobId: Hash, shardIndex: nat, start: int, endExclusive: Option<int>) returns (r: Result<Chunk, StorageError>)
      ensures var key := (blobId, shardIndex);
              if key !in data then r == Err(NotFound)
              else
                var size := |data[key]|;
                var from := if start < 0 then 0 else if start > size then size else start;
                var end := if endExclusive.None? || endExclusive.value > size then size else endExclusive.value;
                r == Ok(data[key][from..if end < from then from else end])
    {
      var key := (blobId, shardIndex);
      if key !in data {
        return Err(NotFound);
      }
      var file := data[key];
      var wanted := if endExclusive.Some? then endExclusive.value else |file|;
      var safeStart := Max(0, Min(start, |file|));
      var safeEnd := Max(safeStart, Min(wanted, |file|));
      var buffer := new Symbol[safeEnd - safeStart](_ => 0);
      for i := 0 to safeEnd - safeStart
        invariant forall j :: 0 <= j < i ==> buffer[j] == file[safeStart + j]
      {
        buffer[i] := file[safeStart + i];
      }
      assert buffer[..] == file[safeStart..safeEnd];
      r := Ok(buffer[..]);
    }

    // The GET route: metadata first, then the file up to the recorded size.
    method GetShard(blobId: Hash, shardIndex: nat) returns (r: Option<Chunk>)
      ensures r == Served(View(), (blobId, shardIndex))
    {
      var key := (blobId, shardIndex);
      if key !in metadata || metadata[key].Torn? {
        return None;
      }
      var read := ReadShard(blobId, shardIndex, 0, Some(metadata[key].size));
      assert key in data ==> data[key][0..|data[key]|] == data[key];
      r := if read.Ok? then Some(read.value) else None;
    }
  }

  function Max(a: int, b: int): int {
    if a > b then a else b
  }

  function Min(a: int, b: int): int {
    if a < b then a else b
  }
}
