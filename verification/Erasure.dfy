// The erasure engine around an abstract k-of-n code: padding, index
// bookkeeping, ordering and truncation.
module Erasure {
  import opened Prelude

  // Data are symbols of the prime field with 257 elements; every byte is one.
  type Symbol = x: nat | x < 257

  type Chunk = seq<Symbol>

  datatype Config = Config(n: nat, k: nat, chunkSize: nat)

  // A code: how a padded input spreads over n chunks, and how the chunks that
  // are left, in index order, give all of them back.
  datatype Codec = Codec(
    config: Config,
    spread: seq<Symbol> -> seq<Chunk>,
    rebuild: (seq<Chunk>, seq<nat>) -> seq<Chunk>)

  datatype Shard = Shard(index: nat, bytes: Chunk)

  datatype Encoded = Encoded(originalSize: nat, chunks: seq<Chunk>, commitments: seq<Hash>)

  datatype Decoded = Decoded(chunks: seq<Chunk>, recovered: seq<Symbol>)

  datatype CodecError = InputTooLarge | InvalidErasedIndexes | WrongChunkCount | TooFewChunks | MissingChunk | CommitmentMismatch

  // ---- Index pipelines ----

  // The members of `s` below `n`, in increasing order.
  function Ascending(n: nat, s: set<nat>): (r: seq<nat>)
    ensures |r| <= n
  {
    if n == 0 then [] else Ascending(n - 1, s) + if n - 1 in s then [n - 1] else []
  }

  // The chunks whose index is in `s`, in index order.
  function Pick(chunks: seq<Chunk>, n: nat, s: set<nat>): seq<Chunk>
    requires n <= |chunks|
  {
    if n == 0 then [] else Pick(chunks, n - 1, s) + if n - 1 in s then [chunks[n - 1]] else []
  }

  function Flatten(chunks: seq<Chunk>): seq<Symbol> {
    if chunks == [] then [] else chunks[0] + Flatten(chunks[1..])
  }

  // subarray(0, size)
  function Truncate(bytes: seq<Symbol>, size: nat): seq<Symbol> {
    if size <= |bytes| then bytes[..size] else bytes
  }

  function IndexesOf(indexes: seq<nat>): set<nat> {
    set i | i in indexes
  }

  // new Map(available.map(({ index, bytes }) => [index, bytes]))
  function ByIndex(available: seq<Shard>): map<nat, Chunk> {
    if available == [] then map[]
    else
      var last := available[|available| - 1];
      ByIndex(available[..|available| - 1])[last.index := last.bytes]
  }

  function Order(byIndex: map<nat, Chunk>, indexes: seq<nat>): Result<seq<Chunk>, CodecError> {
    if indexes == [] then Ok([])
    else
      var front :- Order(byIndex, indexes[..|indexes| - 1]);
      var last := indexes[|indexes| - 1];
      if last in byIndex then Ok(front + [byIndex[last]]) else Err(MissingChunk)
  }

  // ---- Encoding ----

  function Pad(input: seq<Symbol>, capacity: nat): seq<Symbol>
    requires |input| <= capacity
  {
    input + seq(capacity - |input|, _ => 0)
  }

  // Copy into an allocated, zeroed buffer.
  method PadInput(input: seq<Symbol>, config: Config) returns (r: Result<seq<Symbol>, CodecError>)
    ensures r == if |input| > config.k * config.chunkSize then Err(InputTooLarge)
                 else Ok(Pad(input, config.k * config.chunkSize))
  {
    var capacity := config.k * config.chunkSize;
    if |input| > capacity {
      return Err(InputTooLarge);
    }
    var padded := new Symbol[capacity](_ => 0);
    for i := 0 to |input|
      invariant forall j :: 0 <= j < i ==> padded[j] == input[j]
      invariant forall j :: i <= j < capacity ==> padded[j] == 0
    {
      padded[i] := input[i];
    }
    assert padded[..] == Pad(input, capacity);
    r := Ok(padded[..]);
  }

  function Commitments(chunks: seq<Chunk>): seq<Hash> {
    seq(|chunks|, i requires 0 <= i < |chunks| => Sha256(chunks[i]))
  }

  function Encode(c: Codec, input: seq<Symbol>): Result<Encoded, CodecError> {
    var capacity := c.config.k * c.config.chunkSize;
    if |input| > capacity then Err(InputTooLarge)
    else
      var chunks := c.spread(Pad(input, capacity));
      Ok(Encoded(|input|, chunks, Commitments(chunks)))
  }

  // ---- Decoding ----

  function Decode(c: Codec, available: seq<Shard>, erasedIndexes: seq<nat>, originalSize: nat): Result<Decoded, CodecError> {
    var n, erasedSet := c.config.n, IndexesOf(erasedIndexes);
    :- Require(erasedIndexes != [] && forall i :: i in erasedIndexes ==> i < n, InvalidErasedIndexes);
    var erased, left := Ascending(n, erasedSet), Ascending(n, Below(n) - erasedSet);
    :- Require(|available| == |left|, WrongChunkCount);
    :- Require(|available| >= c.config.k, TooFewChunks);
    var ordered :- Order(ByIndex(available), left);
    var chunks := c.rebuild(ordered, erased);
    var systematic := Flatten(if |chunks| >= c.config.k then chunks[..c.config.k] else chunks);
    :- Require(c.spread(systematic) == chunks, CommitmentMismatch);
    Ok(Decoded(chunks, Truncate(systematic, originalSize)))
  }

  // Every index that is not declared lost comes with a chunk.
  ghost predicate AllThere(available: seq<Shard>, left: seq<nat>) {
    forall j :: 0 <= j < |left| ==> Supplied(available, left[j])
  }

  ghost predicate Supplied(available: seq<Shard>, i: nat) {
    exists s :: s in available && s.index == i
  }

  lemma {:induction false} OrderFinds(byIndex: map<nat, Chunk>, indexes: seq<nat>)
    ensures Order(byIndex, indexes).Ok? <==> forall j :: 0 <= j < |indexes| ==> indexes[j] in byIndex
    ensures Order(byIndex, indexes).Ok? ==>
              && |Order(byIndex, indexes).value| == |indexes|
              && forall j :: 0 <= j < |indexes| ==> Order(byIndex, indexes).value[j] == byIndex[indexes[j]]
  {
    if indexes != [] {
      OrderFinds(byIndex, indexes[..|indexes| - 1]);
    }
  }

  lemma {:induction false} ByIndexHolds(available: seq<Shard>, i: nat)
    ensures i in ByIndex(available) <==> Supplied(available, i)
  {
    if available != [] {
      var front, last := available[..|available| - 1], available[|available| - 1];
      ByIndexHolds(front, i);
      assert available == front + [last];
    }
  }

  // Decoding succeeds exactly when some chunks are declared lost, none of them
  // beyond the code, all the others and no more are handed in, at least k, and
  // what is rebuilt is the code's own spread of the data it begins with. So no
  // damaged chunk is ever taken for a codeword.
  lemma DecodeChecks(c: Codec, available: seq<Shard>, lost: seq<nat>, size: nat)
    ensures var r, left := Decode(c, available, lost, size), Ascending(c.config.n, Below(c.config.n) - IndexesOf(lost));
            && (r.Ok? ==> && lost != [] && (forall i :: i in lost ==> i < c.config.n)
                          && |available| == |left| >= c.config.k && AllThere(available, left))
            && (r.Ok? ==> c.spread(Flatten(if |r.value.chunks| >= c.config.k then r.value.chunks[..c.config.k] else r.value.chunks))
                          == r.value.chunks)
            && (r == Err(CommitmentMismatch) || r.Ok?
                <==> && lost != [] && (forall i :: i in lost ==> i < c.config.n)
                     && |available| == |left| >= c.config.k && AllThere(available, left))
  {
    hide Flatten, Truncate, Ascending, Below, IndexesOf, ByIndex, Order;
    var left := Ascending(c.config.n, Below(c.config.n) - IndexesOf(lost));
    OrderFinds(ByIndex(available), left);
    OrderFails(ByIndex(available), left);
    AllThereIs(available, left);
    hide AllThere;
  }

  lemma AllThereIs(available: seq<Shard>, left: seq<nat>)
    ensures AllThere(available, left) <==> forall j :: 0 <= j < |left| ==> left[j] in ByIndex(available)
  {
    hide ByIndex, Supplied;
    forall j | 0 <= j < |left| ensures left[j] in ByIndex(available) <==> Supplied(available, left[j]) {
      ByIndexHolds(available, left[j]);
    }
  }

  lemma {:induction false} OrderFails(byIndex: map<nat, Chunk>, indexes: seq<nat>)
    ensures Order(byIndex, indexes).Err? ==> Order(byIndex, indexes) == Err(MissingChunk)
  {
    if indexes != [] {
      OrderFails(byIndex, indexes[..|indexes| - 1]);
    }
  }

  // ---- The law of a k-of-n code ----

  // The first k chunks are the input itself, cut in equal pieces.
  ghost predicate Systematic(c: Codec, padded: seq<Symbol>) {
    var chunks := c.spread(padded);
    && |chunks| == c.config.n && c.config.k <= c.config.n
    && (forall i :: 0 <= i < c.config.n ==> |chunks[i]| == c.config.chunkSize)
    && Flatten(chunks[..c.config.k]) == padded
  }

  // Whatever is erased, any k chunks determine the rest.
  ghost predicate Recoverable(c: Codec, padded: seq<Symbol>, erased: set<nat>) {
    var chunks, left := c.spread(padded), Below(c.config.n) - erased;
    |chunks| == c.config.n && c.rebuild(Pick(chunks, c.config.n, left), Ascending(c.config.n, erased)) == chunks
  }

  ghost predicate Lawful(c: Codec) {
    && 1 <= c.config.k <= c.config.n && c.config.chunkSize > 0
    && (forall padded: seq<Symbol> :: |padded| == c.config.k * c.config.chunkSize ==> Systematic(c, padded))
    && (forall padded: seq<Symbol>, erased: set<nat> ::
          |padded| == c.config.k * c.config.chunkSize && erased != {} && erased <= Below(c.config.n)
          && |Below(c.config.n) - erased| >= c.config.k
          ==> Recoverable(c, padded, erased))
  }

  // What encoding yields: n chunks of the chunk size, the first k of which are
  // the input followed by zeros, each under its own digest; only an input over
  // k chunks is refused.
  lemma EncodedIs(c: Codec, input: seq<Symbol>)
    requires Lawful(c)
    ensures var r, capacity := Encode(c, input), c.config.k * c.config.chunkSize;
            && (r.Ok? <==> |input| <= capacity)
            && (r.Ok? ==>
                  var encoded := r.value;
                  && encoded.originalSize == |input| && |encoded.chunks| == |encoded.commitments| == c.config.n
                  && (forall i :: 0 <= i < c.config.n ==>
                        |encoded.chunks[i]| == c.config.chunkSize && encoded.commitments[i] == Sha256(encoded.chunks[i]))
                  && Flatten(encoded.chunks[..c.config.k]) == input + seq(capacity - |input|, _ => 0))
  {
    var capacity := c.config.k * c.config.chunkSize;
    if |input| <= capacity {
      assert Systematic(c, Pad(input, capacity));
    }
    hide Flatten;
  }

  // ---- Reading back ----

  // The shards that passed verification, and the indexes of those that did not.
  function Available(verified: seq<Option<Chunk>>): seq<Shard> {
    if verified == [] then []
    else
      var k := |verified| - 1;
      Available(verified[..k]) + if verified[k].Some? then [Shard(k, verified[k].value)] else []
  }

  function Missing(verified: seq<Option<Chunk>>): seq<nat> {
    if verified == [] then []
    else
      var k := |verified| - 1;
      Missing(verified[..k]) + if verified[k].None? then [k] else []
  }

  datatype Content = Content(bytes: seq<Symbol>, missing: seq<nat>, chunks: seq<Chunk>)

  datatype ReadError = NotEnoughShards(healthy: nat) | DecodeFailed(reason: CodecError)

  // available.filter(({ index }) => index < dataShards); the read loop leaves
  // `available` sorted by index.
  function DataShards(available: seq<Shard>, dataShards: nat): seq<Chunk> {
    if available == [] then []
    else
      var last := available[|available| - 1];
      DataShards(available[..|available| - 1], dataShards) + if last.index < dataShards then [last.bytes] else []
  }

  // Without loss the data shards are concatenated; with loss they are decoded.
  function Assemble(c: Codec, dataShards: nat, size: nat, available: seq<Shard>, missing: seq<nat>): Result<Content, ReadError> {
    if |available| < dataShards then Err(NotEnoughShards(|available|))
    else if missing == [] then Ok(Content(Truncate(Flatten(DataShards(available, dataShards)), size), [], []))
    else
      match Decode(c, available, missing, size)
      case Err(reason) => Err(DecodeFailed(reason))
      case Ok(decoded) => Ok(Content(decoded.recovered, missing, decoded.chunks))
  }

  // Every verified shard is the chunk of that index.
  ghost predicate Faithful(verified: seq<Option<Chunk>>, chunks: seq<Chunk>) {
    && |verified| <= |chunks|
    && forall i :: 0 <= i < |verified| && verified[i].Some? ==> verified[i].value == chunks[i]
  }

  ghost function Healthy(verified: seq<Option<Chunk>>): set<nat> {
    set i: nat | i < |verified| && verified[i].Some? :: i
  }

  // One more shard in each list.
  lemma HealthyGrows(verified: seq<Option<Chunk>>)
    requires verified != []
    ensures var k := |verified| - 1;
            var front := verified[..k];
            && Healthy(verified) == (if verified[k].Some? then Healthy(front) + {k} else Healthy(front))
            && Ascending(|verified|, Healthy(verified)) == Ascending(k, Healthy(front)) + (if verified[k].Some? then [k] else [])
            && k !in Healthy(front)
  {
    var k := |verified| - 1;
    AscendingAgrees(k, Healthy(verified[..k]), Healthy(verified));
  }

  lemma LostGrows(verified: seq<Option<Chunk>>)
    requires verified != []
    ensures var k := |verified| - 1;
            var front := verified[..k];
            Ascending(|verified|, Below(|verified|) - Healthy(verified))
            == Ascending(k, Below(k) - Healthy(front)) + (if verified[k].None? then [k] else [])
  {
    var k := |verified| - 1;
    AscendingAgrees(k, Below(k) - Healthy(verified[..k]), Below(k + 1) - Healthy(verified));
  }

  lemma {:induction false} MissingIsTheRest(verified: seq<Option<Chunk>>)
    ensures Missing(verified) == Ascending(|verified|, Below(|verified|) - Healthy(verified))
  {
    if verified != [] {
      hide Healthy, Ascending;
      MissingIsTheRest(verified[..|verified| - 1]);
      LostGrows(verified);
    } else {
      assert Healthy(verified) == {};
    }
  }

  lemma SetGrows(s: set<nat>, k: nat)
    requires k !in s
    ensures |s + {k}| == |s| + 1
  {
  }

  lemma {:induction false} AvailableIsHealthy(verified: seq<Option<Chunk>>)
    ensures |Available(verified)| == |Healthy(verified)| == |Ascending(|verified|, Healthy(verified))|
  {
    if verified != [] {
      hide Ascending, Healthy;
      var k := |verified| - 1;
      var front := verified[..k];
      AvailableIsHealthy(front);
      HealthyGrows(verified);
      SetGrows(Healthy(front), k);
      assert |Available(verified)| == |Available(front)| + if verified[k].Some? then 1 else 0;
      hide Available;
    } else {
      assert Healthy(verified) == {};
    }
  }

  // The k-th available shard is the one at the k-th healthy index.
  lemma {:induction false} AvailableInOrder(verified: seq<Option<Chunk>>, j: nat)
    requires j < |Available(verified)|
    ensures |Ascending(|verified|, Healthy(verified))| == |Available(verified)|
    ensures var s := Available(verified)[j];
            s.index == Ascending(|verified|, Healthy(verified))[j] && s.index < |verified| && verified[s.index] == Some(s.bytes)
  {
    AvailableIsHealthy(verified);
    hide Ascending, Healthy;
    var k := |verified| - 1;
    var front := verified[..k];
    HealthyGrows(verified);
    AvailableIsHealthy(front);
    if j < |Available(front)| {
      AvailableInOrder(front, j);
    }
  }

  lemma {:induction false} AscendingAgrees(n: nat, a: set<nat>, b: set<nat>)
    requires forall i :: 0 <= i < n ==> (i in a <==> i in b)
    ensures Ascending(n, a) == Ascending(n, b)
  {
    if n > 0 {
      AscendingAgrees(n - 1, a, b);
    }
  }

  lemma {:induction false} AscendingMembers(n: nat, s: set<nat>)
    ensures forall i :: i in Ascending(n, s) <==> i < n && i in s
  {
    if n > 0 {
      AscendingMembers(n - 1, s);
    }
  }

  // Ascending lists each member below n once.
  lemma {:induction false} AscendingSize(n: nat, s: set<nat>)
    ensures |Ascending(n, s)| == |s * Below(n)|
  {
    if n == 0 {
      assert s * Below(0) == {};
    } else {
      AscendingSize(n - 1, s);
      AscendingEnds(n, s, |s * Below(n - 1)|, |s * Below(n)|);
    }
  }

  lemma AscendingEnds(n: nat, s: set<nat>, before: nat, after: nat)
    requires n > 0 && |Ascending(n - 1, s)| == before == |s * Below(n - 1)| && after == |s * Below(n)|
    ensures |Ascending(n, s)| == after
  {
    var meet := s * Below(n - 1);
    if n - 1 in s {
      assert s * Below(n) == meet + {n - 1};
      SetGrows(meet, n - 1);
    } else {
      assert s * Below(n) == meet;
    }
  }

  lemma AscendingStep(chunks: seq<Chunk>, n: nat, s: set<nat>)
    requires 0 < n <= |chunks|
    ensures Ascending(n, s) == Ascending(n - 1, s) + (if n - 1 in s then [n - 1] else [])
    ensures Pick(chunks, n, s) == Pick(chunks, n - 1, s) + (if n - 1 in s then [chunks[n - 1]] else [])
  {
  }

  lemma {:induction false} AscendingAt(chunks: seq<Chunk>, n: nat, s: set<nat>, j: nat)
    requires n <= |chunks| && j < |Ascending(n, s)|
    ensures |Pick(chunks, n, s)| == |Ascending(n, s)|
    ensures Ascending(n, s)[j] < n && Pick(chunks, n, s)[j] == chunks[Ascending(n, s)[j]]
    ensures j > 0 ==> Ascending(n, s)[j - 1] < Ascending(n, s)[j]
  {
    hide Ascending, Pick;
    PickSize(chunks, n, s);
    PickSize(chunks, n - 1, s);
    AscendingStep(chunks, n, s);
    var front := Ascending(n - 1, s);
    if j < |front| {
      AscendingAt(chunks, n - 1, s, j);
    } else if j > 0 {
      AscendingAt(chunks, n - 1, s, j - 1);
    }
  }

  lemma {:induction false} PickSize(chunks: seq<Chunk>, n: nat, s: set<nat>)
    requires n <= |chunks|
    ensures |Pick(chunks, n, s)| == |Ascending(n, s)|
  {
    if n > 0 {
      PickSize(chunks, n - 1, s);
    }
  }

  lemma {:induction false} PickAgrees(chunks: seq<Chunk>, n: nat, a: set<nat>, b: set<nat>)
    requires n <= |chunks| && forall i :: 0 <= i < n ==> (i in a <==> i in b)
    ensures Pick(chunks, n, a) == Pick(chunks, n, b)
  {
    if n > 0 {
      PickAgrees(chunks, n - 1, a, b);
    }
  }

  // Collecting by index and re-ordering gives back the chunks in index order.
  lemma {:induction false} OrderPicks(byIndex: map<nat, Chunk>, chunks: seq<Chunk>, n: nat, s: set<nat>)
    requires n <= |chunks|
    requires forall i :: 0 <= i < n && i in s ==> i in byIndex && byIndex[i] == chunks[i]
    ensures Order(byIndex, Ascending(n, s)) == Ok(Pick(chunks, n, s))
  {
    if n > 0 {
      OrderPicks(byIndex, chunks, n - 1, s);
      if n - 1 in s {
        var front := Ascending(n - 1, s);
        assert (front + [n - 1])[..|front|] == front;
      } else {
        assert Ascending(n, s) == Ascending(n - 1, s);
        assert Pick(chunks, n, s) == Pick(chunks, n - 1, s);
      }
    }
  }

  lemma ByIndexAppend(available: seq<Shard>, s: Shard)
    ensures ByIndex(available + [s]) == ByIndex(available)[s.index := s.bytes]
  {
    assert (available + [s])[..|available|] == available;
  }

  lemma {:induction false} ByIndexFinds(verified: seq<Option<Chunk>>, i: nat)
    requires i < |verified| && verified[i].Some?
    ensures i in ByIndex(Available(verified)) && ByIndex(Available(verified))[i] == verified[i].value
  {
    var k := |verified| - 1;
    var front := verified[..k];
    if i < k {
      ByIndexFinds(front, i);
    }
    hide ByIndex;
    if verified[k].Some? {
      ByIndexAppend(Available(front), Shard(k, verified[k].value));
    } else {
      assert Available(verified) == Available(front);
    }
  }

  // Decode, step by step.
  lemma DecodeIs(
    c: Codec, available: seq<Shard>, lost: seq<nat>, size: nat, ordered: seq<Chunk>, chunks: seq<Chunk>
  )
    requires lost != [] && forall i :: i in lost ==> i < c.config.n
    requires var left := Ascending(c.config.n, Below(c.config.n) - IndexesOf(lost));
             |available| == |left| >= c.config.k && Order(ByIndex(available), left) == Ok(ordered)
    requires c.rebuild(ordered, Ascending(c.config.n, IndexesOf(lost))) == chunks && |chunks| >= c.config.k
    requires c.spread(Flatten(chunks[..c.config.k])) == chunks
    ensures Decode(c, available, lost, size) == Ok(Decoded(chunks, Truncate(Flatten(chunks[..c.config.k]), size)))
  {
    hide Ascending, Below, ByIndex, Order, Flatten, Truncate, IndexesOf;
  }

  // Decoding any faithful selection of at least k chunks, in whatever pattern
  // the others are lost, yields every chunk and the input.
  lemma DecodeRecovers(c: Codec, input: seq<Symbol>, verified: seq<Option<Chunk>>)
    requires Lawful(c) && |input| <= c.config.k * c.config.chunkSize && |verified| == c.config.n
    requires Faithful(verified, Encode(c, input).value.chunks)
    requires |Healthy(verified)| >= c.config.k && Missing(verified) != []
    ensures Decode(c, Available(verified), Missing(verified), |input|) == Ok(Decoded(Encode(c, input).value.chunks, input))
  {
    hide Lawful, Healthy, Ascending, Below, ByIndex, Available, Missing, Pick, Order, IndexesOf, Decode, Flatten;
    var n, k := c.config.n, c.config.k;
    var padded := Pad(input, k * c.config.chunkSize);
    var chunks := c.spread(padded);
    var healthy, lost := Healthy(verified), Below(n) - Healthy(verified);
    MissingIsTheRest(verified);
    AvailableIsHealthy(verified);
    LostAndLeft(verified);
    LawApplies(c, padded, lost);
    OrderFaithful(verified, chunks);
    assert Truncate(padded, |input|) == input;
    DecodeIs(c, Available(verified), Missing(verified), |input|, Pick(chunks, n, healthy), chunks);
  }

  lemma OrderFaithful(verified: seq<Option<Chunk>>, chunks: seq<Chunk>)
    requires Faithful(verified, chunks)
    ensures Order(ByIndex(Available(verified)), Ascending(|verified|, Healthy(verified)))
            == Ok(Pick(chunks, |verified|, Healthy(verified)))
  {
    hide ByIndex, Available, Pick, Order, Ascending;
    forall i | 0 <= i < |verified| && i in Healthy(verified)
      ensures i in ByIndex(Available(verified)) && ByIndex(Available(verified))[i] == chunks[i]
    {
      ByIndexFinds(verified, i);
    }
    OrderPicks(ByIndex(Available(verified)), chunks, |verified|, Healthy(verified));
  }

  lemma LawApplies(c: Codec, padded: seq<Symbol>, lost: set<nat>)
    requires Lawful(c) && |padded| == c.config.k * c.config.chunkSize
    requires lost != {} && lost <= Below(c.config.n) && |Below(c.config.n) - lost| >= c.config.k
    ensures Systematic(c, padded) && Recoverable(c, padded, lost)
  {
    hide Systematic, Recoverable;
  }

  // The indexes reported missing are the lost ones, and what they leave is healthy.
  lemma LostAndLeft(verified: seq<Option<Chunk>>)
    requires Missing(verified) != []
    ensures var lost := Below(|verified|) - Healthy(verified);
            && IndexesOf(Missing(verified)) == lost && lost != {} && lost <= Below(|verified|)
            && Below(|verified|) - lost == Healthy(verified)
            && (forall i :: i in Missing(verified) ==> i < |verified|)
  {
    hide Missing, Ascending;
    MissingIsTheRest(verified);
    AscendingMembers(|verified|, Below(|verified|) - Healthy(verified));
    assert Missing(verified)[0] in Below(|verified|) - Healthy(verified);
  }

  lemma NothingMissing(verified: seq<Option<Chunk>>)
    requires Missing(verified) == []
    ensures Healthy(verified) == Below(|verified|) && |Available(verified)| == |verified|
    ensures forall i :: 0 <= i < |verified| ==> Some(Available(verified)[i].bytes) == verified[i] && Available(verified)[i].index == i
  {
    hide Available, Missing, Ascending;
    var n := |verified|;
    MissingIsTheRest(verified);
    AscendingMembers(n, Below(n) - Healthy(verified));
    forall i | i in Below(n) ensures i in Healthy(verified) {
      assert i !in Ascending(n, Below(n) - Healthy(verified));
    }
    assert Healthy(verified) == Below(n);
    AscendingAll(n, Healthy(verified));
    AvailableIsHealthy(verified);
    forall i | 0 <= i < n ensures Some(Available(verified)[i].bytes) == verified[i] && Available(verified)[i].index == i {
      AvailableInOrder(verified, i);
    }
  }

  // Without loss the concatenated data shards are the padded input, so the
  // fast path returns what decoding would.
  lemma FastPathRecovers(c: Codec, input: seq<Symbol>, verified: seq<Option<Chunk>>)
    requires Lawful(c) && |input| <= c.config.k * c.config.chunkSize && |verified| == c.config.n
    requires Faithful(verified, Encode(c, input).value.chunks) && Missing(verified) == []
    ensures Assemble(c, c.config.k, |input|, Available(verified), Missing(verified)) == Ok(Content(input, [], []))
    ensures |Healthy(verified)| == c.config.n
  {
    var n, k := c.config.n, c.config.k;
    var padded := Pad(input, k * c.config.chunkSize);
    var chunks := c.spread(padded);
    assert Systematic(c, padded);
    hide Healthy, Available, Missing, Lawful, Flatten, DataShards;
    NothingMissing(verified);
    BelowSize(n);
    var available := Available(verified);
    forall i | 0 <= i < n ensures available[i] == Shard(i, chunks[i]) {
      assert verified[i] == Some(chunks[i]);
    }
    DataShardsFirst(available, chunks, n, k);
    assert available[..n] == available;
    assert Truncate(padded, |input|) == input;
  }

  lemma {:induction false} DataShardsFirst(available: seq<Shard>, chunks: seq<Chunk>, j: nat, k: nat)
    requires |available| == |chunks| && j <= |chunks| && k <= |chunks|
    requires forall i :: 0 <= i < |chunks| ==> available[i] == Shard(i, chunks[i])
    ensures DataShards(available[..j], k) == chunks[..if j < k then j else k]
  {
    if j > 0 {
      DataShardsFirst(available, chunks, j - 1, k);
      assert available[..j][..j - 1] == available[..j - 1];
    }
  }

  lemma {:induction false} AscendingAll(n: nat, s: set<nat>)
    requires forall i :: 0 <= i < n ==> i in s
    ensures |Ascending(n, s)| == n && forall i :: 0 <= i < n ==> Ascending(n, s)[i] == i
  {
    if n > 0 {
      AscendingAll(n - 1, s);
    }
  }

  // For every input up to capacity and every pattern of losses: with at least
  // k verified shards the read returns the input, and every lost chunk as it
  // was; with fewer it is refused.
  lemma ReadReturnsInput(c: Codec, input: seq<Symbol>, verified: seq<Option<Chunk>>)
    requires Lawful(c) && |input| <= c.config.k * c.config.chunkSize && |verified| == c.config.n
    requires Faithful(verified, Encode(c, input).value.chunks)
    ensures var r := Assemble(c, c.config.k, |input|, Available(verified), Missing(verified));
            && (r.Ok? <==> |Healthy(verified)| >= c.config.k)
            && (r.Ok? ==> r.value.bytes == input && r.value.missing == Missing(verified)
                          && (r.value.missing != [] ==> r.value.chunks == Encode(c, input).value.chunks))
  {
    AvailableIsHealthy(verified);
    if |Healthy(verified)| >= c.config.k {
      if Missing(verified) == [] {
        FastPathRecovers(c, input, verified);
      } else {
        DecodeRecovers(c, input, verified);
      }
    }
  }
}
