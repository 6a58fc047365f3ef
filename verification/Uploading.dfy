// The upload path: check the registration, encode, place every shard,
// finalize, and settle what the providers have earned.
module Uploading {
  import opened Prelude
  import opened Blob
  import opened BlobInvariants
  import opened Protocol
  import opened Ledgers
  import opened Invariants
  import opened Registry
  import opened Erasure
  import opened Storage
  import opened Nodes
  import opened Placement
  import opened Settling
  import opened Reading

  datatype Placed = Placed(receipts: seq<Receipt>, settlements: seq<Settlement>)

  // What a paid placement leaves: every shard claimed once, and the payment
  // settled as far as the clock allows.
  ghost predicate SettledUp(e0: Entry, e: Entry, now: nat, settlements: seq<Settlement>) {
    var p, recorded := e.payment, RecordedTotal(settlements);
    && settlements == RecordsOf(e0.payment.rewardPerShard, GroupsUpTo(e.placement, e.terms.totalShards))
    && recorded == e0.payment.rewardPerShard * e0.terms.totalShards
    && e.immediate == Below(e.terms.totalShards)
    && (now < e.terms.expiresAt ==> p.status.PartiallySettled? && p.providerSettled == recorded && e.reserve == {})
    && (now >= e.terms.expiresAt ==> p.status.Settled? && p.providerSettled == p.providerPool && recorded < p.providerPool)
  }

  // A freshly placed blob is ready for the settlement pass.
  lemma PlacedIsSettleable(
    s0: State, s: State, sender: Address, id: Hash, nodes: seq<Node>, chunks: seq<Chunk>, disks: Shelves
  )
    requires Valid(s0) && Valid(s) && OnlyBlob(s0, s, id) && DistinctIds(nodes)
    requires FinallyPlaced(s0.entries[id], s.entries[id], nodes, chunks) && Kept(s.entries[id], id, nodes, chunks, disks)
    requires Ready(s0, sender, s0.entries[id], nodes, chunks)
    ensures var e0, e := s0.entries[id], s.entries[id];
            && (e0.payment.status.Escrowed? ==> Settleable(s, e, nodes))
            && (!e0.payment.status.Escrowed? ==> !e.payment.status.Claimable? && !e.payment.status.PartiallySettled?)
            && e.placement.Keys == Below(e.terms.totalShards)
            && e.payment.rewardPerShard == e0.payment.rewardPerShard && e.terms == e0.terms && s.now == s0.now
            && Sound(e) && Timely(e, s.now)
  {
    hide Valid, Sound, Timely, PlacedWith, FindNode, Chosen, DistinctIds, StoredAs;
    var e0, e := s0.entries[id], s.entries[id];
    ValidSlots(s0, id);
    ValidSlots(s, id);
    PlacementIsWhole(e);
    FreshPayment(e0, e);
    forall i | i in e.placement
      ensures FindNode(nodes, e.placement[i]).Some? && NodeReady(s, FindNode(nodes, e.placement[i]).value)
    {
      PlacedNode(e0, e, nodes, chunks, i);
    }
  }

  lemma PlacementIsWhole(e: Entry)
    requires Sound(e) && e.status.Active?
    ensures e.placement.Keys == Below(e.terms.totalShards)
  {
    hide Lockstep;
  }

  lemma FreshPayment(e0: Entry, e: Entry)
    requires Sound(e0) && Sound(e) && e.status.Active? && e0.status.Pending?
    requires e.payment == if e0.payment.status.Escrowed? then e0.payment.(status := Claimable) else e0.payment
    requires e.immediate == e0.immediate && e.reserve == e0.reserve && e.terms == e0.terms
    ensures !e0.payment.status.Escrowed? ==> !e.payment.status.Claimable? && !e.payment.status.PartiallySettled?
  {
  }

  lemma FinallyPlacedIs(e0: Entry, e: Entry, nodes: seq<Node>, chunks: seq<Chunk>)
    requires FinallyPlaced(e0, e, nodes, chunks)
    ensures e.status.Active? && AllAcked(e) && e.terms == e0.terms && e.owner == e0.owner && e.origin == e0.origin
    ensures e.payment.rewardPerShard == e0.payment.rewardPerShard
    ensures e0.payment.status.Escrowed? ==> e.payment.status.Claimable?
  {
    hide Chosen;
  }

  // Being paid moves no shard.
  lemma OnlyPaidIs(s: State, s': State, id: Hash, nodes: seq<Node>, chunks: seq<Chunk>, disks: Shelves)
    requires OnlyPaid(s, s', id)
    ensures id in s'.entries && SameSlots(s.entries[id], s'.entries[id])
    ensures AllAcked(s.entries[id]) ==> AllAcked(s'.entries[id])
    ensures Kept(s.entries[id], id, nodes, chunks, disks) ==> Kept(s'.entries[id], id, nodes, chunks, disks)
    ensures s'.entries[id].placement == s.entries[id].placement
  {
    hide StoredAs, FindNode;
  }

  lemma PositionFrame(e0: Entry, e: Entry, e': Entry, nodes: seq<Node>, chunks: seq<Chunk>)
    requires e'.placement == e.placement
    ensures InPosition(e0, e, nodes, |chunks|) ==> InPosition(e0, e', nodes, |chunks|)
    ensures forall receipts :: ReceiptsOf(e, chunks, receipts) ==> ReceiptsOf(e', chunks, receipts)
  {
  }

  // The whole pass over a freshly placed blob settles it up.
  lemma PassSettlesUp(e0: Entry, s: State, s': State, id: Hash, nodes: seq<Node>)
    requires id in s.entries
    requires var e := s.entries[id];
             && Sound(e) && Timely(e, s.now) && e.payment.status.Claimable? && e.placement.Keys == Below(e.terms.totalShards)
             && e0.payment.rewardPerShard == e.payment.rewardPerShard && e0.terms == e.terms
    requires var groups := GroupsUpTo(s.entries[id].placement, s.entries[id].terms.totalShards);
             PassAt(s, s', id, nodes, groups, |groups|)
    ensures var e := s.entries[id];
            id in s'.entries && SettledUp(e0, s'.entries[id], s.now,
              RecordsOf(e.payment.rewardPerShard, GroupsUpTo(e.placement, e.terms.totalShards)))
  {
    hide Sound, Timely, Paying, Grouped, GroupsUpTo, RecordedTotal, RecordsOf, PayoutsFor;
    var e := s.entries[id];
    var groups := GroupsUpTo(e.placement, e.terms.totalShards);
    GroupsAreGrouped(e.placement, e.terms.totalShards);
    FreshTotals(e, s'.entries[id], s.now, groups);
    PayingIs(e, s'.entries[id], Covered(groups, |groups|), s.now);
  }

  // A fresh payment either pays every group or, at the first, none.
  lemma FreshPass(s: State, id: Hash)
    requires id in s.entries
    requires var e := s.entries[id]; Sound(e) && Timely(e, s.now) && e.payment.status.Claimable?
    ensures var e := s.entries[id];
            var groups := GroupsUpTo(e.placement, e.terms.totalShards);
            Leading(e, s.now, groups) == if WorthClaiming(e, s.now) then |groups| else 0
  {
    hide Sound, Timely, Grouped, Leading, GroupsUpTo;
    var e := s.entries[id];
    GroupsAreGrouped(e.placement, e.terms.totalShards);
    FreshGains(e, s.now, GroupsUpTo(e.placement, e.terms.totalShards));
  }

  lemma HasGroups(e: Entry)
    requires Sound(e) && e.placement.Keys == Below(e.terms.totalShards)
    ensures GroupsUpTo(e.placement, e.terms.totalShards) != []
  {
    hide Lockstep, GroupsUpTo;
    var n := e.terms.totalShards;
    GroupsAreGrouped(e.placement, n);
    AllCovered(GroupsUpTo(e.placement, n), e.placement, n);
    BelowIsNotEmpty(n);
  }

  // Finalized and unpaid: the shards are placed, acknowledged and stored, and
  // the escrow has become claimable, but nobody could claim it yet.
  ghost predicate Stuck(e0: Entry, e: Entry) {
    && SameDeal(e0, e) && e.status.Active? && AllAcked(e)
    && e.payment == e0.payment.(status := Claimable) && e.immediate == e0.immediate && e.reserve == e0.reserve
  }

  lemma PlacedIsStuck(e0: Entry, e: Entry, nodes: seq<Node>, chunks: seq<Chunk>)
    requires FinallyPlaced(e0, e, nodes, chunks) && e0.payment.status.Escrowed?
    ensures Stuck(e0, e)
  {
    hide Chosen, Confirmed;
  }

  lemma SameLedger(s: State, s': State, id: Hash)
    requires OnlyBlob(s, s', id)
    ensures s'.ledger == s.ledger
  {
  }

  method PlaceEncodedBlob(registry: PrimeServerRegistry, sender: Address, id: Hash, chunks: seq<Chunk>, nodes: seq<Node>)
    returns (r: Result<Placed, Fault>)
    requires Valid(registry.View()) && AllIntact(Views(nodes))
    requires |chunks| < 0x100 && forall i :: 0 <= i < |chunks| ==> |chunks[i]| < 0x1_0000_0000_0000_0000
    modifies registry, Disks(nodes)
    ensures Valid(registry.View()) && AllIntact(Views(nodes))
    ensures id !in old(registry.entries) ==> r.Err? && registry.View() == old(registry.View())
    ensures id in old(registry.entries) ==>
              && id in registry.entries
              && var e0, e := old(registry.entries[id]), registry.entries[id];
                 var placed := e.terms == e0.terms && e.owner == e0.owner && e.origin == e0.origin && e.status.Active? && AllAcked(e)
                               && |nodes| == 4 && InPosition(e0, e, nodes, |chunks|)
                               && (DistinctIds(nodes) ==> Kept(e, id, nodes, chunks, Views(nodes)));
                 && (r.Ok? ==> placed && ReceiptsOf(e, chunks, r.value.receipts))
                 && (r.Err? ==> placed || (Unfinished(e0, e) && registry.View().ledger == old(registry.View()).ledger))
    ensures id in old(registry.entries) && |nodes| == 4 && DistinctIds(nodes)
            && Ready(old(registry.View()), sender, old(registry.entries[id]), nodes, chunks)
            && old(Tidy(registry.entries[id], registry.entries[id], id, nodes, chunks, Views(nodes))) ==>
              var e0, now := old(registry.entries[id]), old(registry.now);
              && (r.Ok? <==> !e0.payment.status.Escrowed? || WorthClaiming(e0, now))
              && (r.Ok? && e0.payment.status.Escrowed? ==> SettledUp(e0, registry.entries[id], now, r.value.settlements))
              && (r.Err? ==>
                    && Stuck(e0, registry.entries[id]) && Kept(registry.entries[id], id, nodes, chunks, Views(nodes))
                    && registry.View().ledger == old(registry.View()).ledger)
  {
    hide Valid, AllIntact, Ready, Tidy, Kept, FinallyPlaced, OnlyBlob, OnlyPaid, Settleable, SettledUp, Passed, PassAt, Leading,
      InPosition, ReceiptsOf,
      Grouped, GroupsUpTo, DistinctIds, AllAcked, Shelved, ReceiptsFor, Stuck, Sound, Timely, Unfinished;
    ghost var s0 := registry.View();
    var receipts := PlaceShards(registry, sender, id, chunks, nodes);
    if receipts.Err? {
      if id in s0.entries {
        OnlyBlobIs(s0, registry.View(), id);
        SameLedger(s0, registry.View(), id);
      }
      return Err(receipts.error);
    }
    ghost var s1, disks := registry.View(), Views(nodes);
    OnlyBlobIs(s0, s1, id);
    SameLedger(s0, s1, id);
    ghost var e0, e1 := s0.entries[id], s1.entries[id];
    FinallyPlacedIs(e0, e1, nodes, chunks);
    ghost var sure := DistinctIds(nodes) && Ready(s0, sender, e0, nodes, chunks);
    if sure {
      PlacedIsSettleable(s0, s1, sender, id, nodes, chunks, disks);
      HasGroups(e1);
      if e0.payment.status.Escrowed? {
        PlacedIsStuck(e0, e1, nodes, chunks);
        SettleableIsOpen(s1, e1, nodes);
        FreshPass(s1, id);
      }
    }
    var settlements := SettleClaims(registry, id, nodes);
    OnlyPaidIs(s1, registry.View(), id, nodes, chunks, disks);
    PositionFrame(e0, e1, registry.entries[id], nodes, chunks);
    if settlements.Err? {
      return Err(settlements.error);
    }
    if sure && e0.payment.status.Escrowed? {
      PassSettlesUp(e0, s1, registry.View(), id, nodes);
    }
    r := Ok(Placed(receipts.value, settlements.value));
  }

  // ---- Uploading a registered blob ----

  // The checks on the registration, in their order; `root` is the erasure
  // engine's commitment to a list of chunks.
  function CheckRegistration(
    e: Entry, id: Hash, name: seq<Byte>, account: Address, clock: nat, input: seq<Symbol>, c: Codec, root: seq<Chunk> -> Hash
  ): Option<Fault> {
    if e.terms.blobId != id then Some(Refused(WrongBlob))
    else if !e.origin.User? then Some(Refused(NotUserRegistered))
    else if e.owner != account then Some(Refused(WrongAccount))
    else if e.terms.name != name then Some(Refused(WrongName))
    else if !e.status.Pending? then Some(Refused(NoLongerPending))
    else if 0 < e.terms.expiresAt <= clock then Some(Refused(RegistrationExpired))
    else if e.terms.size != |input| then Some(Refused(WrongSize))
    else
      match Encode(c, input)
      case Err(reason) => Some(EncodingFailed(reason))
      case Ok(encoded) =>
        if root(encoded.chunks) != e.terms.commitment then Some(Refused(WrongCommitment))
        else if c.config.chunkSize != e.terms.chunkSize || c.config.k != e.terms.dataShards || c.config.n != e.terms.totalShards
        then Some(Refused(UnsupportedParameters))
        else None
  }

  // The registration is this user's, still open, and for exactly this content
  // under exactly these parameters.
  ghost predicate Agrees(
    e: Entry, id: Hash, name: seq<Byte>, account: Address, clock: nat, input: seq<Symbol>, c: Codec, root: seq<Chunk> -> Hash
  ) {
    && e.terms.blobId == id && e.origin.User? && e.owner == account && e.terms.name == name
    && e.status.Pending? && (e.terms.expiresAt == 0 || e.terms.expiresAt > clock)
    && e.terms.size == |input| && |input| <= c.config.k * c.config.chunkSize
    && e.terms.commitment == root(c.spread(input + seq(c.config.k * c.config.chunkSize - |input|, _ => 0)))
    && e.terms.chunkSize == c.config.chunkSize && e.terms.dataShards == c.config.k && e.terms.totalShards == c.config.n
  }

  lemma NotRefused(
    e: Entry, id: Hash, name: seq<Byte>, account: Address, clock: nat, input: seq<Symbol>, c: Codec, root: seq<Chunk> -> Hash
  )
    ensures CheckRegistration(e, id, name, account, clock, input, c, root).None?
       <==> Agrees(e, id, name, account, clock, input, c, root)
  {
    var capacity := c.config.k * c.config.chunkSize;
    if |input| <= capacity {
      assert Pad(input, capacity) == input + seq(capacity - |input|, _ => 0);
    }
  }

  // A refusal names something that is really amiss.
  lemma RefusedForReason(
    e: Entry, id: Hash, name: seq<Byte>, account: Address, clock: nat, input: seq<Symbol>, c: Codec, root: seq<Chunk> -> Hash
  )
    requires CheckRegistration(e, id, name, account, clock, input, c, root).Some?
    ensures match CheckRegistration(e, id, name, account, clock, input, c, root).value
            case Refused(WrongBlob) => e.terms.blobId != id
            case Refused(NotUserRegistered) => e.origin.Operator?
            case Refused(WrongAccount) => e.owner != account
            case Refused(WrongName) => e.terms.name != name
            case Refused(NoLongerPending) => !e.status.Pending?
            case Refused(RegistrationExpired) => 0 < e.terms.expiresAt <= clock
            case Refused(WrongSize) => e.terms.size != |input|
            case Refused(WrongCommitment) =>
              |input| <= c.config.k * c.config.chunkSize && e.terms.commitment != root(c.spread(Pad(input, c.config.k * c.config.chunkSize)))
            case Refused(UnsupportedParameters) =>
              e.terms.chunkSize != c.config.chunkSize || e.terms.dataShards != c.config.k || e.terms.totalShards != c.config.n
            case EncodingFailed(InputTooLarge) => |input| > c.config.k * c.config.chunkSize
            case _ => false
  {
    hide Pad;
  }

  lemma CheckedFits(
    e: Entry, id: Hash, name: seq<Byte>, account: Address, clock: nat, input: seq<Symbol>, c: Codec, root: seq<Chunk> -> Hash
  )
    requires Lawful(c) && CheckRegistration(e, id, name, account, clock, input, c, root).None?
    ensures Encode(c, input).Ok? && |input| <= c.config.k * c.config.chunkSize
    ensures var chunks := Encode(c, input).value.chunks;
            && |chunks| == e.terms.totalShards == c.config.n && e.terms.dataShards == c.config.k
            && e.terms.chunkSize == c.config.chunkSize && e.terms.size == |input|
            && forall i :: 0 <= i < |chunks| ==> |chunks[i]| == e.terms.chunkSize
  {
    assert Systematic(c, Pad(input, c.config.k * c.config.chunkSize));
    hide Flatten;
  }

  // A kept blob that passed the checks is the encoding of the input.
  lemma KeptIsEncoded(
    e0: Entry, e: Entry, id: Hash, name: seq<Byte>, account: Address, clock: nat, input: seq<Symbol>, c: Codec,
    root: seq<Chunk> -> Hash, nodes: seq<Node>, disks: Shelves
  )
    requires Lawful(c) && CheckRegistration(e0, id, name, account, clock, input, c, root).None? && e.terms == e0.terms
    requires Encode(c, input).Ok? && Kept(e, id, nodes, Encode(c, input).value.chunks, disks)
    ensures EncodedAs(e, c, input)
    ensures var content := ReadOutcome(c, e, id, nodes, disks);
            content.Ok? && content.value.bytes == input && content.value.missing == []
  {
    CheckedFits(e0, id, name, account, clock, input, c, root);
    hide CheckRegistration, Lawful, Systematic, FindNode, StoredAs, Assemble, Available, Missing, VerifiedShard, Healthy;
    KeptIsHealthy(e, c, input, id, nodes, disks);
    BelowSize(c.config.n);
    LawfulSizes(c);
    ReadsBack(e, c, input, id, nodes, disks);
    NothingLost(VerifiedShards(e, id, nodes, disks));
  }

  // ---- Losing providers ----

  // Shard `i` is with the provider in position `i`, for every shard.
  ghost predicate SpreadOut(e: Entry, nodes: seq<Node>, n: nat) {
    forall i :: 0 <= i < n ==> i in e.placement && i < |nodes| && e.placement[i] == nodes[i].providerId
  }

  // What an earlier run placed, it placed in position.
  ghost predicate PlacedInOrder(e: Entry, nodes: seq<Node>) {
    forall i :: i in e.placement ==> i < |nodes| && e.placement[i] == nodes[i].providerId
  }

  lemma PositionsSpread(e0: Entry, e: Entry, nodes: seq<Node>, n: nat)
    requires InPosition(e0, e, nodes, n) && PlacedInOrder(e0, nodes)
    ensures SpreadOut(e, nodes, n)
  {
    forall i | 0 <= i < n ensures i in e.placement && i < |nodes| && e.placement[i] == nodes[i].providerId {
      assert i in e0.placement ==> i < |nodes|;
    }
  }

  // The directories of all providers but the `lost` ones are as they were; the
  // others may hold anything, or be gone.
  ghost predicate Lost(nodes: seq<Node>, disks: Shelves, after: Shelves, lost: set<nat>) {
    forall i :: 0 <= i < |nodes| && i !in lost && nodes[i].storage in disks ==>
      nodes[i].storage in after && after[nodes[i].storage] == disks[nodes[i].storage]
  }

  ghost predicate DistinctDisks(nodes: seq<Node>) {
    forall i, j :: 0 <= i < j < |nodes| ==> nodes[i].storage != nodes[j].storage
  }

  // The first node with this directory.
  ghost function KeeperOf(nodes: seq<Node>, st: ProviderStorage): (k: nat)
    ensures k <= |nodes| && (k < |nodes| ==> nodes[k].storage == st) && forall j :: 0 <= j < k ==> nodes[j].storage != st
  {
    if nodes == [] || nodes[0].storage == st then 0 else KeeperOf(nodes[1..], st) + 1
  }

  // The directories with those of the `lost` nodes emptied, or filled with
  // whatever `contents` has for them.
  ghost function Replaced(nodes: seq<Node>, disks: Shelves, lost: set<nat>, contents: map<nat, Disk>): Shelves {
    map st | st in disks ::
      var k := KeeperOf(nodes, st);
      if k < |nodes| && k in lost then (if k in contents then contents[k] else Disk(map[], map[])) else disks[st]
  }

  // The blob reads back whichever n - k providers are lost, and whatever they
  // serve instead.
  ghost predicate Survives(e: Entry, c: Codec, input: seq<Symbol>, id: Hash, nodes: seq<Node>, disks: Shelves) {
    forall lost: set<nat>, contents: map<nat, Disk> :: |lost| + c.config.k <= c.config.n ==>
      var content := ReadOutcome(c, e, id, nodes, Replaced(nodes, disks, lost, contents));
      content.Ok? && content.value.bytes == input
  }

  lemma KeptVerifies(
    e: Entry, c: Codec, input: seq<Symbol>, id: Hash, nodes: seq<Node>, disks: Shelves, after: Shelves, lost: set<nat>, i: nat
  )
    requires EncodedAs(e, c, input) && Kept(e, id, nodes, Encode(c, input).value.chunks, disks)
    requires SpreadOut(e, nodes, c.config.n) && DistinctIds(nodes) && Lost(nodes, disks, after, lost)
    requires i < c.config.n && i !in lost
    ensures VerifiedShard(e, id, nodes, after, i).Some?
  {
    hide Encode, DistinctIds, FindNode;
    assert i in e.placement && i < |nodes|;
    FindsEach(nodes, i);
  }

  lemma LossSurvived(
    e: Entry, c: Codec, input: seq<Symbol>, id: Hash, nodes: seq<Node>, disks: Shelves, after: Shelves, lost: set<nat>
  )
    requires Lawful(c) && EncodedAs(e, c, input) && Kept(e, id, nodes, Encode(c, input).value.chunks, disks)
    requires SpreadOut(e, nodes, c.config.n) && DistinctIds(nodes) && Lost(nodes, disks, after, lost)
    requires |lost| + c.config.k <= c.config.n
    ensures var content := ReadOutcome(c, e, id, nodes, after); content.Ok? && content.value.bytes == input
  {
    hide Encode, DistinctIds, FindNode, Kept, Lost, SpreadOut, Lawful, VerifiedShard, ReadOutcome, Below;
    var verified, all := VerifiedShards(e, id, nodes, after), Below(c.config.n);
    forall i | i in all - lost ensures i in Healthy(verified) {
      KeptVerifies(e, c, input, id, nodes, disks, after, lost, i);
      assert verified[i].Some?;
    }
    BelowSize(c.config.n);
    assert all == (all - lost) + (all * lost);
    SubsetSize(all * lost, lost);
    SubsetSize(all - lost, Healthy(verified));
    ReadsBack(e, c, input, id, nodes, after);
  }

  lemma SpreadSurvives(e: Entry, c: Codec, input: seq<Symbol>, id: Hash, nodes: seq<Node>, disks: Shelves)
    requires Lawful(c) && EncodedAs(e, c, input) && Kept(e, id, nodes, Encode(c, input).value.chunks, disks)
    requires SpreadOut(e, nodes, c.config.n) && DistinctIds(nodes) && DistinctDisks(nodes)
    ensures Survives(e, c, input, id, nodes, disks)
  {
    hide Lawful, EncodedAs, Kept, SpreadOut, DistinctIds, DistinctDisks, Lost, Replaced, ReadOutcome, Encode;
    forall lost: set<nat>, contents: map<nat, Disk> | |lost| + c.config.k <= c.config.n
      ensures var content := ReadOutcome(c, e, id, nodes, Replaced(nodes, disks, lost, contents));
              content.Ok? && content.value.bytes == input
    {
      ReplacedIsLost(nodes, disks, lost, contents);
      LossSurvived(e, c, input, id, nodes, disks, Replaced(nodes, disks, lost, contents), lost);
    }
  }

  lemma ReplacedIsLost(nodes: seq<Node>, disks: Shelves, lost: set<nat>, contents: map<nat, Disk>)
    requires DistinctDisks(nodes)
    ensures Lost(nodes, disks, Replaced(nodes, disks, lost, contents), lost)
  {
    forall i | 0 <= i < |nodes| ensures KeeperOf(nodes, nodes[i].storage) == i {
      KeeperIs(nodes, i);
    }
  }

  lemma KeeperIs(nodes: seq<Node>, i: nat)
    requires DistinctDisks(nodes) && i < |nodes|
    ensures KeeperOf(nodes, nodes[i].storage) == i
  {
  }

  // With a directory each, emptying some of them loses exactly their shards:
  // the read succeeds if and only if no more than n - k are emptied.
  lemma LossTolerance(e: Entry, c: Codec, input: seq<Symbol>, id: Hash, nodes: seq<Node>, disks: Shelves, lost: set<nat>)
    requires Lawful(c) && EncodedAs(e, c, input) && Kept(e, id, nodes, Encode(c, input).value.chunks, disks)
    requires SpreadOut(e, nodes, c.config.n) && DistinctIds(nodes) && DistinctDisks(nodes) && lost <= Below(c.config.n)
    ensures var content := ReadOutcome(c, e, id, nodes, Replaced(nodes, disks, lost, map[]));
            && (content.Ok? <==> |lost| + c.config.k <= c.config.n)
            && (content.Ok? ==> content.value.bytes == input)
  {
    hide Encode, DistinctIds, DistinctDisks, Kept, SpreadOut, Lawful, VerifiedShard, ReadOutcome, Below, Replaced, Lost;
    var n, after := c.config.n, Replaced(nodes, disks, lost, map[]);
    var verified, all := VerifiedShards(e, id, nodes, after), Below(n);
    ReplacedIsLost(nodes, disks, lost, map[]);
    forall i | 0 <= i < n ensures i in Healthy(verified) <==> i !in lost {
      if i in lost {
        EmptiedFails(e, id, nodes, disks, lost, i, n);
      } else {
        KeptVerifies(e, c, input, id, nodes, disks, after, lost, i);
      }
      assert verified[i] == VerifiedShard(e, id, nodes, after, i);
    }
    assert Healthy(verified) == all - lost;
    BelowSize(n);
    assert all == (all - lost) + lost;
    ReadsBack(e, c, input, id, nodes, after);
  }

  lemma EmptiedFails(e: Entry, id: Hash, nodes: seq<Node>, disks: Shelves, lost: set<nat>, i: nat, n: nat)
    requires SpreadOut(e, nodes, n) && DistinctIds(nodes) && DistinctDisks(nodes) && i in lost && i < n
    ensures VerifiedShard(e, id, nodes, Replaced(nodes, disks, lost, map[]), i).None?
  {
    hide DistinctIds, DistinctDisks, FindNode, KeeperOf;
    assert i in e.placement && i < |nodes|;
    FindsEach(nodes, i);
    KeeperIs(nodes, i);
  }

  lemma LawfulSizes(c: Codec)
    requires Lawful(c)
    ensures c.config.k <= c.config.n
  {
    hide Systematic, Recoverable;
  }

  lemma NothingLost(verified: seq<Option<Chunk>>)
    requires Healthy(verified) == Below(|verified|)
    ensures Missing(verified) == []
  {
    hide Missing, Healthy;
    MissingIsTheRest(verified);
    var none: set<nat> := {};
    assert Below(|verified|) - Healthy(verified) == none && none * Below(|verified|) == {};
    AscendingSize(|verified|, none);
  }

  lemma StuckIs(e0: Entry, e: Entry)
    requires Stuck(e0, e)
    ensures e.terms == e0.terms && e.owner == e0.owner && e.origin == e0.origin && e.status.Active? && AllAcked(e)
  {
    hide AllAcked;
  }

  // Once finalized, the same upload is refused at any later time: the blob is
  // no longer pending.
  lemma RetryIsRefused(
    e0: Entry, e: Entry, id: Hash, name: seq<Byte>, account: Address, clock: nat, later: nat, input: seq<Symbol>, c: Codec,
    root: seq<Chunk> -> Hash
  )
    requires CheckRegistration(e0, id, name, account, clock, input, c, root).None?
    requires e.terms == e0.terms && e.owner == e0.owner && e.origin == e0.origin && !e.status.Pending?
    ensures CheckRegistration(e, id, name, account, later, input, c, root) == Some(Refused(NoLongerPending))
  {
    hide Encode;
  }

  // What a finalized upload has achieved, whether or not it was settled: the
  // blob reads back as the input, and the upload cannot be run again.
  ghost predicate Uploaded(
    e: Entry, id: Hash, name: seq<Byte>, account: Address, input: seq<Symbol>, c: Codec, root: seq<Chunk> -> Hash,
    nodes: seq<Node>, disks: Shelves
  ) {
    && e.status.Active? && AllAcked(e)
    && (forall later :: CheckRegistration(e, id, name, account, later, input, c, root) == Some(Refused(NoLongerPending)))
    && (DistinctIds(nodes) ==>
          && EncodedAs(e, c, input)
          && var content := ReadOutcome(c, e, id, nodes, disks);
             content.Ok? && content.value.bytes == input && content.value.missing == [])
  }

  lemma PlacedIsUploaded(
    e0: Entry, e: Entry, id: Hash, name: seq<Byte>, account: Address, clock: nat, input: seq<Symbol>, c: Codec,
    root: seq<Chunk> -> Hash, nodes: seq<Node>, disks: Shelves
  )
    requires Lawful(c) && CheckRegistration(e0, id, name, account, clock, input, c, root).None? && Encode(c, input).Ok?
    requires e.terms == e0.terms && e.owner == e0.owner && e.origin == e0.origin && e.status.Active? && AllAcked(e)
    requires DistinctIds(nodes) ==> Kept(e, id, nodes, Encode(c, input).value.chunks, disks)
    ensures Uploaded(e, id, name, account, input, c, root, nodes, disks)
  {
    hide Lawful, CheckRegistration, AllAcked, DistinctIds, Kept, EncodedAs, ReadOutcome;
    forall later ensures CheckRegistration(e, id, name, account, later, input, c, root) == Some(Refused(NoLongerPending)) {
      RetryIsRefused(e0, e, id, name, account, clock, later, input, c, root);
    }
    if DistinctIds(nodes) {
      KeptIsEncoded(e0, e, id, name, account, clock, input, c, root, nodes, disks);
    }
  }

  // From registration to readable blob. A registration that fails its checks
  // is refused without a trace. Otherwise the blob ends either finalized,
  // readable and closed to another upload, which every success implies, or as
  // before but for placements and acknowledgements. With ready providers it is
  // always finalized, and the call succeeds unless a payment is due that
  // nobody would gain from claiming; then only the settlement is missing.
  method UploadRegisteredBlob(
    registry: PrimeServerRegistry, sender: Address, account: Address, id: Hash, name: seq<Byte>, clock: nat,
    input: seq<Symbol>, c: Codec, root: seq<Chunk> -> Hash, nodes: seq<Node>
  ) returns (r: Result<Placed, Fault>)
    requires Valid(registry.View()) && AllIntact(Views(nodes)) && Lawful(c)
    modifies registry, Disks(nodes)
    ensures Valid(registry.View()) && AllIntact(Views(nodes))
    ensures id !in old(registry.entries) ==> r == Err(BlobNotFound) && registry.View() == old(registry.View())
    ensures id in old(registry.entries) ==>
              var e0 := old(registry.entries[id]);
              var fault := CheckRegistration(e0, id, name, account, clock, input, c, root);
              && id in registry.entries
              && (fault.Some? ==> r == Err(fault.value) && registry.View() == old(registry.View()))
              && (fault.None? ==>
                    || Uploaded(registry.entries[id], id, name, account, input, c, root, nodes, Views(nodes))
                    || (r.Err? && Unfinished(e0, registry.entries[id]) && registry.View().ledger == old(registry.View()).ledger))
              && (r.Ok? ==> Uploaded(registry.entries[id], id, name, account, input, c, root, nodes, Views(nodes)))
    ensures id in old(registry.entries) ==>
              var e0, e := old(registry.entries[id]), registry.entries[id];
              && (registry.View() != old(registry.View()) || r.Ok? ==> Agrees(e0, id, name, account, clock, input, c, root))
              && (e != e0 && !e.status.Pending? && DistinctIds(nodes) && DistinctDisks(nodes) && PlacedInOrder(e0, nodes) ==>
                    SpreadOut(e, nodes, c.config.n) && Survives(e, c, input, id, nodes, Views(nodes)))
    ensures id in old(registry.entries) ==>
              var e0, now := old(registry.entries[id]), old(registry.now);
              && CheckRegistration(e0, id, name, account, clock, input, c, root).None? && |nodes| == 4 && DistinctIds(nodes)
              && Encode(c, input).Ok? && Ready(old(registry.View()), sender, e0, nodes, Encode(c, input).value.chunks)
              && old(Tidy(registry.entries[id], registry.entries[id], id, nodes, Encode(c, input).value.chunks, Views(nodes)))
              ==>
                && (r.Ok? <==> !e0.payment.status.Escrowed? || WorthClaiming(e0, now))
                && Uploaded(registry.entries[id], id, name, account, input, c, root, nodes, Views(nodes))
                && (r.Err? ==> Stuck(e0, registry.entries[id]) && registry.View().ledger == old(registry.View()).ledger)
  {
    hide Valid, AllIntact, Ready, Tidy, Kept, WorthClaiming, SettledUp, DistinctIds, AllAcked, Lawful, EncodedAs, ReadOutcome,
      CheckRegistration, Uploaded, Stuck, Unfinished, InPosition, ReceiptsOf, Survives, SpreadOut, PlacedInOrder,
      DistinctDisks, Agrees;
    if id !in registry.entries {
      return Err(BlobNotFound);
    }
    var e0 := registry.entries[id];
    var fault := CheckRegistration(e0, id, name, account, clock, input, c, root);
    if fault.Some? {
      return Err(fault.value);
    }
    NotRefused(e0, id, name, account, clock, input, c, root);
    CheckedFits(e0, id, name, account, clock, input, c, root);
    var encoded := Encode(c, input).value;
    r := PlaceEncodedBlob(registry, sender, id, encoded.chunks, nodes);
    ghost var e := registry.entries[id];
    if Stuck(e0, e) {
      StuckIs(e0, e);
    }
    if e.terms == e0.terms && e.owner == e0.owner && e.origin == e0.origin && e.status.Active? && AllAcked(e)
       && InPosition(e0, e, nodes, |encoded.chunks|) && (DistinctIds(nodes) ==> Kept(e, id, nodes, encoded.chunks, Views(nodes))) {
      PlacedIsUploaded(e0, e, id, name, account, clock, input, c, root, nodes, Views(nodes));
      if DistinctIds(nodes) && DistinctDisks(nodes) && PlacedInOrder(e0, nodes) {
        KeptIsEncoded(e0, e, id, name, account, clock, input, c, root, nodes, Views(nodes));
        PositionsSpread(e0, e, nodes, c.config.n);
        SpreadSurvives(e, c, input, id, nodes, Views(nodes));
      }
    } else {
      UnfinishedIsPending(e0, e, id, name, account, clock, input, c, root);
    }
  }

  lemma UnfinishedIsPending(
    e0: Entry, e: Entry, id: Hash, name: seq<Byte>, account: Address, clock: nat, input: seq<Symbol>, c: Codec,
    root: seq<Chunk> -> Hash
  )
    requires Agrees(e0, id, name, account, clock, input, c, root) && Unfinished(e0, e)
    ensures e.status.Pending?
  {
  }
}
