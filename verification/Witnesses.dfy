// Runs that reach the edges: an upload that finalizes and then cannot settle,
// a blob the stand-in finalizes and the contract does not, and a name only the
// contract accepts.
module Witnesses {
  import opened Prelude
  import opened Quote
  import opened Blob
  import opened BlobInvariants
  import opened Protocol
  import opened Ledgers
  import opened Invariants
  import opened Runs
  import opened Registry
  import opened Erasure
  import opened LinearCode
  import opened Storage
  import opened Nodes
  import opened Placement
  import opened Settling
  import opened Reading
  import opened Uploading
  import opened Simulation
  import L = LocalRegistry

  // ---- A shard at a single wei ----

  // At a rate of one wei a public blob of one byte for one day costs one wei a
  // shard, and the reserve takes all of it.
  lemma OneWeiQuote()
    ensures QuoteNativePayment(1, 4, Public, 86_400, 0, 1, 0) == Ok(Terms(4, 4, 0, 0))
  {
    assert CeilDiv(1, MIB_BYTES) == 1 && CeilDiv(86_400, DAY_SECONDS) == 1;
    assert QuotedPrice(1, Public, 86_400, 0, 1) == 10_000;
    assert CeilDiv(10_000, BPS) == 1 && CeilDiv(1_000, BPS) == 1 && CeilDiv(0, BPS) == 0;
  }

  // What one byte in four shards costs for a day as the contract is deployed.
  lemma DefaultQuotes(deployer: Address, now: nat)
    ensures var s := Init(deployer, now);
            && s.admin == deployer && s.coordinators == {deployer} && s.controllers == {} && s.nextProviderId == 1
            && s.providers == map[] && s.providerIdOf == map[] && s.entries == map[] && s.names == map[]
            && s.nonces == map[] && s.requests == map[] && s.selected == {} && s.now == now
            && s.ledger == Ledger(0, 0, 0, 0, 0, [])
            && (forall mode: StorageMode :: QuoteNativePayment(1, 4, mode, 86_400, 0, s.rate, s.feeBps) ==
                  match mode
                  case Public => Ok(Terms(4_200_000_000_000, 4_000_000_000_000, 200_000_000_000, 900_000_000_000))
                  case Private => Ok(Terms(5_040_000_000_000, 4_800_000_000_000, 240_000_000_000, 1_080_000_000_000))
                  case Confidential => Ok(Terms(6_300_000_000_000, 6_000_000_000_000, 300_000_000_000, 1_350_000_000_000)))
  {
    forall mode: StorageMode
      ensures QuoteNativePayment(1, 4, mode, 86_400, 0, 1_000_000_000_000, 500) ==
                match mode
                case Public => Ok(Terms(4_200_000_000_000, 4_000_000_000_000, 200_000_000_000, 900_000_000_000))
                case Private => Ok(Terms(5_040_000_000_000, 4_800_000_000_000, 240_000_000_000, 1_080_000_000_000))
                case Confidential => Ok(Terms(6_300_000_000_000, 6_000_000_000_000, 300_000_000_000, 1_350_000_000_000))
    {
      var gross := match mode case Public => 1_000_000_000_000 case Private => 1_200_000_000_000 case Confidential => 1_500_000_000_000;
      QuoteInNumbers(1, 4, mode, 86_400, 0, 1_000_000_000_000, 500, 1, 1, gross);
      hide QuoteNativePayment;
    }
  }

  const ADMIN: Address := 1
  const OWNER: Address := 2
  const BLOB: Hash := Word(7)

  // One byte in a public blob of four shards, for one day from time zero.
  function OneByte(commitment: Hash): Registration {
    Registration(BLOB, [], commitment, 1, 1_048_576, 2, 4, 86_400)
  }

  const PUBLIC_POLICY := Policy(Public, OwnerOnly, Word(3), ZeroHash, ZeroHash)

  // The admin has set the rate to one wei and the fee to nothing, and `k`
  // providers have registered.
  function Registered(k: nat): (s: State)
    ensures s.nextProviderId == k + 1 && s.now == 0 && s.coordinators == {ADMIN} && s.rate == 1 && s.feeBps == 0
    ensures s.entries == map[] && s.names == map[] && s.ledger == Ledger(0, 0, 0, 0, 0, [])
    ensures forall a :: (a in s.providerIdOf <==> 10 <= a < 10 + k)
                        && (a in s.providerIdOf ==> s.providerIdOf[a] == a - 9 && IsActive(s, a - 9))
  {
    if k == 0 then Init(ADMIN, 0).(rate := 1, feeBps := 0)
    else
      var s := Registered(k - 1);
      s.(nextProviderId := k + 1,
         providers := s.providers[k := Provider(9 + k, "url", Word(4), true, 0)],
         providerIdOf := s.providerIdOf[9 + k := k])
  }

  function Opening(k: nat): seq<Event> {
    if k == 0 then [Do(SetNativePricing(ADMIN, 1, 0))]
    else Opening(k - 1) + [Do(Call.RegisterProvider(9 + k, "url", Word(4)))]
  }

  lemma PricingStep()
    ensures Step(Init(ADMIN, 0), SetNativePricing(ADMIN, 1, 0)) == Ok(Registered(0))
  {
  }

  lemma RegisterGoesThrough(s: State, account: Address)
    requires account != 0 && account !in s.providerIdOf && s.now == 0
    ensures var pid := s.nextProviderId;
            Step(s, Call.RegisterProvider(account, "url", Word(4))) ==
            Ok(s.(nextProviderId := pid + 1, providers := s.providers[pid := Provider(account, "url", Word(4), true, 0)],
                  providerIdOf := s.providerIdOf[account := pid]))
  {
  }

  lemma RegisterStep(k: nat)
    ensures Step(Registered(k), Call.RegisterProvider(10 + k, "url", Word(4))) == Ok(Registered(k + 1))
  {
    hide Step, IsActive;
    RegisterGoesThrough(Registered(k), 10 + k);
  }

  lemma {:induction false} OpeningRun(k: nat)
    ensures Deployed(ADMIN, 0, Opening(k)) == Registered(k)
  {
    hide Step, Registered;
    if k == 0 {
      RunOne(Init(ADMIN, 0), Do(SetNativePricing(ADMIN, 1, 0)));
      PricingStep();
    } else {
      OpeningRun(k - 1);
      var last := Do(Call.RegisterProvider(9 + k, "url", Word(4)));
      assert Opening(k)[..|Opening(k)| - 1] == Opening(k - 1) && Opening(k)[|Opening(k)| - 1] == last;
      RegisterStep(k - 1);
    }
  }

  // A user has paid four wei for the blob.
  function PaidEntry(commitment: Hash): Entry {
    NewEntry(OWNER, OneByte(commitment), User, PUBLIC_POLICY, Escrow(OWNER, Terms(4, 4, 0, 0), 0))
  }

  function Funded(commitment: Hash): State {
    Registered(4).(entries := map[BLOB := PaidEntry(commitment)], ledger := Ledger(0, 4, 4, 0, 0, []))
  }

  function PaidCreation(commitment: Hash): Call {
    Call.CreateBlobPaid(OWNER, 4, OneByte(commitment), false, PUBLIC_POLICY)
  }

  lemma PaidStep(commitment: Hash)
    requires commitment != ZeroHash
    ensures Step(Registered(4), PaidCreation(commitment)) == Ok(Funded(commitment))
  {
    hide QuoteNativePayment, NewEntry, Escrow;
    OneWeiQuote();
    var s, e := Registered(4), PaidEntry(commitment);
    assert s.entries[BLOB := e] == map[BLOB := e];
  }

  lemma FundedIsReached(commitment: Hash)
    requires commitment != ZeroHash
    ensures Deployed(ADMIN, 0, Opening(4) + [Do(PaidCreation(commitment))]) == Funded(commitment)
    ensures Valid(Funded(commitment))
  {
    hide Step, Registered, Opening, Funded, Valid;
    var last := Do(PaidCreation(commitment));
    OpeningRun(4);
    PaidStep(commitment);
    RunConcat(Init(ADMIN, 0), Opening(4), [last]);
    RunOne(Registered(4), last);
    DeployedIsValid(ADMIN, 0, Opening(4) + [last]);
  }

  // ---- An upload that cannot settle ----

  method OpenRegistry(commitment: Hash) returns (registry: PrimeServerRegistry)
    requires commitment != ZeroHash
    ensures fresh(registry) && registry.View() == Funded(commitment)
  {
    hide Valid, Step, Registered, Funded;
    registry := new PrimeServerRegistry(ADMIN, 0);
    PricingStep();
    var _ := registry.SetNativePricing(ADMIN, 1, 0);
    for k := 0 to 4
      invariant registry.View() == Registered(k)
    {
      RegisterStep(k);
      var _ := registry.RegisterProvider(10 + k, "url", Word(4));
    }
    PaidStep(commitment);
    var _ := registry.CreateBlobPaid(OWNER, 4, OneByte(commitment), false, PUBLIC_POLICY);
  }

  // The four providers, with nothing in their directories.
  ghost predicate EmptyNodes(nodes: seq<Node>)
    reads Disks(nodes)
  {
    && |nodes| == 4
    && (forall i :: 0 <= i < 4 ==> nodes[i].providerId == i + 1 && nodes[i].operator == 10 + i)
    && forall st :: st in Disks(nodes) ==> st.View() == Disk(map[], map[])
  }

  lemma NextDisk(nodes: seq<Node>, node: Node)
    ensures Disks(nodes + [node]) == Disks(nodes) + {node.storage}
  {
    var longer := nodes + [node];
    assert forall k :: 0 <= k < |nodes| ==> longer[k] == nodes[k];
    assert longer[|nodes|] == node;
    forall st | st in Disks(nodes) ensures st in Disks(longer) {
      var k :| 0 <= k < |nodes| && nodes[k].storage == st;
      assert longer[k].storage == st;
    }
  }

  method OpenNodes() returns (nodes: seq<Node>)
    ensures fresh(Disks(nodes)) && EmptyNodes(nodes)
  {
    nodes := [];
    for k := 0 to 4
      invariant |nodes| == k && fresh(Disks(nodes))
      invariant forall i :: 0 <= i < k ==> nodes[i].providerId == i + 1 && nodes[i].operator == 10 + i
      invariant forall st :: st in Disks(nodes) ==> st.View() == Disk(map[], map[])
    {
      var storage := new ProviderStorage();
      NextDisk(nodes, Node(k + 1, 10 + k, storage));
      nodes := nodes + [Node(k + 1, 10 + k, storage)];
    }
  }

  // With empty directories the upload meets every condition to finalize, and
  // nobody has anything to claim.
  lemma FundedIsReady(nodes: seq<Node>, c: Codec, root: seq<Chunk> -> Hash)
    requires EmptyNodes(nodes) && Lawful(c) && c.config == Config(4, 2, 1_048_576)
    ensures DistinctIds(nodes) && AllIntact(Views(nodes)) && Encode(c, [1]).Ok?
    ensures var chunks := Encode(c, [1]).value.chunks;
            var e := PaidEntry(root(chunks));
            && CheckRegistration(e, BLOB, [], OWNER, 0, [1], c, root).None?
            && Ready(Funded(root(chunks)), ADMIN, e, nodes, chunks) && Tidy(e, e, BLOB, nodes, chunks, Views(nodes))
            && e.payment.status.Escrowed? && !WorthClaiming(e, 0)
  {
    hide Lawful, Tidy, Valid;
    var chunks := Encode(c, [1]).value.chunks;
    var e := PaidEntry(root(chunks));
    assert CheckRegistration(e, BLOB, [], OWNER, 0, [1], c, root).None?;
    CheckedFits(e, BLOB, [], OWNER, 0, [1], c, root);
    FreshResumes(e, BLOB, nodes, chunks);
  }

  lemma FundedIs(commitment: Hash)
    ensures var s := Funded(commitment); BLOB in s.entries && s.entries[BLOB] == PaidEntry(commitment) && s.now == 0
  {
    hide PaidEntry;
  }

  lemma UploadedIsClosed(
    e: Entry, id: Hash, name: seq<Byte>, account: Address, input: seq<Symbol>, c: Codec, root: seq<Chunk> -> Hash,
    nodes: seq<Node>, disks: Shelves
  )
    requires Uploaded(e, id, name, account, input, c, root, nodes, disks)
    ensures CheckRegistration(e, id, name, account, 0, input, c, root) == Some(Refused(NoLongerPending))
  {
    hide CheckRegistration, AllAcked, EncodedAs, ReadOutcome;
  }

  lemma StuckPayment(commitment: Hash, e: Entry)
    requires Stuck(PaidEntry(commitment), e)
    ensures e.status.Active? && e.payment.status.Claimable? && e.payment.rewardPerShard == 0
  {
    hide AllAcked;
  }

  // One byte, four ready providers, an honest payer: the blob is finalized and
  // stored, the pass over its providers reverts, and the same upload is refused
  // from then on.
  method StuckUpload(c: Codec, root: seq<Chunk> -> Hash)
    returns (first: Result<Placed, Fault>, e: Entry, second: Result<Placed, Fault>)
    requires Lawful(c) && c.config == Config(4, 2, 1_048_576)
    requires Encode(c, [1]).Ok? && root(Encode(c, [1]).value.chunks) != ZeroHash
    ensures first.Err? && e.status.Active? && e.payment.status.Claimable? && e.payment.rewardPerShard == 0
    ensures second == Err(Refused(NoLongerPending))
  {
    hide Lawful, AllIntact, Ready, Tidy, DistinctIds, Valid, CheckRegistration, Funded, EmptyNodes, WorthClaiming, Encode,
      Stuck, PaidEntry, Uploaded, Unfinished;
    var commitment := root(Encode(c, [1]).value.chunks);
    FundedIsReached(commitment);
    FundedIs(commitment);
    var registry := OpenRegistry(commitment);
    var nodes := OpenNodes();
    FundedIsReady(nodes, c, root);
    first := UploadRegisteredBlob(registry, ADMIN, OWNER, BLOB, [], 0, [1], c, root, nodes);
    e := registry.entries[BLOB];
    StuckPayment(commitment, e);
    UploadedIsClosed(e, BLOB, [], OWNER, [1], c, root, nodes, Views(nodes));
    second := UploadRegisteredBlob(registry, ADMIN, OWNER, BLOB, [], 0, [1], c, root, nodes);
  }

  // ---- Where the stand-in goes its own way ----

  const SMALL := Registration(BLOB, [], Word(5), 1, 1, 1, 1, 0)

  // A blob of one shard is placed, acknowledged, finalized, and put into
  // recovery.
  function Detour(k: nat): Call
    requires k < 6
  {
    match k
    case 0 => Call.RegisterProvider(10, "url", Word(4))
    case 1 => Call.CreateBlob(OWNER, SMALL, false, User)
    case 2 => Call.AssignShard(OWNER, BLOB, 0, 1)
    case 3 => Call.AcknowledgeShard(10, BLOB, 0, Word(1), 1)
    case 4 => Call.FinalizeBlob(OWNER, BLOB)
    case 5 => StartShardRecovery(OWNER, BLOB, 0)
  }

  function DetourEvents(k: nat): seq<Event>
    requires k <= 6
  {
    seq(k, i requires 0 <= i < k => Do(Detour(i)))
  }

  function DetourEntry(k: nat): Entry {
    Entry(OWNER, SMALL, User, if k == 6 then Recovering else if k == 5 then BlobStatus.Active else Pending,
          if k < 4 then 0 else 1, if k < 3 then map[] else map[0 := 1],
          if k < 4 then map[] else map[(1, 0) := Acknowledgement(Word(1), 1, 0)], NO_POLICY, NO_PAYMENT, {}, {})
  }

  function DetourState(k: nat): State {
    if k == 0 then Init(ADMIN, 0)
    else
      Init(ADMIN, 0).(
        nextProviderId := 2, providers := map[1 := Provider(10, "url", Word(4), true, 0)], providerIdOf := map[10 := 1],
        entries := if k == 1 then map[] else map[BLOB := DetourEntry(k)])
  }

  lemma DetourStep(k: nat)
    requires k < 6
    ensures Step(DetourState(k), Detour(k)) == Ok(DetourState(k + 1))
  {
    if k == 0 {
      RegisterGoesThrough(DetourState(0), 10);
    } else if k == 1 {
      DetourCreates();
    } else {
      hide LifecycleEntry, Step;
      var s, next := DetourState(k), DetourState(k + 1);
      DetourMoves(k);
      StepIsLifecycle(s, Detour(k));
      assert s.entries[BLOB := DetourEntry(k + 1)] == next.entries;
    }
  }

  lemma DetourCreates()
    ensures Step(DetourState(1), Detour(1)) == Ok(DetourState(2))
  {
    var s := DetourState(1);
    assert s.entries[BLOB := DetourEntry(2)] == DetourState(2).entries;
  }

  lemma DetourMoves(k: nat)
    requires 2 <= k < 6
    ensures LifecycleEntry(DetourState(k), Detour(k)) == Ok(DetourEntry(k + 1))
  {
  }

  lemma {:induction false} DetourRun(k: nat)
    requires k <= 6
    ensures Deployed(ADMIN, 0, DetourEvents(k)) == DetourState(k)
  {
    hide Step, Detour, DetourState;
    if k == 0 {
      assert DetourState(0) == Init(ADMIN, 0) by { DetourStarts(); }
    } else {
      var events := DetourEvents(k);
      DetourRun(k - 1);
      DetourStep(k - 1);
      assert events[..|events| - 1] == DetourEvents(k - 1) && events[|events| - 1] == Do(Detour(k - 1));
    }
  }

  lemma DetourStarts()
    ensures DetourState(0) == Init(ADMIN, 0)
  {
  }

  // Side by side from deployment the two agree on a blob in recovery; then the
  // stand-in finalizes it, and the contract reverts.
  lemma FinalizeParts()
    ensures var s := Deployed(ADMIN, 0, DetourEvents(6));
            var m := Shadow(Init(ADMIN, 0), L.Local(ADMIN, map[], map[], map[]), DetourEvents(6));
            && m.Ok? && Matches(s, m.value)
            && L.Serve(m.value, L.Complete(BLOB)).Ok? && Step(s, Call.FinalizeBlob(OWNER, BLOB)) == Err(BlobNotPending)
  {
    hide Valid, Shadow, Run, Matches, Detour, L.Serve;
    var none := L.Local(ADMIN, map[], map[], map[]);
    DetourRun(6);
    InitValid(ADMIN, 0);
    DeployedIsValid(ADMIN, 0, DetourEvents(6));
    EmptyMatches();
    DetourWithin();
    RunSimulated(Init(ADMIN, 0), none, DetourEvents(6));
    var s, m := DetourState(6), Shadow(Init(ADMIN, 0), none, DetourEvents(6)).value;
    FinalizeAgreement(s, m, OWNER, BLOB);
  }

  lemma EmptyMatches()
    ensures Matches(Init(ADMIN, 0), L.Local(ADMIN, map[], map[], map[]))
  {
  }

  lemma DetourWithin()
    ensures forall k :: 0 <= k < 6 ==> Within(ADMIN, DetourEvents(6)[k].call)
  {
  }

  // A name with a NUL inside is registered by the contract and refused by the
  // stand-in.
  lemma NameParts()
    ensures var r := SMALL.(name := [1, 0, 1]);
            && Step(Init(ADMIN, 0), Call.CreateBlob(OWNER, r, true, User)).Ok?
            && L.Serve(L.Local(ADMIN, map[], map[], map[]), L.AddBlob(OWNER, r, true, User)) == Err(L.InvalidName)
  {
    var r := SMALL.(name := [1, 0, 1]);
    assert r.name[1] == 0;
    assert !L.ValidName(r.name);
  }
}
