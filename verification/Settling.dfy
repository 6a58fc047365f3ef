// The settlement pass after placement: group the shards by placed provider,
// let each provider claim its group, and record what each should have got.
module Settling {
  import opened Prelude
  import opened Quote
  import opened Blob
  import opened BlobInvariants
  import opened Protocol
  import opened Ledgers
  import opened Invariants
  import opened Registry
  import opened Nodes

  // ---- Grouping ----

  datatype Group = Group(providerId: nat, shards: seq<uint8>)

  function PositionOf(groups: seq<Group>, pid: nat): (k: nat)
    ensures k <= |groups| && (k < |groups| ==> groups[k].providerId == pid)
    ensures forall j :: 0 <= j < k ==> groups[j].providerId != pid
  {
    if groups == [] || groups[0].providerId == pid then 0 else PositionOf(groups[1..], pid) + 1
  }

  // The insertion-ordered map, with shard `i` pushed onto the list of `pid`.
  function AddShard(groups: seq<Group>, pid: nat, i: uint8): seq<Group> {
    var k := PositionOf(groups, pid);
    if k < |groups| then groups[k := Group(pid, groups[k].shards + [i])] else groups + [Group(pid, [i])]
  }

  predicate Increasing(shards: seq<uint8>) {
    forall j, k :: 0 <= j < k < |shards| ==> shards[j] < shards[k]
  }

  // Each placed shard below `n` is in the one group of its provider, once, and
  // the groups stand in the order in which their providers first appear.
  ghost predicate Grouped(groups: seq<Group>, placement: map<nat, nat>, n: nat) {
    && (forall g :: 0 <= g < |groups| ==> GroupIs(groups[g], placement, n))
    && (forall g, h :: 0 <= g < h < |groups| ==> groups[g].providerId != groups[h].providerId)
    && InOrder(groups) && Complete(groups, placement, n)
  }

  ghost predicate InOrder(groups: seq<Group>) {
    forall g, h :: 0 <= g < h < |groups| ==> FirstOf(groups[g]) < FirstOf(groups[h])
  }

  ghost predicate Complete(groups: seq<Group>, placement: map<nat, nat>, n: nat) {
    forall i: uint8 :: i < n && i in placement ==> exists g :: 0 <= g < |groups| && i in groups[g].shards
  }

  function FirstOf(g: Group): nat {
    if g.shards == [] then 0 else g.shards[0]
  }

  ghost predicate GroupIs(g: Group, placement: map<nat, nat>, n: nat) {
    && g.shards != [] && Increasing(g.shards)
    && (forall i :: i in g.shards ==> i < n && i in placement && placement[i] == g.providerId)
  }

  lemma PushKeepsGroup(shards: seq<uint8>, placement: map<nat, nat>, i: uint8)
    requires i in placement && (shards == [] || GroupIs(Group(placement[i], shards), placement, i))
    ensures GroupIs(Group(placement[i], shards + [i]), placement, i + 1)
  {
    forall j | 0 <= j < |shards| ensures shards[j] < i {
      assert shards[j] in shards;
    }
  }

  // What pushing a shard changes: one group, or one more.
  lemma AddShardAt(groups: seq<Group>, placement: map<nat, nat>, i: uint8)
    requires Grouped(groups, placement, i) && i in placement
    ensures var k, after := PositionOf(groups, placement[i]), AddShard(groups, placement[i], i);
            && |groups| <= |after| && k < |after| && (k < |groups| ==> |after| == |groups|) && (k == |groups| ==> |after| == k + 1)
            && (forall g :: 0 <= g < |groups| && g != k ==> after[g] == groups[g])
            && after[k].providerId == placement[i] && i in after[k].shards && GroupIs(after[k], placement, i + 1)
            && FirstOf(after[k]) == (if k < |groups| then FirstOf(groups[k]) else i)
            && (k < |groups| ==> forall j :: j in groups[k].shards ==> j in after[k].shards)
  {
    hide InOrder, Complete;
    var pid := placement[i];
    var k := PositionOf(groups, pid);
    var had := if k < |groups| then groups[k].shards else [];
    assert k < |groups| ==> GroupIs(groups[k], placement, i) && groups[k] == Group(pid, had);
    PushKeepsGroup(had, placement, i);
    assert i in had + [i];
  }

  lemma AddShardGroups(groups: seq<Group>, placement: map<nat, nat>, i: uint8)
    requires Grouped(groups, placement, i) && i in placement
    ensures Grouped(AddShard(groups, placement[i], i), placement, i + 1)
  {
    hide AddShard, FirstOf, Increasing, InOrder, Complete;
    AddShardAt(groups, placement, i);
    AddShardInOrder(groups, placement, i);
    AddShardComplete(groups, placement, i);
    var k, after := PositionOf(groups, placement[i]), AddShard(groups, placement[i], i);
    forall g | 0 <= g < |after| ensures GroupIs(after[g], placement, i + 1) {
      assert g != k ==> after[g] == groups[g] && GroupIs(groups[g], placement, i);
    }
  }

  // A new group starts with the largest index so far.
  lemma AddShardInOrder(groups: seq<Group>, placement: map<nat, nat>, i: uint8)
    requires Grouped(groups, placement, i) && i in placement
    ensures InOrder(AddShard(groups, placement[i], i))
  {
    hide AddShard, Increasing, Complete;
    AddShardAt(groups, placement, i);
    forall g | 0 <= g < |groups| ensures FirstOf(groups[g]) < i {
      assert GroupIs(groups[g], placement, i) && groups[g].shards[0] in groups[g].shards;
    }
  }

  lemma AddShardComplete(groups: seq<Group>, placement: map<nat, nat>, i: uint8)
    requires Grouped(groups, placement, i) && i in placement
    ensures Complete(AddShard(groups, placement[i], i), placement, i + 1)
  {
    hide AddShard, Increasing, InOrder, GroupIs, FirstOf;
    AddShardAt(groups, placement, i);
    var k, after := PositionOf(groups, placement[i]), AddShard(groups, placement[i], i);
    forall j: uint8 | j < i + 1 && j in placement
      ensures exists g :: 0 <= g < |after| && j in after[g].shards
    {
      if j < i {
        var g :| 0 <= g < |groups| && j in groups[g].shards;
        assert j in after[g].shards;
      } else {
        assert i in after[k].shards;
      }
    }
  }

  // The map after the shards below `n`.
  function GroupsUpTo(placement: map<nat, nat>, n: uint8): seq<Group> {
    if n == 0 then []
    else
      var groups := GroupsUpTo(placement, n - 1);
      if n - 1 in placement then AddShard(groups, placement[n - 1], n - 1) else groups
  }

  lemma {:induction false} GroupsAreGrouped(placement: map<nat, nat>, n: uint8)
    ensures Grouped(GroupsUpTo(placement, n), placement, n)
  {
    hide Grouped, AddShard;
    if n == 0 {
      NoGroupsYet(placement);
    } else {
      var groups := GroupsUpTo(placement, n - 1);
      GroupsAreGrouped(placement, n - 1);
      if n - 1 in placement {
        AddShardGroups(groups, placement, n - 1);
      } else {
        UnplacedAddsNothing(groups, placement, n - 1);
      }
    }
  }

  lemma NoGroupsYet(placement: map<nat, nat>)
    ensures Grouped([], placement, 0)
  {
  }

  lemma UnplacedAddsNothing(groups: seq<Group>, placement: map<nat, nat>, i: uint8)
    requires Grouped(groups, placement, i) && i !in placement && i < 255
    ensures Grouped(groups, placement, i + 1)
  {
    hide InOrder, Increasing;
  }

  method GroupShards(placement: map<nat, nat>, totalShards: uint8) returns (groups: seq<Group>)
    ensures groups == GroupsUpTo(placement, totalShards) && Grouped(groups, placement, totalShards)
  {
    groups := [];
    for i := 0 to totalShards
      invariant groups == GroupsUpTo(placement, i)
    {
      if i in placement {
        groups := AddShard(groups, placement[i], i);
      }
    }
    GroupsAreGrouped(placement, totalShards);
  }

  // The shards of the first `k` groups.
  ghost function Covered(groups: seq<Group>, k: nat): set<nat>
    requires k <= |groups|
  {
    if k == 0 then {} else Covered(groups, k - 1) + IndexSet(groups[k - 1].shards)
  }

  lemma {:induction false} CoveredHas(groups: seq<Group>, k: nat, i: nat)
    requires k <= |groups|
    ensures i in Covered(groups, k) <==> exists g :: 0 <= g < k && i in IndexSet(groups[g].shards)
  {
    hide IndexSet;
    if k > 0 {
      CoveredHas(groups, k - 1, i);
      if i in Covered(groups, k - 1) {
        var g :| 0 <= g < k - 1 && i in IndexSet(groups[g].shards);
        assert 0 <= g < k;
      }
    }
  }

  lemma IndexSetHas(shards: seq<uint8>, i: nat)
    ensures i in IndexSet(shards) <==> i < 0x100 && i in shards
  {
    if i < 0x100 && i in shards {
      var k :| 0 <= k < |shards| && shards[k] == i;
      assert shards[k] as nat in IndexSet(shards);
    }
  }

  lemma GroupIsFresh(groups: seq<Group>, placement: map<nat, nat>, n: nat, k: nat)
    requires Grouped(groups, placement, n) && k < |groups|
    ensures IndexSet(groups[k].shards) * Covered(groups, k) == {}
    ensures IndexSet(groups[k].shards) != {} && IndexSet(groups[k].shards) <= Below(n)
  {
    hide IndexSet;
    forall i | i in IndexSet(groups[k].shards) ensures i !in Covered(groups, k) && i in Below(n) {
      IndexSetHas(groups[k].shards, i);
      CoveredHas(groups, k, i);
      if i in Covered(groups, k) {
        var g :| 0 <= g < k && i in IndexSet(groups[g].shards);
        IndexSetHas(groups[g].shards, i);
      }
    }
    IndexSetHas(groups[k].shards, groups[k].shards[0]);
  }

  lemma AllCovered(groups: seq<Group>, placement: map<nat, nat>, n: uint8)
    requires Grouped(groups, placement, n) && Below(n) <= placement.Keys
    ensures Covered(groups, |groups|) == Below(n)
  {
    hide IndexSet;
    forall i | i in Below(n) ensures i in Covered(groups, |groups|) {
      var g :| 0 <= g < |groups| && i in groups[g].shards;
      IndexSetHas(groups[g].shards, i);
      CoveredHas(groups, |groups|, i);
    }
    forall i | i in Covered(groups, |groups|) ensures i in Below(n) {
      CoveredHas(groups, |groups|, i);
      var g :| 0 <= g < |groups| && i in IndexSet(groups[g].shards);
      GroupIsFresh(groups, placement, n, g);
    }
  }

  lemma {:induction false} IndexSetSize(shards: seq<uint8>)
    requires Increasing(shards)
    ensures |IndexSet(shards)| == |shards|
  {
    if shards == [] {
      assert IndexSet(shards) == {};
    } else {
      var front, last := shards[..|shards| - 1], shards[|shards| - 1];
      IndexSetSize(front);
      IndexSetAppend(front, last);
      assert shards == front + [last];
      IndexSetHas(front, last);
    }
  }

  // ---- The payment during the pass ----

  // The payment once the shards in `c` have been claimed at `now`, starting
  // from `e0`, by whichever providers.
  ghost predicate Paying(e0: Entry, e: Entry, c: set<nat>, now: nat) {
    && Accounts(e0) && Sound(e) && Timely(e, now) && Accounts(e)
    && e == if c == {} then e0 else AfterClaim(e0, c, now)
  }

  // The fields of the slots during the pass.
  lemma PayingIs(e0: Entry, e: Entry, c: set<nat>, now: nat)
    requires Paying(e0, e, c, now)
    ensures e.terms == e0.terms && e.placement == e0.placement && e.acks == e0.acks && e.status == e0.status
    ensures e.immediate == e0.immediate + c && e.reserve == if now >= e.terms.expiresAt then e0.reserve + c else e0.reserve
    ensures e.payment.rewardPerShard == e0.payment.rewardPerShard && ReserveShare(e) == ReserveShare(e0)
    ensures c == {} ==> e == e0
    ensures c != {} ==> e.payment.status.Settled? || e.payment.status.PartiallySettled?
  {
    hide Accounts, Sound, Timely, AfterClaim, AmountFor;
    if c == {} {
      assert e0.immediate + c == e0.immediate && e0.reserve + c == e0.reserve;
    } else {
      AfterClaimFields(e0, c, now);
    }
  }

  // Providers have something to gain from a fresh payment now: an immediate
  // reward, or a reserve.
  predicate WorthClaiming(e: Entry, now: nat) {
    e.payment.rewardPerShard > 0 || now >= e.terms.expiresAt
  }

  lemma Apart(g: set<nat>, marked: set<nat>, c: set<nat>)
    requires g * c == {}
    ensures g - (marked + c) == g - marked == g - (marked + {})
  {
    forall i | i in g ensures i !in c {
      assert i in c ==> i in g * c;
    }
  }

  // What a group has to gain is not touched by the claims of the others.
  lemma SameGains(e0: Entry, e: Entry, c: set<nat>, g: set<nat>, now: nat)
    requires Paying(e0, e, c, now) && g * c == {}
    ensures g - e.immediate == g - e0.immediate && (now >= e0.terms.expiresAt ==> g - e.reserve == g - e0.reserve)
    ensures AmountFor(e, now, g) == AmountFor(e0, now, g)
    ensures Gains(e, now, {}, g) <==> Gains(e0, now, {}, g)
  {
    hide Paying, ReserveShare;
    PayingIs(e0, e, c, now);
    Apart(g, e0.immediate, c);
    Apart(g, e0.reserve, c);
    Apart(g, e.immediate, {});
    Apart(g, e.reserve, {});
  }

  // The next group may claim exactly when it has something to gain.
  lemma GroupMayClaim(e0: Entry, e: Entry, c: set<nat>, pid: nat, g: set<nat>, now: nat)
    requires Paying(e0, e, c, now) && ClaimOpen(e0) && g * c == {} && AllPayable(e, pid, g)
    ensures ClaimAllowed(e, pid, g, now) <==> Gains(e0, now, {}, g)
    ensures AmountFor(e, now, g) == AmountFor(e0, now, g) >= 0
  {
    PayingHasAccounts(e0, e, c, now);
    hide Paying, Accounts, Sound, Timely, AmountFor, Gains, AllPayable;
    SameGains(e0, e, c, g, now);
    GainsPays(e, now, g);
    PayingIs(e0, e, c, now);
    if Gains(e, now, {}, g) && e.payment.status.Settled? {
      SettledHasNoGains(e, pid, g, now);
    }
  }

  lemma PayingHasAccounts(e0: Entry, e: Entry, c: set<nat>, now: nat)
    requires Paying(e0, e, c, now)
    ensures Accounts(e0) && Accounts(e) && Sound(e) && Timely(e, now)
    ensures c != {} ==> e == AfterClaim(e0, c, now)
  {
    hide Accounts, Sound, Timely, AfterClaim;
  }

  lemma SettledHasNoGains(e: Entry, pid: nat, g: set<nat>, now: nat)
    requires Sound(e) && Accounts(e) && Timely(e, now) && AllPayable(e, pid, g) && e.payment.status.Settled?
    ensures !Gains(e, now, {}, g)
  {
    assert e.reserve == Below(e.terms.totalShards);
    hide Sound, Accounts, AllPayable;
    BelowOfPayable(e, pid, g);
    MarkersNest(e);
    assert g - (e.immediate + {}) == {} && g - (e.reserve + {}) == {};
  }

  lemma ClaimKeepsPaying(e0: Entry, e: Entry, c: set<nat>, pid: nat, g: set<nat>, now: nat)
    requires Paying(e0, e, c, now) && ClaimAllowed(e, pid, g, now) && g != {}
    ensures Accounts(e) && Paying(e0, AfterClaim(e, g, now), c + g, now)
  {
    PayingHasAccounts(e0, e, c, now);
    PayingIs(e0, e, c, now);
    hide Sound, Accounts, AllPayable, AmountFor, AfterClaim, Timely;
    AfterClaimIsSound(e, pid, g, now);
    AfterClaimIsCovered(e, pid, g, now);
    AfterClaimHasAccounts(e, pid, g, now);
    assert c + g != {};
    if c == {} {
      assert c + g == g;
    } else {
      AmountsAdd(e0, c, g, now);
      MergedEntry(e0, c, g, now);
    }
  }

  // ---- The claim as its caller sees it ----

  // Only the blob's payment slots and the money differ.
  ghost predicate OnlyPaid(s: State, s': State, id: Hash) {
    && id in s.entries && id in s'.entries && SameSlots(s.entries[id], s'.entries[id])
    && s' == s.(entries := s.entries[id := s'.entries[id]], ledger := s'.ledger)
  }

  ghost predicate SameSlots(e: Entry, e': Entry) {
    && e'.owner == e.owner && e'.terms == e.terms && e'.origin == e.origin && e'.policy == e.policy
    && e'.status == e.status && e'.ackCount == e.ackCount && e'.placement == e.placement && e'.acks == e.acks
  }

  lemma ClaimLeavesSlots(e: Entry, caller: Result<nat, Error>, shards: seq<uint8>, now: nat)
    requires Claim(e, caller, shards, now).Ok?
    ensures SameSlots(e, Claim(e, caller, shards, now).value.entry)
  {
    hide ClaimLoop, ReservePerShard;
  }

  lemma OnlyPaidTwice(s0: State, s1: State, s2: State, id: Hash)
    requires OnlyPaid(s0, s1, id) && OnlyPaid(s1, s2, id)
    ensures OnlyPaid(s0, s2, id)
  {
    assert s2.entries == s0.entries[id := s2.entries[id]];
  }

  // One payout, for the shards in `g` that were not yet marked.
  ghost predicate PaidOut(s: State, s': State, id: Hash, operator: Address, pid: nat, g: set<nat>)
    requires id in s.entries && id in s'.entries
  {
    var e := s.entries[id];
    && Accounts(e) && s'.entries[id] == AfterClaim(e, g, s.now)
    && AmountFor(e, s.now, g) >= 0
    && s'.ledger.history == s.ledger.history
         + [ToProvider(id, pid, operator, g - e.immediate, if s.now >= e.terms.expiresAt then g - e.reserve else {},
                       AmountFor(e, s.now, g))]
  }

  lemma ClaimStepShape(s: State, operator: Address, id: Hash, shards: seq<uint8>)
    requires Valid(s) && id in s.entries
    ensures var r := Step(s, ClaimProviderSettlement(operator, id, shards));
            && (r.Ok? ==> OnlyPaid(s, r.value, id) && operator in s.providerIdOf && IsActive(s, s.providerIdOf[operator]))
            && (operator in s.providerIdOf && IsActive(s, s.providerIdOf[operator]) ==>
                  var pid := s.providerIdOf[operator];
                  && (r.Ok? <==> ClaimAllowed(s.entries[id], pid, IndexSet(shards), s.now))
                  && (r.Ok? ==> PaidOut(s, r.value, id, operator, pid, IndexSet(shards))))
  {
    hide Valid, Step, Claim, ClaimAllowed, Sound, Timely, PlacedWith, IndexSet, Accounts, AmountFor, AfterClaim;
    var c := ClaimProviderSettlement(operator, id, shards);
    var e, caller := s.entries[id], CallerProvider(s, operator);
    ValidSlots(s, id);
    NeverShortOfFunds(s, c);
    if Step(s, c).Ok? {
      ClaimShape(s, c);
      ClaimLeavesSlots(e, caller, shards, s.now);
    }
    if caller.Ok? {
      ClaimOutcome(e, caller.value, shards, s.now);
      ClaimIsTheGuard(s, operator, id, shards);
      if Step(s, c).Ok? {
        ReceiptAmount(e, caller.value, IndexSet(shards), s.now);
      }
    }
  }

  lemma ReceiptAmount(e: Entry, pid: nat, shards: set<nat>, now: nat)
    requires Accounts(e)
    ensures AmountFor(e, now, shards) >= 0
  {
    MarkAllMarks(e, shards, now);
  }

  // With funds to pay it, the step succeeds when the claim does.
  lemma ClaimIsTheGuard(s: State, operator: Address, id: Hash, shards: seq<uint8>)
    requires id in s.entries && CallerProvider(s, operator).Ok?
    requires Step(s, ClaimProviderSettlement(operator, id, shards)) != Err(TransferFailed)
    ensures Step(s, ClaimProviderSettlement(operator, id, shards)).Ok?
       <==> Claim(s.entries[id], CallerProvider(s, operator), shards, s.now).Ok?
  {
    hide Claim;
  }

  method WriteClaim(registry: PrimeServerRegistry, operator: Address, id: Hash, shards: seq<uint8>) returns (r: Result<nat, Error>)
    requires Valid(registry.View()) && id in registry.entries
    modifies registry
    ensures var s, s' := old(registry.View()), registry.View();
            && Valid(s') && OnlyPaid(s, s', id)
            && (operator in s.providerIdOf && IsActive(s, s.providerIdOf[operator]) ==>
                  var pid := s.providerIdOf[operator];
                  && (r.Ok? <==> ClaimAllowed(s.entries[id], pid, IndexSet(shards), s.now))
                  && (r.Ok? ==> PaidOut(s, s', id, operator, pid, IndexSet(shards))))
            && (r.Err? ==> s' == s)
  {
    hide Valid, Step, ClaimAllowed, IndexSet, PaidOut;
    ClaimStepShape(registry.View(), operator, id, shards);
    assert registry.View().entries[id := registry.View().entries[id]] == registry.View().entries;
    r := registry.ClaimProviderSettlement(operator, id, shards);
  }

  // ---- The pass ----

  datatype Settlement = Settlement(group: Group, amount: nat)

  // What the pass records for a group: its immediate rewards.
  function RewardFor(reward: nat, g: Group): nat {
    reward * |g.shards|
  }

  function RecordsOf(reward: nat, groups: seq<Group>): seq<Settlement> {
    seq(|groups|, i requires 0 <= i < |groups| => Settlement(groups[i], RewardFor(reward, groups[i])))
  }

  function RecordedTotal(settlements: seq<Settlement>): nat {
    if settlements == [] then 0
    else RecordedTotal(settlements[..|settlements| - 1]) + settlements[|settlements| - 1].amount
  }

  ghost predicate AllAcked(e: Entry) {
    forall i :: 0 <= i < e.terms.totalShards ==> Acked(e.placement, e.acks, i)
  }

  ghost predicate PlacedNodesReady(s: State, placement: map<nat, nat>, nodes: seq<Node>) {
    forall i :: i in placement ==>
      FindNode(nodes, placement[i]).Some? && NodeReady(s, FindNode(nodes, placement[i]).value)
  }

  // Open for claims, untouched or claimed in part, with every placed provider
  // known and active.
  ghost predicate Settleable(s: State, e: Entry, nodes: seq<Node>) {
    ClaimOpen(e) && AllAcked(e) && PlacedNodesReady(s, e.placement, nodes)
  }

  // How many of the groups come before the first with nothing to gain.
  ghost function Leading(e: Entry, now: nat, groups: seq<Group>): (k: nat)
    ensures k <= |groups| && (k < |groups| ==> !Gains(e, now, {}, IndexSet(groups[k].shards)))
    ensures forall j :: 0 <= j < k ==> Gains(e, now, {}, IndexSet(groups[j].shards))
  {
    if groups == [] || !Gains(e, now, {}, IndexSet(groups[0].shards)) then 0 else Leading(e, now, groups[1..]) + 1
  }

  // The transfer to a group's operator.
  ghost function GroupPayout(e: Entry, id: Hash, now: nat, operator: Address, g: Group): Payout {
    var shards := IndexSet(g.shards);
    var amount := AmountFor(e, now, shards);
    ToProvider(id, g.providerId, operator, shards - e.immediate, if now >= e.terms.expiresAt then shards - e.reserve else {},
               if amount >= 0 then amount else 0)
  }

  ghost function PayoutsFor(e: Entry, id: Hash, now: nat, nodes: seq<Node>, groups: seq<Group>): seq<Payout> {
    if groups == [] then []
    else
      var g := groups[|groups| - 1];
      var node := FindNode(nodes, g.providerId);
      PayoutsFor(e, id, now, nodes, groups[..|groups| - 1])
      + [GroupPayout(e, id, now, if node.Some? then node.value.operator else 0, g)]
  }

  // The slots after the first `k` groups have claimed.
  ghost predicate Passed(e0: Entry, e: Entry, now: nat, groups: seq<Group>, k: nat) {
    k <= |groups| && Paying(e0, e, Covered(groups, k), now)
  }

  // The contract after the first `k` groups have claimed: those slots, one
  // transfer per group in order, and nothing else.
  ghost predicate PassAt(s0: State, s: State, id: Hash, nodes: seq<Node>, groups: seq<Group>, k: nat) {
    && k <= |groups| && OnlyPaid(s0, s, id) && Passed(s0.entries[id], s.entries[id], s0.now, groups, k)
    && s.ledger.history == s0.ledger.history + PayoutsFor(s0.entries[id], id, s0.now, nodes, groups[..k])
  }

  lemma PassStarts(s: State, id: Hash, nodes: seq<Node>, groups: seq<Group>)
    requires Valid(s) && id in s.entries
    ensures OnlyPaid(s, s, id)
    ensures ClaimOpen(s.entries[id]) ==> PassAt(s, s, id, nodes, groups, 0)
  {
    hide Valid, Sound, Timely, PlacedWith, Accounts;
    ValidSlots(s, id);
    OpenHasAccounts(s.entries[id]);
    assert s.entries[id := s.entries[id]] == s.entries;
    assert groups[..0] == [];
  }

  // The group's shards are placed with its provider and acknowledged by it.
  lemma GroupPayable(e0: Entry, e: Entry, groups: seq<Group>, k: nat)
    requires AllAcked(e0) && Grouped(groups, e0.placement, e0.terms.totalShards) && k < |groups|
    requires e.terms == e0.terms && e.placement == e0.placement && e.acks == e0.acks
    ensures AllPayable(e, groups[k].providerId, IndexSet(groups[k].shards))
  {
    var g := groups[k];
    assert GroupIs(g, e0.placement, e0.terms.totalShards);
    hide IndexSet;
    forall i | i in IndexSet(g.shards) ensures Payable(e, g.providerId, i) {
      IndexSetHas(g.shards, i);
      assert Acked(e0.placement, e0.acks, i);
    }
  }

  // The next claim of the pass meets its guard exactly when its group has
  // something to gain.
  lemma NextMayClaim(e0: Entry, e: Entry, now: nat, groups: seq<Group>, k: nat)
    requires Passed(e0, e, now, groups, k) && k < |groups|
    requires ClaimOpen(e0) && AllAcked(e0) && Grouped(groups, e0.placement, e0.terms.totalShards)
    ensures var g := groups[k];
            var shards := IndexSet(g.shards);
            && shards != {} && shards * Covered(groups, k) == {}
            && (ClaimAllowed(e, g.providerId, shards, now) <==> Gains(e0, now, {}, shards))
            && AmountFor(e, now, shards) == AmountFor(e0, now, shards) >= 0
            && shards - e.immediate == shards - e0.immediate
            && (now >= e0.terms.expiresAt ==> shards - e.reserve == shards - e0.reserve) && e.terms == e0.terms
  {
    hide IndexSet, Paying, AmountFor, ClaimAllowed, AllAcked, Grouped, AllPayable, Covered, Gains, ClaimOpen;
    var g := groups[k];
    PayingIs(e0, e, Covered(groups, k), now);
    GroupPayable(e0, e, groups, k);
    GroupIsFresh(groups, e0.placement, e0.terms.totalShards, k);
    GroupMayClaim(e0, e, Covered(groups, k), g.providerId, IndexSet(g.shards), now);
    SameGains(e0, e, Covered(groups, k), IndexSet(g.shards), now);
  }

  // A claim that goes through takes the pass one group further.
  lemma ClaimedGroup(e0: Entry, e: Entry, now: nat, groups: seq<Group>, k: nat)
    requires Passed(e0, e, now, groups, k) && k < |groups|
    requires ClaimOpen(e0) && AllAcked(e0) && Grouped(groups, e0.placement, e0.terms.totalShards)
    requires ClaimAllowed(e, groups[k].providerId, IndexSet(groups[k].shards), now)
    ensures Accounts(e) && Passed(e0, AfterClaim(e, IndexSet(groups[k].shards), now), now, groups, k + 1)
  {
    hide IndexSet, Accounts, ClaimAllowed, Grouped, Paying, AllAcked, AfterClaim, Gains, ClaimOpen;
    NextMayClaim(e0, e, now, groups, k);
    ClaimKeepsPaying(e0, e, Covered(groups, k), groups[k].providerId, IndexSet(groups[k].shards), now);
  }

  lemma PayoutsGoOn(e: Entry, id: Hash, now: nat, nodes: seq<Node>, groups: seq<Group>, k: nat)
    requires k < |groups|
    ensures var node := FindNode(nodes, groups[k].providerId);
            PayoutsFor(e, id, now, nodes, groups[..k + 1])
            == PayoutsFor(e, id, now, nodes, groups[..k])
               + [GroupPayout(e, id, now, if node.Some? then node.value.operator else 0, groups[k])]
  {
    assert groups[..k + 1][..k] == groups[..k];
  }

  // The group's provider is known and ready.
  lemma GroupReady(s: State, e: Entry, nodes: seq<Node>, groups: seq<Group>, k: nat)
    requires Settleable(s, e, nodes) && Grouped(groups, e.placement, e.terms.totalShards) && k < |groups|
    ensures var node := FindNode(nodes, groups[k].providerId);
            && node.Some? && node.value.operator in s.providerIdOf
            && s.providerIdOf[node.value.operator] == groups[k].providerId && IsActive(s, groups[k].providerId)
  {
    hide FindNode, AllAcked;
    assert GroupIs(groups[k], e.placement, e.terms.totalShards);
    var i := groups[k].shards[0];
    assert i in groups[k].shards && e.placement[i] == groups[k].providerId;
  }

  // The transfer is the one due to the group.
  lemma PaidGroup(
    s: State, s': State, e0: Entry, before: seq<Payout>, id: Hash, nodes: seq<Node>, groups: seq<Group>, k: nat, node: Node
  )
    requires id in s.entries && id in s'.entries && k < |groups|
    requires Passed(e0, s.entries[id], s.now, groups, k)
    requires s.ledger.history == before + PayoutsFor(e0, id, s.now, nodes, groups[..k])
    requires ClaimOpen(e0) && AllAcked(e0) && Grouped(groups, e0.placement, e0.terms.totalShards)
    requires FindNode(nodes, groups[k].providerId) == Some(node)
    requires PaidOut(s, s', id, node.operator, groups[k].providerId, IndexSet(groups[k].shards))
    ensures s'.ledger.history == before + PayoutsFor(e0, id, s.now, nodes, groups[..k + 1])
  {
    hide Passed, AmountFor, IndexSet, Grouped, FindNode, PayoutsFor, Accounts, AfterClaim, AllAcked, Gains, ClaimAllowed, ClaimOpen;
    NextMayClaim(e0, s.entries[id], s.now, groups, k);
    PayoutsGoOn(e0, id, s.now, nodes, groups, k);
  }

  // One claim of the pass.
  lemma PassClaim(s0: State, s: State, s': State, id: Hash, nodes: seq<Node>, groups: seq<Group>, k: nat, node: Node, done: bool)
    requires PassAt(s0, s, id, nodes, groups, k) && k < |groups| && OnlyPaid(s, s', id)
    requires var e0 := s0.entries[id]; Settleable(s0, e0, nodes) && Grouped(groups, e0.placement, e0.terms.totalShards)
    requires FindNode(nodes, groups[k].providerId) == Some(node)
    requires var pid, shards := groups[k].providerId, IndexSet(groups[k].shards);
             && (done <==> ClaimAllowed(s.entries[id], pid, shards, s.now))
             && (done ==> PaidOut(s, s', id, node.operator, pid, shards))
    ensures done <==> Gains(s0.entries[id], s0.now, {}, IndexSet(groups[k].shards))
    ensures done ==> PassAt(s0, s', id, nodes, groups, k + 1)
  {
    var e0, e := s0.entries[id], s.entries[id];
    hide Passed, ClaimAllowed, AmountFor, IndexSet, Grouped, FindNode, PayoutsFor, Accounts, AfterClaim, AllAcked,
      PlacedNodesReady, SameSlots, Gains, ClaimOpen;
    NextMayClaim(e0, e, s0.now, groups, k);
    if done {
      ClaimedGroup(e0, e, s0.now, groups, k);
      OnlyPaidTwice(s0, s, s', id);
      PaidGroup(s, s', e0, s0.ledger.history, id, nodes, groups, k, node);
    }
  }

  // The pass, as the upload runs it. The groups claim in order up to the first
  // with nothing to gain; if there is one, its claim reverts and the pass with
  // it, and what the others were paid stays.
  method SettleClaims(registry: PrimeServerRegistry, id: Hash, nodes: seq<Node>) returns (r: Result<seq<Settlement>, Fault>)
    requires Valid(registry.View()) && id in registry.entries
    modifies registry
    ensures Valid(registry.View()) && OnlyPaid(old(registry.View()), registry.View(), id)
    ensures var s := old(registry.View());
            var e := s.entries[id];
            var groups := GroupsUpTo(e.placement, e.terms.totalShards);
            && (!e.payment.status.Claimable? && !e.payment.status.PartiallySettled? ==> r == Ok([]) && registry.View() == s)
            && (Settleable(s, e, nodes) ==>
                  var k := Leading(e, s.now, groups);
                  && (r.Ok? <==> k == |groups|)
                  && (r.Ok? ==> r.value == RecordsOf(e.payment.rewardPerShard, groups))
                  && PassAt(s, registry.View(), id, nodes, groups, k)
                  && (k == 0 ==> registry.View() == s))
  {
    hide Valid, PassAt, Settleable, Grouped, ClaimAllowed, PaidOut, IndexSet, RewardFor, FindNode, NodeReady, Gains, GroupsUpTo, OnlyPaid;
    ghost var s0 := registry.View();
    var e := registry.entries[id];
    PassStarts(s0, id, nodes, []);
    SettleableIsOpen(s0, e, nodes);
    if !e.payment.status.Claimable? && !e.payment.status.PartiallySettled? {
      return Ok([]);
    }
    var groups := GroupShards(e.placement, e.terms.totalShards);
    PassStarts(s0, id, nodes, groups);
    var settlements: seq<Settlement> := [];
    for k := 0 to |groups|
      invariant settlements == RecordsOf(e.payment.rewardPerShard, groups[..k])
      invariant id in registry.entries && Valid(registry.View()) && OnlyPaid(s0, registry.View(), id)
      invariant Settleable(s0, e, nodes) ==> PassAt(s0, registry.View(), id, nodes, groups, k)
      invariant Settleable(s0, e, nodes) ==> k <= Leading(e, s0.now, groups)
      invariant k == 0 ==> registry.View() == s0
    {
      var provider := FindNode(nodes, groups[k].providerId);
      ghost var ready := Settleable(s0, e, nodes);
      if ready {
        GroupReady(s0, e, nodes, groups, k);
      }
      if provider.None? {
        return Err(ProviderRequired(groups[k].providerId));
      }
      ghost var s := registry.View();
      SameWorld(s0, s, id);
      var claim := WriteClaim(registry, provider.value.operator, id, groups[k].shards);
      OnlyPaidTwice(s0, s, registry.View(), id);
      SameWorld(s0, registry.View(), id);
      if ready {
        PassClaim(s0, s, registry.View(), id, nodes, groups, k, provider.value, claim.Ok?);
      }
      if claim.Err? {
        return Err(Reverted(claim.error));
      }
      settlements := settlements + [Settlement(groups[k], RewardFor(e.payment.rewardPerShard, groups[k]))];
      RecordsGoOn(e.payment.rewardPerShard, groups, k);
    }
    assert groups[..|groups|] == groups;
    r := Ok(settlements);
  }

  lemma SettleableIsOpen(s: State, e: Entry, nodes: seq<Node>)
    ensures Settleable(s, e, nodes) ==> ClaimOpen(e) && (e.payment.status.Claimable? || e.payment.status.PartiallySettled?)
  {
    hide AllAcked, PlacedNodesReady;
  }

  lemma SameWorld(s: State, s': State, id: Hash)
    requires OnlyPaid(s, s', id)
    ensures id in s'.entries && s'.now == s.now && s'.providers == s.providers && s'.providerIdOf == s.providerIdOf
  {
    hide SameSlots;
  }

  lemma RecordsGoOn(reward: nat, groups: seq<Group>, k: nat)
    requires k < |groups|
    ensures RecordsOf(reward, groups[..k + 1]) == RecordsOf(reward, groups[..k]) + [Settlement(groups[k], RewardFor(reward, groups[k]))]
  {
    hide RewardFor;
  }

  // ---- What the pass amounts to ----

  // From a fresh payment every group has something to gain, or none.
  lemma FreshGains(e: Entry, now: nat, groups: seq<Group>)
    requires Sound(e) && Timely(e, now) && e.payment.status.Claimable? && Grouped(groups, e.placement, e.terms.totalShards)
    ensures Leading(e, now, groups) == if WorthClaiming(e, now) then |groups| else 0
  {
    var k := Leading(e, now, groups);
    assert e.immediate == {} && e.reserve == {};
    hide IndexSet, Sound, Leading;
    if k < |groups| {
      GroupIsFresh(groups, e.placement, e.terms.totalShards, k);
      var shards := IndexSet(groups[k].shards);
      assert shards - (e.immediate + {}) == shards && shards - (e.reserve + {}) == shards;
    }
    if k > 0 {
      assert Gains(e, now, {}, IndexSet(groups[0].shards));
    }
  }

  lemma DisjointSizes(a: set<nat>, b: set<nat>, unit: nat)
    requires a * b == {}
    ensures unit * |a + b| == unit * |a| + unit * |b|
  {
    assert |a + b| == |a| + |b|;
    MulAdd(unit, |a|, |b|);
  }

  lemma CoveredGrows(groups: seq<Group>, placement: map<nat, nat>, n: nat, k: nat, reward: nat)
    requires Grouped(groups, placement, n) && k < |groups|
    ensures reward * |Covered(groups, k + 1)| == reward * |Covered(groups, k)| + RewardFor(reward, groups[k])
  {
    var g := groups[k];
    assert GroupIs(g, placement, n);
    hide IndexSet, Grouped, GroupIs, Increasing;
    GroupIsFresh(groups, placement, n, k);
    IndexSetSize(g.shards);
    DisjointSizes(Covered(groups, k), IndexSet(g.shards), reward);
  }

  lemma {:induction false} RecordedIsRewards(groups: seq<Group>, placement: map<nat, nat>, n: nat, reward: nat, k: nat)
    requires Grouped(groups, placement, n) && k <= |groups|
    ensures RecordedTotal(RecordsOf(reward, groups[..k])) == reward * |Covered(groups, k)|
  {
    if k > 0 {
      hide Grouped, RewardFor, IndexSet;
      RecordedIsRewards(groups, placement, n, reward, k - 1);
      RecordsGoOn(reward, groups, k - 1);
      CoveredGrows(groups, placement, n, k - 1, reward);
      var records := RecordsOf(reward, groups[..k]);
      assert records[..|records| - 1] == RecordsOf(reward, groups[..k - 1]);
    }
  }

  // A whole pass over a fully placed blob marks every shard, pays what was
  // still due for each, and records the reward of each whether due or not.
  lemma PassTotals(e0: Entry, e: Entry, now: nat, groups: seq<Group>)
    requires Passed(e0, e, now, groups, |groups|) && e0.terms.totalShards >= 1
    requires Grouped(groups, e0.placement, e0.terms.totalShards) && Below(e0.terms.totalShards) <= e0.placement.Keys
    ensures RecordedTotal(RecordsOf(e0.payment.rewardPerShard, groups)) == e0.payment.rewardPerShard * e0.terms.totalShards
    ensures e.immediate == Below(e.terms.totalShards)
    ensures e.payment.providerSettled == e0.payment.providerSettled + AmountFor(e0, now, Below(e0.terms.totalShards))
    ensures now >= e0.terms.expiresAt ==> e.payment.status.Settled?
  {
    hide Grouped, Sound, Accounts, RecordedTotal, Below, AfterClaim, AmountFor, RecordsOf, Paying, Timely;
    var n := e0.terms.totalShards;
    var all := Below(n);
    AllCovered(groups, e0.placement, n);
    BelowIsNotEmpty(n);
    PayingHasAccounts(e0, e, all, now);
    PayingIs(e0, e, all, now);
    RecordedIsRewards(groups, e0.placement, n, e0.payment.rewardPerShard, |groups|);
    assert groups[..|groups|] == groups;
    AfterClaimFields(e0, all, now);
    MarkersNest(e0);
    assert e0.immediate + all == all && e0.reserve + all == all;
    PoolUsedUpByReserves(e);
  }

  lemma BelowIsNotEmpty(n: nat)
    requires n >= 1
    ensures Below(n) != {} && |Below(n)| == n
  {
    BelowSize(n);
    assert 0 in Below(n);
  }

  lemma Distributes(reward: nat, share: nat, n: nat)
    requires n >= 1 && share >= 1
    ensures (reward + share) * n == reward * n + share * n && share * n >= 1
  {
  }

  lemma AccountsAre(e: Entry)
    requires Accounts(e)
    ensures var p, share := e.payment, ReserveShare(e);
            && share >= 1
            && p.providerSettled == p.rewardPerShard * |e.immediate| + share * |e.reserve|
            && p.providerPool == (p.rewardPerShard + share) * e.terms.totalShards
  {
    hide Below;
  }

  // From a fresh payment: before expiry the pass records exactly what it
  // settled, every immediate reward once. From expiry on it settles the whole
  // pool, and what it records falls short by the reserves.
  lemma FreshTotals(e0: Entry, e: Entry, now: nat, groups: seq<Group>)
    requires Sound(e0) && Timely(e0, now) && e0.payment.status.Claimable?
    requires Passed(e0, e, now, groups, |groups|) && Grouped(groups, e0.placement, e0.terms.totalShards)
    requires Below(e0.terms.totalShards) <= e0.placement.Keys
    ensures var p, recorded := e.payment, RecordedTotal(RecordsOf(e0.payment.rewardPerShard, groups));
            && recorded == e0.payment.rewardPerShard * e0.terms.totalShards
            && e.immediate == Below(e.terms.totalShards)
            && (now < e.terms.expiresAt ==> p.status.PartiallySettled? && p.providerSettled == recorded && e.reserve == {})
            && (now >= e.terms.expiresAt ==> p.status.Settled? && p.providerSettled == p.providerPool && recorded < p.providerPool)
  {
    assert e0.reserve == {} && e0.terms.totalShards >= 1;
    hide Sound, Accounts, Grouped, RecordedTotal, RecordsOf, Paying, Below, ReserveShare, AmountFor;
    PassTotals(e0, e, now, groups);
    AllCovered(groups, e0.placement, e0.terms.totalShards);
    FreshMarks(e0, e, now);
  }

  lemma FreshMarks(e0: Entry, e: Entry, now: nat)
    requires e0.terms.totalShards >= 1 && Paying(e0, e, Below(e0.terms.totalShards), now) && e0.reserve == {}
    requires e.immediate == Below(e.terms.totalShards)
    ensures var p, rewards := e.payment, e0.payment.rewardPerShard * e0.terms.totalShards;
            && (now < e.terms.expiresAt ==> p.status.PartiallySettled? && p.providerSettled == rewards && e.reserve == {})
            && (now >= e.terms.expiresAt ==> p.status.Settled? && p.providerSettled == p.providerPool && rewards < p.providerPool)
  {
    hide Sound, Accounts, Paying, ReserveShare, Below, AfterClaim, Timely, AmountFor;
    var n := e0.terms.totalShards;
    BelowIsNotEmpty(n);
    PayingHasAccounts(e0, e, Below(n), now);
    PayingIs(e0, e, Below(n), now);
    AfterClaimFields(e0, Below(n), now);
    PoolUsedUpByReserves(e);
    MarkersNest(e);
    SettledAmounts(e);
  }

  // Rewards alone, or rewards and reserves.
  lemma SettledAmounts(e: Entry)
    requires Accounts(e) && e.terms.totalShards >= 1 && e.immediate == Below(e.terms.totalShards)
    ensures e.reserve == {} ==> e.payment.providerSettled == e.payment.rewardPerShard * e.terms.totalShards
    ensures e.payment.rewardPerShard * e.terms.totalShards < e.payment.providerPool
  {
    hide Accounts, ReserveShare, Below;
    BelowIsNotEmpty(e.terms.totalShards);
    AccountsAre(e);
    Distributes(e.payment.rewardPerShard, ReserveShare(e), e.terms.totalShards);
  }
}
