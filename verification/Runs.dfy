// Whole runs of the contract by arbitrary callers: re-entrant transactions,
// reachable states, and what no run can undo.
module Runs {
  import opened Prelude
  import opened Quote
  import opened Blob
  import opened BlobInvariants
  import opened Protocol
  import opened Ledgers
  import opened Invariants

  // ---- Flat runs ----

  datatype Event =
    | Elapse(seconds: nat)
    | ForceSend(amount: nat)
    | Do(call: Call)

  // A reverted call leaves no trace; time passes and ether may be forced in.
  function Apply(s: State, ev: Event): State {
    match ev
    case Elapse(seconds) => s.(now := s.now + seconds)
    case ForceSend(amount) => s.(ledger := s.ledger.(balance := s.ledger.balance + amount, forced := s.ledger.forced + amount))
    case Do(call) => if Step(s, call).Ok? then Step(s, call).value else s
  }

  function Run(s: State, events: seq<Event>): State {
    if events == [] then s else Apply(Run(s, events[..|events| - 1]), events[|events| - 1])
  }

  lemma {:induction false} RunConcat(s: State, a: seq<Event>, b: seq<Event>)
    ensures Run(s, a + b) == Run(Run(s, a), b)
  {
    if b == [] {
      assert a + b == a;
    } else {
      var front := b[..|b| - 1];
      RunConcat(s, a, front);
      assert (a + b)[..|a + b| - 1] == a + front;
    }
  }

  lemma ElapseKeepsValid(s: State, seconds: nat)
    requires Valid(s)
    ensures Valid(Apply(s, Elapse(seconds)))
  {
    hide Sound, Solvent, Recorded, NamesValid, NoncesValid, ProvidersValid, AllPlaced, Step;
  }

  lemma ForceKeepsValid(s: State, amount: nat)
    requires Valid(s)
    ensures Valid(Apply(s, ForceSend(amount)))
  {
    hide AllSound, Recorded, NamesValid, NoncesValid, ProvidersValid, AllPlaced, Total, Sum, Step;
  }

  lemma ApplyKeepsValid(s: State, ev: Event)
    requires Valid(s)
    ensures Valid(Apply(s, ev))
  {
    hide Valid, Step;
    match ev
    case Elapse(seconds) => ElapseKeepsValid(s, seconds);
    case ForceSend(amount) => ForceKeepsValid(s, amount);
    case Do(call) =>
      if Step(s, call).Ok? {
        StepKeepsValid(s, call);
      }
  }

  // Every state any callers can reach satisfies the invariant.
  lemma {:induction false} RunKeepsValid(s: State, events: seq<Event>)
    requires Valid(s)
    ensures Valid(Run(s, events))
  {
    hide Valid, Apply;
    if events != [] {
      RunKeepsValid(s, events[..|events| - 1]);
      ApplyKeepsValid(Run(s, events[..|events| - 1]), events[|events| - 1]);
    }
  }

  function Deployed(deployer: Address, now: nat, events: seq<Event>): State {
    Run(Init(deployer, now), events)
  }

  lemma DeployedIsValid(deployer: Address, now: nat, events: seq<Event>)
    ensures Valid(Deployed(deployer, now, events))
  {
    hide Valid;
    InitValid(deployer, now);
    RunKeepsValid(Init(deployer, now), events);
  }

  // ---- Re-entrant transactions ----

  // A call whose final transfer hands control to the recipient, which makes
  // further transactions before it accepts or rejects the ether.
  datatype Transaction = Transaction(call: Call, nested: seq<Transaction>, accepts: bool)

  predicate Transfers(s: State, s': State) {
    |s'.ledger.history| > |s.ledger.history|
  }

  // A rejected transfer reverts the call and everything nested in it.
  function Execute(s: State, t: Transaction): State
    decreases t, 1
  {
    match Step(s, t.call)
    case Err(_) => s
    case Ok(s1) =>
      if !Transfers(s, s1) then s1
      else if !t.accepts then s
      else ExecuteAll(s1, t.nested)
  }

  function ExecuteAll(s: State, ts: seq<Transaction>): State
    decreases ts, 0
  {
    if ts == [] then s else ExecuteAll(Execute(s, ts[0]), ts[1..])
  }

  // The same calls one after the other.
  function Flatten(s: State, t: Transaction): seq<Event>
    decreases t, 1
  {
    match Step(s, t.call)
    case Err(_) => []
    case Ok(s1) =>
      if !Transfers(s, s1) then [Do(t.call)]
      else if !t.accepts then []
      else [Do(t.call)] + FlattenAll(s1, t.nested)
  }

  function FlattenAll(s: State, ts: seq<Transaction>): seq<Event>
    decreases ts, 0
  {
    if ts == [] then [] else Flatten(s, ts[0]) + FlattenAll(Execute(s, ts[0]), ts[1..])
  }

  lemma RunOne(s: State, ev: Event)
    ensures Run(s, [ev]) == Apply(s, ev)
  {
    assert [ev][..0] == [];
    hide Apply;
  }

  // Because every transfer is the last effect of its method, re-entering the
  // contract reaches nothing that separate calls could not.
  lemma {:induction false} ReentrancyIsARun(s: State, t: Transaction)
    ensures Execute(s, t) == Run(s, Flatten(s, t))
    decreases t, 1
  {
    hide Step;
    if Step(s, t.call).Ok? {
      var s1 := Step(s, t.call).value;
      RunOne(s, Do(t.call));
      if Transfers(s, s1) && t.accepts {
        ReentrancyIsARunAll(s1, t.nested);
        RunConcat(s, [Do(t.call)], FlattenAll(s1, t.nested));
      }
    }
  }

  lemma {:induction false} ReentrancyIsARunAll(s: State, ts: seq<Transaction>)
    ensures ExecuteAll(s, ts) == Run(s, FlattenAll(s, ts))
    decreases ts, 0
  {
    hide Step;
    if ts != [] {
      ReentrancyIsARun(s, ts[0]);
      ReentrancyIsARunAll(Execute(s, ts[0]), ts[1..]);
      RunConcat(s, Flatten(s, ts[0]), FlattenAll(Execute(s, ts[0]), ts[1..]));
    }
  }

  // What happens on the chain: blocks pass, ether is forced in, and top-level
  // transactions run with everything nested in them.
  datatype Action = Wait(seconds: nat) | Force(amount: nat) | Send(t: Transaction)

  function Act(s: State, a: Action): State {
    match a
    case Wait(seconds) => Apply(s, Elapse(seconds))
    case Force(amount) => Apply(s, ForceSend(amount))
    case Send(t) => Execute(s, t)
  }

  function Chain(s: State, actions: seq<Action>): State {
    if actions == [] then s else Act(Chain(s, actions[..|actions| - 1]), actions[|actions| - 1])
  }

  function ActEvents(s: State, a: Action): seq<Event> {
    match a
    case Wait(seconds) => [Elapse(seconds)]
    case Force(amount) => [ForceSend(amount)]
    case Send(t) => Flatten(s, t)
  }

  // Every chain history is a flat run.
  lemma {:induction false} ChainIsARun(s: State, actions: seq<Action>) returns (events: seq<Event>)
    ensures Chain(s, actions) == Run(s, events)
  {
    hide Step, Execute, Flatten;
    if actions == [] {
      events := [];
    } else {
      var before := Chain(s, actions[..|actions| - 1]);
      var front := ChainIsARun(s, actions[..|actions| - 1]);
      var a := actions[|actions| - 1];
      match a {
        case Wait(seconds) => RunOne(before, Elapse(seconds));
        case Force(amount) => RunOne(before, ForceSend(amount));
        case Send(t) => ReentrancyIsARun(before, t);
      }
      events := front + ActEvents(before, a);
      RunConcat(s, front, ActEvents(before, a));
    }
  }

  // A flat run as top-level transactions whose recipients take the ether.
  function AcceptedAction(ev: Event): Action {
    match ev
    case Elapse(seconds) => Wait(seconds)
    case ForceSend(amount) => Force(amount)
    case Do(call) => Send(Transaction(call, [], true))
  }

  function Accepted(events: seq<Event>): seq<Action> {
    seq(|events|, i requires 0 <= i < |events| => AcceptedAction(events[i]))
  }

  lemma ActAccepted(s: State, ev: Event)
    ensures Act(s, AcceptedAction(ev)) == Apply(s, ev)
  {
    hide Step, Transfers;
    if ev.Do? {
      var t := Transaction(ev.call, [], true);
      assert t.nested == [];
      if Step(s, ev.call).Ok? {
        assert ExecuteAll(Step(s, ev.call).value, []) == Step(s, ev.call).value;
      }
      assert Execute(s, t) == Apply(s, ev);
    }
  }

  lemma {:induction false} AcceptedIsRun(s: State, events: seq<Event>)
    ensures Chain(s, Accepted(events)) == Run(s, events)
  {
    hide Act, Apply, AcceptedAction;
    if events != [] {
      var front, last := events[..|events| - 1], events[|events| - 1];
      AcceptedIsRun(s, front);
      assert Accepted(events)[..|events| - 1] == Accepted(front);
      assert Accepted(events)[|events| - 1] == AcceptedAction(last);
      ActAccepted(Run(s, front), last);
    }
  }

  // ---- Solvency ----

  // After any history of re-entrant transactions the balance is exactly what
  // was forced in, what is still owed blob by blob, and the withdrawable fees;
  // all fees ever earned are those of settled blobs; and nothing received has
  // gone anywhere but into a recorded transfer.
  lemma SolventForever(deployer: Address, now: nat, actions: seq<Action>)
    ensures Solvent(Chain(Init(deployer, now), actions).entries, Chain(Init(deployer, now), actions).ledger)
    ensures Valid(Chain(Init(deployer, now), actions))
  {
    hide Chain, Run, Solvent, AllSound, Recorded, NamesValid, NoncesValid, ProvidersValid, AllPlaced;
    var events := ChainIsARun(Init(deployer, now), actions);
    DeployedIsValid(deployer, now, events);
  }

  // ---- Who is paid, and how often ----

  // What the payee of a provider payout was entitled to when it was paid.
  ghost predicate Entitled(s: State, p: Payout)
    requires p.ToProvider?
  {
    && p.operator in s.providerIdOf && s.providerIdOf[p.operator] == p.provider && IsActive(s, p.provider)
    && p.blobId in s.entries
    && var e := s.entries[p.blobId];
       && ClaimOpen(e)
       && (forall i :: i in p.immediate + p.reserve ==> Payable(e, p.provider, i))
       && (p.reserve != {} ==> s.now >= e.terms.expiresAt)
  }

  lemma ClaimEntitles(s: State, c: Call)
    requires Valid(s) && c.ClaimProviderSettlement? && Step(s, c).Ok?
    ensures var h := Step(s, c).value.ledger.history;
            && |h| == |s.ledger.history| + 1 && h[..|s.ledger.history|] == s.ledger.history
            && h[|s.ledger.history|].ToProvider? && Entitled(s, h[|s.ledger.history|])
  {
    hide Valid, Step, Sound, Timely, PlacedWith, Claim, IndexSet, Payable;
    ClaimShape(s, c);
    ValidSlots(s, c.blobId);
    ClaimOutcome(s.entries[c.blobId], CallerProvider(s, c.sender).value, c.shards, s.now);
  }

  // Only claims pay providers, and a payout only ever extends the history.
  lemma StepHistory(s: State, c: Call)
    requires Step(s, c).Ok?
    ensures var h, h' := s.ledger.history, Step(s, c).value.ledger.history;
            && |h| <= |h'| <= |h| + 1 && h'[..|h|] == h
            && (|h'| > |h| && h'[|h|].ToProvider? ==> c.ClaimProviderSettlement?)
  {
    hide Step, CreatePaid, QuoteNativePayment, Claim, Refund, LifecycleEntry;
    if IsQuiet(c) {
      QuietFrame(s, c);
    } else if IsLifecycle(c) {
      LifecycleShape(s, c);
    } else if c.CreateBlobPaid? {
      CreatePaidHistory(s, c);
    } else if c.ClaimProviderSettlement? {
      ClaimShape(s, c);
    } else if c.RefundPaidBlob? {
      RefundShape(s, c);
    } else {
      PlainHistory(s, c);
    }
  }

  lemma PlainHistory(s: State, c: Call)
    requires (c.CreateBlob? || c.WithdrawProtocolFees?) && Step(s, c).Ok?
    ensures var h, h' := s.ledger.history, Step(s, c).value.ledger.history;
            |h| <= |h'| <= |h| + 1 && h'[..|h|] == h && (|h'| > |h| ==> !h'[|h|].ToProvider?)
  {
  }

  lemma CreatePaidHistory(s: State, c: Call)
    requires c.CreateBlobPaid? && Step(s, c).Ok?
    ensures var h, h' := s.ledger.history, Step(s, c).value.ledger.history;
            h' == h || exists p: Payout :: p.ChangeTo? && h' == h + [p]
  {
    hide CreatePaid, QuoteNativePayment, AddBlob;
    assert Step(s, c) == CreatePaid(s, c);
    CreatePaidShape(s, c);
    var r := c.terms;
    var quote := QuoteNativePayment(r.size, r.totalShards, c.policy.storageMode, r.expiresAt, s.now, s.rate, s.feeBps).value;
    AddBlobShape(Receive(s, c.value), c.sender, r, c.named, User, c.policy, Escrow(c.sender, quote, s.now));
    if c.value > quote.total {
      assert ChangeTo(c.sender, c.value - quote.total).ChangeTo?;
    }
  }

  lemma ApplyHistory(s: State, ev: Event)
    requires Valid(s)
    ensures var h, h' := s.ledger.history, Apply(s, ev).ledger.history;
            && |h| <= |h'| <= |h| + 1 && h'[..|h|] == h
            && (|h'| > |h| && h'[|h|].ToProvider? ==> ev.Do? && Entitled(s, h'[|h|]))
  {
    if ev.Do? {
      hide Valid, Step, Entitled;
      if Step(s, ev.call).Ok? {
        StepHistory(s, ev.call);
        if ev.call.ClaimProviderSettlement? {
          ClaimEntitles(s, ev.call);
        }
      }
    }
  }

  // Every provider payout in the history of a run was made to the operator of
  // the provider then placed on, and acknowledged for, each shard it paid.
  lemma {:induction false} EveryPayeeWasEntitled(deployer: Address, now: nat, events: seq<Event>, k: nat)
    requires k < |Deployed(deployer, now, events).ledger.history|
    requires Deployed(deployer, now, events).ledger.history[k].ToProvider?
    ensures exists j :: 0 <= j < |events| && EntitledAt(deployer, now, events, j, k)
  {
    hide Valid, Apply, Entitled;
    if events != [] {
      var front, last := events[..|events| - 1], events[|events| - 1];
      var before := Deployed(deployer, now, front);
      DeployedIsValid(deployer, now, front);
      ApplyHistory(before, last);
      if k < |before.ledger.history| {
        assert Deployed(deployer, now, events).ledger.history[..|before.ledger.history|][k] == before.ledger.history[k];
        EveryPayeeWasEntitled(deployer, now, front, k);
        var j :| 0 <= j < |front| && EntitledAt(deployer, now, front, j, k);
        assert front[..j] == events[..j];
        assert EntitledAt(deployer, now, events, j, k);
      } else {
        assert EntitledAt(deployer, now, events, |events| - 1, k);
      }
    }
  }

  // Event `j` made payout `k`, and its payee was entitled to it.
  ghost predicate EntitledAt(deployer: Address, now: nat, events: seq<Event>, j: nat, k: nat)
    requires j < |events| && k < |Deployed(deployer, now, events).ledger.history|
  {
    var before, p := Deployed(deployer, now, events[..j]), Deployed(deployer, now, events).ledger.history[k];
    |before.ledger.history| == k && p.ToProvider? && events[j].Do? && Entitled(before, p)
  }

  // In any reachable state, over the whole history and all providers, each
  // shard's immediate reward and its reserve have each been paid at most once.
  lemma PaidAtMostOnce(deployer: Address, now: nat, actions: seq<Action>, id: Hash, i: nat)
    requires id in Chain(Init(deployer, now), actions).entries
    ensures var s := Chain(Init(deployer, now), actions);
            var h := s.ledger.history;
            && 0 <= Tally(h, id, i, true) <= Tally(h, id, i, false) <= 1
            && var e := s.entries[id];
               (e.payment.status != NoPayment ==>
                  e.payment.rewardPerShard * Tally(h, id, i, false) + ReserveShare(e) * Tally(h, id, i, true)
                  <= Gross(e))
  {
    SolventForever(deployer, now, actions);
    var s := Chain(Init(deployer, now), actions);
    hide Chain, Solvent, Valid;
    TalliesAreMarks(s, id, i);
  }

  lemma HistoryTallied(s: State, id: Hash)
    requires Valid(s) && id in s.entries
    ensures Tallied(id, s.entries[id], s.ledger.history)
  {
    hide Sound, Timely, Solvent, NamesValid, NoncesValid, ProvidersValid, AllPlaced, AllSound, Tallied, PricedRight;
  }

  lemma TalliesAreMarks(s: State, id: Hash, i: nat)
    requires Valid(s) && id in s.entries
    ensures var e, h := s.entries[id], s.ledger.history;
            && Tally(h, id, i, false) == Indicator(i in e.immediate)
            && Tally(h, id, i, true) == Indicator(i in e.reserve)
            && e.reserve <= e.immediate
            && (e.payment.status != NoPayment ==>
                  ReserveShare(e) >= 1 && e.payment.rewardPerShard + ReserveShare(e) == Gross(e))
  {
    hide Valid, Tally, PlacedWith, Shards, Timely;
    var e := s.entries[id];
    HistoryTallied(s, id);
    assert Marked(e, i, true) == (i in e.reserve) && Marked(e, i, false) == (i in e.immediate);
    ValidSlots(s, id);
  }

  // A blob that was refunded has never paid a provider, and the other way round.
  lemma RefundExcludesPayout(deployer: Address, now: nat, actions: seq<Action>, id: Hash)
    requires id in Chain(Init(deployer, now), actions).entries
    ensures var s := Chain(Init(deployer, now), actions);
            var h := s.ledger.history;
            && Sum(h, RefundsOf(id)) == Indicator(s.entries[id].payment.status.Refunded?)
            && Sum(h, PaidFor(id)) == s.entries[id].payment.providerSettled
            && (Sum(h, RefundsOf(id)) == 0 || Sum(h, PaidFor(id)) == 0)
  {
    hide Valid, Chain, Solvent, Sum, Timely, PlacedWith, Sound, Tally;
    SolventForever(deployer, now, actions);
    var s := Chain(Init(deployer, now), actions);
    HistoryTallied(s, id);
    ValidSlots(s, id);
    RefundedUnsettled(s.entries[id]);
  }

  lemma RefundedUnsettled(e: Entry)
    requires Sound(e)
    ensures e.payment.status.Refunded? ==> e.payment.providerSettled == 0
  {
    hide Shards;
    if e.payment.status.Refunded? {
      assert e.immediate == {} && e.reserve == {};
      assert |e.immediate| == 0 && |e.reserve| == 0;
    }
  }
}
