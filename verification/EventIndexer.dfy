// The event indexer: poll the chain in bounded windows, keep what was found,
// and remember the next block across restarts.
module EventIndexer {
  import opened Prelude

  datatype Log = Log(blockNumber: nat, logIndex: nat, name: string)

  // The logs of each block; a block that is below the head does not change.
  type Ledger = nat -> seq<Log>

  // Both ends are included, as in the RPC's own filter.
  datatype Window = Window(fromBlock: nat, toBlock: nat)

  datatype PollError = HeadUnknown | RpcDown(fromBlock: nat) | StoreDown(cursor: nat)

  // One query over the blocks from `lo` up to but not including `hi`.
  function Query(chain: Ledger, lo: nat, hi: nat): seq<Log>
    decreases hi - lo
  {
    if lo >= hi then [] else Query(chain, lo, hi - 1) + chain(hi - 1)
  }

  // ---- The windows of one poll ----

  function Target(next: nat, latest: nat, range: nat, ranges: nat): (r: int)
    ensures r <= latest
  {
    var limit := next + range * ranges - 1;
    if limit < latest then limit else latest
  }

  // The windows the loop visits from `fromBlock` on.
  function WindowsFrom(fromBlock: nat, latest: nat, target: int, range: nat): seq<Window>
    requires range >= 1 && target <= latest
    decreases target + 1 - fromBlock
  {
    if fromBlock > target then []
    else
      [Window(fromBlock, if fromBlock + range - 1 < latest then fromBlock + range - 1 else target)]
      + WindowsFrom(fromBlock + range, latest, target, range)
  }

  // What a poll at `next` visits when the head is `latest`.
  function PollWindows(next: nat, latest: nat, range: nat, ranges: nat): seq<Window>
    requires range >= 1
  {
    if latest < next then [] else WindowsFrom(next, latest, Target(next, latest, range, ranges), range)
  }

  // Contiguous windows from `lo` up to but not including `hi`, none longer
  // than `range`.
  predicate Tiles(windows: seq<Window>, lo: nat, hi: nat, range: nat) {
    if windows == [] then lo == hi
    else
      var last := windows[|windows| - 1];
      && last.toBlock + 1 == hi && last.fromBlock <= last.toBlock < last.fromBlock + range
      && Tiles(windows[..|windows| - 1], lo, last.fromBlock, range)
  }

  lemma {:induction false} TilesConcat(a: seq<Window>, b: seq<Window>, lo: nat, mid: nat, hi: nat, range: nat)
    requires Tiles(a, lo, mid, range) && Tiles(b, mid, hi, range)
    ensures Tiles(a + b, lo, hi, range)
  {
    if b == [] {
      assert a + b == a;
    } else {
      var last := b[|b| - 1];
      TilesConcat(a, b[..|b| - 1], lo, mid, last.fromBlock, range);
      assert (a + b)[..|a + b| - 1] == a + b[..|b| - 1];
    }
  }

  lemma {:induction false} TilesAscend(windows: seq<Window>, lo: nat, hi: nat, range: nat)
    requires Tiles(windows, lo, hi, range)
    ensures lo <= hi && hi - lo <= |windows| * range && |windows| <= hi - lo
  {
    if windows != [] {
      TilesAscend(windows[..|windows| - 1], lo, windows[|windows| - 1].fromBlock, range);
    }
  }

  lemma MulStep(n: nat, c: nat)
    ensures (n + 1) * c == n * c + c
  {
  }

  // The blocks that `left` windows reach over.
  function Span(left: nat, range: nat): nat {
    if left == 0 then 0 else Span(left - 1, range) + range
  }

  lemma {:induction false} SpanIsProduct(left: nat, range: nat)
    ensures Span(left, range) == range * left
  {
    if left > 0 {
      SpanIsProduct(left - 1, range);
      MulStep(left - 1, range);
    }
  }

  // A poll stays below its target, within its budget, and leaves no gap. With
  // `left` windows to spend, the target is the head or the end of the budget.
  lemma {:induction false} PollTiles(fromBlock: nat, left: nat, latest: nat, target: int, range: nat)
    requires range >= 1 && target <= latest && target + 1 <= fromBlock + Span(left, range)
    requires target < latest ==> target + 1 == fromBlock + Span(left, range)
    ensures var windows := WindowsFrom(fromBlock, latest, target, range);
            |windows| <= left && Tiles(windows, fromBlock, if fromBlock <= target then target + 1 else fromBlock, range)
    decreases left
  {
    if fromBlock <= target {
      assert left > 0;
      FirstWindow(fromBlock, latest, target, range, Span(left - 1, range));
      PollTiles(fromBlock + range, left - 1, latest, target, range);
      var first := Window(fromBlock, if fromBlock + range - 1 < latest then fromBlock + range - 1 else target);
      TilesConcat([first], WindowsFrom(fromBlock + range, latest, target, range), fromBlock, first.toBlock + 1, target + 1, range);
    }
  }

  // The first window ends at or before the target, and the next one, if any,
  // begins right after it.
  lemma FirstWindow(fromBlock: nat, latest: nat, target: int, range: nat, rest: nat)
    requires range >= 1 && fromBlock <= target <= latest && target + 1 <= fromBlock + range + rest
    requires target < latest ==> target + 1 == fromBlock + range + rest
    ensures var first := Window(fromBlock, if fromBlock + range - 1 < latest then fromBlock + range - 1 else target);
            && first.toBlock <= target && Tiles([first], fromBlock, first.toBlock + 1, range)
            && (fromBlock + range <= target ==> first.toBlock + 1 == fromBlock + range)
            && (fromBlock + range > target ==> first.toBlock == target)
  {
    var first := Window(fromBlock, if fromBlock + range - 1 < latest then fromBlock + range - 1 else target);
    assert [first][..0] == [];
  }

  // ---- One poll, and what may go wrong in it ----

  // The head the RPC reports, if it does; the window whose logs it fails to
  // return; the window after which the cursor cannot be stored.
  datatype Weather = Weather(head: Option<nat>, rpcDownAt: Option<nat>, storeDownAt: Option<nat>)

  function Plan(next: nat, w: Weather, range: nat, ranges: nat): seq<Window>
    requires range >= 1
  {
    if w.head.None? then [] else PollWindows(next, w.head.value, range, ranges)
  }

  // How many of the planned windows are kept.
  function Kept(w: Weather, planned: nat): (k: nat)
    ensures k <= planned
  {
    if w.storeDownAt.Some? && w.storeDownAt.value < planned && (w.rpcDownAt.None? || w.storeDownAt.value < w.rpcDownAt.value)
    then w.storeDownAt.value + 1
    else if w.rpcDownAt.Some? && w.rpcDownAt.value < planned then w.rpcDownAt.value
    else planned
  }

  // Whether the last kept window is missing from the stored cursor.
  predicate Unsaved(w: Weather, planned: nat) {
    w.storeDownAt.Some? && w.storeDownAt.value < planned && (w.rpcDownAt.None? || w.storeDownAt.value < w.rpcDownAt.value)
  }

  function EndOf(next: nat, windows: seq<Window>): nat {
    if windows == [] then next else windows[|windows| - 1].toBlock + 1
  }

  lemma PlanTiles(next: nat, w: Weather, range: nat, ranges: nat)
    requires range >= 1 && ranges >= 1
    ensures var plan := Plan(next, w, range, ranges);
            && |plan| <= ranges && Tiles(plan, next, EndOf(next, plan), range)
            && (w.head.None? ==> plan == [])
            && (w.head.Some? ==>
                  EndOf(next, plan) == if w.head.value < next then next
                                       else if next + range * ranges <= w.head.value then next + range * ranges
                                       else w.head.value + 1)
            && (plan != [] ==> w.head.Some? && EndOf(next, plan) <= w.head.value + 1)
  {
    if w.head.Some? && next <= w.head.value {
      SpanIsProduct(ranges, range);
      MulMono(1, ranges, range);
      PollTiles(next, ranges, w.head.value, Target(next, w.head.value, range, ranges), range);
    }
  }

  lemma {:induction false} TilesPrefix(windows: seq<Window>, lo: nat, hi: nat, range: nat, k: nat)
    requires Tiles(windows, lo, hi, range) && k <= |windows|
    ensures Tiles(windows[..k], lo, EndOf(lo, windows[..k]), range)
  {
    if k == |windows| {
      assert windows[..k] == windows;
    } else {
      var front := windows[..|windows| - 1];
      TilesPrefix(front, lo, windows[|windows| - 1].fromBlock, range, k);
      assert front[..k] == windows[..k];
    }
  }

  // ---- Any sequence of polls ----

  function Reached(start: nat, polls: seq<Weather>, range: nat, ranges: nat): nat
    requires range >= 1
  {
    EndOf(start, Journey(start, polls, range, ranges))
  }

  // Every window that was ever kept, in order.
  function Journey(start: nat, polls: seq<Weather>, range: nat, ranges: nat): seq<Window>
    requires range >= 1
  {
    if polls == [] then []
    else
      var before := Journey(start, polls[..|polls| - 1], range, ranges);
      var plan := Plan(EndOf(start, before), polls[|polls| - 1], range, ranges);
      before + plan[..Kept(polls[|polls| - 1], |plan|)]
  }

  // What one poll keeps of its plan.
  function KeptOf(next: nat, w: Weather, range: nat, ranges: nat): seq<Window>
    requires range >= 1
  {
    var plan := Plan(next, w, range, ranges);
    plan[..Kept(w, |plan|)]
  }

  // What one poll leaves in the store, if it gets to store anything.
  function SavedOf(next: nat, w: Weather, range: nat, ranges: nat): Option<nat>
    requires range >= 1
  {
    var plan := Plan(next, w, range, ranges);
    var saved := Kept(w, |plan|) - (if Unsaved(w, |plan|) then 1 else 0);
    if saved == 0 then None else Some(plan[saved - 1].toBlock + 1)
  }

  // The cursor the store is left with.
  function Cursor(start: nat, polls: seq<Weather>, range: nat, ranges: nat): Option<nat>
    requires range >= 1
  {
    if polls == [] then None
    else
      var front := polls[..|polls| - 1];
      var saved := SavedOf(Reached(start, front, range, ranges), polls[|polls| - 1], range, ranges);
      if saved.Some? then saved else Cursor(start, front, range, ranges)
  }

  lemma SavedIsBehind(next: nat, w: Weather, range: nat, ranges: nat)
    requires range >= 1 && ranges >= 1
    ensures var saved, end := SavedOf(next, w, range, ranges), EndOf(next, KeptOf(next, w, range, ranges));
            && (saved.Some? ==> next <= saved.value <= end)
            && (w.storeDownAt.None? ==> end == if saved.Some? then saved.value else next)
  {
    KeptTiles(next, w, range, ranges);
    hide Plan, Tiles;
  }

  lemma KeptTiles(next: nat, w: Weather, range: nat, ranges: nat)
    requires range >= 1 && ranges >= 1
    ensures var kept := KeptOf(next, w, range, ranges);
            && |kept| <= ranges && next <= EndOf(next, kept) && Tiles(kept, next, EndOf(next, kept), range)
            && forall k :: 0 <= k < |kept| ==> next <= kept[k].fromBlock <= kept[k].toBlock < EndOf(next, kept)
  {
    hide Plan, Kept;
    var plan := Plan(next, w, range, ranges);
    PlanTiles(next, w, range, ranges);
    TilesPrefix(plan, next, EndOf(next, plan), range, Kept(w, |plan|));
    TilesBelow(KeptOf(next, w, range, ranges), next, EndOf(next, KeptOf(next, w, range, ranges)), range);
    TilesAscend(KeptOf(next, w, range, ranges), next, EndOf(next, KeptOf(next, w, range, ranges)), range);
  }

  // Whatever fails and however the head grows, the windows kept so far tile
  // the chain from the start to the next block.
  lemma {:induction false} JourneyTiles(start: nat, polls: seq<Weather>, range: nat, ranges: nat)
    requires range >= 1 && ranges >= 1
    ensures Tiles(Journey(start, polls, range, ranges), start, Reached(start, polls, range, ranges), range)
    ensures start <= Reached(start, polls, range, ranges)
  {
    if polls != [] {
      hide Tiles, KeptOf;
      var front, w := polls[..|polls| - 1], polls[|polls| - 1];
      JourneyTiles(start, front, range, ranges);
      var so, next := Journey(start, front, range, ranges), Reached(start, front, range, ranges);
      var kept := KeptOf(next, w, range, ranges);
      KeptTiles(next, w, range, ranges);
      JourneyGrows(start, polls, range, ranges);
      TilesConcat(so, kept, start, next, EndOf(next, kept), range);
      EndsCompose(start, so, kept);
    }
  }

  lemma JourneyGrows(start: nat, polls: seq<Weather>, range: nat, ranges: nat)
    requires range >= 1 && polls != []
    ensures var front, w := polls[..|polls| - 1], polls[|polls| - 1];
            Journey(start, polls, range, ranges)
            == Journey(start, front, range, ranges) + KeptOf(Reached(start, front, range, ranges), w, range, ranges)
  {
  }

  // No poll asks for more than its budget of windows.
  lemma {:induction false} JourneyBudget(start: nat, polls: seq<Weather>, range: nat, ranges: nat)
    requires range >= 1 && ranges >= 1
    ensures |Journey(start, polls, range, ranges)| <= |polls| * ranges
  {
    if polls != [] {
      hide Journey, KeptOf, Tiles, Reached;
      var front := polls[..|polls| - 1];
      JourneyBudget(start, front, range, ranges);
      JourneyGrows(start, polls, range, ranges);
      KeptTiles(Reached(start, front, range, ranges), polls[|polls| - 1], range, ranges);
      MulStep(|front|, ranges);
    }
  }

  lemma EndsCompose(start: nat, a: seq<Window>, b: seq<Window>)
    ensures EndOf(start, a + b) == EndOf(EndOf(start, a), b)
  {
  }

  // Nothing is ever asked for above the highest head that was reported.
  lemma {:induction false} JourneyBelowHead(start: nat, polls: seq<Weather>, range: nat, ranges: nat, head: nat)
    requires range >= 1 && ranges >= 1
    requires forall k :: 0 <= k < |polls| && polls[k].head.Some? ==> polls[k].head.value <= head
    ensures forall k :: 0 <= k < |Journey(start, polls, range, ranges)| ==> Journey(start, polls, range, ranges)[k].toBlock <= head
  {
    if polls != [] {
      var front, w := polls[..|polls| - 1], polls[|polls| - 1];
      JourneyBelowHead(start, front, range, ranges, head);
      var next := Reached(start, front, range, ranges);
      var plan := Plan(next, w, range, ranges);
      PlanTiles(next, w, range, ranges);
      if plan != [] {
        TilesBelow(plan, next, EndOf(next, plan), range);
      }
    }
  }

  lemma {:induction false} TilesBelow(windows: seq<Window>, lo: nat, hi: nat, range: nat)
    requires Tiles(windows, lo, hi, range)
    ensures forall k :: 0 <= k < |windows| ==> lo <= windows[k].fromBlock <= windows[k].toBlock < hi
  {
    if windows != [] {
      var front := windows[..|windows| - 1];
      TilesBelow(front, lo, windows[|windows| - 1].fromBlock, range);
      TilesAscend(front, lo, windows[|windows| - 1].fromBlock, range);
      forall k | 0 <= k < |windows| ensures lo <= windows[k].fromBlock <= windows[k].toBlock < hi {
        if k < |front| {
          assert windows[k] == front[k];
        }
      }
    }
  }

  // Polls that meet no fault, with the head at `head`, reach as far as their
  // budget or the head allows.
  lemma {:induction false} CleanPollsReach(start: nat, polls: seq<Weather>, head: nat, range: nat, ranges: nat)
    requires range >= 1 && ranges >= 1
    requires forall k :: 0 <= k < |polls| ==> polls[k] == Weather(Some(head), None, None)
    ensures var budget := start + Span(|polls|, range * ranges);
            Reached(start, polls, range, ranges) == if head < start then start else if budget <= head then budget else head + 1
  {
    if polls != [] {
      hide Plan, Kept, Tiles;
      var front, w := polls[..|polls| - 1], polls[|polls| - 1];
      CleanPollsReach(start, front, head, range, ranges);
      MulMono(1, ranges, range);
      var next := Reached(start, front, range, ranges);
      PlanTiles(next, w, range, ranges);
      CleanKeepsAll(w, Plan(next, w, range, ranges));
      EndsCompose(start, Journey(start, front, range, ranges), Plan(next, w, range, ranges));
    }
  }

  lemma CleanKeepsAll(w: Weather, plan: seq<Window>)
    requires w.rpcDownAt.None? && w.storeDownAt.None?
    ensures plan[..Kept(w, |plan|)] == plan
  {
  }

  predicate Covers(w: Window, block: nat) {
    w.fromBlock <= block <= w.toBlock
  }

  // Each block below the next one is in one window, and in only one.
  lemma {:induction false} EachBlockOnce(windows: seq<Window>, lo: nat, hi: nat, range: nat, block: nat) returns (k: nat)
    requires Tiles(windows, lo, hi, range) && lo <= block < hi
    ensures k < |windows| && Covers(windows[k], block)
    ensures forall j :: 0 <= j < |windows| && Covers(windows[j], block) ==> j == k
  {
    var n := |windows| - 1;
    var front, last := windows[..n], windows[n];
    TilesBelow(front, lo, last.fromBlock, range);
    if block >= last.fromBlock {
      k := n;
    } else {
      k := EachBlockOnce(front, lo, last.fromBlock, range, block);
    }
    forall j | 0 <= j < |windows| && Covers(windows[j], block) ensures j == k {
      if j < n {
        assert windows[j] == front[j];
      }
    }
  }

  // ---- What is collected ----

  lemma {:induction false} QueryConcat(chain: Ledger, lo: nat, mid: nat, hi: nat)
    requires lo <= mid <= hi
    ensures Query(chain, lo, mid) + Query(chain, mid, hi) == Query(chain, lo, hi)
    decreases hi - mid
  {
    if mid == hi {
      assert Query(chain, mid, hi) == [];
    } else {
      QueryConcat(chain, lo, mid, hi - 1);
    }
  }

  // A query holds the logs of each of its blocks, in the order of the blocks.
  lemma QueryHolds(chain: Ledger, lo: nat, block: nat, hi: nat)
    requires lo <= block < hi
    ensures Query(chain, lo, hi) == Query(chain, lo, block) + chain(block) + Query(chain, block + 1, hi)
  {
    QueryConcat(chain, lo, block + 1, hi);
  }

  // The logs of the windows, one after the other.
  function Gather(chain: Ledger, windows: seq<Window>): seq<Log> {
    if windows == [] then []
    else
      var last := windows[|windows| - 1];
      Gather(chain, windows[..|windows| - 1]) + Query(chain, last.fromBlock, last.toBlock + 1)
  }

  // Collecting window by window is one query over all the blocks.
  lemma {:induction false} GatherIsOneQuery(chain: Ledger, windows: seq<Window>, lo: nat, hi: nat, range: nat)
    requires Tiles(windows, lo, hi, range)
    ensures Gather(chain, windows) == Query(chain, lo, hi)
  {
    if windows != [] {
      var front, last := windows[..|windows| - 1], windows[|windows| - 1];
      GatherIsOneQuery(chain, front, lo, last.fromBlock, range);
      TilesAscend(front, lo, last.fromBlock, range);
      QueryConcat(chain, lo, last.fromBlock, hi);
    }
  }

  // Over any sequence of polls: no gap and no duplicate.
  lemma CollectedIsOneQuery(chain: Ledger, start: nat, polls: seq<Weather>, range: nat, ranges: nat)
    requires range >= 1 && ranges >= 1
    ensures Gather(chain, Journey(start, polls, range, ranges)) == Query(chain, start, Reached(start, polls, range, ranges))
  {
    JourneyTiles(start, polls, range, ranges);
    GatherIsOneQuery(chain, Journey(start, polls, range, ranges), start, Reached(start, polls, range, ranges), range);
  }

  // A cursor is never ahead of what was collected, and it is where the polls
  // got to unless a store failed.
  lemma {:induction false} CursorIsBehind(start: nat, polls: seq<Weather>, range: nat, ranges: nat)
    requires range >= 1 && ranges >= 1
    ensures var c := Cursor(start, polls, range, ranges);
            && (c.Some? ==> start <= c.value <= Reached(start, polls, range, ranges))
            && ((forall k :: 0 <= k < |polls| ==> polls[k].storeDownAt.None?)
                ==> Reached(start, polls, range, ranges) == if c.Some? then c.value else start)
  {
    JourneyTiles(start, polls, range, ranges);
    if polls != [] {
      hide Journey, Plan, Tiles, KeptOf, SavedOf;
      var front, w := polls[..|polls| - 1], polls[|polls| - 1];
      CursorIsBehind(start, front, range, ranges);
      var next := Reached(start, front, range, ranges);
      SavedIsBehind(next, w, range, ranges);
      KeptTiles(next, w, range, ranges);
      JourneyTiles(start, front, range, ranges);
      JourneyGrows(start, polls, range, ranges);
      EndsCompose(start, Journey(start, front, range, ranges), KeptOf(next, w, range, ranges));
    }
  }

  // A restart from the stored cursor leaves no gap: together, the two runs
  // cover the chain from the first start on, overlapping only in windows whose
  // cursor was never stored.
  lemma RestartCovers(chain: Ledger, start: nat, before: seq<Weather>, after: seq<Weather>, range: nat, ranges: nat)
    requires range >= 1 && ranges >= 1
    ensures var c := Cursor(start, before, range, ranges);
            var again := if c.Some? then c.value else start;
            var reached := Reached(again, after, range, ranges);
            && start <= again <= Reached(start, before, range, ranges)
            && again <= reached
            && Query(chain, start, again) + Gather(chain, Journey(again, after, range, ranges)) == Query(chain, start, reached)
  {
    CursorIsBehind(start, before, range, ranges);
    JourneyTiles(start, before, range, ranges);
    var c := Cursor(start, before, range, ranges);
    var again := if c.Some? then c.value else start;
    var reached := Reached(again, after, range, ranges);
    CollectedIsOneQuery(chain, again, after, range, ranges);
    JourneyTiles(again, after, range, ranges);
    QueryConcat(chain, start, again, reached);
  }

  // ---- The indexer ----

  class CursorStore {
    var cursor: Option<nat>

    constructor ()
      ensures cursor.None?
    {
      cursor := None;
    }
  }

  // What a poll reports: the logs of its windows, or the fault that stopped it.
  function Report(chain: Ledger, next: nat, w: Weather, range: nat, ranges: nat): Result<seq<Log>, PollError>
    requires range >= 1
  {
    var plan := Plan(next, w, range, ranges);
    var kept := KeptOf(next, w, range, ranges);
    if w.head.None? then Err(HeadUnknown)
    else if Unsaved(w, |plan|) then Err(StoreDown(EndOf(next, kept)))
    else if |kept| < |plan| then Err(RpcDown(plan[|kept|].fromBlock))
    else Ok(Gather(chain, kept))
  }

  lemma PlanIs(next: nat, w: Weather, range: nat, ranges: nat)
    requires range >= 1 && w.head.Some? && next <= w.head.value
    ensures Plan(next, w, range, ranges)
            == WindowsFrom(next, w.head.value, Target(next, w.head.value, range, ranges), range)
  {
    hide WindowsFrom, Target;
  }

  lemma NextWindow(plan: seq<Window>, k: nat, fromBlock: nat, latest: nat, target: int, range: nat)
    requires range >= 1 && fromBlock <= target <= latest && k <= |plan|
    requires plan[k..] == WindowsFrom(fromBlock, latest, target, range)
    ensures k < |plan| && plan[k] == Window(fromBlock, if fromBlock + range - 1 < latest then fromBlock + range - 1 else target)
    ensures plan[k + 1..] == WindowsFrom(fromBlock + range, latest, target, range)
    ensures plan[..k + 1] == plan[..k] + [plan[k]]
  {
    assert plan[k] == plan[k..][0] && plan[k + 1..] == plan[k..][1..];
  }

  lemma NoWindows(fromBlock: nat, latest: nat, target: int, range: nat)
    requires range >= 1 && target <= latest && fromBlock > target
    ensures WindowsFrom(fromBlock, latest, target, range) == []
  {
  }

  lemma GatherMore(chain: Ledger, next: nat, windows: seq<Window>, k: nat)
    requires k < |windows|
    ensures EndOf(next, windows[..k + 1]) == windows[k].toBlock + 1
    ensures Gather(chain, windows[..k + 1])
            == Gather(chain, windows[..k]) + Query(chain, windows[k].fromBlock, windows[k].toBlock + 1)
  {
    hide Query;
    assert windows[..k + 1][..k] == windows[..k];
  }

  // The indexer's memory, with what its store holds.
  datatype Memory = Memory(nextBlock: nat, events: seq<Log>, cursor: Option<nat>)

  // The memory after the first `k` windows of a poll.
  function AfterWindows(chain: Ledger, m: Memory, plan: seq<Window>, k: nat, stored: bool): Memory
    requires k <= |plan|
  {
    var end := EndOf(m.nextBlock, plan[..k]);
    Memory(end, m.events + Gather(chain, plan[..k]), if stored && k > 0 then Some(end) else m.cursor)
  }

  // What one poll does.
  function AfterPoll(chain: Ledger, m: Memory, w: Weather, range: nat, ranges: nat, stored: bool): (Memory, Result<seq<Log>, PollError>)
    requires range >= 1
  {
    var kept, saved := KeptOf(m.nextBlock, w, range, ranges), SavedOf(m.nextBlock, w, range, ranges);
    (Memory(EndOf(m.nextBlock, kept), m.events + Gather(chain, kept), if stored && saved.Some? then saved else m.cursor),
     Report(chain, m.nextBlock, w, range, ranges))
  }

  // Any sequence of polls by one indexer.
  function AfterPolls(chain: Ledger, m: Memory, polls: seq<Weather>, range: nat, ranges: nat, stored: bool): Memory
    requires range >= 1
  {
    if polls == [] then m
    else AfterPoll(chain, AfterPolls(chain, m, polls[..|polls| - 1], range, ranges, stored), polls[|polls| - 1], range, ranges, stored).0
  }

  // Whatever failed on the way, the events collected since the start are one
  // query from where the first poll began to where the next will.
  lemma {:induction false} PollsCollectOneQuery(
    chain: Ledger, m: Memory, polls: seq<Weather>, range: nat, ranges: nat, stored: bool
  )
    requires range >= 1 && ranges >= 1
    ensures var after := AfterPolls(chain, m, polls, range, ranges, stored);
            && after.nextBlock == Reached(m.nextBlock, polls, range, ranges) >= m.nextBlock
            && after.events == m.events + Query(chain, m.nextBlock, after.nextBlock)
            && after.cursor == (var c := Cursor(m.nextBlock, polls, range, ranges); if stored && c.Some? then c else m.cursor)
  {
    if polls == [] {
      assert m.events + [] == m.events;
    } else {
      hide Journey, KeptOf, SavedOf, AfterPoll, Query, Tiles;
      var front, w, start := polls[..|polls| - 1], polls[|polls| - 1], m.nextBlock;
      PollsCollectOneQuery(chain, m, front, range, ranges, stored);
      var before := AfterPolls(chain, m, front, range, ranges, stored);
      PollAdds(chain, before, w, range, ranges, stored);
      var kept := KeptOf(before.nextBlock, w, range, ranges);
      JourneyGrows(start, polls, range, ranges);
      EndsCompose(start, Journey(start, front, range, ranges), kept);
      QueryConcat(chain, start, before.nextBlock, EndOf(before.nextBlock, kept));
      Associate(m.events, Query(chain, start, before.nextBlock), Query(chain, before.nextBlock, EndOf(before.nextBlock, kept)));
    }
  }

  lemma Associate(a: seq<Log>, b: seq<Log>, c: seq<Log>)
    ensures a + b + c == a + (b + c)
  {
  }

  lemma PollAdds(chain: Ledger, m: Memory, w: Weather, range: nat, ranges: nat, stored: bool)
    requires range >= 1 && ranges >= 1
    ensures var end := EndOf(m.nextBlock, KeptOf(m.nextBlock, w, range, ranges));
            var saved := SavedOf(m.nextBlock, w, range, ranges);
            && m.nextBlock <= end
            && AfterPoll(chain, m, w, range, ranges, stored).0
               == Memory(end, m.events + Query(chain, m.nextBlock, end), if stored && saved.Some? then saved else m.cursor)
  {
    hide KeptOf, SavedOf, Report, Query, Tiles;
    var kept := KeptOf(m.nextBlock, w, range, ranges);
    KeptTiles(m.nextBlock, w, range, ranges);
    GatherIsOneQuery(chain, kept, m.nextBlock, EndOf(m.nextBlock, kept), range);
  }

  // What a poll reports is what it adds. It fails exactly when no head is
  // known, or when the RPC or the store fails within its windows; then it keeps
  // what came before the fault, or up to the window whose cursor was not stored.
  lemma PollReports(chain: Ledger, m: Memory, w: Weather, range: nat, ranges: nat, stored: bool)
    requires range >= 1 && ranges >= 1
    ensures var (after, r) := AfterPoll(chain, m, w, range, ranges, stored);
            var planned := |Plan(m.nextBlock, w, range, ranges)|;
            && after.events == m.events + Query(chain, m.nextBlock, after.nextBlock)
            && (r.Ok? <==> && w.head.Some? && (w.rpcDownAt.None? || w.rpcDownAt.value >= planned)
                           && (w.storeDownAt.None? || w.storeDownAt.value >= planned))
            && (r.Ok? ==>
                  && r.value == Query(chain, m.nextBlock, after.nextBlock)
                  && after.nextBlock == if w.head.value < m.nextBlock then m.nextBlock
                                        else if m.nextBlock + range * ranges <= w.head.value then m.nextBlock + range * ranges
                                        else w.head.value + 1)
            && (r == Err(HeadUnknown) <==> w.head.None?)
            && (r.Err? && r.error.RpcDown? ==> r.error.fromBlock == after.nextBlock)
            && (r.Err? && r.error.StoreDown? ==> r.error.cursor == after.nextBlock > m.nextBlock)
  {
    hide Plan, Query, Tiles, Gather;
    var plan, kept := Plan(m.nextBlock, w, range, ranges), KeptOf(m.nextBlock, w, range, ranges);
    PlanTiles(m.nextBlock, w, range, ranges);
    KeptTiles(m.nextBlock, w, range, ranges);
    PollAdds(chain, m, w, range, ranges, stored);
    GatherIsOneQuery(chain, kept, m.nextBlock, EndOf(m.nextBlock, kept), range);
    if |kept| < |plan| {
      NextStarts(plan, m.nextBlock, EndOf(m.nextBlock, plan), range, |kept|);
    } else {
      assert kept == plan;
    }
  }

  lemma {:induction false} NextStarts(windows: seq<Window>, lo: nat, hi: nat, range: nat, k: nat)
    requires Tiles(windows, lo, hi, range) && k < |windows|
    ensures windows[k].fromBlock == EndOf(lo, windows[..k])
  {
    var front, last := windows[..|windows| - 1], windows[|windows| - 1];
    if k == |windows| - 1 {
      if front != [] {
        assert Tiles(front, lo, last.fromBlock, range);
      }
    } else {
      NextStarts(front, lo, last.fromBlock, range, k);
      assert front[..k] == windows[..k];
    }
  }

  // What a poll amounts to when it stops at window `k`, or not at all.
  lemma PollStops(chain: Ledger, m: Memory, w: Weather, range: nat, ranges: nat, k: nat, stored: bool)
    requires range >= 1 && w.head.Some? && k <= |Plan(m.nextBlock, w, range, ranges)|
    requires (w.rpcDownAt.Some? ==> k <= w.rpcDownAt.value) && (w.storeDownAt.Some? ==> k <= w.storeDownAt.value)
    ensures var plan := Plan(m.nextBlock, w, range, ranges);
            var so, outcome := AfterWindows(chain, m, plan, k, stored), AfterPoll(chain, m, w, range, ranges, stored);
            && (k == |plan| ==> outcome == (so, Ok(Gather(chain, plan[..k]))))
            && (k < |plan| && w.rpcDownAt == Some(k) ==> outcome == (so, Err(RpcDown(plan[k].fromBlock))))
            && (k < |plan| && w.rpcDownAt != Some(k) && w.storeDownAt == Some(k) ==>
                  var kept := AfterWindows(chain, m, plan, k + 1, stored);
                  outcome == (kept.(cursor := so.cursor), Err(StoreDown(kept.nextBlock))))
  {
    hide Plan, Gather;
  }

  // A poll that finds no head, or an old one, changes nothing.
  lemma IdlePoll(chain: Ledger, m: Memory, w: Weather, range: nat, ranges: nat, stored: bool)
    requires range >= 1
    ensures w.head.None? ==> AfterPoll(chain, m, w, range, ranges, stored) == (m, Err(HeadUnknown))
    ensures w.head.Some? && w.head.value < m.nextBlock ==> AfterPoll(chain, m, w, range, ranges, stored) == (m, Ok([]))
  {
    assert m.events + [] == m.events;
  }

  class PrimeServerEventIndexer {
    const maxBlockRange: nat
    const maxRangesPerPoll: nat
    const store: CursorStore?
    var nextBlock: nat
    var events: seq<Log>
    var isReady: bool

    constructor (fromBlock: nat, maxBlockRange: nat, maxRangesPerPoll: nat, store: CursorStore?)
      requires maxBlockRange >= 1 && maxRangesPerPoll >= 1
      ensures this.maxBlockRange == maxBlockRange && this.maxRangesPerPoll == maxRangesPerPoll && this.store == store
      ensures nextBlock == fromBlock && events == [] && !isReady
    {
      this.maxBlockRange, this.maxRangesPerPoll, this.store := maxBlockRange, maxRangesPerPoll, store;
      nextBlock, events, isReady := fromBlock, [], false;
    }

    ghost function View(): Memory
      reads this, if store == null then {} else {store}
    {
      Memory(nextBlock, events, if store == null then None else store.cursor)
    }

    // On first use a stored cursor wins over the configured block.
    ghost function Resumed(): Memory
      reads this, if store == null then {} else {store}
    {
      if !isReady && View().cursor.Some? then View().(nextBlock := View().cursor.value) else View()
    }

    // Without a store there is nothing to fail in it.
    function Sky(w: Weather): Weather {
      if store == null then w.(storeDownAt := None) else w
    }

    method Ready()
      modifies this
      ensures isReady && View() == old(Resumed())
      ensures events == old(events) && (store != null ==> store.cursor == old(store.cursor))
      ensures nextBlock == if !old(isReady) && store != null && store.cursor.Some? then store.cursor.value else old(nextBlock)
    {
      if !isReady && store != null && store.cursor.Some? {
        nextBlock := store.cursor.value;
      }
      isReady := true;
    }

    method Poll(chain: Ledger, weather: Weather) returns (r: Result<seq<Log>, PollError>)
      requires maxBlockRange >= 1 && maxRangesPerPoll >= 1
      modifies this, if store == null then {} else {store}
      ensures isReady
      ensures (View(), r) == AfterPoll(chain, old(Resumed()), Sky(weather), maxBlockRange, maxRangesPerPoll, store != null)
    {
      hide AfterPoll;
      Ready();
      IdlePoll(chain, View(), Sky(weather), maxBlockRange, maxRangesPerPoll, store != null);
      if weather.head.None? {
        return Err(HeadUnknown);
      }
      var latest := weather.head.value;
      if latest < nextBlock {
        return Ok([]);
      }
      r := PollUpTo(chain, weather, latest);
    }

    // The loop over the windows, up to a head that is not behind.
    method PollUpTo(chain: Ledger, weather: Weather, latest: nat) returns (r: Result<seq<Log>, PollError>)
      requires maxBlockRange >= 1 && maxRangesPerPoll >= 1 && isReady && weather.head == Some(latest) && nextBlock <= latest
      modifies this, if store == null then {} else {store}
      ensures isReady
      ensures (View(), r) == AfterPoll(chain, old(View()), Sky(weather), maxBlockRange, maxRangesPerPoll, store != null)
    {
      hide AfterPoll, AfterWindows, Target, WindowsFrom, Plan, Gather, EndOf, Query;
      ghost var m, w := View(), Sky(weather);
      ghost var plan := Plan(m.nextBlock, w, maxBlockRange, maxRangesPerPoll);
      PlanIs(m.nextBlock, w, maxBlockRange, maxRangesPerPoll);
      NoneVisited(chain, m, plan, store != null);
      var records: seq<Log> := [];
      var targetBlock := Target(nextBlock, latest, maxBlockRange, maxRangesPerPoll);
      var fromBlock := nextBlock;
      var k: nat := 0;
      while fromBlock <= targetBlock
        invariant isReady && k <= |plan| && plan[k..] == WindowsFrom(fromBlock, latest, targetBlock, maxBlockRange)
        invariant (w.rpcDownAt.Some? ==> k <= w.rpcDownAt.value) && (w.storeDownAt.Some? ==> k <= w.storeDownAt.value)
        invariant View() == AfterWindows(chain, m, plan, k, store != null) && records == Gather(chain, plan[..k])
        decreases targetBlock + 1 - fromBlock
      {
        var toBlock := if fromBlock + maxBlockRange - 1 < latest then fromBlock + maxBlockRange - 1 else targetBlock;
        NextWindow(plan, k, fromBlock, latest, targetBlock, maxBlockRange);
        PollStops(chain, m, w, maxBlockRange, maxRangesPerPoll, k, store != null);
        OneMoreWindow(chain, m, plan, k, store != null);
        var visit := Visit(chain, fromBlock, toBlock, weather.rpcDownAt == Some(k), weather.storeDownAt == Some(k));
        if visit.Err? {
          return Err(visit.error);
        }
        records := records + visit.value;
        fromBlock := fromBlock + maxBlockRange;
        k := k + 1;
      }
      NoWindows(fromBlock, latest, targetBlock, maxBlockRange);
      PollStops(chain, m, w, maxBlockRange, maxRangesPerPoll, k, store != null);
      r := Ok(records);
    }

    // Fetch one window, keep its logs, advance, and store the cursor.
    method Visit(chain: Ledger, fromBlock: nat, toBlock: nat, rpcDown: bool, storeDown: bool) returns (r: Result<seq<Log>, PollError>)
      modifies this, if store == null then {} else {store}
      ensures isReady == old(isReady)
      ensures var m, logs := old(View()), Query(chain, fromBlock, toBlock + 1);
              if rpcDown then r == Err(RpcDown(fromBlock)) && View() == m
              else if store != null && storeDown then
                r == Err(StoreDown(toBlock + 1)) && View() == Memory(toBlock + 1, m.events + logs, m.cursor)
              else
                r == Ok(logs) && View() == Memory(toBlock + 1, m.events + logs, if store == null then m.cursor else Some(toBlock + 1))
    {
      if rpcDown {
        return Err(RpcDown(fromBlock));
      }
      var windowRecords := Query(chain, fromBlock, toBlock + 1);
      events := events + windowRecords;
      nextBlock := toBlock + 1;
      if store != null {
        if storeDown {
          return Err(StoreDown(nextBlock));
        }
        store.cursor := Some(nextBlock);
      }
      r := Ok(windowRecords);
    }
  }

  lemma NoneVisited(chain: Ledger, m: Memory, plan: seq<Window>, stored: bool)
    ensures AfterWindows(chain, m, plan, 0, stored) == m && Gather(chain, plan[..0]) == []
  {
    assert m.events + [] == m.events;
  }

  lemma OneMoreWindow(chain: Ledger, m: Memory, plan: seq<Window>, k: nat, stored: bool)
    requires k < |plan|
    ensures var so, logs := AfterWindows(chain, m, plan, k, stored), Query(chain, plan[k].fromBlock, plan[k].toBlock + 1);
            && AfterWindows(chain, m, plan, k + 1, stored)
               == Memory(plan[k].toBlock + 1, so.events + logs, if stored then Some(plan[k].toBlock + 1) else m.cursor)
            && (!stored ==> so.cursor == m.cursor)
            && Gather(chain, plan[..k + 1]) == Gather(chain, plan[..k]) + logs
  {
    hide Query, Gather;
    GatherMore(chain, m.nextBlock, plan, k);
  }
}
