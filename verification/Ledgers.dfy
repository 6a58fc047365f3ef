// What the contract holds and what it has paid: solvency, and one payout per
// shard and kind over the whole history.
module Ledgers {
  import opened Prelude
  import opened Quote
  import opened Blob
  import opened BlobInvariants
  import opened Protocol

  // ---- Definitions ----

  // What the contract still owes on behalf of a blob.
  ghost function Liability(e: Entry): int {
    match e.payment.status
    case Escrowed => e.payment.totalPaid
    case Claimable => e.payment.totalPaid - e.payment.providerSettled
    case PartiallySettled => e.payment.totalPaid - e.payment.providerSettled
    case _ => 0
  }

  ghost function FeeEarned(e: Entry): int {
    if e.payment.status.Settled? then e.payment.protocolFee else 0
  }

  // The sum of `weight` over a history of payouts.
  ghost function Sum(history: seq<Payout>, weight: Payout -> int): int {
    if history == [] then 0 else Sum(history[..|history| - 1], weight) + weight(history[|history| - 1])
  }

  ghost function AmountOf(p: Payout): int {
    p.amount
  }

  // 1 for a payout that marked shard `i` of `id`, immediately or in reserve.
  ghost function Marking(id: Hash, i: nat, inReserve: bool): Payout -> int {
    (p: Payout) => if p.ToProvider? && p.blobId == id && i in (if inReserve then p.reserve else p.immediate) then 1 else 0
  }

  ghost function PaidFor(id: Hash): Payout -> int {
    (p: Payout) => if p.ToProvider? && p.blobId == id then p.amount else 0
  }

  ghost function RefundsOf(id: Hash): Payout -> int {
    (p: Payout) => if p.RefundTo? && p.blobId == id then 1 else 0
  }

  // How often shard `i` of `id` has been paid its immediate or reserve part.
  ghost function Tally(history: seq<Payout>, id: Hash, i: nat, inReserve: bool): int {
    Sum(history, Marking(id, i, inReserve))
  }

  function Indicator(b: bool): int {
    if b then 1 else 0
  }

  predicate Marked(e: Entry, i: nat, inReserve: bool) {
    i in if inReserve then e.reserve else e.immediate
  }

  // The balance is what was forced in, plus what is owed, plus the fees that
  // may be withdrawn; fees come only from settled blobs; nothing is created.
  ghost predicate Solvent(entries: map<Hash, Entry>, l: Ledger) {
    && l.balance == l.forced + Total(entries, Liability) + l.withdrawable
    && l.feesWithdrawn + l.withdrawable == Total(entries, FeeEarned)
    && l.received + l.forced == l.balance + Sum(l.history, AmountOf)
  }

  // A payout of a known blob pays for exactly the shards it marks.
  ghost predicate PricedRight(entries: map<Hash, Entry>, p: Payout) {
    && (p.ToProvider? ==>
          && p.blobId in entries
          && var e := entries[p.blobId];
             p.amount == e.payment.rewardPerShard * |p.immediate| + ReserveShare(e) * |p.reserve|)
    && (p.RefundTo? ==> p.blobId in entries)
  }

  // The markers of a blob are the tallies of the history.
  ghost predicate Tallied(id: Hash, e: Entry, history: seq<Payout>) {
    && (forall i: nat, inReserve: bool ::
          Tally(history, id, i, inReserve) == Indicator(Marked(e, i, inReserve)))
    && Sum(history, PaidFor(id)) == e.payment.providerSettled
    && Sum(history, RefundsOf(id)) == Indicator(e.payment.status.Refunded?)
  }

  ghost predicate Recorded(entries: map<Hash, Entry>, history: seq<Payout>) {
    && (forall k :: 0 <= k < |history| ==> PricedRight(entries, history[k]))
    && (forall id :: id in entries ==> Tallied(id, entries[id], history))
  }

  ghost predicate AllSound(entries: map<Hash, Entry>, now: nat) {
    forall id :: id in entries ==> Sound(entries[id]) && Timely(entries[id], now) && entries[id].terms.blobId == id
  }

  // ---- Sums ----

  lemma SumAppend(history: seq<Payout>, p: Payout, weight: Payout -> int)
    ensures Sum(history + [p], weight) == Sum(history, weight) + weight(p)
  {
    assert (history + [p])[..|history|] == history;
  }

  // A history that never mentions a blob tallies nothing for it.
  lemma {:induction false} UnmentionedSums(history: seq<Payout>, id: Hash, weight: Payout -> int)
    requires forall k :: 0 <= k < |history| ==> weight(history[k]) == 0
    ensures Sum(history, weight) == 0
  {
    if history != [] {
      UnmentionedSums(history[..|history| - 1], id, weight);
    }
  }

  lemma LiabilityNonNegative(e: Entry)
    requires Sound(e)
    ensures Liability(e) >= 0
  {
    if e.payment.status.Claimable? || e.payment.status.PartiallySettled? || e.payment.status.Escrowed? {
      PoolUsedUpByReserves(e);
    }
    hide Accounts, Shards;
  }

  // What is owed for one blob, and the withdrawable fees, are in the balance.
  lemma BalanceCovers(entries: map<Hash, Entry>, l: Ledger, now: nat, id: Hash)
    requires Solvent(entries, l) && AllSound(entries, now)
    ensures l.withdrawable <= l.balance
    ensures id in entries ==> Liability(entries[id]) + l.withdrawable <= l.balance
  {
    forall j | j in entries ensures Liability(entries[j]) >= 0 {
      LiabilityNonNegative(entries[j]);
    }
    TotalNonNegative(entries, Liability);
    if id in entries {
      TotalCovers(entries, Liability, id);
    }
  }

  // ---- New blobs ----

  lemma NewBlobTallied(entries: map<Hash, Entry>, history: seq<Payout>, id: Hash, e: Entry)
    requires Recorded(entries, history) && id !in entries
    requires e.immediate == {} && e.reserve == {} && e.payment.providerSettled == 0 && !e.payment.status.Refunded?
    ensures Recorded(entries[id := e], history)
  {
    forall i: nat, inReserve: bool ensures Tally(history, id, i, inReserve) == 0 {
      UnmentionedSums(history, id, Marking(id, i, inReserve));
    }
    UnmentionedSums(history, id, PaidFor(id));
    UnmentionedSums(history, id, RefundsOf(id));
    hide Tally, Sum;
  }

  // The payer sends `value`; what exceeds the price goes back.
  lemma NewBlobSolvent(entries: map<Hash, Entry>, l: Ledger, id: Hash, e: Entry, value: nat, payer: Address)
    requires Solvent(entries, l) && id !in entries && !e.payment.status.Settled? && 0 <= Liability(e) <= value
    ensures var funded := l.(balance := l.balance + value, received := l.received + value);
            Solvent(entries[id := e], if value == Liability(e) then funded else PayoutOf(funded, ChangeTo(payer, value - Liability(e))))
  {
    TotalAdd(entries, Liability, id, e);
    TotalAdd(entries, FeeEarned, id, e);
    if value > Liability(e) {
      SumAppend(l.history, ChangeTo(payer, value - Liability(e)), AmountOf);
    }
  }

  // ---- A blob's slots change ----

  // The terms the history was priced by never change.
  ghost predicate SameDeal(e: Entry, after: Entry) {
    && after.terms == e.terms && after.owner == e.owner && after.origin == e.origin && after.policy == e.policy
    && after.payment.payer == e.payment.payer && after.payment.totalPaid == e.payment.totalPaid
    && after.payment.providerPool == e.payment.providerPool && after.payment.rewardPerShard == e.payment.rewardPerShard
    && after.payment.protocolFee == e.payment.protocolFee && after.payment.paidAt == e.payment.paidAt
  }

  lemma SameDealPrices(entries: map<Hash, Entry>, history: seq<Payout>, id: Hash, after: Entry)
    requires forall k :: 0 <= k < |history| ==> PricedRight(entries, history[k])
    requires id in entries && SameDeal(entries[id], after)
    ensures forall k :: 0 <= k < |history| ==> PricedRight(entries[id := after], history[k])
  {
    assert ReserveShare(after) == ReserveShare(entries[id]);
    forall k | 0 <= k < |history| ensures PricedRight(entries[id := after], history[k]) {
      assert PricedRight(entries, history[k]);
      var p := history[k];
      if p.ToProvider? && p.blobId == id {
        assert entries[id := after][p.blobId] == after;
      }
    }
  }

  // Nothing is paid: the markers, the accounts and the debts stay.
  lemma QuietChange(entries: map<Hash, Entry>, l: Ledger, id: Hash, after: Entry)
    requires Solvent(entries, l) && Recorded(entries, l.history) && id in entries
    requires var e := entries[id];
             && SameDeal(e, after) && Liability(after) == Liability(e) && FeeEarned(after) == FeeEarned(e)
             && after.immediate == e.immediate && after.reserve == e.reserve
             && after.payment.providerSettled == e.payment.providerSettled
             && after.payment.status.Refunded? == e.payment.status.Refunded?
    ensures Solvent(entries[id := after], l) && Recorded(entries[id := after], l.history)
  {
    TotalReplace(entries, Liability, id, after);
    TotalReplace(entries, FeeEarned, id, after);
    SameDealPrices(entries, l.history, id, after);
    hide Tally, Sum, PricedRight, Liability, FeeEarned, Total;
  }

  // A payout and the change of slots it stands for.
  lemma PayoutSums(history: seq<Payout>, p: Payout, id: Hash)
    ensures forall i: nat, inReserve: bool ::
              Tally(history + [p], id, i, inReserve) == Tally(history, id, i, inReserve) + Marking(id, i, inReserve)(p)
    ensures Sum(history + [p], PaidFor(id)) == Sum(history, PaidFor(id)) + PaidFor(id)(p)
    ensures Sum(history + [p], RefundsOf(id)) == Sum(history, RefundsOf(id)) + RefundsOf(id)(p)
  {
    forall i: nat, inReserve: bool
      ensures Tally(history + [p], id, i, inReserve) == Tally(history, id, i, inReserve) + Marking(id, i, inReserve)(p)
    {
      SumAppend(history, p, Marking(id, i, inReserve));
    }
    SumAppend(history, p, PaidFor(id));
    SumAppend(history, p, RefundsOf(id));
  }

  // The change of one blob's slots that payout `p`, releasing `fee`, stands for.
  ghost predicate Pays(e: Entry, after: Entry, p: Payout, fee: nat) {
    && (p.ToProvider? || p.RefundTo?)
    && SameDeal(e, after)
    && Liability(after) == Liability(e) - p.amount - fee
    && FeeEarned(after) == FeeEarned(e) + fee
    && (p.ToProvider? ==> p.amount == e.payment.rewardPerShard * |p.immediate| + ReserveShare(e) * |p.reserve|)
    && (forall i: nat, inReserve: bool ::
          Indicator(Marked(after, i, inReserve)) == Indicator(Marked(e, i, inReserve)) + Marking(p.blobId, i, inReserve)(p))
    && after.payment.providerSettled == e.payment.providerSettled + PaidFor(p.blobId)(p)
    && Indicator(after.payment.status.Refunded?) == Indicator(e.payment.status.Refunded?) + RefundsOf(p.blobId)(p)
  }

  lemma PayoutPriced(entries: map<Hash, Entry>, history: seq<Payout>, after: Entry, p: Payout, fee: nat)
    requires Recorded(entries, history) && (p.ToProvider? || p.RefundTo?)
    requires p.blobId in entries && Pays(entries[p.blobId], after, p, fee)
    ensures var h := history + [p];
            forall k :: 0 <= k < |h| ==> PricedRight(entries[p.blobId := after], h[k])
  {
    var h := history + [p];
    forall k | 0 <= k < |h| ensures PricedRight(entries, h[k]) {
      assert k < |history| ==> h[k] == history[k];
    }
    SameDealPrices(entries, h, p.blobId, after);
  }

  lemma PayoutRecorded(entries: map<Hash, Entry>, history: seq<Payout>, after: Entry, p: Payout, fee: nat)
    requires Recorded(entries, history) && (p.ToProvider? || p.RefundTo?)
    requires p.blobId in entries && Pays(entries[p.blobId], after, p, fee)
    ensures Recorded(entries[p.blobId := after], history + [p])
  {
    var id, next := p.blobId, entries[p.blobId := after];
    PayoutPriced(entries, history, after, p, fee);
    forall j | j in next ensures Tallied(j, next[j], history + [p]) {
      PayoutSums(history, p, j);
      assert Tallied(j, entries[j], history);
      if j != id {
        forall i: nat, inReserve: bool ensures Tally(history + [p], j, i, inReserve) == Tally(history, j, i, inReserve) {
          assert Marking(j, i, inReserve)(p) == 0;
        }
      }
    }
  }

  // A payout that belongs to no blob.
  lemma OtherPayoutRecorded(entries: map<Hash, Entry>, history: seq<Payout>, p: Payout)
    requires Recorded(entries, history) && (p.FeesTo? || p.ChangeTo?)
    ensures Recorded(entries, history + [p])
  {
    var h := history + [p];
    forall k | 0 <= k < |h| ensures PricedRight(entries, h[k]) {
      assert k < |history| ==> h[k] == history[k];
    }
    forall j | j in entries ensures Tallied(j, entries[j], h) {
      PayoutSums(history, p, j);
      assert Tallied(j, entries[j], history);
      forall i: nat, inReserve: bool ensures Tally(history + [p], j, i, inReserve) == Tally(history, j, i, inReserve) {
        assert Marking(j, i, inReserve)(p) == 0;
      }
    }
  }

  lemma PayoutSolvent(entries: map<Hash, Entry>, l: Ledger, after: Entry, p: Payout, fee: nat)
    requires Solvent(entries, l) && (p.ToProvider? || p.RefundTo?)
    requires p.blobId in entries && Pays(entries[p.blobId], after, p, fee) && p.amount <= l.balance
    ensures Solvent(entries[p.blobId := after], PayoutOf(l.(withdrawable := l.withdrawable + fee), p))
  {
    hide Liability, FeeEarned, Total, Sum, Marked, Marking, SameDeal;
    TotalReplace(entries, Liability, p.blobId, after);
    TotalReplace(entries, FeeEarned, p.blobId, after);
    SumAppend(l.history, p, AmountOf);
    assert AmountOf(p) == p.amount;
  }

  // The books stay in order through any covered payout.
  lemma PayoutKeepsBooks(entries: map<Hash, Entry>, l: Ledger, after: Entry, p: Payout, fee: nat)
    requires Solvent(entries, l) && Recorded(entries, l.history) && (p.ToProvider? || p.RefundTo?)
    requires p.blobId in entries && Pays(entries[p.blobId], after, p, fee) && p.amount <= l.balance
    ensures var paid := PayoutOf(l.(withdrawable := l.withdrawable + fee), p);
            Solvent(entries[p.blobId := after], paid) && Recorded(entries[p.blobId := after], paid.history)
  {
    hide Pays, Recorded, Solvent;
    PayoutSolvent(entries, l, after, p, fee);
    PayoutRecorded(entries, l.history, after, p, fee);
  }

  lemma WithdrawalSolvent(entries: map<Hash, Entry>, l: Ledger, now: nat, recipient: Address, amount: nat)
    requires Solvent(entries, l) && AllSound(entries, now) && amount <= l.withdrawable
    ensures amount <= l.balance
    ensures Solvent(entries, PayoutOf(l.(withdrawable := l.withdrawable - amount, feesWithdrawn := l.feesWithdrawn + amount),
                                      FeesTo(recipient, amount)))
  {
    hide Total, Sum, AllSound;
    BalanceCovers(entries, l, now, ZeroHash);
    SumAppend(l.history, FeesTo(recipient, amount), AmountOf);
  }

  // ---- Claims and refunds ----

  // The debt falls by what is paid plus the fee that is released.
  lemma ClaimMovesLiability(e: Entry, pid: nat, shards: set<nat>, now: nat)
    requires Sound(e) && Timely(e, now) && ClaimAllowed(e, pid, shards, now) && Accounts(e)
    ensures var c := Receipt(e, pid, shards, now);
            && SameDeal(e, c.entry)
            && Liability(c.entry) == Liability(e) - c.amount - c.feeReleased
            && FeeEarned(c.entry) == FeeEarned(e) + c.feeReleased
            && c.amount <= Liability(e)
            && c.entry.payment.providerSettled == e.payment.providerSettled + c.amount
  {
    hide AmountFor, Sound, Timely, ClaimAllowed, Accounts, MarkAll;
    ClaimTerms(e, pid, shards, now);
    AfterClaimIsCovered(e, pid, shards, now);
  }

  lemma ClaimTerms(e: Entry, pid: nat, shards: set<nat>, now: nat)
    requires ClaimAllowed(e, pid, shards, now) && Accounts(e)
    ensures e.payment.status.Claimable? || e.payment.status.PartiallySettled?
    ensures AmountFor(e, now, shards) > 0 && e.payment.totalPaid == e.payment.providerPool + e.payment.protocolFee
  {
    hide AmountFor, AllPayable, Below;
  }

  // The receipt lists exactly the markers it sets, at their price.
  lemma ClaimMarks(e: Entry, pid: nat, shards: set<nat>, now: nat, id: Hash, operator: Address)
    requires Sound(e) && Timely(e, now) && ClaimAllowed(e, pid, shards, now) && Accounts(e)
    ensures var c := Receipt(e, pid, shards, now);
            var p := ClaimPayout(id, operator, c);
            && (forall i: nat, inReserve: bool ::
                  Indicator(Marked(c.entry, i, inReserve)) == Indicator(Marked(e, i, inReserve)) + Marking(id, i, inReserve)(p))
            && c.amount == e.payment.rewardPerShard * |c.immediate| + ReserveShare(e) * |c.reserve|
            && !c.entry.payment.status.Refunded? && !e.payment.status.Refunded?
  {
    var c := Receipt(e, pid, shards, now);
    assert c.entry.immediate == e.immediate + shards;
    assert c.entry.reserve == if now >= e.terms.expiresAt then e.reserve + shards else e.reserve;
    assert now < e.terms.expiresAt ==> |c.reserve| == 0 && ReserveShare(e) * |c.reserve| == 0;
  }

  function ClaimPayout(id: Hash, operator: Address, c: Claimed): Payout {
    ToProvider(id, c.provider, operator, c.immediate, c.reserve, c.amount)
  }

  lemma ClaimPays(e: Entry, pid: nat, shards: set<nat>, now: nat, id: Hash, operator: Address)
    requires Sound(e) && Timely(e, now) && ClaimAllowed(e, pid, shards, now) && Accounts(e)
    ensures var c := Receipt(e, pid, shards, now);
            Pays(e, c.entry, ClaimPayout(id, operator, c), c.feeReleased) && c.amount <= Liability(e)
  {
    ClaimMovesLiability(e, pid, shards, now);
    ClaimMarks(e, pid, shards, now, id, operator);
    hide Sound, Timely, ClaimAllowed, Accounts, SameDeal, Liability, FeeEarned, AmountFor, Marked, Marking, AfterClaim;
  }

  lemma RefundPays(e: Entry, now: nat, id: Hash)
    requires Sound(e) && Refund(e, now).Ok?
    ensures Pays(e, Refund(e, now).value, RefundTo(id, e.payment.payer, e.payment.totalPaid), 0)
    ensures e.payment.totalPaid == Liability(e)
  {
    var after := Refund(e, now).value;
    assert e.payment.status.Escrowed? && after == e.(payment := e.payment.(status := Refunded));
    hide Sound, Refund;
  }
}
