// The price of a paid blob: ceilings in 256-bit checked arithmetic, split
// into an immediate provider reward, a post-expiry reserve and a protocol fee.
module Quote {
  import opened Prelude

  datatype StorageMode = Public | Private | Confidential

  datatype QuoteError = SizeRequired | ShardsRequired | ExpiryInPast | ArithmeticOverflow

  datatype Terms = Terms(total: nat, providerPool: nat, protocolFee: nat, rewardPerShard: nat)

  const MIB_BYTES: nat := 1_048_576
  const DAY_SECONDS: nat := 86_400
  const BPS: nat := 10_000
  const RESERVE_BPS: nat := 1_000
  const DEFAULT_RATE: nat := 1_000_000_000_000

  function ModeMultiplierBps(mode: StorageMode): nat {
    match mode
    case Private => 12_000
    case Confidential => 15_000
    case Public => 10_000
  }

  // The number of whole units of `unit` that cover `amount`.
  function CeilDiv(amount: nat, unit: nat): (q: nat)
    requires unit > 0
    ensures (amount > 0 ==> unit * (q - 1) < amount) && amount <= unit * q
  {
    (amount + unit - 1) / unit
  }

  // Price of one shard, in units of 1/10000 of the native rate.
  function ShardPrice(mib: nat, rate: nat, multiplierBps: nat, days: nat): nat {
    mib * rate * multiplierBps * days
  }

  // The split of one shard's price. Solidity 0.8 arithmetic reverts once an
  // intermediate value leaves 256 bits; the two steps that can do so are
  // checked here, and TermsFit shows that the others cannot.
  function TermsFor(price: nat, totalShards: uint8, feeBps: nat): Result<Terms, QuoteError> {
    var rounded := price + BPS - 1;
    :- Require(rounded <= MAX_UINT256, ArithmeticOverflow);
    var gross := CeilDiv(price, BPS);
    var reserve := CeilDiv(gross * RESERVE_BPS, BPS);
    var pool := gross * totalShards;
    :- Require(pool * feeBps + BPS - 1 <= MAX_UINT256, ArithmeticOverflow);
    var fee := CeilDiv(pool * feeBps, BPS);
    Ok(Terms(pool + fee, pool, fee, gross - reserve))
  }

  function QuoteNativePayment(
    size: uint64, totalShards: uint8, mode: StorageMode, expiresAt: uint64,
    now: nat, rate: nat, feeBps: nat
  ): Result<Terms, QuoteError>
  {
    if size == 0 then Err(SizeRequired)
    else if totalShards == 0 then Err(ShardsRequired)
    else if expiresAt <= now then Err(ExpiryInPast)
    else TermsFor(QuotedPrice(size, mode, expiresAt, now, rate), totalShards, feeBps)
  }

  // The price of one shard for the whole days that cover the stay.
  function QuotedPrice(size: uint64, mode: StorageMode, expiresAt: uint64, now: nat, rate: nat): nat
    requires expiresAt > now
  {
    ShardPrice(CeilDiv(size, MIB_BYTES), rate, ModeMultiplierBps(mode), Days(expiresAt, now))
  }

  function Days(expiresAt: uint64, now: nat): nat
    requires expiresAt > now
  {
    CeilDiv(expiresAt - now, DAY_SECONDS)
  }

  // What one shard earns over its lifetime, read back from the stored terms
  // exactly as the claim loop does.
  function GrossPerShard(t: Terms, totalShards: uint8): nat
    requires totalShards > 0
  {
    t.providerPool / totalShards
  }

  // ---- Nonlinear steps ----

  lemma DivExact(q: nat, n: nat)
    requires n > 0
    ensures (q * n) / n == q
  {
    var d := (q * n) / n;
    assert n * d <= q * n < n * d + n;
    if d < q {
      MulMono(d + 1, q, n);
    } else if d > q {
      MulMono(q + 1, d, n);
    }
  }

  lemma CeilDivMono(a: nat, b: nat, unit: nat)
    requires unit > 0 && a <= b
    ensures CeilDiv(a, unit) <= CeilDiv(b, unit)
  {
    if CeilDiv(a, unit) > CeilDiv(b, unit) {
      MulMono(CeilDiv(b, unit), CeilDiv(a, unit) - 1, unit);
    }
  }

  lemma CeilDivLeast(amount: nat, unit: nat, q: nat)
    requires unit > 0 && amount <= unit * q
    ensures CeilDiv(amount, unit) <= q
  {
    if CeilDiv(amount, unit) > q {
      MulMono(q, CeilDiv(amount, unit) - 1, unit);
    }
  }

  lemma PriceMono(mib0: nat, mib1: nat, rate: nat, mult: nat, days0: nat, days1: nat)
    requires mib0 <= mib1 && days0 <= days1
    ensures ShardPrice(mib0, rate, mult, days0) <= ShardPrice(mib1, rate, mult, days1)
  {
    MulMono(mib0, mib1, rate);
    MulMono(mib0 * rate, mib1 * rate, mult);
    MulMono(mib0 * rate * mult, mib1 * rate * mult, days0);
    MulMono(days0, days1, mib1 * rate * mult);
  }

  // A day costs at least the multiplier, which is at least one rounding unit.
  lemma PriceOfADay(mib: nat, rate: nat, mult: nat, days: nat)
    requires mib > 0 && rate > 0 && mult >= BPS
    ensures ShardPrice(mib, rate, mult, days + 1) >= ShardPrice(mib, rate, mult, days) + BPS
    ensures ShardPrice(mib, rate, mult, days + 1) > 0
  {
    MulPos(mib, rate);
    MulPos(mib * rate, mult);
    var perDay := mib * rate * mult;
    assert perDay * (days + 1) == perDay * days + perDay;
  }

  // ---- What a quote means ----

  // The split of any price: it divides back to the gross with no remainder,
  // reserves one tenth rounded up, and rounds each ceiling by less than a unit.
  ghost predicate SplitsExactly(t: Terms, price: nat, totalShards: uint8, feeBps: nat)
    requires totalShards > 0
  {
    var gross := GrossPerShard(t, totalShards);
    && gross >= 1 && t.providerPool == gross * totalShards
    && t.rewardPerShard < gross
    && gross - t.rewardPerShard == CeilDiv(gross, 10)
    && BPS * (gross - 1) < price <= BPS * gross
    && t.total == t.providerPool + t.protocolFee
    && t.protocolFee <= t.providerPool
    && t.providerPool * feeBps <= BPS * t.protocolFee < t.providerPool * feeBps + BPS
  }

  lemma TermsSplitExactly(price: nat, totalShards: uint8, feeBps: nat)
    requires price > 0 && totalShards > 0 && feeBps <= BPS
    requires TermsFor(price, totalShards, feeBps).Ok?
    ensures SplitsExactly(TermsFor(price, totalShards, feeBps).value, price, totalShards, feeBps)
  {
    var t := TermsFor(price, totalShards, feeBps).value;
    var gross := CeilDiv(price, BPS);
    DivExact(gross, totalShards);
    MulMono(feeBps, BPS, t.providerPool);
    CeilDivLeast(t.providerPool * feeBps, BPS, t.providerPool);
  }

  // With a fee of at most 100% no step of the split other than the two checked
  // ones can leave 256 bits.
  lemma TermsFit(price: nat, totalShards: uint8, feeBps: nat)
    requires totalShards > 0 && feeBps <= BPS
    requires TermsFor(price, totalShards, feeBps).Ok?
    ensures var t := TermsFor(price, totalShards, feeBps).value;
            CeilDiv(price, BPS) * RESERVE_BPS + BPS - 1 <= MAX_UINT256 && t.total <= MAX_UINT256
  {
    var t := TermsFor(price, totalShards, feeBps).value;
    var gross := CeilDiv(price, BPS);
    MulMono(totalShards, 255, gross);
    MulMono(feeBps, BPS, t.providerPool);
    CeilDivLeast(t.providerPool * feeBps, BPS, t.providerPool);
  }

  lemma TermsMonotone(price0: nat, price1: nat, shards0: uint8, shards1: uint8, feeBps: nat)
    requires price0 <= price1 && 0 < shards0 <= shards1
    requires TermsFor(price1, shards1, feeBps).Ok?
    ensures var less, more := TermsFor(price0, shards0, feeBps), TermsFor(price1, shards1, feeBps).value;
            && less.Ok? && less.value.total <= more.total
            && less.value.providerPool <= more.providerPool && less.value.protocolFee <= more.protocolFee
  {
    var g0, g1 := CeilDiv(price0, BPS), CeilDiv(price1, BPS);
    CeilDivMono(price0, price1, BPS);
    MulMono(g0, g1, shards0);
    MulMono(shards0, shards1, g1);
    MulMono(g0 * shards0, g1 * shards1, feeBps);
    CeilDivMono(g0 * shards0 * feeBps, g1 * shards1 * feeBps, BPS);
  }

  // A price higher by a rounding unit is a pool higher by a coin a shard.
  lemma PoolStrictlyMonotone(price0: nat, price1: nat, totalShards: uint8, feeBps: nat)
    requires price0 + BPS <= price1 && totalShards > 0
    requires TermsFor(price0, totalShards, feeBps).Ok? && TermsFor(price1, totalShards, feeBps).Ok?
    ensures TermsFor(price0, totalShards, feeBps).value.providerPool < TermsFor(price1, totalShards, feeBps).value.providerPool
  {
    hide TermsFor, CeilDiv;
    PoolOf(price0, totalShards, feeBps);
    PoolOf(price1, totalShards, feeBps);
    NextUnit(price0, price1);
    MulLess(CeilDiv(price0, BPS), CeilDiv(price1, BPS), totalShards);
  }

  lemma PoolOf(price: nat, totalShards: uint8, feeBps: nat)
    requires TermsFor(price, totalShards, feeBps).Ok?
    ensures TermsFor(price, totalShards, feeBps).value.providerPool == CeilDiv(price, BPS) * totalShards
  {
    hide CeilDiv;
  }

  lemma NextUnit(price0: nat, price1: nat)
    requires price0 + BPS <= price1
    ensures CeilDiv(price0, BPS) < CeilDiv(price1, BPS)
  {
    CeilDivMono(price0 + BPS, price1, BPS);
  }

  lemma MulLess(a: nat, b: nat, c: nat)
    requires a < b && c > 0
    ensures a * c < b * c
  {
    MulMono(a + 1, b, c);
  }

  lemma QuotedPricePositive(size: uint64, mode: StorageMode, expiresAt: uint64, now: nat, rate: nat)
    requires size > 0 && expiresAt > now && rate > 0
    ensures QuotedPrice(size, mode, expiresAt, now, rate) > 0
  {
    PriceOfADay(CeilDiv(size, MIB_BYTES), rate, ModeMultiplierBps(mode), Days(expiresAt, now) - 1);
  }

  // Every quote splits its price exactly.
  lemma QuoteShape(
    size: uint64, totalShards: uint8, mode: StorageMode, expiresAt: uint64, now: nat, rate: nat, feeBps: nat
  )
    requires rate > 0 && feeBps <= BPS
    requires QuoteNativePayment(size, totalShards, mode, expiresAt, now, rate, feeBps).Ok?
    ensures size > 0 && totalShards > 0 && expiresAt > now
    ensures SplitsExactly(QuoteNativePayment(size, totalShards, mode, expiresAt, now, rate, feeBps).value,
                          QuotedPrice(size, mode, expiresAt, now, rate), totalShards, feeBps)
  {
    QuotedPricePositive(size, mode, expiresAt, now, rate);
    TermsSplitExactly(QuotedPrice(size, mode, expiresAt, now, rate), totalShards, feeBps);
  }

  // The immediate reward is nothing exactly when a shard costs a single wei:
  // the reserve is rounded up and takes it all.
  lemma RewardVanishesAtOneWei(
    size: uint64, totalShards: uint8, mode: StorageMode, expiresAt: uint64, now: nat, rate: nat, feeBps: nat
  )
    requires rate > 0 && feeBps <= BPS
    requires QuoteNativePayment(size, totalShards, mode, expiresAt, now, rate, feeBps).Ok?
    ensures QuoteNativePayment(size, totalShards, mode, expiresAt, now, rate, feeBps).value.rewardPerShard == 0
       <==> QuotedPrice(size, mode, expiresAt, now, rate) <= BPS
  {
    hide QuoteNativePayment, QuotedPrice;
    QuoteShape(size, totalShards, mode, expiresAt, now, rate, feeBps);
  }

  // One more day always costs the provider pool something.
  lemma PoolStrictlyIncreasesInDays(
    size: uint64, totalShards: uint8, mode: StorageMode, early: uint64, late: uint64, now: nat, rate: nat, feeBps: nat
  )
    requires rate > 0 && now < early && now < late && Days(early, now) < Days(late, now)
    requires QuoteNativePayment(size, totalShards, mode, late, now, rate, feeBps).Ok?
    ensures var sooner := QuoteNativePayment(size, totalShards, mode, early, now, rate, feeBps);
            sooner.Ok? && sooner.value.providerPool
                          < QuoteNativePayment(size, totalShards, mode, late, now, rate, feeBps).value.providerPool
  {
    var mib, mult := CeilDiv(size, MIB_BYTES), ModeMultiplierBps(mode);
    PriceOfADay(mib, rate, mult, Days(early, now));
    PriceMono(mib, mib, rate, mult, Days(early, now) + 1, Days(late, now));
    var p0, p1 := QuotedPrice(size, mode, early, now, rate), QuotedPrice(size, mode, late, now, rate);
    TermsMonotone(p0, p1, totalShards, totalShards, feeBps);
    PoolStrictlyMonotone(p0, p1, totalShards, feeBps);
  }

  // Whenever the dearer quote exists so does the cheaper one: a smaller blob,
  // fewer shards, a nearer expiry or a later block never raise any component.
  lemma QuoteMonotone(
    size0: uint64, size1: uint64, shards0: uint8, shards1: uint8, mode: StorageMode,
    expiry0: uint64, expiry1: uint64, now0: nat, now1: nat, rate: nat, feeBps: nat
  )
    requires 0 < size0 <= size1 && 0 < shards0 <= shards1 && now0 >= now1
    requires now0 < expiry0 <= expiry1
    requires QuoteNativePayment(size1, shards1, mode, expiry1, now1, rate, feeBps).Ok?
    ensures var less := QuoteNativePayment(size0, shards0, mode, expiry0, now0, rate, feeBps);
            var more := QuoteNativePayment(size1, shards1, mode, expiry1, now1, rate, feeBps).value;
            && less.Ok? && less.value.total <= more.total
            && less.value.providerPool <= more.providerPool && less.value.protocolFee <= more.protocolFee
  {
    var mult := ModeMultiplierBps(mode);
    CeilDivMono(size0, size1, MIB_BYTES);
    CeilDivMono(expiry0 - now0, expiry1 - now1, DAY_SECONDS);
    PriceMono(CeilDiv(size0, MIB_BYTES), CeilDiv(size1, MIB_BYTES), rate, mult, Days(expiry0, now0), Days(expiry1, now1));
    TermsMonotone(QuotedPrice(size0, mode, expiry0, now0, rate), QuotedPrice(size1, mode, expiry1, now1, rate), shards0, shards1, feeBps);
  }

  lemma SmallPricesFit(price: nat, totalShards: uint8, feeBps: nat)
    requires price <= 0x1_0000_0000_0000_0000_0000_0000_0000_0000_0000_0000 && feeBps <= BPS
    ensures TermsFor(price, totalShards, feeBps).Ok?
  {
    var gross := CeilDiv(price, BPS);
    CeilDivLeast(price, BPS, price);
    MulMono(totalShards, 255, gross);
    MulMono(feeBps, BPS, gross * totalShards);
  }

  // At the default rate no admissible request overflows, whatever the fee.
  lemma DefaultRateNeverOverflows(
    size: uint64, totalShards: uint8, mode: StorageMode, expiresAt: uint64, now: nat, feeBps: nat
  )
    requires size > 0 && totalShards > 0 && expiresAt > now && feeBps <= BPS
    ensures QuoteNativePayment(size, totalShards, mode, expiresAt, now, DEFAULT_RATE, feeBps).Ok?
  {
    var bigMib, bigDays := 0x1000_0000_0000, 0x1_0000_0000_0000;
    CeilDivLeast(size, MIB_BYTES, bigMib);
    CeilDivLeast(expiresAt - now, DAY_SECONDS, bigDays);
    PriceMono(CeilDiv(size, MIB_BYTES), bigMib, DEFAULT_RATE, ModeMultiplierBps(mode), Days(expiresAt, now), bigDays);
    assert ShardPrice(bigMib, DEFAULT_RATE, ModeMultiplierBps(mode), bigDays) <= bigMib * DEFAULT_RATE * 15_000 * bigDays;
    SmallPricesFit(QuotedPrice(size, mode, expiresAt, now, DEFAULT_RATE), totalShards, feeBps);
  }

  // ---- The quote in plain numbers ----

  lemma CeilIs(amount: nat, unit: nat, q: nat)
    requires unit > 0 && unit * (q - 1) < amount <= unit * q
    ensures CeilDiv(amount, unit) == q
  {
    CeilDivLeast(amount, unit, q);
    if CeilDiv(amount, unit) < q {
      MulMono(CeilDiv(amount, unit), q - 1, unit);
    }
  }

  lemma Rearranged(mib: nat, rate: nat, mult: nat, days: nat)
    ensures ShardPrice(mib, rate, mult, days) == mult * (mib * rate * days)
  {
    var x := mib * rate;
    assert x * mult * days == mult * (x * days);
  }

  // Every refusal, and in which order they are looked for.
  lemma QuoteRefusals(
    size: uint64, totalShards: uint8, mode: StorageMode, expiresAt: uint64, now: nat, rate: nat, feeBps: nat
  )
    ensures var r := QuoteNativePayment(size, totalShards, mode, expiresAt, now, rate, feeBps);
            && (r == Err(SizeRequired) <==> size == 0)
            && (r == Err(ShardsRequired) <==> size > 0 && totalShards == 0)
            && (r == Err(ExpiryInPast) <==> size > 0 && totalShards > 0 && expiresAt <= now)
  {
    hide TermsFor, QuotedPrice;
    if size > 0 && totalShards > 0 && expiresAt > now {
      TermsRefusal(QuotedPrice(size, mode, expiresAt, now, rate), totalShards, feeBps);
    }
  }

  lemma TermsRefusal(price: nat, totalShards: uint8, feeBps: nat)
    ensures TermsFor(price, totalShards, feeBps).Err? ==> TermsFor(price, totalShards, feeBps) == Err(ArithmeticOverflow)
  {
  }

  // `mib` whole MiB cover the size and `days` whole days the stay. A shard then
  // costs rate x mib x days in public storage, 12/10 of it in private and 15/10
  // in confidential storage, rounded up; one tenth of that, rounded up, is the
  // reserve and the rest the reward; the fee is its share of the pool, rounded
  // up. Nothing but the two sums that can leave 256 bits is refused.
  lemma QuoteInNumbers(
    size: uint64, totalShards: uint8, mode: StorageMode, expiresAt: uint64, now: nat, rate: nat, feeBps: nat,
    mib: nat, days: nat, gross: nat
  )
    requires size > 0 && totalShards > 0 && expiresAt > now
    requires 1_048_576 * (mib - 1) < size <= 1_048_576 * mib
    requires 86_400 * (days - 1) < expiresAt - now <= 86_400 * days
    requires var x := mib * rate * days;
             match mode
             case Public => gross == x
             case Private => 10 * (gross - 1) < 12 * x <= 10 * gross
             case Confidential => 10 * (gross - 1) < 15 * x <= 10 * gross
    ensures var r := QuoteNativePayment(size, totalShards, mode, expiresAt, now, rate, feeBps);
            var x := mib * rate * days;
            var price := match mode case Public => 10_000 * x case Private => 12_000 * x case Confidential => 15_000 * x;
            && (r.Ok? <==> && price + 9_999 < 0x1_0000_0000_0000_0000_0000_0000_0000_0000_0000_0000_0000_0000_0000_0000_0000_0000
                           && gross * totalShards * feeBps + 9_999
                              < 0x1_0000_0000_0000_0000_0000_0000_0000_0000_0000_0000_0000_0000_0000_0000_0000_0000)
            && (r.Ok? ==>
                  var t := r.value;
                  && t.providerPool == gross * totalShards
                  && 10 * (gross - t.rewardPerShard - 1) < gross <= 10 * (gross - t.rewardPerShard)
                  && 10_000 * (t.protocolFee - 1) < t.providerPool * feeBps <= 10_000 * t.protocolFee
                  && t.total == t.providerPool + t.protocolFee)
  {
    CeilIs(size, 1_048_576, mib);
    CeilIs(expiresAt - now, 86_400, days);
    var x, mult := mib * rate * days, ModeMultiplierBps(mode);
    Rearranged(mib, rate, mult, days);
    assert QuotedPrice(size, mode, expiresAt, now, rate) == mult * x;
    GrossInNumbers(mode, x, gross);
    hide QuotedPrice;
    TermsInNumbers(mult * x, totalShards, feeBps, gross);
  }

  lemma GrossInNumbers(mode: StorageMode, x: nat, gross: nat)
    requires match mode
             case Public => gross == x
             case Private => 10 * (gross - 1) < 12 * x <= 10 * gross
             case Confidential => 10 * (gross - 1) < 15 * x <= 10 * gross
    ensures CeilDiv(ModeMultiplierBps(mode) * x, 10_000) == gross
    ensures ModeMultiplierBps(mode) * x == match mode case Public => 10_000 * x case Private => 12_000 * x case Confidential => 15_000 * x
  {
    CeilIs(ModeMultiplierBps(mode) * x, 10_000, gross);
  }

  lemma TermsInNumbers(price: nat, totalShards: uint8, feeBps: nat, gross: nat)
    requires CeilDiv(price, 10_000) == gross
    ensures var r := TermsFor(price, totalShards, feeBps);
            && (r.Ok? <==> && price + 9_999 < 0x1_0000_0000_0000_0000_0000_0000_0000_0000_0000_0000_0000_0000_0000_0000_0000_0000
                           && gross * totalShards * feeBps + 9_999
                              < 0x1_0000_0000_0000_0000_0000_0000_0000_0000_0000_0000_0000_0000_0000_0000_0000_0000)
            && (r.Ok? ==>
                  var t := r.value;
                  && t.providerPool == gross * totalShards
                  && 10 * (gross - t.rewardPerShard - 1) < gross <= 10 * (gross - t.rewardPerShard)
                  && 10_000 * (t.protocolFee - 1) < t.providerPool * feeBps <= 10_000 * t.protocolFee
                  && t.total == t.providerPool + t.protocolFee)
  {
  }
}
