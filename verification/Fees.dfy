/** Fee estimation and replacement bumps (internal/infrastructure/ethereum/gas.go).

    The source divides with big.Int's Div, which is Euclidean like Dafny's `/`. */
module Fees {
  import opened Domain

  /** The fee bounds of a chain; an unset bound is nil in the source. */
  datatype FeeBounds = FeeBounds(
    minMaxFee: Option<int>,
    maxMaxFee: Option<int>,
    minTip: Option<int>,
    maxTip: Option<int>)

  datatype ChainFees = ChainFees(supportsEip1559: bool, bounds: FeeBounds)

  /** What the node answered; None is an error. */
  datatype Quote = Quote(baseFee: Option<int>, tip: Option<int>, gasPrice: Option<int>)

  const DEFAULT_TIP: int := 1_000_000_000

  function TipMultiplier(p: Priority): int {
    match p
    case Low => 80
    case Normal => 100
    case High => 150
    case Urgent => 250
  }

  function FeeMultiplier(p: Priority): int {
    match p
    case Low => 150
    case Normal => 200
    case High => 250
    case Urgent => 300
  }

  function Clamp(v: int, min: Option<int>, max: Option<int>): int {
    if min.Some? && v < min.value then min.value
    else if max.Some? && v > max.value then max.value
    else v
  }

  function RawTip(tip: int, p: Priority): int {
    tip * TipMultiplier(p) / 100
  }

  function RawMaxFee(baseFee: int, tip: int, p: Priority): int {
    baseFee * FeeMultiplier(p) / 100 + RawTip(tip, p)
  }

  /** The node's suggestion, or 1 gwei when it cannot be read. */
  function SuggestedTip(q: Quote): int {
    if q.tip.Some? then q.tip.value else DEFAULT_TIP
  }

  function EstimateEip1559(b: FeeBounds, q: Quote, p: Priority, gasLimit: nat): Option<GasParams> {
    if q.baseFee.None? then None else
    var suggested := SuggestedTip(q);
    var tip := Clamp(RawTip(suggested, p), b.minTip, b.maxTip);
    var maxFee := Clamp(RawMaxFee(q.baseFee.value, suggested, p), b.minMaxFee, b.maxMaxFee);
    var capped := if maxFee < tip then tip else maxFee;
    Some(GasParams(gasLimit, Some(capped), Some(tip), None, 2))
  }

  function EstimateLegacy(b: FeeBounds, q: Quote, gasLimit: nat): Option<GasParams> {
    if q.gasPrice.None? then None
    else Some(GasParams(gasLimit, None, None, Some(Clamp(q.gasPrice.value, b.minMaxFee, b.maxMaxFee)), 0))
  }

  /** `gasLimit` is the already scaled limit. */
  function Estimate(c: ChainFees, q: Quote, p: Priority, gasLimit: nat): Option<GasParams> {
    if c.supportsEip1559 && EstimateEip1559(c.bounds, q, p, gasLimit).Some?
    then EstimateEip1559(c.bounds, q, p, gasLimit)
    else EstimateLegacy(c.bounds, q, gasLimit)
  }

  function BumpPercent(bumpNumber: int): int {
    if 15 * bumpNumber > 100 then 100 else 15 * bumpNumber
  }

  function BumpBigInt(v: Option<int>, pct: int): Option<int> {
    if v.None? then None else Some(v.value + v.value * pct / 100)
  }

  function BumpGas(current: GasParams, bumpNumber: int): GasParams {
    var pct := BumpPercent(bumpNumber);
    if current.txType == 2
    then current.(maxFee := BumpBigInt(current.maxFee, pct), tip := BumpBigInt(current.tip, pct))
    else current.(gasPrice := BumpBigInt(current.gasPrice, pct))
  }

  // ---- validity: what a node demands of a stored attempt ----

  /** The fields of the transaction's own type are set and, for EIP-1559, the fee cap covers the tip. */
  predicate ValidFees(g: GasParams) {
    if g.txType == 2 then g.maxFee.Some? && g.tip.Some? && g.maxFee.value >= g.tip.value
    else g.gasPrice.Some?
  }

  /** The price the sender commits to: the fee cap, or the legacy gas price. */
  function Fee(g: GasParams): int
    requires ValidFees(g)
  {
    if g.txType == 2 then g.maxFee.value else g.gasPrice.value
  }

  lemma EstimateIsValid(c: ChainFees, q: Quote, p: Priority, gasLimit: nat)
    ensures Estimate(c, q, p, gasLimit).Some? ==> ValidFees(Estimate(c, q, p, gasLimit).value)
    ensures Estimate(c, q, p, gasLimit).None? <==>
              q.gasPrice.None? && (!c.supportsEip1559 || q.baseFee.None?)
  {
  }

  lemma MulDivMono(a: int, b: int, m: int)
    requires a <= b && 0 <= m
    ensures a * m / 100 <= b * m / 100
  {
    assert a * m <= b * m;
  }

  lemma BumpIsValid(g: GasParams, k: nat)
    requires ValidFees(g)
    ensures ValidFees(BumpGas(g, k)) && BumpGas(g, k).txType == g.txType
    ensures Fee(g) >= 0 ==> Fee(BumpGas(g, k)) >= Fee(g)
  {
    if g.txType == 2 {
      MulDivMono(g.tip.value, g.maxFee.value, BumpPercent(k));
    }
  }

  // ---- the ceiling ----

  ghost predicate Sane(b: FeeBounds) {
    && (b.minMaxFee.Some? && b.maxMaxFee.Some? ==> b.minMaxFee.value <= b.maxMaxFee.value)
    && (b.minTip.Some? && b.maxTip.Some? ==> b.minTip.value <= b.maxTip.value)
  }

  /** The configured fee ceiling binds an estimate exactly when it also covers the estimated tip:
      the last step raises the cap to the tip after clamping. */
  lemma CeilingHoldsIffItCoversTheTip(b: FeeBounds, q: Quote, p: Priority, gasLimit: nat)
    requires Sane(b) && b.maxMaxFee.Some? && q.baseFee.Some?
    ensures var g := EstimateEip1559(b, q, p, gasLimit).value;
            g.maxFee.value <= b.maxMaxFee.value <==>
            Clamp(RawTip(SuggestedTip(q), p), b.minTip, b.maxTip) <= b.maxMaxFee.value
  {
  }

  /** v lies within the bounds. */
  predicate Within(v: int, min: Option<int>, max: Option<int>) {
    (min.Some? ==> min.value <= v) && (max.Some? ==> v <= max.value)
  }

  /** v is the value within the bounds that is nearest to w. */
  ghost predicate Nearest(v: int, w: int, min: Option<int>, max: Option<int>) {
    && Within(v, min, max)
    && forall u :: Within(u, min, max) ==> w <= v <= u || u <= v <= w
  }

  /** A price within the chain's bounds: the tip is as near as the bounds allow to the tier's tip, and
      the fee cap is the larger of the tip and what the bounds leave of the tier's cap; a legacy price is
      as near as they allow to the node's. Legacy only where the fee market cannot be used. */
  ghost predicate WithinBounds(c: ChainFees, q: Quote, p: Priority, g: GasParams) {
    var b := c.bounds;
    if c.supportsEip1559 && q.baseFee.Some? then
      && g.txType == 2 && g.tip.Some? && g.maxFee.Some? && g.gasPrice.None?
      && Nearest(g.tip.value, RawTip(SuggestedTip(q), p), b.minTip, b.maxTip)
      && g.maxFee.value >= g.tip.value
      && exists cap :: Nearest(cap, RawMaxFee(q.baseFee.value, SuggestedTip(q), p), b.minMaxFee, b.maxMaxFee)
                       && cap <= g.maxFee.value && (g.maxFee.value == cap || g.maxFee.value == g.tip.value)
    else
      && g.txType == 0 && g.tip.None? && g.maxFee.None? && g.gasPrice.Some? && q.gasPrice.Some?
      && Nearest(g.gasPrice.value, q.gasPrice.value, b.minMaxFee, b.maxMaxFee)
  }

  lemma ClampIsNearest(v: int, min: Option<int>, max: Option<int>)
    requires min.Some? && max.Some? ==> min.value <= max.value
    ensures Nearest(Clamp(v, min, max), v, min, max)
  {
  }

  lemma EstimateIsWithinBounds(c: ChainFees, q: Quote, p: Priority, gasLimit: nat)
    requires Sane(c.bounds) && Estimate(c, q, p, gasLimit).Some?
    ensures WithinBounds(c, q, p, Estimate(c, q, p, gasLimit).value)
    ensures Estimate(c, q, p, gasLimit).value.gasLimit == gasLimit
  {
    var b := c.bounds;
    if c.supportsEip1559 && q.baseFee.Some? {
      ClampIsNearest(RawTip(SuggestedTip(q), p), b.minTip, b.maxTip);
      ClampIsNearest(RawMaxFee(q.baseFee.value, SuggestedTip(q), p), b.minMaxFee, b.maxMaxFee);
    } else {
      ClampIsNearest(q.gasPrice.value, b.minMaxFee, b.maxMaxFee);
    }
  }

  /** Without bounds: the four tiers tip four fifths, the whole, one and a half and two and a half of the
      suggested tip, and leave room above it for one and a half, two, two and a half and three base
      fees, all rounded down. */
  lemma PriceOfEachTier(c: ChainFees, q: Quote, p: Priority, gasLimit: nat)
    requires c.supportsEip1559 && q.baseFee.Some? && 0 <= q.baseFee.value
    requires c.bounds == FeeBounds(None, None, None, None)
    ensures var g := Estimate(c, q, p, gasLimit).value;
            && g.tip.Some? && g.maxFee.Some?
            && var (tip, room) := (g.tip.value, g.maxFee.value - g.tip.value);
               var (s, base) := (SuggestedTip(q), q.baseFee.value);
               && (p == Low ==> 5 * tip <= 4 * s < 5 * (tip + 1) && 2 * room <= 3 * base < 2 * (room + 1))
               && (p == Normal ==> tip == s && room == 2 * base)
               && (p == High ==> 2 * tip <= 3 * s < 2 * (tip + 1) && 2 * room <= 5 * base < 2 * (room + 1))
               && (p == Urgent ==> 2 * tip <= 5 * s < 2 * (tip + 1) && room == 3 * base)
  {
  }

  // ---- monotonicity ----

  function Tier(p: Priority): nat {
    match p
    case Low => 0
    case Normal => 1
    case High => 2
    case Urgent => 3
  }

  lemma ClampMono(v: int, w: int, min: Option<int>, max: Option<int>)
    requires v <= w
    requires min.Some? && max.Some? ==> min.value <= max.value
    ensures Clamp(v, min, max) <= Clamp(w, min, max)
  {
  }

  lemma ScaleMono(v: int, w: int, m: int, n: int)
    requires 0 <= v <= w && 0 <= m <= n
    ensures v * m / 100 <= w * n / 100
  {
    MulDivMono(v, w, m);
    assert w * m <= w * n;
  }

  /** A higher base fee, a higher suggested tip or a higher tier never lowers either fee. */
  lemma EstimateIsMonotone(b: FeeBounds, q: Quote, r: Quote, p: Priority, s: Priority, gasLimit: nat)
    requires Sane(b)
    requires q.baseFee.Some? && r.baseFee.Some? && 0 <= q.baseFee.value <= r.baseFee.value
    requires 0 <= SuggestedTip(q) <= SuggestedTip(r)
    requires Tier(p) <= Tier(s)
    ensures var g := EstimateEip1559(b, q, p, gasLimit).value;
            var h := EstimateEip1559(b, r, s, gasLimit).value;
            g.tip.value <= h.tip.value && g.maxFee.value <= h.maxFee.value
  {
    ScaleMono(SuggestedTip(q), SuggestedTip(r), TipMultiplier(p), TipMultiplier(s));
    ScaleMono(q.baseFee.value, r.baseFee.value, FeeMultiplier(p), FeeMultiplier(s));
    ClampMono(RawTip(SuggestedTip(q), p), RawTip(SuggestedTip(r), s), b.minTip, b.maxTip);
    ClampMono(RawMaxFee(q.baseFee.value, SuggestedTip(q), p), RawMaxFee(r.baseFee.value, SuggestedTip(r), s),
              b.minMaxFee, b.maxMaxFee);
  }

  // ---- headroom under EIP-1559's base fee rule ----

  /** The base fee after one full block: EIP-1559, "Specification", with its floor and minimum of 1. */
  function AfterFullBlock(baseFee: nat): nat {
    baseFee + if baseFee / 8 < 1 then 1 else baseFee / 8
  }

  function AfterFullBlocks(baseFee: nat, blocks: nat): nat {
    if blocks == 0 then baseFee else AfterFullBlock(AfterFullBlocks(baseFee, blocks - 1))
  }

  function Pow(base: nat, n: nat): nat {
    if n == 0 then 1 else base * Pow(base, n - 1)
  }

  lemma {:induction false} GrowthBound(baseFee: nat, blocks: nat)
    requires 8 <= baseFee
    ensures baseFee <= AfterFullBlocks(baseFee, blocks)
    ensures AfterFullBlocks(baseFee, blocks) * Pow(8, blocks) <= baseFee * Pow(9, blocks)
  {
    if blocks > 0 {
      GrowthBound(baseFee, blocks - 1);
      var f, e, n := AfterFullBlocks(baseFee, blocks - 1), Pow(8, blocks - 1), Pow(9, blocks - 1);
      assert 8 * AfterFullBlock(f) <= 9 * f;
      calc {
        AfterFullBlock(f) * (8 * e);
        == { MulShuffle(AfterFullBlock(f), 8, e); }
        (8 * AfterFullBlock(f)) * e;
        <= { MulMono(8 * AfterFullBlock(f), 9 * f, e); }
        (9 * f) * e;
        == { MulShuffle(f, 9, e); }
        9 * (f * e);
        <= 9 * (baseFee * n);
        == { MulShuffle(baseFee, 9, n); }
        baseFee * (9 * n);
      }
    }
  }

  lemma MulMono(a: int, b: int, c: nat)
    requires a <= b
    ensures a * c <= b * c
  {
  }

  lemma MulShuffle(a: int, b: int, c: int)
    ensures a * (b * c) == (b * a) * c == b * (a * c)
  {
  }

  function HeadroomBlocks(p: Priority): nat {
    2 * Tier(p) + 3
  }

  /** Left alone by the bounds, an estimate still pays its whole tip after 3, 5, 7 or 9 full blocks. */
  lemma FeeHeadroom(b: FeeBounds, q: Quote, p: Priority, gasLimit: nat, blocks: nat)
    requires q.baseFee.Some? && 8 <= q.baseFee.value && 0 <= SuggestedTip(q)
    requires var t := RawTip(SuggestedTip(q), p);
             Clamp(t, b.minTip, b.maxTip) == t
    requires var f := RawMaxFee(q.baseFee.value, SuggestedTip(q), p);
             Clamp(f, b.minMaxFee, b.maxMaxFee) == f
    requires blocks <= HeadroomBlocks(p)
    ensures var g := EstimateEip1559(b, q, p, gasLimit).value;
            g.maxFee.value - g.tip.value >= AfterFullBlocks(q.baseFee.value, blocks)
  {
    var base := q.baseFee.value;
    var k := HeadroomBlocks(p);
    GrowthIsMonotone(base, blocks, k);
    GrowthBound(base, k);
    var grown := AfterFullBlocks(base, k);
    assert grown * 100 <= base * FeeMultiplier(p) by { HeadroomConstants(base, grown, p); }
    assert grown <= base * FeeMultiplier(p) / 100;
  }

  lemma {:induction false} GrowthIsMonotone(base: nat, m: nat, n: nat)
    requires m <= n
    ensures AfterFullBlocks(base, m) <= AfterFullBlocks(base, n)
    decreases n - m
  {
    if m < n {
      GrowthIsMonotone(base, m + 1, n);
    }
  }

  lemma PowValues()
    ensures Pow(8, 3) == 512 && Pow(9, 3) == 729
    ensures Pow(8, 5) == 32768 && Pow(9, 5) == 59049
    ensures Pow(8, 7) == 2097152 && Pow(9, 7) == 4782969
    ensures Pow(8, 9) == 134217728 && Pow(9, 9) == 387420489
  {
    assert Pow(8, 1) == 8 && Pow(9, 1) == 9;
    assert Pow(8, 2) == 64 && Pow(9, 2) == 81;
    assert Pow(8, 3) == 512 && Pow(9, 3) == 729;
    assert Pow(8, 4) == 4096 && Pow(9, 4) == 6561;
    assert Pow(8, 5) == 32768 && Pow(9, 5) == 59049;
    assert Pow(8, 6) == 262144 && Pow(9, 6) == 531441;
    assert Pow(8, 7) == 2097152 && Pow(9, 7) == 4782969;
    assert Pow(8, 8) == 16777216 && Pow(9, 8) == 43046721;
  }

  lemma HeadroomConstants(base: nat, grown: nat, p: Priority)
    requires grown * Pow(8, HeadroomBlocks(p)) <= base * Pow(9, HeadroomBlocks(p))
    ensures grown * 100 <= base * FeeMultiplier(p)
  {
    PowValues();
  }

  /** One block more is too much: for each tier a base fee of 8^9 outgrows the same headroom. */
  lemma HeadroomIsTight(p: Priority)
    ensures AfterFullBlocks(134217728, HeadroomBlocks(p) + 1) > 134217728 * FeeMultiplier(p) / 100
  {
    var f := (n: nat) => AfterFullBlocks(134217728, n);
    assert f(1) == 150994944 && f(2) == 169869312 && f(3) == 191102976 && f(4) == 214990848;
    assert f(5) == 241864704 && f(6) == 272097792 && f(7) == 306110016 && f(8) == 344373768;
    assert f(9) == 387420489 && f(10) == 435848050;
  }

  // ---- compounding over the life of a transaction ----

  /** The parameters after the detector's replacements 1..n, each bumped from the one before. */
  function Bumped(g: GasParams, n: nat): GasParams {
    if n == 0 then g else BumpGas(Bumped(g, n - 1), n)
  }

  /** (100+15)(100+30)...: the growth of n unfloored bumps, in units of 1/100^n. */
  function Growth(n: nat): nat {
    if n == 0 then 1 else (100 + BumpPercent(n)) * Growth(n - 1)
  }

  lemma {:induction false} GrowthAtLeastPow(n: nat)
    ensures Pow(100, n) <= Growth(n)
  {
    if n > 0 {
      GrowthAtLeastPow(n - 1);
      MulMono(100, 100 + BumpPercent(n), Growth(n - 1));
    }
  }

  lemma {:induction false} BumpedIsValid(g: GasParams, n: nat)
    requires ValidFees(g)
    ensures ValidFees(Bumped(g, n)) && Bumped(g, n).txType == g.txType
    ensures Fee(g) >= 0 ==> Fee(Bumped(g, n)) >= Fee(g)
  {
    if n > 0 {
      BumpedIsValid(g, n - 1);
      BumpIsValid(Bumped(g, n - 1), n);
    }
  }

  /** Floors cost at most one unit per bump: the fee stays between (f-n) and f times the growth. */
  lemma {:induction false} CompoundedFee(g: GasParams, n: nat)
    requires ValidFees(g) && 0 <= Fee(g)
    ensures ValidFees(Bumped(g, n))
    ensures (Fee(g) - n) * Growth(n) <= Fee(Bumped(g, n)) * Pow(100, n) <= Fee(g) * Growth(n)
  {
    BumpedIsValid(g, n);
    if n > 0 {
      CompoundedFee(g, n - 1);
      BumpedIsValid(g, n - 1);
      GrowthAtLeastPow(n);
      BumpBounds(Fee(g), n - 1, Fee(Bumped(g, n - 1)), Fee(Bumped(g, n)), 100 + BumpPercent(n),
                 Pow(100, n - 1), Growth(n - 1));
    }
  }

  lemma BumpBounds(f: int, n: nat, before: int, after: int, rate: nat, pow: nat, growth: nat)
    requires rate >= 100
    requires after == before + before * (rate - 100) / 100
    requires (f - n) * growth <= before * pow <= f * growth
    requires 100 * pow <= rate * growth
    ensures (f - n - 1) * (rate * growth) <= after * (100 * pow) <= f * (rate * growth)
  {
    assert before * rate - 99 <= 100 * after <= before * rate by {
      assert before * (rate - 100) == before * rate - before * 100;
    }
    MulMono(100 * after, before * rate, pow);
    MulMono(before * rate - 99, 100 * after, pow);
    MulMono((f - n) * growth, before * pow, rate);
    MulMono(before * pow, f * growth, rate);
    MulShuffle(after, 100, pow);
    assert (before * rate) * pow == (before * pow) * rate;
    assert (f * growth) * rate == f * (rate * growth);
    assert ((f - n) * growth) * rate == (f - n) * (rate * growth);
    assert (before * rate - 99) * pow == (before * rate) * pow - 99 * pow;
    assert (f - n - 1) * (rate * growth) == (f - n) * (rate * growth) - rate * growth;
  }

  /** Five replacements multiply the first fee by about 6.07 at most. */
  lemma FiveBumpsBound(g: GasParams)
    requires ValidFees(g) && 0 <= Fee(g)
    ensures ValidFees(Bumped(g, 5))
    ensures Fee(Bumped(g, 5)) * 10_000_000_000 <= Fee(g) * (115 * 130 * 145 * 160 * 175)
  {
    CompoundedFee(g, 5);
    assert Growth(1) == 115 && Growth(2) == 115 * 130 && Growth(3) == 115 * 130 * 145;
    assert Growth(4) == 115 * 130 * 145 * 160 && Growth(5) == 115 * 130 * 145 * 160 * 175;
    assert Pow(100, 1) == 100 && Pow(100, 2) == 10_000 && Pow(100, 3) == 1_000_000;
    assert Pow(100, 4) == 100_000_000 && Pow(100, 5) == 10_000_000_000;
  }

  lemma OneBump(f: int, pct: int)
    requires 7 <= f && 15 <= pct
    ensures f + f * pct / 100 > f
    ensures f + f * pct / 100 >= f * 110 / 100
  {
    MulMono(15, pct, f);
    assert f * pct >= f * 15;
    assert f * pct / 100 >= f * 15 / 100;
  }

  /** From a fee of 7 on, every later attempt is strictly dearer than every earlier one, and each pays
      at least the floor of 110 percent of its predecessor's fee. */
  lemma {:induction false} StrictlyDearer(g: GasParams, m: nat, n: nat)
    requires ValidFees(g) && 7 <= Fee(g) && m < n
    ensures ValidFees(Bumped(g, m)) && ValidFees(Bumped(g, n)) && ValidFees(Bumped(g, m + 1))
    ensures Fee(Bumped(g, m)) < Fee(Bumped(g, n))
    ensures Fee(Bumped(g, m + 1)) >= Fee(Bumped(g, m)) * 110 / 100
    decreases n - m
  {
    BumpedIsValid(g, m);
    BumpedIsValid(g, m + 1);
    BumpedIsValid(g, n);
    OneBump(Fee(Bumped(g, m)), BumpPercent(m + 1));
    if m + 1 < n {
      StrictlyDearer(g, m + 1, n);
    }
  }

  /** The first bump changes the transaction at all if and only if the fee is at least 7. */
  lemma FirstBumpChangesIff(g: GasParams)
    requires ValidFees(g) && 0 <= Fee(g)
    requires g.txType == 2 ==> 0 <= g.tip.value
    ensures BumpGas(g, 1) != g <==> 7 <= Fee(g)
  {
  }

  // ---- what nodes ask of a replacement ----

  /** The share that goes to the block's producer: the priority fee, or the legacy gas price. */
  function Tip(g: GasParams): int
    requires ValidFees(g)
  {
    if g.txType == 2 then g.tip.value else g.gasPrice.value
  }

  predicate RaisedBy10Percent(before: int, after: int) {
    after > before && after >= before * 110 / 100
  }

  /** Nodes take a replacement that raises both fields by a tenth; a legacy price counts as both. */
  predicate Replaces(g: GasParams, h: GasParams) {
    && ValidFees(g) && ValidFees(h)
    && RaisedBy10Percent(Fee(g), Fee(h)) && RaisedBy10Percent(Tip(g), Tip(h))
  }

  lemma RaisedIff(v: int, pct: int)
    requires 15 <= pct
    ensures RaisedBy10Percent(v, v + v * pct / 100) <==> 100 <= v * pct
  {
    if 0 <= v {
      MulMono(10, pct, v);
      assert v * pct / 100 >= v * 10 / 100;
    } else {
      MulMono(0, pct, -v);
    }
  }

  lemma BumpPercentIsAtLeast15(k: nat)
    requires 1 <= k
    ensures 15 <= BumpPercent(k)
  {
  }

  /** A bump makes a replacement that nodes take if and only if the tip is large enough for the floor
      of its own increase not to be 0; the fee cap, which is no smaller, then rises as well. */
  lemma BumpReplacesIff(g: GasParams, k: nat)
    requires ValidFees(g) && 1 <= k
    ensures Replaces(g, BumpGas(g, k)) <==> 100 <= Tip(g) * BumpPercent(k)
  {
    BumpIsValid(g, k);
    BumpPercentIsAtLeast15(k);
    RaisedIff(Fee(g), BumpPercent(k));
    RaisedIff(Tip(g), BumpPercent(k));
    if 100 <= Tip(g) * BumpPercent(k) {
      MulMono(Tip(g), Fee(g), BumpPercent(k));
    }
  }

  /** Replacement k is one that nodes take in place of the attempt before it. */
  predicate NthReplaces(g: GasParams, k: nat)
    requires 1 <= k
  {
    Replaces(Bumped(g, k - 1), Bumped(g, k))
  }

  /** Over a row's life: each of the n replacements is one that nodes take if and only if the first
      tip is at least 7. */
  lemma {:induction false} AllBumpsReplaceIff(g: GasParams, n: nat)
    requires ValidFees(g) && 1 <= n
    ensures (forall k :: 1 <= k <= n ==> NthReplaces(g, k)) <==> 7 <= Tip(g)
  {
    assert Bumped(g, 0) == g && BumpPercent(1) == 15;
    BumpReplacesIff(g, 1);
    assert Bumped(g, 1) == BumpGas(g, 1);
    if 7 <= Tip(g) {
      forall k | 1 <= k <= n ensures NthReplaces(g, k) {
        TipNeverFalls(g, k - 1);
        BumpReplacesIff(Bumped(g, k - 1), k);
        BumpPercentIsAtLeast15(k);
        MulMono(15, BumpPercent(k), Tip(Bumped(g, k - 1)));
      }
    } else {
      assert !NthReplaces(g, 1);
    }
  }

  lemma {:induction false} TipNeverFalls(g: GasParams, n: nat)
    requires ValidFees(g) && 0 <= Tip(g)
    ensures ValidFees(Bumped(g, n)) && Tip(g) <= Tip(Bumped(g, n))
  {
    BumpedIsValid(g, n);
    if n > 0 {
      TipNeverFalls(g, n - 1);
      BumpIsValid(Bumped(g, n - 1), n);
      MulMono(0, BumpPercent(n), Tip(Bumped(g, n - 1)));
    }
  }

  /** A fee of at least 7 is not enough: with a small tip the cap rises and the tip does not. */
  lemma SmallTipIsNotRaised()
    ensures var g := GasParams(21000, Some(1000), Some(1), None, 2);
            && ValidFees(g) && 7 <= Fee(g) && Fee(BumpGas(g, 1)) == 1150
            && Tip(BumpGas(g, 1)) == Tip(g) && !Replaces(g, BumpGas(g, 1))
  {
  }

  /** A configured minimum tip of 7 or more makes every estimate one whose bumps nodes take. */
  lemma MinimumTipSuffices(b: FeeBounds, q: Quote, p: Priority, gasLimit: nat, n: nat)
    requires Sane(b) && q.baseFee.Some? && b.minTip.Some? && 7 <= b.minTip.value && 1 <= n
    ensures var g := EstimateEip1559(b, q, p, gasLimit).value;
            forall k :: 1 <= k <= n ==> NthReplaces(g, k)
  {
    AllBumpsReplaceIff(EstimateEip1559(b, q, p, gasLimit).value, n);
  }

  // ---- the ceiling and replacements ----

  /** Bumps know no ceiling: a bump stays under a cap if and only if the fee it starts from leaves
      room for the bump's own percentage. */
  lemma BumpStaysUnderIff(g: GasParams, k: nat, cap: int)
    requires ValidFees(g)
    ensures ValidFees(BumpGas(g, k))
    ensures Fee(BumpGas(g, k)) <= cap <==> Fee(g) * (100 + BumpPercent(k)) < 100 * (cap + 1)
  {
    BumpIsValid(g, k);
  }

  /** An estimate that the ceiling has just clamped is bumped past the ceiling, whatever the ceiling. */
  lemma ClampedEstimatePassesTheCeiling(b: FeeBounds, q: Quote, p: Priority, gasLimit: nat)
    requires q.baseFee.Some? && b.maxMaxFee.Some? && 7 <= b.maxMaxFee.value
    requires var g := EstimateEip1559(b, q, p, gasLimit).value; g.maxFee == b.maxMaxFee
    ensures var g := EstimateEip1559(b, q, p, gasLimit).value;
            Fee(g) <= b.maxMaxFee.value < Fee(BumpGas(g, 1))
  {
    var g := EstimateEip1559(b, q, p, gasLimit).value;
    BumpStaysUnderIff(g, 1, b.maxMaxFee.value);
    assert BumpPercent(1) == 15;
  }
}
