/** The rule engine that grades a DEX pair (`calculateSafetyScore` in `src/app/api/dex/route.ts`):
    a score that starts at 50, moves by a fixed amount per rule, and is clamped to [0, 100],
    with a warning flag for each rule that fires. */
module SafetyScore {

  import opened Common
  import DexScreener

  datatype Flag =
    | LowLiquidity | LowVolume | VeryNew | NewToken | HeavySelling
    | SuspiciousBuyPattern | Dumping | PumpAlert | MicroCap

  datatype SafetyScore = SafetyScore(score: int, flags: seq<Flag>)

  /** The numbers the rules look at, after the defaults have been applied. */
  datatype Metrics = Metrics(
    liquidity: real, volume: real, ageMs: int, buys: int, sells: int, priceChange: real, marketCap: real)

  const Hour := 3_600_000
  const Day := 86_400_000
  const Week := 604_800_000

  /** The metrics of a pair at time `now`: every missing number is 0, and a missing creation time
      counts as the epoch, so the age is `now` itself. */
  function MetricsOf(p: DexScreener.Pair, now: int): (m: Metrics)
    ensures p.liquidityUsd.None? ==> m.liquidity == 0.0
    ensures p.volumeH24.None? ==> m.volume == 0.0
    ensures p.priceChangeH24.None? ==> m.priceChange == 0.0
    ensures p.txnsH24.None? ==> m.buys == 0 && m.sells == 0
    ensures p.marketCap.None? && p.fdv.None? ==> m.marketCap == 0.0
    ensures p.pairCreatedAt.None? ==> m.ageMs == now
    ensures p.pairCreatedAt.Some? ==> m.ageMs == now - p.pairCreatedAt.value
  {
    Metrics(
      OrZero(p.liquidityUsd),
      OrZero(p.volumeH24),
      now - OrZeroInt(p.pairCreatedAt),
      if p.txnsH24.Some? then p.txnsH24.value.buys else 0,
      if p.txnsH24.Some? then p.txnsH24.value.sells else 0,
      OrZero(p.priceChangeH24),
      DexScreener.MarketCapOf(p))
  }

  // ---------------------------------------------------------------- the rules, one by one

  /** When each flag is raised. */
  predicate Raised(m: Metrics, f: Flag)
  {
    match f
    case LowLiquidity => m.liquidity < 20000.0
    case LowVolume => m.volume < 1000.0
    case VeryNew => m.ageMs < Hour
    case NewToken => Hour <= m.ageMs < Day
    case HeavySelling => m.sells > m.buys * 2 && m.sells > 10
    case SuspiciousBuyPattern => m.buys > m.sells * 5 && m.buys > 50
    case Dumping => m.priceChange < -50.0
    case PumpAlert => m.priceChange > 500.0
    case MicroCap => 0.0 < m.marketCap < 10000.0
  }

  function LiquidityDelta(liquidity: real): int
  {
    if liquidity < 5000.0 then -25
    else if liquidity < 20000.0 then -10
    else if liquidity > 100000.0 then 15
    else 5
  }

  function VolumeDelta(volume: real): int
  {
    if volume < 1000.0 then -15 else if volume > 50000.0 then 10 else 0
  }

  function AgeDelta(ageMs: int): int
  {
    if ageMs < Hour then -15 else if ageMs < Day then -5 else if ageMs > Week then 10 else 0
  }

  /** The score before clamping: 50 plus the liquidity, volume and age adjustments, minus the
      penalty of each penalising flag. The two warning-only flags carry no penalty. */
  function RawScore(m: Metrics): int
  {
    50 + LiquidityDelta(m.liquidity) + VolumeDelta(m.volume) + AgeDelta(m.ageMs)
    + (if Raised(m, HeavySelling) then -15 else 0)
    + (if Raised(m, Dumping) then -10 else 0)
    + (if Raised(m, MicroCap) then -10 else 0)
  }

  /** `Math.max(0, Math.min(100, score))`. */
  function Clamp(score: int): (r: int)
    ensures 0 <= r <= 100
    ensures 0 <= score <= 100 ==> r == score
    ensures score < 0 ==> r == 0
    ensures score > 100 ==> r == 100
  {
    Max(0, Min(100, score))
  }

  /** The flag of the `k`-th rule, in the order the rules run. */
  function FlagAt(k: nat): Flag
    requires k < 9
  {
    if k == 0 then LowLiquidity else if k == 1 then LowVolume else if k == 2 then VeryNew
    else if k == 3 then NewToken else if k == 4 then HeavySelling else if k == 5 then SuspiciousBuyPattern
    else if k == 6 then Dumping else if k == 7 then PumpAlert else MicroCap
  }

  /** The position of a flag's rule. */
  function RuleIndex(f: Flag): (k: nat)
    ensures k < 9 && FlagAt(k) == f
  {
    match f
    case LowLiquidity => 0 case LowVolume => 1 case VeryNew => 2 case NewToken => 3
    case HeavySelling => 4 case SuspiciousBuyPattern => 5 case Dumping => 6 case PumpAlert => 7
    case MicroCap => 8
  }

  /** The flags the first `k` rules raise, in rule order. */
  function FlagsUpTo(m: Metrics, k: nat): seq<Flag>
    requires k <= 9
  {
    if k == 0 then [] else FlagsUpTo(m, k - 1) + Step(m, FlagAt(k - 1))
  }

  /** The flags raised for `m`, in rule order. */
  function Flags(m: Metrics): seq<Flag>
  {
    FlagsUpTo(m, 9)
  }

  /** The assessment of a set of metrics: the score lies in [0, 100], each flag appears at most
      once, and a flag appears exactly when its rule's condition holds. */
  function Assess(m: Metrics): (r: SafetyScore)
    ensures 0 <= r.score <= 100
    ensures forall f :: multiset(r.flags)[f] <= 1
    ensures forall f :: f in r.flags <==> Raised(m, f)
  {
    FlagsUpToSpec(m, 9);
    SafetyScore(Clamp(RawScore(m)), Flags(m))
  }

  /** The first `k` rules raise each of their flags at most once, and exactly when its condition
      holds; they raise no flag of a later rule. */
  lemma {:induction false} FlagsUpToSpec(m: Metrics, k: nat)
    requires k <= 9
    ensures forall f :: multiset(FlagsUpTo(m, k))[f] <= 1
    ensures forall f :: f in FlagsUpTo(m, k) <==> Raised(m, f) && RuleIndex(f) < k
  {
    if k > 0 {
      FlagsUpToSpec(m, k - 1);
      var g := FlagAt(k - 1);
      RuleIndexOfFlagAt(k - 1);
      var step := Step(m, g);
      assert FlagsUpTo(m, k) == FlagsUpTo(m, k - 1) + step;
      assert multiset(FlagsUpTo(m, k)) == multiset(FlagsUpTo(m, k - 1)) + multiset(step);
      forall f
        ensures multiset(FlagsUpTo(m, k))[f] <= 1
        ensures f in FlagsUpTo(m, k) <==> Raised(m, f) && RuleIndex(f) < k
      {
        if f != g {
          assert f !in step;
          assert RuleIndex(f) != k - 1;
        }
      }
    }
  }

  lemma RuleIndexOfFlagAt(k: nat)
    requires k < 9
    ensures RuleIndex(FlagAt(k)) == k
  {
  }

  /** The flag list the rule of flag `f` appends: `[f]` when it fires, nothing otherwise. */
  function Step(m: Metrics, f: Flag): seq<Flag>
  {
    if Raised(m, f) then [f] else []
  }

  /** One more rule: the flags of the first `k + 1` rules are those of the first `k` and then
      whatever rule `k` appends. */
  lemma FlagsUpToNext(m: Metrics, k: nat, f: Flag)
    requires k < 9 && FlagAt(k) == f
    ensures FlagsUpTo(m, k + 1) == FlagsUpTo(m, k) + Step(m, f)
  {
  }

  /** `calculateSafetyScore`: the rules applied one after another to a running score and a
      growing flag list, with the clock passed in. Each block of rules is a step method below. */
  method CalculateSafetyScore(pair: DexScreener.Pair, now: int) returns (r: SafetyScore)
    ensures r == Assess(MetricsOf(pair, now))
    ensures 0 <= r.score <= 100
  {
    ghost var m := MetricsOf(pair, now);
    var score := 50;
    var flags: seq<Flag> := [];

    var liq := OrZero(pair.liquidityUsd);
    score, flags := LiquidityRule(m, liq, score, flags);
    FlagsUpToNext(m, 0, LowLiquidity);
    assert flags == FlagsUpTo(m, 1);

    var vol := OrZero(pair.volumeH24);
    score, flags := VolumeRule(m, vol, score, flags);
    FlagsUpToNext(m, 1, LowVolume);
    assert flags == FlagsUpTo(m, 2);

    var ageMs := now - OrZeroInt(pair.pairCreatedAt);
    score, flags := AgeRule(m, ageMs, score, flags);
    FlagsUpToNext(m, 2, VeryNew);
    FlagsUpToNext(m, 3, NewToken);
    assert flags == FlagsUpTo(m, 4);

    var buys := if pair.txnsH24.Some? then pair.txnsH24.value.buys else 0;
    var sells := if pair.txnsH24.Some? then pair.txnsH24.value.sells else 0;
    score, flags := TradeRules(m, buys, sells, score, flags);
    FlagsUpToNext(m, 4, HeavySelling);
    FlagsUpToNext(m, 5, SuspiciousBuyPattern);
    assert flags == FlagsUpTo(m, 6);

    var priceChange24h := OrZero(pair.priceChangeH24);
    score, flags := PriceRules(m, priceChange24h, score, flags);
    FlagsUpToNext(m, 6, Dumping);
    FlagsUpToNext(m, 7, PumpAlert);
    assert flags == FlagsUpTo(m, 8);

    var mcap := DexScreener.MarketCapOf(pair);
    score, flags := MarketCapRule(m, mcap, score, flags);
    FlagsUpToNext(m, 8, MicroCap);
    assert flags == FlagsUpTo(m, 9);
    assert score == RawScore(m);

    r := SafetyScore(Max(0, Min(100, score)), flags);
  }

  /** The liquidity rule: four bands, the two lowest flagged. */
  method LiquidityRule(ghost m: Metrics, liq: real, score0: int, flags0: seq<Flag>) returns (score: int, flags: seq<Flag>)
    requires liq == m.liquidity
    ensures score == score0 + LiquidityDelta(m.liquidity)
    ensures flags == flags0 + Step(m, LowLiquidity)
  {
    score, flags := score0, flags0;
    if liq < 5000.0 { score := score - 25; flags := flags + [LowLiquidity]; }
    else if liq < 20000.0 { score := score - 10; flags := flags + [LowLiquidity]; }
    else if liq > 100000.0 { score := score + 15; }
    else { score := score + 5; }
  }

  /** The 24-hour volume rule. */
  method VolumeRule(ghost m: Metrics, vol: real, score0: int, flags0: seq<Flag>) returns (score: int, flags: seq<Flag>)
    requires vol == m.volume
    ensures score == score0 + VolumeDelta(m.volume)
    ensures flags == flags0 + Step(m, LowVolume)
  {
    score, flags := score0, flags0;
    if vol < 1000.0 { score := score - 15; flags := flags + [LowVolume]; }
    else if vol > 50000.0 { score := score + 10; }
  }

  /** The age rule: very new, new, or more than a week old. */
  method AgeRule(ghost m: Metrics, ageMs: int, score0: int, flags0: seq<Flag>) returns (score: int, flags: seq<Flag>)
    requires ageMs == m.ageMs
    ensures score == score0 + AgeDelta(m.ageMs)
    ensures flags == flags0 + Step(m, VeryNew) + Step(m, NewToken)
  {
    score, flags := score0, flags0;
    if ageMs < Hour { score := score - 15; flags := flags + [VeryNew]; }
    else if ageMs < Day { score := score - 5; flags := flags + [NewToken]; }
    else if ageMs > Week { score := score + 10; }
  }

  /** The two rules on the 24-hour buy and sell counts; only heavy selling costs points. */
  method TradeRules(ghost m: Metrics, buys: int, sells: int, score0: int, flags0: seq<Flag>)
    returns (score: int, flags: seq<Flag>)
    requires buys == m.buys && sells == m.sells
    ensures score == score0 + (if Raised(m, HeavySelling) then -15 else 0)
    ensures flags == flags0 + Step(m, HeavySelling) + Step(m, SuspiciousBuyPattern)
  {
    score, flags := score0, flags0;
    if sells > buys * 2 && sells > 10 { score := score - 15; flags := flags + [HeavySelling]; }
    if buys > sells * 5 && buys > 50 { flags := flags + [SuspiciousBuyPattern]; }
  }

  /** The two rules on the 24-hour price change; only dumping costs points. */
  method PriceRules(ghost m: Metrics, priceChange24h: real, score0: int, flags0: seq<Flag>)
    returns (score: int, flags: seq<Flag>)
    requires priceChange24h == m.priceChange
    ensures score == score0 + (if Raised(m, Dumping) then -10 else 0)
    ensures flags == flags0 + Step(m, Dumping) + Step(m, PumpAlert)
  {
    score, flags := score0, flags0;
    if priceChange24h < -50.0 { score := score - 10; flags := flags + [Dumping]; }
    if priceChange24h > 500.0 { flags := flags + [PumpAlert]; }
  }

  /** The micro-cap rule. */
  method MarketCapRule(ghost m: Metrics, mcap: real, score0: int, flags0: seq<Flag>) returns (score: int, flags: seq<Flag>)
    requires mcap == m.marketCap
    ensures score == score0 + (if Raised(m, MicroCap) then -10 else 0)
    ensures flags == flags0 + Step(m, MicroCap)
  {
    score, flags := score0, flags0;
    if mcap > 0.0 && mcap < 10000.0 { score := score - 10; flags := flags + [MicroCap]; }
  }

  // ---------------------------------------------------------------- properties of the rules

  /** The liquidity rule is a single chain: exactly one of its four adjustments applies, and the
      low-liquidity flag is raised exactly for the two penalised bands. */
  lemma LiquidityBands(m: Metrics)
    ensures LiquidityDelta(m.liquidity) in {-25, -10, 5, 15}
    ensures LiquidityDelta(m.liquidity) < 0 <==> LowLiquidity in Assess(m).flags
  {
  }

  /** Flags that exclude each other: a pair is never both very new and new, never both dumping
      and pumping, and with non-negative trade counts never both heavily sold and suspiciously
      bought. */
  lemma FlagsExclusive(m: Metrics)
    ensures !(VeryNew in Assess(m).flags && NewToken in Assess(m).flags)
    ensures !(Dumping in Assess(m).flags && PumpAlert in Assess(m).flags)
    ensures m.buys >= 0 && m.sells >= 0 ==>
      !(HeavySelling in Assess(m).flags && SuspiciousBuyPattern in Assess(m).flags)
  {
  }

  /** The suspicious-buying flag only warns: the score is the one the same pair would get with
      as many buys as sells, where the flag cannot fire. */
  lemma SuspiciousBuyingIsWarningOnly(m: Metrics)
    requires Raised(m, SuspiciousBuyPattern)
    ensures Assess(m).score == Assess(m.(buys := m.sells)).score
    ensures SuspiciousBuyPattern !in Assess(m.(buys := m.sells)).flags
  {
    assert !Raised(m, HeavySelling);
    assert !Raised(m.(buys := m.sells), HeavySelling);
  }

  /** The pump flag only warns: the score is the one the same pair would get with no price
      change at all. */
  lemma PumpIsWarningOnly(m: Metrics)
    requires Raised(m, PumpAlert)
    ensures Assess(m).score == Assess(m.(priceChange := 0.0)).score
    ensures PumpAlert !in Assess(m.(priceChange := 0.0)).flags
  {
  }

  /** The micro-cap penalty fires exactly for a cap strictly between 0 and 10000, the cap being the
      market cap, or the FDV when the market cap is 0 or missing. */
  lemma MicroCapRule(p: DexScreener.Pair, now: int)
    ensures var m := MetricsOf(p, now);
      MicroCap in Assess(m).flags <==> 0.0 < DexScreener.MarketCapOf(p) < 10000.0
  {
  }

  /** A pair without a creation time is as old as the clock, so once the clock is past one week it
      earns the age bonus and neither age flag. */
  lemma MissingCreationTimeScoresAsOld(p: DexScreener.Pair, now: int)
    requires p.pairCreatedAt.None? && now > Week
    ensures AgeDelta(MetricsOf(p, now).ageMs) == 10
    ensures VeryNew !in Assess(MetricsOf(p, now)).flags && NewToken !in Assess(MetricsOf(p, now)).flags
  {
  }

  /** More liquidity, more volume or an older pair never lowers the score. */
  lemma ScoreMonotone(m: Metrics, liquidity: real, volume: real, ageMs: int)
    requires m.liquidity <= liquidity && m.volume <= volume && m.ageMs <= ageMs
    ensures Assess(m).score <= Assess(m.(liquidity := liquidity, volume := volume, ageMs := ageMs)).score
  {
    var m' := m.(liquidity := liquidity, volume := volume, ageMs := ageMs);
    assert LiquidityDelta(m.liquidity) <= LiquidityDelta(liquidity);
    assert VolumeDelta(m.volume) <= VolumeDelta(volume);
    assert AgeDelta(m.ageMs) <= AgeDelta(ageMs);
    assert RawScore(m) <= RawScore(m');
  }

  /** Thirty-minute-old pair with 3000 of liquidity, 500 of volume and an 8000 market cap: every
      penalty but the selling and dumping ones applies and the score bottoms out at 0. */
  lemma WorkedExampleRisky()
    ensures Assess(Metrics(3000.0, 500.0, 30 * 60_000, 5, 2, 10.0, 8000.0))
      == SafetyScore(0, [LowLiquidity, LowVolume, VeryNew, MicroCap])
  {
    var m := Metrics(3000.0, 500.0, 30 * 60_000, 5, 2, 10.0, 8000.0);
    FlagsUpToNext(m, 0, LowLiquidity);
    FlagsUpToNext(m, 1, LowVolume);
    assert FlagsUpTo(m, 2) == [LowLiquidity, LowVolume];
    FlagsUpToNext(m, 2, VeryNew);
    FlagsUpToNext(m, 3, NewToken);
    assert FlagsUpTo(m, 4) == [LowLiquidity, LowVolume, VeryNew];
    FlagsUpToNext(m, 4, HeavySelling);
    FlagsUpToNext(m, 5, SuspiciousBuyPattern);
    assert FlagsUpTo(m, 6) == [LowLiquidity, LowVolume, VeryNew];
    FlagsUpToNext(m, 6, Dumping);
    FlagsUpToNext(m, 7, PumpAlert);
    assert FlagsUpTo(m, 8) == [LowLiquidity, LowVolume, VeryNew];
    FlagsUpToNext(m, 8, MicroCap);
    assert Flags(m) == [LowLiquidity, LowVolume, VeryNew, MicroCap];
    assert RawScore(m) == -15;
  }

  /** Ten-day-old pair with deep liquidity and volume but heavy selling and a 60% drop:
      50 + 15 + 10 + 10 - 15 - 10 = 60. */
  lemma WorkedExampleSelloff()
    ensures Assess(Metrics(150000.0, 80000.0, 10 * Day, 40, 300, -60.0, 2000000.0))
      == SafetyScore(60, [HeavySelling, Dumping])
  {
    var m := Metrics(150000.0, 80000.0, 10 * Day, 40, 300, -60.0, 2000000.0);
    FlagsUpToNext(m, 0, LowLiquidity);
    FlagsUpToNext(m, 1, LowVolume);
    assert FlagsUpTo(m, 2) == [];
    FlagsUpToNext(m, 2, VeryNew);
    FlagsUpToNext(m, 3, NewToken);
    assert FlagsUpTo(m, 4) == [];
    FlagsUpToNext(m, 4, HeavySelling);
    FlagsUpToNext(m, 5, SuspiciousBuyPattern);
    assert FlagsUpTo(m, 6) == [HeavySelling];
    FlagsUpToNext(m, 6, Dumping);
    FlagsUpToNext(m, 7, PumpAlert);
    assert FlagsUpTo(m, 8) == [HeavySelling, Dumping];
    FlagsUpToNext(m, 8, MicroCap);
    assert Flags(m) == [HeavySelling, Dumping];
    assert RawScore(m) == 60;
  }
}
