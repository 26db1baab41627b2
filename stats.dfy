/**
 * The `rainStats` memo of src/app/page.tsx and the combined "大暴雨+" figure
 * its summary grid shows. Each count is the length of a `filter` over the
 * station list with the range test written in page.tsx, which repeats the
 * ranges of the classifier in src/components/RainDataList.tsx.
 */
module Stats {
  import opened RainTypes
  import opened RainLevel

  /** `data.filter(s => p(s.rain)).length`. */
  function CountWhere(data: seq<RainStation>, p: real -> bool): (n: nat)
    ensures n <= |data|
  {
    if data == [] then 0
    else (if p(data[0].rain) then 1 else 0) + CountWhere(data[1..], p)
  }

  datatype RainStats = RainStats(
    total: nat,
    noRain: nat,
    lightRain: nat,
    moderateRain: nat,
    heavyRain: nat,
    rainstorm: nat,
    heavyRainstorm: nat,
    extremeRainstorm: nat)

  /** The sum of the seven tier counts. */
  function TierSum(s: RainStats): nat {
    s.noRain + s.lightRain + s.moderateRain + s.heavyRain + s.rainstorm + s.heavyRainstorm + s.extremeRainstorm
  }

  /** `rainStats`, with the range tests as page.tsx writes them. */
  function RainStatsOf(rainData: seq<RainStation>): (s: RainStats)
    ensures s.total == |rainData|
    ensures s.noRain <= s.total && s.lightRain <= s.total && s.moderateRain <= s.total
    ensures s.heavyRain <= s.total && s.rainstorm <= s.total
    ensures s.heavyRainstorm <= s.total && s.extremeRainstorm <= s.total
  {
    RainStats(
      |rainData|,
      CountWhere(rainData, r => r == 0.0),
      CountWhere(rainData, r => r >= 0.1 && r <= 9.9),
      CountWhere(rainData, r => r >= 10.0 && r <= 24.9),
      CountWhere(rainData, r => r >= 25.0 && r <= 49.9),
      CountWhere(rainData, r => r >= 50.0 && r <= 99.9),
      CountWhere(rainData, r => r >= 100.0 && r <= 249.9),
      CountWhere(rainData, r => r >= 250.0))
  }

  /**
   * The figure shown under "大暴雨+ ≥100.0 mm": the heavy-rainstorm and
   * extreme-rainstorm counts added. It counts the stations in either of the
   * two top bands, and never exceeds the number of stations.
   */
  function HeavyRainstormPlus(rainData: seq<RainStation>): (n: nat)
    ensures n == CountWhere(rainData, r => InBand(HeavyRainstorm, r) || InBand(ExtremeRainstorm, r))
    ensures n <= |rainData|
  {
    var s := RainStatsOf(rainData);
    CountWhereSame(rainData, r => r >= 100.0 && r <= 249.9, r => InBand(HeavyRainstorm, r));
    CountWhereSame(rainData, r => r >= 250.0, r => InBand(ExtremeRainstorm, r));
    CountWhereDisjointUnion(rainData, r => InBand(HeavyRainstorm, r), r => InBand(ExtremeRainstorm, r),
      r => InBand(HeavyRainstorm, r) || InBand(ExtremeRainstorm, r));
    s.heavyRainstorm + s.extremeRainstorm
  }

  /** Counting with a test that holds when exactly one of two tests does adds their counts. */
  lemma {:induction false} CountWhereDisjointUnion(data: seq<RainStation>, p: real -> bool, q: real -> bool, pq: real -> bool)
    requires forall r :: pq(r) == (p(r) || q(r)) && !(p(r) && q(r))
    ensures CountWhere(data, pq) == CountWhere(data, p) + CountWhere(data, q)
  {
    if data != [] {
      CountWhereDisjointUnion(data[1..], p, q, pq);
    }
  }

  /** Counting with two tests that agree on every value gives the same count. */
  lemma {:induction false} CountWhereSame(data: seq<RainStation>, p: real -> bool, q: real -> bool)
    requires forall r :: p(r) == q(r)
    ensures CountWhere(data, p) == CountWhere(data, q)
  {
    if data != [] {
      CountWhereSame(data[1..], p, q);
    }
  }

  /** The stations of a list split off by its first element. */
  lemma StatsCons(data: seq<RainStation>)
    requires data != []
    ensures var s, t, r := RainStatsOf(data), RainStatsOf(data[1..]), data[0].rain;
      && s.noRain == t.noRain + (if InBand(NoRain, r) then 1 else 0)
      && s.lightRain == t.lightRain + (if InBand(Light, r) then 1 else 0)
      && s.moderateRain == t.moderateRain + (if InBand(Moderate, r) then 1 else 0)
      && s.heavyRain == t.heavyRain + (if InBand(Heavy, r) then 1 else 0)
      && s.rainstorm == t.rainstorm + (if InBand(Rainstorm, r) then 1 else 0)
      && s.heavyRainstorm == t.heavyRainstorm + (if InBand(HeavyRainstorm, r) then 1 else 0)
      && s.extremeRainstorm == t.extremeRainstorm + (if InBand(ExtremeRainstorm, r) then 1 else 0)
  {
  }

  /**
   * The buckets are disjoint: the seven counts and the number of stations
   * the classifier calls unknown add up to the total, so the seven alone
   * never exceed it.
   */
  lemma {:induction false} TierSumPlusUnknown(data: seq<RainStation>)
    ensures TierSum(RainStatsOf(data)) + CountWhere(data, r => RainLevelText(r) == "未知") == |data|
    ensures TierSum(RainStatsOf(data)) <= RainStatsOf(data).total
  {
    if data != [] {
      TierSumPlusUnknown(data[1..]);
      StatsCons(data);
      var r := data[0].rain;
      if TierOf(r) != Unknown {
        BandsDisjoint(TierOf(r), TierOf(r), r);
      }
    }
  }

  /** The number of stations `getRainLevelText` labels with tier `t`. */
  function CountLabelled(data: seq<RainStation>, t: Tier): (n: nat)
    ensures n <= |data|
  {
    CountWhere(data, r => RainLevelText(r) == Label(t))
  }

  /** Each tier count is the number of stations the classifier puts in that tier. */
  lemma StatsMatchClassifier(data: seq<RainStation>)
    ensures var s := RainStatsOf(data);
      && s.noRain == CountLabelled(data, NoRain)
      && s.lightRain == CountLabelled(data, Light)
      && s.moderateRain == CountLabelled(data, Moderate)
      && s.heavyRain == CountLabelled(data, Heavy)
      && s.rainstorm == CountLabelled(data, Rainstorm)
      && s.heavyRainstorm == CountLabelled(data, HeavyRainstorm)
      && s.extremeRainstorm == CountLabelled(data, ExtremeRainstorm)
  {
    forall t: Tier | t != Unknown
      ensures forall r :: (RainLevelText(r) == Label(t)) == InBand(t, r)
    {
      forall r ensures (RainLevelText(r) == Label(t)) == InBand(t, r) {
        if RainLevelText(r) == Label(t) {
          TextAndColorAgree(r, t);
        }
      }
    }
    CountWhereSame(data, r => r == 0.0, r => RainLevelText(r) == Label(NoRain));
    CountWhereSame(data, r => r >= 0.1 && r <= 9.9, r => RainLevelText(r) == Label(Light));
    CountWhereSame(data, r => r >= 10.0 && r <= 24.9, r => RainLevelText(r) == Label(Moderate));
    CountWhereSame(data, r => r >= 25.0 && r <= 49.9, r => RainLevelText(r) == Label(Heavy));
    CountWhereSame(data, r => r >= 50.0 && r <= 99.9, r => RainLevelText(r) == Label(Rainstorm));
    CountWhereSame(data, r => r >= 100.0 && r <= 249.9, r => RainLevelText(r) == Label(HeavyRainstorm));
    CountWhereSame(data, r => r >= 250.0, r => RainLevelText(r) == Label(ExtremeRainstorm));
  }

  /** A reading at the gauges' 0.1 mm resolution. */
  predicate OnTenthGrid(rain: real) {
    (rain * 10.0).Floor as real == rain * 10.0
  }

  /**
   * For readings at 0.1 mm resolution the combined figure is the number of
   * stations with at least 100.0 mm.
   */
  lemma {:induction false} HeavyRainstormPlusCountsAtLeast100(data: seq<RainStation>)
    requires forall i :: 0 <= i < |data| ==> OnTenthGrid(data[i].rain)
    ensures HeavyRainstormPlus(data) == CountWhere(data, r => r >= 100.0)
  {
    if data != [] {
      HeavyRainstormPlusCountsAtLeast100(data[1..]);
      StatsCons(data);
      assert OnTenthGrid(data[0].rain);
    }
  }

  /** A reading of 249.95 mm lies in neither bucket of the combined figure. */
  lemma HeavyRainstormPlusMissesGap(station: RainStation)
    requires station.rain == 249.95
    ensures HeavyRainstormPlus([station]) == 0
    ensures CountWhere([station], r => r >= 100.0) == 1
  {
    var data := [station];
    assert data[1..] == [];
    StatsCons(data);
    assert CountWhere(data, r => r >= 100.0) == 1 + CountWhere(data[1..], r => r >= 100.0);
  }

  /** A list holding one station with 12.5 mm counts it once, as moderate rain. */
  lemma SingleModerateStation(station: RainStation)
    requires station.rain == 12.5
    ensures RainStatsOf([station]).total == 1
    ensures RainStatsOf([station]).moderateRain == 1
    ensures TierSum(RainStatsOf([station])) == 1
  {
    var data := [station];
    assert data[1..] == [];
    StatsCons(data);
  }
}
