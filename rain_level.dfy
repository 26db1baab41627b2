/**
 * The pure helpers of src/components/RainDataList.tsx: the timestamp
 * formatter and the two rainfall classifiers.
 *
 * The classifiers are written as the first-match chains they are in the
 * component. Beside them, `InBand` is the severity table itself (one closed
 * range per tier) and `TierOf` the classification it defines; the contracts
 * and lemmas tie the two chains to that table.
 */
module RainLevel {

  // ---------------------------------------------------------------------
  // Timestamp formatting
  // ---------------------------------------------------------------------

  /** `formatTime`: `YYYYMMDDHHMM` becomes `YYYY/MM/DD HH:MM`; any other length passes through. */
  function FormatTime(timeStr: string): (r: string)
    ensures |timeStr| != 12 ==> r == timeStr
    ensures |timeStr| == 12 ==> IsFormatted(r)
  {
    if |timeStr| != 12 then timeStr
    else
      timeStr[0..4] + "/" + timeStr[4..6] + "/" + timeStr[6..8] + " "
      + timeStr[8..10] + ":" + timeStr[10..12]
  }

  /** A 16-character string with the separators of `YYYY/MM/DD HH:MM` in place. */
  predicate IsFormatted(t: string) {
    |t| == 16 && t[4] == '/' && t[7] == '/' && t[10] == ' ' && t[13] == ':'
  }

  /** Deletes the four separator positions 4, 7, 10 and 13 of a formatted timestamp. */
  function Unformat(t: string): (s: string)
    requires |t| == 16
    ensures |s| == 12
  {
    t[0..4] + t[5..7] + t[8..10] + t[11..13] + t[14..16]
  }

  /** Deleting the separators from `FormatTime(s)` gives `s` back. */
  lemma FormatRoundTrip(s: string)
    requires |s| == 12
    ensures |FormatTime(s)| == 16 && Unformat(FormatTime(s)) == s
  {
    var t := FormatTime(s);
    assert t[0..4] == s[0..4] && t[5..7] == s[4..6] && t[8..10] == s[6..8];
    assert t[11..13] == s[8..10] && t[14..16] == s[10..12];
    assert s == s[0..4] + s[4..6] + s[6..8] + s[8..10] + s[10..12];
  }

  /** Every formatted timestamp is the formatting of its digits. */
  lemma UnformatRoundTrip(t: string)
    requires IsFormatted(t)
    ensures FormatTime(Unformat(t)) == t
  {
    var s := Unformat(t);
    assert s[0..4] == t[0..4] && s[4..6] == t[5..7] && s[6..8] == t[8..10];
    assert s[8..10] == t[11..13] && s[10..12] == t[14..16];
    assert t == t[0..4] + [t[4]] + t[5..7] + [t[7]] + t[8..10] + [t[10]] + t[11..13] + [t[13]] + t[14..16];
  }

  /** The reading time `202401151230` is shown as `2024/01/15 12:30`. */
  lemma FormatTimeExample()
    ensures FormatTime("202401151230") == "2024/01/15 12:30"
  {
    var s := "202401151230";
    assert s[0..4] == "2024" && s[4..6] == "01" && s[6..8] == "15";
    assert s[8..10] == "12" && s[10..12] == "30";
  }

  // ---------------------------------------------------------------------
  // The severity table
  // ---------------------------------------------------------------------

  /** The tiers in the order the chains test them; `Unknown` is the fallback. */
  datatype Tier = NoRain | Light | Moderate | Heavy | Rainstorm | HeavyRainstorm | ExtremeRainstorm | Unknown

  /** Position of a tier on the severity scale; `Unknown` is put last, after every covered tier. */
  function Rank(t: Tier): nat {
    match t
    case NoRain => 0
    case Light => 1
    case Moderate => 2
    case Heavy => 3
    case Rainstorm => 4
    case HeavyRainstorm => 5
    case ExtremeRainstorm => 6
    case Unknown => 7
  }

  /** The closed range of millimetres each tier covers; `Unknown` covers nothing. */
  predicate InBand(t: Tier, rain: real) {
    match t
    case NoRain => rain == 0.0
    case Light => 0.1 <= rain <= 9.9
    case Moderate => 10.0 <= rain <= 24.9
    case Heavy => 25.0 <= rain <= 49.9
    case Rainstorm => 50.0 <= rain <= 99.9
    case HeavyRainstorm => 100.0 <= rain <= 249.9
    case ExtremeRainstorm => 250.0 <= rain
    case Unknown => false
  }

  /** The values between or below the bands: negative values and the six gaps. */
  predicate InGap(rain: real) {
    rain < 0.0 || (0.0 < rain < 0.1) || (9.9 < rain < 10.0) || (24.9 < rain < 25.0)
    || (49.9 < rain < 50.0) || (99.9 < rain < 100.0) || (249.9 < rain < 250.0)
  }

  /** The bands never overlap, so a value lies in at most one of them. */
  lemma BandsDisjoint(t: Tier, u: Tier, rain: real)
    requires InBand(t, rain) && InBand(u, rain)
    ensures t == u
  {
  }

  /** A value lies in no band exactly when it lies in a gap. */
  lemma UncoveredIsGap(rain: real)
    ensures (forall t: Tier :: !InBand(t, rain)) <==> InGap(rain)
  {
    if !InGap(rain) {
      assert InBand(NoRain, rain) || InBand(Light, rain) || InBand(Moderate, rain)
        || InBand(Heavy, rain) || InBand(Rainstorm, rain) || InBand(HeavyRainstorm, rain)
        || InBand(ExtremeRainstorm, rain);
    }
  }

  /** The tier whose band holds `rain`, or `Unknown` when no band does. */
  function TierOf(rain: real): (t: Tier)
    ensures t != Unknown ==> InBand(t, rain)
    ensures forall u: Tier :: InBand(u, rain) ==> u == t
    ensures t == Unknown <==> InGap(rain)
  {
    UncoveredIsGap(rain);
    if InBand(NoRain, rain) then NoRain
    else if InBand(Light, rain) then Light
    else if InBand(Moderate, rain) then Moderate
    else if InBand(Heavy, rain) then Heavy
    else if InBand(Rainstorm, rain) then Rainstorm
    else if InBand(HeavyRainstorm, rain) then HeavyRainstorm
    else if InBand(ExtremeRainstorm, rain) then ExtremeRainstorm
    else Unknown
  }

  /** Over covered values the tier never decreases as rainfall grows. */
  lemma TierMonotone(a: real, b: real)
    requires a <= b
    requires TierOf(a) != Unknown && TierOf(b) != Unknown
    ensures Rank(TierOf(a)) <= Rank(TierOf(b))
  {
  }

  /** The label the component shows for each tier. */
  function Label(t: Tier): string {
    match t
    case NoRain => "無降雨"
    case Light => "小雨"
    case Moderate => "中雨"
    case Heavy => "大雨"
    case Rainstorm => "暴雨"
    case HeavyRainstorm => "大暴雨"
    case ExtremeRainstorm => "特大暴雨"
    case Unknown => "未知"
  }

  const Gray := "text-gray-600 bg-gray-50"

  /** The colour classes the component uses for each tier. */
  function Color(t: Tier): string {
    match t
    case NoRain => Gray
    case Light => "text-green-600 bg-green-50"
    case Moderate => "text-yellow-600 bg-yellow-50"
    case Heavy => "text-orange-600 bg-orange-50"
    case Rainstorm => "text-red-600 bg-red-50"
    case HeavyRainstorm => "text-purple-600 bg-purple-50"
    case ExtremeRainstorm => "text-pink-600 bg-pink-50"
    case Unknown => Gray
  }

  /** Distinct tiers have distinct labels, so a label names its tier. */
  lemma LabelInjective(t: Tier, u: Tier)
    requires Label(t) == Label(u)
    ensures t == u
  {
  }

  // ---------------------------------------------------------------------
  // The classifiers as written
  // ---------------------------------------------------------------------

  /** `getRainLevelText`: the first matching range decides the label. */
  function RainLevelText(rain: real): (r: string)
    ensures r == Label(TierOf(rain))
    ensures r == "未知" <==> InGap(rain)
  {
    if rain == 0.0 then "無降雨"
    else if rain >= 0.1 && rain <= 9.9 then "小雨"
    else if rain >= 10.0 && rain <= 24.9 then "中雨"
    else if rain >= 25.0 && rain <= 49.9 then "大雨"
    else if rain >= 50.0 && rain <= 99.9 then "暴雨"
    else if rain >= 100.0 && rain <= 249.9 then "大暴雨"
    else if rain >= 250.0 then "特大暴雨"
    else "未知"
  }

  /** `getRainLevelColor`: the same chain, yielding colour classes. */
  function RainLevelColor(rain: real): (r: string)
    ensures r == Color(TierOf(rain))
    ensures r == Gray <==> rain == 0.0 || InGap(rain)
  {
    if rain == 0.0 then "text-gray-600 bg-gray-50"
    else if rain >= 0.1 && rain <= 9.9 then "text-green-600 bg-green-50"
    else if rain >= 10.0 && rain <= 24.9 then "text-yellow-600 bg-yellow-50"
    else if rain >= 25.0 && rain <= 49.9 then "text-orange-600 bg-orange-50"
    else if rain >= 50.0 && rain <= 99.9 then "text-red-600 bg-red-50"
    else if rain >= 100.0 && rain <= 249.9 then "text-purple-600 bg-purple-50"
    else if rain >= 250.0 then "text-pink-600 bg-pink-50"
    else "text-gray-600 bg-gray-50"
  }

  /** Text and colour of a value always come from one and the same band. */
  lemma TextAndColorAgree(rain: real, t: Tier)
    requires RainLevelText(rain) == Label(t)
    ensures RainLevelColor(rain) == Color(t)
    ensures t != Unknown <==> InBand(t, rain)
  {
    LabelInjective(t, TierOf(rain));
  }

  /** The boundary values of the table. */
  lemma BoundaryValues()
    ensures RainLevelText(0.0) == "無降雨" && RainLevelColor(0.0) == Gray
    ensures RainLevelText(0.1) == "小雨" && RainLevelText(9.9) == "小雨"
    ensures RainLevelText(10.0) == "中雨"
    ensures RainLevelText(249.9) == "大暴雨"
    ensures RainLevelText(250.0) == "特大暴雨"
    ensures RainLevelText(12.5) == "中雨"
  {
  }

  /** Every value from 250.0 upward is the most severe tier. */
  lemma ExtremeFromTwoHundredFifty(rain: real)
    requires rain >= 250.0
    ensures RainLevelText(rain) == "特大暴雨" && RainLevelColor(rain) == "text-pink-600 bg-pink-50"
  {
  }

  /** Values outside every band fall to the unknown label and the gray colour. */
  lemma GapIsUnknown(rain: real)
    requires InGap(rain)
    ensures RainLevelText(rain) == "未知" && RainLevelColor(rain) == Gray
  {
  }
}
