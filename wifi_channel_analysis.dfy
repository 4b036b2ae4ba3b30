/**
 * Channel analysis (crates/netdiag-wifi, channel.rs): a score for every
 * 2.4 GHz and 5 GHz channel from the access points on it and its survey,
 * switch recommendations against the current channel, and a health score.
 */
module ChannelAnalysis {
  import opened Wrappers
  import opened Text
  import opened WifiChannel
  import opened AccessPoints

  /** `ChannelInfo`; the `f64` average signal is a real. */
  datatype ChannelInfo = ChannelInfo(
    channel: Channel,
    utilization: Option<ChannelUtilization>,
    apCount: nat,
    maxSignal: Option<int>,
    avgSignal: Option<real>,
    isDfs: bool,
    score: Byte)

  /**
   * Which of the three recommendations `generate_recommendations` can make:
   * a 5 GHz channel, a less crowded 2.4 GHz channel, or a DFS channel. Each
   * fixes the recommendation's priority and its two texts.
   */
  datatype RecommendationKind = Faster5GHz | LessCongested2_4GHz | CleanDfs

  /** `ChannelRecommendation`; the reason and expected improvement texts are not modelled. */
  datatype ChannelRecommendation = ChannelRecommendation(
    channel: Channel,
    kind: RecommendationKind,
    priority: nat,
    scoreImprovement: int)

  /** `ChannelAnalysis`. */
  datatype Analysis = Analysis(
    currentChannel: Option<Channel>,
    currentUtilization: Option<ChannelUtilization>,
    channels: seq<ChannelInfo>,
    recommendations: seq<ChannelRecommendation>,
    healthScore: Byte)

  // ---------------------------------------------------------------------------
  // Arithmetic of `u8`
  // ---------------------------------------------------------------------------

  /** `u8::saturating_sub`. */
  function Sat(a: Byte, b: nat): (r: Byte)
    ensures r <= a
    ensures r == if b >= a then 0 else a - b
  {
    if b >= a then 0 else a - b
  }

  /** `f as u8` for a non-NaN float: truncation toward zero, saturating at 0 and 255. */
  function AsU8(x: real): (r: Byte)
    ensures x <= 0.0 ==> r == 0
    ensures 0.0 <= x < 256.0 ==> r as real <= x < r as real + 1.0
    ensures x >= 256.0 ==> r == 255
  {
    if x <= 0.0 then 0 else if x >= 255.0 then 255 else x.Floor
  }

  // ---------------------------------------------------------------------------
  // Access points and surveys of one channel
  // ---------------------------------------------------------------------------

  /**
   * The access points grouped under channel number `ch`, in scan order. The
   * grouping is by number alone, whatever band the access point is on.
   */
  function ApsOn(aps: seq<AccessPoint>, ch: Byte): (r: seq<AccessPoint>)
    ensures |r| <= |aps|
    ensures forall ap | ap in r :: ap in aps && ap.channel.number == ch
    ensures forall ap | ap in aps && ap.channel.number == ch :: ap in r
  {
    if aps == [] then []
    else
      var init := aps[..|aps| - 1];
      var last := aps[|aps| - 1];
      assert forall ap :: ap in aps <==> ap in init || ap == last;
      ApsOn(init, ch) + (if last.channel.number == ch then [last] else [])
  }

  /**
   * Like the source's `filter(..).collect()`, it keeps every access point on the
   * channel once, in scan order: it distributes over concatenation, so
   * `apCount` is exactly the number of scanned access points on the channel.
   */
  lemma {:induction false} ApsOnSplits(a: seq<AccessPoint>, b: seq<AccessPoint>, x: AccessPoint, ch: Byte)
    ensures ApsOn([x], ch) == if x.channel.number == ch then [x] else []
    ensures ApsOn(a + b, ch) == ApsOn(a, ch) + ApsOn(b, ch)
  {
    assert [x][..0] == [];
    if b == [] {
      assert a + b == a;
    } else {
      var init := b[..|b| - 1];
      var last := b[|b| - 1];
      assert (a + b)[..|a + b| - 1] == a + init && (a + b)[|a + b| - 1] == last;
      ApsOnSplits(a, init, x, ch);
      var tail := if last.channel.number == ch then [last] else [];
      assert ApsOn(a + b, ch) == ApsOn(a + init, ch) + tail;
      assert ApsOn(b, ch) == ApsOn(init, ch) + tail;
    }
  }

  /** The strongest signal, `None` without access points. */
  function MaxRssi(aps: seq<AccessPoint>): (r: Option<int>)
    ensures r.None? <==> aps == []
    ensures r.Some? ==> (exists i | 0 <= i < |aps| :: aps[i].rssi == r.value)
    ensures r.Some? ==> forall i | 0 <= i < |aps| :: aps[i].rssi <= r.value
  {
    if aps == [] then None
    else
      var m := MaxRssi(aps[..|aps| - 1]);
      var x := aps[|aps| - 1].rssi;
      if m.Some? && m.value >= x then m else Some(x)
  }

  /** The sum of the signals. */
  function RssiSum(aps: seq<AccessPoint>): int {
    if aps == [] then 0 else RssiSum(aps[..|aps| - 1]) + aps[|aps| - 1].rssi
  }

  /** The average signal, `None` without access points. */
  function AvgRssi(aps: seq<AccessPoint>): (r: Option<real>)
    ensures r.None? <==> aps == []
  {
    if aps == [] then None else Some(RssiSum(aps) as real / |aps| as real)
  }

  /** The first survey of channel number `ch`, as `find` returns it. */
  function FindUtilization(us: seq<ChannelUtilization>, ch: Byte): (r: Option<ChannelUtilization>)
    ensures r.Some? ==> r.value in us && r.value.channel.number == ch
    ensures r.None? <==> forall u | u in us :: u.channel.number != ch
  {
    if us == [] then None
    else if us[0].channel.number == ch then Some(us[0])
    else FindUtilization(us[1..], ch)
  }

  // ---------------------------------------------------------------------------
  // Channel score
  // ---------------------------------------------------------------------------

  /** The penalty for the strongest signal on the channel: 30, 20, 10 or none. */
  function SignalPenalty(maxRssi: Option<int>): (r: nat)
    ensures r <= 30
  {
    if maxRssi.None? then 0
    else if maxRssi.value >= -50 then 30
    else if maxRssi.value >= -60 then 20
    else if maxRssi.value >= -70 then 10
    else 0
  }

  /** The penalty for the surveyed interference level. */
  function LevelPenalty(level: InterferenceLevel): (r: nat)
    ensures r <= 30
  {
    match level
    case Severe => 30
    case High => 20
    case Medium => 10
    case Low => 0
  }

  /** The three 2.4 GHz channels that do not overlap each other. */
  predicate NonOverlappingNumber(n: nat) {
    n == 1 || n == 6 || n == 11
  }

  /** The channel numbers the score treats as DFS, in any band. */
  predicate DfsRange(n: nat) {
    52 <= n <= 144
  }

  /**
   * The score after the penalties for `count` access points (10 each, at
   * most 50), for the strongest signal and for the survey.
   */
  function Penalized(count: nat, maxRssi: Option<int>, util: Option<ChannelUtilization>): (r: Byte)
    ensures r <= 100
  {
    var crowded := Sat(100, Min(count * 10, 50));
    var signal := Sat(crowded, SignalPenalty(maxRssi));
    if util.None? then signal
    else Sat(Sat(signal, AsU8(util.value.utilizationPercent * 0.5)), LevelPenalty(util.value.interferenceLevel))
  }

  /** The score after the crowding, signal and survey penalties. */
  function PenalizedScore(aps: seq<AccessPoint>, util: Option<ChannelUtilization>): (r: Byte)
    ensures r <= 100
  {
    Penalized(|aps|, MaxRssi(aps), util)
  }

  /** The penalized score raised by 10 up to 100 on channels 1, 6 and 11 at 2.4 GHz, lowered by 5 on 52-144. */
  function Adjusted(c: Channel, p: Byte): (r: Byte)
    requires p <= 100
    ensures r <= 100
  {
    var bonus := if c.band == Band2_4GHz && NonOverlappingNumber(c.number) then Min(p + 10, 100) else p;
    if DfsRange(c.number) then Sat(bonus, 5) else bonus
  }

  /**
   * The score `calculate_channel_score` gives: the penalized score, raised
   * by 10 up to 100 on channels 1, 6 and 11 at 2.4 GHz, lowered by 5 on
   * channel numbers 52-144.
   */
  function ChannelScore(c: Channel, aps: seq<AccessPoint>, util: Option<ChannelUtilization>): (r: Byte)
    ensures r <= 100
  {
    Adjusted(c, PenalizedScore(aps, util))
  }

  /** `calculate_channel_score`: one running score, lowered or raised step by step. */
  method CalculateChannelScore(c: Channel, aps: seq<AccessPoint>, util: Option<ChannelUtilization>) returns (score: Byte)
    ensures score == ChannelScore(c, aps, util)
  {
    score := 100;
    var apPenalty := Min(|aps| * 10, 50);
    score := Sat(score, apPenalty);
    var maxRssi := MaxRssi(aps);
    if maxRssi.Some? {
      if maxRssi.value >= -50 {
        score := Sat(score, 30);
      } else if maxRssi.value >= -60 {
        score := Sat(score, 20);
      } else if maxRssi.value >= -70 {
        score := Sat(score, 10);
      }
    }
    assert score == Sat(Sat(100, Min(|aps| * 10, 50)), SignalPenalty(maxRssi));
    if util.Some? {
      var utilPenalty := AsU8(util.value.utilizationPercent * 0.5);
      score := Sat(score, utilPenalty);
      match util.value.interferenceLevel {
        case Severe => score := Sat(score, 30);
        case High => score := Sat(score, 20);
        case Medium => score := Sat(score, 10);
        case Low =>
      }
    }
    assert score == Penalized(|aps|, maxRssi, util);
    if c.band == Band2_4GHz && NonOverlappingNumber(c.number) {
      score := Min(score + 10, 100);
    }
    if DfsRange(c.number) {
      score := Sat(score, 5);
    }
  }

  /**
   * An empty, unsurveyed channel scores 100, or 95 when its number is in
   * the DFS range; a channel in the DFS range never scores above 95.
   */
  lemma ScoreOfEmptyChannel(c: Channel)
    ensures ChannelScore(c, [], None) == if DfsRange(c.number) then 95 else 100
    ensures DfsRange(c.number) ==> forall aps, util :: ChannelScore(c, aps, util) <= 95
  {
  }

  lemma {:induction false} MaxRssiAppend(aps: seq<AccessPoint>, ap: AccessPoint)
    ensures MaxRssi(aps + [ap]).Some?
    ensures MaxRssi(aps).Some? ==> MaxRssi(aps).value <= MaxRssi(aps + [ap]).value
    ensures ap.rssi <= MaxRssi(aps + [ap]).value
  {
    assert (aps + [ap])[..|aps|] == aps;
  }

  /** Each penalty grows with the strongest signal. */
  lemma SignalPenaltyMonotone(a: Option<int>, b: Option<int>)
    requires a.Some? ==> b.Some? && a.value <= b.value
    ensures SignalPenalty(a) <= SignalPenalty(b)
  {
  }

  /** One more access point on a channel never raises its score. */
  lemma ScoreFallsWithAps(c: Channel, aps: seq<AccessPoint>, ap: AccessPoint, util: Option<ChannelUtilization>)
    ensures ChannelScore(c, aps + [ap], util) <= ChannelScore(c, aps, util)
  {
    MaxRssiAppend(aps, ap);
    SignalPenaltyMonotone(MaxRssi(aps), MaxRssi(aps + [ap]));
    PenalizedMonotone(|aps|, |aps + [ap]|, MaxRssi(aps), MaxRssi(aps + [ap]), util);
    AdjustedMonotone(c, PenalizedScore(aps + [ap], util), PenalizedScore(aps, util));
  }

  /** More access points or a stronger signal never raise the penalized score. */
  lemma PenalizedMonotone(n: nat, n': nat, m: Option<int>, m': Option<int>, util: Option<ChannelUtilization>)
    requires n <= n' && SignalPenalty(m) <= SignalPenalty(m')
    ensures Penalized(n', m', util) <= Penalized(n, m, util)
  {
    var crowded, crowded' := Sat(100, Min(n * 10, 50)), Sat(100, Min(n' * 10, 50));
    var signal, signal' := Sat(crowded, SignalPenalty(m)), Sat(crowded', SignalPenalty(m'));
    SatMonotone(crowded', crowded, SignalPenalty(m'), SignalPenalty(m));
    if util.Some? {
      var u := AsU8(util.value.utilizationPercent * 0.5);
      var l := LevelPenalty(util.value.interferenceLevel);
      SatMonotone(signal', signal, u, u);
      SatMonotone(Sat(signal', u), Sat(signal, u), l, l);
    }
  }

  /** The band and DFS adjustments keep the order of scores. */
  lemma AdjustedMonotone(c: Channel, p: Byte, q: Byte)
    requires p <= q <= 100
    ensures Adjusted(c, p) <= Adjusted(c, q)
  {
  }

  /** `saturating_sub` grows with its first argument and falls with its second. */
  lemma SatMonotone(a: Byte, b: Byte, x: nat, y: nat)
    requires a <= b && y <= x
    ensures Sat(a, x) <= Sat(b, y)
  {
  }

  // ---------------------------------------------------------------------------
  // The channel table
  // ---------------------------------------------------------------------------

  /** The 5 GHz channels analyzed: UNII-1, UNII-2A, UNII-2C and UNII-3. */
  function Ghz5Channels(): (r: seq<Byte>)
    ensures |r| == 25
  {
    [36, 40, 44, 48, 52, 56, 60, 64,
     100, 104, 108, 112, 116, 120, 124, 128, 132, 136, 140, 144,
     149, 153, 157, 161, 165]
  }

  /** The info `analyze` builds for channel `ch` of `band`. */
  function InfoFor(ch: Byte, band: WifiBand, aps: seq<AccessPoint>, us: seq<ChannelUtilization>): (r: ChannelInfo)
    ensures r.channel == FromNumber(ch, band)
    ensures r.apCount == |ApsOn(aps, ch)| && r.utilization == FindUtilization(us, ch)
    ensures r.isDfs <==> band == Band5GHz && DfsRange(ch)
  {
    var channel := FromNumber(ch, band);
    var on := ApsOn(aps, ch);
    var util := FindUtilization(us, ch);
    ChannelInfo(channel, util, |on|, MaxRssi(on), AvgRssi(on),
                band == Band5GHz && DfsRange(ch), ChannelScore(channel, on, util))
  }

  /**
   * On the 5 GHz channels the analysis lists, its own DFS test (52 to 144)
   * agrees with `Channel::is_dfs` (52 to 64 and 100 to 144): the table has
   * no channel in the gap between them.
   */
  lemma DfsFlagAgrees(k: nat, band: WifiBand, aps: seq<AccessPoint>, us: seq<ChannelUtilization>)
    requires k < |Ghz5Channels()|
    ensures var info := InfoFor(Ghz5Channels()[k], band, aps, us);
      info.isDfs <==> IsDfs(info.channel)
  {
  }

  /** `f` applied to each channel number of `chs`, in order. */
  function MapChannels(chs: seq<Byte>, f: Byte -> ChannelInfo): seq<ChannelInfo> {
    if chs == [] then [] else MapChannels(chs[..|chs| - 1], f) + [f(chs[|chs| - 1])]
  }

  lemma {:induction false} MapChannelsAt(chs: seq<Byte>, f: Byte -> ChannelInfo)
    ensures |MapChannels(chs, f)| == |chs|
    ensures forall k | 0 <= k < |chs| :: MapChannels(chs, f)[k] == f(chs[k])
  {
    if chs != [] {
      var init := chs[..|chs| - 1];
      MapChannelsAt(init, f);
      assert forall k | 0 <= k < |init| :: chs[k] == init[k];
    }
  }

  /** The infos of channels `chs` of `band`, in order. */
  function Rows(chs: seq<Byte>, band: WifiBand, aps: seq<AccessPoint>, us: seq<ChannelUtilization>): seq<ChannelInfo> {
    MapChannels(chs, (ch: Byte) => InfoFor(ch, band, aps, us))
  }

  lemma RowsAt(chs: seq<Byte>, band: WifiBand, aps: seq<AccessPoint>, us: seq<ChannelUtilization>)
    ensures |Rows(chs, band, aps, us)| == |chs|
    ensures forall k | 0 <= k < |chs| :: Rows(chs, band, aps, us)[k] == InfoFor(chs[k], band, aps, us)
  {
    MapChannelsAt(chs, (ch: Byte) => InfoFor(ch, band, aps, us));
  }

  lemma RowsStep(chs: seq<Byte>, i: nat, band: WifiBand, aps: seq<AccessPoint>, us: seq<ChannelUtilization>)
    requires i < |chs|
    ensures Rows(chs[..i + 1], band, aps, us) == Rows(chs[..i], band, aps, us) + [InfoFor(chs[i], band, aps, us)]
  {
    assert chs[..i + 1][..i] == chs[..i];
  }

  /** The 2.4 GHz channels analyzed, 1 to 14. */
  function Ghz2_4Channels(): (r: seq<Byte>)
    ensures |r| == 14 && forall i | 0 <= i < 14 :: r[i] == i + 1
  {
    [1, 2, 3, 4, 5, 6, 7, 8, 9, 10, 11, 12, 13, 14]
  }

  /** The table `analyze` builds: channels 1-14 at 2.4 GHz, then the 5 GHz list. */
  predicate IsChannelTable(cs: seq<ChannelInfo>, aps: seq<AccessPoint>, us: seq<ChannelUtilization>) {
    cs == Rows(Ghz2_4Channels(), Band2_4GHz, aps, us) + Rows(Ghz5Channels(), Band5GHz, aps, us)
  }

  /** The channel info `analyze` pushes for one channel. */
  method ChannelInfoOf(ch: Byte, band: WifiBand, aps: seq<AccessPoint>, us: seq<ChannelUtilization>) returns (info: ChannelInfo)
    ensures info == InfoFor(ch, band, aps, us)
  {
    var channel := FromNumber(ch, band);
    var on := ApsOn(aps, ch);
    var util := FindUtilization(us, ch);
    var score := CalculateChannelScore(channel, on, util);
    info := ChannelInfo(channel, util, |on|, MaxRssi(on), AvgRssi(on), band == Band5GHz && DfsRange(ch), score);
  }

  /** The first loop of `analyze`: channels 1 to 14 at 2.4 GHz. */
  method Build2_4GHz(aps: seq<AccessPoint>, us: seq<ChannelUtilization>) returns (cs: seq<ChannelInfo>)
    ensures cs == Rows(Ghz2_4Channels(), Band2_4GHz, aps, us)
  {
    cs := [];
    var ghz24 := Ghz2_4Channels();
    for ch := 1 to 15
      invariant cs == Rows(ghz24[..ch - 1], Band2_4GHz, aps, us)
    {
      var info := ChannelInfoOf(ch, Band2_4GHz, aps, us);
      RowsStep(ghz24, ch - 1, Band2_4GHz, aps, us);
      cs := cs + [info];
    }
    assert ghz24[..14] == ghz24;
  }

  /** The second loop of `analyze`: the 5 GHz list, appended to `cs`. */
  method Append5GHz(cs0: seq<ChannelInfo>, aps: seq<AccessPoint>, us: seq<ChannelUtilization>) returns (cs: seq<ChannelInfo>)
    ensures cs == cs0 + Rows(Ghz5Channels(), Band5GHz, aps, us)
  {
    cs := cs0;
    var ghz5 := Ghz5Channels();
    for k := 0 to |ghz5|
      invariant cs == cs0 + Rows(ghz5[..k], Band5GHz, aps, us)
    {
      var info := ChannelInfoOf(ghz5[k], Band5GHz, aps, us);
      RowsStep(ghz5, k, Band5GHz, aps, us);
      cs := cs + [info];
    }
    assert ghz5[..|ghz5|] == ghz5;
  }

  /** The two loops of `analyze` that fill the channel table. */
  method BuildChannels(aps: seq<AccessPoint>, us: seq<ChannelUtilization>) returns (cs: seq<ChannelInfo>)
    ensures IsChannelTable(cs, aps, us)
  {
    cs := Build2_4GHz(aps, us);
    cs := Append5GHz(cs, aps, us);
  }

  /** The table lists 14 channels at 2.4 GHz and then 25 at 5 GHz; only 5 GHz channels are DFS. */
  lemma ChannelTableShape(cs: seq<ChannelInfo>, aps: seq<AccessPoint>, us: seq<ChannelUtilization>)
    requires IsChannelTable(cs, aps, us)
    ensures |cs| == 39
    ensures forall i | 0 <= i < |cs| :: cs[i].channel.band == (if i < 14 then Band2_4GHz else Band5GHz)
    ensures forall i | 0 <= i < 14 :: cs[i].channel.number == i + 1 && !cs[i].isDfs
    ensures forall i | 14 <= i < |cs| :: cs[i].channel.number == Ghz5Channels()[i - 14]
    ensures forall i | 0 <= i < |cs| :: cs[i].score <= 100
  {
    var r24 := Rows(Ghz2_4Channels(), Band2_4GHz, aps, us);
    var r5 := Rows(Ghz5Channels(), Band5GHz, aps, us);
    RowsAt(Ghz2_4Channels(), Band2_4GHz, aps, us);
    RowsAt(Ghz5Channels(), Band5GHz, aps, us);
    forall i | 0 <= i < |cs|
      ensures cs[i].channel.band == (if i < 14 then Band2_4GHz else Band5GHz)
      ensures i < 14 ==> cs[i].channel.number == i + 1 && !cs[i].isDfs
      ensures i >= 14 ==> cs[i].channel.number == Ghz5Channels()[i - 14]
      ensures cs[i].score <= 100
    {
      if i < 14 {
        assert cs[i] == r24[i];
      } else {
        assert cs[i] == r5[i - 14];
      }
    }
  }

  // ---------------------------------------------------------------------------
  // Best channels and recommendations
  // ---------------------------------------------------------------------------

  /** `max_by_key(|c| c.score)`: the last of the highest-scoring infos. */
  function BestOf(cs: seq<ChannelInfo>): (r: Option<ChannelInfo>)
    ensures r.None? <==> cs == []
    ensures r.Some? ==> r.value in cs && forall c | c in cs :: c.score <= r.value.score
  {
    if cs == [] then None
    else
      var init := cs[..|cs| - 1];
      var last := cs[|cs| - 1];
      var b := BestOf(init);
      assert forall c :: c in cs <==> c in init || c == last;
      if b.Some? && b.value.score > last.score then b else Some(last)
  }

  /** The ties go to the later channel: no info after the best one scores as high. */
  lemma {:induction false} BestIsLast(cs: seq<ChannelInfo>)
    requires cs != []
    ensures exists k | 0 <= k < |cs| :: (cs[k] == BestOf(cs).value &&
      forall j | k < j < |cs| :: cs[j].score < cs[k].score)
  {
    var init := cs[..|cs| - 1];
    var b := BestOf(init);
    if b.Some? && b.value.score > cs[|cs| - 1].score {
      BestIsLast(init);
      var k :| 0 <= k < |init| && init[k] == b.value && forall j | k < j < |init| :: init[j].score < init[k].score;
      assert cs[k] == init[k];
      forall j | k < j < |cs| ensures cs[j].score < cs[k].score {
        if j < |init| {
          assert cs[j] == init[j];
        }
      }
    } else {
      assert cs[|cs| - 1] == BestOf(cs).value;
    }
  }

  /** The infos of one band, in table order. */
  function InBand(cs: seq<ChannelInfo>, band: WifiBand): (r: seq<ChannelInfo>)
    ensures forall c | c in r :: c in cs && c.channel.band == band
    ensures forall c | c in cs && c.channel.band == band :: c in r
  {
    if cs == [] then []
    else
      var init := cs[..|cs| - 1];
      var last := cs[|cs| - 1];
      assert forall c :: c in cs <==> c in init || c == last;
      InBand(init, band) + (if last.channel.band == band then [last] else [])
  }

  /**
   * Like the source's `filter(..).collect()`, it keeps each info of the band once, in
   * table order, which decides the tie `max_by_key` breaks.
   */
  lemma {:induction false} InBandSplits(a: seq<ChannelInfo>, b: seq<ChannelInfo>, x: ChannelInfo, band: WifiBand)
    ensures InBand([x], band) == if x.channel.band == band then [x] else []
    ensures InBand(a + b, band) == InBand(a, band) + InBand(b, band)
  {
    assert [x][..0] == [];
    if b == [] {
      assert a + b == a;
    } else {
      var init := b[..|b| - 1];
      var last := b[|b| - 1];
      assert (a + b)[..|a + b| - 1] == a + init && (a + b)[|a + b| - 1] == last;
      InBandSplits(a, init, x, band);
      var tail := if last.channel.band == band then [last] else [];
      assert InBand(a + b, band) == InBand(a + init, band) + tail;
      assert InBand(b, band) == InBand(init, band) + tail;
    }
  }

  /** The 5 GHz infos with (`dfs`) or without the DFS flag, in table order. */
  function Ghz5(cs: seq<ChannelInfo>, dfs: bool): (r: seq<ChannelInfo>)
    ensures forall c | c in r :: c in cs && c.channel.band == Band5GHz && c.isDfs == dfs
    ensures forall c | c in cs && c.channel.band == Band5GHz && c.isDfs == dfs :: c in r
  {
    if cs == [] then []
    else
      var init := cs[..|cs| - 1];
      var last := cs[|cs| - 1];
      assert forall c :: c in cs <==> c in init || c == last;
      Ghz5(init, dfs) + (if last.channel.band == Band5GHz && last.isDfs == dfs then [last] else [])
  }

  /**
   * Like the source's `filter(..).collect()`, it keeps each matching 5 GHz info once,
   * in table order, which decides the tie `max_by_key` breaks.
   */
  lemma {:induction false} Ghz5Splits(a: seq<ChannelInfo>, b: seq<ChannelInfo>, x: ChannelInfo, dfs: bool)
    ensures Ghz5([x], dfs) == if x.channel.band == Band5GHz && x.isDfs == dfs then [x] else []
    ensures Ghz5(a + b, dfs) == Ghz5(a, dfs) + Ghz5(b, dfs)
  {
    assert [x][..0] == [];
    if b == [] {
      assert a + b == a;
    } else {
      var init := b[..|b| - 1];
      var last := b[|b| - 1];
      assert (a + b)[..|a + b| - 1] == a + init && (a + b)[|a + b| - 1] == last;
      Ghz5Splits(a, init, x, dfs);
      var tail := if last.channel.band == Band5GHz && last.isDfs == dfs then [last] else [];
      assert Ghz5(a + b, dfs) == Ghz5(a + init, dfs) + tail;
      assert Ghz5(b, dfs) == Ghz5(init, dfs) + tail;
    }
  }

  /** The score of the first info with the current channel's number, or 0. */
  function CurrentScore(cs: seq<ChannelInfo>, current: Option<Channel>): (r: Byte)
    ensures current.None? ==> r == 0
  {
    if current.None? || cs == [] then 0
    else if cs[0].channel.number == current.value.number then cs[0].score
    else CurrentScore(cs[1..], current)
  }

  /** The priority each kind of recommendation carries. */
  function Priority(k: RecommendationKind): nat {
    match k
    case Faster5GHz => 1
    case LessCongested2_4GHz => 2
    case CleanDfs => 3
  }

  /** A recommendation of kind `k` for `best` against the current score, if `best` beats it by more than `margin`. */
  function Propose(best: Option<ChannelInfo>, cur: Byte, margin: nat, k: RecommendationKind): (r: seq<ChannelRecommendation>)
    ensures |r| <= 1
    ensures r != [] <==> best.Some? && best.value.score > cur + margin
    ensures forall x | x in r ::
      x.kind == k && x.priority == Priority(k) && x.scoreImprovement > margin && x.channel == best.value.channel
  {
    if best.Some? && best.value.score > cur + margin
    then [ChannelRecommendation(best.value.channel, k, Priority(k), best.value.score - cur)]
    else []
  }

  /** The best channel `generate_recommendations` compares at 2.4 GHz, if it may be proposed at all. */
  function Best2_4Candidate(cs: seq<ChannelInfo>, current: Option<Channel>): (r: Option<ChannelInfo>)
    ensures r.Some? ==>
      r.value.channel.band == Band2_4GHz && current.Some? &&
      current.value.band == Band2_4GHz && r.value.channel.number != current.value.number
  {
    var best := BestOf(InBand(cs, Band2_4GHz));
    if best.Some? && current.Some? && current.value.band == Band2_4GHz &&
       best.value.channel.number != current.value.number
    then best else None
  }

  /** The best 5 GHz channel with (`dfs`) or without the DFS flag. */
  function Best5(cs: seq<ChannelInfo>, dfs: bool): (r: Option<ChannelInfo>)
    ensures r.Some? ==> r.value.channel.band == Band5GHz && r.value.isDfs == dfs
  {
    BestOf(Ghz5(cs, dfs))
  }

  /** The recommendations before sorting, in the order they are pushed. */
  function Proposals(cs: seq<ChannelInfo>, current: Option<Channel>): seq<ChannelRecommendation> {
    var cur := CurrentScore(cs, current);
    Propose(Best5(cs, false), cur, 15, Faster5GHz) +
    Propose(Best2_4Candidate(cs, current), cur, 10, LessCongested2_4GHz) +
    Propose(Best5(cs, true), cur, 25, CleanDfs)
  }

  predicate SortedByPriority(rs: seq<ChannelRecommendation>) {
    forall i, j | 0 <= i < j < |rs| :: rs[i].priority <= rs[j].priority
  }

  /** Inserts `x` after every recommendation of no greater priority. */
  function InsertByPriority(x: ChannelRecommendation, rs: seq<ChannelRecommendation>): seq<ChannelRecommendation> {
    if rs == [] then [x]
    else if rs[0].priority <= x.priority then [rs[0]] + InsertByPriority(x, rs[1..])
    else [x] + rs
  }

  /** `sort_by_key(|r| r.priority)`, a stable sort. */
  function SortByPriority(rs: seq<ChannelRecommendation>): seq<ChannelRecommendation> {
    if rs == [] then [] else InsertByPriority(rs[|rs| - 1], SortByPriority(rs[..|rs| - 1]))
  }

  lemma {:induction false} InsertAtEnd(x: ChannelRecommendation, rs: seq<ChannelRecommendation>)
    requires forall i | 0 <= i < |rs| :: rs[i].priority <= x.priority
    ensures InsertByPriority(x, rs) == rs + [x]
  {
    if rs != [] {
      InsertAtEnd(x, rs[1..]);
      assert rs == [rs[0]] + rs[1..];
    }
  }

  /** Sorting a list already in priority order leaves it as it is. */
  lemma {:induction false} SortSortedIsIdentity(rs: seq<ChannelRecommendation>)
    requires SortedByPriority(rs)
    ensures SortByPriority(rs) == rs
  {
    if rs != [] {
      var init := rs[..|rs| - 1];
      SortSortedIsIdentity(init);
      InsertAtEnd(rs[|rs| - 1], init);
      assert init + [rs[|rs| - 1]] == rs;
    }
  }

  /** The recommendations `generate_recommendations` returns. */
  function Recommendations(cs: seq<ChannelInfo>, current: Option<Channel>): seq<ChannelRecommendation> {
    SortByPriority(Proposals(cs, current))
  }

  /**
   * The recommendations come in priority order 1, 2, 3, at most one of
   * each; each names a channel whose score beats the current one by more
   * than its margin (15, 10, 25), the best one in its group.
   */
  lemma RecommendationsProps(cs: seq<ChannelInfo>, current: Option<Channel>)
    ensures var rs := Recommendations(cs, current);
      SortedByPriority(rs) && |rs| <= 3 &&
      (forall i, j | 0 <= i < j < |rs| :: rs[i].priority < rs[j].priority) &&
      (forall r | r in rs :: r.priority == Priority(r.kind) && r.scoreImprovement > 0) &&
      (forall r | r in rs && r.kind == Faster5GHz :: r.channel.band == Band5GHz && r.scoreImprovement > 15) &&
      (forall r | r in rs && r.kind == LessCongested2_4GHz ::
        r.channel.band == Band2_4GHz && current.Some? && r.channel.number != current.value.number &&
        r.scoreImprovement > 10) &&
      (forall r | r in rs && r.kind == CleanDfs :: r.channel.band == Band5GHz && r.scoreImprovement > 25)
  {
    ProposalsInOrder(cs, current);
    ProposalsMembers(cs, current);
  }

  /** The proposals are pushed in strictly increasing priority, so sorting keeps them as they are. */
  lemma ProposalsInOrder(cs: seq<ChannelInfo>, current: Option<Channel>)
    ensures var ps := Proposals(cs, current);
      && Recommendations(cs, current) == ps && |ps| <= 3
      && forall i, j | 0 <= i < j < |ps| :: ps[i].priority < ps[j].priority
  {
    var cur := CurrentScore(cs, current);
    var p1 := Propose(Best5(cs, false), cur, 15, Faster5GHz);
    var p2 := Propose(Best2_4Candidate(cs, current), cur, 10, LessCongested2_4GHz);
    var p3 := Propose(Best5(cs, true), cur, 25, CleanDfs);
    ThreeInOrder(p1, p2, p3);
    SortSortedIsIdentity(p1 + p2 + p3);
  }

  /** What each proposal promises about its channel and its improvement. */
  lemma ProposalsMembers(cs: seq<ChannelInfo>, current: Option<Channel>)
    ensures var rs := Proposals(cs, current);
      (forall r | r in rs :: r.priority == Priority(r.kind) && r.scoreImprovement > 0) &&
      (forall r | r in rs && r.kind == Faster5GHz :: r.channel.band == Band5GHz && r.scoreImprovement > 15) &&
      (forall r | r in rs && r.kind == LessCongested2_4GHz ::
        r.channel.band == Band2_4GHz && current.Some? && r.channel.number != current.value.number &&
        r.scoreImprovement > 10) &&
      (forall r | r in rs && r.kind == CleanDfs :: r.channel.band == Band5GHz && r.scoreImprovement > 25)
  {
    var cur := CurrentScore(cs, current);
    var p1 := Propose(Best5(cs, false), cur, 15, Faster5GHz);
    var p2 := Propose(Best2_4Candidate(cs, current), cur, 10, LessCongested2_4GHz);
    var p3 := Propose(Best5(cs, true), cur, 25, CleanDfs);
    assert forall x :: x in p1 + p2 + p3 <==> x in p1 || x in p2 || x in p3;
  }

  /** At most one recommendation of each priority, pushed 1, 2, 3, are in strictly increasing priority. */
  lemma ThreeInOrder(p1: seq<ChannelRecommendation>, p2: seq<ChannelRecommendation>, p3: seq<ChannelRecommendation>)
    requires |p1| <= 1 && |p2| <= 1 && |p3| <= 1
    requires forall x | x in p1 :: x.priority == 1
    requires forall x | x in p2 :: x.priority == 2
    requires forall x | x in p3 :: x.priority == 3
    ensures var ps := p1 + p2 + p3; forall i, j | 0 <= i < j < |ps| :: ps[i].priority < ps[j].priority
  {
    var ps := p1 + p2 + p3;
    forall i, j | 0 <= i < j < |ps| ensures ps[i].priority < ps[j].priority {
      if i < |p1| {
        assert ps[i] == p1[i];
      } else if i < |p1| + |p2| {
        assert ps[i] == p2[i - |p1|];
      }
      if j < |p1| + |p2| {
        assert ps[j] == p2[j - |p1|];
      } else {
        assert ps[j] == p3[j - |p1| - |p2|];
      }
    }
  }

  // ---------------------------------------------------------------------------
  // Health score and the analysis
  // ---------------------------------------------------------------------------

  /** The first info with an access point on it. */
  function FirstOccupied(cs: seq<ChannelInfo>): (r: Option<ChannelInfo>)
    ensures r.Some? ==> r.value in cs && r.value.apCount > 0
    ensures r.None? <==> forall c | c in cs :: c.apCount == 0
  {
    if cs == [] then None else if cs[0].apCount > 0 then Some(cs[0]) else FirstOccupied(cs[1..])
  }

  /**
   * `calculate_health_score`: with a survey of the current channel, 100
   * less its utilization less an interference penalty of 40, 30 or 15;
   * without one, the score of the first occupied channel, else 50.
   */
  function HealthScore(currentUtil: Option<ChannelUtilization>, cs: seq<ChannelInfo>): (r: Byte)
    ensures currentUtil.None? && (forall c | c in cs :: c.apCount == 0) ==> r == 50
    ensures currentUtil.Some? ==> r <= 100 && r as real <= 100.0 - Clip(currentUtil.value.utilizationPercent)
    ensures currentUtil.Some? && currentUtil.value.interferenceLevel == Severe ==> r <= 60
    ensures currentUtil.None? && (forall c | c in cs :: c.score <= 100) ==> r <= 100
  {
    if currentUtil.Some? then
      var util := currentUtil.value;
      var base := 100 - Min(AsU8(util.utilizationPercent), 100);
      match util.interferenceLevel
      case Severe => Sat(base, 40)
      case High => Sat(base, 30)
      case Medium => Sat(base, 15)
      case Low => base
    else
      var occupied := FirstOccupied(cs);
      if occupied.Some? then occupied.value.score else 50
  }

  /** The utilization percentage truncated into 0..100, as the health score reads it. */
  function Clip(x: real): (r: real)
    ensures 0.0 <= r <= 100.0
  {
    Min(AsU8(x), 100) as real
  }

  /** `analyze`: the channel table, the current channel's survey, the recommendations and the health score. */
  method Analyze(aps: seq<AccessPoint>, current: Option<Channel>, us: seq<ChannelUtilization>) returns (a: Analysis)
    ensures IsChannelTable(a.channels, aps, us)
    ensures a.currentChannel == current
    ensures a.currentUtilization == if current.Some? then FindUtilization(us, current.value.number) else None
    ensures a.recommendations == Recommendations(a.channels, current)
    ensures a.healthScore == HealthScore(a.currentUtilization, a.channels) && a.healthScore <= 100
  {
    var channels := BuildChannels(aps, us);
    var currentUtilization := if current.Some? then FindUtilization(us, current.value.number) else None;
    var recommendations := Recommendations(channels, current);
    ChannelTableShape(channels, aps, us);
    var health := HealthScore(currentUtilization, channels);
    a := Analysis(current, currentUtilization, channels, recommendations, health);
  }

  /** `best_channel`: the last highest-scoring channel of a band. */
  function BestChannel(a: Analysis, band: WifiBand): (r: Option<ChannelInfo>)
    ensures r.Some? ==> r.value in a.channels && r.value.channel.band == band
    ensures r.Some? ==> forall c | c in a.channels && c.channel.band == band :: c.score <= r.value.score
    ensures r.None? <==> forall c | c in a.channels :: c.channel.band != band
  {
    var inBand := InBand(a.channels, band);
    assert inBand != [] ==> inBand[0] in inBand;
    BestOf(inBand)
  }

  /** `non_overlapping_2_4ghz`: the infos of 2.4 GHz channels 1, 6 and 11, in table order. */
  function NonOverlapping2_4GHz(a: Analysis): (r: seq<ChannelInfo>)
    ensures forall c | c in r :: c in a.channels && c.channel.band == Band2_4GHz && NonOverlappingNumber(c.channel.number)
    ensures forall c | c in a.channels && c.channel.band == Band2_4GHz && NonOverlappingNumber(c.channel.number) :: c in r
  {
    NonOverlappingOf(a.channels)
  }

  function NonOverlappingOf(cs: seq<ChannelInfo>): (r: seq<ChannelInfo>)
    ensures forall c | c in r :: c in cs && c.channel.band == Band2_4GHz && NonOverlappingNumber(c.channel.number)
    ensures forall c | c in cs && c.channel.band == Band2_4GHz && NonOverlappingNumber(c.channel.number) :: c in r
  {
    if cs == [] then []
    else
      var init := cs[..|cs| - 1];
      var last := cs[|cs| - 1];
      assert forall c :: c in cs <==> c in init || c == last;
      NonOverlappingOf(init) +
        (if last.channel.band == Band2_4GHz && NonOverlappingNumber(last.channel.number) then [last] else [])
  }

  /**
   * Like the source's `filter(..).collect()`, it keeps each info of channels 1, 6 and
   * 11 at 2.4 GHz once, in table order.
   */
  lemma {:induction false} NonOverlappingSplits(a: seq<ChannelInfo>, b: seq<ChannelInfo>, x: ChannelInfo)
    ensures NonOverlappingOf([x]) == if x.channel.band == Band2_4GHz && NonOverlappingNumber(x.channel.number) then [x] else []
    ensures NonOverlappingOf(a + b) == NonOverlappingOf(a) + NonOverlappingOf(b)
  {
    assert [x][..0] == [];
    if b == [] {
      assert a + b == a;
    } else {
      var init := b[..|b| - 1];
      var last := b[|b| - 1];
      assert (a + b)[..|a + b| - 1] == a + init && (a + b)[|a + b| - 1] == last;
      NonOverlappingSplits(a, init, x);
      var tail := if last.channel.band == Band2_4GHz && NonOverlappingNumber(last.channel.number) then [last] else [];
      assert NonOverlappingOf(a + b) == NonOverlappingOf(a + init) + tail;
      assert NonOverlappingOf(b) == NonOverlappingOf(init) + tail;
    }
  }
}
