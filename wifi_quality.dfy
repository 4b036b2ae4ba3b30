/**
 * WiFi signal quality (crates/netdiag-wifi, quality.rs): a five-step rating
 * of the signal strength, a 0-100 link quality, a score blending signal
 * and signal-to-noise ratio, advice, and suitability for video, gaming and
 * conferencing. The SNR is the difference of two whole dBm values and so a
 * whole number; the link quality's f64 arithmetic is written as exact
 * integer division.
 */
module SignalQualities {
  import opened Wrappers

  /** `SignalQuality`, declared from best to worst. */
  datatype SignalQuality = Excellent | Good | Fair | Weak | VeryWeak

  /** The position in declaration order, which the derived `Ord` compares. */
  function Rank(q: SignalQuality): (r: nat)
    ensures r <= 4
  {
    match q
    case Excellent => 0
    case Good => 1
    case Fair => 2
    case Weak => 3
    case VeryWeak => 4
  }

  /** `from_rssi`: Excellent down to -50 dBm, Good to -60, Fair to -70, Weak to -80. */
  function FromRssi(rssi: int): (q: SignalQuality)
    ensures q == Excellent <==> rssi >= -50
    ensures q == Good <==> -60 <= rssi < -50
    ensures q == Fair <==> -70 <= rssi < -60
    ensures q == Weak <==> -80 <= rssi < -70
    ensures q == VeryWeak <==> rssi < -80
  {
    if rssi >= -50 then Excellent
    else if rssi >= -60 then Good
    else if rssi >= -70 then Fair
    else if rssi >= -80 then Weak
    else VeryWeak
  }

  /** `score`: 100, 80, 60, 40, 20. */
  function Score(q: SignalQuality): (r: nat)
    ensures r == 100 - 20 * Rank(q)
  {
    match q
    case Excellent => 100
    case Good => 80
    case Fair => 60
    case Weak => 40
    case VeryWeak => 20
  }

  /** A stronger signal never rates worse. */
  lemma FromRssiMonotone(a: int, b: int)
    requires a <= b
    ensures Rank(FromRssi(b)) <= Rank(FromRssi(a))
    ensures Score(FromRssi(a)) <= Score(FromRssi(b))
  {
  }

  function Clamp(x: int, lo: int, hi: int): (r: int)
    requires lo <= hi
    ensures lo <= r <= hi
    ensures lo <= x <= hi ==> r == x
  {
    if x < lo then lo else if x > hi then hi else x
  }

  /**
   * `calculate_link_quality`: -100 dBm and below is 0 %, -30 dBm and above
   * is 100 %, linear (rounded down) in between.
   */
  function LinkQuality(rssi: int): (r: nat)
    ensures r <= 100
    ensures rssi <= -100 ==> r == 0
    ensures rssi >= -30 ==> r == 100
  {
    Clamp(rssi + 100, 0, 70) * 100 / 70
  }

  /** A stronger signal never has a lower link quality. */
  lemma LinkQualityMonotone(a: int, b: int)
    requires a <= b
    ensures LinkQuality(a) <= LinkQuality(b)
  {
    var x := Clamp(a + 100, 0, 70);
    var y := Clamp(b + 100, 0, 70);
    assert x <= y;
    assert x * 100 <= y * 100;
  }

  /** The score an SNR earns: 100 from 25 dB, 80 from 15, 60 from 10, else 40. */
  function SnrScore(snr: int): (r: nat)
    ensures r in {100, 80, 60, 40}
  {
    if snr >= 25 then 100 else if snr >= 15 then 80 else if snr >= 10 then 60 else 40
  }

  /**
   * `calculate_overall_score`: the mean of the link quality and the SNR
   * score, where a missing SNR counts as the link quality.
   */
  function OverallScore(rssi: int, snr: Option<int>): (r: nat)
    ensures r <= 100
    ensures snr.None? ==> r == LinkQuality(rssi)
    ensures snr.Some? ==> 2 * r <= LinkQuality(rssi) + SnrScore(snr.value) <= 2 * r + 1
  {
    var rssiScore := LinkQuality(rssi);
    var snrScore := if snr.Some? then SnrScore(snr.value) else rssiScore;
    (rssiScore + snrScore) / 2
  }

  /** The advice `generate_recommendations` can give; `AdviceText` is the message. */
  datatype QualityAdvice = MoveCloser | CheckObstructions | Reposition | ReduceDistance | HighNoise | NearbyInterference

  function AdviceText(a: QualityAdvice): string {
    match a
    case MoveCloser => "Move closer to the access point" + " or add a WiFi extender"
    case CheckObstructions => "Check for physical obstructions" + " (walls, large metal objects)"
    case Reposition => "Consider repositioning for better signal strength"
    case ReduceDistance => "Signal is adequate but could be improved" + " by reducing distance to AP"
    case HighNoise => "High noise environment" + " - check for interference sources"
    case NearbyInterference => "Good signal but high noise" + " - look for nearby interference"
  }

  /**
   * `generate_recommendations`: two pieces of advice for a very weak signal,
   * one for a weak or fair one; noise advice below 15 dB SNR; and the
   * nearby-interference advice above -60 dBm unless the signal is excellent.
   */
  function Recommendations(rssi: int, snr: Option<int>, quality: SignalQuality): seq<QualityAdvice> {
    (match quality
     case VeryWeak => [MoveCloser, CheckObstructions]
     case Weak => [Reposition]
     case Fair => [ReduceDistance]
     case _ => []) +
    (if snr.Some? && snr.value < 15 then [HighNoise] else []) +
    (if rssi > -60 && quality != Excellent then [NearbyInterference] else [])
  }

  /**
   * For the rating of the same signal: no advice exactly when the signal is
   * excellent, or exactly -60 dBm (good, but not above -60), and the SNR, if
   * known, is at least 15 dB; the nearby-interference advice is given
   * exactly for a good signal above -60 dBm.
   */
  lemma RecommendationsProps(rssi: int, snr: Option<int>)
    ensures var r := Recommendations(rssi, snr, FromRssi(rssi));
      (r == [] <==> (FromRssi(rssi) == Excellent || rssi == -60) && (snr.None? || snr.value >= 15)) &&
      (HighNoise in r <==> snr.Some? && snr.value < 15) &&
      (NearbyInterference in r <==> FromRssi(rssi) == Good && rssi > -60) &&
      (MoveCloser in r <==> FromRssi(rssi) == VeryWeak)
  {
    var q := FromRssi(rssi);
    var first := match q
      case VeryWeak => [MoveCloser, CheckObstructions]
      case Weak => [Reposition]
      case Fair => [ReduceDistance]
      case _ => [];
    var noise := if snr.Some? && snr.value < 15 then [HighNoise] else [];
    var near := if rssi > -60 && q != Excellent then [NearbyInterference] else [];
    assert Recommendations(rssi, snr, q) == first + noise + near;
    assert forall a :: a in first + noise + near <==> a in first || a in noise || a in near;
  }

  /** `QualityMetrics` with the fields `new` sets; rates, MCS and streams are left unset there. */
  datatype QualityMetrics = QualityMetrics(
    rssi: int,
    noise: Option<int>,
    snr: Option<int>,
    quality: SignalQuality,
    linkQuality: nat,
    txRate: Option<real>,
    overallScore: nat,
    recommendations: seq<QualityAdvice>)

  /** `QualityMetrics::new`: the SNR is the signal minus the noise floor. */
  function New(rssi: int, noise: Option<int>): (m: QualityMetrics)
    ensures m.snr.Some? <==> noise.Some?
    ensures noise.Some? ==> m.snr.value == rssi - noise.value
    ensures m.quality == FromRssi(rssi) && m.txRate.None?
    ensures m.linkQuality <= 100 && m.overallScore <= 100
  {
    var snr := if noise.Some? then Some(rssi - noise.value) else None;
    var quality := FromRssi(rssi);
    QualityMetrics(rssi, noise, snr, quality, LinkQuality(rssi), None, OverallScore(rssi, snr),
                   Recommendations(rssi, snr, quality))
  }

  // ---------------------------------------------------------------------------
  // Suitability, as written
  // ---------------------------------------------------------------------------

  /**
   * `suitable_for_video` as written: `quality >= Fair` under the derived
   * order, which holds for Fair, Weak and VeryWeak, and a transmit rate
   * (10 Mbps if unknown) of at least 5 Mbps.
   */
  predicate SuitableForVideoAsWritten(m: QualityMetrics) {
    Rank(m.quality) >= Rank(Fair) && m.txRate.GetOr(10.0) >= 5.0
  }

  /** `suitable_for_gaming` as written: `quality >= Good` and an SNR (20 if unknown) of at least 15. */
  predicate SuitableForGamingAsWritten(m: QualityMetrics) {
    Rank(m.quality) >= Rank(Good) && m.snr.GetOr(20) >= 15
  }

  /**
   * `suitable_for_conferencing` as written: `quality >= Fair`, a transmit
   * rate (2 if unknown) of at least 1.5 and an SNR (15 if unknown) of at
   * least 10.
   */
  predicate SuitableForConferencingAsWritten(m: QualityMetrics) {
    Rank(m.quality) >= Rank(Fair) && m.txRate.GetOr(2.0) >= 1.5 && m.snr.GetOr(15) >= 10
  }

  /**
   * As written, an excellent signal is never suitable for gaming and a
   * -85 dBm one is; and excellent or good signals are never suitable for
   * video or conferencing.
   */
  lemma SuitabilityInverted(rssi: int, noise: Option<int>)
    ensures FromRssi(rssi) == Excellent ==> !SuitableForGamingAsWritten(New(rssi, noise))
    ensures (FromRssi(rssi) == Excellent || FromRssi(rssi) == Good) ==>
      !SuitableForVideoAsWritten(New(rssi, noise)) && !SuitableForConferencingAsWritten(New(rssi, noise))
    ensures SuitableForGamingAsWritten(New(-85, None)) && !SuitableForGamingAsWritten(New(-40, Some(-95)))
  {
  }

  // ---------------------------------------------------------------------------
  // Suitability, as intended
  // ---------------------------------------------------------------------------

  /** Video needs a fair or better signal and at least 5 Mbps. */
  predicate SuitableForVideo(m: QualityMetrics) {
    Rank(m.quality) <= Rank(Fair) && m.txRate.GetOr(10.0) >= 5.0
  }

  /** Gaming needs a good or better signal and at least 15 dB SNR. */
  predicate SuitableForGaming(m: QualityMetrics) {
    Rank(m.quality) <= Rank(Good) && m.snr.GetOr(20) >= 15
  }

  /** Conferencing needs a fair or better signal, at least 1.5 Mbps and at least 10 dB SNR. */
  predicate SuitableForConferencing(m: QualityMetrics) {
    Rank(m.quality) <= Rank(Fair) && m.txRate.GetOr(2.0) >= 1.5 && m.snr.GetOr(15) >= 10
  }

  /**
   * A stronger signal with the same noise floor keeps every suitability,
   * gaming implies conferencing when the rate is unknown, and a suitable
   * connection scores at least 60 for its signal.
   */
  lemma SuitabilityMonotone(a: int, b: int, noise: Option<int>)
    requires a <= b
    ensures SuitableForGaming(New(a, noise)) ==> SuitableForGaming(New(b, noise))
    ensures SuitableForVideo(New(a, noise)) ==> SuitableForVideo(New(b, noise))
    ensures SuitableForConferencing(New(a, noise)) ==> SuitableForConferencing(New(b, noise))
    ensures SuitableForGaming(New(a, noise)) ==> SuitableForConferencing(New(a, noise))
    ensures SuitableForVideo(New(a, noise)) ==> Score(New(a, noise).quality) >= 60
  {
    FromRssiMonotone(a, b);
  }
}
