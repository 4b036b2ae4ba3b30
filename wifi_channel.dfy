/**
 * WiFi channels (crates/netdiag-types, wifi/channel.rs): the maps between
 * channel numbers and centre frequencies in MHz, DFS channels, the channels
 * a 2.4 GHz channel overlaps, and channel widths.
 */
module WifiChannel {
  import opened Wrappers
  import opened Text

  /** `WifiBand`. */
  datatype WifiBand = Band2_4GHz | Band5GHz | Band6GHz

  /** `ChannelWidth`. */
  datatype ChannelWidth = Mhz20 | Mhz40 | Mhz80 | Mhz160 | Mhz320

  /** `SecondaryChannelPosition`. */
  datatype SecondaryChannelPosition = Above | Below | NotApplicable

  /** `Channel`: a `u8` number and a `u32` frequency in MHz. */
  datatype Channel = Channel(
    number: Byte,
    frequency: nat,
    band: WifiBand,
    width: ChannelWidth,
    centerFrequency: Option<nat>,
    secondaryPosition: Option<SecondaryChannelPosition>)

  /** `InterferenceLevel`. */
  datatype InterferenceLevel = Low | Medium | High | Severe

  /**
   * `ChannelUtilization`: a survey of one channel; the `f32` utilization
   * percentage is a real.
   */
  datatype ChannelUtilization = ChannelUtilization(
    channel: Channel,
    networkCount: nat,
    utilizationPercent: real,
    avgRssi: int,
    recommended: bool,
    interferenceLevel: InterferenceLevel)

  /** The 5 GHz channel numbers with a frequency of their own. */
  predicate Valid5GHz(number: nat) {
    36 <= number <= 64 || 100 <= number <= 165
  }

  /**
   * `Channel::from_number`: 2407 + 5n MHz at 2.4 GHz, 5000 + 5n MHz for
   * the 5 GHz channels 36-64 and 100-165 and 5000 MHz for any other 5 GHz
   * number, 5950 + 5n MHz at 6 GHz; 20 MHz wide, no bonding.
   */
  function FromNumber(number: Byte, band: WifiBand): (c: Channel)
    ensures c.number == number && c.band == band
    ensures c.width == Mhz20 && c.centerFrequency.None? && c.secondaryPosition.None?
  {
    var frequency := match band
      case Band2_4GHz => 2407 + number * 5
      case Band5GHz => if Valid5GHz(number) then 5000 + number * 5 else 5000
      case Band6GHz => 5950 + number * 5;
    Channel(number, frequency, band, Mhz20, None, None)
  }

  /** The channel number and band `from_frequency` derives from a frequency. */
  function NumberAndBand(frequency: nat): (r: (Byte, WifiBand))
    ensures 2400 <= frequency <= 2500 ==> r.1 == Band2_4GHz && r.0 * 5 + 2407 <= (if frequency < 2407 then 2407 else frequency)
    ensures 5000 <= frequency <= 5900 ==> r.1 == Band5GHz && r.0 * 5 + 5000 <= frequency
    ensures 5925 <= frequency <= 7125 ==> r.1 == Band6GHz && r.0 * 5 + 5950 <= (if frequency < 5950 then 5950 else frequency)
    ensures !(2400 <= frequency <= 2500 || 5000 <= frequency <= 5900 || 5925 <= frequency <= 7125) ==>
      r == (0, Band2_4GHz)
  {
    if 2400 <= frequency <= 2500 then (SaturatingSub(frequency, 2407) / 5, Band2_4GHz)
    else if 5000 <= frequency <= 5900 then ((frequency - 5000) / 5, Band5GHz)
    else if 5925 <= frequency <= 7125 then (SaturatingSub(frequency, 5950) / 5, Band6GHz)
    else (0, Band2_4GHz)
  }

  function SaturatingSub(a: nat, b: nat): (r: nat)
    ensures r == if a < b then 0 else a - b
  {
    if a < b then 0 else a - b
  }

  /**
   * `Channel::from_frequency` with the band offset subtracted saturating, so
   * that the frequencies just below a band's channel 0 (2400-2406 and
   * 5925-5949 MHz) give channel 0.
   */
  function FromFrequency(frequency: nat): (c: Channel)
    ensures c.frequency == frequency && c.width == Mhz20
    ensures c.centerFrequency.None? && c.secondaryPosition.None?
  {
    var (number, band) := NumberAndBand(frequency);
    Channel(number, frequency, band, Mhz20, None, None)
  }

  /** Every channel number of a band that has frequencies maps back to itself. */
  lemma NumberRoundTrip(number: Byte, band: WifiBand)
    requires band == Band2_4GHz ==> 1 <= number <= 14
    requires band == Band5GHz ==> Valid5GHz(number)
    requires band == Band6GHz ==> number <= 235
    ensures FromFrequency(FromNumber(number, band).frequency).number == number
    ensures FromFrequency(FromNumber(number, band).frequency).band == band
  {
  }

  /** Outside the 2.4, 5 and 6 GHz ranges a frequency is read as 2.4 GHz channel 0. */
  lemma OutOfBand(frequency: nat)
    requires !(2400 <= frequency <= 2500 || 5000 <= frequency <= 5900 || 5925 <= frequency <= 7125)
    ensures FromFrequency(frequency).number == 0 && FromFrequency(frequency).band == Band2_4GHz
  {
  }

  /** `is_dfs`: the 5 GHz channels 52-64 and 100-144. */
  predicate IsDfs(c: Channel) {
    c.band == Band5GHz && (52 <= c.number <= 64 || 100 <= c.number <= 144)
  }

  /** The numbers in `lo..=hi` other than `n` and not 0, in increasing order. */
  function Around(lo: int, hi: int, n: nat): (r: seq<nat>)
    decreases hi - lo
  {
    if hi < lo then []
    else Around(lo, hi - 1, n) + (if hi != n && hi >= 1 then [hi as nat] else [])
  }

  lemma {:induction false} AroundMembers(lo: int, hi: int, n: nat)
    ensures forall c :: c in Around(lo, hi, n) <==> lo <= c <= hi && c != n && c >= 1
    ensures forall i, j :: 0 <= i < j < |Around(lo, hi, n)| ==> Around(lo, hi, n)[i] < Around(lo, hi, n)[j]
    ensures forall i :: 0 <= i < |Around(lo, hi, n)| ==> lo <= Around(lo, hi, n)[i] <= hi
    decreases hi - lo
  {
    if hi >= lo {
      AroundMembers(lo, hi - 1, n);
    }
  }

  /**
   * `overlapping_channels`: away from 2.4 GHz nothing; at 2.4 GHz the
   * channels 1-14 within four of the channel, itself excluded.
   */
  function Overlapping(c: Channel): (r: seq<nat>)
  {
    if c.band != Band2_4GHz then []
    else Around(SaturatingSub(c.number, 4), Min(c.number + 4, 14), c.number)
  }

  function Min(a: nat, b: nat): nat {
    if a < b then a else b
  }

  /** The overlapping channels are exactly those described above, in increasing order. */
  lemma OverlappingProps(c: Channel)
    ensures c.band != Band2_4GHz ==> Overlapping(c) == []
    ensures c.band == Band2_4GHz ==>
      forall n :: n in Overlapping(c) <==> 1 <= n <= 14 && n != c.number && c.number - 4 <= n <= c.number + 4
    ensures forall i, j :: 0 <= i < j < |Overlapping(c)| ==> Overlapping(c)[i] < Overlapping(c)[j]
  {
    if c.band == Band2_4GHz {
      AroundMembers(SaturatingSub(c.number, 4), Min(c.number + 4, 14), c.number);
    }
  }

  /** Channel 6 at 2.4 GHz overlaps 2-5 and 7-10. */
  lemma Channel6Overlaps()
    ensures Overlapping(FromNumber(6, Band2_4GHz)) == [2, 3, 4, 5, 7, 8, 9, 10]
  {
  }

  /** `ChannelWidth::mhz`. */
  function Mhz(w: ChannelWidth): (r: nat)
    ensures r >= 20 && r % 20 == 0
  {
    match w
    case Mhz20 => 20
    case Mhz40 => 40
    case Mhz80 => 80
    case Mhz160 => 160
    case Mhz320 => 320
  }

  /** Each width is twice the one before it. */
  lemma WidthsDouble()
    ensures Mhz(Mhz40) == 2 * Mhz(Mhz20) && Mhz(Mhz80) == 2 * Mhz(Mhz40)
    ensures Mhz(Mhz160) == 2 * Mhz(Mhz80) && Mhz(Mhz320) == 2 * Mhz(Mhz160)
  {
  }

  // ---------------------------------------------------------------------------
  // `from_frequency` as written
  // ---------------------------------------------------------------------------

  /**
   * The number `from_frequency` computes as written, in a build where `u32`
   * subtraction wraps and `as u8` keeps the low eight bits; a debug build
   * panics instead whenever the subtraction underflows.
   */
  function NumberAsWritten(frequency: nat): (n: Byte)
    requires frequency <= U32Max
  {
    if 2400 <= frequency <= 2500 then ((frequency - 2407) % 0x1_0000_0000 / 5) % 256
    else if 5000 <= frequency <= 5900 then ((frequency - 5000) / 5) % 256
    else if 5925 <= frequency <= 7125 then ((frequency - 5950) % 0x1_0000_0000 / 5) % 256
    else 0
  }

  /** 2400 MHz, listed as a 2.4 GHz frequency, comes out as channel 49; 5925 MHz as 6 GHz channel 46. */
  lemma UnderflowExample()
    ensures NumberAsWritten(2400) == 49 && FromFrequency(2400).number == 0
    ensures NumberAsWritten(5925) == 46 && FromFrequency(5925).number == 0
  {
  }

  /** Within a band's own frequency range at or above its channel 0, both readings agree. */
  lemma AsWrittenAgrees(frequency: nat)
    requires 2407 <= frequency <= 2500 || 5000 <= frequency <= 5900 || 5950 <= frequency <= 7125
    ensures NumberAsWritten(frequency) == FromFrequency(frequency).number
  {
    if 2407 <= frequency <= 2500 {
      NoWrap(frequency - 2407);
    } else if 5000 <= frequency <= 5900 {
      NoWrap(frequency - 5000);
    } else {
      NoWrap(frequency - 5950);
    }
  }

  /** An offset whose fifth fits a byte passes both truncations unchanged. */
  lemma NoWrap(d: nat)
    requires d < 1280
    ensures (d % 0x1_0000_0000 / 5) % 256 == d / 5
    ensures (d / 5) % 256 == d / 5
  {
    assert d % 0x1_0000_0000 == d;
    assert d / 5 < 256;
  }
}
