# netdiag core, modelled in Dafny

netdiag is a network diagnostics toolkit written in Rust. It runs pings and
traceroutes and analyses the network path hop by hop. It inspects WiFi
signal, channels, interference and security, captures packets, plans and
applies automatic fixes with rollback, writes reports, and runs a
monitoring daemon and a terminal user interface. This project models the
decision logic at the heart of those tools, one Dafny module per source
file, and proves what that logic promises:

- probe statistics: ping statistics and percentiles, jitter and loss
  bursts, traceroute hop statistics (`PingStats`, `Jitter`,
  `TracerouteTypes`);
- the ping and traceroute output parsers (`PingParser`,
  `TracerouteParser`, with `Text` for the string functions they use);
- health scoring and grading tables: path analysis, speed results, report
  health, monitor status, WiFi quality, interference, channel and security
  scores, SSL grades (`PathAnalysis`, `PathAnalyzer`, `SpeedResult`,
  `Reports`, `Monitor`, `DaemonConfig`, `SignalQualities`, `Interference`,
  `ChannelAnalysis`, `SecurityAnalysis`, `WifiSecurityTypes`, `SslGrades`);
- fix planning and the rollback store (`FixActions`, `FixEngine`,
  `Rollback`);
- small codecs: capture filters, TCP flags and port maps, capture
  statistics, MAC addresses and subnets, WiFi channel and frequency maps,
  storage enum names (`CaptureFilters`, `Decode`, `CaptureStatistics`,
  `NetAddress`, `WifiChannel`, `StorageModels`, `IpAddrs`);
- the terminal application's state: tabs, key handling and its bounded
  buffers (`TuiApp`).

Representation choices:

- A `Duration` is a natural number of nanoseconds.
- Floating-point values that are only compared with thresholds or
  averaged are `real`s.
- Rust's unsigned saturating subtraction is written out.
- A derived `Ord` on an enum is its declaration order.
- Code that mutates state becomes a `class` or a `method` with loop
  invariants, proved against a specification function:
  - the rollback manager, the capture statistics, the network monitor
    and the terminal application are classes;
  - the parsers, the fix engine, report health and the channel and
    interference analyses are methods over sequences and maps.
- Platform effects are parameters of the operations that use them:
  - running a fix and verifying it;
  - restoring a rollback point;
  - the clock and fresh identifiers;
  - the interface list and what a monitoring check observed.

Behaviours of the code worth noting, modelled as written:

- The loss percentage of a ping run with nothing sent is 0.0
  (crates/netdiag-types/src/diagnostics/ping.rs:305-309). It is not an
  error.
- Rolling back a point that was already consumed fails with "no longer
  valid" (crates/netdiag-autofix/src/rollback.rs:214-218).
- There are two different buffer-bloat grade tables, and both are
  modelled as written:
  - the path analysis bands are below 5, 30, 60, 200 and 400 ms;
  - the speed result bands are 0-5, 6-30, 31-60 and 61-200 ms.

## Model

| member | source | states |
|---|---|---|
| PingStats.Success | crates/netdiag-types/src/diagnostics/ping.rs:29-41 | a success carries its RTT and TTL and no error |
| PingStats.Timeout | crates/netdiag-types/src/diagnostics/ping.rs:43-55 | a timeout has no RTT and no TTL and the error "Request timed out" |
| PingStats.Failed | crates/netdiag-types/src/diagnostics/ping.rs:57-69 | a failure has size 0, no RTT and the given error |
| PingStats.PercentileIndex | crates/netdiag-types/src/diagnostics/ping.rs:133-141 | the rounded percentile index is always a valid index of the sorted samples |
| PingStats.PercentileIndexMonotone | crates/netdiag-types/src/diagnostics/ping.rs:133-141 | a higher percentile never picks an earlier index |
| PingStats.PercentileIsSample | crates/netdiag-types/src/diagnostics/ping.rs:130-141 | every percentile is one of the input samples |
| PingStats.PercentileMonotone | crates/netdiag-types/src/diagnostics/ping.rs:130-148 | percentiles are ordered like their ranks |
| PingStats.FromRtts | crates/netdiag-types/src/diagnostics/ping.rs:125-157 | None exactly on empty input; otherwise each percentile is a sample, p50 <= p75 <= p90 <= p95 <= p99, and iqr is p75 minus p25 saturating |
| PingStats.FromRttsSingle | crates/netdiag-types/src/diagnostics/ping.rs:429-435 | a single sample is every percentile and the iqr is zero |
| PingStats.FromMos | crates/netdiag-types/src/diagnostics/ping.rs:274-288 | the six rating bands, each an if-and-only-if with inclusive lower bounds 4.3/4.0/3.6/3.1/2.6 |
| PingStats.FromMosMonotone | crates/netdiag-types/src/diagnostics/ping.rs:274-288 | a higher MOS never gets a worse rating |
| PingStats.Rtts | crates/netdiag-types/src/diagnostics/ping.rs:311 | the RTTs come from the results, no more of them than results |
| PingStats.Jitter | crates/netdiag-types/src/diagnostics/ping.rs:334-344 | Some exactly for two or more RTTs; then the mean absolute consecutive difference, never above the spread |
| PingStats.LossPercent | crates/netdiag-types/src/diagnostics/ping.rs:305-309 | between 0 and 100; 0 with nothing sent or nothing lost; 100 when everything was lost |
| PingStats.FromResults | crates/netdiag-types/src/diagnostics/ping.rs:301-371 | transmitted is the number of results, received the successes, lost the difference; loss 0 when nothing sent; the RTT aggregates are all None exactly when there are no RTTs, else min <= avg <= max; jitter, percentiles and VoIP input are Some exactly as the source says |
| PingStats.QualityRating | crates/netdiag-types/src/diagnostics/ping.rs:376-394 | loss >= 50 / >= 10 / >= 2 gives VeryPoor / Poor / Fair whatever the RTT; below 2% loss, no average gives VeryPoor and an average of at most 50 whole milliseconds gives Excellent, at most 100 VeryGood, at most 200 Good and more Fair; Excellent, VeryGood and Good need loss below 2% and an average |
| PingStats.QualityMonotoneInLatency | crates/netdiag-types/src/diagnostics/ping.rs:385-393 | with equal loss a lower average RTT never rates worse |
| Jitter.FromRtts | crates/netdiag-types/src/diagnostics/jitter.rs:26-68 | None for fewer than two RTTs; otherwise n-1 samples, each the absolute difference of a consecutive pair, min and max among them, min <= average <= max |
| Jitter.JitterQualityRating | crates/netdiag-types/src/diagnostics/jitter.rs:73-82 | the five buckets 0-5, 6-15, 16-30, 31-50, above 50 ms, each an if-and-only-if |
| Jitter.JitterQualityMonotone | crates/netdiag-types/src/diagnostics/jitter.rs:73-82 | more average jitter never rates better |
| Jitter.FromPattern | crates/netdiag-types/src/diagnostics/jitter.rs:123-166 | sent, received and lost counts; the loss percentage; the loss pattern, burst count and longest burst equal their reference definitions |
| Jitter.LostIndicesExact | crates/netdiag-types/src/diagnostics/jitter.rs:135-143 | the loss pattern holds exactly the indices of the false entries, one per loss |
| Jitter.BurstsAreRunStarts | crates/netdiag-types/src/diagnostics/jitter.rs:135-156 | the burst count equals the number of maximal runs of false entries |
| Jitter.RunsWithinLosses | crates/netdiag-types/src/diagnostics/jitter.rs:135-156 | the closed runs and the trailing run together never exceed the losses |
| Jitter.LongestBurstAtMostLost | crates/netdiag-types/src/diagnostics/jitter.rs:135-156 | max_burst_length <= lost |
| Jitter.ClosedBurstsNeedLoss | crates/netdiag-types/src/diagnostics/jitter.rs:144-150 | a closed burst implies a loss; a positive closed maximum implies a closed burst |
| Jitter.NoLossNoRun | crates/netdiag-types/src/diagnostics/jitter.rs:135-156 | without losses no run is counted; with one, some run is |
| Jitter.BurstsZeroIffNoLoss | crates/netdiag-types/src/diagnostics/jitter.rs:135-156 | burst_count is 0 exactly when lost is 0, and exactly when max_burst_length is 0 |
| Jitter.ClosedLongestPositive | crates/netdiag-types/src/diagnostics/jitter.rs:144-150 | a closed burst has positive length |
| Jitter.LossQualityRating | crates/netdiag-types/src/diagnostics/jitter.rs:170-182 | 0 percent is Excellent, 5 and more VeryPoor, and the bands below 1, 2.5 and 5 in between |
| Jitter.LossQualityMonotone | crates/netdiag-types/src/diagnostics/jitter.rs:170-182 | more loss never rates better |
| TracerouteTypes.TimeoutProbes | crates/netdiag-types/src/diagnostics/traceroute.rs:106-108 | k probes, each a timeout probe |
| TracerouteTypes.HopTimeout | crates/netdiag-types/src/diagnostics/traceroute.rs:105-120 | probe_count probes without RTT, no address or average, flagged all-timeout |
| TracerouteTypes.ProbeRtts | crates/netdiag-types/src/diagnostics/traceroute.rs:124 | the RTTs come from the probes and are empty exactly when no probe has one |
| TracerouteTypes.CalculateStats | crates/netdiag-types/src/diagnostics/traceroute.rs:123-134 | all_timeout exactly when no probe has an RTT; otherwise avg_rtt is the truncated mean, between the fastest and slowest probe; nothing else changes |
| TracerouteTypes.TimeoutHopIsStable | crates/netdiag-types/src/diagnostics/traceroute.rs:105-134 | calculate_stats leaves a timeout hop unchanged |
| TracerouteTypes.HopCount | crates/netdiag-types/src/diagnostics/traceroute.rs:27-33 | the hop count is hops.len when reached and 0 otherwise |
| TracerouteTypes.HighLatencyHops | crates/netdiag-types/src/diagnostics/traceroute.rs:37-48 | exactly the hops whose average in whole ms exceeds the threshold; order and multiplicity are stated by TracerouteTypes.HighLatencySplits |
| TracerouteTypes.HighLatencySplits | crates/netdiag-types/src/diagnostics/traceroute.rs:37-48 | a single hop is kept exactly when it is above the threshold, and the filter of a concatenation is the concatenation of the filters, so each qualifying hop appears once, in path order |
| TracerouteTypes.JumpsExact | crates/netdiag-types/src/diagnostics/traceroute.rs:57-76 | every jump is a rise of more than the threshold over the previous hop's average, every such rise is recorded, in path order |
| TracerouteTypes.LatencyJumps | crates/netdiag-types/src/diagnostics/traceroute.rs:57-76 | the loop records exactly the jumps of the reference definition |
| PathAnalysis.SeverityOrder | crates/netdiag-types/src/diagnostics/path_analysis.rs:247-256 | Info < Warning < Error < Critical, and the order is total |
| PathAnalysis.FromScore | crates/netdiag-types/src/diagnostics/path_analysis.rs:290-298 | 90-100 Excellent, 70-89 Good, 50-69 Fair, 30-49 Poor, anything else Critical, each an if-and-only-if |
| PathAnalysis.FromScoreMonotone | crates/netdiag-types/src/diagnostics/path_analysis.rs:290-298 | within 0-100 a higher score never rates worse |
| PathAnalysis.FromIncreaseMs | crates/netdiag-types/src/diagnostics/path_analysis.rs:429-443 | half-open bands below 5, 30, 60, 200 and 400 ms, 400 and more F, each an if-and-only-if |
| PathAnalysis.FromIncreaseMsMonotone | crates/netdiag-types/src/diagnostics/path_analysis.rs:429-443 | a larger increase never grades better |
| SpeedResult.FromIncrease | crates/netdiag-speed/src/result.rs:115-124 | on whole milliseconds 0-5 A, 6-30 B, 31-60 C, 61-200 D, above F, each an if-and-only-if |
| SpeedResult.FromIncreaseMonotone | crates/netdiag-speed/src/result.rs:115-124 | a larger increase never grades better |
| SpeedResult.FromIncreaseBoundaries | crates/netdiag-speed/src/result.rs:428-439 | the band edges of the source's test, and 5.999 ms is still A |
| SpeedResult.NewAnalysis | crates/netdiag-speed/src/result.rs:62-83 | increase is loaded minus baseline saturating, at most loaded; percent times baseline is increase times 100, and 0 for a zero baseline; peak is loaded; grade from the increase |
| SpeedResult.NewAnalysisExample | crates/netdiag-speed/src/result.rs:451-461 | 20 ms loaded to 50 ms rises 30 ms, 150 percent, grade B |
| SpeedResult.FromCv | crates/netdiag-speed/src/result.rs:211-223 | strict upper bounds 0.1/0.2/0.3/0.5, each an if-and-only-if |
| SpeedResult.FromCvMonotone | crates/netdiag-speed/src/result.rs:211-223 | more variation never rates better |
| SpeedResult.NewMeasurement | crates/netdiag-speed/src/result.rs:291-298 | the fields as given and no samples |
| SpeedResult.Bps | crates/netdiag-speed/src/result.rs:301-307 | 0 for a zero duration; otherwise rate times seconds is the bits moved; 0 exactly when nothing moved or no time passed |
| SpeedResult.BytesPerSecond | crates/netdiag-speed/src/result.rs:325-331 | 0 for a zero duration; otherwise rate times seconds is the bytes moved |
| SpeedResult.RatesAgree | crates/netdiag-speed/src/result.rs:301-331 | bps is eight times bytes per second; kbps, mbps, gbps differ by factors of 1000 |
| SpeedResult.BpsExample | crates/netdiag-speed/src/result.rs:552-565 | 125 MB in 10 s is 100 Mbps |
| SpeedResult.SpeedUnit | crates/netdiag-speed/src/result.rs:334-343 | Gbps exactly from 1000 Mbps, Kbps exactly below 1 Mbps |
| SpeedResult.SampleMbps | crates/netdiag-speed/src/result.rs:361-367 | 0 for a zero duration; otherwise rate times seconds times a million is the bits moved |
| SpeedResult.SampleMbpsAgrees | crates/netdiag-speed/src/result.rs:301-367 | a sample's rate equals the Mbps of a measurement of the same transfer |
| PathAnalyzer.HopToInfo | crates/netdiag-connectivity/src/path_analyzer.rs:60-83 | a hop record carries the hop's number, address, average RTT and AS name, and is responsive exactly when not every probe timed out |
| PathAnalyzer.ExtractHopInfo | crates/netdiag-connectivity/src/path_analyzer.rs:60-83 | one record per traceroute hop, in order |
| PathAnalyzer.ClassifyHop | crates/netdiag-connectivity/src/path_analyzer.rs:148-207 | hop 1 is Local, hops 0, 2 and 3 are Router, a later hop is never Local unless it keeps the current segment, and a hop is classified Unknown only while the current segment is Unknown |
| PathAnalyzer.SegmentOf | crates/netdiag-connectivity/src/path_analyzer.rs:103-107 | every hop lands in a known segment, the one the pass has reached when it reads that hop |
| PathAnalyzer.HopsInStep | crates/netdiag-connectivity/src/path_analyzer.rs:112-121 | the next hop extends exactly the hop list of its own segment and no other |
| PathAnalyzer.SegmentsPartitionHops | crates/netdiag-connectivity/src/path_analyzer.rs:103-122 | the five segment lists together hold every hop exactly once |
| PathAnalyzer.FirstHopsSegments | crates/netdiag-connectivity/src/path_analyzer.rs:155-162 | hop 1 is always in the local segment and hops 2 and 3 in the router segment |
| PathAnalyzer.FindPrevHop | crates/netdiag-connectivity/src/path_analyzer.rs:218-223 | the hop found is one numbered one below; none is found exactly when no hop has that number |
| PathAnalyzer.CountResponsive | crates/netdiag-connectivity/src/path_analyzer.rs:250-252 | at most the number of hops; 0 exactly when none responded; all exactly when every hop responded |
| PathAnalyzer.Unresponsive | crates/netdiag-connectivity/src/path_analyzer.rs:291-292 | responsive and unresponsive hops add up to all hops |
| PathAnalyzer.HopLossPercent | crates/netdiag-connectivity/src/path_analyzer.rs:250-257 | a percentage between 0 and 100, 0 exactly when every hop of the segment responded |
| PathAnalyzer.LatencyOf | crates/netdiag-connectivity/src/path_analyzer.rs:214-248 | a new contribution is non-negative and primary exactly above 40 percent; without entry or exit RTTs the latency is left as it was |
| PathAnalyzer.SegmentLatency | crates/netdiag-connectivity/src/path_analyzer.rs:210-259 | an empty segment is unchanged; otherwise only latency and loss change, to the contribution and the loss percentage |
| PathAnalyzer.StatusPoints | crates/netdiag-connectivity/src/path_analyzer.rs:272-297 | the latency, loss and unresponsive checks add at most 6 points |
| PathAnalyzer.StatusOfPoints | crates/netdiag-connectivity/src/path_analyzer.rs:299-304 | 0 points Healthy, 1-2 Degraded, 3-4 Impaired, 5 or more Down, each an if-and-only-if |
| PathAnalyzer.SegmentStatusOf | crates/netdiag-connectivity/src/path_analyzer.rs:262-305 | Unknown exactly without hops; Down when no hop responded; otherwise the band of the issue points |
| PathAnalyzer.StatusOfPointsMonotone | crates/netdiag-connectivity/src/path_analyzer.rs:299-304 | more issue points never give a better status |
| PathAnalyzer.FinishSegment | crates/netdiag-connectivity/src/path_analyzer.rs:124-144 | a finished segment keeps its type and its hops |
| PathAnalyzer.IdentifySegments | crates/netdiag-connectivity/src/path_analyzer.rs:86-145 | each hop lands in the segment the classification pass gives it (local, router, ISP, backbone, destination), and each segment then gets its latency share and status |
| PathAnalyzer.ClassifyHops | crates/netdiag-connectivity/src/path_analyzer.rs:103-122 | each list returned is exactly the hops of that segment, in path order |
| PathAnalyzer.Route | crates/netdiag-connectivity/src/path_analyzer.rs:114-121 | the hop is appended to its own segment's list and every other list is unchanged |
| PathAnalyzer.PushSegmentIssues | crates/netdiag-connectivity/src/path_analyzer.rs:324-375 | the issues of one segment are appended to those found so far |
| PathAnalyzer.SegmentIssuesAboutSegment | crates/netdiag-connectivity/src/path_analyzer.rs:316-376 | a segment yields at most three issues, all about that segment |
| PathAnalyzer.SegmentIssuesProps | crates/netdiag-connectivity/src/path_analyzer.rs:345-375 | a down segment always yields a critical Unreachable issue; loss above the threshold always yields a PacketLoss issue, an error above 5 percent |
| PathAnalyzer.SpikeIssues | crates/netdiag-connectivity/src/path_analyzer.rs:380-401 | one spike issue per latency jump, in order |
| PathAnalyzer.IdentifyIssues | crates/netdiag-connectivity/src/path_analyzer.rs:308-427 | the loops collect each segment's issues in path order, then one issue per latency jump, then a critical Unreachable issue when the target was not reached |
| PathAnalyzer.UnreachedIsCritical | crates/netdiag-connectivity/src/path_analyzer.rs:404-424 | an unreached destination ends the issue list with a critical Unreachable issue |
| PathAnalyzer.UnreachedCapsScore | crates/netdiag-connectivity/src/path_analyzer.rs:404-424 | an unreached destination caps the health score at 60 |
| PathAnalyzer.SegmentIssuesIncluded | crates/netdiag-connectivity/src/path_analyzer.rs:316-376 | every issue of a segment appears in the issue list |
| PathAnalyzer.DownSegmentIsCritical | crates/netdiag-connectivity/src/path_analyzer.rs:364-375 | a down segment's critical Unreachable issue appears in the issue list |
| PathAnalyzer.Deduction | crates/netdiag-connectivity/src/path_analyzer.rs:477-482 | every issue costs a positive number of points |
| PathAnalyzer.HealthScoreIsClampedTotal | crates/netdiag-connectivity/src/path_analyzer.rs:473-484 | the chain of saturating deductions is 100 minus the total, floored at 0; at most 100; 100 exactly when there are no issues |
| PathAnalyzer.CriticalCapsScore | crates/netdiag-connectivity/src/path_analyzer.rs:476-484 | any critical issue caps the score at 60 |
| PathAnalyzer.TotalAtLeast | crates/netdiag-connectivity/src/path_analyzer.rs:476-484 | the total deduction covers each issue's own deduction |
| PathAnalyzer.ProblematicSegment | crates/netdiag-connectivity/src/path_analyzer.rs:485-497 | the first segment in path order that is impaired or down, and none exactly when no segment is |
| PathAnalyzer.CalculateHealth | crates/netdiag-connectivity/src/path_analyzer.rs:472-523 | the score is the clamped total, at most 100; the rating is its band; the summary follows the rating; the problematic segment is the first impaired or down one |
| PathAnalyzer.GenerateRecommendations | crates/netdiag-connectivity/src/path_analyzer.rs:526-578 | the loops return the advice for each segment group with an issue (local or router, ISP, destination, in that order), then each critical remediation not yet listed, or only the no-action line when that is empty |
| PathAnalyzer.WithRemediationsProps | crates/netdiag-connectivity/src/path_analyzer.rs:562-571 | the remediation loop keeps the list free of duplicates and adds every critical remediation |
| PathAnalyzer.RecommendationsProps | crates/netdiag-connectivity/src/path_analyzer.rs:526-578 | recommendations are never empty, hold no duplicates, and include every critical issue's remediation |
| PathAnalyzer.BloatAdvice | crates/netdiag-connectivity/src/path_analyzer.rs:595-620 | every grade gives at least one line of advice |
| PathAnalyzer.DetectBufferBloat | crates/netdiag-connectivity/src/path_analyzer.rs:581-622 | the increase is loaded minus baseline; the percentage is relative to a positive baseline and 0 otherwise; the grade is the band of the increase; there is always advice |
| PathAnalyzer.Analyze | crates/netdiag-connectivity/src/path_analyzer.rs:38-57 | the target, the segments, the issues, the health and the recommendations are the specifications of their stages; the rating is the score's band, the summary is the rating's, and the problematic segment is the first one that is impaired or down; an unreached destination scores at most 60 |
| PingParser.AsU16 | crates/netdiag-connectivity/src/ping.rs:243 | the `as u16` cast keeps the low 16 bits and leaves a small counter unchanged |
| PingParser.LineTtl | crates/netdiag-connectivity/src/ping.rs:176-182 | the TTL fits a `u8`, and is 64 when the line has no `ttl=` |
| PingParser.LineTimeMs | crates/netdiag-connectivity/src/ping.rs:184-188 | no time without `time=`; a time read is non-negative |
| PingParser.ParsePingLine | crates/netdiag-connectivity/src/ping.rs:168-197 | always a result, for the given number, target and size; a success exactly when the time reads, carrying that time and the line's TTL; a timeout otherwise |
| PingParser.LineResult | crates/netdiag-connectivity/src/ping.rs:140-154 | a result exactly for a reply line or a timeout line; a reply line is parsed; a timeout line gives a timeout |
| PingParser.LineResultsNumbered | crates/netdiag-connectivity/src/ping.rs:136-155 | at most one result per line, numbered 0, 1, 2, ... in line order, all for the target and size |
| PingParser.LineResultsStep | crates/netdiag-connectivity/src/ping.rs:139-155 | a line that is neither reply nor timeout adds nothing, one that is adds exactly one result |
| PingParser.FirstSummaryLine | crates/netdiag-connectivity/src/ping.rs:202-203 | the first line naming transmitted and received packets, and none exactly when no line does |
| PingParser.SyntheticResults | crates/netdiag-connectivity/src/ping.rs:232-246 | one result per transmitted packet, each the synthetic result for its index |
| PingParser.SummaryShape | crates/netdiag-connectivity/src/ping.rs:200-253 | a summary yields exactly the transmitted count of results, numbered from 0 as `u16`; the first received ones are successes at the average RTT (50 ms when missing), the rest timeouts |
| PingParser.ParseSummary | crates/netdiag-connectivity/src/ping.rs:200-253 | nothing when no line carries the transmitted and received counts; otherwise the first such line's counts expanded into synthetic results at the average RTT, 50 ms when the RTT line is missing |
| PingParser.Synthesize | crates/netdiag-connectivity/src/ping.rs:232-246 | the expansion loop yields exactly the synthetic results |
| PingParser.ParseLine | crates/netdiag-connectivity/src/ping.rs:140-154 | one turn of the line loop yields the line's result |
| PingParser.ParsePingOutput | crates/netdiag-connectivity/src/ping.rs:130-165 | the numbered line results when there are any; otherwise the summary's results, and the empty list without a summary |
| PingParser.ParseLines | crates/netdiag-connectivity/src/ping.rs:136-155 | the line loop yields exactly the numbered line results |
| PingParser.AddLine | crates/netdiag-connectivity/src/ping.rs:139-155 | one turn of the loop extends the results to the next line and keeps the counter equal to their number |
| TracerouteParser.Inner | crates/netdiag-connectivity/src/traceroute.rs:208-209 | the text inside the parentheses is two characters shorter than the part |
| TracerouteParser.Step | crates/netdiag-connectivity/src/traceroute.rs:197-256 | one turn moves one or two parts forward, adds at most one probe, keeps the probes already found and keeps a hostname once taken |
| TracerouteParser.Walk | crates/netdiag-connectivity/src/traceroute.rs:196-256 | the walk reaches the end of the parts |
| TracerouteParser.WalkKeepsProbes | crates/netdiag-connectivity/src/traceroute.rs:196-256 | at most one probe per part, and the probes already found are never dropped or reordered |
| TracerouteParser.WalkKeepsHostname | crates/netdiag-connectivity/src/traceroute.rs:250-254 | the hostname is the first one seen |
| TracerouteParser.HopLineProps | crates/netdiag-connectivity/src/traceroute.rs:177-273 | a hop exactly when the first part reads as a `u8`, carrying that number; an all-`*` line gives an all-timeout hop of the configured probe count; every hop is all-timeout exactly when none of its probes succeeded |
| TracerouteParser.WalkKeepsAddress | crates/netdiag-connectivity/src/traceroute.rs:207-222 | with no address part ahead, the walk keeps the address it has |
| TracerouteParser.WalkHostThenAddress | crates/netdiag-connectivity/src/traceroute.rs:307-317 | a hostname part then a parenthesized address, as in the source's test line, give the hop that hostname and that address |
| TracerouteParser.ScanPart | crates/netdiag-connectivity/src/traceroute.rs:197-256 | the checks one after another compute exactly one turn of the walk |
| TracerouteParser.ParseHopLine | crates/netdiag-connectivity/src/traceroute.rs:177-273 | the loop computes exactly the hop of the line |
| TracerouteParser.HopsUpToProps | crates/netdiag-connectivity/src/traceroute.rs:152-172 | at most one hop per line after the header, each keeping the all-timeout invariant |
| TracerouteParser.ParseTracerouteOutput | crates/netdiag-connectivity/src/traceroute.rs:152-172 | the loop yields exactly the hops of the non-blank lines after the header |
| TracerouteParser.AddHopLine | crates/netdiag-connectivity/src/traceroute.rs:159-170 | one turn of the loop extends the hops to the next line |
| TracerouteParser.Reached | crates/netdiag-connectivity/src/traceroute.rs:136-139 | reached exactly when there are hops and the last one answered from the target |
| TracerouteParser.Trace | crates/netdiag-connectivity/src/traceroute.rs:130-149 | the hops are the parsed output; reached as above; target, hostname, duration and protocol as given |
| FixActions.SeverityOrder | crates/netdiag-autofix/src/actions.rs:31-41 | Low < Medium < High < Critical, and the level identifies the severity |
| FixActions.CatalogKeepsRules | crates/netdiag-autofix/src/actions.rs:65-175 | every constructor's action keeps the catalog's rules on category, severity, reversibility, admin need and prerequisites; the DNS flush is low, one-way and without prerequisites |
| FixActions.ResultConstructors | crates/netdiag-autofix/src/actions.rs:255-284 | a success carries its message and no error; a failure its error and no message; neither is verified nor tied to a rollback point |
| FixActions.NewPlan | crates/netdiag-autofix/src/actions.rs:300-322 | the plan keeps its actions and mode; its total time is the sum of the estimates; it is empty exactly when it has no actions |
| FixActions.TotalTimeAppend | crates/netdiag-autofix/src/actions.rs:302-312 | the total of two action lists together is the sum of their totals |
| FixActions.TotalTimeRemove | crates/netdiag-autofix/src/actions.rs:302-312 | removing one action takes exactly its estimate off the total |
| FixActions.TotalTimePermutation | crates/netdiag-autofix/src/actions.rs:302-312 | reordering the actions leaves the total unchanged |
| FixEngine.Interface | crates/netdiag-autofix/src/engine.rs:717-726 | a DNS failure names no interface; every other issue names its own |
| FixEngine.IssueActionsCases | crates/netdiag-autofix/src/engine.rs:115-156 | a DNS failure gets only the cache flush, since it names no interface; latency, loss, Wi-Fi and DHCP issues without an interface get nothing; a lost connection always ends with a TCP/IP reset; every action is a catalog action and none changes DNS servers |
| FixEngine.OfSeverityOnly | crates/netdiag-autofix/src/engine.rs:158 | a severity group holds only actions of that severity |
| FixEngine.BySeveritySorted | crates/netdiag-autofix/src/engine.rs:158 | the stable sort orders the actions by non-decreasing severity |
| FixEngine.OfSeverityCount | crates/netdiag-autofix/src/engine.rs:158 | a group holds an action as often as the list does when it has that severity, and never otherwise |
| FixEngine.BySeverityPermutation | crates/netdiag-autofix/src/engine.rs:158 | the sort is a permutation of the actions |
| FixEngine.PlanFixes | crates/netdiag-autofix/src/engine.rs:112-161 | the loop and the sort yield exactly the specified plan |
| FixEngine.CollectedStep | crates/netdiag-autofix/src/engine.rs:115-156 | each issue appends its actions after those of the issues before it |
| FixEngine.PlanOfProps | crates/netdiag-autofix/src/engine.rs:112-161 | a plan is not a dry run, is sorted by severity, is a permutation of the collected actions, and its total time is theirs |
| FixEngine.CollectedFromCatalog | crates/netdiag-autofix/src/engine.rs:115-156 | every collected action is a catalog action and none changes DNS servers |
| FixEngine.CollectedResetsTcpIp | crates/netdiag-autofix/src/engine.rs:136-143 | a lost connection among the issues always yields a TCP/IP reset |
| FixEngine.PlanContents | crates/netdiag-autofix/src/engine.rs:112-161 | the planned actions are catalog actions that never change DNS servers, and a lost connection always gets a TCP/IP reset |
| FixEngine.PlanOf | crates/netdiag-autofix/src/engine.rs:112-161 | no contract; stated by FixEngine.PlanFixes, FixEngine.PlanOfProps and FixEngine.PlanContents |
| FixEngine.AnyUp | crates/netdiag-autofix/src/engine.rs:182 | true exactly when some interface is up |
| FixEngine.AnyNamed | crates/netdiag-autofix/src/engine.rs:194 | true exactly when some interface has the name |
| FixEngine.MissingOfEmpty | crates/netdiag-autofix/src/engine.rs:164-207 | nothing is missing exactly when every prerequisite is met |
| FixEngine.MissingOfBound | crates/netdiag-autofix/src/engine.rs:164-207 | each prerequisite adds at most one reason, and a possible reboot adds none |
| FixEngine.CheckPrerequisites | crates/netdiag-autofix/src/engine.rs:164-207 | the loop collects exactly the missing prerequisites, in order |
| FixEngine.Texts | crates/netdiag-autofix/src/engine.rs:226-240 | one message per missing prerequisite |
| FixEngine.ExecuteAction | crates/netdiag-autofix/src/engine.rs:308-341 | the result is for the action and takes the fix's duration; a success exactly when the fix succeeded, with its message; otherwise a failure with its error; nothing verified and no rollback point yet |
| FixEngine.Execute | crates/netdiag-autofix/src/engine.rs:210-246 | the loop yields exactly the specified results |
| FixEngine.ExecuteOne | crates/netdiag-autofix/src/engine.rs:213-243 | one turn yields the dry-run success, the missing-prerequisites failure or the fix's result |
| FixEngine.ExecutedIndex | crates/netdiag-autofix/src/engine.rs:210-246 | one result per action, in order, each the result for that action |
| FixEngine.ResultForProps | crates/netdiag-autofix/src/engine.rs:213-243 | a result is for its action and has an error exactly when it fails; a failure before the fix ran took no time; a dry run gives the dry-run success |
| FixEngine.ExecutedProps | crates/netdiag-autofix/src/engine.rs:210-246 | every result is for its action and has an error exactly when it fails; a dry run gives the same results whatever the platform and the fixes would do |
| FixEngine.CreateRollbackPoint | crates/netdiag-autofix/src/engine.rs:344-361 | a DNS change with readable servers records a point holding them, tied to the action, evicting at most the single oldest point of a full store and keeping every other; a DNS change without them fails and any other action yields the empty id, both leaving the points unchanged; the manager stays within its bound |
| FixEngine.ExecuteWithRollback | crates/netdiag-autofix/src/engine.rs:249-305 | one result per action, each the specified one; a dry run leaves the manager's points unchanged |
| FixEngine.RollbackStep | crates/netdiag-autofix/src/engine.rs:253-302 | one turn yields the specified result; a dry run leaves the manager's points unchanged |
| FixEngine.RollbackResultProps | crates/netdiag-autofix/src/engine.rs:253-302 | every result has an error exactly when it fails; a fix that ran but failed verification is a failure with the verification error; a rollback point is recorded only for a reversible action with rollback enabled |
| Rollback.ValidOnly | crates/netdiag-autofix/src/rollback.rs:87 | exactly the valid points are kept, unchanged |
| Rollback.OldestExists | crates/netdiag-autofix/src/rollback.rs:172-176 | a non-empty store always has an oldest point |
| Rollback.Kept | crates/netdiag-autofix/src/rollback.rs:401-414 | a point stays exactly when it is newer than the cutoff or still valid, unchanged |
| Rollback.KeptDropsOnlyOldUsed | crates/netdiag-autofix/src/rollback.rs:401-414 | cleanup loses no valid point, drops only used points from before the cutoff, and the kept and dropped points add up to the store |
| Rollback.AddKeepsBound | crates/netdiag-autofix/src/rollback.rs:168-186 | adding a point keeps a store within a positive bound, and the new point is stored under its id |
| Rollback.ListingDone | crates/netdiag-autofix/src/rollback.rs:202-206 | the listing holds every valid point of the store once and nothing else |
| Rollback.RollbackManager.constructor | crates/netdiag-autofix/src/rollback.rs:67-73 | a new manager has no points and the given bound |
| Rollback.RollbackManager.Init | crates/netdiag-autofix/src/rollback.rs:76-95 | a read points file replaces the store by its valid points; without one nothing changes |
| Rollback.RollbackManager.Get | crates/netdiag-autofix/src/rollback.rs:197-199 | found exactly when the id is stored, and then the stored point |
| Rollback.RollbackManager.AddPoint | crates/netdiag-autofix/src/rollback.rs:168-186 | when full, one oldest point goes first; then the new point is stored under its id; a store within a positive bound stays within it |
| Rollback.RollbackManager.CreateDnsPoint | crates/netdiag-autofix/src/rollback.rs:98-119 | a valid point holding the interface's current DNS servers is stored under the fresh id; at most the single oldest point is evicted, and only when the store is full; every other point is kept; a store within a positive bound stays within it |
| Rollback.RollbackManager.CreateConfigPoint | crates/netdiag-autofix/src/rollback.rs:122-144 | a read error is returned as an I/O error and leaves the store unchanged; otherwise a valid point holding the file's contents is stored under the fresh id, at most the single oldest point is evicted, and only when the store is full; every other point is kept; a store within a positive bound stays within it |
| Rollback.RollbackManager.CreateMultiPoint | crates/netdiag-autofix/src/rollback.rs:147-165 | a valid point holding the states is stored under the fresh id; at most the single oldest point is evicted, and only when the store is full; every other point is kept; a store within a positive bound stays within it |
| Rollback.RollbackManager.AddPointHolds | crates/netdiag-autofix/src/rollback.rs:168-186 | after adding, the point is stored under its id |
| Rollback.RollbackManager.List | crates/netdiag-autofix/src/rollback.rs:202-206 | exactly the valid points, each once, newest first |
| Rollback.RollbackManager.DoRollback | crates/netdiag-autofix/src/rollback.rs:209-232 | an unknown id is not found; a used point fails as no longer valid; a failed restore leaves the point valid; a restored point is marked used; nothing else changes |
| Rollback.RollbackManager.RollbackTwice | crates/netdiag-autofix/src/rollback.rs:209-232 | a rollback that succeeded cannot be repeated |
| Rollback.RollbackManager.Invalidate | crates/netdiag-autofix/src/rollback.rs:392-398 | marks the point used and changes nothing else; an unknown id changes nothing |
| Rollback.RollbackManager.Cleanup | crates/netdiag-autofix/src/rollback.rs:401-414 | drops the used points from before the cutoff, reports how many went, and keeps every valid point |
| Reports.ExtensionsDistinct | crates/netdiag-reports/src/report.rs:26-34 | every format has its own file extension |
| Reports.ProbeMillis | crates/netdiag-reports/src/report.rs:191-195 | one entry per probe, present exactly when the probe has an RTT |
| Reports.HopSummaries | crates/netdiag-reports/src/report.rs:184-198 | one summary per hop, in order |
| Reports.SummaryOf | crates/netdiag-reports/src/report.rs:176-200 | the summary's hop count is the number of hops; for a reached target it agrees with `hop_count`, and for an unreached one it is larger; each hop keeps its number, address, timeout flag and RTTs |
| Reports.Deduction | crates/netdiag-reports/src/report.rs:351-413 | every reported issue costs at least 5 points |
| Reports.TimeoutHops | crates/netdiag-reports/src/report.rs:391 | at most the number of hops |
| Reports.StatusOf | crates/netdiag-reports/src/report.rs:418-424 | good from 80, warning from 50 to 79, critical below 50, each an if-and-only-if |
| Reports.ScoreIsClampedTotal | crates/netdiag-reports/src/report.rs:345-416 | the chain of saturating deductions is 100 minus their total, floored at 0, and 100 exactly when nothing was found |
| Reports.TotalIncludes | crates/netdiag-reports/src/report.rs:345-416 | every issue's deduction is part of the total |
| Reports.TotalAppend | crates/netdiag-reports/src/report.rs:345-416 | the total of two issue lists together is the sum of their totals |
| Reports.HealthProps | crates/netdiag-reports/src/report.rs:345-437 | the status follows the score bands; the score is the clamped total and 100 exactly without issues; a report without issues gets exactly the healthy advice |
| Reports.UnreachedReported | crates/netdiag-reports/src/report.rs:381-389 | an unreached traceroute is always reported and caps the score at 75 |
| Reports.DnsFailureReported | crates/netdiag-reports/src/report.rs:402-406 | a failed DNS lookup is always reported and caps the score at 80 |
| Reports.PingDeduction | crates/netdiag-reports/src/report.rs:351-378 | loss above 10 percent costs 20, lower loss 5; an average above 200 ms costs 15 more, above 100 ms 5 |
| Reports.NewBuilder | crates/netdiag-reports/src/report.rs:257-261 | a new builder has the default title, no results, no metadata and no health set |
| Reports.CalculateHealth | crates/netdiag-reports/src/report.rs:345-437 | the three loops compute exactly the specified assessment |
| Reports.PingLoop | crates/netdiag-reports/src/report.rs:351-379 | the ping loop appends each summary's issues and advice in order and keeps the score in step with the issues |
| Reports.TraceLoop | crates/netdiag-reports/src/report.rs:381-400 | the traceroute loop appends each summary's issues and advice in order and keeps the score in step with the issues |
| Reports.DnsLoop | crates/netdiag-reports/src/report.rs:402-415 | the DNS loop appends each summary's issues and advice in order and keeps the score in step with the issues |
| Reports.Push | crates/netdiag-reports/src/report.rs:354-358 | pushing an issue and taking its deduction keeps the score in step with the issues |
| Reports.PingStep | crates/netdiag-reports/src/report.rs:352-378 | one ping summary's issues and advice are appended, with the score in step |
| Reports.TraceStep | crates/netdiag-reports/src/report.rs:382-399 | one traceroute summary's issues and advice are appended, with the score in step |
| Reports.CountTimeoutHops | crates/netdiag-reports/src/report.rs:391 | the loop counts exactly the all-timeout hops |
| Reports.DnsStep | crates/netdiag-reports/src/report.rs:403-414 | one DNS summary's issues and advice are appended, with the score in step |
| Reports.Build | crates/netdiag-reports/src/report.rs:336-342 | the health is computed from the recorded results only when none was set; everything else is the builder's report |
| Monitor.CheckTarget | crates/netdiag-daemon/src/monitor.rs:207-233 | the result carries the target's name and what the check observed, no packet-loss figure, and the current time |
| Monitor.StatusOf | crates/netdiag-daemon/src/monitor.rs:282-294 | unhealthy exactly for a failure, degraded exactly for a success slower than the threshold, healthy otherwise, never unknown |
| Monitor.TargetStatusOf | crates/netdiag-daemon/src/monitor.rs:296-303 | a failure counts one consecutive failure and no last success; a success counts none and its own time |
| Monitor.LastFor | crates/netdiag-daemon/src/monitor.rs:281-313 | the last result for a name, and none exactly when no result has that name |
| Monitor.RecordSlot | crates/netdiag-daemon/src/monitor.rs:305-312 | recording a status sets its name's slot and no other |
| Monitor.RecordAllLastWins | crates/netdiag-daemon/src/monitor.rs:281-313 | after a round each name holds the status of its last result and a name without one keeps what it held; "gateway", "dns" and "internet" land in their own slots |
| Monitor.RecordAllKeeps | crates/netdiag-daemon/src/monitor.rs:281-313 | recording never changes the overall status, the Wi-Fi signal or the update time |
| Monitor.OverallStatus | crates/netdiag-daemon/src/monitor.rs:321-350 | unhealthy dominates degraded, which dominates healthy; unknown exactly when none of the three slots has any of these; custom targets are not consulted |
| Monitor.Failures | crates/netdiag-daemon/src/monitor.rs:364 | at most the number of results |
| Monitor.AlertsOfProps | crates/netdiag-daemon/src/monitor.rs:362-392 | a result raises a critical alert exactly when it failed, at most two alerts in all, each naming its target |
| Monitor.AllAlertsCritical | crates/netdiag-daemon/src/monitor.rs:353-394 | one critical alert per failed check |
| Monitor.AllAlertsBound | crates/netdiag-daemon/src/monitor.rs:353-394 | at most two alerts per result |
| Monitor.AllAlertsTargets | crates/netdiag-daemon/src/monitor.rs:353-394 | every alert names a target that was checked |
| Monitor.NetworkMonitor.constructor | crates/netdiag-daemon/src/monitor.rs:131-143 | nothing known yet and not running |
| Monitor.NetworkMonitor.Pause | crates/netdiag-daemon/src/monitor.rs:156-158 | stops running and leaves the data alone |
| Monitor.NetworkMonitor.Resume | crates/netdiag-daemon/src/monitor.rs:161-163 | runs again and leaves the data alone |
| Monitor.NetworkMonitor.UpdateData | crates/netdiag-daemon/src/monitor.rs:278-318 | each result's status is recorded under its name, then the overall status and the update time are recomputed; the running flag is unchanged |
| Monitor.NetworkMonitor.CheckAlerts | crates/netdiag-daemon/src/monitor.rs:353-394 | the alerts are exactly those specified for the results, none when alerts are off or there is no channel |
| Monitor.NetworkMonitor.RunChecks | crates/netdiag-daemon/src/monitor.rs:191-204 | one result per configured target, in order; the data is updated with them and the alerts are those they raise |
| Monitor.Checked | crates/netdiag-daemon/src/monitor.rs:194-200 | one result per target |
| Monitor.CheckedIndex | crates/netdiag-daemon/src/monitor.rs:194-200 | the k-th result is the check of the k-th target |
| Monitor.LastForAt | crates/netdiag-daemon/src/monitor.rs:281-313 | a result that no later result shares a name with is the one that name keeps |
| Monitor.DefaultSlot | crates/netdiag-daemon/src/monitor.rs:191-204 | after a round of the default targets, each of the gateway, DNS and internet slots holds its own check's status |
| Monitor.DefaultRoundStatus | crates/netdiag-daemon/src/monitor.rs:321-350 | after a round of the default targets, the overall status is unhealthy exactly when one of the three checks failed |
| DaemonConfig.ValidateSchedule | crates/netdiag-daemon/src/config.rs:283-295 | only an empty cron expression is rejected |
| DaemonConfig.ValidateAlerts | crates/netdiag-daemon/src/config.rs:362-372 | the packet-loss threshold must lie between 0 and 100 inclusive |
| DaemonConfig.ValidateSchedulesFirst | crates/netdiag-daemon/src/config.rs:85-87 | the schedules pass exactly when every cron expression is non-empty, and the error is the first failing schedule's |
| DaemonConfig.ValidateProps | crates/netdiag-daemon/src/config.rs:83-93 | valid exactly when every cron expression is non-empty and the threshold is in range; a schedule error is reported before an alert error |
| DaemonConfig.DefaultIsValid | crates/netdiag-daemon/src/config.rs:37-62 | the default configuration is valid, monitors the gateway, DNS and the internet, with a 100 ms latency threshold |
| CaptureFilters.And | crates/netdiag-capture/src/filter.rs:107-117 | an empty operand yields the other one; the result is empty exactly when both are |
| CaptureFilters.Or | crates/netdiag-capture/src/filter.rs:120-130 | an empty operand yields the other one; the result is empty exactly when both are |
| CaptureFilters.Not | crates/netdiag-capture/src/filter.rs:133-141 | the empty filter stays empty, and only it |
| CaptureFilters.Display | crates/netdiag-capture/src/filter.rs:160-167 | never empty; "(all)" for the empty filter |
| CaptureFilters.AndBalanced | crates/netdiag-capture/src/filter.rs:107-117 | `and` keeps a filter's parentheses balanced |
| CaptureFilters.OrBalanced | crates/netdiag-capture/src/filter.rs:120-130 | `or` keeps a filter's parentheses balanced |
| CaptureFilters.NotBalanced | crates/netdiag-capture/src/filter.rs:133-141 | `not` keeps a filter's parentheses balanced |
| CaptureFilters.AndOperands | crates/netdiag-capture/src/filter.rs:107-117 | each non-empty operand is kept whole inside its own parentheses, so it is read as one unit |
| CaptureFilters.Port80 | crates/netdiag-capture/src/filter.rs:182-185 | `port(80)` is "port 80" |
| CaptureFilters.Port443 | crates/netdiag-capture/src/filter.rs:50-54 | `port(443)` is "port 443" |
| CaptureFilters.TcpAndPort80 | crates/netdiag-capture/src/filter.rs:188-191 | `tcp().and(port(80))` is "(tcp) and (port 80)" |
| CaptureFilters.Port80OrPort443 | crates/netdiag-capture/src/filter.rs:194-197 | `port(80).or(port(443))` is "(port 80) or (port 443)" |
| CaptureFilters.Host | crates/netdiag-capture/src/filter.rs:29-33 | no contract; stated by CaptureFilters.HostsWellFormed |
| CaptureFilters.SrcHost | crates/netdiag-capture/src/filter.rs:36-40 | no contract; stated by CaptureFilters.HostsWellFormed |
| CaptureFilters.DstHost | crates/netdiag-capture/src/filter.rs:43-47 | no contract; stated by CaptureFilters.HostsWellFormed |
| CaptureFilters.Port | crates/netdiag-capture/src/filter.rs:50-54 | no contract; stated by CaptureFilters.PortsWellFormed, CaptureFilters.Port80 and CaptureFilters.Port443 |
| CaptureFilters.SrcPort | crates/netdiag-capture/src/filter.rs:57-61 | no contract; stated by CaptureFilters.PortsWellFormed |
| CaptureFilters.DstPort | crates/netdiag-capture/src/filter.rs:64-68 | no contract; stated by CaptureFilters.PortsWellFormed |
| CaptureFilters.Protocol | crates/netdiag-capture/src/filter.rs:71-75 | no contract; stated by CaptureFilters.ProtocolsWellFormed |
| CaptureFilters.Tcp | crates/netdiag-capture/src/filter.rs:78-80 | no contract; stated by CaptureFilters.ProtocolsWellFormed and CaptureFilters.TcpAndPort80 |
| CaptureFilters.Udp | crates/netdiag-capture/src/filter.rs:83-85 | no contract; stated by CaptureFilters.ProtocolsWellFormed |
| CaptureFilters.Icmp | crates/netdiag-capture/src/filter.rs:88-90 | no contract; stated by CaptureFilters.ProtocolsWellFormed |
| CaptureFilters.Dns | crates/netdiag-capture/src/filter.rs:93-97 | no contract; stated by CaptureFilters.ProtocolsWellFormed |
| CaptureFilters.Http | crates/netdiag-capture/src/filter.rs:100-104 | no contract; stated by CaptureFilters.ProtocolsWellFormed |
| CaptureFilters.HostsWellFormed | crates/netdiag-capture/src/filter.rs:29-47 | for an address without parentheses, `host`, `src_host` and `dst_host` give non-empty filters with balanced parentheses |
| CaptureFilters.PortsWellFormed | crates/netdiag-capture/src/filter.rs:50-68 | every `u16` port gives non-empty `port`, `src_port` and `dst_port` filters with balanced parentheses |
| CaptureFilters.ProtocolsWellFormed | crates/netdiag-capture/src/filter.rs:71-104 | `protocol` of a name without parentheses is balanced and empty only for the empty name; `tcp`, `udp`, `icmp`, `dns` and `http` are non-empty and balanced |
| Decode.AllProtocolsComplete | crates/netdiag-capture/src/decode.rs:68-99 | the list of protocols holds every protocol once |
| Decode.NameInjective | crates/netdiag-capture/src/decode.rs:101-118 | distinct protocols have distinct names |
| Decode.ByteRoundTrip | crates/netdiag-capture/src/decode.rs:150-161 | every bit of the byte is read: the byte is recovered from its flags |
| Decode.FlagsRoundTrip | crates/netdiag-capture/src/decode.rs:150-161 | every combination of the eight flags comes from exactly one byte |
| Decode.FromByte | crates/netdiag-capture/src/decode.rs:150-161 | no contract; stated by Decode.ByteRoundTrip and Decode.FlagsRoundTrip |
| Decode.ChosenExact | crates/netdiag-capture/src/decode.rs:164-174 | a letter is pushed exactly when its flag is set |
| Decode.ShortDot | crates/netdiag-capture/src/decode.rs:164-174 | the short form is "." exactly when none of SYN, ACK, FIN, RST, PSH, URG is set, and has one to six characters |
| Decode.ShortLetters | crates/netdiag-capture/src/decode.rs:164-174 | otherwise it holds the letter of each set flag and only those |
| Decode.ShortOrdered | crates/netdiag-capture/src/decode.rs:164-174 | the letters come in the order S A F R P U |
| Decode.PushIf | crates/netdiag-capture/src/decode.rs:166-171 | one conditional push appends the letter exactly when its flag is set |
| Decode.ToStringShort | crates/netdiag-capture/src/decode.rs:164-174 | the pushes compute exactly the short form |
| Decode.DisplayFlags | crates/netdiag-capture/src/decode.rs:177-181 | the short form in square brackets |
| Decode.TcpProtocol | crates/netdiag-capture/src/decode.rs:329-337 | HTTP ports 80 and 8080 win over HTTPS ports 443 and 8443, then SSH 22, then DNS 53, on either endpoint; anything else is TCP; each an if-and-only-if |
| Decode.UdpProtocol | crates/netdiag-capture/src/decode.rs:340-346 | DNS 53 wins over DHCP 67 and 68, on either endpoint; anything else is UDP; each an if-and-only-if |
| Decode.PortGuessSymmetric | crates/netdiag-capture/src/decode.rs:329-346 | neither guess depends on which endpoint is the source |
| Decode.HttpBeatsHttps | crates/netdiag-capture/src/decode.rs:329-346 | 8080 to 443 is HTTP, 443 to 22 is HTTPS, 68 to 53 is DNS |
| Decode.ChosenSound | crates/netdiag-capture/src/decode.rs:164-174 | every letter pushed belongs to a set flag |
| Decode.ChosenComplete | crates/netdiag-capture/src/decode.rs:164-174 | every set flag's letter is pushed |
| Decode.ChosenOrdered | crates/netdiag-capture/src/decode.rs:164-174 | the letters come out in the fixed order S, A, F, R, P, U, each at most once |
| CaptureStatistics.Bump | crates/netdiag-capture/src/stats.rs:185-192 | the key's count goes up by one, inserting it at 1, and no other count changes |
| CaptureStatistics.OptIp | crates/netdiag-capture/src/stats.rs:81-88 | an address present is counted once more; nothing else changes |
| CaptureStatistics.OptPort | crates/netdiag-capture/src/stats.rs:91-96 | a port present is counted once more; nothing else changes |
| CaptureStatistics.Tracked | crates/netdiag-capture/src/stats.rs:77-96 | the protocol's entry counts one more packet and its bytes, and each address and port seen once more |
| CaptureStatistics.Percentage | crates/netdiag-capture/src/stats.rs:195-200 | non-negative; 0 for no packets in total; at most 100 when the protocol's packets are part of the total |
| CaptureStatistics.DropRate | crates/netdiag-capture/src/stats.rs:137-143 | between 0 and 100, 0 exactly when nothing was captured or nothing was dropped |
| CaptureStatistics.TableUpdate | crates/netdiag-capture/src/stats.rs:73-78 | replacing one protocol's entry moves the protocol sums by that entry's change and keeps the keys protocol names |
| CaptureStatistics.SortDescProps | crates/netdiag-capture/src/stats.rs:128-132 | the sort is a permutation by non-increasing count |
| CaptureStatistics.Top | crates/netdiag-capture/src/stats.rs:129-133 | the first ten entries, or all when there are fewer |
| CaptureStatistics.Aggregate | crates/netdiag-capture/src/stats.rs:114-124 | the address and port totals over every protocol |
| CaptureStatistics.TopList | crates/netdiag-capture/src/stats.rs:125-133 | at most ten entries of the table with their counts, by descending count, none left out counting more than one kept |
| CaptureStatistics.TopDominates | crates/netdiag-capture/src/stats.rs:125-133 | nothing left out of the first n of a sorted listing counts more than an entry kept |
| CaptureStatistics.TopProps | crates/netdiag-capture/src/stats.rs:125-133 | the sorted, cut listing of a table's entries is its top list |
| CaptureStatistics.EntriesOfMap | crates/netdiag-capture/src/stats.rs:125-131 | the listing holds each entry of the table once |
| CaptureStatistics.AddInto | crates/netdiag-capture/src/stats.rs:117-123 | each count of a protocol's table is added into the totals |
| CaptureStatistics.Added | crates/netdiag-capture/src/stats.rs:117-123 | the totals hold every key of either table, with the counts added |
| CaptureStatistics.CaptureStats.constructor | crates/netdiag-capture/src/stats.rs:51-56 | every counter zero, no protocols, started now |
| CaptureStatistics.CaptureStats.Update | crates/netdiag-capture/src/stats.rs:59-97 | one more packet and its bytes, globally and in the protocol's entry, which also counts the addresses and ports; the totals stay the sums of the table |
| CaptureStatistics.CaptureStats.Finalize | crates/netdiag-capture/src/stats.rs:100-134 | the end time, the duration in seconds and, for a positive duration, the rates; then the ten busiest addresses and ports over all protocols |
| CaptureStatistics.CaptureStats.RecordEnd | crates/netdiag-capture/src/stats.rs:101-111 | the end time, the duration in seconds and, for a positive duration, the rates; the rates are left alone otherwise |
| CaptureStatistics.CaptureStats.Rank | crates/netdiag-capture/src/stats.rs:113-133 | the top lists are the top lists of the summed tables |
| CaptureStatistics.PercentagesSum | crates/netdiag-capture/src/stats.rs:195-200 | with the totals `update` keeps, the protocols' shares add up to 100 percent once anything was captured |
| CaptureStatistics.TopOfSorted | crates/netdiag-capture/src/stats.rs:125-133 | the first ten entries of any listing of the table sorted by descending count form its top list |
| WifiChannel.FromNumber | crates/netdiag-types/src/wifi/channel.rs:26-47 | the channel keeps its number and band, is 20 MHz wide and not bonded |
| WifiChannel.NumberAndBand | crates/netdiag-types/src/wifi/channel.rs:52-66 | each band's frequency range gives that band and a number whose channel frequency is not above the given one; any other frequency gives 2.4 GHz channel 0 |
| WifiChannel.FromFrequency | crates/netdiag-types/src/wifi/channel.rs:51-76 | the channel keeps the frequency, is 20 MHz wide and not bonded |
| WifiChannel.NumberRoundTrip | crates/netdiag-types/src/wifi/channel.rs:26-76 | every channel number of a band maps to a frequency that maps back to that number and band |
| WifiChannel.OutOfBand | crates/netdiag-types/src/wifi/channel.rs:64-65 | a frequency outside the three ranges is 2.4 GHz channel 0 |
| WifiChannel.OverlappingProps | crates/netdiag-types/src/wifi/channel.rs:90-101 | nothing outside 2.4 GHz; at 2.4 GHz exactly the channels 1-14 within four of the channel, itself excluded, in increasing order |
| WifiChannel.IsDfs | crates/netdiag-types/src/wifi/channel.rs:80-86 | no contract; stated by ChannelAnalysis.DfsFlagAgrees |
| WifiChannel.Channel6Overlaps | crates/netdiag-types/src/wifi/channel.rs:90-101 | channel 6 overlaps 2-5 and 7-10 |
| WifiChannel.Mhz | crates/netdiag-types/src/wifi/channel.rs:155-163 | a width is a positive multiple of 20 MHz |
| WifiChannel.WidthsDouble | crates/netdiag-types/src/wifi/channel.rs:155-163 | each width is twice the one before it |
| WifiChannel.UnderflowExample | crates/netdiag-types/src/wifi/channel.rs:52-54 | as written, 2400 MHz comes out as channel 49 and 5925 MHz as 6 GHz channel 46; the corrected reading gives channel 0 for both |
| WifiChannel.AsWrittenAgrees | crates/netdiag-types/src/wifi/channel.rs:52-63 | from each band's channel 0 upwards, the code as written and the corrected reading agree |
| NetAddress.SpecialAddresses | crates/netdiag-types/src/network/address.rs:39-59 | the broadcast address is multicast and locally administered; the zero address is none of these |
| NetAddress.ParsedUpToProps | crates/netdiag-types/src/network/address.rs:80-87 | the parts parse exactly when each is a hexadecimal byte, the octets are their values, and a failure reports the first bad part |
| NetAddress.ParsedErr | crates/netdiag-types/src/network/address.rs:80-87 | a failure reports the first part that is not a hexadecimal byte |
| NetAddress.MacFromStrProps | crates/netdiag-types/src/network/address.rs:75-88 | exactly six parts split at `:` or `-` are accepted when each is a hexadecimal byte; the octets are their values; any other part count is a format error |
| NetAddress.HexesParse | crates/netdiag-types/src/network/address.rs:62-69 | each octet's two digits hold no separator and parse back to the octet |
| NetAddress.MacJoinedParses | crates/netdiag-types/src/network/address.rs:62-88 | the digits joined with either separator parse back to the address |
| NetAddress.MacRoundTrip | crates/netdiag-types/src/network/address.rs:62-88 | parsing the display form gives back the address |
| NetAddress.ParseMac | crates/netdiag-types/src/network/address.rs:75-88 | filling the six octets part by part, stopping at the first bad part, computes exactly the parse |
| NetAddress.ErrorPersists | crates/netdiag-types/src/network/address.rs:80-87 | once a part fails, the result stays that failure |
| NetAddress.NetmaskBits | crates/netdiag-types/src/network/address.rs:112-121 | a prefix of 1 to 31 bits gives all ones shifted up by 32 minus the prefix |
| NetAddress.ContainsNetwork | crates/netdiag-types/src/network/address.rs:125-130 | every subnet contains its own network address |
| NetAddress.ContainsAll | crates/netdiag-types/src/network/address.rs:112-130 | a /0 subnet contains every address |
| NetAddress.ContainsOnlyNetwork | crates/netdiag-types/src/network/address.rs:112-130 | a /32 or longer subnet contains only its network address |
| NetAddress.Slash24Example | crates/netdiag-types/src/network/address.rs:112-130 | 192.168.1.0/24 has mask 255.255.255.0, contains 192.168.1.77 and not 192.168.2.1 |
| Interference.AdjacentSymmetric | crates/netdiag-wifi/src/interference.rs:210-218 | adjacency does not depend on which channel is the current one |
| Interference.AdjacentIsOverlapping | crates/netdiag-wifi/src/interference.rs:210-218 | at 2.4 GHz, for channels 1-14, being adjacent is being one of the overlapping channels |
| Interference.Severity | crates/netdiag-wifi/src/interference.rs:221-230 | one of 100, 80, 60, 40, 20, 10; 100 exactly from -50 dBm, 10 exactly below -90 dBm |
| Interference.SeverityMonotone | crates/netdiag-wifi/src/interference.rs:221-230 | a stronger signal is never less severe |
| Interference.SeparationPercent | crates/netdiag-wifi/src/interference.rs:233-251 | the share of the base severity kept is at most 100 percent |
| Interference.AdjacentSeverity | crates/netdiag-wifi/src/interference.rs:233-251 | never above the base severity; the full base one channel apart; at least 2 up to four channels apart; 0 for the same channel or further apart |
| Interference.AdjacentSeverityFalls | crates/netdiag-wifi/src/interference.rs:233-251 | channels further apart interfere less, for the same signal |
| Interference.MaxSeverityProps | crates/netdiag-wifi/src/interference.rs:267-282 | the maximum is at least every severity and is one of them |
| Interference.MeanAtMostMax | crates/netdiag-wifi/src/interference.rs:267-282 | the mean severity is at most the maximum |
| Interference.Blended | crates/netdiag-wifi/src/interference.rs:276-280 | the blend of the mean and twice the maximum is between two thirds of the maximum and the maximum |
| Interference.OverallScore | crates/netdiag-wifi/src/interference.rs:267-282 | 0 without sources; otherwise between two thirds of the maximum severity and the maximum |
| Interference.MitigationsMembers | crates/netdiag-wifi/src/interference.rs:314-327 | a mitigation is advised exactly for each non-Wi-Fi type some source has |
| Interference.RecommendationsShape | crates/netdiag-wifi/src/interference.rs:285-333 | the advice is the general advice followed by the mitigations, or else the all-clear |
| Interference.RecommendationsProps | crates/netdiag-wifi/src/interference.rs:285-333 | each piece of advice is given exactly when its condition holds |
| Interference.RecommendationsGeneral | crates/netdiag-wifi/src/interference.rs:292-312 | the congestion, adjacent-overlap and crowded-band advice each exactly when their count condition holds, and the all-clear exactly when nothing else applies |
| Interference.RecommendationsMitigate | crates/netdiag-wifi/src/interference.rs:314-327 | a mitigation is advised exactly for the non-Wi-Fi types some source has |
| Interference.RecommendationsMembers | crates/netdiag-wifi/src/interference.rs:285-333 | apart from the all-clear, the advice holds the general advice and the mitigations |
| Interference.SortProps | crates/netdiag-wifi/src/interference.rs:197 | the sort is a permutation from most to least severe |
| Interference.WifiSourcesCounts | crates/netdiag-wifi/src/interference.rs:132-163 | one source per access point on or next to the channel, as many same-channel sources as same-channel networks and as many adjacent ones as adjacent networks |
| Interference.WifiSourcesKinds | crates/netdiag-wifi/src/interference.rs:132-163 | every Wi-Fi source is a co-channel or adjacent-channel source |
| Interference.CollectWifi | crates/netdiag-wifi/src/interference.rs:132-163 | the loop yields exactly the Wi-Fi sources and the two counts |
| Interference.Analyze | crates/netdiag-wifi/src/interference.rs:117-207 | the counts, the noise flag, the score and the advice are those of the unsorted sources, and the sources come back sorted from most to least severe |
| Interference.AnalysisFacts | crates/netdiag-wifi/src/interference.rs:117-207 | the score is 0 exactly when there are no sources, and the all-clear is the only advice exactly then |
| Interference.MostSevere | crates/netdiag-wifi/src/interference.rs:341-343 | none exactly when there are no sources; otherwise a source of the highest severity |
| SignalQualities.FromRssi | crates/netdiag-wifi/src/quality.rs:23-31 | Excellent from -50 dBm, Good from -60, Fair from -70, Weak from -80, VeryWeak below, each an if-and-only-if |
| SignalQualities.Score | crates/netdiag-wifi/src/quality.rs:45-53 | 100 for Excellent, 20 less for each rating down |
| SignalQualities.FromRssiMonotone | crates/netdiag-wifi/src/quality.rs:23-53 | a stronger signal never rates or scores worse |
| SignalQualities.LinkQuality | crates/netdiag-wifi/src/quality.rs:149-153 | at most 100 percent; 0 from -100 dBm down; 100 from -30 dBm up |
| SignalQualities.LinkQualityMonotone | crates/netdiag-wifi/src/quality.rs:149-153 | a stronger signal never has a lower link quality |
| SignalQualities.SnrScore | crates/netdiag-wifi/src/quality.rs:159-171 | one of 100, 80, 60, 40 |
| SignalQualities.OverallScore | crates/netdiag-wifi/src/quality.rs:156-176 | at most 100; the link quality without an SNR; otherwise the mean of the link quality and the SNR score, rounded down |
| SignalQualities.RecommendationsProps | crates/netdiag-wifi/src/quality.rs:179-222 | no advice exactly for a signal that needs none and an SNR, if known, of at least 15 dB; each piece of advice exactly when its condition holds |
| SignalQualities.New | crates/netdiag-wifi/src/quality.rs:111-136 | the SNR is the signal minus the noise floor, present exactly with a noise floor; the rating is the signal's; no transmit rate; both scores at most 100 |
| SignalQualities.SuitabilityInverted | crates/netdiag-wifi/src/quality.rs:225-239 | as written, an excellent signal is never suitable for gaming while a -85 dBm one is, and excellent or good signals are never suitable for video or conferencing |
| SignalQualities.SuitabilityMonotone | crates/netdiag-wifi/src/quality.rs:225-239 | corrected: a stronger signal with the same noise floor keeps every suitability, gaming implies conferencing with no known rate, and a connection suitable for video scores at least 60 |
| ChannelAnalysis.AsU8 | crates/netdiag-wifi/src/channel.rs:191 | the float-to-`u8` cast truncates toward zero and saturates at 0 and 255 |
| ChannelAnalysis.ApsOn | crates/netdiag-wifi/src/channel.rs:77-82 | exactly the access points whose channel has that number, whatever their band; order and count are stated by ChannelAnalysis.ApsOnSplits |
| ChannelAnalysis.ApsOnSplits | crates/netdiag-wifi/src/channel.rs:77-82 | a single access point is kept exactly when it is on the channel, and the grouping of a concatenation is the concatenation of the groupings, so each access point on the channel appears once, in scan order, and `ap_count` is their number |
| ChannelAnalysis.MaxRssi | crates/netdiag-wifi/src/channel.rs:100 | none exactly without access points; otherwise the strongest signal among them |
| ChannelAnalysis.AvgRssi | crates/netdiag-wifi/src/channel.rs:101-105 | none exactly without access points |
| ChannelAnalysis.FindUtilization | crates/netdiag-wifi/src/channel.rs:92 | the survey found is of that channel number; none exactly when no survey is |
| ChannelAnalysis.SignalPenalty | crates/netdiag-wifi/src/channel.rs:179-187 | the signal penalty is at most 30 |
| ChannelAnalysis.LevelPenalty | crates/netdiag-wifi/src/channel.rs:194-199 | the interference-level penalty is at most 30 |
| ChannelAnalysis.Penalized | crates/netdiag-wifi/src/channel.rs:172-200 | the penalized score is at most 100 |
| ChannelAnalysis.Adjusted | crates/netdiag-wifi/src/channel.rs:203-210 | the adjusted score stays at most 100 |
| ChannelAnalysis.ChannelScore | crates/netdiag-wifi/src/channel.rs:167-213 | a channel score is at most 100 |
| ChannelAnalysis.CalculateChannelScore | crates/netdiag-wifi/src/channel.rs:167-213 | the step-by-step updates compute exactly the specified score |
| ChannelAnalysis.ScoreOfEmptyChannel | crates/netdiag-wifi/src/channel.rs:167-213 | an empty, unsurveyed channel scores 100, or 95 in the DFS number range, and a channel in that range never scores above 95 |
| ChannelAnalysis.SignalPenaltyMonotone | crates/netdiag-wifi/src/channel.rs:179-187 | a stronger strongest signal never costs less |
| ChannelAnalysis.ScoreFallsWithAps | crates/netdiag-wifi/src/channel.rs:167-213 | one more access point on a channel never raises its score |
| ChannelAnalysis.PenalizedMonotone | crates/netdiag-wifi/src/channel.rs:172-200 | more access points or a stronger signal never raise the penalized score |
| ChannelAnalysis.AdjustedMonotone | crates/netdiag-wifi/src/channel.rs:203-210 | the band and DFS adjustments keep the order of scores |
| ChannelAnalysis.Ghz5Channels | crates/netdiag-wifi/src/channel.rs:112-117 | 25 channels at 5 GHz |
| ChannelAnalysis.InfoFor | crates/netdiag-wifi/src/channel.rs:88-140 | the info holds the channel built from its number and band, the number of access points on it and its survey, and is DFS exactly at 5 GHz in 52-144 |
| ChannelAnalysis.DfsFlagAgrees | crates/netdiag-wifi/src/channel.rs:125 | on every channel the analysis lists, its DFS flag (52-144 at 5 GHz) equals `Channel::is_dfs` of the info's channel (52-64 and 100-144 at 5 GHz), since no listed channel lies between 64 and 100 |
| ChannelAnalysis.RowsAt | crates/netdiag-wifi/src/channel.rs:88-141 | one info per channel, in order |
| ChannelAnalysis.Ghz2_4Channels | crates/netdiag-wifi/src/channel.rs:88 | channels 1 to 14 |
| ChannelAnalysis.ChannelInfoOf | crates/netdiag-wifi/src/channel.rs:89-108 | the info pushed for a channel is the specified one |
| ChannelAnalysis.Build2_4GHz | crates/netdiag-wifi/src/channel.rs:88-109 | the first loop yields exactly the 2.4 GHz rows |
| ChannelAnalysis.Append5GHz | crates/netdiag-wifi/src/channel.rs:119-141 | the second loop appends exactly the 5 GHz rows |
| ChannelAnalysis.BuildChannels | crates/netdiag-wifi/src/channel.rs:85-141 | the two loops fill exactly the channel table |
| ChannelAnalysis.ChannelTableShape | crates/netdiag-wifi/src/channel.rs:85-141 | the table lists channels 1-14 at 2.4 GHz, then the 25 channels at 5 GHz; only 5 GHz channels are DFS; every score is at most 100 |
| ChannelAnalysis.BestOf | crates/netdiag-wifi/src/channel.rs:232-245 | none exactly for no infos; otherwise one with the highest score |
| ChannelAnalysis.BestIsLast | crates/netdiag-wifi/src/channel.rs:232-245 | ties go to the later channel, as `max_by_key` does |
| ChannelAnalysis.InBand | crates/netdiag-wifi/src/channel.rs:234 | exactly the infos of that band; order is stated by ChannelAnalysis.InBandSplits |
| ChannelAnalysis.InBandSplits | crates/netdiag-wifi/src/channel.rs:234 | a single info is kept exactly when it is of the band, and the filter of a concatenation is the concatenation of the filters, so each info of the band appears once, in table order |
| ChannelAnalysis.Ghz5 | crates/netdiag-wifi/src/channel.rs:239-244 | exactly the 5 GHz infos with or without the DFS flag; order is stated by ChannelAnalysis.Ghz5Splits |
| ChannelAnalysis.Ghz5Splits | crates/netdiag-wifi/src/channel.rs:239-244 | a single info is kept exactly when it is at 5 GHz with the DFS flag asked for, and the filter of a concatenation is the concatenation of the filters, so each such info appears once, in table order |
| ChannelAnalysis.CurrentScore | crates/netdiag-wifi/src/channel.rs:222-229 | 0 without a current channel |
| ChannelAnalysis.Propose | crates/netdiag-wifi/src/channel.rs:248-261 | a proposal exactly when the best channel beats the current score by more than the margin |
| ChannelAnalysis.Best2_4Candidate | crates/netdiag-wifi/src/channel.rs:264-269 | a 2.4 GHz candidate is only proposed on a 2.4 GHz current channel and when it is another channel |
| ChannelAnalysis.Best5 | crates/netdiag-wifi/src/channel.rs:237-245 | the best 5 GHz channel has the DFS flag asked for |
| ChannelAnalysis.SortSortedIsIdentity | crates/netdiag-wifi/src/channel.rs:303 | sorting a list already in priority order leaves it as it is |
| ChannelAnalysis.RecommendationsProps | crates/netdiag-wifi/src/channel.rs:216-306 | the recommendations come in priority order 1, 2, 3, at most one of each, each naming the best channel of its group and beating the current score by more than 15, 10 or 25 |
| ChannelAnalysis.ProposalsInOrder | crates/netdiag-wifi/src/channel.rs:248-300 | the proposals are pushed in strictly increasing priority |
| ChannelAnalysis.ProposalsMembers | crates/netdiag-wifi/src/channel.rs:248-300 | each proposal's channel, margin and improvement |
| ChannelAnalysis.FirstOccupied | crates/netdiag-wifi/src/channel.rs:327 | the first info with an access point, and none exactly when no channel has one |
| ChannelAnalysis.HealthScore | crates/netdiag-wifi/src/channel.rs:309-330 | with a survey, at most 100 less the utilization, and at most 60 under severe interference; without one, the first occupied channel's score, else 50 |
| ChannelAnalysis.Clip | crates/netdiag-wifi/src/channel.rs:314 | the utilization is read within 0 to 100 |
| ChannelAnalysis.Analyze | crates/netdiag-wifi/src/channel.rs:72-164 | the channel table, the current channel's survey, the recommendations and a health score of at most 100 |
| ChannelAnalysis.BestChannel | crates/netdiag-wifi/src/channel.rs:333-338 | a channel of the band with the highest score, and none exactly when the band has no channel |
| ChannelAnalysis.NonOverlapping2_4GHz | crates/netdiag-wifi/src/channel.rs:341-348 | exactly the 2.4 GHz infos of channels 1, 6 and 11; order is stated by ChannelAnalysis.NonOverlappingSplits |
| ChannelAnalysis.NonOverlappingSplits | crates/netdiag-wifi/src/channel.rs:341-348 | a single info is kept exactly when it is 2.4 GHz channel 1, 6 or 11, and the filter of a concatenation is the concatenation of the filters, so each such info appears once, in table order |
| SecurityAnalysis.RatingScore | crates/netdiag-wifi/src/security.rs:59-67 | at most 100, and 0 exactly for no security |
| SecurityAnalysis.RatingScoreMonotone | crates/netdiag-wifi/src/security.rs:31-67 | a better rating always has the higher score, and only then |
| SecurityAnalysis.Remediation | crates/netdiag-wifi/src/security.rs:143-239 | no issue kind has an empty remediation |
| SecurityAnalysis.ConnectionCritical | crates/netdiag-wifi/src/security.rs:138-242 | a connection has a critical issue exactly when it is open or uses WEP, and has an issue unless it uses open authentication with encryption |
| SecurityAnalysis.ApIssuesProps | crates/netdiag-wifi/src/security.rs:267-286 | a scanned access point has one issue exactly when it is open or uses WEP, and it is critical |
| SecurityAnalysis.ProtocolIssues | crates/netdiag-wifi/src/security.rs:140-229 | no contract; stated by SecurityAnalysis.ConnectionCritical and SecurityAnalysis.DeductionsBounded |
| SecurityAnalysis.ConnectionIssues | crates/netdiag-wifi/src/security.rs:137-242 | no contract; stated by SecurityAnalysis.ConnectionCritical, SecurityAnalysis.DeductionsBounded and SecurityAnalysis.ConnectionScores |
| SecurityAnalysis.ApIssues | crates/netdiag-wifi/src/security.rs:267-286 | no contract; stated by SecurityAnalysis.ApIssuesProps |
| SecurityAnalysis.CalculateRating | crates/netdiag-wifi/src/security.rs:303-324 | none for open authentication, weak for WEP and WPA, good for WPA2 with enterprise keys or required PMF, excellent for WPA3, each an if-and-only-if; fair otherwise |
| SecurityAnalysis.CalculateScore | crates/netdiag-wifi/src/security.rs:327-343 | the rating's score less the deductions, floored at 0: never above the rating's score and 0 exactly when the deductions reach it |
| SecurityAnalysis.Deduction | crates/netdiag-wifi/src/security.rs:333-339 | no contract; stated by SecurityAnalysis.CalculateScore, SecurityAnalysis.DeductionsBounded and SecurityAnalysis.ConnectionScores |
| SecurityAnalysis.DeductionsBounded | crates/netdiag-wifi/src/security.rs:327-343 | the deductions of either analysis never exceed 30, so the `u8` sum cannot overflow |
| SecurityAnalysis.ConnectionScores | crates/netdiag-wifi/src/security.rs:132-259 | the score of a connection for each kind of network: 0 open, 10 WEP, 20 WPA, 100 WPA3, 55 OWE, and the WPA2 cases |
| SecurityAnalysis.RemediationsMembers | crates/netdiag-wifi/src/security.rs:350-355 | a remediation is collected exactly for an issue of medium severity or worse |
| SecurityAnalysis.GenerateRecommendations | crates/netdiag-wifi/src/security.rs:346-369 | the remediations of the issues of medium severity or worse and the general advice, sorted without duplicates, each an if-and-only-if |
| SecurityAnalysis.ConnectionRecommendations | crates/netdiag-wifi/src/security.rs:132-259 | the sorted recommendations of a connection, network kind by kind |
| SecurityAnalysis.OpenRecommendations | crates/netdiag-wifi/src/security.rs:141-154 | an open connection gets the open-network remediation and the VPN advice, in that order |
| SecurityAnalysis.WepRecommendations | crates/netdiag-wifi/src/security.rs:155-164 | a WEP connection gets the WEP upgrade and the VPN advice, in that order |
| SecurityAnalysis.WepRemedies | crates/netdiag-wifi/src/security.rs:155-164 | a WEP connection's one remediation is the upgrade, and its general advice is the VPN |
| SecurityAnalysis.WpaRecommendations | crates/netdiag-wifi/src/security.rs:165-173 | a WPA connection gets the WPA3 upgrade and the legacy-WPA remediation |
| SecurityAnalysis.Wpa2PersonalRecommendations | crates/netdiag-wifi/src/security.rs:186-206 | a WPA2-Personal connection gets the WPA3 upgrade and the KRACK remediation |
| SecurityAnalysis.RecommendationsFromMembers | crates/netdiag-wifi/src/security.rs:365-366 | sorting and removing duplicates leaves the one strictly sorted list with those members |
| SecurityAnalysis.AnalyzeConnection | crates/netdiag-wifi/src/security.rs:132-259 | the analysis carries the protocol, the connection's issues, the rating, the score within the rating's, and the sorted recommendations |
| SecurityAnalysis.AnalyzeAp | crates/netdiag-wifi/src/security.rs:262-300 | the analysis carries the protocol, the access point's issues, the rating, the score within the rating's, and the sorted recommendations |
| SecurityAnalysis.CriticalIssues | crates/netdiag-wifi/src/security.rs:377-382 | exactly the critical issues; order is stated by SecurityAnalysis.CriticalSplits |
| SecurityAnalysis.CriticalSplits | crates/netdiag-wifi/src/security.rs:377-382 | a single issue is kept exactly when it is critical, and the filter of a concatenation is the concatenation of the filters, so each critical issue appears once, in the order found |
| SecurityAnalysis.IsSecureInverted | crates/netdiag-wifi/src/security.rs:372-374 | as written, an open network counts as secure, and WPA3 and WPA2-Enterprise do not |
| SecurityAnalysis.IsSecureProps | crates/netdiag-wifi/src/security.rs:372-374 | corrected: secure means a rating score of at least 60; for a protocol's own rating, exactly WPA2, WPA3 and OWE are secure |
| WifiSecurityTypes.Open | crates/netdiag-types/src/wifi/security.rs:24-32 | the open preset is open, not enterprise, without PMF |
| WifiSecurityTypes.Wpa2Personal | crates/netdiag-types/src/wifi/security.rs:36-44 | WPA2-Personal is secured, not enterprise, without PMF, at level 3 |
| WifiSecurityTypes.Wpa3Personal | crates/netdiag-types/src/wifi/security.rs:48-56 | WPA3-Personal requires PMF, at level 4 |
| WifiSecurityTypes.Wpa2Enterprise | crates/netdiag-types/src/wifi/security.rs:60-68 | WPA2-Enterprise is enterprise, without PMF, at level 3 |
| WifiSecurityTypes.SecurityLevel | crates/netdiag-types/src/wifi/security.rs:87-96 | at most 4; 0 exactly when open, 1 exactly for WEP, 3 exactly for WPA2, 4 exactly for WPA3 |
| WifiSecurityTypes.IsOpen | crates/netdiag-types/src/wifi/security.rs:72-75 | no contract; stated by WifiSecurityTypes.SecurityLevel, WifiSecurityTypes.DisplayOpenIff and the presets |
| WifiSecurityTypes.IsEnterprise | crates/netdiag-types/src/wifi/security.rs:78-83 | no contract; stated by WifiSecurityTypes.Wpa2Enterprise, the other presets and WifiSecurityTypes.DisplayShape |
| WifiSecurityTypes.ToDisplayString | crates/netdiag-types/src/wifi/security.rs:100-125 | "Open" for an open network |
| WifiSecurityTypes.DisplayOpenIff | crates/netdiag-types/src/wifi/security.rs:100-125 | the text is "Open" exactly when the network is open |
| WifiSecurityTypes.DisplayShape | crates/netdiag-types/src/wifi/security.rs:100-125 | a secured network's text starts with its authentication name, then `/` in transition mode and `-` otherwise; an enterprise network outside transition mode ends in "Enterprise" |
| WifiSecurityTypes.TransitionName | crates/netdiag-types/src/wifi/security.rs:127-137 | the older method's name is never empty |
| WifiSecurityTypes.PresetTexts | crates/netdiag-types/src/wifi/security.rs:100-125 | the presets read "Open", "WPA2-Personal", "WPA3-Personal", "WPA2-Enterprise", and WPA3 in transition mode "WPA3/WPA2" |
| SslGrades.AsStr | crates/netdiag-integrations/src/ssllabs.rs:552-565 | every grade's text has one or two characters |
| SslGrades.FromStr | crates/netdiag-integrations/src/ssllabs.rs:535-549 | a grade parsed from a text has exactly that text |
| SslGrades.FromStrAsStr | crates/netdiag-integrations/src/ssllabs.rs:535-565 | every grade reads back from its own text |
| SslGrades.FromStrExact | crates/netdiag-integrations/src/ssllabs.rs:535-549 | a text is rejected exactly when it is no grade's text |
| SslGrades.AsStrInjective | crates/netdiag-integrations/src/ssllabs.rs:552-565 | no two grades share a text |
| SslGrades.PassingTexts | crates/netdiag-integrations/src/ssllabs.rs:568-570 | the passing grades are exactly those whose text starts with 'A', and "B" |
| SslGrades.IsPassing | crates/netdiag-integrations/src/ssllabs.rs:568-570 | no contract; stated by SslGrades.PassingTexts |
| StorageModels.TypeAsStr | crates/netdiag-storage/src/models.rs:42-49 | every session type's text is non-empty lower-case letters |
| StorageModels.TypeFromStr | crates/netdiag-storage/src/models.rs:55-63 | a type parsed from a text has that text in lower case; otherwise the error names the text |
| StorageModels.StatusAsStr | crates/netdiag-storage/src/models.rs:82-89 | every status's text is non-empty lower-case letters |
| StorageModels.StatusFromStr | crates/netdiag-storage/src/models.rs:95-103 | a status parsed from a text has that text in lower case; otherwise the error names the text |
| StorageModels.TypeRoundTrip | crates/netdiag-storage/src/models.rs:42-63 | any text that lower-cases to a type's text parses to that type |
| StorageModels.StatusRoundTrip | crates/netdiag-storage/src/models.rs:82-103 | any text that lower-cases to a status's text parses to that status |
| StorageModels.TypeUnknown | crates/netdiag-storage/src/models.rs:55-63 | a text that lower-cases to no type's text is rejected |
| StorageModels.StatusUnknown | crates/netdiag-storage/src/models.rs:95-103 | a text that lower-cases to no status's text is rejected |
| StorageModels.UpperCaseExample | crates/netdiag-storage/src/models.rs:55-63 | "QUICK" parses as a quick session |
| StorageModels.LongerTextRejected | crates/netdiag-storage/src/models.rs:55-63 | "quickly" is not a session type |
| IpAddrs.ParseIp | crates/netdiag-connectivity/src/traceroute.rs:208-222 | an address read from a part is a valid IPv4 address |
| IpAddrs.ParseDisplayIpv4 | crates/netdiag-connectivity/src/traceroute.rs:208-222 | reading the dotted form of an IPv4 address gives the address back |
| TuiApp.Index | crates/netdiag-tui/src/app.rs:59-68 | every tab's index is below the number of tabs (six) |
| TuiApp.AllTabs | crates/netdiag-tui/src/app.rs:35-44 | the list holds six tabs and the tab at position i has index i |
| TuiApp.FromIndex | crates/netdiag-tui/src/app.rs:71-81 | the tab returned has index `idx` modulo six, so an out-of-range index wraps around |
| TuiApp.IndexInjective | crates/netdiag-tui/src/app.rs:59-68 | two tabs with the same index are the same tab |
| TuiApp.FromIndexIndex | crates/netdiag-tui/src/app.rs:59-81 | `from_index` inverts `index` |
| TuiApp.NextPrevIndex | crates/netdiag-tui/src/app.rs:434-445 | Right adds one to the tab index and Left subtracts one, both modulo six |
| TuiApp.NextPrevInverse | crates/netdiag-tui/src/app.rs:434-445 | Left undoes Right and Right undoes Left; Right from WiFi gives Dashboard and Left from Dashboard gives WiFi |
| TuiApp.AdvanceIndex | crates/netdiag-tui/src/app.rs:434-437 | k presses of Right add k to the tab index, modulo six |
| TuiApp.RightReachesEveryTab | crates/netdiag-tui/src/app.rs:434-437 | from any tab, fewer than six presses of Right reach any other tab |
| TuiApp.Displays | crates/netdiag-tui/src/app.rs:329-337 | one display row per probe result, in order, each built from that result |
| TuiApp.KeepLast | crates/netdiag-tui/src/app.rs:350-353 | the result has length min(n, \|s\|) and is the suffix of s of that length |
| TuiApp.KeepFirst | crates/netdiag-tui/src/app.rs:366-369 | the result has length min(n, \|s\|) and is the prefix of s of that length |
| TuiApp.PushRttKeepsLast | crates/netdiag-tui/src/app.rs:340-345 | pushing onto the last 50 times and dropping the front past 50 gives the last 50 of the extended history |
| TuiApp.RttFoldKeepsLast | crates/netdiag-tui/src/app.rs:329-348 | from a history of at most 50, the per-result pushes leave exactly the last 50 round-trip times received |
| TuiApp.PushDns | crates/netdiag-tui/src/app.rs:364-371 | the new answer is first, the old answers follow in order, and a list within 20 stays within 20 |
| TuiApp.PushDnsKeepsFirst | crates/netdiag-tui/src/app.rs:366-369 | inserting at the front of the first 20 and popping past 20 gives the first 20 of the extended list |
| TuiApp.DnsNewestFirst | crates/netdiag-tui/src/app.rs:364-371 | from a list of at most 20, a run of answers leaves the 20 newest answers, newest first |
| TuiApp.AppendPingRows | crates/netdiag-tui/src/app.rs:329-348 | the loop appends one display row per result and leaves the sparkline history equal to the capped fold of the times |
| TuiApp.Initial | crates/netdiag-tui/src/app.rs:241-271 | the new application is on the Dashboard, not in input mode, not quitting, with every result list empty and within its cap |
| TuiApp.PopChar | crates/netdiag-tui/src/app.rs:526-537 | `String::pop` leaves the empty string alone and otherwise drops exactly the last character |
| TuiApp.DigitTab | crates/netdiag-tui/src/app.rs:448-453 | exactly the keys 1 to 6 select a tab, and key d selects the tab with index d - 1 |
| TuiApp.ReceivedBounded | crates/netdiag-tui/src/app.rs:322-411 | every task message keeps the sparkline within 50, the ping rows within 100, the DNS list within 20 and the selection in range |
| TuiApp.PingRunKeepsNewest | crates/netdiag-tui/src/app.rs:324-359 | after a ping result the sparkline is the last 50 times, the list is the last 100 rows, the ping is no longer running and its statistics are stored |
| TuiApp.DnsAnswerFirst | crates/netdiag-tui/src/app.rs:364-371 | a DNS answer goes first, the earlier answers follow in order, and the list grows by one up to 20 |
| TuiApp.InputKeyedBounded | crates/netdiag-tui/src/app.rs:517-552 | a key in input mode keeps every list within its cap and the selection in range |
| TuiApp.CharPressedBounded | crates/netdiag-tui/src/app.rs:429-513 | a character key outside input mode keeps every list within its cap and the selection in range |
| TuiApp.PressedBounded | crates/netdiag-tui/src/app.rs:423-514 | any key press keeps every list within its cap and the selection in range |
| TuiApp.NavigationWraps | crates/netdiag-tui/src/app.rs:434-445 | outside input mode Tab and Right move one tab forward and BackTab and Left one back, wrapping around; Tab acts as Right and BackTab as Left |
| TuiApp.Received | crates/netdiag-tui/src/app.rs:322-411 | no contract; stated by TuiApp.ReceivedBounded, TuiApp.PingRunKeepsNewest and TuiApp.DnsAnswerFirst |
| TuiApp.Pressed | crates/netdiag-tui/src/app.rs:423-514 | no contract; stated by TuiApp.PressedBounded and TuiApp.NavigationWraps |
| TuiApp.CharPressed | crates/netdiag-tui/src/app.rs:429-513 | no contract; stated by TuiApp.CharPressedBounded, and through `Pressed` by TuiApp.SelectionMoves |
| TuiApp.InputKeyed | crates/netdiag-tui/src/app.rs:517-552 | no contract; stated by TuiApp.InputKeyedBounded, and through `Pressed` by TuiApp.TypingEdits, TuiApp.BackspaceUndoesTyping and TuiApp.EnterStartsPing |
| TuiApp.SelectionMoves | crates/netdiag-tui/src/app.rs:494-503 | Down moves the selection up by one only while it stays below the number of interfaces; Up moves it down by one and stops at 0 |
| TuiApp.RefreshSelection | crates/netdiag-tui/src/app.rs:456-461 | `r` replaces the interface list and keeps the selection if it is still in range, else resets it to 0 |
| TuiApp.TypingEdits | crates/netdiag-tui/src/app.rs:538-549 | in input mode a character never quits, never changes the tab, stays in input mode, and on the Ping tab is appended to the target |
| TuiApp.BackspaceUndoesTyping | crates/netdiag-tui/src/app.rs:526-549 | in input mode, a character followed by Backspace restores the whole state |
| TuiApp.EnterStartsPing | crates/netdiag-tui/src/app.rs:522-561 | Enter leaves input mode; the ping then runs exactly when it was running or the target is non-empty, and a new ping reports that it is pinging the target |
| TuiApp.App.constructor | crates/netdiag-tui/src/app.rs:241-271 | the object's state is the initial state |
| TuiApp.App.OnTick | crates/netdiag-tui/src/app.rs:414-420 | a tick only sets the last-update time to the clock reading |
| TuiApp.App.HandleTaskMessage | crates/netdiag-tui/src/app.rs:322-411 | the fields change exactly as `Received` says: a result or error ends its tool's run, ping and DNS results enter their capped buffers, and traceroute hops are appended |
| TuiApp.App.HandleDns | crates/netdiag-tui/src/app.rs:364-375 | a DNS answer or error updates the state as `Received` defines |
| TuiApp.App.HandleTraceroute | crates/netdiag-tui/src/app.rs:376-401 | a traceroute hop, completion or error updates the state as `Received` defines |
| TuiApp.App.HandleOther | crates/netdiag-tui/src/app.rs:360-409 | a ping error or a WiFi message updates the state as `Received` defines |
| TuiApp.App.AddPingResults | crates/netdiag-tui/src/app.rs:324-359 | a ping result updates the state as `Received` defines |
| TuiApp.App.StartPing | crates/netdiag-tui/src/app.rs:577-583 | the ping is marked running and the status says it is pinging the target |
| TuiApp.App.StartDnsLookup | crates/netdiag-tui/src/app.rs:629-634 | the DNS lookup is marked running and the status names the target |
| TuiApp.App.StartTraceroute | crates/netdiag-tui/src/app.rs:654-660 | the traceroute is marked running, its hops are cleared and the status names the target |
| TuiApp.App.ExecuteCommand | crates/netdiag-tui/src/app.rs:555-574 | the current tab's tool starts only when its target is non-empty and it is not already running |
| TuiApp.App.RefreshInterfaces | crates/netdiag-tui/src/app.rs:709-731 | the interface list is replaced and an out-of-range selection is reset to 0 |
| TuiApp.App.RefreshWifi | crates/netdiag-tui/src/app.rs:734-737 | the WiFi scan is marked running |
| TuiApp.App.HandleInputKey | crates/netdiag-tui/src/app.rs:517-552 | Esc leaves input mode, Enter leaves it and executes, Backspace and characters edit the current tab's target |
| TuiApp.App.Type | crates/netdiag-tui/src/app.rs:538-549 | the character is appended to the current tab's target |
| TuiApp.App.Erase | crates/netdiag-tui/src/app.rs:526-537 | the current tab's target loses its last character |
| TuiApp.App.OnEnter | crates/netdiag-tui/src/app.rs:464-472 | Enter or `i` enters input mode on the Ping, DNS and Traceroute tabs and refreshes WiFi on the WiFi tab |
| TuiApp.App.ClearResults | crates/netdiag-tui/src/app.rs:475-491 | `c` clears the current tab's results and reports that they were cleared |
| TuiApp.App.SelectUp | crates/netdiag-tui/src/app.rs:494-498 | the selection moves down by one unless it is 0 |
| TuiApp.App.SelectDown | crates/netdiag-tui/src/app.rs:499-503 | the selection moves up by one only while it stays below the number of interfaces |
| TuiApp.App.OnChar | crates/netdiag-tui/src/app.rs:429-513 | a character key outside input mode updates the state as `CharPressed` defines |
| TuiApp.App.OnKey | crates/netdiag-tui/src/app.rs:423-514 | the fields change exactly as `Pressed` says: input mode takes every key first, and outside it `q` quits, the arrows and Tab cycle the tabs, 1-6 pick one, and the other keys refresh, clear, select or ping |
| Durations.MsToDuration | crates/netdiag-connectivity/src/ping.rs:192 | a non-negative number of milliseconds becomes the nearest whole nanosecond count, halves rounding up (ties to even in the source; see Left out) |
| Durations.Sort | crates/netdiag-types/src/diagnostics/ping.rs:131 | the sorted copy is in non-decreasing order and a permutation of the input |
| StringOrder.SortDedupProps | crates/netdiag-wifi/src/security.rs:365-366 | `sort` then `dedup` leaves a strictly increasing list holding exactly the input's strings |
| StringOrder.StrictlySortedUnique | crates/netdiag-wifi/src/security.rs:365-366 | two strictly increasing lists with the same strings are equal, so the sorted, deduplicated list is determined by the set of strings |

## Left out

- Process spawning, sockets, files, the platform providers and the async runtime are left out. Their observable results enter the model as parameters:
  - what a ping, traceroute or monitoring check printed or observed;
  - the interface list and the platform's privilege level and DNS servers;
  - whether a fix applied and whether it verified;
  - whether restoring a rollback point worked;
  - the clock and freshly generated identifiers.
- Floating-point numerics are left out where they are more than threshold comparisons:
  - the E-model R-factor and MOS formula (only the MOS-to-rating table is modelled);
  - square roots, so a standard deviation is kept as its variance;
  - the speed test's consistency statistics (only the `from_cv` table is modelled).
- Durations.MsToDuration: an exact half-nanosecond tie rounds up, where `Duration::from_secs_f64` rounds it to even (0.9765625 ms is 976562 ns in the source and 976563 ns in the model); other float rounding is not modelled either.
- `f64` parsing accepts a decimal subset: digits with an optional fractional part. Exponents, `inf` and `nan` are not modelled.
- Text parsing covers ASCII only:
  - whitespace;
  - `to_lowercase` (other letters are left unchanged);
  - IPv4 dotted quads (an IPv6 address is carried as a value but never parsed or displayed).
- Free-text fields are not modelled. This covers:
  - fix, rollback point and channel recommendation descriptions;
  - the reasons and expected improvements of channel recommendations;
  - the formatted issue descriptions and details of the path analyzer and the reports;
  - the report's id, timestamp, version and raw data.
  Where the source pushes a fixed advice text, the model pushes a value that names that advice.
- PathAnalyzer.RecommendationsProps: duplicates are removed by advice value. This matches the source's removal by text because the advice texts are pairwise distinct. That distinctness is not proved.
- `identify_isp` and `guess_service_type` in the path analyzer, and the network-owner lookup of a segment, are not modelled. They are lookups against name tables.
- TracerouteTypes.LatencyJumps: the result holds hop indices with the jump, where the source holds references to the hops.
- TracerouteTypes.CalculateStats: the source mutates a hop inside a vector. The model returns the updated hop as a value.
- TracerouteParser.WalkHostThenAddress: the source's literal example line is covered by this lemma's general form (a hostname, then an address in parentheses, then times). The literal line itself is not evaluated.
- PingParser.ParsePingOutput: the line counter is a `u16` in the source. The model numbers lines with unbounded naturals, so the overflow after 65535 accepted lines is not modelled. The summary's numbering does keep the `u16` truncation.
- WifiChannel.OverlappingProps: for a 2.4 GHz channel number of 252 or more, the source's `u8` addition `number + 4` overflows.
  - A debug build panics; the model does not capture the panic.
  - The model gives the empty list, which is what a wrapping build also gives.
- FixEngine.ExecuteWithRollback: the rollback manager's final state is stated only for a dry run, where it is unchanged. For a real run, the points created are stated by FixEngine.CreateRollbackPoint, one call at a time.
- FixEngine: writing rollback points to disk is treated as always succeeding, so the I/O error paths of `persist` are not modelled. Likewise the real fix commands and the sleep in `verify_fix`.
- Rollback: `restore_state` and the DNS restore functions are effects whose outcome is a parameter. The points file is neither read nor written. `init` takes the map that was read, if any, and its filter is modelled.
- Reports: the `ReportBuilder` setters are plain record updates and carry no contract of their own. `build` and its health assessment are specified.
- ChannelAnalysis: access points are grouped by channel number alone, whatever their band, as the source's map keyed by number does.
- Monitor: the timed loop that calls `run_checks` is not modelled. The alerts a round raises are returned as a list instead of being sent on the alert channel.
- DaemonConfig: TOML loading and saving and the platform-dependent default paths are not modelled.
- TuiApp: not modelled:
  - the `task_tx` and `task_rx` message channel and the spawned background jobs;
  - `check_connectivity_status`, which only spawns a gateway ping and discards its result, so it has no effect on the application state; the gateway, internet and DNS status flags are set only by `App::new` and stay `None`;
  - the event loop in `run`;
  - the drawing code.
  The `r` key is modelled as refreshing the interfaces and WiFi and setting the status.
- FixActions.NewPlan, FixActions.TotalTime: the estimated total time is an unbounded natural, so the overflow of the source's `u32` sum (crates/netdiag-autofix/src/actions.rs:303) is not modelled.
- CaptureStatistics.CaptureStats.Update, CaptureStatistics.Tracked, CaptureStatistics.Bump: the packet, byte, address and port counters are unbounded naturals, so the overflow of the source's `u64` counters (crates/netdiag-capture/src/stats.rs:68-78) is not modelled.
- Decode: slicing raw frames into headers is the work of an external parser and is not modelled.
- AccessPoints: the rates, capabilities, standard and country of an access point are not modelled. None of the analyses reads them.
- Everything outside the decision logic is not part of this model:
  - the platform-specific parsers;
  - the speed test clients and the remaining integrations;
  - the storage repositories;
  - the daemon's service and IPC layers and the scheduler;
  - the report formatters, the command-line interface and the desktop commands.

## Findings

| source | as written | input that shows it | evidently intended | confidence | as-written member | corrected member |
|---|---|---|---|---|---|---|
| crates/netdiag-wifi/src/security.rs:372-374 | `is_secure` tests `rating >= Fair`, but the derived order runs Excellent < Good < Fair < Weak < None | an open network (rating None) counts as secure; a WPA3 network (Excellent) does not | secure means a rating of Fair or better | not executed | SecurityAnalysis.IsSecureInverted | SecurityAnalysis.IsSecureProps |
| crates/netdiag-wifi/src/quality.rs:225-239 | `suitable_for_*` test `quality >= Good` (or `>= Fair`), but the derived order runs Excellent < Good < ... < VeryWeak | an Excellent signal at -40 dBm is not suitable for gaming; a -85 dBm signal is | suitable means a quality at least as good as the threshold | not executed | SignalQualities.SuitabilityInverted | SignalQualities.SuitabilityMonotone |
| crates/netdiag-types/src/wifi/channel.rs:52-63 | `from_frequency` subtracts 2407 (or 5950) in `u32` from frequencies it accepts from 2400 (or 5925) MHz | 2400 MHz underflows: it panics in a debug build and reads as channel 49 in a wrapping build; 5925 MHz reads as channel 46 | frequencies below a band's channel 0 give channel 0 | not executed | WifiChannel.UnderflowExample | WifiChannel.NumberRoundTrip |
