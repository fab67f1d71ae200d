/**
 * The speed classifier of the background worker (analyzeNetworkSpeed).
 * It turns one network sample into the class the extension acts on:
 * '5g' when the link is faster than the threshold, '4g' otherwise.
 */
module Classifier {

  /** The class the manager believes the link is in; 'unknown' is only the initial value. */
  datatype NetworkType = Unknown | FourG | FiveG

  /** The result of one throughput probe: Mbps, milliseconds, and whether the probe completed. */
  datatype SpeedTest = SpeedTest(speed: real, latency: real, success: bool)

  /** What the probe reports when the request fails, is refused or times out. */
  const FailedSpeedTest: SpeedTest := SpeedTest(0.0, 999.0, false)

  /**
   * One sample as getNetworkInformation assembles it: the browser's `downlink`
   * hint (0 when the connection API is missing or reports nothing) and the probe result.
   */
  datatype NetworkInfo = NetworkInfo(downlink: real, test: SpeedTest)

  /** The probe completed and measured a positive speed, so its value is trusted. */
  predicate HasMeasuredSpeed(info: NetworkInfo) {
    info.test.success && info.test.speed > 0.0
  }

  /** The strict comparison against the threshold. */
  function ClassOf(speed: real, threshold: real): NetworkType {
    if speed > threshold then FiveG else FourG
  }

  /**
   * The measured speed if it is usable, else a positive `downlink`, else no
   * signal at all, in which case the link is taken to be '4g'.
   */
  function AnalyzeNetworkSpeed(info: NetworkInfo, threshold: real): (t: NetworkType)
    ensures t != Unknown
  {
    if HasMeasuredSpeed(info) then ClassOf(info.test.speed, threshold)
    else if info.downlink > 0.0 then ClassOf(info.downlink, threshold)
    else FourG
  }

  /** A usable measurement decides alone; the comparison is strict. */
  lemma MeasuredSpeedDecides(info: NetworkInfo, threshold: real)
    requires HasMeasuredSpeed(info)
    ensures AnalyzeNetworkSpeed(info, threshold) == FiveG <==> info.test.speed > threshold
    ensures AnalyzeNetworkSpeed(info, threshold) == FourG <==> info.test.speed <= threshold
    ensures info.test.speed == threshold ==> AnalyzeNetworkSpeed(info, threshold) == FourG
  {
  }

  /** With a usable measurement, the browser's hint has no influence at all. */
  lemma MeasuredSpeedTakesPrecedence(info: NetworkInfo, otherDownlink: real, threshold: real)
    requires HasMeasuredSpeed(info)
    ensures AnalyzeNetworkSpeed(info, threshold) == AnalyzeNetworkSpeed(info.(downlink := otherDownlink), threshold)
  {
  }

  /** Without a usable measurement, a positive hint is compared in the same strict way. */
  lemma DownlinkIsFallback(info: NetworkInfo, threshold: real)
    requires !HasMeasuredSpeed(info) && info.downlink > 0.0
    ensures AnalyzeNetworkSpeed(info, threshold) == FiveG <==> info.downlink > threshold
    ensures AnalyzeNetworkSpeed(info, threshold) == AnalyzeNetworkSpeed(NetworkInfo(info.downlink, FailedSpeedTest), threshold)
  {
  }

  /** No usable signal gives '4g', whatever the threshold, even a negative one. */
  lemma NoSignalIsFourG(info: NetworkInfo, threshold: real)
    requires !HasMeasuredSpeed(info) && info.downlink <= 0.0
    ensures AnalyzeNetworkSpeed(info, threshold) == FourG
  {
  }

  /** A failed probe contributes nothing: only the hint is left to decide. */
  lemma FailedProbeIgnored(downlink: real, test: SpeedTest, threshold: real)
    requires !test.success
    ensures AnalyzeNetworkSpeed(NetworkInfo(downlink, test), threshold)
         == AnalyzeNetworkSpeed(NetworkInfo(downlink, FailedSpeedTest), threshold)
  {
  }

  /** Raising the threshold can only turn '5g' into '4g', never the other way. */
  lemma ThresholdAntitone(info: NetworkInfo, lower: real, higher: real)
    requires lower <= higher
    ensures AnalyzeNetworkSpeed(info, higher) == FiveG ==> AnalyzeNetworkSpeed(info, lower) == FiveG
    ensures AnalyzeNetworkSpeed(info, lower) == FourG ==> AnalyzeNetworkSpeed(info, higher) == FourG
  {
  }
}
