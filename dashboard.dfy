/**
 * `Dashboard`: how the security state is shown. The battery colour bands, the threat
 * level colour, the last-scan headline and the low-power notice.
 */
module Dashboard {
  import opened SecurityProvider

  const YellowBelow := 30

  datatype Tone = Red | Yellow | Green

  /** `getBatteryColor`. */
  function BatteryColor(level: int): (t: Tone)
    ensures t == Red <==> level < LowBatteryThreshold
    ensures t == Yellow <==> LowBatteryThreshold <= level < YellowBelow
    ensures t == Green <==> level >= YellowBelow
  {
    if level < LowBatteryThreshold then Red
    else if level < YellowBelow then Yellow
    else Green
  }

  /** How healthy a tone reads. */
  function Health(t: Tone): nat {
    match t
    case Red => 0
    case Yellow => 1
    case Green => 2
  }

  /** More battery never gives a worse colour. */
  lemma BatteryColorMonotone(a: int, b: int)
    requires a <= b
    ensures Health(BatteryColor(a)) <= Health(BatteryColor(b))
  {
  }

  /** `getThreatColor`. */
  function ThreatColor(level: ThreatLevel): (t: Tone)
    ensures t == Red <==> level == High
    ensures t == Yellow <==> level == Medium
    ensures t == Green <==> level == Low
  {
    match level
    case High => Red
    case Medium => Yellow
    case Low => Green
  }

  /** The Last Scan card's headline. */
  function LastScanHeadline(scan: ScanTime): (h: string)
    ensures h == "Never" <==> scan.Never?
    ensures scan.At? ==> h == "Today"
  {
    if scan.Never? then "Never" else "Today"
  }

  datatype View = View(batteryTone: Tone, threatTone: Tone, scanHeadline: string, lowPowerNotice: bool, vpnProtected: bool)

  function Render(s: SecurityState): (v: View)
    reads s
    ensures v.batteryTone == BatteryColor(s.batteryLevel)
    ensures v.threatTone == ThreatColor(s.threatLevel)
    ensures v.lowPowerNotice <==> s.lowPowerMode
    ensures v.vpnProtected <==> s.vpnActive
    ensures v.batteryTone == Red <==> s.batteryLevel < LowBatteryThreshold
    ensures v.scanHeadline == "Never" <==> s.lastScan.Never?
  {
    View(BatteryColor(s.batteryLevel), ThreatColor(s.threatLevel), LastScanHeadline(s.lastScan), s.lowPowerMode, s.vpnActive)
  }

  /**
   * The red band is exactly the range that switches on low-power mode: after the
   * battery changes into it, the dashboard shows both red and the low-power notice.
   */
  method RedBatteryShowsLowPower(level: int) returns (v: View)
    ensures v.batteryTone == Red ==> v.lowPowerNotice
    ensures v.batteryTone != Red ==> !v.lowPowerNotice
  {
    var s := new SecurityState();
    s.SetBatteryLevel(level);
    v := Render(s);
  }

  /** Before any scan the headline is "Never"; after one it is "Today". */
  method ScanHeadlines(now: int) returns (before: string, after: string)
    ensures before == "Never" && after == "Today"
  {
    var s := new SecurityState();
    before := Render(s).scanHeadline;
    s.RunQuickScan(now);
    after := Render(s).scanHeadline;
  }
}
