/**
 * `SecurityProvider`: the device-wide security state shared by the pages. Five state
 * cells, the setters it exposes, the low-power toggle, the quick-scan timestamp, and
 * the effect that forces low-power mode when the battery level changes to below 15.
 */
module SecurityProvider {
  /** The battery level below which low-power mode is switched on. */
  const LowBatteryThreshold := 15

  datatype ThreatLevel = Low | Medium | High

  /** `lastScanTime`: the string 'Never' until the first scan, then that scan's local time. */
  datatype ScanTime = Never | At(ms: int)

  class SecurityState {
    var batteryLevel: int
    var lowPowerMode: bool
    /** No setter is exposed for the threat level, so no method lists it in `modifies`. */
    var threatLevel: ThreatLevel
    var lastScan: ScanTime
    var vpnActive: bool

    constructor ()
      ensures batteryLevel == 85 && !lowPowerMode && threatLevel == Low && lastScan == Never && !vpnActive
    {
      batteryLevel := 85;
      lowPowerMode := false;
      threatLevel := Low;
      lastScan := Never;
      vpnActive := false;
    }

    /**
     * `setBatteryLevel` followed by the battery effect. The effect runs only when the
     * value changes, and it only ever switches low-power mode on.
     */
    method SetBatteryLevel(level: int)
      modifies this`batteryLevel, this`lowPowerMode
      ensures batteryLevel == level
      ensures level != old(batteryLevel) && level < LowBatteryThreshold ==> lowPowerMode
      ensures !(level != old(batteryLevel) && level < LowBatteryThreshold) ==> lowPowerMode == old(lowPowerMode)
    {
      var changed := level != batteryLevel;
      batteryLevel := level;
      if changed && level < LowBatteryThreshold {
        lowPowerMode := true;
      }
    }

    method ToggleLowPowerMode()
      modifies this`lowPowerMode
      ensures lowPowerMode == !old(lowPowerMode)
    {
      lowPowerMode := !lowPowerMode;
    }

    method SetVpnActive(active: bool)
      modifies this`vpnActive
      ensures vpnActive == active
    {
      vpnActive := active;
    }

    /** `runQuickScan`: records the time of the scan and nothing else. */
    method RunQuickScan(now: int)
      modifies this`lastScan
      ensures lastScan == At(now) && lastScan != Never
    {
      lastScan := At(now);
    }
  }

  /**
   * "Battery below 15 implies low-power mode" is not an invariant: toggling the mode
   * off at a low level sticks, and re-setting the same level does not re-run the
   * effect; only a change of level switches it on again.
   */
  method LowPowerCanBeOffAtLowBattery(level: int, other: int)
    returns (offBattery: int, offMode: bool, sameMode: bool, changedMode: bool)
    requires level < LowBatteryThreshold && other < LowBatteryThreshold && other != level
    ensures offBattery == level && !offMode
    ensures !sameMode
    ensures changedMode
  {
    var s := new SecurityState();
    s.SetBatteryLevel(level);
    s.ToggleLowPowerMode();
    offBattery, offMode := s.batteryLevel, s.lowPowerMode;
    s.SetBatteryLevel(level);
    sameMode := s.lowPowerMode;
    s.SetBatteryLevel(other);
    changedMode := s.lowPowerMode;
  }

  /** One call to what the provider exposes. */
  datatype Op = Battery(level: int) | Toggle | Vpn(active: bool) | Scan(now: int)

  /**
   * Whatever sequence of the exposed operations runs, in any order and with any
   * repetitions, the threat level stays `Low`: nothing the provider exposes sets it.
   */
  method ThreatLevelStaysLow(ops: seq<Op>) returns (t: ThreatLevel)
    ensures t == Low
  {
    var s := new SecurityState();
    var i := 0;
    while i < |ops|
      invariant 0 <= i <= |ops|
      invariant s.threatLevel == Low
    {
      match ops[i] {
        case Battery(level) => s.SetBatteryLevel(level);
        case Toggle => s.ToggleLowPowerMode();
        case Vpn(active) => s.SetVpnActive(active);
        case Scan(now) => s.RunQuickScan(now);
      }
      i := i + 1;
    }
    t := s.threatLevel;
  }
}
