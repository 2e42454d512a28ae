/**
 * `SafeZonePage`: the four protection flags, the emergency activation that sets them
 * all, the three switches that set one each, and the Emergency Response indicator.
 */
module SafeZone {
  datatype Indicator = RedDot | GreenDot

  class SafeZonePage {
    var killSwitchActive: bool
    var deviceLocked: bool
    var networkIsolated: bool
    var emergencyMode: bool

    constructor ()
      ensures !killSwitchActive && !deviceLocked && !networkIsolated && !emergencyMode
    {
      killSwitchActive := false;
      deviceLocked := false;
      networkIsolated := false;
      emergencyMode := false;
    }

    /** `activateEmergencyMode`: every flag on. */
    method ActivateEmergencyMode()
      modifies this
      ensures emergencyMode && killSwitchActive && deviceLocked && networkIsolated
    {
      emergencyMode := true;
      killSwitchActive := true;
      deviceLocked := true;
      networkIsolated := true;
    }

    /** A press of the activation button, which is disabled while in emergency mode. */
    method PressEmergencyButton()
      modifies this
      ensures old(emergencyMode) ==>
        killSwitchActive == old(killSwitchActive) && deviceLocked == old(deviceLocked)
        && networkIsolated == old(networkIsolated) && emergencyMode
      ensures !old(emergencyMode) ==> emergencyMode && killSwitchActive && deviceLocked && networkIsolated
    {
      if !emergencyMode {
        ActivateEmergencyMode();
      }
    }

    /** The Kill Switch switch: its own flag only, emergency mode or not. */
    method SetKillSwitch(on: bool)
      modifies this`killSwitchActive
      ensures killSwitchActive == on
    {
      killSwitchActive := on;
    }

    /** The Device Lockdown switch. */
    method SetDeviceLocked(on: bool)
      modifies this`deviceLocked
      ensures deviceLocked == on
    {
      deviceLocked := on;
    }

    /** The Network Isolation switch. */
    method SetNetworkIsolated(on: bool)
      modifies this`networkIsolated
      ensures networkIsolated == on
    {
      networkIsolated := on;
    }

    /** The Emergency Response status dot. */
    function ResponseIndicator(): (d: Indicator)
      reads this
      ensures d == RedDot <==> emergencyMode
    {
      if emergencyMode then RedDot else GreenDot
    }
  }

  /** One user action on the page. */
  datatype Press = Emergency | KillSwitch(on: bool) | Lockdown(on: bool) | Isolation(on: bool)

  /**
   * Emergency mode is one-way: once on, no sequence of presses turns it off, and
   * the indicator stays red. The switches can still turn each protection off.
   */
  method EmergencyIsOneWay(presses: seq<Press>) returns (emergency: bool, dot: Indicator)
    ensures (Emergency in presses) <==> emergency
    ensures emergency <==> dot == RedDot
  {
    var page := new SafeZonePage();
    var i := 0;
    while i < |presses|
      invariant 0 <= i <= |presses|
      invariant page.emergencyMode <==> Emergency in presses[..i]
    {
      assert presses[..i + 1] == presses[..i] + [presses[i]];
      match presses[i] {
        case Emergency => page.PressEmergencyButton();
        case KillSwitch(on) => page.SetKillSwitch(on);
        case Lockdown(on) => page.SetDeviceLocked(on);
        case Isolation(on) => page.SetNetworkIsolated(on);
      }
      i := i + 1;
    }
    assert presses[..i] == presses;
    emergency, dot := page.emergencyMode, page.ResponseIndicator();
  }

  /** "Emergency implies every protection on" is not kept: a switch can undo one protection. */
  method SwitchAfterEmergency() returns (emergency: bool, killSwitch: bool, locked: bool)
    ensures emergency && !killSwitch && locked
  {
    var page := new SafeZonePage();
    page.PressEmergencyButton();
    page.SetKillSwitch(false);
    page.PressEmergencyButton();
    emergency, killSwitch, locked := page.emergencyMode, page.killSwitchActive, page.deviceLocked;
  }
}
