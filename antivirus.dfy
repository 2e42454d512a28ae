/**
 * `AntivirusPage`: the simulated scan. Starting a scan resets the progress and
 * starts an interval; each tick adds 10 until a tick sees 100, which stops the
 * interval, clears the scanning flag and records a quick scan in the provider.
 */
module Antivirus {
  import opened SecurityProvider

  const Step := 10
  const Done := 100

  class AntivirusPage {
    var scanning: bool
    var progress: int
    var scanType: string
    var linkToCheck: string
    /** Number of live progress intervals. */
    var timers: nat
    /** Links handed to the (simulated) phishing check, in order. */
    var checkedLinks: seq<string>
    /** The shared security state whose `runQuickScan` the last tick calls. */
    const provider: SecurityState

    ghost predicate Valid()
      reads this
    {
      && 0 <= progress <= Done
      && progress % Step == 0
      && timers <= 1
      && (timers == 1 <==> scanning)
    }

    constructor (provider: SecurityState)
      ensures Valid()
      ensures !scanning && progress == 0 && scanType == "" && linkToCheck == "" && timers == 0 && checkedLinks == []
      ensures this.provider == provider
    {
      scanning := false;
      progress := 0;
      scanType := "";
      linkToCheck := "";
      timers := 0;
      checkedLinks := [];
      this.provider := provider;
    }

    /** `startScan`; the scan buttons are disabled while a scan runs. */
    method StartScan(kind: string)
      requires Valid() && !scanning
      modifies this`scanType, this`scanning, this`progress, this`timers
      ensures Valid()
      ensures scanType == kind && scanning && progress == 0 && timers == 1
    {
      scanType := kind;
      scanning := true;
      progress := 0;
      timers := timers + 1;
    }

    /** One firing of the live interval. */
    method Tick(now: int)
      requires Valid() && timers == 1
      modifies this`progress, this`scanning, this`timers, provider`lastScan
      ensures Valid()
      ensures old(progress) >= Done ==>
        progress == Done && timers == 0 && !scanning && provider.lastScan == At(now)
      ensures old(progress) < Done ==>
        progress == old(progress) + Step && timers == 1 && scanning && provider.lastScan == old(provider.lastScan)
    {
      if progress >= Done {
        timers := timers - 1;
        scanning := false;
        provider.RunQuickScan(now);
        progress := Done;
      } else {
        progress := progress + Step;
      }
    }

    /** The link input. */
    method SetLink(text: string)
      modifies this`linkToCheck
      ensures linkToCheck == text
    {
      linkToCheck := text;
    }

    /** `checkLink`: nothing happens for an empty input. */
    method CheckLink()
      modifies this`checkedLinks
      ensures linkToCheck == "" ==> checkedLinks == old(checkedLinks)
      ensures linkToCheck != "" ==> checkedLinks == old(checkedLinks) + [linkToCheck]
    {
      if linkToCheck != "" {
        checkedLinks := checkedLinks + [linkToCheck];
      }
    }
  }

  /**
   * A whole scan: ten ticks bring the progress from 0 to 100, and the eleventh sees
   * 100, stops the interval and records the scan time in the provider.
   */
  method WholeScan(kind: string, now: int) returns (ticks: nat, progress: int, scanning: bool, lastScan: ScanTime)
    ensures ticks == 11
    ensures progress == Done && !scanning && lastScan == At(now)
  {
    var provider := new SecurityState();
    var page := new AntivirusPage(provider);
    page.StartScan(kind);
    ticks := 0;
    while page.timers == 1
      invariant page.Valid() && page.provider == provider
      invariant page.timers == 1 ==> page.progress == Step * ticks && ticks <= 10
      invariant page.timers == 0 ==> ticks == 11 && page.progress == Done && !page.scanning && provider.lastScan == At(now)
      decreases 11 - ticks
    {
      page.Tick(now);
      ticks := ticks + 1;
    }
    progress, scanning, lastScan := page.progress, page.scanning, provider.lastScan;
  }

  /**
   * Typing a link and clicking "Check Link" `clicks` times checks that link once per
   * click, in order; an empty link is never checked, however often it is clicked.
   */
  method ClicksCheckLink(link: string, clicks: nat) returns (checked: seq<string>)
    ensures link == "" ==> checked == []
    ensures link != "" ==> |checked| == clicks && forall i :: 0 <= i < clicks ==> checked[i] == link
  {
    var provider := new SecurityState();
    var page := new AntivirusPage(provider);
    page.SetLink(link);
    var i := 0;
    while i < clicks
      invariant 0 <= i <= clicks
      invariant page.linkToCheck == link
      invariant link == "" ==> page.checkedLinks == []
      invariant link != "" ==> |page.checkedLinks| == i && forall j :: 0 <= j < i ==> page.checkedLinks[j] == link
    {
      page.CheckLink();
      i := i + 1;
    }
    checked := page.checkedLinks;
  }
}
