/** The progress panel of the page (frontend/components/scan-status.tsx):
    pure renderings of the current scan. */
module ScanStatusView {
  import opened Text
  import opened ScanData

  /** The phases the panel names; anything else reads "Preparing scan". */
  predicate IsNamedPhase(status: string) {
    status == "discovering" || status == "port_scanning" || status == "completed" || status == "error"
  }

  /** `getStatusText()` */
  function StatusText(status: string): (r: string)
    ensures status == "discovering" ==> r == "Discovering devices on network"
    ensures status == "port_scanning" ==> r == "Scanning ports on discovered devices"
    ensures status == "completed" ==> r == "Scan completed successfully"
    ensures status == "error" ==> r == "Scan failed with an error"
    ensures !IsNamedPhase(status) ==> r == "Preparing scan"
  {
    match status
    case "discovering" => "Discovering devices on network"
    case "port_scanning" => "Scanning ports on discovered devices"
    case "completed" => "Scan completed successfully"
    case "error" => "Scan failed with an error"
    case _ => "Preparing scan"
  }

  /** The page's idle state and the backend's freshly reset "scanning" state
      read the same. */
  lemma UnnamedPhasesReadAlike()
    ensures StatusText("idle") == StatusText("scanning") == "Preparing scan"
  {
  }

  /** The colour classes the badge gets, one per condition that holds. */
  function BadgeColours(status: string): (r: seq<string>)
    ensures |r| <= 1
    ensures |r| == 1 <==> IsNamedPhase(status)
  {
    (if status == "completed" then ["border-green-500 text-green-400"] else [])
    + (if status == "error" then ["border-red-500 text-red-400"] else [])
    + (if status == "discovering" then ["border-cyan-500 text-cyan-400"] else [])
    + (if status == "port_scanning" then ["border-green-500 text-green-400"] else [])
  }

  /** The colour classes the progress bar's indicator gets. */
  function IndicatorColours(status: string): (r: seq<string>)
    ensures |r| <= 1
    ensures |r| == 1 <==> IsNamedPhase(status)
  {
    (if status == "completed" then ["bg-green-500"] else [])
    + (if status == "error" then ["bg-red-500"] else [])
    + (if status == "discovering" then ["bg-cyan-500"] else [])
    + (if status == "port_scanning" then ["bg-gradient-to-r from-cyan-500 to-green-500"] else [])
  }

  /** The badge cannot tell a finished scan from one scanning ports; the
      progress bar can. */
  lemma BadgeSharesGreen()
    ensures BadgeColours("completed") == BadgeColours("port_scanning")
    ensures IndicatorColours("completed") != IndicatorColours("port_scanning")
  {
    assert IndicatorColours("completed")[0][5] != IndicatorColours("port_scanning")[0][5];
  }

  /** The "Open Ports" figure. */
  function OpenPortsShown(scan: ScanState): (n: nat)
    ensures n == |AllOpenPorts(scan.results)|
    ensures n == 0 <==> forall i :: 0 <= i < |scan.results| ==> OpenPortCount(scan.results[i]) == 0
  {
    TotalCountsAllOpenPorts(scan.results);
    TotalZeroIff(scan.results);
    TotalOpenPorts(scan.results)
  }

  /** `{scan.devices.length} Devices Found` */
  function DeviceBadge(scan: ScanState): string {
    NatToString(|scan.devices|) + " Devices Found"
  }

  /** The badge's leading digits read back as the number of devices, and
      nothing but digits comes before the fixed suffix. */
  lemma DeviceBadgeReadsCount(scan: ScanState)
    ensures var b := DeviceBadge(scan);
      && |b| >= 14
      && b[|b| - 14..] == " Devices Found"
      && AllDigits(b[..|b| - 14])
      && DigitsValue(b[..|b| - 14]) == |scan.devices|
  {
    var d := NatToString(|scan.devices|);
    var b := DeviceBadge(scan);
    assert b[..|b| - 14] == d;
    assert b[|b| - 14..] == " Devices Found";
    DigitsRoundTrip(|scan.devices|);
  }
}
