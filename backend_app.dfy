/** The Flask scan service of backend/app.py: `start_scan` validates a request
    and resets the global scan, `perform_scan` drives it through discovery and
    port scanning and appends one snapshot to the history. The scanner module
    is not called: what each of its calls returns or raises is an input. */
module Backend {
  import opened Wrappers
  import opened Text
  import opened ScanData
  import opened Arith

  const DefaultPorts: string := "21,22,23,80,443,445,3389"

  /** The module-level `current_scan` dict. `target` and `ports` exist only
      after a start; `error` only after a failure. */
  datatype ServerScan = ServerScan(
    status: string,
    progress: int,
    target: Option<string>,
    ports: Option<seq<int>>,
    devices: seq<Device>,
    results: seq<PortResult>,
    error: Option<string>)

  const InitialScan := ServerScan("idle", 0, None, None, [], [], None)

  /** The JSON body of POST /api/scan: each key absent or a string. */
  datatype ScanRequest = ScanRequest(target: Option<string>, ports: Option<string>)

  /** A 200 reply with `scan_id`, or a 400 reply with `error`. */
  datatype StartReply = Started(message: string, scanId: nat) | BadRequest(error: string)

  // ---------------------------------------------------------------- start_scan

  /** `int(p)` for every piece, or `None` as soon as one raises. */
  function ParsePieces(pieces: seq<string>): (r: Option<seq<int>>)
    ensures r.Some? <==> forall k :: 0 <= k < |pieces| ==> PyInt(pieces[k]).Some?
    ensures r.Some? ==> |r.value| == |pieces|
    ensures r.Some? ==> forall k :: 0 <= k < |pieces| ==> PyInt(pieces[k]) == Some(r.value[k])
  {
    ParseAllMeaning(pieces, PyInt);
    ParseAll(pieces, PyInt)
  }

  /** `[int(p) for p in ports_str.split(',')]`, `None` for its `ValueError`. */
  function ParsePorts(s: string): Option<seq<int>> {
    ParsePieces(Split(s, ','))
  }

  function RequestTarget(req: ScanRequest): string { req.target.GetOr("") }

  function RequestPorts(req: ScanRequest): string { req.ports.GetOr(DefaultPorts) }

  /** The checks of `start_scan`, in order: the target, then the port list. */
  function ValidateStart(req: ScanRequest): (r: Result<(string, seq<int>), string>)
    ensures RequestTarget(req) == "" ==> r == Failure("Target IP range is required")
    ensures RequestTarget(req) != "" && ParsePorts(RequestPorts(req)).None? ==> r == Failure("Invalid port format")
    ensures r.Success? <==> RequestTarget(req) != "" && ParsePorts(RequestPorts(req)).Some?
    ensures r.Success? ==> r.value.0 == RequestTarget(req) && Some(r.value.1) == ParsePorts(RequestPorts(req))
  {
    var target := RequestTarget(req);
    if target == "" then Failure("Target IP range is required")
    else
      match ParsePorts(RequestPorts(req))
      case None => Failure("Invalid port format")
      case Some(ports) => Success((target, ports))
  }

  /** The `current_scan` an accepted start installs. */
  function ResetScan(target: string, ports: seq<int>): ServerScan {
    ServerScan("scanning", 0, Some(target), Some(ports), [], [], None)
  }

  // ---------------------------------------------------------------- perform_scan

  /** What `scan_ports` returns: the ip and the open ports. */
  datatype PortReply = PortReply(ip: string, openPorts: seq<int>)

  /** The outcome of every scanner call one `perform_scan` run makes: the
      ARP scan, the hostname lookup and the port scan of the device at each
      index (called with that device's ip), and the service-name lookup
      (`None` when it raises). `Failure` carries the exception text. */
  datatype ScannerRun = ScannerRun(
    arpScan: Result<seq<Device>, string>,
    hostname: (nat, string) -> Result<string, string>,
    scanPorts: (nat, string, seq<int>) -> Result<PortReply, string>,
    serviceName: int -> Option<string>)

  function ServiceOrUnknown(run: ScannerRun, port: int): string {
    match run.serviceName(port)
    case Some(name) => name
    case None => "unknown"
  }

  /** `port_details` for one device. */
  function PortDetails(open: seq<int>, run: ScannerRun): (r: seq<OpenPort>)
    ensures |r| == |open|
  {
    seq(|open|, j requires 0 <= j < |open| => OpenPort(open[j], ServiceOrUnknown(run, open[j])))
  }

  /** The first index from `i` whose hostname lookup raises, or `|devs|`. */
  function HostFailureFrom(devs: seq<Device>, run: ScannerRun, i: nat): (r: nat)
    requires i <= |devs|
    ensures i <= r <= |devs|
    ensures forall j :: i <= j < r ==> run.hostname(j, devs[j].ip).Success?
    ensures r < |devs| ==> run.hostname(r, devs[r].ip).Failure?
    decreases |devs| - i
  {
    if i == |devs| then i
    else if run.hostname(i, devs[i].ip).Failure? then i
    else HostFailureFrom(devs, run, i + 1)
  }

  /** The first index from `i` whose port scan raises, or `|devs|`. */
  function ScanFailureFrom(devs: seq<Device>, ports: seq<int>, run: ScannerRun, i: nat): (r: nat)
    requires i <= |devs|
    ensures i <= r <= |devs|
    ensures forall j :: i <= j < r ==> run.scanPorts(j, devs[j].ip, ports).Success?
    ensures r < |devs| ==> run.scanPorts(r, devs[r].ip, ports).Failure?
    decreases |devs| - i
  {
    if i == |devs| then i
    else if run.scanPorts(i, devs[i].ip, ports).Failure? then i
    else ScanFailureFrom(devs, ports, run, i + 1)
  }

  /** The devices list after the hostnames of the first `k` were filled in. */
  function Named(devs: seq<Device>, run: ScannerRun, k: nat): (r: seq<Device>)
    ensures |r| == |devs|
  {
    seq(|devs|, i requires 0 <= i < |devs| =>
      if i < k then
        match run.hostname(i, devs[i].ip)
        case Success(h) => devs[i].(hostname := Some(h))
        case Failure(_) => devs[i]
      else devs[i])
  }

  /** The `results` entry of the device at index `i`. */
  function DeviceResult(devs: seq<Device>, ports: seq<int>, run: ScannerRun, i: nat): PortResult
    requires i < |devs|
  {
    match run.scanPorts(i, devs[i].ip, ports)
    case Success(reply) => PortResult(reply.ip, Some(PortDetails(reply.openPorts, run)))
    case Failure(_) => PortResult(devs[i].ip, None)
  }

  /** The `results` list after the first `k` devices. */
  function ResultsUpTo(devs: seq<Device>, ports: seq<int>, run: ScannerRun, k: nat): (r: seq<PortResult>)
    requires k <= |devs|
    ensures |r| == k
  {
    seq(k, i requires 0 <= i < k => DeviceResult(devs, ports, run, i))
  }

  /** The progress written after the device at index `idx` of `total`:
      `min(99, 50 + int((idx + 1) / total * 50))`, in integer arithmetic. */
  function DeviceProgress(idx: nat, total: nat): int
    requires total > 0
  {
    Min(99, 50 + ((idx + 1) * 50) / total)
  }

  /** The progress once `k` devices have been port-scanned. */
  function ProgressAfter(k: nat, total: nat): int
    requires total > 0
  {
    if k == 0 then 50 else DeviceProgress(k - 1, total)
  }

  function DeviceWrites(k: nat, total: nat): (r: seq<int>)
    requires total > 0
    ensures |r| == k
  {
    seq(k, i requires 0 <= i < k => DeviceProgress(i, total))
  }

  /** The final `current_scan` of one `perform_scan` run from `start`. */
  function ScanOutcome(start: ServerScan, ports: seq<int>, run: ScannerRun): ServerScan {
    var s1 := start.(status := "discovering", progress := 10);
    match run.arpScan
    case Failure(e) => s1.(status := "error", error := Some(e))
    case Success(devs) => DiscoveredOutcome(s1.(devices := devs, progress := 40), devs, ports, run)
  }

  /** The rest of the run once the ARP scan returned `devs`. */
  function DiscoveredOutcome(s2: ServerScan, devs: seq<Device>, ports: seq<int>, run: ScannerRun): ServerScan {
    if devs == [] then s2.(status := "completed", progress := 100)
    else
      var hf := HostFailureFrom(devs, run, 0);
      if hf < |devs| then
        s2.(devices := Named(devs, run, hf), status := "error",
            error := Some(run.hostname(hf, devs[hf].ip).error))
      else
        PortScanOutcome(s2.(devices := Named(devs, run, |devs|), progress := 50, status := "port_scanning"),
                        devs, ports, run)
  }

  /** The rest of the run once every hostname is known. */
  function PortScanOutcome(s3: ServerScan, devs: seq<Device>, ports: seq<int>, run: ScannerRun): ServerScan
    requires devs != []
  {
    var n := |devs|;
    var pf := ScanFailureFrom(devs, ports, run, 0);
    if pf < n then
      s3.(progress := ProgressAfter(pf, n), status := "error",
          error := Some(run.scanPorts(pf, devs[pf].ip, ports).error))
    else
      s3.(results := ResultsUpTo(devs, ports, run, n), status := "completed", progress := 100)
  }

  /** Every value one `perform_scan` run writes to `progress`, in order. */
  function ProgressWrites(ports: seq<int>, run: ScannerRun): seq<int> {
    match run.arpScan
    case Failure(_) => [10]
    case Success(devs) => [10, 40] + DiscoveredWrites(devs, ports, run)
  }

  function DiscoveredWrites(devs: seq<Device>, ports: seq<int>, run: ScannerRun): seq<int> {
    if devs == [] then [100]
    else if HostFailureFrom(devs, run, 0) < |devs| then []
    else [50] + PortScanWrites(devs, ports, run)
  }

  function PortScanWrites(devs: seq<Device>, ports: seq<int>, run: ScannerRun): seq<int>
    requires devs != []
  {
    var pf := ScanFailureFrom(devs, ports, run, 0);
    DeviceWrites(pf, |devs|) + (if pf < |devs| then [] else [100])
  }

  predicate NonDecreasing(s: seq<int>) {
    forall i, j :: 0 <= i < j < |s| ==> s[i] <= s[j]
  }

  function Last(s: seq<int>): int
    requires s != []
  {
    s[|s| - 1]
  }

  // ---------------------------------------------------------------- properties

  /** Any non-empty list of numbers written in decimal and joined by commas
      is accepted and read back exactly; no 1-65535 range is enforced. */
  lemma PortListRoundTrip(ports: seq<nat>)
    requires |ports| >= 1
    ensures ParsePorts(Join(Decimals(ports), ',')) == Some(ports)
  {
    var pieces := Decimals(ports);
    forall k | 0 <= k < |pieces| ensures ',' !in pieces[k] {
      assert !IsDigit(',');
    }
    SplitJoin(pieces, ',');
    assert Split(Join(pieces, ','), ',') == pieces;
    forall k | 0 <= k < |pieces| ensures PyInt(pieces[k]) == Some(ports[k] as int) {
      PyIntOfDecimal(ports[k]);
    }
    var r := ParsePieces(pieces);
    assert r.Some?;
    var ints: seq<int> := ports;
    assert r.value == ints;
  }

  lemma DefaultPortDecimals(ports: seq<nat>)
    requires ports == [21, 22, 23, 80, 443, 445, 3389]
    ensures Decimals(ports) == ["21", "22", "23", "80", "443", "445", "3389"]
  {
    var d := Decimals(ports);
    assert d[0] == "21" && d[1] == "22" && d[2] == "23" && d[3] == "80";
    assert d[4] == "443" by { assert NatToString(44) == "44"; }
    assert d[5] == "445" by { assert NatToString(44) == "44"; }
    assert d[6] == "3389" by {
      assert NatToString(33) == "33";
      assert NatToString(338) == "338";
    }
  }

  /** The default port list written out, in three steps from its end. */
  lemma DefaultTailJoined()
    ensures Join(["443", "445", "3389"], ',') == "443,445,3389"
  {
    assert Join(["3389"], ',') == "3389";
    JoinCons("445", ["3389"], ',');
    assert ["445"] + ["3389"] == ["445", "3389"];
    JoinCons("443", ["445", "3389"], ',');
    assert ["443"] + ["445", "3389"] == ["443", "445", "3389"];
  }

  lemma DefaultMiddleJoined()
    ensures Join(["23", "80", "443", "445", "3389"], ',') == "23,80,443,445,3389"
  {
    DefaultTailJoined();
    JoinCons("80", ["443", "445", "3389"], ',');
    assert ["80"] + ["443", "445", "3389"] == ["80", "443", "445", "3389"];
    JoinCons("23", ["80", "443", "445", "3389"], ',');
    assert ["23"] + ["80", "443", "445", "3389"] == ["23", "80", "443", "445", "3389"];
  }

  lemma DefaultPortsJoined(pieces: seq<string>)
    requires pieces == ["21", "22", "23", "80", "443", "445", "3389"]
    ensures Join(pieces, ',') == DefaultPorts
  {
    DefaultMiddleJoined();
    var l2 := ["23", "80", "443", "445", "3389"];
    JoinCons("22", l2, ',');
    JoinCons("21", ["22"] + l2, ',');
    assert ["21"] + (["22"] + l2) == pieces;
  }

  /** A request without `ports` scans the seven default ports. */
  lemma DefaultPortsParsed()
    ensures ParsePorts(DefaultPorts) == Some([21, 22, 23, 80, 443, 445, 3389])
  {
    var ports: seq<nat> := [21, 22, 23, 80, 443, 445, 3389];
    DefaultPortDecimals(ports);
    DefaultPortsJoined(Decimals(ports));
    PortListRoundTrip(ports);
  }

  /** A port list with an empty `k`-th piece does not parse. */
  lemma EmptyPieceAt(s: string, k: nat)
    requires k < |Split(s, ',')| && Split(s, ',')[k] == ""
    ensures ParsePorts(s) == None
  {
    assert PyInt("") == None;
  }

  lemma DoubleCommaRejected(a: string, b: string)
    ensures ParsePorts(a + ",," + b) == None
  {
    assert a + ",," + b == a + [','] + ([','] + b);
    SplitConcat(a, [','] + b, ',');
    assert [','] + b == "" + [','] + b;
    SplitConcat("", b, ',');
    EmptyPieceAt(a + ",," + b, |Split(a, ',')|);
  }

  lemma TrailingCommaRejected(a: string)
    ensures ParsePorts(a + ",") == None
  {
    assert a + "," == a + [','] + "";
    SplitConcat(a, "", ',');
    EmptyPieceAt(a + ",", |Split(a + ",", ',')| - 1);
  }

  lemma LeadingCommaRejected(b: string)
    ensures ParsePorts("," + b) == None
  {
    assert "," + b == "" + [','] + b;
    SplitConcat("", b, ',');
    EmptyPieceAt("," + b, 0);
  }

  /** An empty piece makes `int()` raise: a doubled, leading or trailing comma,
      or an empty port string, is an invalid port format. */
  lemma EmptyPieceRejected(a: string, b: string)
    ensures ParsePorts(a + ",," + b) == None
    ensures ParsePorts(a + ",") == None
    ensures ParsePorts("," + b) == None
    ensures ParsePorts("") == None
  {
    DoubleCommaRejected(a, b);
    TrailingCommaRejected(a);
    LeadingCommaRejected(b);
    EmptyPieceAt("", 0);
  }

  /** A request whose target is absent or empty is rejected before the ports
      are read, whatever they are. */
  lemma MissingTargetRejected(ports: Option<string>)
    ensures ValidateStart(ScanRequest(None, ports)) == Failure("Target IP range is required")
    ensures ValidateStart(ScanRequest(Some(""), ports)) == Failure("Target IP range is required")
  {
  }

  /** The per-device progress stays in [50, 99] and never goes down. */
  lemma DeviceProgressBounds(i: nat, j: nat, total: nat)
    requires i <= j && total > 0
    ensures 50 <= DeviceProgress(i, total) <= DeviceProgress(j, total) <= 99
  {
    DivMonotone((i + 1) * 50, (j + 1) * 50, total);
  }

  /** The writes of a run that reached the port scan, after the 0 of the
      reset: 10, 40, 50, one value per scanned device, and 100 if all of
      the `n` devices were scanned. */
  function ReachedWrites(pf: nat, n: nat): seq<int>
    requires 0 < n && pf <= n
  {
    [0, 10, 40, 50] + DeviceWrites(pf, n) + (if pf < n then [] else [100])
  }

  /** The `k`-th of those writes. */
  function ReachedWrite(pf: nat, n: nat, k: nat): int
    requires 0 < n && pf <= n
  {
    if k == 0 then 0 else if k == 1 then 10 else if k == 2 then 40 else if k == 3 then 50
    else if k < 4 + pf then DeviceProgress(k - 4, n) else 100
  }

  lemma ReachedWriteAt(pf: nat, n: nat, k: nat)
    requires 0 < n && pf <= n && k < |ReachedWrites(pf, n)|
    ensures ReachedWrites(pf, n)[k] == ReachedWrite(pf, n, k)
  {
  }

  lemma ReachedWriteOrder(pf: nat, n: nat, i: nat, j: nat)
    requires 0 < n && pf <= n && i <= j < |ReachedWrites(pf, n)|
    ensures ReachedWrite(pf, n, i) <= ReachedWrite(pf, n, j)
    ensures 1 <= i ==> 10 <= ReachedWrite(pf, n, i) <= 100
  {
    if 4 <= i < 4 + pf {
      if j < 4 + pf {
        DeviceProgressBounds(i - 4, j - 4, n);
      } else {
        DeviceProgressBounds(i - 4, i - 4, n);
      }
    } else if i < 4 && 4 <= j < 4 + pf {
      DeviceProgressBounds(j - 4, j - 4, n);
    }
  }

  lemma ReachedWritesOrdered(pf: nat, n: nat)
    requires 0 < n && pf <= n
    ensures NonDecreasing(ReachedWrites(pf, n))
    ensures forall k :: 1 <= k < |ReachedWrites(pf, n)| ==> 10 <= ReachedWrites(pf, n)[k] <= 100
  {
    var w := ReachedWrites(pf, n);
    forall i, j | 0 <= i < j < |w| ensures w[i] <= w[j] {
      ReachedWriteAt(pf, n, i);
      ReachedWriteAt(pf, n, j);
      ReachedWriteOrder(pf, n, i, j);
    }
    forall k | 1 <= k < |w| ensures 10 <= w[k] <= 100 {
      ReachedWriteAt(pf, n, k);
      ReachedWriteOrder(pf, n, k, k);
    }
  }

  /** Every value `perform_scan` writes is in [10, 100], and the values, read
      after the 0 of the reset, never decrease; a completed run ends at 100. */
  lemma ProgressNeverDecreases(ports: seq<int>, run: ScannerRun)
    ensures NonDecreasing([0] + ProgressWrites(ports, run))
    ensures forall k :: 0 <= k < |ProgressWrites(ports, run)| ==> 10 <= ProgressWrites(ports, run)[k] <= 100
  {
    var w := [0] + ProgressWrites(ports, run);
    if run.arpScan.Success? && run.arpScan.value != [] {
      var devs := run.arpScan.value;
      var n := |devs|;
      if HostFailureFrom(devs, run, 0) == n {
        var pf := ScanFailureFrom(devs, ports, run, 0);
        assert w == ReachedWrites(pf, n);
        ReachedWritesOrdered(pf, n);
        assert forall k :: 0 <= k < |w| - 1 ==> w[k + 1] == ProgressWrites(ports, run)[k];
      }
    }
  }

  /** The final `progress` is the last value written. */
  lemma OutcomeProgressIsLastWrite(start: ServerScan, ports: seq<int>, run: ScannerRun)
    ensures ProgressWrites(ports, run) != []
    ensures ScanOutcome(start, ports, run).progress == Last(ProgressWrites(ports, run))
  {
    if run.arpScan.Success? && run.arpScan.value != [] {
      var devs := run.arpScan.value;
      var n := |devs|;
      if HostFailureFrom(devs, run, 0) == n {
        var pf := ScanFailureFrom(devs, ports, run, 0);
        var w := ProgressWrites(ports, run);
        assert w == [10, 40, 50] + DeviceWrites(pf, n) + (if pf < n then [] else [100]);
        if pf < n && pf > 0 {
          assert Last(w) == DeviceWrites(pf, n)[pf - 1];
        }
      }
    }
  }

  /** Whether some scanner call of the run raises before the run completes. */
  predicate RunRaises(ports: seq<int>, run: ScannerRun) {
    match run.arpScan
    case Failure(_) => true
    case Success(devs) =>
      devs != [] &&
      (HostFailureFrom(devs, run, 0) < |devs| || ScanFailureFrom(devs, ports, run, 0) < |devs|)
  }

  /** A run always ends in a terminal status: "error", with the exception
      text, exactly when a scanner call raised, and "completed" otherwise;
      an error leaves the previous `results` in place (they are never
      published). */
  lemma OutcomeIsTerminal(start: ServerScan, ports: seq<int>, run: ScannerRun)
    ensures var s := ScanOutcome(start, ports, run);
      && (s.status == "error" <==> RunRaises(ports, run))
      && (s.status == "completed" <==> !RunRaises(ports, run))
      && (s.status == "error" ==> s.error.Some? && s.results == start.results)
      && (s.status == "completed" ==> s.error == start.error && s.progress == 100)
  {
  }

  /** When the ARP scan finds nothing the run completes at once: progress
      100, no devices, port scanning skipped. */
  lemma NoDevicesCompletes(start: ServerScan, ports: seq<int>, run: ScannerRun)
    requires run.arpScan == Success([])
    ensures ScanOutcome(start, ports, run) == start.(status := "completed", progress := 100, devices := [])
    ensures ProgressWrites(ports, run) == [10, 40, 100]
  {
  }

  /** A completed run with devices publishes one result per device, in
      device order, from that device's port scan, each open port named by
      the service lookup or "unknown" when the lookup raised; every device
      carries its looked-up hostname. */
  lemma CompletedResultsPerDevice(start: ServerScan, ports: seq<int>, run: ScannerRun)
    requires run.arpScan.Success? && run.arpScan.value != []
    requires !RunRaises(ports, run)
    ensures var s := ScanOutcome(start, ports, run);
      var devs := run.arpScan.value;
      && |s.results| == |s.devices| == |devs|
      && forall i :: 0 <= i < |devs| ==>
           && run.scanPorts(i, devs[i].ip, ports).Success?
           && run.hostname(i, devs[i].ip).Success?
           && s.devices[i] == devs[i].(hostname := Some(run.hostname(i, devs[i].ip).value))
           && var reply := run.scanPorts(i, devs[i].ip, ports).value;
              && s.results[i].ip == reply.ip
              && s.results[i].openPorts.Some?
              && |s.results[i].openPorts.value| == |reply.openPorts|
              && forall j :: 0 <= j < |reply.openPorts| ==>
                   && s.results[i].openPorts.value[j].port == reply.openPorts[j]
                   && (run.serviceName(reply.openPorts[j]).Some? ==>
                         s.results[i].openPorts.value[j].service == run.serviceName(reply.openPorts[j]).value)
                   && (run.serviceName(reply.openPorts[j]).None? ==>
                         s.results[i].openPorts.value[j].service == "unknown")
  {
  }

  // ---------------------------------------------------------------- the service

  /** The service's two globals. `progressLog` records every value written to
      `current_scan["progress"]` since the last reset. */
  class ScanServer {
    var currentScan: ServerScan
    var history: seq<ServerScan>
    ghost var progressLog: seq<int>

    ghost predicate Valid()
      reads this
    {
      progressLog != [] && Last(progressLog) == currentScan.progress
    }

    constructor ()
      ensures Valid()
      ensures currentScan == InitialScan && history == [] && progressLog == [0]
    {
      currentScan := InitialScan;
      history := [];
      progressLog := [0];
    }

    /** GET /api/scan/status */
    function StatusReply(): ScanState
      reads this
    {
      ScanState(currentScan.status, currentScan.progress, currentScan.devices,
                currentScan.results, currentScan.error)
    }

    /** GET /api/scan/history; the snapshots carry no timestamp. */
    function HistoryReply(): seq<HistoryEntry>
      reads this
    {
      seq(|history|, i reads this requires 0 <= i < |history| =>
        HistoryEntry(None, history[i].target, Some(history[i].status),
                     Some(history[i].devices), Some(history[i].results)))
    }

    /** POST /api/scan. A rejected request changes nothing; an accepted one
        replaces `current_scan` and answers with the history length as id.
        The scan thread is not started here: the caller runs `PerformScan`. */
    method StartScan(req: ScanRequest) returns (reply: StartReply)
      requires Valid()
      modifies this
      ensures Valid()
      ensures history == old(history)
      ensures match ValidateStart(req)
        case Failure(e) =>
          reply == BadRequest(e) && currentScan == old(currentScan) && progressLog == old(progressLog)
        case Success(accepted) =>
          reply == Started("Scan started", |old(history)|)
          && currentScan == ResetScan(accepted.0, accepted.1) && progressLog == [0]
    {
      var target := req.target.GetOr("");
      var portsStr := req.ports.GetOr(DefaultPorts);
      if target == "" {
        return BadRequest("Target IP range is required");
      }
      var parsed := ParsePorts(portsStr);
      if parsed.None? {
        return BadRequest("Invalid port format");
      }
      currentScan := ResetScan(target, parsed.value);
      progressLog := [0];
      reply := Started("Scan started", |history|);
    }

    method SetProgress(p: int)
      modifies this
      ensures currentScan == old(currentScan).(progress := p)
      ensures history == old(history) && progressLog == old(progressLog) + [p]
    {
      currentScan := currentScan.(progress := p);
      progressLog := progressLog + [p];
    }

    /** The `except` block of `perform_scan`. */
    method RecordError(message: string)
      modifies this
      ensures currentScan == old(currentScan).(status := "error", error := Some(message))
      ensures history == old(history) + [currentScan] && progressLog == old(progressLog)
    {
      currentScan := currentScan.(status := "error");
      currentScan := currentScan.(error := Some(message));
      history := history + [currentScan];
    }

    /** The hostname loop of `perform_scan`, writing into the device dicts
        `current_scan` already holds; a raising lookup ends in the `except`
        block. */
    method NameDevices(devices: seq<Device>, run: ScannerRun) returns (ok: bool)
      requires currentScan.devices == devices
      modifies this
      ensures progressLog == old(progressLog)
      ensures ok <==> HostFailureFrom(devices, run, 0) == |devices|
      ensures ok ==> currentScan == old(currentScan).(devices := Named(devices, run, |devices|))
                     && history == old(history)
      ensures !ok ==>
        var hf := HostFailureFrom(devices, run, 0);
        && hf < |devices|
        && currentScan == old(currentScan).(devices := Named(devices, run, hf), status := "error",
                                            error := Some(run.hostname(hf, devices[hf].ip).error))
        && history == old(history) + [currentScan]
    {
      var i := 0;
      while i < |devices|
        invariant 0 <= i <= |devices|
        invariant i <= HostFailureFrom(devices, run, 0)
        invariant currentScan == old(currentScan).(devices := Named(devices, run, i))
        invariant history == old(history) && progressLog == old(progressLog)
      {
        var h := run.hostname(i, devices[i].ip);
        if h.Failure? {
          RecordError(h.error);
          return false;
        }
        currentScan := currentScan.(devices := currentScan.devices[i := devices[i].(hostname := Some(h.value))]);
        i := i + 1;
      }
      return true;
    }

    /** The port-scan loop of `perform_scan`: builds `results` locally (it is
        published only by the caller) and writes the progress after each
        device; a raising scan ends in the `except` block. */
    method ScanDevices(devices: seq<Device>, ports: seq<int>, run: ScannerRun)
      returns (ok: bool, results: seq<PortResult>)
      requires |devices| > 0 && currentScan.progress == 50
      modifies this
      ensures
        var n := |devices|;
        var pf := ScanFailureFrom(devices, ports, run, 0);
        && (ok <==> pf == n)
        && progressLog == old(progressLog) + DeviceWrites(pf, n)
        && (ok ==> currentScan == old(currentScan).(progress := ProgressAfter(n, n))
                   && history == old(history)
                   && results == ResultsUpTo(devices, ports, run, n))
        && (!ok ==> pf < n
                    && currentScan == old(currentScan).(progress := ProgressAfter(pf, n), status := "error",
                                                        error := Some(run.scanPorts(pf, devices[pf].ip, ports).error))
                    && history == old(history) + [currentScan])
    {
      results := [];
      var total := |devices|;
      var idx := 0;
      while idx < total
        invariant 0 <= idx <= total
        invariant idx <= ScanFailureFrom(devices, ports, run, 0)
        invariant results == ResultsUpTo(devices, ports, run, idx)
        invariant currentScan == old(currentScan).(progress := ProgressAfter(idx, total))
        invariant history == old(history)
        invariant progressLog == old(progressLog) + DeviceWrites(idx, total)
      {
        var reply := run.scanPorts(idx, devices[idx].ip, ports);
        if reply.Failure? {
          RecordError(reply.error);
          return false, results;
        }
        var details := BuildPortDetails(reply.value.openPorts, run);
        results := results + [PortResult(reply.value.ip, Some(details))];
        var scanProgress := 50 + ((idx + 1) * 50) / total;
        SetProgress(Min(99, scanProgress));
        assert DeviceWrites(idx + 1, total) == DeviceWrites(idx, total) + [DeviceProgress(idx, total)];
        idx := idx + 1;
      }
      ok := true;
    }

    /** One run of `perform_scan` with the given scanner outcomes. */
    method PerformScan(ports: seq<int>, run: ScannerRun)
      requires Valid()
      modifies this
      ensures Valid()
      ensures currentScan == ScanOutcome(old(currentScan), ports, run)
      ensures history == old(history) + [currentScan]
      ensures progressLog == old(progressLog) + ProgressWrites(ports, run)
    {
      currentScan := currentScan.(status := "discovering");
      SetProgress(10);
      if run.arpScan.Failure? {
        RecordError(run.arpScan.error);
        return;
      }
      var devices := run.arpScan.value;
      currentScan := currentScan.(devices := devices);
      SetProgress(40);
      ContinueDiscovered(devices, ports, run);
    }

    /** `perform_scan` after the ARP scan returned `devices`. */
    method ContinueDiscovered(devices: seq<Device>, ports: seq<int>, run: ScannerRun)
      requires currentScan.devices == devices
      modifies this
      ensures currentScan == DiscoveredOutcome(old(currentScan), devices, ports, run)
      ensures history == old(history) + [currentScan]
      ensures progressLog == old(progressLog) + DiscoveredWrites(devices, ports, run)
    {
      if |devices| == 0 {
        currentScan := currentScan.(status := "completed");
        SetProgress(100);
        history := history + [currentScan];
        return;
      }
      var named := NameDevices(devices, run);
      if !named {
        return;
      }
      SetProgress(50);
      currentScan := currentScan.(status := "port_scanning");
      var scanned, results := ScanDevices(devices, ports, run);
      if !scanned {
        return;
      }
      currentScan := currentScan.(results := results);
      currentScan := currentScan.(status := "completed");
      SetProgress(100);
      history := history + [currentScan];
    }
  }

  /** The service-name loop of `perform_scan` for one device. */
  method BuildPortDetails(open: seq<int>, run: ScannerRun) returns (details: seq<OpenPort>)
    ensures details == PortDetails(open, run)
  {
    details := [];
    var j := 0;
    while j < |open|
      invariant 0 <= j <= |open|
      invariant details == PortDetails(open[..j], run)
    {
      var port := open[j];
      var service: string;
      match run.serviceName(port) {
        case Some(name) => service := name;
        case None => service := "unknown";
      }
      details := details + [OpenPort(port, service)];
      j := j + 1;
    }
    assert open[..j] == open;
  }
}
