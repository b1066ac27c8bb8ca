/** The JSON shapes the dashboard reads from the scan service, with the fields
    the frontend treats as optional kept optional, and the open-port totals
    the views compute from them. */
module ScanData {
  import opened Wrappers

  datatype Device = Device(ip: string, mac: string, hostname: Option<string>)

  datatype OpenPort = OpenPort(port: int, service: string)

  /** One entry of `results`; the views read `open_ports` with `?.`. */
  datatype PortResult = PortResult(ip: string, openPorts: Option<seq<OpenPort>>)

  /** The body of GET /api/scan/status, which the page keeps as `currentScan`. */
  datatype ScanState = ScanState(
    status: string,
    progress: int,
    devices: seq<Device>,
    results: seq<PortResult>,
    error: Option<string>)

  /** One element of GET /api/scan/history as the history table reads it:
      every field may be absent. */
  datatype HistoryEntry = HistoryEntry(
    timestamp: Option<string>,
    target: Option<string>,
    status: Option<string>,
    devices: Option<seq<Device>>,
    results: Option<seq<PortResult>>)

  /** JavaScript truthiness of an optional string: present and non-empty. */
  predicate Truthy(s: Option<string>) { s.Some? && s.value != "" }

  /** `device.open_ports?.length || 0` */
  function OpenPortCount(r: PortResult): nat {
    match r.openPorts
    case Some(ps) => |ps|
    case None => 0
  }

  /** `results.reduce((acc, device) => acc + (device.open_ports?.length || 0), 0)`,
      a left fold. */
  function TotalOpenPorts(rs: seq<PortResult>): nat
    decreases |rs|
  {
    if rs == [] then 0 else TotalOpenPorts(rs[..|rs| - 1]) + OpenPortCount(rs[|rs| - 1])
  }

  /** Every reported open port, result after result. */
  function AllOpenPorts(rs: seq<PortResult>): seq<OpenPort>
    decreases |rs|
  {
    if rs == [] then [] else rs[0].openPorts.GetOr([]) + AllOpenPorts(rs[1..])
  }

  lemma {:induction false} AllOpenPortsSnoc(rs: seq<PortResult>, r: PortResult)
    ensures AllOpenPorts(rs + [r]) == AllOpenPorts(rs) + r.openPorts.GetOr([])
    decreases |rs|
  {
    if rs == [] {
      assert [] + [r] == [r];
      assert [r][1..] == [];
    } else {
      assert (rs + [r])[1..] == rs[1..] + [r];
      AllOpenPortsSnoc(rs[1..], r);
    }
  }

  /** The fold counts exactly the open ports listed across all results. */
  lemma {:induction false} TotalCountsAllOpenPorts(rs: seq<PortResult>)
    ensures TotalOpenPorts(rs) == |AllOpenPorts(rs)|
    decreases |rs|
  {
    if rs != [] {
      var init := rs[..|rs| - 1];
      TotalCountsAllOpenPorts(init);
      AllOpenPortsSnoc(init, rs[|rs| - 1]);
      assert init + [rs[|rs| - 1]] == rs;
    }
  }

  /** The total is zero exactly when no result lists an open port. */
  lemma {:induction false} TotalZeroIff(rs: seq<PortResult>)
    ensures TotalOpenPorts(rs) == 0 <==> forall i :: 0 <= i < |rs| ==> OpenPortCount(rs[i]) == 0
    decreases |rs|
  {
    if rs != [] {
      var init := rs[..|rs| - 1];
      TotalZeroIff(init);
      assert forall i :: 0 <= i < |init| ==> init[i] == rs[i];
    }
  }

  /** page.tsx's fold `acc + device.open_ports.length`, which throws (`None`)
      as soon as a result has no `open_ports`. */
  function StrictTotalOpenPorts(rs: seq<PortResult>): (r: Option<nat>)
    ensures r.Some? <==> forall i :: 0 <= i < |rs| ==> rs[i].openPorts.Some?
    ensures r.Some? ==> r.value == TotalOpenPorts(rs)
    decreases |rs|
  {
    if rs == [] then Some(0)
    else
      match StrictTotalOpenPorts(rs[..|rs| - 1])
      case None => None
      case Some(n) =>
        match rs[|rs| - 1].openPorts
        case None => None
        case Some(ps) => Some(n + |ps|)
  }
}
