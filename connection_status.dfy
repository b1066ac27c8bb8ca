/** The backend indicator in the page header (frontend/components/connection-status.tsx):
    a three-state badge overwritten by the outcome of each probe of
    GET /api/scan/status. It takes no props and shares no state with the page. */
module ConnectionIndicator {

  datatype ConnectionState = Checking | Connected | Disconnected

  /** How one probe ends: an HTTP answer, ok or not, or a thrown `fetch`
      (the five-second abort included). */
  datatype ProbeOutcome = Responded(ok: bool) | Threw

  /** The state `checkConnection` writes for one probe outcome. */
  function AfterProbe(o: ProbeOutcome): (r: ConnectionState)
    ensures r != Checking
    ensures r == Connected <==> o == Responded(true)
    ensures r == Disconnected <==> o == Responded(false) || o == Threw
  {
    match o
    case Responded(ok) => if ok then Connected else Disconnected
    case Threw => Disconnected
  }

  /** The state after the probes are applied one after the other. */
  function AfterProbes(start: ConnectionState, probes: seq<ProbeOutcome>): ConnectionState
    decreases |probes|
  {
    if probes == [] then start else AfterProbes(AfterProbe(probes[0]), probes[1..])
  }

  /** Once a probe has been applied the badge never reads "checking" again,
      and it shows the outcome of the last probe only. */
  lemma {:induction false} LastProbeDecides(start: ConnectionState, probes: seq<ProbeOutcome>)
    requires probes != []
    ensures AfterProbes(start, probes) == AfterProbe(probes[|probes| - 1])
    ensures AfterProbes(start, probes) != Checking
    decreases |probes|
  {
    if |probes| > 1 {
      LastProbeDecides(AfterProbe(probes[0]), probes[1..]);
    }
  }

  lemma {:induction false} AfterProbesSnoc(start: ConnectionState, probes: seq<ProbeOutcome>, o: ProbeOutcome)
    ensures AfterProbes(start, probes + [o]) == AfterProbe(o)
  {
    LastProbeDecides(start, probes + [o]);
  }

  /** The text and colour classes of the badge. */
  datatype StatusConfig = StatusConfig(text: string, className: string)

  function GetStatusConfig(status: ConnectionState): (c: StatusConfig)
    ensures status == Connected ==> c.text == "Backend Connected"
    ensures status == Disconnected ==> c.text == "Backend Disconnected"
    ensures status == Checking ==> c.text == "Checking Connection"
  {
    match status
    case Connected => StatusConfig("Backend Connected", "bg-green-500/20 text-green-400 border-green-500/30")
    case Disconnected => StatusConfig("Backend Disconnected", "bg-red-500/20 text-red-400 border-red-500/30")
    case Checking => StatusConfig("Checking Connection", "bg-yellow-500/20 text-yellow-400 border-yellow-500/30")
  }

  /** The badge tells the three states apart by its text. */
  lemma StatusConfigsDistinct(a: ConnectionState, b: ConnectionState)
    requires a != b
    ensures GetStatusConfig(a).text != GetStatusConfig(b).text
  {
    assert "Backend Connected"[8] != "Backend Disconnected"[8];
    assert "Checking Connection"[0] != "Backend Connected"[0];
    assert "Checking Connection"[0] != "Backend Disconnected"[0];
  }

  /** The mounted component: its one state hook, and the probes applied so far. */
  class ConnectionMonitor {
    var status: ConnectionState
    ghost var applied: seq<ProbeOutcome>

    ghost predicate Valid()
      reads this
    {
      status == AfterProbes(Checking, applied)
    }

    /** `useState("checking")` */
    constructor ()
      ensures Valid() && status == Checking && applied == []
    {
      status := Checking;
      applied := [];
    }

    /** The rest of `checkConnection`, once its probe has ended. */
    method CheckConnection(o: ProbeOutcome)
      requires Valid()
      modifies this
      ensures Valid()
      ensures applied == old(applied) + [o]
      ensures status == AfterProbe(o)
    {
      match o {
        case Responded(ok) =>
          if ok {
            status := Connected;
          } else {
            status := Disconnected;
          }
        case Threw =>
          status := Disconnected;
      }
      applied := applied + [o];
      AfterProbesSnoc(Checking, old(applied), o);
    }
  }
}
