/** The dashboard page (`Home` in frontend/app/page.tsx): its four pieces of
    React state, the toasts it raises, and the four asynchronous continuations
    that change them. Every network answer is an explicit outcome, so each
    continuation is one atomic step of a state machine. */
module HomePage {
  import opened Wrappers
  import opened Text
  import opened Seqs
  import opened ScanData

  datatype Toast = Toast(title: string, description: string, destructive: bool)

  /** `currentScan`, `scanHistory`, `isScanning`, `isBackendConnected`, the
      toasts raised so far and the number of history requests issued. */
  datatype Session = Session(
    currentScan: ScanState,
    scanHistory: seq<HistoryEntry>,
    isScanning: bool,
    isBackendConnected: bool,
    toasts: seq<Toast>,
    historyFetches: nat)

  /** The `useState` default of `currentScan`; it has no `error` field. */
  const IdleScan := ScanState("idle", 0, [], [], None)

  /** What `response.json().catch(...)` yields for a non-ok start answer. */
  datatype ErrorBody = Unparsable | Parsed(error: Option<string>)

  /** How the POST /api/scan request ends. */
  datatype StartOutcome =
    | Accepted                          // ok, body read
    | AcceptedUnreadable(message: string) // ok, but reading the body threw
    | Rejected(status: int, body: ErrorBody)
    | Unreachable(message: string)      // `fetch` itself threw

  /** How one GET /api/scan/status poll ends. */
  datatype PollOutcome = PollOk(data: ScanState) | PollHttpError(status: int) | PollThrew

  /** How one GET /api/scan/history request ends. */
  datatype HistoryOutcome = HistoryOk(entries: seq<HistoryEntry>) | HistoryFailed

  /** The continuations of the page, in the order the browser runs them. */
  datatype Event =
    | StartRequested                                        // startScan up to its await
    | StartAnswered(target: string, ports: string, outcome: StartOutcome)
    | PollAnswered(poll: PollOutcome)                       // the interval callback
    | HistoryAnswered(history: HistoryOutcome)              // fetchScanHistory

  // ---------------------------------------------------------------- toasts

  const CannotConnectToast := Toast(
    "Connection error",
    "Cannot connect to backend server. Please ensure the Flask server is running on port 5000.",
    true)

  const LostConnectionToast := Toast(
    "Connection error",
    "Lost connection to backend server. Please check if the Flask server is running on port 5000.",
    true)

  /** The message of the error `startScan` ends up catching, `None` when the
      start succeeded. */
  function StartError(o: StartOutcome): (r: Option<string>)
    ensures r.None? <==> o.Accepted?
    ensures o.Rejected? && o.body.Unparsable? ==> r == Some("Unknown error")
    ensures o.Rejected? && o.body.Parsed? && Truthy(o.body.error) ==> r == o.body.error
    ensures o.Rejected? && o.body.Parsed? && !Truthy(o.body.error) ==>
              r == Some("HTTP error! status: " + IntToString(o.status))
    ensures (o.Unreachable? || o.AcceptedUnreadable?) ==> r == Some(o.message)
  {
    match o
    case Accepted => None
    case AcceptedUnreadable(m) => Some(m)
    case Rejected(status, body) =>
      var errorData := match body case Unparsable => Some("Unknown error") case Parsed(e) => e;
      if Truthy(errorData) then errorData else Some("HTTP error! status: " + IntToString(status))
    case Unreachable(m) => Some(m)
  }

  /** The one toast `startScan` raises once its request has ended. */
  function StartToast(target: string, ports: string, o: StartOutcome): (t: Toast)
    ensures o.Accepted? ==> t == Toast("Scan started", "Scanning network " + target + " on ports " + ports, false)
    ensures StartError(o).Some? && Contains(StartError(o).value, "fetch") ==> t == CannotConnectToast
    ensures StartError(o).Some? && !Contains(StartError(o).value, "fetch") ==>
              t == Toast("Failed to start scan", StartError(o).value, true)
    ensures t.destructive <==> StartError(o).Some?
  {
    match StartError(o)
    case None => Toast("Scan started", "Scanning network " + target + " on ports " + ports, false)
    case Some(m) => if Contains(m, "fetch") then CannotConnectToast else Toast("Failed to start scan", m, true)
  }

  predicate IsTerminal(status: string) { status == "completed" || status == "error" }

  function CompletedToast(devices: nat, openPorts: nat): Toast {
    Toast("Scan completed", "Found " + NatToString(devices) + " devices and " + NatToString(openPorts) + " open ports", false)
  }

  function FailedToast(error: Option<string>): (t: Toast)
    ensures t.destructive && t.title == "Scan failed"
    ensures Truthy(error) ==> t.description == error.value
    ensures !Truthy(error) ==> t.description == "An unknown error occurred"
  {
    Toast("Scan failed", if Truthy(error) then error.value else "An unknown error occurred", true)
  }

  // ---------------------------------------------------------------- steps

  /** The session right after mounting: the defaults of every `useState`,
      with the mount effect's history request issued. */
  function Mounted(): Session {
    Session(IdleScan, [], false, true, [], 1)
  }

  /** Whether the event raises a toast. */
  predicate EmitsToast(e: Event) {
    match e
    case StartRequested => false
    case StartAnswered(_, _, _) => true
    case PollAnswered(p) => !p.PollOk? || IsTerminal(p.data.status)
    case HistoryAnswered(_) => false
  }

  /** Whether the event issues a history request. */
  predicate RequestsHistory(e: Event) {
    e.PollAnswered? && e.poll.PollOk? && IsTerminal(e.poll.data.status)
    && (e.poll.data.status == "completed" ==> StrictTotalOpenPorts(e.poll.data.results).Some?)
  }

  /** One continuation of the page applied to the session. */
  function Step(s: Session, e: Event): (r: Session)
    ensures |r.toasts| == |s.toasts| + (if EmitsToast(e) then 1 else 0)
    ensures r.toasts[..|s.toasts|] == s.toasts
    ensures r.historyFetches == s.historyFetches + (if RequestsHistory(e) then 1 else 0)
    ensures r.isScanning && !s.isScanning ==> e.StartRequested?
    ensures r.currentScan != s.currentScan ==> e.PollAnswered? && e.poll.PollOk? && r.currentScan == e.poll.data
    ensures (r.scanHistory != s.scanHistory || r.isBackendConnected != s.isBackendConnected) ==> e.HistoryAnswered?
  {
    match e
    case StartRequested =>
      s.(isScanning := true)
    case StartAnswered(target, ports, o) =>
      var toast := StartToast(target, ports, o);
      if StartError(o).None? then s.(toasts := s.toasts + [toast])
      else s.(isScanning := false, toasts := s.toasts + [toast])
    case PollAnswered(PollOk(data)) =>
      if !IsTerminal(data.status) then s.(currentScan := data)
      else if data.status == "completed" then
        match StrictTotalOpenPorts(data.results)
        case Some(m) =>
          s.(currentScan := data, isScanning := false,
             toasts := s.toasts + [CompletedToast(|data.devices|, m)],
             historyFetches := s.historyFetches + 1)
        case None =>
          // building the description throws; the catch reports a lost connection
          s.(currentScan := data, isScanning := false, toasts := s.toasts + [LostConnectionToast])
      else
        s.(currentScan := data, isScanning := false,
           toasts := s.toasts + [FailedToast(data.error)],
           historyFetches := s.historyFetches + 1)
    case PollAnswered(_) =>
      s.(isScanning := false, toasts := s.toasts + [LostConnectionToast])
    case HistoryAnswered(HistoryOk(entries)) =>
      s.(scanHistory := entries, isBackendConnected := true)
    case HistoryAnswered(HistoryFailed) =>
      s.(scanHistory := [], isBackendConnected := false)
  }

  /** The session after a sequence of continuations. */
  function Run(s: Session, es: seq<Event>): Session
    decreases |es|
  {
    if es == [] then s else Run(Step(s, es[0]), es[1..])
  }

  // ---------------------------------------------------------------- panels

  /** `(isScanning || currentScan.status !== "idle") && <ScanStatus .../>` */
  predicate ShowsStatusPanel(s: Session) { s.isScanning || s.currentScan.status != "idle" }

  /** `currentScan.devices.length > 0 && <DeviceGrid .../>` */
  predicate ShowsDeviceGrid(s: Session) { |s.currentScan.devices| > 0 }

  /** The `isScanning` flag handed to the device grid. */
  predicate GridScanningFlag(s: Session) { s.isScanning || s.currentScan.status == "port_scanning" }

  /** `scanHistory.length > 0 && <ScanHistory .../>` */
  predicate ShowsHistoryPanel(s: Session) { |s.scanHistory| > 0 }

  /** `!isBackendConnected && <SetupInstructions />` */
  predicate ShowsSetupInstructions(s: Session) { !s.isBackendConnected }

  // ---------------------------------------------------------------- properties

  /** The freshly mounted page shows the form alone: no status panel, no
      device grid, no history and no setup instructions. */
  lemma MountedShowsFormOnly()
    ensures var s := Mounted();
      !ShowsStatusPanel(s) && !ShowsDeviceGrid(s) && !ShowsHistoryPanel(s) && !ShowsSetupInstructions(s)
  {
  }

  /** `startScan` raises the flag before it awaits anything, and leaves the
      displayed scan as it was: there is no guard against a scan in progress
      and no reset of the previous results. */
  lemma StartRaisesFlag(s: Session)
    ensures Step(s, StartRequested).isScanning
    ensures Step(s, StartRequested).currentScan == s.currentScan
    ensures ShowsStatusPanel(Step(s, StartRequested))
    ensures ShowsDeviceGrid(Step(s, StartRequested)) == ShowsDeviceGrid(s)
  {
  }

  /** Every way the start request can fail lowers the flag again and raises
      one destructive toast; success keeps the flag and confirms the scan. */
  lemma StartAnswerOutcome(s: Session, target: string, ports: string, o: StartOutcome)
    ensures var r := Step(Step(s, StartRequested), StartAnswered(target, ports, o));
      && (r.isScanning <==> o.Accepted?)
      && r.toasts == s.toasts + [StartToast(target, ports, o)]
      && r.currentScan == s.currentScan
      && (o.Unreachable? && Contains(o.message, "fetch") ==> r.toasts[|s.toasts|] == CannotConnectToast)
  {
  }

  /** A rejected start whose body names an error that mentions "fetch" is
      reported as a connection error, like an unreachable server. */
  lemma RejectedFetchMessageReadsAsConnectionError(status: int, target: string, ports: string)
    ensures StartToast(target, ports, Rejected(status, Parsed(Some("Failed to fetch")))) == CannotConnectToast
  {
    assert "Failed to fetch"[10..] == "fetch";
  }

  /** A successful poll replaces the displayed scan wholesale. A non-terminal
      one changes nothing else; a terminal one lowers the flag and raises
      exactly one toast. */
  lemma PollOkReplacesScan(s: Session, data: ScanState)
    ensures var r := Step(s, PollAnswered(PollOk(data)));
      && r.currentScan == data
      && r.scanHistory == s.scanHistory && r.isBackendConnected == s.isBackendConnected
      && (!IsTerminal(data.status) ==>
            r.isScanning == s.isScanning && r.toasts == s.toasts && r.historyFetches == s.historyFetches)
      && (IsTerminal(data.status) ==> !r.isScanning && |r.toasts| == |s.toasts| + 1)
  {
  }

  /** A completed poll whose results all list their open ports announces the
      device count and the open-port total and refreshes the history. */
  lemma CompletedPollAnnounces(s: Session, data: ScanState)
    requires data.status == "completed"
    requires forall i :: 0 <= i < |data.results| ==> data.results[i].openPorts.Some?
    ensures var r := Step(s, PollAnswered(PollOk(data)));
      && r.toasts == s.toasts + [CompletedToast(|data.devices|, TotalOpenPorts(data.results))]
      && r.historyFetches == s.historyFetches + 1
  {
  }

  /** An "error" poll reports the backend's error text, or a fixed text when
      it is missing or empty, and refreshes the history. */
  lemma ErrorPollReports(s: Session, data: ScanState)
    requires data.status == "error"
    ensures var r := Step(s, PollAnswered(PollOk(data)));
      && r.toasts == s.toasts + [FailedToast(data.error)]
      && r.historyFetches == s.historyFetches + 1
  {
  }

  /** A poll that fails, for whatever reason, lowers the flag, raises one
      "Connection error" toast and keeps the displayed scan; it writes no
      error status. */
  lemma PollFailureKeepsScan(s: Session, p: PollOutcome)
    requires !p.PollOk?
    ensures var r := Step(s, PollAnswered(p));
      && !r.isScanning
      && r.toasts == s.toasts + [LostConnectionToast]
      && r.currentScan == s.currentScan
      && r.historyFetches == s.historyFetches
  {
  }

  /** A history answer replaces the list wholesale and sets the connection
      flag; a failed one empties the list and clears the flag. */
  lemma HistoryAnswerReplaces(s: Session, h: HistoryOutcome)
    ensures var r := Step(s, HistoryAnswered(h));
      && (h.HistoryOk? ==> r.scanHistory == h.entries && r.isBackendConnected)
      && (h.HistoryFailed? ==> r.scanHistory == [] && !r.isBackendConnected)
      && ShowsSetupInstructions(r) == h.HistoryFailed?
      && r.toasts == s.toasts
  {
  }

  /** Over any run, exactly one toast is raised per toast-raising event, and
      the earlier toasts are never changed. */
  lemma {:induction false} RunToasts(s: Session, es: seq<Event>)
    ensures |Run(s, es).toasts| == |s.toasts| + |Filter(es, EmitsToast)|
    ensures Run(s, es).toasts[..|s.toasts|] == s.toasts
    decreases |es|
  {
    if es != [] {
      var s1 := Step(s, es[0]);
      RunToasts(s1, es[1..]);
      assert Filter(es, EmitsToast) == (if EmitsToast(es[0]) then [es[0]] else []) + Filter(es[1..], EmitsToast);
      assert Run(s, es).toasts[..|s.toasts|] == Run(s1, es[1..]).toasts[..|s1.toasts|][..|s.toasts|];
    }
  }

  /** The last history answer of a run decides what the history panel and
      the connection flag show. */
  lemma {:induction false} LastHistoryAnswerDecides(s: Session, es: seq<Event>, h: HistoryOutcome, later: seq<Event>)
    requires forall k :: 0 <= k < |later| ==> !later[k].HistoryAnswered?
    ensures var r := Run(s, es + [HistoryAnswered(h)] + later);
      && r.scanHistory == (if h.HistoryOk? then h.entries else [])
      && r.isBackendConnected == h.HistoryOk?
  {
    RunConcat(s, es + [HistoryAnswered(h)], later);
    RunConcat(s, es, [HistoryAnswered(h)]);
    var mid := Run(s, es + [HistoryAnswered(h)]);
    assert mid == Step(Run(s, es), HistoryAnswered(h));
    RunKeepsHistory(mid, later);
  }

  /** Without a successful poll, the displayed scan never changes. */
  lemma {:induction false} ScanChangesOnlyByPolls(s: Session, es: seq<Event>)
    requires forall k :: 0 <= k < |es| ==> !(es[k].PollAnswered? && es[k].poll.PollOk?)
    ensures Run(s, es).currentScan == s.currentScan
    decreases |es|
  {
    if es != [] {
      ScanChangesOnlyByPolls(Step(s, es[0]), es[1..]);
    }
  }

  lemma {:induction false} RunKeepsHistory(s: Session, es: seq<Event>)
    requires forall k :: 0 <= k < |es| ==> !es[k].HistoryAnswered?
    ensures Run(s, es).scanHistory == s.scanHistory
    ensures Run(s, es).isBackendConnected == s.isBackendConnected
    decreases |es|
  {
    if es != [] {
      RunKeepsHistory(Step(s, es[0]), es[1..]);
    }
  }

  lemma {:induction false} RunConcat(s: Session, a: seq<Event>, b: seq<Event>)
    ensures Run(s, a + b) == Run(Run(s, a), b)
    decreases |a|
  {
    if a != [] {
      assert (a + b)[0] == a[0] && (a + b)[1..] == a[1..] + b;
      RunConcat(Step(s, a[0]), a[1..], b);
      assert Run(s, a + b) == Run(Step(s, a[0]), a[1..] + b);
    } else {
      assert a + b == b;
    }
  }

  /** A whole scan seen from the page: start, one progress poll, the final
      poll and its history refresh. The user sees two toasts, the device
      grid with the final devices, and the refreshed history. */
  lemma CompletedScanScenario(target: string, ports: string, progress: ScanState, final: ScanState,
                              entries: seq<HistoryEntry>)
    requires progress.status == "port_scanning" && final.status == "completed"
    requires |final.devices| > 0 && |entries| > 0
    requires forall i :: 0 <= i < |final.results| ==> final.results[i].openPorts.Some?
    ensures var r := Run(Mounted(), [StartRequested, StartAnswered(target, ports, Accepted),
                                     PollAnswered(PollOk(progress)), PollAnswered(PollOk(final)),
                                     HistoryAnswered(HistoryOk(entries))]);
      && !r.isScanning
      && r.currentScan == final
      && r.toasts == [StartToast(target, ports, Accepted),
                      CompletedToast(|final.devices|, TotalOpenPorts(final.results))]
      && r.historyFetches == 2
      && ShowsStatusPanel(r) && ShowsDeviceGrid(r) && ShowsHistoryPanel(r) && !GridScanningFlag(r)
  {
    var es := [StartRequested, StartAnswered(target, ports, Accepted),
               PollAnswered(PollOk(progress)), PollAnswered(PollOk(final)),
               HistoryAnswered(HistoryOk(entries))];
    var s1 := Step(Mounted(), es[0]);
    var s2 := Step(s1, es[1]);
    var s3 := Step(s2, es[2]);
    assert GridScanningFlag(s3);
    var s4 := Step(s3, es[3]);
    var s5 := Step(s4, es[4]);
    assert Run(s4, es[4..]) == s5 by { assert es[4..][1..] == []; }
    assert Run(s3, es[3..]) == Run(s4, es[4..]) by { assert es[3..][1..] == es[4..]; }
    assert Run(s2, es[2..]) == Run(s3, es[3..]) by { assert es[2..][1..] == es[3..]; }
    assert Run(s1, es[1..]) == Run(s2, es[2..]) by { assert es[1..][1..] == es[2..]; }
  }

  // ---------------------------------------------------------------- the component

  /** The mounted `Home` component: its state hooks as fields, each async
      continuation as one method. */
  class Dashboard {
    var currentScan: ScanState
    var scanHistory: seq<HistoryEntry>
    var isScanning: bool
    var isBackendConnected: bool
    var toasts: seq<Toast>
    var historyFetches: nat

    function State(): Session
      reads this
    {
      Session(currentScan, scanHistory, isScanning, isBackendConnected, toasts, historyFetches)
    }

    /** Mounting: the `useState` defaults, then the mount effect's request. */
    constructor ()
      ensures State() == Mounted()
    {
      currentScan := IdleScan;
      scanHistory := [];
      isScanning := false;
      isBackendConnected := true;
      toasts := [];
      historyFetches := 0;
      new;
      IssueHistoryFetch();
    }

    /** `fetchScanHistory()` up to its await. */
    method IssueHistoryFetch()
      modifies this
      ensures State() == old(State()).(historyFetches := old(historyFetches) + 1)
    {
      historyFetches := historyFetches + 1;
    }

    /** `startScan` up to its await: `setIsScanning(true)`. */
    method BeginStart()
      modifies this
      ensures State() == Step(old(State()), StartRequested)
    {
      isScanning := true;
    }

    /** The rest of `startScan`, once the POST has ended. */
    method FinishStart(target: string, ports: string, outcome: StartOutcome)
      modifies this
      ensures State() == Step(old(State()), StartAnswered(target, ports, outcome))
    {
      var error := StartError(outcome);
      if error.Some? {
        isScanning := false;
      }
      toasts := toasts + [StartToast(target, ports, outcome)];
    }

    /** One execution of the interval callback, once its GET has ended. */
    method ApplyPoll(outcome: PollOutcome)
      modifies this
      ensures State() == Step(old(State()), PollAnswered(outcome))
    {
      if !outcome.PollOk? {
        isScanning := false;
        toasts := toasts + [LostConnectionToast];
        return;
      }
      var data := outcome.data;
      currentScan := data;
      if IsTerminal(data.status) {
        isScanning := false;
        if data.status == "completed" {
          var total := StrictTotalOpenPorts(data.results);
          if total.None? {
            toasts := toasts + [LostConnectionToast];
            return;
          }
          toasts := toasts + [CompletedToast(|data.devices|, total.value)];
        } else {
          toasts := toasts + [FailedToast(data.error)];
        }
        IssueHistoryFetch();
      }
    }

    /** The rest of `fetchScanHistory`, once its GET has ended. */
    method ApplyHistory(outcome: HistoryOutcome)
      modifies this
      ensures State() == Step(old(State()), HistoryAnswered(outcome))
    {
      match outcome
      case HistoryOk(entries) =>
        scanHistory := entries;
        isBackendConnected := true;
      case HistoryFailed =>
        scanHistory := [];
        isBackendConnected := false;
    }
  }
}
