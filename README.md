# Network Scanner, modelled in Dafny

Network Scanner is a small dashboard for finding devices and open ports on a
local network. It has three parts:

- **A Next.js page** (`frontend/app/page.tsx`). It starts a scan, polls its
  status every two seconds, raises toasts and shows the past scans.
  - Its components show the phase and progress (`scan-status.tsx`), one
    card per discovered device (`device-grid.tsx`) and a searchable history
    table (`scan-history.tsx`).
  - A header badge probes the backend on its own (`connection-status.tsx`).
- **A Flask service** (`backend/app.py`). It holds one global
  `current_scan` and a `scan_history` list.
  - `POST /api/scan` validates the request and resets the scan.
  - A background `perform_scan` moves the scan through *discovering* and
    *port_scanning* to *completed* or *error*, and appends one snapshot to
    the history.
- **A simulated scanner** (`scripts/scanner.py`). It parses a target (a
  CIDR network, a last-octet range such as `10.0.0.3-7`, or one address),
  picks 5 to 10 of its addresses with random MAC addresses, reports random
  open ports, and names services by port.

The project models each part in the form the source takes:

- **State changed step by step** becomes a class whose methods are proved
  against a pure specification function:
  - the page: `HomePage.Dashboard`, against `HomePage.Step`;
  - the service: `Backend.ScanServer`, against `Backend.ScanOutcome` and
    `Backend.ProgressWrites`;
  - the connection badge: `ConnectionIndicator.ConnectionMonitor`;
  - the expand/collapse lists: `HistoryView.HistoryPanel` and
    `DeviceGridView.DeviceGridPanel`.
- **Pure lookups, filters and renderings** become functions and lemmas.
- **Outside effects become explicit inputs.** Every network answer is an
  input: a start, poll, history or probe outcome, or what each scanner call
  of a run returns or raises (`Backend.ScannerRun`). Every random number the
  scanner draws is read from a stream passed in:
  - `rng(0)` is the device count;
  - `rng(1 + i)` is the `i`-th sample pick;
  - the following draws are the MAC bytes;
  - `coin(i)` is the draw for the `i`-th port.

Files:

- `wrappers.dfy`: `Option`, `Result`, `Min`.
- `arith.dfy`: facts of integer multiplication and division by a positive factor, shared by the address arithmetic and the progress bounds.
- `text.dfy`: ASCII lower-casing, substring search, `split`/`join`, decimal
  rendering, and Python's `int()` on strings.
- `seqs.dfy`: reverse, filter, the subsequence relation.
- `toggle.dfy`: the expand/collapse toggle.
- `scan_data.dfy`: the JSON shapes and the open-port totals.
- One file per core source file: `page.dfy`, `backend_app.dfy`,
  `connection_status.dfy`, `scan_status.dfy`, `scan_history.dfy`,
  `device_grid.dfy`, `sim_scanner.dfy`.

## Model

| member | source | states |
|---|---|---|
| HomePage.Dashboard.constructor | frontend/app/page.tsx:16-26 | The mounted page holds the idle scan with progress 0 and no devices or results. It has an empty history, is not scanning, assumes the backend is connected, and has issued the mount-time history request. |
| HomePage.MountedShowsFormOnly | frontend/app/page.tsx:163-197 | The freshly mounted page shows no status panel, no device grid, no history panel and no setup instructions. |
| HomePage.Step | frontend/app/page.tsx:29-145 | Each continuation adds one toast exactly when it raises one, and never alters earlier toasts. It issues a history request only after a terminal poll. Only the start request raises `isScanning`. Only a successful poll changes the displayed scan, and it sets it to the fetched value. Only a history answer changes the history or the connection flag. |
| HomePage.Dashboard.BeginStart | frontend/app/page.tsx:104-106 | The new state is `Step` of the old state on the start event. |
| HomePage.Dashboard.FinishStart | frontend/app/page.tsx:108-145 | The new state is `Step` of the old state on the start answer. |
| HomePage.Dashboard.ApplyPoll | frontend/app/page.tsx:33-73 | The new state is `Step` of the old state on the poll outcome. |
| HomePage.Dashboard.ApplyHistory | frontend/app/page.tsx:82-96 | The new state is `Step` of the old state on the history outcome. |
| HomePage.StartRaisesFlag | frontend/app/page.tsx:104-106 | Starting raises `isScanning` at once, shows the status panel and leaves the displayed scan and its device grid as they were. There is no guard against a scan in progress and no reset. |
| HomePage.StartError | frontend/app/page.tsx:116-118 | There is an error message exactly when the start did not succeed. A rejected start's message is the body's non-empty `error`. If the body cannot be read it is "Unknown error". If `error` is missing or empty it is "HTTP error! status: N". A thrown request carries its own message. |
| HomePage.StartToast | frontend/app/page.tsx:123-143 | Success gives the "Scan started" toast naming the target and the ports. A message containing "fetch" gives the fixed "Connection error" toast. Any other message gives "Failed to start scan" with that message. The toast is destructive exactly when the start failed. |
| HomePage.StartAnswerOutcome | frontend/app/page.tsx:104-145 | After a start and its answer, `isScanning` holds exactly when the start succeeded. Exactly one toast has been added. The displayed scan is unchanged. |
| HomePage.RejectedFetchMessageReadsAsConnectionError | frontend/app/page.tsx:127-136 | A rejected start whose error text mentions "fetch" is reported as a connection error. |
| HomePage.PollOkReplacesScan | frontend/app/page.tsx:39-64 | A successful poll replaces the displayed scan wholesale. A non-terminal poll changes nothing else. A terminal one lowers `isScanning` and adds exactly one toast. |
| HomePage.CompletedPollAnnounces | frontend/app/page.tsx:46-53 | A completed poll whose results all list their ports announces the device count and the open-port total, and requests the history. |
| HomePage.FailedToast | frontend/app/page.tsx:55-59 | The "Scan failed" toast is destructive. It carries the backend's error text when that is non-empty, and "An unknown error occurred" otherwise. |
| HomePage.ErrorPollReports | frontend/app/page.tsx:54-63 | An "error" poll adds the "Scan failed" toast and requests the history. |
| HomePage.PollFailureKeepsScan | frontend/app/page.tsx:65-73 | A failed poll (non-ok or thrown) lowers `isScanning` and adds one "Connection error" toast. It keeps the displayed scan and requests no history. |
| HomePage.HistoryAnswerReplaces | frontend/app/page.tsx:82-96 | A successful history answer replaces the list and sets the connection flag. A failed one empties the list and clears the flag, so the setup instructions appear exactly then. |
| HomePage.RunToasts | frontend/app/page.tsx:29-145 | Over any sequence of continuations, the toasts raised are exactly one per toast-raising event, and earlier toasts are kept. |
| HomePage.LastHistoryAnswerDecides | frontend/app/page.tsx:82-96 | The last history answer of any run decides the history shown and the connection flag. |
| HomePage.ScanChangesOnlyByPolls | frontend/app/page.tsx:39-41 | Without a successful poll the displayed scan never changes. |
| HomePage.CompletedScanScenario | frontend/app/page.tsx:29-197 | Start, a progress poll, a completed poll and a history answer leave the page not scanning, showing the final scan, the device grid and the history. Exactly two toasts are raised, "Scan started" and "Scan completed". |
| ScanData.StrictTotalOpenPorts | frontend/app/page.tsx:49-52 | The completed toast's fold yields a total exactly when every result has `open_ports`, and that total is the open-port count. |
| ScanData.TotalCountsAllOpenPorts | frontend/components/scan-status.tsx:90 | The fold over `results` counts exactly the open ports listed across all results. A missing list counts as zero. |
| ScanData.TotalZeroIff | frontend/components/scan-status.tsx:90 | The total is zero exactly when no result lists an open port. |
| Backend.ValidateStart | backend/app.py:27-38 | A missing or empty target is rejected with "Target IP range is required". Otherwise an unparsable port list is rejected with "Invalid port format". Otherwise the request is accepted with its target and the parsed ports. A missing `ports` key means the default list. |
| Backend.ParsePieces | backend/app.py:36 | The pieces are accepted exactly when every piece is accepted by `int()`, and the `k`-th port is the value of the `k`-th piece. |
| Backend.PortListRoundTrip | backend/app.py:35-38 | Any non-empty list of naturals, written in decimal and joined by commas, reads back exactly. No 1-65535 range is enforced. |
| Backend.DefaultPortsParsed | backend/app.py:29 | The default port string reads as 21, 22, 23, 80, 443, 445, 3389. |
| Backend.EmptyPieceRejected | backend/app.py:35-38 | A doubled, trailing or leading comma, or an empty string, makes the port list invalid. |
| Backend.MissingTargetRejected | backend/app.py:32-33 | An absent or empty target is rejected whatever the ports. |
| Backend.ScanServer.constructor | backend/app.py:12-13 | The service starts idle at progress 0 with no devices or results and an empty history. |
| Backend.ScanServer.StartScan | backend/app.py:23-58 | A rejected request answers 400 with its message and changes nothing. An accepted one installs the "scanning" scan with progress 0, the target, the ports and empty devices and results. It answers with the history length as `scan_id` and leaves the history alone. |
| Backend.ScanServer.PerformScan | backend/app.py:60-124 | The final `current_scan` is `ScanOutcome` of the old one. Exactly one snapshot, the final scan, is appended to the history. The progress values written are `ProgressWrites`. |
| Backend.ScanServer.ContinueDiscovered | backend/app.py:73-119 | Once the ARP scan has returned, the rest of the run ends in `DiscoveredOutcome`, appends one snapshot and writes `DiscoveredWrites`. |
| Backend.ScanServer.NameDevices | backend/app.py:80-81 | The hostname loop fills each device's hostname in place. The first lookup that raises ends the run as an error with its text and one snapshot. |
| Backend.ScanServer.ScanDevices | backend/app.py:87-112 | The port-scan loop builds one result per device and writes the per-device progress after each. The first scan that raises ends the run as an error and publishes no results. |
| Backend.BuildPortDetails | backend/app.py:93-103 | Each open port is paired with its service name, or "unknown" when the lookup raised. |
| Backend.DeviceProgressBounds | backend/app.py:111-112 | The per-device progress lies in 50..99 and does not decrease from one device to the next. |
| Backend.ProgressNeverDecreases | backend/app.py:65-116 | Starting from the reset value 0, every value a run writes to `progress` lies in 10..100, and the values never decrease. |
| Backend.OutcomeProgressIsLastWrite | backend/app.py:65-116 | The final progress is the last value written. |
| Backend.OutcomeIsTerminal | backend/app.py:114-124 | A run ends "error", with the exception text, exactly when a scanner call raised. Otherwise it ends "completed" at progress 100. An error never publishes results. |
| Backend.NoDevicesCompletes | backend/app.py:73-77 | When discovery finds nothing the run completes at once at progress 100, with progress writes 10, 40, 100, and port scanning is skipped. |
| Backend.CompletedResultsPerDevice | backend/app.py:80-119 | A completed run has one result per device, in device order, each from that device's port scan. Every open port carries the name the lookup returns, and "unknown" exactly when the lookup raises. Every device carries its looked-up hostname. |
| ConnectionIndicator.ConnectionMonitor.constructor | frontend/components/connection-status.tsx:8 | The badge starts in "checking". |
| ConnectionIndicator.AfterProbe | frontend/components/connection-status.tsx:11-26 | A probe never leaves "checking". It gives "connected" exactly for an ok answer, and "disconnected" for a non-ok answer or a thrown request, the timeout included. |
| ConnectionIndicator.LastProbeDecides | frontend/components/connection-status.tsx:11-32 | After any non-empty sequence of probes the state is not "checking", and it is that of the last probe alone. |
| ConnectionIndicator.ConnectionMonitor.CheckConnection | frontend/components/connection-status.tsx:11-26 | Applying a probe keeps the state equal to the outcome of the probes applied so far, that is, the last one's. |
| ConnectionIndicator.GetStatusConfig | frontend/components/connection-status.tsx:37-58 | The badge reads "Backend Connected", "Backend Disconnected" or "Checking Connection". |
| ConnectionIndicator.StatusConfigsDistinct | frontend/components/connection-status.tsx:37-58 | Distinct states show distinct texts. |
| ScanStatusView.StatusText | frontend/components/scan-status.tsx:17-30 | The four named phases get their sentences. Every other status reads "Preparing scan". |
| ScanStatusView.UnnamedPhasesReadAlike | frontend/components/scan-status.tsx:27-28 | The page's "idle" and the service's "scanning" both read "Preparing scan". |
| ScanStatusView.BadgeColours | frontend/components/scan-status.tsx:56-61 | At most one colour class applies to the badge, and one does exactly for the four named phases. |
| ScanStatusView.IndicatorColours | frontend/components/scan-status.tsx:70-75 | At most one colour class applies to the progress bar, and one does exactly for the four named phases. |
| ScanStatusView.BadgeSharesGreen | frontend/components/scan-status.tsx:56-75 | The badge colours "completed" and "port_scanning" alike. The progress bar tells them apart. |
| ScanStatusView.OpenPortsShown | frontend/components/scan-status.tsx:90 | The "Open Ports" figure is the number of open ports listed across the results, and it is zero exactly when no result lists one. |
| ScanStatusView.DeviceBadgeReadsCount | frontend/components/scan-status.tsx:63 | The device badge is digits followed by " Devices Found", and the digits read back as the device count. |
| HistoryView.EmptyTermShowsAllReversed | frontend/components/scan-history.tsx:29-44 | With no search term the table shows the whole history, newest first. |
| HistoryView.ShownIsReversedSubsequence | frontend/components/scan-history.tsx:29-44 | Read bottom up, the rows are the history with some entries left out and the rest in their order. |
| HistoryView.ShownIffMatches | frontend/components/scan-history.tsx:30-42 | An entry is shown exactly when it is in the history and its target, or some device's ip or non-empty hostname, contains the term, ignoring ASCII case. |
| HistoryView.BareEntryMatchesOnlyEmptyTerm | frontend/components/scan-history.tsx:31-42 | An entry with neither a target nor a device list survives only the empty term. |
| HistoryView.MatchIgnoresCase | frontend/components/scan-history.tsx:32 | A term and its lower-case form match the same entries. |
| HistoryView.EmptyMessage | frontend/components/scan-history.tsx:71-74 | A message replaces the table exactly when no row is shown. It reads "No matching scan results found" with a term and "No scan history available" without one. |
| HistoryView.NoHistoryMessage | frontend/components/scan-history.tsx:71-74 | Without a term the empty message appears exactly when the history is empty. |
| HistoryView.EntryOpenPorts | frontend/components/scan-history.tsx:80-81 | A row's open-port total is the number of ports listed in its results. Missing `results` and missing `open_ports` count as zero. |
| HistoryView.ExactlyOneBadgeColour | frontend/components/scan-history.tsx:104-111 | Exactly one status colour applies: green for "completed", red for "error", gray for anything else, a missing status included. |
| HistoryView.StatusLabel | frontend/components/scan-history.tsx:111 | The badge text is never empty. It is the status when that is non-empty, and "Unknown" when the status is missing or empty. |
| HistoryView.HistoryPanel.ToggleScan | frontend/components/scan-history.tsx:19-21 | Toggling flips whether that row position is expanded and leaves every other position as it was. |
| Toggle.Toggle | frontend/components/scan-history.tsx:20 | An absent key is added and a present one removed. Every other key keeps its membership. |
| Toggle.ToggleTwice | frontend/components/device-grid.tsx:19-21 | Toggling the same key twice restores every key's membership. |
| Toggle.ToggleOpenThenClose | frontend/components/device-grid.tsx:19-21 | Opening a closed entry and closing it again restores the list itself. |
| DeviceGridView.DeviceGridPanel.ToggleDevice | frontend/components/device-grid.tsx:19-21 | Toggling flips whether that ip's card is open and leaves every other ip as it was. |
| DeviceGridView.GetPortResult | frontend/components/device-grid.tsx:23-25 | Nothing is found exactly when no result has the ip. Otherwise the first result with that ip is found. |
| DeviceGridView.ServiceTone | frontend/components/device-grid.tsx:27-39 | The colour is gray exactly when the lower-cased name is not one of ssh, http, https, ftp, telnet, smb, rdp. |
| DeviceGridView.RiskLevel | frontend/components/device-grid.tsx:41-52 | The lower-cased name telnet is "High", ftp and smb "Medium", http, https and ssh "Low", and anything else "Unknown". |
| DeviceGridView.LookupsIgnoreCase | frontend/components/device-grid.tsx:38-51 | A name and its lower-case form get the same colour and the same risk. |
| DeviceGridView.RdpColouredButUnrated | frontend/components/device-grid.tsx:27-52 | The scanner's "RDP" has a colour of its own but no risk entry. "SSH" and "Telnet" are rated in spite of their capitals. |
| DeviceGridView.Badges | frontend/components/device-grid.tsx:57-91 | The "N Ports" badge shows exactly when the first result for the ip lists open ports, with their number. The "Scanning" badge shows exactly while scanning without one. The two never show together. |
| DeviceGridView.ScanningCardHasOneBadge | frontend/components/device-grid.tsx:82-91 | While scanning every card shows exactly one of the two badges. |
| DeviceGridView.CardsKeyedByIp | frontend/components/device-grid.tsx:56-65 | Two devices with the same ip share their key, their open state and their badges. |
| SimScanner.ServiceName | scripts/scanner.py:125-152 | The name is not "Unknown" exactly for the fourteen listed ports. |
| SimScanner.ServiceRoundTrip | scripts/scanner.py:135-150 | The name of a listed port looks up that port again in the inverted table, so the table's names are distinct. |
| SimScanner.UnknownIsNoService | scripts/scanner.py:152 | The name of an unlisted port is no service's name. |
| SimScanner.ParseFormat | scripts/scanner.py:44-45 | Reading a dotted-decimal address written by `str(ip)` gives the address back. |
| SimScanner.SingleTarget | scripts/scanner.py:44-45 | A target that is one dotted-decimal address parses to exactly that address. |
| SimScanner.SlashMeansNetwork | scripts/scanner.py:32-35 | A target containing "/" is always read as a network, never as a range. |
| SimScanner.CidrHosts | scripts/scanner.py:33-34 | The hosts of a network are ascending and lie inside it. A /32 is only its one address, a /31 has two, and a wider network has all but its first and last addresses. |
| SimScanner.RangeTargetExpands | scripts/scanner.py:36-40 | A target `P.s-e` with `s <= e < 256` expands to the `e - s + 1` consecutive addresses P.s to P.e. |
| SimScanner.TargetAscending | scripts/scanner.py:30-45 | Every parsed target lists its addresses in strictly ascending order, so without repeats. |
| SimScanner.ParseErrorFindsNothing | scripts/scanner.py:46-48 | A target that does not parse yields no devices. |
| SimScanner.DeviceCountAsWritten | scripts/scanner.py:51 | The count as written fails exactly for fewer than five addresses. Otherwise it lies between 5 and min(10, n). |
| SimScanner.SingleTargetRaises | scripts/scanner.py:44-51 | A single-address target parses, yet the count as written raises on it. The corrected count is 1. |
| SimScanner.DeviceCount | scripts/scanner.py:50-51 | The corrected count lies between min(5, n) and min(10, n). |
| SimScanner.DeviceCountAgrees | scripts/scanner.py:51 | With five addresses or more, the corrected count equals the count as written. |
| SimScanner.SamplePicks | scripts/scanner.py:52 | The sample has the requested size, draws only from the pool, and picks no element twice from a pool without repeats. |
| SimScanner.ArpDeviceCount | scripts/scanner.py:50-52 | Between min(5, n) and min(10, n) devices are found for a target of `n` addresses. |
| SimScanner.ArpDevicesFromTarget | scripts/scanner.py:50-57 | Every device is an address of the target, no address is reported twice, and every MAC has the MAC shape. |
| SimScanner.ArpDevicesAsWritten | scripts/scanner.py:50-52 | For a parsed address list, the scan as written raises exactly when the list holds fewer than five addresses. |
| SimScanner.ArpOutcomeAsWritten | scripts/scanner.py:11-61 | `get_arp_scan` as written raises exactly for a target that parses to fewer than five addresses. |
| SimScanner.ArpScanList | scripts/scanner.py:50-61 | After parsing, the count, sample and loop give `ArpDevicesAsWritten` of the list and the draws. |
| SimScanner.ArpScan | scripts/scanner.py:11-61 | `get_arp_scan` as written gives `ArpOutcomeAsWritten` of the target and the draws: no devices for a target that does not parse, an error for one of fewer than five addresses, and otherwise the devices built by the loop. |
| SimScanner.ArpDevicesAgree | scripts/scanner.py:50-57 | For a parsed address list, whenever the scan as written returns, it returns the devices of the corrected scan. |
| SimScanner.ArpAsWrittenAgrees | scripts/scanner.py:50-61 | Whenever the scan as written returns, it returns the corrected outcome `ArpOutcome`. |
| SimScanner.SingleTargetArpRaises | scripts/scanner.py:44-51 | The scan as written raises on a single-address target, where the corrected scan reports that one address. |
| SimScanner.MacShape | scripts/scanner.py:56 | A MAC is six pairs of lower-case hex digits joined by ":". |
| SimScanner.MacRoundTrip | scripts/scanner.py:56 | A MAC is 17 characters long and reads back as the six bytes drawn. |
| SimScanner.Chance | scripts/scanner.py:107-115 | Ports 22, 80, 443 and 445 are open with chance 0.6, and every other port with chance 0.3. |
| SimScanner.ScanPorts | scripts/scanner.py:89-123 | `scan_ports` returns its input ip, and the ports whose draws fall below their chance. |
| SimScanner.OpenIsSubsequence | scripts/scanner.py:109-118 | The open ports are some of the given ports, in the given order. |
| SimScanner.OpenExtremes | scripts/scanner.py:109-118 | Draws all below 0.3 open every port. Draws all at 0.6 or above open none. |

## Left out

- Network and browser I/O are outcomes passed in: `fetch`, JSON decoding, `AbortSignal.timeout` and the Flask routes. Timers are also not modelled:
  - the intervals of 2 and 10 seconds;
  - effect arming and cleanup;
  - overlapping polls.
- The scan thread of `start_scan` is not modelled, nor the race in which an old thread writes into a newly reset `current_scan`. The caller runs `PerformScan` after `StartScan`.
- backend/scanner.py is not part of this model. The service's scanner calls are inputs (`Backend.ScannerRun`), each of which may raise.
- `get_hostname` of scripts/scanner.py is not modelled: it calls `socket.getfqdn` and makes random vendor names. The service receives hostnames as inputs.
- `random`, `time.sleep` and `print` are not modelled. Random numbers are a stream passed in, and `random.sample` is one draw per pick.
- Backend.DeviceProgress: `int((idx + 1) / total * 50)` is computed in floating point. The model uses exact integer division, so a rounding error in the float product is not captured. For the 29th of 50 devices, `29 / 50 * 50` is 28.999999999999996 in IEEE doubles, so the service writes 78 where the model writes 79. `Backend.DeviceProgressBounds` and `Backend.ProgressNeverDecreases` hold for the float values too, since the float quotient is monotone in `idx` and stays within 0 to 50. Likewise `SimScanner.Chance` compares the draw with the exact reals 0.6 and 0.3, not with their nearest doubles.
- SimScanner.ParseTarget: IPv6 addresses and netmask or hostmask prefixes (`/255.255.255.0`) are parse errors in the model. Python's `ipaddress` accepts them. An octet with a leading zero (`010`) is rejected, which is the rule of `ipaddress` only since Python 3.9.5 and 3.8.12; earlier versions accept it.
- SimScanner.ArpDeviceCount: states a lower bound of min(5, n) rather than 5, because the model uses the corrected count (see Findings).
- SimScanner.ArpOutcome: is the corrected scan, built on `DeviceCount`. It returns devices for a target of fewer than five addresses, where the script raises. The script as written is `ArpOutcomeAsWritten`, which `ArpScan` computes; `ArpDeviceCount` and `ArpDevicesFromTarget` are stated about the corrected scan.
- Text.PyInt: only ASCII digits and whitespace are modelled. Python's `int()` also accepts other Unicode digits and spaces.
- Text.PyInt: has no digit limit. Since Python 3.11, and in the matching security releases of 3.7 to 3.10, `int()` by default raises `ValueError` for a decimal string of more than 4300 digits (`sys.get_int_max_str_digits`). The files modelled fix no Python version.
- Backend.ParsePieces: accepts a piece of more than 4300 digits. Under the default digit limit, `start_scan` answers "Invalid port format" for it instead.
- Backend.PortListRoundTrip: holds for naturals of any length. Under the default digit limit it holds only for naturals of at most 4300 digits.
- Text.ToLower: case folding is ASCII only. JavaScript's `toLowerCase` folds all of Unicode.
- DeviceGridView.ServiceTone and DeviceGridView.RiskLevel: a name such as "constructor" is not modelled. It would hit an `Object.prototype` key of the JavaScript lookup tables.
- The page and the history table read backend JSON whose fields may be missing. Missing optional fields are modelled; a field of another type is not.
- Backend.ValidateStart: a malformed request body of `start_scan` is not modelled. The model's `ScanRequest` has optional string fields, so it does not capture these cases:
  - a body that is not a JSON object, on which `data.get` raises at backend/app.py:28 and the route answers HTTP 500;
  - a `ports` of `null` or of another type, on which `ports_str.split(',')` raises `AttributeError` outside the `except ValueError` and the route answers HTTP 500 (the model reads an absent `ports` as the default string);
  - a non-empty `target` that is not a string, which is accepted, after which `get_arp_scan` fails to parse it and the scan completes with no devices.
- JSX markup, layout, icons, `formatDate`, `scan-form.tsx` and `setup-instructions.tsx` are not modelled. The Tailwind classes that depend on state are modelled: `ScanStatusView.BadgeColours`, `ScanStatusView.IndicatorColours`, `HistoryView.StatusBadgeColours`, `DeviceGridView.ToneClass` and `ConnectionIndicator.GetStatusConfig`. The fixed classes of the layout are not. The form's disabled button is the only guard against a second start, so `HomePage.StartRaisesFlag` states that the page has none.
- `console.error` calls are not modelled.
- The history snapshots carry no timestamp. The history table reads `timestamp` only through `formatDate`, which is not modelled.

## Findings

| source | as written | input that shows it | evidently intended | confidence | as-written member | corrected member |
|---|---|---|---|---|---|---|
| scripts/scanner.py:51 | `random.randint(5, min(10, len(ip_list)))`, outside the `try` | the single-address target `10.0.0.1`, or any range or network of fewer than five addresses: `randint(5, 1)` raises `ValueError` out of `get_arp_scan`. `perform_scan` then ends in "error", provided `import scanner` at backend/app.py:3 loads this script rather than backend/scanner.py, the scapy scanner next to app.py, which has no such count. The setup instructions install only Flask and Flask-CORS (frontend/components/setup-instructions.tsx:29, 41-42), which fits that reading. | `random.randint(min(5, len(ip_list)), min(10, len(ip_list)))`: 5 to 10 devices, never more than the target holds | not executed | SimScanner.DeviceCountAsWritten | SimScanner.DeviceCount |
