/** The device cards of the page (frontend/components/device-grid.tsx): the
    port-result lookup, the service colour and risk tables, the card badges,
    and the list of expanded cards. */
module DeviceGridView {
  import opened Wrappers
  import opened Text
  import opened ScanData
  import Toggle

  /** `results.find((result) => result.ip === ip)` */
  function GetPortResult(results: seq<PortResult>, ip: string): (r: Option<PortResult>)
    ensures r.None? <==> forall k :: 0 <= k < |results| ==> results[k].ip != ip
    ensures r.Some? ==> exists k :: 0 <= k < |results| && results[k] == r.value && results[k].ip == ip
                                    && forall j :: 0 <= j < k ==> results[j].ip != ip
    decreases |results|
  {
    if results == [] then None
    else if results[0].ip == ip then Some(results[0])
    else GetPortResult(results[1..], ip)
  }

  /** The keys of `serviceMap`. */
  predicate HasColour(key: string) {
    key in ["ssh", "http", "https", "ftp", "telnet", "smb", "rdp"]
  }

  /** The colour families of the badge classes; `Gray` is the fallback. */
  datatype Tone = Green | Blue | Purple | Yellow | Red | Orange | Indigo | Gray

  /** The Tailwind classes of each colour family. */
  function ToneClass(t: Tone): string {
    match t
    case Green => "bg-green-500/20 text-green-400 border-green-500/30"
    case Blue => "bg-blue-500/20 text-blue-400 border-blue-500/30"
    case Purple => "bg-purple-500/20 text-purple-400 border-purple-500/30"
    case Yellow => "bg-yellow-500/20 text-yellow-400 border-yellow-500/30"
    case Red => "bg-red-500/20 text-red-400 border-red-500/30"
    case Orange => "bg-orange-500/20 text-orange-400 border-orange-500/30"
    case Indigo => "bg-indigo-500/20 text-indigo-400 border-indigo-500/30"
    case Gray => "bg-gray-500/20 text-gray-400 border-gray-500/30"
  }

  /** The entry of `serviceMap` that `getServiceColor(service)` picks. */
  function ServiceTone(service: string): (t: Tone)
    ensures t == Gray <==> !HasColour(ToLower(service))
  {
    match ToLower(service)
    case "ssh" => Green
    case "http" => Blue
    case "https" => Purple
    case "ftp" => Yellow
    case "telnet" => Red
    case "smb" => Orange
    case "rdp" => Indigo
    case _ => Gray
  }

  /** `getServiceColor(service)` */
  function ServiceColor(service: string): string {
    ToneClass(ServiceTone(service))
  }

  /** The `level` of `getRiskLevel(service)`. */
  function RiskLevel(service: string): (r: string)
    ensures r == "High" <==> ToLower(service) == "telnet"
    ensures r == "Medium" <==> ToLower(service) in ["ftp", "smb"]
    ensures r == "Low" <==> ToLower(service) in ["http", "https", "ssh"]
    ensures r == "Unknown" <==> ToLower(service) !in ["telnet", "ftp", "smb", "http", "https", "ssh"]
  {
    match ToLower(service)
    case "telnet" => "High"
    case "ftp" => "Medium"
    case "smb" => "Medium"
    case "http" => "Low"
    case "https" => "Low"
    case "ssh" => "Low"
    case _ => "Unknown"
  }

  /** Both tables ignore ASCII case: a name and its lower-case form look up
      the same entry. */
  lemma LookupsIgnoreCase(service: string)
    ensures ServiceTone(ToLower(service)) == ServiceTone(service)
    ensures RiskLevel(ToLower(service)) == RiskLevel(service)
  {
    ToLowerIdempotent(service);
  }

  /** Remote desktop has a colour of its own but no risk entry; the
      scanner's capitalised names ("SSH", "RDP") are looked up in lower case. */
  lemma RdpColouredButUnrated()
    ensures ServiceTone("RDP") == Indigo
    ensures RiskLevel("RDP") == "Unknown"
    ensures RiskLevel("SSH") == "Low" && RiskLevel("Telnet") == "High"
  {
    assert ToLower("RDP") == "rdp";
    assert ToLower("SSH") == "ssh";
    assert ToLower("Telnet") == "telnet";
  }

  /** `hasPortResults`: the first result for the ip lists open ports. */
  predicate HasPortResults(results: seq<PortResult>, ip: string) {
    var r := GetPortResult(results, ip);
    r.Some? && r.value.openPorts.Some? && |r.value.openPorts.value| > 0
  }

  /** The badges of one card. */
  datatype CardBadges = CardBadges(ports: Option<nat>, scanning: bool)

  function Badges(results: seq<PortResult>, ip: string, isScanning: bool): (b: CardBadges)
    ensures b.ports.Some? <==> HasPortResults(results, ip)
    ensures b.ports.Some? ==> b.ports.value == OpenPortCount(GetPortResult(results, ip).value) > 0
    ensures b.scanning <==> isScanning && !HasPortResults(results, ip)
    ensures !(b.ports.Some? && b.scanning)
  {
    if HasPortResults(results, ip) then
      CardBadges(Some(|GetPortResult(results, ip).value.openPorts.value|), false)
    else
      CardBadges(None, isScanning)
  }

  /** A scanning grid always shows one of the two badges on every card. */
  lemma ScanningCardHasOneBadge(results: seq<PortResult>, ip: string)
    ensures var b := Badges(results, ip, true); b.ports.Some? != b.scanning
  {
  }

  /** What one card shows, computed from the device, the results, the
      expanded list and the scanning flag. */
  datatype Card = Card(key: string, title: string, isOpen: bool, badges: CardBadges)

  function CardFor(d: Device, results: seq<PortResult>, openDevices: seq<string>, isScanning: bool): Card {
    Card(d.ip, if Truthy(d.hostname) then d.hostname.value else "Unknown Device",
         d.ip in openDevices, Badges(results, d.ip, isScanning))
  }

  /** Cards are keyed by ip: two devices with the same ip share their key,
      their expanded state and their badges. */
  lemma CardsKeyedByIp(d1: Device, d2: Device, results: seq<PortResult>, openDevices: seq<string>, isScanning: bool)
    requires d1.ip == d2.ip
    ensures var c1 := CardFor(d1, results, openDevices, isScanning);
      var c2 := CardFor(d2, results, openDevices, isScanning);
      c1.key == c2.key && c1.isOpen == c2.isOpen && c1.badges == c2.badges
  {
  }

  /** The mounted grid's state hook. */
  class DeviceGridPanel {
    var openDevices: seq<string>

    constructor ()
      ensures openDevices == []
    {
      openDevices := [];
    }

    /** `toggleDevice(ip)` */
    method ToggleDevice(ip: string)
      modifies this
      ensures openDevices == Toggle.Toggle(old(openDevices), ip)
      ensures ip in openDevices <==> ip !in old(openDevices)
      ensures forall other :: other != ip ==> (other in openDevices <==> other in old(openDevices))
    {
      if ip in openDevices {
        openDevices := Toggle.Without(openDevices, ip);
      } else {
        openDevices := openDevices + [ip];
      }
    }
  }
}
