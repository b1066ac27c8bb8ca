/** The history table (frontend/components/scan-history.tsx): the search
    filter over past scans shown newest first, the per-row open-port total,
    the status badge, and the list of expanded rows. */
module HistoryView {
  import opened Wrappers
  import opened Text
  import opened Seqs
  import opened ScanData
  import Toggle

  /** `x.toLowerCase().includes(searchLower)`, ASCII case folding. */
  predicate MentionsTerm(x: string, term: string) {
    Contains(ToLower(x), ToLower(term))
  }

  /** A device matches on its ip, or on a non-empty hostname. */
  predicate DeviceMatches(d: Device, term: string) {
    MentionsTerm(d.ip, term) || (Truthy(d.hostname) && MentionsTerm(d.hostname.value, term))
  }

  /** The callback given to `history.filter`. */
  predicate Matches(term: string, scan: HistoryEntry) {
    term == ""
    || (Truthy(scan.target) && MentionsTerm(scan.target.value, term))
    || (scan.devices.Some? &&
        exists i :: 0 <= i < |scan.devices.value| && DeviceMatches(scan.devices.value[i], term))
  }

  /** `filteredHistory`: the matching entries, newest first. */
  function FilteredHistory(history: seq<HistoryEntry>, term: string): seq<HistoryEntry> {
    Reverse(Filter(history, e => Matches(term, e)))
  }

  /** With no search term every entry is shown, newest first. */
  lemma EmptyTermShowsAllReversed(history: seq<HistoryEntry>)
    ensures FilteredHistory(history, "") == Reverse(history)
  {
    FilterAll(history, e => Matches("", e));
  }

  /** What is shown, read bottom up, is the history with some entries left
      out and the others kept in their order. */
  lemma ShownIsReversedSubsequence(history: seq<HistoryEntry>, term: string)
    ensures IsSubsequence(Reverse(FilteredHistory(history, term)), history)
  {
    var f := Filter(history, e => Matches(term, e));
    ReverseInvolutive(f);
    FilterIsSubsequence(history, e => Matches(term, e));
  }

  /** An entry is shown exactly when it is in the history and matches. */
  lemma ShownIffMatches(history: seq<HistoryEntry>, term: string, scan: HistoryEntry)
    ensures scan in FilteredHistory(history, term) <==> scan in history && Matches(term, scan)
  {
    var f := Filter(history, e => Matches(term, e));
    ReverseMembers(f);
    if scan in f {
      var k :| 0 <= k < |f| && f[k] == scan;
    }
    if scan in history && Matches(term, scan) {
      var k :| 0 <= k < |history| && history[k] == scan;
    }
  }

  /** An entry with neither a target nor a device list survives only the
      empty term. */
  lemma BareEntryMatchesOnlyEmptyTerm(term: string, scan: HistoryEntry)
    requires !Truthy(scan.target) && scan.devices.None?
    ensures Matches(term, scan) <==> term == ""
  {
  }

  /** Matching ignores ASCII case in both the term and the fields. */
  lemma MatchIgnoresCase(term: string, scan: HistoryEntry)
    ensures Matches(ToLower(term), scan) <==> Matches(term, scan)
  {
    ToLowerIdempotent(term);
    if term != "" {
      assert ToLower(term) != "";
    } else {
      assert ToLower(term) == "";
    }
  }

  /** The message in place of an empty table, `None` when rows are shown. */
  function EmptyMessage(history: seq<HistoryEntry>, term: string): (r: Option<string>)
    ensures r.Some? <==> FilteredHistory(history, term) == []
    ensures r.Some? && term != "" ==> r.value == "No matching scan results found"
    ensures r.Some? && term == "" ==> r.value == "No scan history available"
  {
    if FilteredHistory(history, term) != [] then None
    else if term != "" then Some("No matching scan results found")
    else Some("No scan history available")
  }

  /** Without a search term the table is empty only when the history is. */
  lemma NoHistoryMessage(history: seq<HistoryEntry>)
    ensures EmptyMessage(history, "").Some? <==> history == []
  {
    EmptyTermShowsAllReversed(history);
  }

  /** `scan.results?.reduce(...) || 0`: missing `results` and missing
      `open_ports` both count as zero. */
  function EntryOpenPorts(scan: HistoryEntry): (n: nat)
    ensures scan.results.None? ==> n == 0
    ensures scan.results.Some? ==> n == |AllOpenPorts(scan.results.value)|
  {
    match scan.results
    case None => 0
    case Some(rs) =>
      TotalCountsAllOpenPorts(rs);
      TotalOpenPorts(rs)
  }

  datatype BadgeColour = Green | Red | Gray

  /** The three conditional class strings of the status badge, as the
      colours whose condition holds. */
  function StatusBadgeColours(status: Option<string>): seq<BadgeColour> {
    (if status == Some("completed") then [Green] else [])
    + (if status == Some("error") then [Red] else [])
    + (if status != Some("completed") && status != Some("error") then [Gray] else [])
  }

  /** Exactly one colour applies: green for completed, red for error, gray
      for anything else, a missing status included. */
  lemma ExactlyOneBadgeColour(status: Option<string>)
    ensures |StatusBadgeColours(status)| == 1
    ensures StatusBadgeColours(status)[0] == Green <==> status == Some("completed")
    ensures StatusBadgeColours(status)[0] == Red <==> status == Some("error")
  {
  }

  /** The badge text, `scan.status || "Unknown"`. */
  function StatusLabel(status: Option<string>): (r: string)
    ensures r != ""
    ensures Truthy(status) ==> r == status.value
    ensures !Truthy(status) ==> r == "Unknown"
  {
    if Truthy(status) then status.value else "Unknown"
  }

  /** The mounted table's state hooks. `expandedScans` holds positions in
      the filtered list, so a row stays expanded by position, not by entry,
      when the search term changes. */
  class HistoryPanel {
    var expandedScans: seq<int>
    var searchTerm: string

    constructor ()
      ensures expandedScans == [] && searchTerm == ""
    {
      expandedScans := [];
      searchTerm := "";
    }

    /** Whether the row at position `index` is expanded. */
    predicate IsExpanded(index: int)
      reads this
    {
      index in expandedScans
    }

    /** `toggleScan(index)` */
    method ToggleScan(index: int)
      modifies this
      ensures expandedScans == Toggle.Toggle(old(expandedScans), index)
      ensures IsExpanded(index) <==> !old(IsExpanded(index))
      ensures forall j :: j != index ==> (IsExpanded(j) <==> old(IsExpanded(j)))
      ensures searchTerm == old(searchTerm)
    {
      if index in expandedScans {
        expandedScans := Toggle.Without(expandedScans, index);
      } else {
        expandedScans := expandedScans + [index];
      }
    }

    /** The search box's `onChange`. */
    method SetSearchTerm(term: string)
      modifies this
      ensures searchTerm == term && expandedScans == old(expandedScans)
    {
      searchTerm := term;
    }

    /** The rows the table shows for `history`. */
    function Rows(history: seq<HistoryEntry>): seq<HistoryEntry>
      reads this
    {
      FilteredHistory(history, searchTerm)
    }
  }
}
