/** The simulated scanner (scripts/scanner.py): the service table, the
    parsing of a target into IPv4 addresses by the rules of Python's
    `ipaddress` module, the random choice of devices with their MAC
    addresses, and the random choice of open ports. Each random number the
    script draws is read from a stream passed in as a function. */
module SimScanner {
  import opened Wrappers
  import opened Text
  import opened Seqs
  import opened ScanData
  import opened Arith

  // ---------------------------------------------------------------- services

  /** The keys of the `services` table. */
  const KnownPorts: seq<int> := [21, 22, 23, 25, 53, 80, 110, 143, 443, 445, 3306, 3389, 5432, 8080]

  /** `get_service_name(port)`: `services.get(port, "Unknown")`. */
  function ServiceName(port: int): (r: string)
    ensures r != "Unknown" <==> port in KnownPorts
  {
    match port
    case 21 => "FTP"
    case 22 => "SSH"
    case 23 => "Telnet"
    case 25 => "SMTP"
    case 53 => "DNS"
    case 80 => "HTTP"
    case 110 => "POP3"
    case 143 => "IMAP"
    case 443 => "HTTPS"
    case 445 => "SMB"
    case 3306 => "MySQL"
    case 3389 => "RDP"
    case 5432 => "PostgreSQL"
    case 8080 => "HTTP-Proxy"
    case _ => "Unknown"
  }

  /** The port the table lists under a service name, if any. */
  function PortOfService(name: string): Option<int> {
    if name == "FTP" then Some(21)
    else if name == "SSH" then Some(22)
    else if name == "Telnet" then Some(23)
    else if name == "SMTP" then Some(25)
    else if name == "DNS" then Some(53)
    else if name == "HTTP" then Some(80)
    else if name == "POP3" then Some(110)
    else if name == "IMAP" then Some(143)
    else if name == "HTTPS" then Some(443)
    else if name == "SMB" then Some(445)
    else if name == "MySQL" then Some(3306)
    else if name == "RDP" then Some(3389)
    else if name == "PostgreSQL" then Some(5432)
    else if name == "HTTP-Proxy" then Some(8080)
    else None
  }

  /** Each listed port is told apart by its name: the names are all
      different, so the table can be read backwards. */
  lemma ServiceRoundTrip(port: int)
    requires port in KnownPorts
    ensures PortOfService(ServiceName(port)) == Some(port)
  {
  }

  /** "Unknown" names no port. */
  lemma UnknownIsNoService(port: int)
    requires port !in KnownPorts
    ensures PortOfService(ServiceName(port)) == None
  {
  }

  // ---------------------------------------------------------------- IPv4 addresses

  const AddressSpace: nat := 0x1_0000_0000

  /** An IPv4 address as its 32-bit value. */
  type Address = a: nat | a < AddressSpace

  /** The four bytes of an address, most significant first. */
  function Octets(a: Address): (os: seq<nat>)
    ensures |os| == 4 && forall k :: 0 <= k < 4 ==> os[k] < 256
  {
    var q1 := a / 256;
    var q2 := q1 / 256;
    [q2 / 256, q2 % 256, q1 % 256, a % 256]
  }

  /** The value of four bytes, most significant first. */
  function Value(os: seq<nat>): nat
    requires |os| == 4
  {
    ((os[0] * 256 + os[1]) * 256 + os[2]) * 256 + os[3]
  }

  lemma ValueOfOctets(a: Address)
    ensures Value(Octets(a)) == a
  {
    var q1 := a / 256;
    var q2 := q1 / 256;
    assert a == q1 * 256 + a % 256;
    assert q1 == q2 * 256 + q1 % 256;
    assert q2 == (q2 / 256) * 256 + q2 % 256;
  }

  lemma ValueBound(os: seq<nat>)
    requires |os| == 4 && forall k :: 0 <= k < 4 ==> os[k] < 256
    ensures Value(os) < AddressSpace
  {
  }

  /** Python 3's `_parse_octet`: one to three ASCII digits, no leading zero,
      at most 255. */
  function ParseOctet(s: string): (r: Option<nat>)
    ensures r.Some? ==> r.value < 256
  {
    if s == "" || |s| > 3 || !AllDigits(s) || (s[0] == '0' && s != "0") then None
    else if DigitsValue(s) > 255 then None
    else Some(DigitsValue(s))
  }

  lemma {:induction false} NatToStringShort(n: nat)
    requires n < 1000
    ensures |NatToString(n)| <= 3
  {
    if n >= 10 {
      assert NatToString(n) == NatToString(n / 10) + [DigitChar(n % 10)];
      if n / 10 >= 10 {
        assert NatToString(n / 10) == NatToString(n / 100) + [DigitChar((n / 10) % 10)];
      }
    }
  }

  /** Every byte value is written the way the parser accepts. */
  lemma OctetRoundTrip(n: nat)
    requires n < 256
    ensures ParseOctet(NatToString(n)) == Some(n)
  {
    NatToStringShort(n);
    DigitsRoundTrip(n);
  }

  /** The bytes of the pieces, `None` if any of them is not a byte. */
  function ParseOctets(pieces: seq<string>): (r: Option<seq<nat>>)
    ensures r.Some? ==> |r.value| == |pieces|
    ensures r.Some? ==> forall k :: 0 <= k < |r.value| ==> r.value[k] < 256
  {
    ParseAllMeaning(pieces, ParseOctet);
    ParseAll(pieces, ParseOctet)
  }

  /** `ipaddress.ip_address(s)` for IPv4: four dot-separated bytes. */
  function ParseIPv4(s: string): (r: Option<Address>)
  {
    var pieces := Split(s, '.');
    if |pieces| != 4 then None
    else
      match ParseOctets(pieces)
      case None => None
      case Some(os) =>
        ValueBound(os);
        Some(Value(os))
  }

  /** `str(ip)` for an IPv4 address: dotted decimal. */
  function FormatIPv4(a: Address): string {
    Join(Decimals(Octets(a)), '.')
  }

  lemma DecimalsHaveNoSeparator(ns: seq<nat>, sep: char)
    requires !IsDigit(sep)
    ensures forall k :: 0 <= k < |Decimals(ns)| ==> sep !in Decimals(ns)[k]
  {
  }

  /** Reading a formatted address gives the address back; so distinct
      addresses are written differently. */
  lemma ParseFormat(a: Address)
    ensures ParseIPv4(FormatIPv4(a)) == Some(a)
  {
    var os := Octets(a);
    var pieces := Decimals(os);
    DecimalsHaveNoSeparator(os, '.');
    SplitJoin(pieces, '.');
    forall k | 0 <= k < 4 ensures ParseOctet(pieces[k]) == Some(os[k]) {
      OctetRoundTrip(os[k]);
    }
    ParseAllMeaning(pieces, ParseOctet);
    var r := ParseOctets(pieces);
    assert r.Some?;
    assert r.value == os;
    ValueOfOctets(a);
  }

  lemma FormatInjective(a: Address, b: Address)
    requires FormatIPv4(a) == FormatIPv4(b)
    ensures a == b
  {
    ParseFormat(a);
    ParseFormat(b);
  }

  // ---------------------------------------------------------------- CIDR networks

  function Pow2(n: nat): (r: nat)
    ensures r >= 1
    ensures n >= 1 ==> r >= 2
    ensures n >= 2 ==> r >= 4
  {
    if n == 0 then 1 else 2 * Pow2(n - 1)
  }

  lemma {:induction false} Pow2Add(a: nat, b: nat)
    ensures Pow2(a + b) == Pow2(a) * Pow2(b)
    decreases a
  {
    if a > 0 {
      Pow2Add(a - 1, b);
      var x, y := Pow2(a - 1), Pow2(b);
      var z := Pow2(a - 1 + b);
      assert z == x * y;
      assert Pow2(a + b) == 2 * z;
      assert Pow2(a) == 2 * x;
      DoubleAssoc(x, y);
    }
  }

  lemma Pow2Of32()
    ensures Pow2(32) == AddressSpace
  {
    assert Pow2(2) == 4;
    Pow2Add(2, 2);
    Pow2Add(4, 4);
    Pow2Add(8, 8);
    Pow2Add(16, 16);
  }

  /** The first address of the network of prefix length `p` holding `a`:
      `strict=False` clears the host bits. */
  function NetworkOf(a: Address, p: nat): nat
    requires p <= 32
  {
    var size := Pow2(32 - p);
    DivNonneg(a, size);
    var q: nat := a / size;
    NatProduct(q, size);
    q * size
  }

  lemma NetworkBounds(a: Address, p: nat)
    requires p <= 32
    ensures NetworkOf(a, p) <= a < NetworkOf(a, p) + Pow2(32 - p)
    ensures NetworkOf(a, p) + Pow2(32 - p) <= AddressSpace
  {
    Pow2Add(32 - p, p);
    assert 32 - p + p == 32;
    Pow2Of32();
    DivBounds(a, Pow2(32 - p), Pow2(p));
  }

  predicate StrictlyAscending(s: seq<nat>) {
    forall i, j :: 0 <= i < j < |s| ==> s[i] < s[j]
  }

  /** `list(ip_network(...).hosts())`: every address of the network except
      its first and last, both addresses of a /31, the one address of a /32. */
  function CidrHosts(a: Address, p: nat): (hs: seq<Address>)
    requires p <= 32
    ensures StrictlyAscending(hs)
    ensures forall k :: 0 <= k < |hs| ==> NetworkOf(a, p) <= hs[k] < NetworkOf(a, p) + Pow2(32 - p)
    ensures p == 32 ==> hs == [a]
    ensures p == 31 ==> |hs| == 2
    ensures p <= 30 ==> |hs| == Pow2(32 - p) - 2
  {
    NetworkBounds(a, p);
    var size := Pow2(32 - p);
    var net := NetworkOf(a, p);
    if p == 32 then [a]
    else if p == 31 then [net as Address, (net + 1) as Address]
    else seq(size - 2, k requires 0 <= k < size - 2 => (net + 1 + k) as Address)
  }

  /** Python's `_prefix_from_prefix_string`: ASCII digits worth at most 32. */
  function ParsePrefix(s: string): (r: Option<nat>)
    ensures r.Some? ==> r.value <= 32
  {
    if s == "" || !AllDigits(s) || DigitsValue(s) > 32 then None else Some(DigitsValue(s))
  }

  /** `ip_network(target, strict=False)` for an IPv4 address and a prefix length. */
  function ParseCidr(target: string): Option<seq<Address>> {
    var parts := Split(target, '/');
    if |parts| != 2 then None
    else
      match (ParseIPv4(parts[0]), ParsePrefix(parts[1]))
      case (Some(a), Some(p)) => Some(CidrHosts(a, p))
      case _ => None
  }

  // ---------------------------------------------------------------- last-octet ranges

  /** The position of the last `c` in `s`, as `rsplit(c, 1)` finds it. */
  function LastIndex(s: string, c: char): (r: Option<nat>)
    ensures r.None? <==> c !in s
    ensures r.Some? ==> r.value < |s| && s[r.value] == c && c !in s[r.value + 1..]
    decreases |s|
  {
    if s == [] then None
    else if s[|s| - 1] == c then Some(|s| - 1)
    else
      var r := LastIndex(s[..|s| - 1], c);
      assert r.Some? ==> s[r.value + 1..] == s[..|s| - 1][r.value + 1..] + [s[|s| - 1]];
      r
  }

  /** `[parse(i) for i in range(lo, hi + 1)]`, `None` as soon as one raises. */
  function ParseEach(lo: int, hi: int, parse: int -> Option<Address>): (r: Option<seq<Address>>)
    ensures r.Some? ==> |r.value| == (if lo <= hi then hi - lo + 1 else 0)
    decreases hi - lo + 1
  {
    if lo > hi then Some([])
    else
      match parse(lo)
      case None => None
      case Some(a) =>
        match ParseEach(lo + 1, hi, parse)
        case None => None
        case Some(rest) => Some([a] + rest)
  }

  /** The list holds a value for every `i` exactly when each `parse(i)`
      succeeds, and its `k`-th entry is that of `parse(lo + k)`. */
  lemma {:induction false} ParseEachMeaning(lo: int, hi: int, parse: int -> Option<Address>)
    ensures ParseEach(lo, hi, parse).Some? <==> forall i :: lo <= i <= hi ==> parse(i).Some?
    ensures ParseEach(lo, hi, parse).Some? ==>
      forall k :: 0 <= k < |ParseEach(lo, hi, parse).value| ==> parse(lo + k) == Some(ParseEach(lo, hi, parse).value[k])
    decreases hi - lo + 1
  {
    if lo <= hi {
      ParseEachMeaning(lo + 1, hi, parse);
      if ParseEach(lo, hi, parse).Some? {
        var r := ParseEach(lo, hi, parse).value;
        assert r == [parse(lo).value] + ParseEach(lo + 1, hi, parse).value;
      }
    }
  }

  function AtBase(base: string): int -> Option<Address> {
    i => ParseIPv4(base + "." + IntToString(i))
  }

  /** `[ip_address(f"{base}.{i}") for i in range(lo, hi + 1)]` */
  function RangeAddresses(base: string, lo: int, hi: int): (r: Option<seq<Address>>)
    ensures r.Some? ==> |r.value| == (if lo <= hi then hi - lo + 1 else 0)
  {
    ParseEach(lo, hi, AtBase(base))
  }

  /** The `k`-th address of a range is the one written "base.(lo + k)". */
  lemma RangeAddressAt(base: string, lo: int, hi: int, k: nat)
    requires RangeAddresses(base, lo, hi).Some? && k < |RangeAddresses(base, lo, hi).value|
    ensures ParseIPv4(base + "." + IntToString(lo + k)) == Some(RangeAddresses(base, lo, hi).value[k])
  {
    ParseEachMeaning(lo, hi, AtBase(base));
    assert AtBase(base)(lo + k) == ParseIPv4(base + "." + IntToString(lo + k));
  }

  /** `start, end = range_part.split("-")` read as two `int`s; `None`
      where the unpacking or an `int` raises. */
  function RangeBounds(rangeEnd: string): Option<(int, int)> {
    var bounds := Split(rangeEnd, '-');
    if |bounds| != 2 then None
    else
      match (PyInt(bounds[0]), PyInt(bounds[1]))
      case (Some(lo), Some(hi)) => Some((lo, hi))
      case _ => None
  }

  /** `[ip_address(target)]` for a target that is a single address. */
  function SingleAddress(target: string): Option<seq<Address>> {
    match ParseIPv4(target)
    case Some(a) => Some([a])
    case None => None
  }

  /** The range branch of `get_arp_scan`: `rsplit(".", 1)`, then `split("-")`
      into exactly two `int`s, or the whole target as one address. */
  function ParseRange(target: string): Option<seq<Address>> {
    match LastIndex(target, '.')
    case None => None                                  // rsplit(...)[1] raises IndexError
    case Some(i) =>
      if '-' in target[i + 1..] then
        match RangeBounds(target[i + 1..])
        case Some((lo, hi)) => RangeAddresses(target[..i], lo, hi)
        case None => None
      else SingleAddress(target)
  }

  /** The target parsing of `get_arp_scan`, `None` where it catches an
      exception and returns no devices. "/" is looked for before "-". */
  function ParseTarget(target: string): Option<seq<Address>> {
    if '/' in target then ParseCidr(target)
    else if '-' in target then ParseRange(target)
    else SingleAddress(target)
  }

  // ---------------------------------------------------------------- properties of the parse

  /** A target with a "/" is read as a network even when it also has a "-". */
  lemma SlashMeansNetwork(target: string)
    requires '/' in target
    ensures ParseTarget(target) == ParseCidr(target)
  {
  }


  lemma DigitsWithout(n: nat, c: char)
    requires !IsDigit(c)
    ensures c !in NatToString(n)
  {
  }

  /** A written address has neither "/" nor "-", so it takes the last
      branch, and reads back as a list of itself. */
  lemma SingleTarget(a: Address)
    ensures ParseTarget(FormatIPv4(a)) == Some([a])
  {
    var ds := Decimals(Octets(a));
    DecimalsHaveNoSeparator(Octets(a), '/');
    DecimalsHaveNoSeparator(Octets(a), '-');
    JoinWithout(ds, '.', '/');
    JoinWithout(ds, '.', '-');
    ParseFormat(a);
  }

  /** The value of the address "base.i" where the bytes of "base" are `bo`. */
  lemma {:induction false} AddressInBase(bo: seq<nat>, i: nat)
    requires |bo| == 3 && forall k :: 0 <= k < 3 ==> bo[k] < 256
    requires i < 256
    ensures ParseIPv4(Join(Decimals(bo), '.') + "." + NatToString(i)) == Some(Value(bo + [i]))
  {
    var ds := Decimals(bo);
    var x := NatToString(i);
    var s := Join(ds, '.') + "." + x;
    assert s == Join(ds, '.') + ['.'] + x;
    SplitConcat(Join(ds, '.'), x, '.');
    DecimalsHaveNoSeparator(bo, '.');
    SplitJoin(ds, '.');
    DigitsWithout(i, '.');
    SplitSingle(x, '.');
    var pieces := Split(s, '.');
    assert pieces == ds + [x];
    var os := bo + [i];
    forall k | 0 <= k < 4 ensures ParseOctet(pieces[k]) == Some(os[k]) {
      if k < 3 {
        OctetRoundTrip(bo[k]);
      } else {
        OctetRoundTrip(i);
      }
    }
    ParseAllMeaning(pieces, ParseOctet);
    var r := ParseOctets(pieces);
    assert r.Some? && r.value == os;
  }

  /** `n` consecutive addresses from `first` on. */
  function Consecutive(first: nat, n: nat): (r: seq<Address>)
    requires first + n <= AddressSpace
    ensures |r| == n && forall k :: 0 <= k < n ==> r[k] == first + k
    decreases n
  {
    if n == 0 then [] else [first as Address] + Consecutive(first + 1, n - 1)
  }

  /** Reading `parse(lo)`, ..., `parse(hi)` where each is `c + i` gives
      consecutive addresses. */
  lemma {:induction false} EachConsecutive(lo: nat, hi: nat, parse: int -> Option<Address>, c: nat)
    requires lo <= hi + 1 && c + hi + 1 <= AddressSpace
    requires forall i :: lo <= i <= hi ==> parse(i).Some? && parse(i).value == c + i
    ensures ParseEach(lo, hi, parse) == Some(Consecutive(c + lo, hi + 1 - lo))
    decreases hi + 1 - lo
  {
    if lo <= hi {
      EachConsecutive(lo + 1, hi, parse, c);
      assert Consecutive(c + lo, hi + 1 - lo) == [(c + lo) as Address] + Consecutive(c + lo + 1, hi - lo);
    }
  }

  /** The address with last byte `i` lies `i` above the one with last byte 0. */
  lemma LastByteOffset(bo: seq<nat>, i: nat)
    requires |bo| == 3
    ensures Value(bo + [i]) == Value(bo + [0]) + i
  {
    var c := ((bo[0] * 256 + bo[1]) * 256 + bo[2]) * 256;
    assert Value(bo + [i]) == c + i;
    assert Value(bo + [0]) == c;
  }

  lemma BaseAddressAt(base: string, bo: seq<nat>, i: nat)
    requires |bo| == 3 && forall k :: 0 <= k < 3 ==> bo[k] < 256
    requires base == Join(Decimals(bo), '.') && i < 256
    ensures AtBase(base)(i) == Some(Value(bo + [0]) + i)
  {
    AddressInBase(bo, i);
    LastByteOffset(bo, i);
  }

  /** Every address of a range from base P lies in the address space. */
  lemma BaseBounds(bo: seq<nat>, lo: nat, hi: nat)
    requires |bo| == 3 && forall k :: 0 <= k < 3 ==> bo[k] < 256
    requires hi < 256
    ensures Value(bo + [0]) + hi + 1 <= AddressSpace
    ensures Value(bo + [lo]) == Value(bo + [0]) + lo
  {
    ValueBound(bo + [255]);
    LastByteOffset(bo, 255);
    LastByteOffset(bo, lo);
  }

  /** "P.i" reads as the address `i` above "P.0", for every byte `i`, so
      the range reads as consecutive addresses. */
  lemma BaseParses(base: string, bo: seq<nat>, c: nat, lo: nat, hi: nat)
    requires |bo| == 3 && forall k :: 0 <= k < 3 ==> bo[k] < 256
    requires base == Join(Decimals(bo), '.')
    requires c == Value(bo + [0]) && c + hi + 1 <= AddressSpace && lo <= hi + 1 && hi < 256
    ensures ParseEach(lo, hi, AtBase(base)) == Some(Consecutive(c + lo, hi + 1 - lo))
  {
    var parse := AtBase(base);
    forall i | lo <= i <= hi ensures parse(i).Some? && parse(i).value == c + i {
      BaseAddressAt(base, bo, i);
    }
    EachConsecutive(lo, hi, parse, c);
  }

  /** The addresses "P.lo", ..., "P.hi", read through the bytes of P. */
  lemma RangeOfBase(bo: seq<nat>, lo: nat, hi: nat)
    requires |bo| == 3 && forall k :: 0 <= k < 3 ==> bo[k] < 256
    requires lo <= hi + 1 && hi < 256
    ensures Value(bo + [lo]) + (hi + 1 - lo) <= AddressSpace
    ensures RangeAddresses(Join(Decimals(bo), '.'), lo, hi) == Some(Consecutive(Value(bo + [lo]), hi + 1 - lo))
  {
    BaseBounds(bo, lo, hi);
    BaseParses(Join(Decimals(bo), '.'), bo, Value(bo + [0]), lo, hi);
  }

  lemma {:induction false} LastIndexBefore(pre: string, c: char, suf: string)
    requires c !in suf
    ensures LastIndex(pre + [c] + suf, c) == Some(|pre|)
    decreases |suf|
  {
    var s := pre + [c] + suf;
    if suf != [] {
      assert s[..|s| - 1] == pre + [c] + suf[..|suf| - 1];
      assert s[|s| - 1] == suf[|suf| - 1];
      LastIndexBefore(pre, c, suf[..|suf| - 1]);
    }
  }

  /** "S-E" with no "-" in either half splits into exactly those halves. */
  lemma SplitPair(S: string, E: string)
    requires '-' !in S && '-' !in E
    ensures Split(S + "-" + E, '-') == [S, E]
  {
    assert S + "-" + E == S + ['-'] + E;
    SplitConcat(S, E, '-');
    SplitSingle(S, '-');
    SplitSingle(E, '-');
  }

  /** "S-E" reads as the bounds `lo` and `hi`. */
  lemma BoundsOfPair(S: string, E: string, lo: int, hi: int)
    requires '-' !in S && '-' !in E
    requires PyInt(S) == Some(lo) && PyInt(E) == Some(hi)
    ensures RangeBounds(S + ['-'] + E) == Some((lo, hi))
  {
    SplitPair(S, E);
    assert S + "-" + E == S + ['-'] + E;
  }

  /** `ParseRange` once the last "." and the bounds after it are known. */
  lemma RangeRoute(t: string, i: nat, lo: int, hi: int)
    requires LastIndex(t, '.') == Some(i)
    requires '-' in t[i + 1..] && RangeBounds(t[i + 1..]) == Some((lo, hi))
    ensures ParseRange(t) == RangeAddresses(t[..i], lo, hi)
  {
  }

  /** `ParseRange` once the last "." and the two bounds are known. */
  lemma ParseRangeAt(t: string, i: nat, S: string, E: string, lo: int, hi: int)
    requires LastIndex(t, '.') == Some(i)
    requires t[i + 1..] == S + ['-'] + E && '-' !in S && '-' !in E
    requires PyInt(S) == Some(lo) && PyInt(E) == Some(hi)
    ensures ParseRange(t) == RangeAddresses(t[..i], lo, hi)
  {
    assert (S + ['-'] + E)[|S|] == '-';
    BoundsOfPair(S, E, lo, hi);
    RangeRoute(t, i, lo, hi);
  }

  /** Where the pieces of "base.S-E" sit. */
  lemma RangeTargetShape(base: string, S: string, E: string)
    requires '/' !in base && '/' !in S && '/' !in E
    requires '.' !in S && '.' !in E
    ensures var target := base + ['.'] + (S + ['-'] + E);
      && '/' !in target && '-' in target
      && LastIndex(target, '.') == Some(|base|)
      && target[..|base|] == base && target[|base| + 1..] == S + ['-'] + E
  {
    var rangeEnd := S + ['-'] + E;
    var target := base + ['.'] + rangeEnd;
    assert target[|base| + 1 + |S|] == '-';
    LastIndexBefore(base, '.', rangeEnd);
    assert target[..|base|] == base;
    assert target[|base| + 1..] == rangeEnd;
  }

  /** The range branch taken, told by the positions of its pieces. */
  lemma RangeTargetAt(t: string, i: nat, S: string, E: string, lo: int, hi: int)
    requires '/' !in t && '-' in t
    requires LastIndex(t, '.') == Some(i)
    requires t[i + 1..] == S + ['-'] + E && '-' !in S && '-' !in E
    requires PyInt(S) == Some(lo) && PyInt(E) == Some(hi)
    ensures ParseTarget(t) == RangeAddresses(t[..i], lo, hi)
  {
    ParseRangeAt(t, i, S, E, lo, hi);
  }

  lemma RangeText(base: string, S: string, E: string)
    ensures base + "." + S + "-" + E == base + ['.'] + (S + ['-'] + E)
  {
  }

  /** The target "base.S-E", with no "/" and no "." after the last one,
      takes the range branch with "base" and "S-E". */
  lemma RangeBranch(target: string, base: string, S: string, E: string, lo: int, hi: int)
    requires target == base + ['.'] + (S + ['-'] + E)
    requires '/' !in base && '/' !in S && '/' !in E
    requires '.' !in S && '.' !in E && '-' !in S && '-' !in E
    requires PyInt(S) == Some(lo) && PyInt(E) == Some(hi)
    ensures ParseTarget(target) == RangeAddresses(base, lo, hi)
  {
    RangeTargetShape(base, S, E);
    RangeTargetAt(target, |base|, S, E, lo, hi);
  }

  /** The target "P.s-e" takes the range branch and is cut into "P", "s"
      and "e". */
  lemma RangeTargetSplits(bo: seq<nat>, s: nat, e: nat)
    requires |bo| == 3 && forall k :: 0 <= k < 3 ==> bo[k] < 256
    ensures var target := Join(Decimals(bo), '.') + "." + NatToString(s) + "-" + NatToString(e);
      ParseTarget(target) == RangeAddresses(Join(Decimals(bo), '.'), s, e)
  {
    DecimalsHaveNoSeparator(bo, '/');
    JoinWithout(Decimals(bo), '.', '/');
    DigitsWithout(s, '/');
    DigitsWithout(e, '/');
    DigitsWithout(s, '.');
    DigitsWithout(e, '.');
    DigitsWithout(s, '-');
    DigitsWithout(e, '-');
    PyIntOfDecimal(s);
    PyIntOfDecimal(e);
    var base := Join(Decimals(bo), '.');
    var target := base + "." + NatToString(s) + "-" + NatToString(e);
    RangeText(base, NatToString(s), NatToString(e));
    RangeBranch(target, base, NatToString(s), NatToString(e), s, e);
  }

  /** A target "P.s-e" (no "/") expands to the addresses P.s, ..., P.e in
      ascending order, e - s + 1 of them. */
  lemma RangeTargetExpands(bo: seq<nat>, s: nat, e: nat)
    requires |bo| == 3 && forall k :: 0 <= k < 3 ==> bo[k] < 256
    requires s <= e < 256
    ensures var target := Join(Decimals(bo), '.') + "." + NatToString(s) + "-" + NatToString(e);
      && ParseTarget(target).Some?
      && |ParseTarget(target).value| == e - s + 1
      && forall k :: 0 <= k <= e - s ==> ParseTarget(target).value[k] == Value(bo + [s + k])
  {
    RangeTargetSplits(bo, s, e);
    RangeOfBase(bo, s, e);
  }

  /** The bytes of the three pieces of "base", if it is three bytes. */
  function BaseOctets(base: string): (r: Option<seq<nat>>)
    ensures r.Some? ==> |r.value| == 3
  {
    var pieces := Split(base, '.');
    if |pieces| != 3 then None else ParseOctets(pieces)
  }

  lemma IntWithout(i: int, c: char)
    requires !IsDigit(c) && c != '-'
    ensures c !in IntToString(i)
  {
    if i < 0 {
      DigitsWithout(-i, c);
    } else {
      DigitsWithout(i, c);
    }
  }

  /** "base.i" is an address only when "base" is three bytes and `i` a byte,
      and then it is the address of those four bytes. */
  lemma ParseInBase(base: string, i: int, a: Address)
    requires ParseIPv4(base + "." + IntToString(i)) == Some(a)
    ensures 0 <= i < 256 && BaseOctets(base).Some?
    ensures a == Value(BaseOctets(base).value + [i])
  {
    var x := IntToString(i);
    IntWithout(i, '.');
    assert base + "." + x == base + ['.'] + x;
    SplitConcat(base, x, '.');
    SplitSingle(x, '.');
    var pieces := Split(base + "." + x, '.');
    var bp := Split(base, '.');
    assert pieces == bp + [x];
    ParseAllMeaning(pieces, ParseOctet);
    ParseAllMeaning(bp, ParseOctet);
    var os := ParseOctets(pieces).value;
    assert ParseOctet(x) == Some(os[3]);
    DigitsRoundTrip(i);
    assert os[3] == i;
    forall k | 0 <= k < 3 ensures ParseOctet(bp[k]) == Some(os[k]) {
      assert bp[k] == pieces[k];
    }
    var bs := ParseOctets(bp);
    assert bs.value == os[..3];
    assert os == bs.value + [i];
  }

  /** The `k`-th address of a range lies `lo + k` above "base.0". */
  lemma RangeElement(base: string, lo: int, hi: int, k: nat)
    requires RangeAddresses(base, lo, hi).Some? && k < |RangeAddresses(base, lo, hi).value|
    ensures BaseOctets(base).Some?
    ensures RangeAddresses(base, lo, hi).value[k] == Value(BaseOctets(base).value + [0]) + lo + k
  {
    RangeAddressAt(base, lo, hi, k);
    ParseInBase(base, lo + k, RangeAddresses(base, lo, hi).value[k]);
    LastByteOffset(BaseOctets(base).value, lo + k);
  }

  /** A range lists its addresses in ascending order, whatever its base. */
  lemma RangeAscending(base: string, lo: int, hi: int)
    requires RangeAddresses(base, lo, hi).Some?
    ensures StrictlyAscending(RangeAddresses(base, lo, hi).value)
  {
    var r := RangeAddresses(base, lo, hi).value;
    if r != [] {
      RangeElement(base, lo, hi, 0);
      var c := Value(BaseOctets(base).value + [0]) + lo;
      forall k | 0 <= k < |r| ensures r[k] == c + k {
        RangeElement(base, lo, hi, k);
      }
    }
  }

  /** The range branch gives ascending lists. */
  lemma RangeBranchAscending(target: string)
    requires ParseRange(target).Some?
    ensures StrictlyAscending(ParseRange(target).value)
  {
    match LastIndex(target, '.')
    case None =>
    case Some(i) =>
      if '-' in target[i + 1..] {
        var (lo, hi) := RangeBounds(target[i + 1..]).value;
        RangeAscending(target[..i], lo, hi);
      }
  }

  /** Every list of addresses a target parses to is in ascending order, so
      it has no repeats. */
  lemma TargetAscending(target: string)
    requires ParseTarget(target).Some?
    ensures StrictlyAscending(ParseTarget(target).value)
  {
    if '/' !in target && '-' in target {
      RangeBranchAscending(target);
    }
  }

  // ---------------------------------------------------------------- choosing devices

  /** `random.randint(5, min(10, n))` as written: Python raises ValueError
      when the upper bound is below the lower one, that is for fewer than
      five addresses. */
  function DeviceCountAsWritten(n: nat, draw: nat): (r: Result<nat, string>)
    ensures r.Failure? <==> n < 5
    ensures r.Success? ==> 5 <= r.value <= Min(10, n)
  {
    var hi := Min(10, n);
    if hi < 5 then Failure("empty range for randrange")
    else Success(5 + draw % (hi - 5 + 1))
  }

  /** The count the script evidently means, "5 to 10 devices" but never more
      than there are addresses: `random.randint(min(5, n), min(10, n))`. */
  function DeviceCount(n: nat, draw: nat): (r: nat)
    ensures Min(5, n) <= r <= Min(10, n)
  {
    var lo, hi := Min(5, n), Min(10, n);
    lo + draw % (hi - lo + 1)
  }

  /** With five addresses or more the two agree. */
  lemma DeviceCountAgrees(n: nat, draw: nat)
    requires n >= 5
    ensures DeviceCountAsWritten(n, draw) == Success(DeviceCount(n, draw))
  {
  }

  /** A single address is a valid target, yet the script as written raises
      on it. */
  lemma SingleTargetRaises(a: Address, draw: nat)
    ensures ParseTarget(FormatIPv4(a)) == Some([a])
    ensures DeviceCountAsWritten(|ParseTarget(FormatIPv4(a)).value|, draw).Failure?
    ensures DeviceCount(|ParseTarget(FormatIPv4(a)).value|, draw) == 1
  {
    SingleTarget(a);
  }

  predicate Distinct<T(==)>(s: seq<T>) {
    forall i, j :: 0 <= i < j < |s| ==> s[i] != s[j]
  }

  /** `random.sample(pool, count)`: `count` picks without replacement, the
      `i`-th taking element `rng(offset + i)` modulo the size of what is left. */
  function SamplePicks(pool: seq<Address>, count: nat, rng: nat -> nat, offset: nat): (r: seq<Address>)
    requires count <= |pool|
    ensures |r| == count
    ensures forall k :: 0 <= k < |r| ==> r[k] in pool
    ensures Distinct(pool) ==> Distinct(r)
    decreases count
  {
    if count == 0 then []
    else
      var j := rng(offset) % |pool|;
      var left := pool[..j] + pool[j + 1..];
      var rest := SamplePicks(left, count - 1, rng, offset + 1);
      assert Distinct(pool) ==> pool[j] !in left by {
        if Distinct(pool) {
          forall k | 0 <= k < |left| ensures left[k] != pool[j] {
            if k < j { assert left[k] == pool[k]; } else { assert left[k] == pool[k + 1]; }
          }
        }
      }
      assert forall k :: 0 <= k < |left| ==> left[k] in pool by {
        forall k | 0 <= k < |left| ensures left[k] in pool {
          if k < j { assert left[k] == pool[k]; } else { assert left[k] == pool[k + 1]; }
        }
      }
      assert Distinct(pool) ==> Distinct(left) by {
        if Distinct(pool) {
          forall a, b | 0 <= a < b < |left| ensures left[a] != left[b] {
            var a', b' := if a < j then a else a + 1, if b < j then b else b + 1;
            assert left[a] == pool[a'] && left[b] == pool[b'];
          }
        }
      }
      [pool[j]] + rest
  }

  // ---------------------------------------------------------------- MAC addresses

  predicate IsLowerHex(c: char) { '0' <= c <= '9' || 'a' <= c <= 'f' }

  function HexDigit(d: nat): (c: char)
    requires d < 16
    ensures IsLowerHex(c)
  {
    if d < 10 then ('0' as int + d) as char else ('a' as int + d - 10) as char
  }

  function HexValue(c: char): nat {
    if '0' <= c <= '9' then c as int - '0' as int
    else if 'a' <= c <= 'f' then c as int - 'a' as int + 10
    else 0
  }

  /** `f"{b:02x}"` for a byte: two lowercase hex digits. */
  function Hex2(b: nat): (r: string)
    requires b < 256
    ensures |r| == 2 && IsLowerHex(r[0]) && IsLowerHex(r[1])
    ensures 16 * HexValue(r[0]) + HexValue(r[1]) == b
  {
    [HexDigit(b / 16), HexDigit(b % 16)]
  }

  /** The six bytes of one MAC address, `random.randint(0, 255)` each. */
  function MacDraws(rng: nat -> nat, offset: nat): (bs: seq<nat>)
    ensures |bs| == 6 && forall k :: 0 <= k < 6 ==> bs[k] < 256
  {
    seq(6, k requires 0 <= k < 6 => rng(offset + k) % 256)
  }

  function HexPairs(bs: seq<nat>): (r: seq<string>)
    requires forall k :: 0 <= k < |bs| ==> bs[k] < 256
    ensures |r| == |bs| && forall k :: 0 <= k < |bs| ==> r[k] == Hex2(bs[k])
    decreases |bs|
  {
    if bs == [] then [] else [Hex2(bs[0])] + HexPairs(bs[1..])
  }

  /** `":".join(...)` of the two-digit renderings of six bytes, character by
      character: pair `i / 3` at `i`, the colon at every third place
      (`MacIsJoin` shows that this is the join). */
  function MacOf(bs: seq<nat>): (s: string)
    requires |bs| == 6 && forall k :: 0 <= k < 6 ==> bs[k] < 256
    ensures |s| == 17
  {
    seq(17, i requires 0 <= i < 17 => if i % 3 == 2 then ':' else Hex2(bs[i / 3])[i % 3])
  }

  /** The text shape of a MAC address: six pairs of lowercase hex digits
      with ":" between them. */
  predicate IsMac(s: string) {
    |s| == 17 && forall i :: 0 <= i < 17 ==> if i % 3 == 2 then s[i] == ':' else IsLowerHex(s[i])
  }

  /** The bytes written in a MAC address. */
  function MacBytes(s: string): (bs: seq<nat>)
    requires |s| == 17
  {
    seq(6, k requires 0 <= k < 6 => 16 * HexValue(s[3 * k]) + HexValue(s[3 * k + 1]))
  }

  /** Joining two-character pieces puts piece `i / 3` at `i` and the
      separator at every third place. */
  lemma {:induction false} JoinPairsAt(pieces: seq<string>, sep: char, i: nat)
    requires |pieces| >= 1 && forall k :: 0 <= k < |pieces| ==> |pieces[k]| == 2
    ensures |Join(pieces, sep)| == 3 * |pieces| - 1
    ensures i < 3 * |pieces| - 1 ==>
      Join(pieces, sep)[i] == if i % 3 == 2 then sep else pieces[i / 3][i % 3]
    decreases |pieces|
  {
    if |pieces| == 1 {
      assert Join(pieces, sep) == pieces[0];
    } else {
      var rest := pieces[1..];
      assert pieces == [pieces[0]] + rest;
      JoinCons(pieces[0], rest, sep);
      if i >= 3 {
        JoinPairsAt(rest, sep, i - 3);
        assert (i - 3) / 3 == i / 3 - 1 && (i - 3) % 3 == i % 3;
      } else {
        JoinPairsAt(rest, sep, 0);
      }
    }
  }

  /** The characterwise definition is the colon join of the pairs. */
  lemma MacIsJoin(bs: seq<nat>)
    requires |bs| == 6 && forall k :: 0 <= k < 6 ==> bs[k] < 256
    ensures MacOf(bs) == Join(HexPairs(bs), ':')
  {
    var pieces := HexPairs(bs);
    JoinPairsAt(pieces, ':', 0);
    forall i | 0 <= i < 17 ensures MacOf(bs)[i] == Join(pieces, ':')[i] {
      JoinPairsAt(pieces, ':', i);
    }
  }

  /** Every generated MAC address has the MAC shape. */
  lemma MacShape(bs: seq<nat>)
    requires |bs| == 6 && forall k :: 0 <= k < 6 ==> bs[k] < 256
    ensures IsMac(MacOf(bs))
  {
    var s := MacOf(bs);
    forall i | 0 <= i < 17
      ensures if i % 3 == 2 then s[i] == ':' else IsLowerHex(s[i])
    {
    }
  }

  /** A generated MAC address reads back as the bytes it was made of. */
  lemma MacRoundTrip(bs: seq<nat>)
    requires |bs| == 6 && forall k :: 0 <= k < 6 ==> bs[k] < 256
    ensures |MacOf(bs)| == 17 && MacBytes(MacOf(bs)) == bs
  {
    var s := MacOf(bs);
    forall k | 0 <= k < 6 ensures MacBytes(s)[k] == bs[k] {
      assert (3 * k) / 3 == k && (3 * k) % 3 == 0;
      assert (3 * k + 1) / 3 == k && (3 * k + 1) % 3 == 1;
    }
  }

  // ---------------------------------------------------------------- get_arp_scan

  /** One entry `{"ip": str(ip), "mac": mac}` of the device list. */
  datatype ArpEntry = ArpEntry(ip: string, mac: string)

  /** Entry `m` of the list, for address `a`: its six MAC bytes are read
      from the stream at `macBase + 6 * m`. */
  function EntryFor(a: Address, rng: nat -> nat, macBase: nat, m: nat): ArpEntry {
    ArpEntry(FormatIPv4(a), MacOf(MacDraws(rng, macBase + 6 * m)))
  }

  /** The first `k` entries the loop over the selected addresses appends. */
  function EntriesUpTo(picked: seq<Address>, rng: nat -> nat, macBase: nat, k: nat): (r: seq<ArpEntry>)
    requires k <= |picked|
    ensures |r| == k
    decreases k
  {
    if k == 0 then []
    else
      EntriesUpTo(picked, rng, macBase, k - 1)
        + [EntryFor(picked[k - 1], rng, macBase, k - 1)]
  }

  /** How many devices are reported for `ips`: the stream's first draw. */
  function ChosenCount(ips: seq<Address>, rng: nat -> nat): (n: nat)
    ensures n <= |ips|
  {
    DeviceCount(|ips|, rng(0))
  }

  /** The addresses reported for `ips`: the next draws pick the sample. */
  function Chosen(ips: seq<Address>, rng: nat -> nat): seq<Address> {
    SamplePicks(ips, ChosenCount(ips, rng), rng, 1)
  }

  /** The devices found for a parsed address list; the draws after the
      sample give the MAC bytes. */
  function ArpDevices(ips: seq<Address>, rng: nat -> nat): seq<ArpEntry> {
    var n := ChosenCount(ips, rng);
    EntriesUpTo(Chosen(ips, rng), rng, 1 + n, n)
  }

  /** `get_arp_scan(target)`: no devices when the target does not parse. */
  function ArpOutcome(target: string, rng: nat -> nat): seq<ArpEntry> {
    match ParseTarget(target)
    case None => []
    case Some(ips) => ArpDevices(ips, rng)
  }

  /** The devices found for a parsed address list as written: the count is
      drawn by `DeviceCountAsWritten`, which raises for fewer than five
      addresses. */
  function ArpDevicesAsWritten(ips: seq<Address>, rng: nat -> nat): (r: Result<seq<ArpEntry>, string>)
    ensures r.Failure? <==> |ips| < 5
  {
    match DeviceCountAsWritten(|ips|, rng(0))
    case Failure(e) => Failure(e)
    case Success(n) => Success(EntriesUpTo(SamplePicks(ips, n, rng, 1), rng, 1 + n, n))
  }

  /** `get_arp_scan(target)` as written: no devices when the target does not
      parse, and an error raised for a target of fewer than five addresses. */
  function ArpOutcomeAsWritten(target: string, rng: nat -> nat): (r: Result<seq<ArpEntry>, string>)
    ensures r.Failure? <==> ParseTarget(target).Some? && |ParseTarget(target).value| < 5
  {
    match ParseTarget(target)
    case None => Success([])
    case Some(ips) => ArpDevicesAsWritten(ips, rng)
  }

  method ArpScan(target: string, rng: nat -> nat) returns (result: Result<seq<ArpEntry>, string>)
    ensures result == ArpOutcomeAsWritten(target, rng)
  {
    var parsed := ParseTarget(target);
    if parsed.None? {
      return Success([]);
    }
    result := ArpScanList(parsed.value, rng);
  }

  /** The body of `get_arp_scan` after the target is parsed. */
  method ArpScanList(ipList: seq<Address>, rng: nat -> nat) returns (result: Result<seq<ArpEntry>, string>)
    ensures result == ArpDevicesAsWritten(ipList, rng)
  {
    var count := DeviceCountAsWritten(|ipList|, rng(0));
    if count.Failure? {
      return Failure(count.error);
    }
    var numDevices := count.value;
    var selected := SamplePicks(ipList, numDevices, rng, 1);
    var devices := ReportDevices(selected, rng, 1 + numDevices);
    return Success(devices);
  }

  /** For a parsed list, whenever the scan as written returns, it returns
      the devices of the corrected scan. */
  lemma ArpDevicesAgree(ips: seq<Address>, rng: nat -> nat)
    ensures ArpDevicesAsWritten(ips, rng).Success? ==>
      ArpDevicesAsWritten(ips, rng).value == ArpDevices(ips, rng)
  {
    if |ips| >= 5 {
      DeviceCountAgrees(|ips|, rng(0));
    }
  }

  /** Whenever the script as written returns, it returns the corrected
      outcome. */
  lemma ArpAsWrittenAgrees(target: string, rng: nat -> nat)
    ensures ArpOutcomeAsWritten(target, rng).Success? ==>
      ArpOutcomeAsWritten(target, rng).value == ArpOutcome(target, rng)
  {
    var parsed := ParseTarget(target);
    if parsed.Some? {
      ArpDevicesAgree(parsed.value, rng);
    }
  }

  /** A single address is a valid target, yet the scan as written raises on
      it, where the corrected scan reports that address. */
  lemma SingleTargetArpRaises(a: Address, rng: nat -> nat)
    ensures ArpOutcomeAsWritten(FormatIPv4(a), rng).Failure?
    ensures |ArpOutcome(FormatIPv4(a), rng)| == 1
  {
    SingleTarget(a);
  }

  /** The loop of `get_arp_scan` over the selected addresses. */
  method ReportDevices(selected: seq<Address>, rng: nat -> nat, macBase: nat) returns (devices: seq<ArpEntry>)
    ensures devices == EntriesUpTo(selected, rng, macBase, |selected|)
  {
    devices := [];
    var i := 0;
    while i < |selected|
      invariant 0 <= i <= |selected|
      invariant devices == EntriesUpTo(selected, rng, macBase, i)
    {
      devices := devices + [EntryFor(selected[i], rng, macBase, i)];
      i := i + 1;
    }
  }

  lemma {:induction false} EntriesAt(picked: seq<Address>, rng: nat -> nat, macBase: nat, k: nat, m: nat)
    requires m < k <= |picked|
    ensures EntriesUpTo(picked, rng, macBase, k)[m]
      == EntryFor(picked[m], rng, macBase, m)
    decreases k
  {
    if m < k - 1 {
      EntriesAt(picked, rng, macBase, k - 1, m);
    }
  }

  /** A target that does not parse yields no devices. */
  lemma ParseErrorFindsNothing(target: string, rng: nat -> nat)
    requires ParseTarget(target).None?
    ensures ArpOutcome(target, rng) == []
  {
  }

  /** Between 5 and 10 devices are found, never more than the target holds. */
  lemma ArpDeviceCount(target: string, rng: nat -> nat)
    requires ParseTarget(target).Some?
    ensures var n := |ParseTarget(target).value|;
      Min(5, n) <= |ArpOutcome(target, rng)| <= Min(10, n)
  {
  }

  /** Entry `m` of the devices chosen from `ips`. */
  lemma {:induction false} ArpDeviceAt(ips: seq<Address>, rng: nat -> nat, m: nat)
    requires m < |ArpDevices(ips, rng)|
    ensures ArpDevices(ips, rng)[m] == EntryFor(Chosen(ips, rng)[m], rng, 1 + ChosenCount(ips, rng), m)
  {
    EntriesAt(Chosen(ips, rng), rng, 1 + ChosenCount(ips, rng), ChosenCount(ips, rng), m);
  }

  /** Every device chosen from `ips` is one of them with a well-formed MAC
      address, and none is chosen twice when `ips` has no repeats. */
  lemma {:induction false} ArpDevicesFromList(ips: seq<Address>, rng: nat -> nat)
    ensures var ds := ArpDevices(ips, rng);
      && (forall m :: 0 <= m < |ds| ==>
            ParseIPv4(ds[m].ip).Some? && ParseIPv4(ds[m].ip).value in ips && IsMac(ds[m].mac))
      && (Distinct(ips) ==> forall m, m' :: 0 <= m < m' < |ds| ==> ds[m].ip != ds[m'].ip)
  {
    var n := ChosenCount(ips, rng);
    var picked := Chosen(ips, rng);
    var ds := ArpDevices(ips, rng);
    forall m | 0 <= m < |ds|
      ensures ParseIPv4(ds[m].ip) == Some(picked[m]) && IsMac(ds[m].mac)
    {
      ArpDeviceAt(ips, rng, m);
      ParseFormat(picked[m]);
      MacShape(MacDraws(rng, 1 + n + 6 * m));
    }
    if Distinct(ips) {
      forall m, m' | 0 <= m < m' < |ds| ensures ds[m].ip != ds[m'].ip {
        assert picked[m] != picked[m'];
      }
    }
  }

  /** Every device is an address of the target, no address is reported
      twice, and every MAC address has the MAC shape. */
  lemma ArpDevicesFromTarget(target: string, rng: nat -> nat)
    requires ParseTarget(target).Some?
    ensures var ds := ArpOutcome(target, rng);
      && (forall m :: 0 <= m < |ds| ==>
            ParseIPv4(ds[m].ip).Some? && ParseIPv4(ds[m].ip).value in ParseTarget(target).value)
      && (forall m, m' :: 0 <= m < m' < |ds| ==> ds[m].ip != ds[m'].ip)
      && (forall m :: 0 <= m < |ds| ==> IsMac(ds[m].mac))
  {
    var ips := ParseTarget(target).value;
    TargetAscending(target);
    assert Distinct(ips);
    ArpDevicesFromList(ips, rng);
  }

  // ---------------------------------------------------------------- scan_ports

  /** The ports the simulation favours. */
  const CommonOpen: seq<int> := [22, 80, 443, 445]

  /** The chance that a port is reported open. */
  function Chance(port: int): (r: real)
    ensures port in CommonOpen ==> r == 0.6
    ensures port !in CommonOpen ==> r == 0.3
  {
    if port in CommonOpen then 0.6 else 0.3
  }

  /** The open ports among the first `k`: port `i` is open when the draw
      `coin(i)` of `random.random()` falls below its chance. */
  function OpenUpTo(ports: seq<int>, coin: nat -> real, k: nat): (r: seq<int>)
    requires k <= |ports|
    ensures |r| <= k
    decreases k
  {
    if k == 0 then []
    else
      OpenUpTo(ports, coin, k - 1)
        + (if coin(k - 1) < Chance(ports[k - 1]) then [ports[k - 1]] else [])
  }

  method ScanPorts(ip: string, ports: seq<int>, coin: nat -> real) returns (rip: string, openPorts: seq<int>)
    ensures rip == ip
    ensures openPorts == OpenUpTo(ports, coin, |ports|)
  {
    openPorts := [];
    var i := 0;
    while i < |ports|
      invariant 0 <= i <= |ports|
      invariant openPorts == OpenUpTo(ports, coin, i)
    {
      var chance := if ports[i] in CommonOpen then 0.6 else 0.3;
      if coin(i) < chance {
        openPorts := openPorts + [ports[i]];
      }
      i := i + 1;
    }
    rip := ip;
  }

  /** The open ports are some of the given ports, in the given order. */
  lemma {:induction false} OpenIsSubsequence(ports: seq<int>, coin: nat -> real, k: nat)
    requires k <= |ports|
    ensures IsSubsequence(OpenUpTo(ports, coin, k), ports[..k])
    decreases k
  {
    if k == 0 {
    } else {
      OpenIsSubsequence(ports, coin, k - 1);
      var prev := OpenUpTo(ports, coin, k - 1);
      assert ports[..k] == ports[..k - 1] + [ports[k - 1]];
      if coin(k - 1) < Chance(ports[k - 1]) {
        SubsequenceAppend(prev, ports[..k - 1], ports[k - 1]);
      } else {
        assert OpenUpTo(ports, coin, k) == prev;
        SubsequenceExtend(prev, ports[..k - 1], ports[k - 1]);
      }
    }
  }

  /** Draws all below 0.3 open every port; draws all at 0.6 or above open none. */
  lemma {:induction false} OpenExtremes(ports: seq<int>, coin: nat -> real, k: nat)
    requires k <= |ports|
    ensures (forall i :: 0 <= i < k ==> coin(i) < 0.3) ==> OpenUpTo(ports, coin, k) == ports[..k]
    ensures (forall i :: 0 <= i < k ==> coin(i) >= 0.6) ==> OpenUpTo(ports, coin, k) == []
    decreases k
  {
    if k > 0 {
      OpenExtremes(ports, coin, k - 1);
      assert ports[..k] == ports[..k - 1] + [ports[k - 1]];
    }
  }
}
