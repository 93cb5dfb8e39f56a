/**
 * SSDP discovery (TVDiscoveryService), after the M-SEARCH / search-response
 * exchange of UPnP Device Architecture 1.1, section 1.3.
 *
 * The network is abstracted: the replies received during the discovery
 * window are a finite sequence (None for a receive that timed out or failed,
 * which the loop swallows), the description fetch is a fixed map from
 * LOCATION URL to the body of a successful answer, and the host part of a
 * URL is a fixed map as well.
 */
module Discovery {
  import opened Wrappers
  import opened Text
  import opened Devices

  /** One reply: its text and the sender's address, when known. */
  datatype Datagram = Datagram(text: string, source: Option<string>)

  /** What the network answers during one discovery run. */
  datatype Network = Network(descriptions: map<string, string>, hosts: map<string, string>)

  /** The entry added before any reply is read, for testing on an emulator. */
  const SimulatedTv: DiscoveredTv := DiscoveredTv(
    id := "simulated_lg_tv",
    name := "LG TV Simulado",
    ipAddress := "192.168.1.100",
    port := 3001,
    modelName := Some("LG OLED55C1"),
    manufacturer := Some("LG Electronics"),
    location := Some("http://192.168.1.100:1400/description.xml"),
    isLgTv := true)

  // ---------------------------------------------------------------------
  // Device description (XML) extraction
  // ---------------------------------------------------------------------

  function OpenTag(tag: string): string { "<" + tag + ">" }
  function CloseTag(tag: string): string { "</" + tag + ">" }

  /** `k` is the first case-insensitive occurrence of `p` in `s` at or after `from`. */
  predicate FirstAt(s: string, p: string, from: int, k: int) {
    from <= k && RegionMatches(s, k, p, true) &&
    forall m :: from <= m < k ==> !RegionMatches(s, m, p, true)
  }

  /** `open` first occurs at `i`, and `close` first occurs after it at `j`. */
  predicate Span(s: string, open: string, close: string, i: int, j: int) {
    FirstAt(s, open, 0, i) && FirstAt(s, close, i + |open|, j)
  }

  /**
   * The trimmed text between the first `open` and the first `close` after
   * it, both found ignoring case; None when either is missing.
   */
  function Between(s: string, open: string, close: string): (r: Option<string>)
    ensures r.Some? <==> exists i, j :: Span(s, open, close, i, j)
    ensures forall i, j :: Span(s, open, close, i, j) ==>
      i + |open| <= j && r == Some(Trim(s[i + |open|..j]))
  {
    var startIndex := IndexOf(s, open, 0, true);
    if startIndex == -1 then None
    else
      var valueStart := startIndex + |open|;
      var endIndex := IndexOf(s, close, valueStart, true);
      if endIndex == -1 then None
      else
        assert Span(s, open, close, startIndex, endIndex);
        Some(Trim(s[valueStart..endIndex]))
  }

  /**
   * `extractXMLValue`: the trimmed text between the first `<tag>` and the
   * first `</tag>` after it, both found ignoring case; None when either is
   * missing.
   */
  function ExtractXmlValue(xml: string, tag: string): (r: Option<string>)
    ensures r.Some? <==> exists i, j :: Span(xml, OpenTag(tag), CloseTag(tag), i, j)
    ensures forall i, j :: Span(xml, OpenTag(tag), CloseTag(tag), i, j) ==>
      i + |OpenTag(tag)| <= j && r == Some(Trim(xml[i + |OpenTag(tag)|..j]))
  {
    Between(xml, OpenTag(tag), CloseTag(tag))
  }

  /** A field that is present and mentions "LG", ignoring case. */
  predicate MentionsLg(field: Option<string>) {
    field.Some? && Contains(field.value, "LG", true)
  }

  /** `extractIPFromLocation`: the host of a LOCATION URL, None when it does not parse. */
  function HostOf(location: string, net: Network): Option<string> {
    if location in net.hosts then Some(net.hosts[location]) else None
  }

  /**
   * `parseDeviceXML`: a device when the manufacturer, model name or friendly
   * name mentions "LG"; it is on port 3000, is named by the friendly name,
   * else the model name, else "LG TV", and is identified by the UDN, else by
   * the URL host with underscores, else "lg_unknown".
   */
  function ParseDeviceXml(xml: string, location: string, net: Network): (r: Option<DiscoveredTv>)
    ensures r.Some? <==>
      MentionsLg(ExtractXmlValue(xml, "manufacturer")) || MentionsLg(ExtractXmlValue(xml, "modelName")) ||
      MentionsLg(ExtractXmlValue(xml, "friendlyName"))
    ensures r.Some? ==> r.value.port == 3000 && r.value.isLgTv && r.value.location == Some(location)
  {
    var manufacturer := ExtractXmlValue(xml, "manufacturer");
    var modelName := ExtractXmlValue(xml, "modelName");
    var friendlyName := ExtractXmlValue(xml, "friendlyName");
    var udn := ExtractXmlValue(xml, "UDN");
    var isLg := MentionsLg(manufacturer) || MentionsLg(modelName) || MentionsLg(friendlyName);
    if isLg then
      var host := HostOf(location, net);
      var hostId := if host.Some? then ReplaceChar(host.value, '.', '_') else "unknown";
      Some(DiscoveredTv(
        id := udn.GetOr("lg_" + hostId),
        name := friendlyName.GetOr(modelName.GetOr("LG TV")),
        ipAddress := host.GetOr(""),
        port := 3000,
        modelName := modelName,
        manufacturer := manufacturer,
        location := Some(location),
        isLgTv := true))
    else None
  }

  /** `getDeviceInfo`: fetch the description and parse it; None when the fetch fails. */
  function DeviceInfo(location: string, net: Network): Option<DiscoveredTv> {
    if location in net.descriptions then ParseDeviceXml(net.descriptions[location], location, net) else None
  }

  // ---------------------------------------------------------------------
  // Search-response headers
  // ---------------------------------------------------------------------

  /** A header line `name` opens, ignoring case. */
  predicate IsHeader(line: string, name: string) {
    StartsWith(line, name, true)
  }

  /** The value of a header line: the text after its first ':', trimmed. */
  function HeaderText(line: string): string {
    Trim(SubstringAfter(line, ":"))
  }

  /** Line `i` is the last line of `lines` that is a `name` header. */
  predicate LastHeaderLine(lines: seq<string>, name: string, i: int) {
    0 <= i < |lines| && IsHeader(lines[i], name) &&
    forall j :: i < j < |lines| ==> !IsHeader(lines[j], name)
  }

  /** The offset of the last `name` header line, or -1. */
  function LastHeaderIndex(lines: seq<string>, name: string): (k: int)
    decreases |lines|
    ensures k == -1 <==> forall i :: 0 <= i < |lines| ==> !IsHeader(lines[i], name)
    ensures k != -1 ==> LastHeaderLine(lines, name, k)
  {
    if lines == [] then -1
    else if IsHeader(lines[|lines| - 1], name) then |lines| - 1
    else
      var n := |lines| - 1;
      assert forall i :: 0 <= i < n ==> lines[..n][i] == lines[i];
      LastHeaderIndex(lines[..n], name)
  }

  /** The value of header `name`: a later line overrides an earlier one. */
  function HeaderValue(lines: seq<string>, name: string): (v: Option<string>)
    ensures v.Some? <==> exists i :: 0 <= i < |lines| && IsHeader(lines[i], name)
    ensures v.Some? ==> exists i :: LastHeaderLine(lines, name, i) && v.value == HeaderText(lines[i])
  {
    var k := LastHeaderIndex(lines, name);
    if k == -1 then None else Some(HeaderText(lines[k]))
  }

  /** Scanning one more line: a `name` header overrides, any other line leaves the value. */
  lemma HeaderValueNext(lines: seq<string>, i: int, name: string)
    requires 0 <= i < |lines|
    ensures HeaderValue(lines[..i + 1], name)
      == if IsHeader(lines[i], name) then Some(HeaderText(lines[i])) else HeaderValue(lines[..i], name)
  {
    assert lines[..i + 1][..i] == lines[..i];
    assert lines[..i + 1][i] == lines[i];
  }

  /**
   * For a header name with no ':' but its last character, the value starts
   * right after the name.
   */
  lemma HeaderTextAfterName(line: string, name: string)
    requires IsHeader(line, name)
    requires |name| > 0 && name[|name| - 1] == ':'
    requires forall k :: 0 <= k < |name| - 1 ==> name[k] != ':' && LowerChar(name[k]) != ':'
    ensures HeaderText(line) == Trim(line[|name|..])
  {
    var c := |name| - 1;
    SubstringAfterSplits(line, ":");
    assert CharEquals(line[0 + c], name[c], true);
    assert line[c] == ':';
    assert RegionMatches(line, c, ":", false);
    var i := IndexOf(line, ":", 0, false);
    forall m | 0 <= m < c ensures !RegionMatches(line, m, ":", false) {
      assert CharEquals(line[0 + m], name[m], true);
      assert LowerChar(':') == ':';
      assert line[m] != ':';
      assert !CharEquals(line[m + 0], ":"[0], false);
    }
    assert i == c;
  }

  /**
   * For a name whose only `:` is its last character, the value of header
   * `name` is the trimmed text after the name on the last line opening with it.
   */
  lemma HeaderValueAfterName(lines: seq<string>, name: string)
    requires |name| > 0 && name[|name| - 1] == ':'
    requires forall k :: 0 <= k < |name| - 1 ==> name[k] != ':' && LowerChar(name[k]) != ':'
    ensures HeaderValue(lines, name).Some? ==>
      var k := LastHeaderIndex(lines, name);
      0 <= k < |lines| && HeaderValue(lines, name).value == Trim(lines[k][|name|..])
  {
    var k := LastHeaderIndex(lines, name);
    if k != -1 {
      HeaderTextAfterName(lines[k], name);
    }
  }

  /** The three header names never match the same line. */
  lemma HeadersExclusive(line: string)
    ensures !(IsHeader(line, "LOCATION:") && IsHeader(line, "SERVER:"))
    ensures !(IsHeader(line, "LOCATION:") && IsHeader(line, "USN:"))
    ensures !(IsHeader(line, "SERVER:") && IsHeader(line, "USN:"))
  {
    if |line| > 0 {
      assert CharEquals(line[0 + 0], "LOCATION:"[0], true) ==> LowerChar(line[0]) == 'l';
      assert CharEquals(line[0 + 0], "SERVER:"[0], true) ==> LowerChar(line[0]) == 's';
      assert CharEquals(line[0 + 0], "USN:"[0], true) ==> LowerChar(line[0]) == 'u';
    }
  }

  // ---------------------------------------------------------------------
  // Reply classification
  // ---------------------------------------------------------------------

  /** The device built from headers that name LG: no description is fetched. */
  function HeaderDevice(ip: string, location: Option<string>, usn: Option<string>): DiscoveredTv {
    DiscoveredTv(
      id := usn.GetOr("lg_" + ReplaceChar(ip, '.', '_')),
      name := "LG TV (" + ip + ")",
      ipAddress := ip,
      port := 3001,
      location := location,
      manufacturer := Some("LG"),
      isLgTv := true)
  }

  /** SERVER or USN mentions "LG". */
  predicate LgHeaders(lines: seq<string>) {
    MentionsLg(HeaderValue(lines, "SERVER:")) || MentionsLg(HeaderValue(lines, "USN:"))
  }

  /**
   * The classification at the end of `parseSSDP`. Headers that name LG make
   * a device at once; otherwise, when there is a LOCATION, the description
   * is fetched and the reply is a device only when the fetched manufacturer
   * mentions "LG".
   */
  function Classify(ip: string, location: Option<string>, server: Option<string>, usn: Option<string>, net: Network)
    : (r: Option<DiscoveredTv>)
    ensures r.Some? ==> r.value.ipAddress == ip && r.value.isLgTv
  {
    var isLgDevice := MentionsLg(server) || MentionsLg(usn);
    var info := if !isLgDevice && location.Some? then DeviceInfo(location.value, net) else None;
    if info.Some? && MentionsLg(info.value.manufacturer) then
      Some(info.value.(ipAddress := ip, isLgTv := true))
    else if isLgDevice then
      Some(HeaderDevice(ip, location, usn))
    else None
  }

  /** What `parseSSDP` makes of one reply: nothing without a sender address. */
  function ReplyDevice(response: string, ip: Option<string>, net: Network): (r: Option<DiscoveredTv>)
    ensures ip.None? ==> r.None?
    ensures r.Some? ==> r.value.ipAddress == ip.value && r.value.isLgTv
  {
    if ip.None? then None
    else
      var lines := SplitLines(response);
      Classify(ip.value, HeaderValue(lines, "LOCATION:"), HeaderValue(lines, "SERVER:"), HeaderValue(lines, "USN:"), net)
  }

  /** The header scan of `parseSSDP`: one pass, a later line overriding an earlier one. */
  method ScanHeaders(lines: seq<string>) returns (location: Option<string>, server: Option<string>, usn: Option<string>)
    ensures location == HeaderValue(lines, "LOCATION:")
    ensures server == HeaderValue(lines, "SERVER:")
    ensures usn == HeaderValue(lines, "USN:")
  {
    location, server, usn := None, None, None;
    for i := 0 to |lines|
      invariant location == HeaderValue(lines[..i], "LOCATION:")
      invariant server == HeaderValue(lines[..i], "SERVER:")
      invariant usn == HeaderValue(lines[..i], "USN:")
    {
      var line := lines[i];
      HeaderValueNext(lines, i, "LOCATION:");
      HeaderValueNext(lines, i, "SERVER:");
      HeaderValueNext(lines, i, "USN:");
      HeadersExclusive(line);
      if IsHeader(line, "LOCATION:") {
        location := Some(HeaderText(line));
      } else if IsHeader(line, "SERVER:") {
        server := Some(HeaderText(line));
      } else if IsHeader(line, "USN:") {
        usn := Some(HeaderText(line));
      }
    }
    assert lines[..|lines|] == lines;
  }

  /** `parseSSDP`: no device without a sender address; otherwise scan the headers and classify. */
  method ParseSsdp(response: string, ip: Option<string>, net: Network) returns (device: Option<DiscoveredTv>)
    ensures device == ReplyDevice(response, ip, net)
  {
    if ip.None? {
      return None;
    }
    var location, server, usn := ScanHeaders(SplitLines(response));
    device := Classify(ip.value, location, server, usn, net);
  }

  /** Headers that name LG decide the reply without looking at the network. */
  lemma LgHeadersNeedNoFetch(response: string, ip: string, net: Network, other: Network)
    requires LgHeaders(SplitLines(response))
    ensures ReplyDevice(response, Some(ip), net) == ReplyDevice(response, Some(ip), other)
    ensures var lines := SplitLines(response);
      ReplyDevice(response, Some(ip), net) ==
        Some(HeaderDevice(ip, HeaderValue(lines, "LOCATION:"), HeaderValue(lines, "USN:")))
  {
  }

  /**
   * A reply accepted without LG headers came from a fetched description
   * whose manufacturer mentions "LG"; the device keeps the description's
   * port 3000, names and id, and takes the reply's address.
   */
  lemma FallbackNeedsLgManufacturer(response: string, ip: string, net: Network)
    requires !LgHeaders(SplitLines(response))
    requires ReplyDevice(response, Some(ip), net).Some?
    ensures var location := HeaderValue(SplitLines(response), "LOCATION:");
      location.Some? && location.value in net.descriptions &&
      var xml := net.descriptions[location.value];
      var d := ReplyDevice(response, Some(ip), net).value;
      MentionsLg(ExtractXmlValue(xml, "manufacturer")) &&
      d.port == 3000 && d.ipAddress == ip &&
      d.name == ExtractXmlValue(xml, "friendlyName").GetOr(ExtractXmlValue(xml, "modelName").GetOr("LG TV")) &&
      d.id == ExtractXmlValue(xml, "UDN").GetOr(
        "lg_" + (if location.value in net.hosts then ReplaceChar(net.hosts[location.value], '.', '_') else "unknown"))
  {
  }

  /**
   * A description that mentions LG only in its model or friendly name passes
   * `parseDeviceXML` but the reply is still rejected.
   */
  lemma ModelNameAloneIsRejected(response: string, ip: string, net: Network)
    requires !LgHeaders(SplitLines(response))
    requires var location := HeaderValue(SplitLines(response), "LOCATION:");
      location.Some? && location.value in net.descriptions &&
      !MentionsLg(ExtractXmlValue(net.descriptions[location.value], "manufacturer"))
    ensures ReplyDevice(response, Some(ip), net) == None
  {
  }

  /**
   * Without LG headers, a reply is accepted exactly when its LOCATION has a
   * fetched description whose manufacturer mentions "LG".
   */
  lemma FallbackIff(response: string, ip: string, net: Network)
    requires !LgHeaders(SplitLines(response))
    ensures ReplyDevice(response, Some(ip), net).Some? <==>
      var location := HeaderValue(SplitLines(response), "LOCATION:");
      location.Some? && location.value in net.descriptions &&
      MentionsLg(ExtractXmlValue(net.descriptions[location.value], "manufacturer"))
  {
    if ReplyDevice(response, Some(ip), net).Some? {
      FallbackNeedsLgManufacturer(response, ip, net);
    }
  }

  // ---------------------------------------------------------------------
  // The discovery run
  // ---------------------------------------------------------------------

  /** Some device in `devices` has address `ip`. */
  predicate HasIp(devices: seq<DiscoveredTv>, ip: string) {
    exists d :: d in devices && d.ipAddress == ip
  }

  /** No two devices share an address. */
  ghost predicate DistinctIps(devices: seq<DiscoveredTv>) {
    forall i, j :: 0 <= i < j < |devices| ==> devices[i].ipAddress != devices[j].ipAddress
  }

  /** What one receive yields: nothing for a swallowed error, else the classified reply. */
  function Received(reply: Option<Datagram>, net: Network): Option<DiscoveredTv> {
    if reply.None? then None else ReplyDevice(reply.value.text, reply.value.source, net)
  }

  /**
   * The same function as `Received`, named as a function value. Whole-run
   * definitions go through it so that the verifier does not unfold the reply
   * parse in their proofs.
   */
  const Receive: (Option<Datagram>, Network) -> Option<DiscoveredTv> := Received

  /** `f` applied to each element of `s` in turn, with the same context `c`. */
  function MapWith<A, C, B>(f: (A, C) -> B, s: seq<A>, c: C): (r: seq<B>)
    decreases |s|
    ensures |r| == |s|
  {
    if s == [] then [] else MapWith(f, s[..|s| - 1], c) + [f(s[|s| - 1], c)]
  }

  /** The `j`-th element of the mapped sequence is `f` of the `j`-th input. */
  lemma {:induction false} MapWithAt<A, C, B>(f: (A, C) -> B, s: seq<A>, c: C, j: int)
    requires 0 <= j < |s|
    ensures MapWith(f, s, c)[j] == f(s[j], c)
    decreases |s|
  {
    var n := |s| - 1;
    if j < n {
      MapWithAt(f, s[..n], c, j);
      assert s[..n][j] == s[j];
    }
  }

  /** What each receive of a run yields, in order. */
  function ReceivedAll(replies: seq<Option<Datagram>>, net: Network): (found: seq<Option<DiscoveredTv>>)
    ensures |found| == |replies|
  {
    MapWith(Receive, replies, net)
  }

  /** The run's `j`-th receive yields what that reply alone yields. */
  lemma ReceivedAllAt(replies: seq<Option<Datagram>>, net: Network, j: int)
    requires 0 <= j < |replies|
    ensures ReceivedAll(replies, net)[j] == Receive(replies[j], net)
  {
    MapWithAt(Receive, replies, net, j);
  }

  /** One more reply adds what its receive yields to the end of the run. */
  lemma ReceivedAllSnoc(replies: seq<Option<Datagram>>, net: Network, i: int)
    requires 0 <= i < |replies|
    ensures ReceivedAll(replies[..i + 1], net) == ReceivedAll(replies[..i], net) + [Receive(replies[i], net)]
  {
    assert replies[..i + 1][..i] == replies[..i];
  }

  /** Append a device unless its address is already listed. */
  function Admit(known: seq<DiscoveredTv>, device: Option<DiscoveredTv>): seq<DiscoveredTv> {
    if device.Some? && !HasIp(known, device.value.ipAddress) then known + [device.value] else known
  }

  /** The list accumulated from what the receives yielded: the simulated TV, then each new address once. */
  function Accumulate(found: seq<Option<DiscoveredTv>>): (devices: seq<DiscoveredTv>)
    decreases |found|
    ensures 1 <= |devices| <= |found| + 1
    ensures devices[0] == SimulatedTv
    ensures DistinctIps(devices)
  {
    if found == [] then [SimulatedTv]
    else Admit(Accumulate(found[..|found| - 1]), found[|found| - 1])
  }

  /** The list accumulated over a whole run. */
  function Discovered(replies: seq<Option<Datagram>>, net: Network): seq<DiscoveredTv> {
    Accumulate(ReceivedAll(replies, net))
  }

  /** Each list emitted so far is the current list cut after one more device. */
  ghost predicate EmittedPrefixes(emissions: seq<seq<DiscoveredTv>>, discovered: seq<DiscoveredTv>) {
    |emissions| == |discovered| - 1 &&
    forall k :: 0 <= k < |emissions| ==> emissions[k] == discovered[..k + 2]
  }

  /** One step of the `discoverTVs` loop: a new address is appended and the list emitted. */
  method Emit(discovered: seq<DiscoveredTv>, emissions: seq<seq<DiscoveredTv>>, device: Option<DiscoveredTv>)
    returns (discovered': seq<DiscoveredTv>, emissions': seq<seq<DiscoveredTv>>)
    requires EmittedPrefixes(emissions, discovered)
    ensures discovered' == Admit(discovered, device)
    ensures EmittedPrefixes(emissions', discovered')
  {
    discovered', emissions' := discovered, emissions;
    if device.Some? && !HasIp(discovered, device.value.ipAddress) {
      discovered' := discovered + [device.value];
      emissions' := emissions + [discovered'];
      forall k | 0 <= k < |emissions| ensures emissions'[k] == discovered'[..k + 2] {
        assert discovered'[..k + 2] == discovered[..k + 2];
      }
    }
  }

  /**
   * `discoverTVs` after the socket is set up (`socketReady`) or after the
   * setup failed. Returns every list emitted, in order.
   */
  method DiscoverTvs(replies: seq<Option<Datagram>>, socketReady: bool, net: Network)
    returns (emissions: seq<seq<DiscoveredTv>>)
    ensures |emissions| >= 1
    ensures emissions[|emissions| - 1] == (if socketReady then Discovered(replies, net) else [SimulatedTv])
    ensures !socketReady ==> emissions == [[], [SimulatedTv]]
    ensures socketReady ==> EmittedPrefixes(emissions[..|emissions| - 1], emissions[|emissions| - 1])
  {
    var discovered := [SimulatedTv];
    emissions := [];
    if socketReady {
      ghost var found: seq<Option<DiscoveredTv>> := [];
      var i := 0;
      while i < |replies|
        invariant 0 <= i <= |replies|
        invariant found == ReceivedAll(replies[..i], net)
        invariant discovered == Accumulate(found)
        invariant |emissions| == |discovered| - 1
        invariant EmittedPrefixes(emissions, discovered)
      {
        var device := None;
        if replies[i].Some? {
          device := ParseSsdp(replies[i].value.text, replies[i].value.source, net);
        }
        assert device == Receive(replies[i], net);
        ReceivedAllSnoc(replies, net, i);
        found := found + [device];
        discovered, emissions := Emit(discovered, emissions, device);
        i := i + 1;
      }
      assert replies[..i] == replies;
      assert (emissions + [discovered])[..|emissions|] == emissions;
    } else {
      emissions := emissions + [[]];
    }
    emissions := emissions + [discovered];
  }

  /** Each accumulated list extends the one before it. */
  lemma {:induction false} AccumulateGrows(found: seq<Option<DiscoveredTv>>, i: nat)
    requires i <= |found|
    ensures Accumulate(found[..i]) <= Accumulate(found)
    decreases |found| - i
  {
    if i < |found| {
      var n := |found| - 1;
      assert found[..n][..i] == found[..i];
      AccumulateGrows(found[..n], i);
    } else {
      assert found[..i] == found;
    }
  }

  /** Every device found leaves its address in the list. */
  lemma {:induction false} AccumulateComplete(found: seq<Option<DiscoveredTv>>, j: int)
    requires 0 <= j < |found| && found[j].Some?
    ensures HasIp(Accumulate(found), found[j].value.ipAddress)
    decreases |found|
  {
    var n := |found| - 1;
    var earlier := Accumulate(found[..n]);
    if j < n {
      assert found[..n][j] == found[j];
      AccumulateComplete(found[..n], j);
      var d :| d in earlier && d.ipAddress == found[j].value.ipAddress;
      assert d in Accumulate(found);
    } else if !HasIp(earlier, found[j].value.ipAddress) {
      assert Accumulate(found)[|earlier|] == found[j].value;
    }
  }

  /** Every listed device other than the simulated one is one that was found. */
  lemma {:induction false} AccumulateSound(found: seq<Option<DiscoveredTv>>, k: int)
    requires 0 < k < |Accumulate(found)|
    ensures exists j :: 0 <= j < |found| && found[j] == Some(Accumulate(found)[k])
    decreases |found|
  {
    var n := |found| - 1;
    var earlier := Accumulate(found[..n]);
    if k < |earlier| {
      AccumulateSound(found[..n], k);
      var j :| 0 <= j < n && found[..n][j] == Some(earlier[k]);
      assert found[j] == Some(Accumulate(found)[k]);
    } else {
      assert found[n] == Some(Accumulate(found)[k]);
    }
  }

  /** Some receive of the run yielded `d`. */
  ghost predicate YieldedBy(replies: seq<Option<Datagram>>, net: Network, d: DiscoveredTv) {
    exists j :: 0 <= j < |replies| && Receive(replies[j], net) == Some(d)
  }

  /**
   * The run's list holds exactly the simulated TV and the devices the
   * replies yielded, one per address.
   */
  lemma DiscoveredExactly(replies: seq<Option<Datagram>>, net: Network)
    ensures forall j :: 0 <= j < |replies| && Receive(replies[j], net).Some? ==>
      HasIp(Discovered(replies, net), Receive(replies[j], net).value.ipAddress)
    ensures forall k :: 0 < k < |Discovered(replies, net)| ==> YieldedBy(replies, net, Discovered(replies, net)[k])
  {
    var found := ReceivedAll(replies, net);
    forall j | 0 <= j < |replies| && Receive(replies[j], net).Some?
      ensures HasIp(Discovered(replies, net), Receive(replies[j], net).value.ipAddress)
    {
      ReceivedAllAt(replies, net, j);
      AccumulateComplete(found, j);
    }
    forall k | 0 < k < |Discovered(replies, net)|
      ensures YieldedBy(replies, net, Discovered(replies, net)[k])
    {
      AccumulateSound(found, k);
      var j :| 0 <= j < |found| && found[j] == Some(Accumulate(found)[k]);
      ReceivedAllAt(replies, net, j);
    }
  }
}
