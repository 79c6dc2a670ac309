/** `parse_ports`: each entry has the form `[outer:]inner[/protocol]`, where
    both ports are decimal numerals and the protocol is `tcp` (the default)
    or `udp`. */
module Ports {
  import opened Common
  import opened SpecList

  datatype Protocol = Tcp | Udp

  /** The record `{protocol, inner_port[, outer_port]}`; `outerPort` is
      `None` where the record has no `outer_port` key. */
  datatype PortSpec = PortSpec(protocol: Protocol, innerPort: string, outerPort: Option<string>)

  function ProtocolName(p: Protocol): string {
    match p
    case Tcp => "tcp"
    case Udp => "udp"
  }

  function ParseProtocol(s: string): (r: Option<Protocol>)
    ensures r.Some? <==> s == "tcp" || s == "udp"
    ensures r.Some? ==> ProtocolName(r.value) == s
  {
    if s == "tcp" then Some(Tcp) else if s == "udp" then Some(Udp) else None
  }

  /** A record the parser can produce: numeric ports. */
  predicate WellFormed(p: PortSpec) {
    IsNumeral(p.innerPort) && (p.outerPort.Some? ==> IsNumeral(p.outerPort.value))
  }

  /** The `[outer:]inner` part, for a protocol already read. */
  function ParseAddress(s: string, protocol: Protocol): (r: Option<PortSpec>)
    ensures r.Some? ==> WellFormed(r.value) && r.value.protocol == protocol
    ensures r.Some? ==> (r.value.outerPort.Some? <==> ':' in s)
  {
    match Find(s, ':')
    case None =>
      if IsNumeral(s) then Some(PortSpec(protocol, s, None)) else None
    case Some(i) =>
      if IsNumeral(s[..i]) && IsNumeral(s[i + 1..]) then Some(PortSpec(protocol, s[i + 1..], Some(s[..i]))) else None
  }

  /** `parse_ports` on one entry. An accepted entry has numeral ports, is
      `tcp` when it names no protocol, and has an outer port exactly when it
      holds a `:`. */
  function ParsePort(s: string): (r: Option<PortSpec>)
    ensures r.Some? ==> WellFormed(r.value)
    ensures r.Some? && '/' !in s ==> r.value.protocol == Tcp
    ensures r.Some? ==> (r.value.outerPort.Some? <==> ':' in s)
  {
    match Find(s, '/')
    case None => ParseAddress(s, Tcp)
    case Some(i) =>
      match ParseProtocol(s[i + 1..])
      case None => None
      case Some(protocol) =>
        assert s == s[..i] + "/" + ProtocolName(protocol);
        ParseAddress(s[..i], protocol)
  }

  /** `parse_ports`: one record per entry, in order, or the first bad entry. */
  function ParsePorts(entries: seq<string>): (r: Parsed<PortSpec>)
    ensures r.Parsed? ==> |r.records| == |entries| && forall i :: 0 <= i < |r.records| ==> WellFormed(r.records[i])
    ensures r.Parsed? ==> forall i :: 0 <= i < |entries| ==> ParsePort(entries[i]) == Some(r.records[i])
    ensures r.BadParameter? ==> r.entry in entries && ParsePort(r.entry).None?
  {
    ParseEach(entries, ParsePort)
  }

  function AddressText(p: PortSpec): string {
    (if p.outerPort.Some? then p.outerPort.value + ":" else "") + p.innerPort
  }

  /** The record written back in the entry grammar, protocol spelled out. */
  function PortText(p: PortSpec): string {
    AddressText(p) + "/" + ProtocolName(p.protocol)
  }

  lemma NumeralHasNo(s: string, c: char)
    requires IsNumeral(s) && !IsDigit(c)
    ensures c !in s
  {
  }

  lemma ParseAddressSound(s: string, protocol: Protocol, p: PortSpec)
    requires ParseAddress(s, protocol) == Some(p)
    ensures WellFormed(p) && p.protocol == protocol && s == AddressText(p)
  {
    match Find(s, ':')
    case None =>
    case Some(i) =>
      assert s == s[..i] + ":" + s[i + 1..];
  }

  lemma ParseAddressComplete(p: PortSpec)
    requires WellFormed(p)
    ensures ParseAddress(AddressText(p), p.protocol) == Some(p)
  {
    var s := AddressText(p);
    NumeralHasNo(p.innerPort, ':');
    if p.outerPort.None? {
      assert s == p.innerPort;
    } else {
      var outer := p.outerPort.value;
      NumeralHasNo(outer, ':');
      FindAfter(outer, ':', p.innerPort);
      assert s == outer + [':'] + p.innerPort;
      assert s[..|outer|] == outer && s[|outer| + 1..] == p.innerPort;
    }
  }

  /** Every accepted entry is a well-formed record written in the grammar,
      with or without the default protocol. */
  lemma ParsePortSound(s: string, p: PortSpec)
    requires ParsePort(s) == Some(p)
    ensures WellFormed(p)
    ensures s == PortText(p) || (p.protocol == Tcp && s == AddressText(p))
  {
    var slash := Find(s, '/');
    if slash.None? {
      ParseAddressSound(s, Tcp, p);
    } else {
      var i := slash.value;
      var protocol := ParseProtocol(s[i + 1..]).value;
      ParseAddressSound(s[..i], protocol, p);
      assert s == s[..i] + "/" + ProtocolName(protocol);
    }
  }

  lemma AddressHasNoSlash(p: PortSpec)
    requires WellFormed(p)
    ensures '/' !in AddressText(p)
  {
    NumeralHasNo(p.innerPort, '/');
    if p.outerPort.Some? {
      NumeralHasNo(p.outerPort.value, '/');
    }
  }

  lemma SpelledOutParses(p: PortSpec)
    requires WellFormed(p)
    ensures ParsePort(PortText(p)) == Some(p)
  {
    var a := AddressText(p);
    var name := ProtocolName(p.protocol);
    AddressHasNoSlash(p);
    ParseAddressComplete(p);
    FindAfter(a, '/', name);
    var s := a + ['/'] + name;
    assert s[..|a|] == a && s[|a| + 1..] == name;
    assert ParseProtocol(name) == Some(p.protocol) by {
      if p.protocol == Tcp { assert name == "tcp"; } else { assert name == "udp"; }
    }
    assert PortText(p) == s;
  }

  /** Every well-formed record is accepted in both spellings. */
  lemma ParsePortComplete(p: PortSpec)
    requires WellFormed(p)
    ensures ParsePort(PortText(p)) == Some(p)
    ensures p.protocol == Tcp ==> ParsePort(AddressText(p)) == Some(p)
  {
    SpelledOutParses(p);
    AddressHasNoSlash(p);
    ParseAddressComplete(p);
  }

  function PortTexts(ps: seq<PortSpec>): (r: seq<string>)
    ensures |r| == |ps| && forall i :: 0 <= i < |ps| ==> r[i] == PortText(ps[i])
  {
    if ps == [] then [] else [PortText(ps[0])] + PortTexts(ps[1..])
  }

  /** Re-parsing the records of a successful parse, written back in the
      grammar, gives the same records. */
  lemma ParsePortsIdempotent(entries: seq<string>, ps: seq<PortSpec>)
    requires ParsePorts(entries) == Parsed(ps)
    ensures ParsePorts(PortTexts(ps)) == Parsed(ps)
  {
    var texts := PortTexts(ps);
    forall i | 0 <= i < |ps|
      ensures ParsePort(texts[i]) == Some(ps[i])
    {
      ParsePortSound(entries[i], ps[i]);
      ParsePortComplete(ps[i]);
    }
    var r := ParsePorts(texts);
    assert AllParse(texts, ParsePort);
    assert r.records == ps;
  }

  /** A well-formed record is what its own spelling parses to. */
  lemma Accept(s: string, p: PortSpec)
    requires WellFormed(p)
    requires s == PortText(p) || (p.protocol == Tcp && s == AddressText(p))
    ensures ParsePort(s) == Some(p)
  {
    ParsePortComplete(p);
  }

  // The examples below take the entry as a parameter fixed by `requires`,
  // so that the verifier does not unfold the parser on a literal.

  lemma AcceptBare(s: string)
    requires s == "80"
    ensures ParsePort(s) == Some(PortSpec(Tcp, "80", None))
  {
    Accept(s, PortSpec(Tcp, "80", None));
  }

  lemma AcceptWithProtocol(s: string)
    requires s == "53/udp"
    ensures ParsePort(s) == Some(PortSpec(Udp, "53", None))
  {
    Accept(s, PortSpec(Udp, "53", None));
  }

  lemma AcceptPublished(s: string)
    requires s == "3307:3306"
    ensures ParsePort(s) == Some(PortSpec(Tcp, "3306", Some("3307")))
  {
    Accept(s, PortSpec(Tcp, "3306", Some("3307")));
  }

  lemma AcceptPublishedWithProtocol(s: string)
    requires s == "8083:8080/udp"
    ensures ParsePort(s) == Some(PortSpec(Udp, "8080", Some("8083")))
  {
    Accept(s, PortSpec(Udp, "8080", Some("8083")));
  }

  lemma ShownFirstPair(a: string, b: string)
    requires a == "80" && b == "53/udp"
    ensures ParsePorts([a, b]) == Parsed([PortSpec(Tcp, "80", None), PortSpec(Udp, "53", None)])
  {
    AcceptBare(a);
    AcceptWithProtocol(b);
    ParseTwo(a, b, ParsePort);
  }

  lemma ShownSecondPair(c: string, d: string)
    requires c == "3307:3306" && d == "8083:8080/udp"
    ensures ParsePorts([c, d]) == Parsed([PortSpec(Tcp, "3306", Some("3307")), PortSpec(Udp, "8080", Some("8083"))])
  {
    AcceptPublished(c);
    AcceptPublishedWithProtocol(d);
    ParseTwo(c, d, ParsePort);
  }

  /** Two lists that parse, parsed as one. */
  lemma ParsePairs(a: string, b: string, c: string, d: string, x: seq<PortSpec>, y: seq<PortSpec>)
    requires ParsePorts([a, b]) == Parsed(x) && ParsePorts([c, d]) == Parsed(y)
    ensures ParsePorts([a, b, c, d]) == Parsed(x + y)
  {
    ParseEachAppend([a, b], [c, d], ParsePort);
    assert [a, b] + [c, d] == [a, b, c, d];
  }

  /** The accepted lists the port test asserts: order kept, `tcp` by
      default, `outer_port` only where a `:` was given. */
  lemma ShownPorts(a: string, b: string, c: string, d: string)
    requires a == "80" && b == "53/udp" && c == "3307:3306" && d == "8083:8080/udp"
    ensures ParsePorts([a]) == Parsed([PortSpec(Tcp, "80", None)])
    ensures ParsePorts([a, b, c, d]) == Parsed([
              PortSpec(Tcp, "80", None),
              PortSpec(Udp, "53", None),
              PortSpec(Tcp, "3306", Some("3307")),
              PortSpec(Udp, "8080", Some("8083"))])
  {
    AcceptBare(a);
    ParseOne(a, ParsePort);
    var x := [PortSpec(Tcp, "80", None), PortSpec(Udp, "53", None)];
    var y := [PortSpec(Tcp, "3306", Some("3307")), PortSpec(Udp, "8080", Some("8083"))];
    ShownFirstPair(a, b);
    ShownSecondPair(c, d);
    ParsePairs(a, b, c, d, x, y);
  }

  /** An entry without `/` whose two sides of its first `:` are not both
      numerals. */
  lemma RejectAddress(s: string, outer: string, inner: string)
    requires '/' !in s && ':' !in outer && s == outer + ":" + inner
    requires !IsNumeral(outer) || !IsNumeral(inner)
    ensures ParsePort(s) == None
  {
    FindAfter(outer, ':', inner);
    assert s == outer + [':'] + inner;
    assert s[..|outer|] == outer && s[|outer| + 1..] == inner;
  }

  /** An entry whose text after its first `/` names no protocol. */
  lemma RejectProtocol(s: string, address: string, protocol: string)
    requires '/' !in address && s == address + "/" + protocol
    requires protocol != "tcp" && protocol != "udp"
    ensures ParsePort(s) == None
  {
    FindAfter(address, '/', protocol);
    assert s == address + ['/'] + protocol;
    assert s[|address| + 1..] == protocol;
  }

  lemma RejectAbc(s: string)
    requires s == "abc" || s == ""
    ensures ParsePort(s) == None
  {
    if s != "" {
      assert !IsDigit(s[0]);
    }
    assert '/' !in s && ':' !in s;
  }

  lemma RejectOuterAbc(s: string)
    requires s == "abc:80"
    ensures ParsePort(s) == None
  {
    assert !IsDigit("abc"[0]);
    RejectAddress(s, "abc", "80");
  }

  lemma RejectInnerAbc(s: string)
    requires s == "80:abc"
    ensures ParsePort(s) == None
  {
    assert !IsDigit("abc"[0]);
    RejectAddress(s, "80", "abc");
  }

  lemma RejectTwoColons(s: string)
    requires s == "80:80:abc"
    ensures ParsePort(s) == None
  {
    assert !IsDigit("80:abc"[2]);
    RejectAddress(s, "80", "80:abc");
  }

  lemma RejectBadProtocol(s: string)
    requires s == "80:80/abc"
    ensures ParsePort(s) == None
  {
    RejectProtocol(s, "80:80", "abc");
  }

  lemma RejectColonInProtocol(s: string)
    requires s == "80/80:tcp"
    ensures ParsePort(s) == None
  {
    RejectProtocol(s, "80", "80:tcp");
  }

  /** The malformed entries the port test rejects, each named by `BadParameter`. */
  lemma ShownBadPorts()
    ensures ParsePorts(["abc"]) == BadParameter("abc")
    ensures ParsePorts(["abc:80"]) == BadParameter("abc:80")
    ensures ParsePorts(["80:abc"]) == BadParameter("80:abc")
    ensures ParsePorts(["80:80:abc"]) == BadParameter("80:80:abc")
    ensures ParsePorts(["80:80/abc"]) == BadParameter("80:80/abc")
    ensures ParsePorts(["80/80:tcp"]) == BadParameter("80/80:tcp")
    ensures ParsePorts([""]) == BadParameter("")
  {
    RejectAbc("abc");
    RejectOuterAbc("abc:80");
    RejectInnerAbc("80:abc");
    RejectTwoColons("80:80:abc");
    RejectBadProtocol("80:80/abc");
    RejectColonInProtocol("80/80:tcp");
    RejectAbc("");
    ParseOne("abc", ParsePort);
    ParseOne("abc:80", ParsePort);
    ParseOne("80:abc", ParsePort);
    ParseOne("80:80:abc", ParsePort);
    ParseOne("80:80/abc", ParsePort);
    ParseOne("80/80:tcp", ParsePort);
    ParseOne("", ParsePort);
  }
}
