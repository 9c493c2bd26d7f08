/** Reading the `--down-ports` and `--down-links` options into the two
    exclusion sets: the port blacklist (tokens `s-u`, kept verbatim) and the
    link blacklist (tokens `s-u:s-u`, keyed so that the lower socket comes
    first). A malformed token is fatal; a token naming a socket or UPI port
    the machine does not have is dropped without a word. */
module Exclusions {
  import opened Wrappers
  import opened PyText

  /** `--sockets` and `--upis`: any integers argparse accepts. */
  datatype Topology = Topology(sockets: int, upis: int)

  /** A UPI port: socket number and link index on that socket. */
  datatype Port = Port(socket: int, upi: int)

  /** A link between two ports, in the order the token names them. */
  datatype Link = Link(from: Port, to: Port)

  const PortsFormatError: string := "error : the --down-ports format is s-u,s-u,...\n"
  const LinksFormatError: string := "error : the --down-links format is s-u:s-u,s-u:s-u,...\n"

  predicate InTopology(topo: Topology, p: Port) {
    0 <= p.socket < topo.sockets && 0 <= p.upi < topo.upis
  }

  predicate IsNonNegative(p: Port) {
    p.socket >= 0 && p.upi >= 0
  }

  /** A port whose text `int()` reads back: non-negative, and neither number
      longer than the digit limit. */
  predicate IsReadable(p: Port) {
    IsNonNegative(p) && WithinDigitLimit(p.socket) && WithinDigitLimit(p.upi)
  }

  /** The option text cut at its commas; without a comma, the whole text. */
  function Tokens(spec: string): (ts: seq<string>)
    ensures |ts| >= 1
  {
    if ',' in spec then Split(spec, ',') else [spec]
  }

  /** The source's comma test is redundant: both branches equal `split(",")`. */
  lemma TokensAreSplit(spec: string)
    ensures Tokens(spec) == Split(spec, ',')
  {
    if ',' !in spec {
      SplitNoSeparator(spec, ',');
    }
  }

  /** `s, u = [int(d) for d in token.split('-')]`: exactly two parts, both
      integers. */
  function ParsePort(token: string): Option<Port> {
    var parts := Split(token, '-');
    if |parts| != 2 then None
    else
      var s, u := ParseInt(parts[0]), ParseInt(parts[1]);
      if s.Some? && u.Some? then Some(Port(s.value, u.value)) else None
  }

  /** The token is cut at every `-`, so no part carries a minus sign: a
      parsed port is never negative, and the source's `< 0` guards never fire. */
  lemma ParsedPortIsNonNegative(token: string)
    ensures ParsePort(token).Some? ==> IsNonNegative(ParsePort(token).value)
  {
    var parts := Split(token, '-');
    SplitPartsLackSeparator(token, '-');
    if |parts| == 2 {
      ParseIntWithoutMinus(parts[0]);
      ParseIntWithoutMinus(parts[1]);
    }
  }

  /** A negative socket cannot be written: `-1-0` has three `-`-separated
      parts and is a format error, not a port outside the topology. */
  lemma NegativeSocketIsMalformed()
    ensures ParsePort("-1-0") == None
  {
    SplitNoSeparator("0", '-');
    SplitAfterPart("1", "0", '-');
    assert "1" + ['-'] + "0" == "1-0";
    SplitAfterPart("", "1-0", '-');
    assert "" + ['-'] + "1-0" == "-1-0";
    assert |Split("-1-0", '-')| == 3;
  }

  /** `linkA, linkB = token.split(":")`, each side parsed as a port. */
  function ParseLink(token: string): Option<Link> {
    var parts := Split(token, ':');
    if |parts| != 2 then None
    else
      var a, b := ParsePort(parts[0]), ParsePort(parts[1]);
      if a.Some? && b.Some? then Some(Link(a.value, b.value)) else None
  }

  /** `"{}-{}".format(socket, upi)`. */
  function PortText(p: Port): string {
    IntToString(p.socket) + "-" + IntToString(p.upi)
  }

  function LinkText(l: Link): string {
    PortText(l.from) + ":" + PortText(l.to)
  }

  function Reverse(l: Link): Link {
    Link(l.to, l.from)
  }

  /** The blacklist entry for a parsed link token: endpoints swapped and
      re-formatted when the first socket is the greater one, otherwise the
      token exactly as the user wrote it. */
  function LinkKey(token: string, l: Link): string {
    if l.from.socket > l.to.socket then LinkText(Reverse(l)) else token
  }

  ghost predicate PortAccepted(topo: Topology, token: string) {
    ParsePort(token).Some? && InTopology(topo, ParsePort(token).value)
  }

  ghost predicate LinkAccepted(topo: Topology, token: string) {
    ParseLink(token).Some?
    && InTopology(topo, ParseLink(token).value.from)
    && InTopology(topo, ParseLink(token).value.to)
  }

  /** The port tokens that survive: verbatim, and only those inside the topology. */
  ghost function AcceptedPorts(topo: Topology, ts: seq<string>): set<string> {
    set i | 0 <= i < |ts| && PortAccepted(topo, ts[i]) :: ts[i]
  }

  /** The keys of the link tokens that survive. */
  ghost function AcceptedLinks(topo: Topology, ts: seq<string>): set<string> {
    set i | 0 <= i < |ts| && LinkAccepted(topo, ts[i]) :: LinkKey(ts[i], ParseLink(ts[i]).value)
  }

  /** The whole down-ports option: absent means no exclusion; one malformed
      token anywhere is the fatal format error. */
  ghost function PortBlacklist(topo: Topology, spec: Option<string>): Result<set<string>, string> {
    if spec.None? then Success({})
    else
      var ts := Tokens(spec.value);
      if exists i :: 0 <= i < |ts| && ParsePort(ts[i]).None? then Failure(PortsFormatError)
      else Success(AcceptedPorts(topo, ts))
  }

  /** The whole down-links option, read the same way. */
  ghost function LinkBlacklist(topo: Topology, spec: Option<string>): Result<set<string>, string> {
    if spec.None? then Success({})
    else
      var ts := Tokens(spec.value);
      if exists i :: 0 <= i < |ts| && ParseLink(ts[i]).None? then Failure(LinksFormatError)
      else Success(AcceptedLinks(topo, ts))
  }

  /** The loop that fills `port_blacklist`, leaving at the first malformed token. */
  method BuildPortBlacklist(topo: Topology, spec: Option<string>) returns (r: Result<set<string>, string>)
    ensures r == PortBlacklist(topo, spec)
  {
    if spec.None? {
      return Success({});
    }
    var ts := Tokens(spec.value);
    var ports: set<string> := {};
    var i := 0;
    while i < |ts|
      invariant i <= |ts|
      invariant ports == PortsUpTo(topo, ts, i)
      invariant PortsParseUpTo(ts, i)
    {
      var p := ParsePort(ts[i]);
      if p.None? {
        break;
      }
      if InTopology(topo, p.value) {
        ports := ports + {ts[i]};
      }
      i := i + 1;
    }
    if i < |ts| {
      PortBlacklistFails(topo, spec.value, i);
      return Failure(PortsFormatError);
    }
    PortBlacklistSucceeds(topo, spec.value);
    return Success(ports);
  }

  /** The loop that fills `blacklist`, leaving at the first malformed token. */
  method BuildLinkBlacklist(topo: Topology, spec: Option<string>) returns (r: Result<set<string>, string>)
    ensures r == LinkBlacklist(topo, spec)
  {
    if spec.None? {
      return Success({});
    }
    var ts := Tokens(spec.value);
    var links: set<string> := {};
    var i := 0;
    while i < |ts|
      invariant i <= |ts|
      invariant links == LinksUpTo(topo, ts, i)
      invariant LinksParseUpTo(ts, i)
    {
      var couple := ts[i];
      var l := ParseLink(couple);
      if l.None? {
        break;
      }
      LinksUpToNext(topo, ts, i, l.value);
      // endpoints naming a socket or UPI port the machine lacks: skip the token
      if InTopology(topo, l.value.from) && InTopology(topo, l.value.to) {
        links := links + {LinkKey(couple, l.value)};
      }
      i := i + 1;
    }
    if i < |ts| {
      LinkBlacklistFails(topo, spec.value, i);
      return Failure(LinksFormatError);
    }
    LinkBlacklistSucceeds(topo, spec.value);
    return Success(links);
  }

  /** The first `n` tokens all read as ports. */
  ghost predicate PortsParseUpTo(ts: seq<string>, n: nat)
    requires n <= |ts|
  {
    n == 0 || (PortsParseUpTo(ts, n - 1) && ParsePort(ts[n - 1]).Some?)
  }

  /** What the loop has gathered after the first `n` port tokens. */
  ghost function PortsUpTo(topo: Topology, ts: seq<string>, n: nat): set<string>
    requires n <= |ts|
  {
    if n == 0 then {}
    else PortsUpTo(topo, ts, n - 1) + (if PortAccepted(topo, ts[n - 1]) then {ts[n - 1]} else {})
  }

  lemma {:induction false} PortParsesAt(ts: seq<string>, n: nat, i: nat)
    requires i < n <= |ts|
    requires PortsParseUpTo(ts, n)
    ensures ParsePort(ts[i]).Some?
    decreases n
  {
    if i < n - 1 {
      PortParsesAt(ts, n - 1, i);
    }
  }

  lemma {:induction false} PortsUpToMeans(topo: Topology, ts: seq<string>, n: nat)
    requires n <= |ts|
    ensures PortsUpTo(topo, ts, n) == set i | 0 <= i < n && PortAccepted(topo, ts[i]) :: ts[i]
  {
    if n > 0 {
      PortsUpToMeans(topo, ts, n - 1);
    }
  }

  lemma PortBlacklistFails(topo: Topology, spec: string, i: nat)
    requires i < |Tokens(spec)| && ParsePort(Tokens(spec)[i]).None?
    ensures PortBlacklist(topo, Some(spec)) == Failure(PortsFormatError)
  {
  }

  lemma PortBlacklistSucceeds(topo: Topology, spec: string)
    requires PortsParseUpTo(Tokens(spec), |Tokens(spec)|)
    ensures PortBlacklist(topo, Some(spec)) == Success(PortsUpTo(topo, Tokens(spec), |Tokens(spec)|))
  {
    var ts := Tokens(spec);
    forall i | 0 <= i < |ts|
      ensures ParsePort(ts[i]).Some?
    {
      PortParsesAt(ts, |ts|, i);
    }
    PortsUpToMeans(topo, ts, |ts|);
  }

  /** The first `n` tokens all read as links. */
  ghost predicate LinksParseUpTo(ts: seq<string>, n: nat)
    requires n <= |ts|
  {
    n == 0 || (LinksParseUpTo(ts, n - 1) && ParseLink(ts[n - 1]).Some?)
  }

  /** One more well-formed link token adds its key when both of its
      endpoints are inside the topology, and nothing otherwise. */
  lemma LinksUpToNext(topo: Topology, ts: seq<string>, i: nat, l: Link)
    requires i < |ts| && ParseLink(ts[i]) == Some(l)
    ensures LinksUpTo(topo, ts, i + 1)
         == LinksUpTo(topo, ts, i) + (if InTopology(topo, l.from) && InTopology(topo, l.to) then {LinkKey(ts[i], l)} else {})
    ensures LinksParseUpTo(ts, i) ==> LinksParseUpTo(ts, i + 1)
  {
  }

  /** What the loop has gathered after the first `n` link tokens. */
  ghost function LinksUpTo(topo: Topology, ts: seq<string>, n: nat): set<string>
    requires n <= |ts|
  {
    if n == 0 then {}
    else
      LinksUpTo(topo, ts, n - 1)
      + (if LinkAccepted(topo, ts[n - 1]) then {LinkKey(ts[n - 1], ParseLink(ts[n - 1]).value)} else {})
  }

  lemma {:induction false} LinkParsesAt(ts: seq<string>, n: nat, i: nat)
    requires i < n <= |ts|
    requires LinksParseUpTo(ts, n)
    ensures ParseLink(ts[i]).Some?
    decreases n
  {
    if i < n - 1 {
      LinkParsesAt(ts, n - 1, i);
    }
  }

  lemma {:induction false} LinksUpToMeans(topo: Topology, ts: seq<string>, n: nat)
    requires n <= |ts|
    ensures LinksUpTo(topo, ts, n)
         == set i | 0 <= i < n && LinkAccepted(topo, ts[i]) :: LinkKey(ts[i], ParseLink(ts[i]).value)
  {
    if n > 0 {
      LinksUpToMeans(topo, ts, n - 1);
    }
  }

  lemma LinkBlacklistFails(topo: Topology, spec: string, i: nat)
    requires i < |Tokens(spec)| && ParseLink(Tokens(spec)[i]).None?
    ensures LinkBlacklist(topo, Some(spec)) == Failure(LinksFormatError)
  {
  }

  lemma LinkBlacklistSucceeds(topo: Topology, spec: string)
    requires LinksParseUpTo(Tokens(spec), |Tokens(spec)|)
    ensures LinkBlacklist(topo, Some(spec)) == Success(LinksUpTo(topo, Tokens(spec), |Tokens(spec)|))
  {
    var ts := Tokens(spec);
    forall i | 0 <= i < |ts|
      ensures ParseLink(ts[i]).Some?
    {
      LinkParsesAt(ts, |ts|, i);
    }
    LinksUpToMeans(topo, ts, |ts|);
  }

  /** `int` and `str` agree on ports: the text of a readable port reads back
      as that port. */
  lemma ParsePortText(p: Port)
    requires IsReadable(p)
    ensures ParsePort(PortText(p)) == Some(p)
  {
    var a, b := NatToString(p.socket), NatToString(p.upi);
    assert IntToString(p.socket) == a && IntToString(p.upi) == b;
    SplitJoin([a, b], '-');
    assert Join([a, b], '-') == PortText(p);
    ParseNatToString(p.socket);
    ParseNatToString(p.upi);
  }

  lemma ParseLinkText(l: Link)
    requires IsReadable(l.from) && IsReadable(l.to)
    ensures ParseLink(LinkText(l)) == Some(l)
  {
    var a, b := PortText(l.from), PortText(l.to);
    SplitJoin([a, b], ':');
    assert Join([a, b], ':') == LinkText(l);
    ParsePortText(l.from);
    ParsePortText(l.to);
  }

  /** Between two different sockets, a link and its reverse written in the
      same decimal form get the same blacklist entry: the one with the lower
      socket first. */
  lemma KeyIsDirectionIndependent(l: Link)
    requires IsReadable(l.from) && IsReadable(l.to)
    requires l.from.socket != l.to.socket
    ensures ParseLink(LinkText(l)) == Some(l)
    ensures ParseLink(LinkText(Reverse(l))) == Some(Reverse(l))
    ensures LinkKey(LinkText(l), l) == LinkKey(LinkText(Reverse(l)), Reverse(l))
    ensures LinkKey(LinkText(l), l)
         == if l.from.socket < l.to.socket then LinkText(l) else LinkText(Reverse(l))
  {
    ParseLinkText(l);
    ParseLinkText(Reverse(l));
  }

  /** Within one socket there is no swap: a link and its reverse, both on
      socket `s`, stay two different entries. */
  lemma SameSocketKeepsOrder(s: nat, u: nat, v: nat)
    requires WithinDigitLimit(s) && WithinDigitLimit(u) && WithinDigitLimit(v)
    requires u != v
    ensures var l := Link(Port(s, u), Port(s, v));
      ParseLink(LinkText(l)) == Some(l)
      && LinkKey(LinkText(l), l) == LinkText(l)
      && LinkKey(LinkText(Reverse(l)), Reverse(l)) == LinkText(Reverse(l))
      && LinkText(l) != LinkText(Reverse(l))
  {
    var l := Link(Port(s, u), Port(s, v));
    ParseLinkText(l);
    ParseLinkText(Reverse(l));
  }

  /** Appending a token to the link option adds at most its own key. */
  lemma AcceptedLinksSnoc(topo: Topology, ts: seq<string>, t: string)
    ensures AcceptedLinks(topo, ts + [t])
         == AcceptedLinks(topo, ts) + (if LinkAccepted(topo, t) then {LinkKey(t, ParseLink(t).value)} else {})
  {
    var u := ts + [t];
    forall x | x in AcceptedLinks(topo, u)
      ensures x in AcceptedLinks(topo, ts) || (LinkAccepted(topo, t) && x == LinkKey(t, ParseLink(t).value))
    {
      var i :| 0 <= i < |u| && LinkAccepted(topo, u[i]) && x == LinkKey(u[i], ParseLink(u[i]).value);
      if i < |ts| {
        assert u[i] == ts[i];
      }
    }
    forall x | x in AcceptedLinks(topo, ts)
      ensures x in AcceptedLinks(topo, u)
    {
      var i :| 0 <= i < |ts| && LinkAccepted(topo, ts[i]) && x == LinkKey(ts[i], ParseLink(ts[i]).value);
      assert u[i] == ts[i];
    }
    if LinkAccepted(topo, t) {
      assert u[|ts|] == t;
    }
  }

  /** Listing a link a second time, in the other direction, adds nothing. */
  lemma ReversedDuplicateAddsNothing(topo: Topology, ts: seq<string>, j: nat, l: Link)
    requires IsReadable(l.from) && IsReadable(l.to)
    requires l.from.socket != l.to.socket
    requires j < |ts| && ts[j] == LinkText(l)
    ensures AcceptedLinks(topo, ts + [LinkText(Reverse(l))]) == AcceptedLinks(topo, ts)
  {
    KeyIsDirectionIndependent(l);
    AcceptedLinksSnoc(topo, ts, LinkText(Reverse(l)));
    if LinkAccepted(topo, LinkText(Reverse(l))) {
      assert LinkAccepted(topo, ts[j]);
    }
  }

  /** A port token naming a socket or UPI port outside the topology changes nothing. */
  lemma OutOfTopologyPortIgnored(topo: Topology, ts: seq<string>, t: string)
    requires ParsePort(t).Some? && !InTopology(topo, ParsePort(t).value)
    ensures AcceptedPorts(topo, ts + [t]) == AcceptedPorts(topo, ts)
  {
    var u := ts + [t];
    forall x | x in AcceptedPorts(topo, u)
      ensures x in AcceptedPorts(topo, ts)
    {
      var i :| 0 <= i < |u| && PortAccepted(topo, u[i]) && x == u[i];
      assert i < |ts| && u[i] == ts[i];
    }
    forall x | x in AcceptedPorts(topo, ts)
      ensures x in AcceptedPorts(topo, u)
    {
      var i :| 0 <= i < |ts| && PortAccepted(topo, ts[i]) && x == ts[i];
      assert u[i] == ts[i];
    }
  }

  /** A link token naming a socket or UPI port outside the topology changes nothing. */
  lemma OutOfTopologyLinkIgnored(topo: Topology, ts: seq<string>, t: string)
    requires ParseLink(t).Some?
    requires !InTopology(topo, ParseLink(t).value.from) || !InTopology(topo, ParseLink(t).value.to)
    ensures AcceptedLinks(topo, ts + [t]) == AcceptedLinks(topo, ts)
  {
    AcceptedLinksSnoc(topo, ts, t);
  }

  /** A link token written after a comma and a blank, lower socket first,
      is accepted, but it is stored as written, blank included, so it is
      not the key the input loop builds for that link. */
  lemma BlankKeptInKey(l: Link)
    requires IsReadable(l.from) && IsReadable(l.to)
    requires l.from.socket <= l.to.socket
    ensures ParseLink(" " + LinkText(l)) == Some(l)
    ensures LinkKey(" " + LinkText(l), l) == " " + LinkText(l)
    ensures LinkKey(" " + LinkText(l), l) != LinkKey(LinkText(l), l)
  {
    var a, b := PortText(l.from), PortText(l.to);
    BlankBeforePort(l.from);
    ParsePortText(l.to);
    ColonFree(l.from);
    ColonFree(l.to);
    SplitAfterPart(" " + a, b, ':');
    SplitNoSeparator(b, ':');
    BlankThenPair(a, b);
  }

  lemma BlankThenPair(a: string, b: string)
    ensures " " + (a + ":" + b) == " " + a + [':'] + b
  {
  }

  /** The text of a port has no `:` in it, with or without a blank before it. */
  lemma ColonFree(p: Port)
    requires IsNonNegative(p)
    ensures ':' !in PortText(p) && ':' !in " " + PortText(p)
  {
    var s, u := NatToString(p.socket), NatToString(p.upi);
    assert PortText(p) == s + "-" + u;
    assert ':' !in s && ':' !in u;
  }

  /** `int()` ignores a blank before the socket number. */
  lemma BlankBeforePort(p: Port)
    requires IsReadable(p)
    ensures ParsePort(" " + PortText(p)) == Some(p)
  {
    var s, u := NatToString(p.socket), NatToString(p.upi);
    SplitJoin([" " + s, u], '-');
    assert Join([" " + s, u], '-') == " " + PortText(p);
    assert (" " + s)[1..] == s;
    ParseNatToString(p.socket);
    ParseNatToString(p.upi);
  }
}
