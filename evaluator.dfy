/**
 * The evaluator end to end: the two exclusion options are read first (a
 * malformed one stops the program with status 1), then the run is declared
 * good without reading anything when the down links number at least as many
 * as the topology's links (sockets × upis ports, two ports to a link), and
 * otherwise standard input is scanned against the two blacklists and the
 * samples are judged.
 */
module Evaluator {
  import opened Wrappers
  import opened PyText
  import opened Exclusions
  import opened Scanner
  import opened Bandwidth

  /** How far the program gets. */
  datatype Outcome =
    | ConfigError(message: string)  // `sys.exit(1)` after the message, before any line is read
    | VacuousPass                   // `sys.exit(0)` before any line is read
    | Scanned(state: ScanState)     // the input loop ran; the verdict follows

  /** `2*len(blacklist) >= sockets*upis`: the down links leave nothing worth measuring. */
  predicate AllLinksDown(topo: Topology, links: set<string>) {
    2 * |links| >= topo.sockets * topo.upis
  }

  /** What the program does with its options and its input lines. */
  ghost function Evaluation(topo: Topology, downPorts: Option<string>, downLinks: Option<string>, lines: seq<string>): Outcome {
    match PortBlacklist(topo, downPorts)
    case Failure(e) => ConfigError(e)
    case Success(ports) =>
      match LinkBlacklist(topo, downLinks)
      case Failure(e) => ConfigError(e)
      case Success(links) =>
        if AllLinksDown(topo, links) then VacuousPass
        else Scanned(Scan(ports, links, Initial, lines))
  }

  /** The top level of the program; `read` is the number of input lines consumed. */
  method Evaluate(topo: Topology, downPorts: Option<string>, downLinks: Option<string>, lines: seq<string>)
    returns (o: Outcome, read: nat)
    ensures o == Evaluation(topo, downPorts, downLinks, lines)
    ensures read <= |lines|
    ensures !o.Scanned? ==> read == 0
    ensures o.Scanned? ==> o.state == Scan(ResultSet(PortBlacklist(topo, downPorts)), ResultSet(LinkBlacklist(topo, downLinks)), Initial, lines[..read])
    ensures o.Scanned? && read < |lines| ==> !Scanning(o.state.phase)
    ensures o.Scanned? && read > 0 ==>
      Scanning(Scan(ResultSet(PortBlacklist(topo, downPorts)), ResultSet(LinkBlacklist(topo, downLinks)), Initial, lines[..read - 1]).phase)
  {
    var ports := BuildPortBlacklist(topo, downPorts);
    if ports.Failure? {
      return ConfigError(ports.error), 0;
    }
    var links := BuildLinkBlacklist(topo, downLinks);
    if links.Failure? {
      return ConfigError(links.error), 0;
    }
    // every link is down: there is nothing to measure
    if AllLinksDown(topo, links.value) {
      return VacuousPass, 0;
    }
    var scanner := new LinkScanner(ports.value, links.value);
    read := scanner.Run(lines);
    o := Scanned(scanner.State());
  }

  /** The set a successful blacklist holds (empty after a failure). */
  function ResultSet(r: Result<set<string>, string>): set<string> {
    if r.Success? then r.value else {}
  }

  /** The exit status, given the value `float()` reads from the scan's
      `elapsed` text: a scan stopped by an exception exits with status 1. */
  function ExitCode(o: Outcome, elapsed: real): int {
    match o
    case ConfigError(_) => 1
    case VacuousPass => 0
    case Scanned(st) => if st.phase.Failed? then 1 else ExitStatus(Judge(st.datas, elapsed))
  }

  /** The program exits with status 0 or 1, and with 0 exactly when both
      options are well formed and either every link is down or the input
      loop ended without an exception, at the trailer or at the end of the
      input, with samples that pass both checks. */
  lemma ExitZeroExactly(topo: Topology, downPorts: Option<string>, downLinks: Option<string>,
                        lines: seq<string>, elapsed: real)
    ensures var status := ExitCode(Evaluation(topo, downPorts, downLinks, lines), elapsed);
      status == 0 || status == 1
    ensures ExitCode(Evaluation(topo, downPorts, downLinks, lines), elapsed) == 0
        <==> && PortBlacklist(topo, downPorts).Success?
             && LinkBlacklist(topo, downLinks).Success?
             && (|| AllLinksDown(topo, LinkBlacklist(topo, downLinks).value)
                 || (var st := Scan(PortBlacklist(topo, downPorts).value, LinkBlacklist(topo, downLinks).value,
                                    Initial, lines);
                     !st.phase.Failed? && Judge(st.datas, elapsed) == Pass))
  {
  }

  /** An exception in the input loop ends the program with status 1,
      whatever the samples read before it. */
  lemma FailedScanExitsOne(topo: Topology, downPorts: Option<string>, downLinks: Option<string>,
                           lines: seq<string>, elapsed: real)
    requires Evaluation(topo, downPorts, downLinks, lines).Scanned?
    requires Evaluation(topo, downPorts, downLinks, lines).state.phase.Failed?
    ensures ExitCode(Evaluation(topo, downPorts, downLinks, lines), elapsed) == 1
  {
  }

  /** Once both options are read, the program stops before the input with
      status 0 exactly when twice the number of down links reaches
      sockets × upis, that is, one down link per link of the topology. */
  lemma ShortCircuitExactly(topo: Topology, downPorts: Option<string>, downLinks: Option<string>,
                            links: set<string>, lines: seq<string>, elapsed: real)
    requires PortBlacklist(topo, downPorts).Success?
    requires LinkBlacklist(topo, downLinks) == Success(links)
    ensures Evaluation(topo, downPorts, downLinks, lines) == VacuousPass <==> 2 * |links| >= topo.sockets * topo.upis
    ensures 2 * |links| >= topo.sockets * topo.upis ==> ExitCode(Evaluation(topo, downPorts, downLinks, lines), elapsed) == 0
    ensures 2 * |links| < topo.sockets * topo.upis ==> Evaluation(topo, downPorts, downLinks, lines).Scanned?
  {
  }

  /** One malformed down-ports token ends the program with the format
      message, before the down links or any input line are looked at. */
  lemma MalformedPortStopsBeforeInput(topo: Topology, spec: string, i: nat, downLinks: Option<string>,
                                      lines: seq<string>, elapsed: real)
    requires i < |Tokens(spec)| && ParsePort(Tokens(spec)[i]).None?
    ensures Evaluation(topo, Some(spec), downLinks, lines) == ConfigError(PortsFormatError)
    ensures ExitCode(Evaluation(topo, Some(spec), downLinks, lines), elapsed) == 1
  {
    PortBlacklistFails(topo, spec, i);
  }

  /** Likewise for one malformed down-links token, once the down ports are good. */
  lemma MalformedLinkStopsBeforeInput(topo: Topology, downPorts: Option<string>, spec: string, i: nat,
                                      lines: seq<string>, elapsed: real)
    requires PortBlacklist(topo, downPorts).Success?
    requires i < |Tokens(spec)| && ParseLink(Tokens(spec)[i]).None?
    ensures Evaluation(topo, downPorts, Some(spec), lines) == ConfigError(LinksFormatError)
    ensures ExitCode(Evaluation(topo, downPorts, Some(spec), lines), elapsed) == 1
  {
    LinkBlacklistFails(topo, spec, i);
  }

  /** The fields of the `UPI Link` line the tool prints for directed link `l`
      carrying `d` data and `n` non-data units:
        UPI Link <u0> on Socket <s0> -> UPI Link <u1> on Socket <s1> <d> <n> */
  function UpiFields(l: Link, d: int, n: int): seq<string> {
    EndpointFields(l.from) + ["->"] + EndpointFields(l.to) + [IntToString(d), IntToString(n)]
  }

  /** `UPI Link <upi> on Socket <socket>`. */
  function EndpointFields(p: Port): seq<string> {
    ["UPI", "Link", IntToString(p.upi), "on", "Socket", IntToString(p.socket)]
  }

  /** How the tool sets out a `UPI Link` line: any fitting layout of its
      fifteen fields, with the single blank of `UPI Link` between the first two. */
  predicate IsUpiLayout(layout: Layout) {
    Fits(layout, 15) && layout.gaps[0] == " "
  }

  /** The `UPI Link` line for link `l`, set out by `layout`. */
  function UpiLine(l: Link, d: int, n: int, layout: Layout): string
    requires IsUpiLayout(layout)
  {
    Lay(UpiFields(l, d, n), layout)
  }

  /** The `dico` key of link `l`. */
  function SampleKey(l: Link): string {
    DicoKey(IntToString(l.from.socket), IntToString(l.from.upi), IntToString(l.to.socket), IntToString(l.to.upi))
  }

  /** The fields of a `UPI Link` line, whatever its spacing, are the ones
      it was printed from, and the cleaned line starts with `UPI Link`. */
  lemma UpiLineFields(l: Link, d: int, n: int, layout: Layout)
    requires IsUpiLayout(layout)
    ensures Fields(Clean(UpiLine(l, d, n, layout))) == UpiFields(l, d, n)
    ensures StartsWith(Clean(UpiLine(l, d, n, layout)), "UPI Link")
  {
    UpiFieldsAreWords(l, d, n);
    LaidOutFields(UpiFields(l, d, n), layout);
    UpiLineStart(l, d, n, layout.gaps);
  }

  lemma UpiFieldsAreWords(l: Link, d: int, n: int)
    ensures |UpiFields(l, d, n)| == 15
    ensures forall i :: 0 <= i < |UpiFields(l, d, n)| ==> IsWord(UpiFields(l, d, n)[i])
  {
    var a, b := EndpointFields(l.from), EndpointFields(l.to);
    EndpointWords(l.from);
    EndpointWords(l.to);
    NumberIsWord(d);
    NumberIsWord(n);
    var ws := UpiFields(l, d, n);
    forall i | 0 <= i < |ws|
      ensures IsWord(ws[i])
    {
      if i < 6 {
        assert ws[i] == a[i];
      } else if i == 6 {
        assert ws[i] == "->";
      } else if i < 13 {
        assert ws[i] == b[i - 7];
      }
    }
  }

  lemma EndpointWords(p: Port)
    ensures forall i :: 0 <= i < |EndpointFields(p)| ==> IsWord(EndpointFields(p)[i])
  {
    NumberIsWord(p.upi);
    NumberIsWord(p.socket);
  }

  lemma UpiLineStart(l: Link, d: int, n: int, gaps: seq<string>)
    requires |gaps| == 14 && gaps[0] == " "
    ensures StartsWith(Spaced(UpiFields(l, d, n), gaps), "UPI Link")
  {
    var ws := UpiFields(l, d, n);
    var rest := Spaced(ws[2..], gaps[2..]);
    assert ws[1..][1..] == ws[2..] && gaps[1..][1..] == gaps[2..];
    assert Spaced(ws[1..], gaps[1..]) == "Link" + gaps[1] + rest;
    assert Spaced(ws, gaps) == "UPI" + " " + ("Link" + gaps[1] + rest);
  }

  /** What one `UPI Link` line does in the link phase: it is skipped when
      either endpoint is a down port or the link's key, lower socket first,
      is a down link; otherwise a volume longer than the digit limit stops
      the loop with an exception, and volumes within it add one sample to
      each list and set the link's `dico` entry. */
  lemma UpiLineStep(ports: set<string>, links: set<string>, st: ScanState, l: Link, d: int, n: int,
                    layout: Layout)
    requires IsUpiLayout(layout)
    requires st.phase == SeekingLinks
    requires IsReadable(l.from) && IsReadable(l.to)
    ensures Step(ports, links, st, UpiLine(l, d, n, layout))
         == if PortText(l.from) in ports || PortText(l.to) in ports || LinkKey(LinkText(l), l) in links then st
            else if !WithinDigitLimit(d) then Fail(st, NotANumber(IntToString(d)))
            else if !WithinDigitLimit(n) then Fail(st, NotANumber(IntToString(n)))
            else st.(dico := st.dico[SampleKey(l) := Sample(d, n)],
                     datas := st.datas + [d],
                     nondatas := st.nondatas + [n])
  {
    UpiLineIsLinkLine(ports, links, st, l, d, n, layout);
    UpiNumbers(l, d, n);
    CompleteLinkLine(ports, links, st, UpiFields(l, d, n), l.from.socket, l.to.socket);
  }

  /** What `int()` and the key-building code make of the fields of a `UPI Link` line. */
  lemma UpiNumbers(l: Link, d: int, n: int)
    requires IsReadable(l.from) && IsReadable(l.to)
    ensures var f := UpiFields(l, d, n);
      && ParseInt(f[5]) == Some(l.from.socket) && ParseInt(f[12]) == Some(l.to.socket)
      && ParseInt(f[13]) == (if WithinDigitLimit(d) then Some(d) else None)
      && ParseInt(f[14]) == (if WithinDigitLimit(n) then Some(n) else None)
      && f[13] == IntToString(d) && f[14] == IntToString(n)
      && f[5] + "-" + f[2] == PortText(l.from) && f[12] + "-" + f[9] == PortText(l.to)
      && LineKey(f[5], f[2], f[12], f[9], l.from.socket, l.to.socket) == LinkKey(LinkText(l), l)
      && DicoKey(f[5], f[2], f[12], f[9]) == SampleKey(l)
  {
    var f := UpiFields(l, d, n);
    ParseIntToString(l.from.socket);
    ParseIntToString(l.to.socket);
    ParseIntToString(d);
    ParseIntToString(n);
    assert LineKey(f[5], f[2], f[12], f[9], l.from.socket, l.to.socket) == LinkKey(LinkText(l), l);
  }

  lemma UpiLineIsLinkLine(ports: set<string>, links: set<string>, st: ScanState, l: Link, d: int, n: int,
                          layout: Layout)
    requires IsUpiLayout(layout)
    requires st.phase == SeekingLinks
    ensures Step(ports, links, st, UpiLine(l, d, n, layout)) == LinkLine(ports, links, st, UpiFields(l, d, n))
  {
    UpiLineFields(l, d, n, layout);
    StartsWithNonEmpty(Clean(UpiLine(l, d, n, layout)), "UPI Link");
  }

  /** A link listed in the down links, between two different sockets, is
      skipped whichever direction the line reports it in. */
  lemma DownLinkSkippedBothWays(topo: Topology, spec: string, i: nat, ports: set<string>, links: set<string>,
                                st: ScanState, l: Link, d: int, n: int, layout: Layout)
    requires IsUpiLayout(layout)
    requires LinkBlacklist(topo, Some(spec)) == Success(links)
    requires i < |Tokens(spec)| && Tokens(spec)[i] == LinkText(l)
    requires IsReadable(l.from) && IsReadable(l.to) && InTopology(topo, l.from) && InTopology(topo, l.to)
    requires l.from.socket != l.to.socket
    requires st.phase == SeekingLinks
    ensures Step(ports, links, st, UpiLine(l, d, n, layout)) == st
    ensures Step(ports, links, st, UpiLine(Reverse(l), d, n, layout)) == st
  {
    var ts := Tokens(spec);
    KeyIsDirectionIndependent(l);
    assert LinkAccepted(topo, ts[i]);
    assert LinkKey(LinkText(l), l) in links;
    UpiLineStep(ports, links, st, l, d, n, layout);
    UpiLineStep(ports, links, st, Reverse(l), d, n, layout);
  }

  /** A line whose origin or destination port is listed in the down ports is skipped. */
  lemma DownPortSkipped(topo: Topology, spec: string, i: nat, ports: set<string>, links: set<string>,
                        st: ScanState, l: Link, d: int, n: int, layout: Layout)
    requires IsUpiLayout(layout)
    requires PortBlacklist(topo, Some(spec)) == Success(ports)
    requires i < |Tokens(spec)| && (Tokens(spec)[i] == PortText(l.from) || Tokens(spec)[i] == PortText(l.to))
    requires IsReadable(l.from) && IsReadable(l.to) && InTopology(topo, l.from) && InTopology(topo, l.to)
    requires st.phase == SeekingLinks
    ensures Step(ports, links, st, UpiLine(l, d, n, layout)) == st
  {
    var ts := Tokens(spec);
    ParsePortText(l.from);
    ParsePortText(l.to);
    assert PortAccepted(topo, ts[i]);
    assert ts[i] in ports;
    UpiLineStep(ports, links, st, l, d, n, layout);
  }

  /** The down link ` 0-2:1-3` (written after `, `) does not exclude the
      line for link 0-2 to 1-3: its sample is recorded. */
  lemma BlankTokenDoesNotExclude(ports: set<string>, st: ScanState, l: Link, d: int, n: int,
                                 layout: Layout)
    requires IsUpiLayout(layout)
    requires st.phase == SeekingLinks
    requires IsReadable(l.from) && IsReadable(l.to) && l.from.socket <= l.to.socket
    requires WithinDigitLimit(d) && WithinDigitLimit(n)
    requires PortText(l.from) !in ports && PortText(l.to) !in ports
    ensures Step(ports, {LinkKey(" " + LinkText(l), l)}, st, UpiLine(l, d, n, layout))
         == st.(dico := st.dico[SampleKey(l) := Sample(d, n)], datas := st.datas + [d], nondatas := st.nondatas + [n])
  {
    BlankKeptInKey(l);
    UpiLineStep(ports, {LinkKey(" " + LinkText(l), l)}, st, l, d, n, layout);
  }

  /** A link reported twice keeps one `dico` entry, holding the later
      sample, while both samples enter the lists. */
  lemma RepeatedLinkKeepsLastSample(ports: set<string>, links: set<string>, st: ScanState, l: Link,
                                    d1: int, n1: int, d2: int, n2: int, first: Layout, second: Layout)
    requires IsUpiLayout(first) && IsUpiLayout(second)
    requires st.phase == SeekingLinks
    requires IsReadable(l.from) && IsReadable(l.to)
    requires WithinDigitLimit(d1) && WithinDigitLimit(n1) && WithinDigitLimit(d2) && WithinDigitLimit(n2)
    requires PortText(l.from) !in ports && PortText(l.to) !in ports && LinkKey(LinkText(l), l) !in links
    ensures var r := Scan(ports, links, st, [UpiLine(l, d1, n1, first), UpiLine(l, d2, n2, second)]);
      && r.dico == st.dico[SampleKey(l) := Sample(d2, n2)]
      && r.datas == st.datas + [d1, d2]
      && r.nondatas == st.nondatas + [n1, n2]
      && r.phase == SeekingLinks
  {
    var k := SampleKey(l);
    UpiLineStep(ports, links, st, l, d1, n1, first);
    var mid := st.(dico := st.dico[k := Sample(d1, n1)], datas := st.datas + [d1], nondatas := st.nondatas + [n1]);
    UpiLineStep(ports, links, mid, l, d2, n2, second);
    ScanTwoLines(ports, links, st, UpiLine(l, d1, n1, first), UpiLine(l, d2, n2, second));
    assert mid.dico[k := Sample(d2, n2)] == st.dico[k := Sample(d2, n2)];
  }

  /** One row of the tool's link table: a directed link, its two volumes
      and how the row is set out. */
  datatype Report = Report(link: Link, data: int, nondata: int, layout: Layout)

  /** A row the loop records: printed in the tool's layout, with numbers
      `int()` reads back, neither endpoint a down port, and the link not a
      down link. */
  predicate Counted(ports: set<string>, links: set<string>, r: Report) {
    && IsUpiLayout(r.layout)
    && IsReadable(r.link.from) && IsReadable(r.link.to)
    && WithinDigitLimit(r.data) && WithinDigitLimit(r.nondata)
    && PortText(r.link.from) !in ports && PortText(r.link.to) !in ports
    && LinkKey(LinkText(r.link), r.link) !in links
  }

  function ReportLine(r: Report): string
    requires IsUpiLayout(r.layout)
  {
    UpiLine(r.link, r.data, r.nondata, r.layout)
  }

  function Datas(rs: seq<Report>): seq<int> {
    if |rs| == 0 then [] else [rs[0].data] + Datas(rs[1..])
  }

  function Nondatas(rs: seq<Report>): seq<int> {
    if |rs| == 0 then [] else [rs[0].nondata] + Nondatas(rs[1..])
  }

  function SampleKeys(rs: seq<Report>): set<string> {
    if |rs| == 0 then {} else {SampleKey(rs[0].link)} + SampleKeys(rs[1..])
  }

  /** The state after recording row `r`. */
  function Record(st: ScanState, r: Report): ScanState {
    st.(dico := st.dico[SampleKey(r.link) := Sample(r.data, r.nondata)],
        datas := st.datas + [r.data],
        nondatas := st.nondatas + [r.nondata])
  }

  /** Reading `line` in the link phase records `r`, whatever the state. */
  ghost predicate RecordsRow(ports: set<string>, links: set<string>, line: string, r: Report) {
    forall st: ScanState {:trigger Step(ports, links, st, line)} ::
      st.phase == SeekingLinks ==> Step(ports, links, st, line) == Record(st, r)
  }

  lemma CountedRowRecords(ports: set<string>, links: set<string>, r: Report)
    requires Counted(ports, links, r)
    ensures RecordsRow(ports, links, ReportLine(r), r)
  {
    forall st: ScanState | st.phase == SeekingLinks
      ensures Step(ports, links, st, ReportLine(r)) == Record(st, r)
    {
      UpiLineStep(ports, links, st, r.link, r.data, r.nondata, r.layout);
    }
  }

  /** A table of recorded rows appends its volumes to the two lists, in
      order, gives each link a `dico` entry and keeps the loop in the link phase. */
  lemma CountedRowsRecorded(ports: set<string>, links: set<string>, st: ScanState,
                            rs: seq<Report>, rows: seq<string>)
    requires st.phase == SeekingLinks
    requires |rows| == |rs|
    requires forall i :: 0 <= i < |rs| ==> Counted(ports, links, rs[i]) && rows[i] == ReportLine(rs[i])
    ensures var r := Scan(ports, links, st, rows);
      && r.phase == SeekingLinks && r.gflops == st.gflops && r.elapsed == st.elapsed
      && r.datas == st.datas + Datas(rs) && r.nondatas == st.nondatas + Nondatas(rs)
      && r.dico.Keys == st.dico.Keys + SampleKeys(rs)
  {
    forall i | 0 <= i < |rs|
      ensures RecordsRow(ports, links, rows[i], rs[i])
    {
      CountedRowRecords(ports, links, rs[i]);
    }
    RowsRecorded(ports, links, st, rs, rows);
  }

  lemma {:induction false} RowsRecorded(ports: set<string>, links: set<string>, st: ScanState,
                                        rs: seq<Report>, rows: seq<string>)
    requires st.phase == SeekingLinks
    requires |rows| == |rs|
    requires forall i :: 0 <= i < |rs| ==> RecordsRow(ports, links, rows[i], rs[i])
    ensures var r := Scan(ports, links, st, rows);
      && r.phase == SeekingLinks && r.gflops == st.gflops && r.elapsed == st.elapsed
      && r.datas == st.datas + Datas(rs) && r.nondatas == st.nondatas + Nondatas(rs)
      && r.dico.Keys == st.dico.Keys + SampleKeys(rs)
    decreases |rs|
  {
    if |rs| > 0 {
      var r0 := rs[0];
      assert RecordsRow(ports, links, rows[0], r0);
      var next := Record(st, r0);
      assert Step(ports, links, st, rows[0]) == next;
      var rest, restRows := rs[1..], rows[1..];
      assert forall i :: 0 <= i < |rest| ==> RecordsRow(ports, links, restRows[i], rest[i]) by {
        forall i | 0 <= i < |rest|
          ensures RecordsRow(ports, links, restRows[i], rest[i])
        {
          assert rest[i] == rs[i + 1] && restRows[i] == rows[i + 1];
        }
      }
      RowsRecorded(ports, links, next, rest, restRows);
      Regroup(st.datas, [r0.data], Datas(rest));
      Regroup(st.nondatas, [r0.nondata], Nondatas(rest));
    }
  }

  lemma Regroup(a: seq<int>, b: seq<int>, c: seq<int>)
    ensures (a + b) + c == a + (b + c)
  {
  }

  /** A whole report read from the start, as the tool prints it: a header
      line, the `0 - 1` summary row, a table of recorded `UPI Link` rows and
      the trailer. The loop ends normally with the row's fifth field as
      `gflops`, the trailer's time as `elapsed` and one sample per table
      row, in order. */
  lemma WholeReport(ports: set<string>, links: set<string>, header: string, row: string,
                    rs: seq<Report>, rows: seq<string>, t: string, trailerLayout: Layout)
    requires StartsWith(Clean(header), "CPU-Node")
    requires StartsWith(Clean(row), "0 - 1") && |Fields(Clean(row))| >= 5
    requires |rows| == |rs|
    requires forall i :: 0 <= i < |rs| ==> Counted(ports, links, rs[i]) && rows[i] == ReportLine(rs[i])
    requires IsWord(t) && IsDigit(t[0]) && IsFloatLiteral(t) && Fits(trailerLayout, 4)
    ensures var r := Scan(ports, links, Initial, [header, row] + rows + [Lay([t, "seconds", "time", "elapsed"], trailerLayout)]);
      && r.phase == Finished && r.gflops == Fields(Clean(row))[4] && r.elapsed == t
      && r.datas == Datas(rs) && r.nondatas == Nondatas(rs) && r.dico.Keys == SampleKeys(rs)
  {
    var trailer := Lay([t, "seconds", "time", "elapsed"], trailerLayout);
    var atLinks := Initial.(phase := SeekingLinks, gflops := Fields(Clean(row))[4]);
    ReportOpening(ports, links, header, row);
    CountedRowsRecorded(ports, links, atLinks, rs, rows);
    var atTrailer := Scan(ports, links, atLinks, rows);
    ReportClosing(ports, links, atTrailer, t, trailerLayout);
    ScanAppend(ports, links, atLinks, rows, [trailer]);
    assert [header, row] + rows + [trailer] == [header, row] + (rows + [trailer]);
    ScanAppend(ports, links, Initial, [header, row], rows + [trailer]);
    assert [] + Datas(rs) == Datas(rs) && [] + Nondatas(rs) == Nondatas(rs);
  }

  /** The header line and the summary row open the link phase. */
  lemma ReportOpening(ports: set<string>, links: set<string>, header: string, row: string)
    requires StartsWith(Clean(header), "CPU-Node")
    requires StartsWith(Clean(row), "0 - 1") && |Fields(Clean(row))| >= 5
    ensures Scan(ports, links, Initial, [header, row]) == Initial.(phase := SeekingLinks, gflops := Fields(Clean(row))[4])
  {
    HeaderMoves(ports, links, Initial, header);
    SummaryRowMoves(ports, links, Initial.(phase := SeekingSummaryRow), row);
    ScanTwoLines(ports, links, Initial, header, row);
  }

  /** The trailer, read in the link phase, ends the loop. */
  lemma ReportClosing(ports: set<string>, links: set<string>, st: ScanState, t: string, layout: Layout)
    requires st.phase == SeekingLinks
    requires IsWord(t) && IsDigit(t[0]) && IsFloatLiteral(t) && Fits(layout, 4)
    ensures Scan(ports, links, st, [Lay([t, "seconds", "time", "elapsed"], layout)]) == st.(phase := Finished, elapsed := t)
  {
    var trailer := Lay([t, "seconds", "time", "elapsed"], layout);
    TrailerEndsScan(ports, links, st, t, layout);
    assert Scan(ports, links, st, [trailer]) == Scan(ports, links, Step(ports, links, st, trailer), [trailer][1..]);
  }

  /** Whatever the input, the program keeps one data and one non-data value
      per accepted line, and never more `dico` entries than samples. */
  lemma EvaluationBalanced(topo: Topology, downPorts: Option<string>, downLinks: Option<string>, lines: seq<string>)
    ensures var o := Evaluation(topo, downPorts, downLinks, lines);
      o.Scanned? ==> Balanced(o.state)
  {
    var o := Evaluation(topo, downPorts, downLinks, lines);
    if o.Scanned? {
      ScanKeepsBalanced(ResultSet(PortBlacklist(topo, downPorts)), ResultSet(LinkBlacklist(topo, downLinks)), Initial, lines);
    }
  }
}
