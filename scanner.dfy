/** The standard-input loop of the evaluator: a state machine that first
    looks for the `CPU-Node` header and the `0 - 1` summary row below it,
    then reads one `UPI Link` line per directed link until the
    `... seconds time elapsed` trailer.

    The source drives it with the flags `looking4Gflop` and `passedHeader`;
    here they are one `Phase`:
      looking4Gflop && !passedHeader  is  SeekingHeader,
      looking4Gflop && passedHeader   is  SeekingSummaryRow,
      !looking4Gflop                  is  SeekingLinks.
    `looking4UPI` is never cleared, so it carries no state. The `break` at the
    trailer is `Finished`; an exception that escapes the loop (an index past
    the end of a line's fields, or `int()`/`float()` rejecting a field) is
    `Failed`. */
module Scanner {
  import opened Wrappers
  import opened PyText

  datatype ScanError =
    | MissingField(index: nat)   // `fields[index]` raised IndexError
    | NotANumber(token: string)  // `int(token)` or `float(token)` raised ValueError

  datatype Phase =
    | SeekingHeader
    | SeekingSummaryRow
    | SeekingLinks
    | Finished
    | Failed(error: ScanError)

  /** The phases in which the loop goes on reading lines. */
  predicate Scanning(p: Phase) {
    p == SeekingHeader || p == SeekingSummaryRow || p == SeekingLinks
  }

  /** One `dico` entry: outgoing data and non-data volume of a link. */
  datatype Sample = Sample(data: int, nondata: int)

  /** The loop's variables. `elapsed` is kept as the text `float()` reads
      (its default `10` is written "10"). */
  datatype ScanState = ScanState(
    phase: Phase,
    gflops: string,
    elapsed: string,
    dico: map<string, Sample>,
    datas: seq<int>,
    nondatas: seq<int>)

  const Initial: ScanState := ScanState(SeekingHeader, "0", "10", map[], [], [])

  /** `dataline.strip("\n ")`. */
  function Clean(line: string): string {
    Strip(line, IsNewlineOrBlank)
  }

  /** Blanks and newlines only: what `strip("\n ")` takes off either end. */
  predicate IsMargin(m: string) {
    forall i :: 0 <= i < |m| ==> IsNewlineOrBlank(m[i])
  }

  /** How the tool sets out a line: a margin before the first field, the
      column padding between fields, and a margin (the newline) after the last. */
  datatype Layout = Layout(lead: string, gaps: seq<string>, trail: string)

  /** A layout for `count` fields: margins of blanks and newlines, and a
      nonempty whitespace run between each two fields. */
  predicate Fits(layout: Layout, count: nat) {
    count > 0 && |layout.gaps| == count - 1
    && IsMargin(layout.lead) && IsMargin(layout.trail) && AreSeparators(layout.gaps)
  }

  /** The fields `ws` set out by `layout`. */
  function Lay(ws: seq<string>, layout: Layout): string
    requires |ws| > 0 && |layout.gaps| == |ws| - 1
  {
    layout.lead + Spaced(ws, layout.gaps) + layout.trail
  }

  function Fail(st: ScanState, e: ScanError): ScanState {
    st.(phase := Failed(e))
  }

  /** The blacklist key the loop builds from the four text fields, the lower
      socket first when the sockets compare as integers. */
  function LineKey(s0: string, u0: string, s1: string, u1: string, v0: int, v1: int): string {
    if v0 > v1 then (s1 + "-" + u1) + ":" + (s0 + "-" + u0) else (s0 + "-" + u0) + ":" + (s1 + "-" + u1)
  }

  /** The `dico` key: `"die_{},upi_{},die_{},upi_{}"`, in the line's direction. */
  function DicoKey(s0: string, u0: string, s1: string, u1: string): string {
    "die_" + s0 + ",upi_" + u0 + ",die_" + s1 + ",upi_" + u1
  }

  /** The summary row `0 - 1 : <gflops> ...`: its fifth field is kept. */
  function SummaryRow(st: ScanState, f: seq<string>): ScanState {
    if |f| < 5 then Fail(st, MissingField(4))
    else st.(phase := SeekingLinks, gflops := f[4])
  }

  /** A `UPI Link` line, with fields
        0 UPI 1 Link 2 <u0> 3 on 4 Socket 5 <s0> 6 -> 7 UPI 8 Link 9 <u1>
        10 on 11 Socket 12 <s1> 13 <data> 14 <nondata>,
      read field by field in the order the loop reads them. */
  function LinkLine(ports: set<string>, links: set<string>, st: ScanState, f: seq<string>): ScanState {
    if |f| < 3 then Fail(st, MissingField(2))
    else if |f| < 6 then Fail(st, MissingField(5))
    else if f[5] + "-" + f[2] in ports then st
    else if |f| < 10 then Fail(st, MissingField(9))
    else if |f| < 13 then Fail(st, MissingField(12))
    else if f[12] + "-" + f[9] in ports then st
    else
      var v0, v1 := ParseInt(f[5]), ParseInt(f[12]);
      if v0.None? then Fail(st, NotANumber(f[5]))
      else if v1.None? then Fail(st, NotANumber(f[12]))
      else if LineKey(f[5], f[2], f[12], f[9], v0.value, v1.value) in links then st
      else if |f| < 14 then Fail(st, MissingField(13))
      else
        var d := ParseInt(f[13]);
        if d.None? then Fail(st, NotANumber(f[13]))
        else if |f| < 15 then Fail(st, MissingField(14))
        else
          var n := ParseInt(f[14]);
          if n.None? then Fail(st, NotANumber(f[14]))
          else
            st.(dico := st.dico[DicoKey(f[5], f[2], f[12], f[9]) := Sample(d.value, n.value)],
                datas := st.datas + [d.value],
                nondatas := st.nondatas + [n.value])
  }

  /** Any other line of the link phase: only `<t> ... time elapsed` matters. */
  function OtherLine(st: ScanState, f: seq<string>): ScanState {
    if |f| < 3 then Fail(st, MissingField(2))
    else if f[2] != "time" then st
    else if |f| < 4 then Fail(st, MissingField(3))
    else if f[3] != "elapsed" then st
    else if !IsFloatLiteral(f[0]) then Fail(st, NotANumber(f[0]))
    else st.(phase := Finished, elapsed := f[0])
  }

  /** One pass of the loop body. */
  function Step(ports: set<string>, links: set<string>, st: ScanState, line: string): ScanState
    requires Scanning(st.phase)
  {
    var cleaned := Clean(line);
    if |cleaned| == 0 then st
    else if st.phase == SeekingHeader then
      if StartsWith(cleaned, "CPU-Node") then st.(phase := SeekingSummaryRow) else st
    else if st.phase == SeekingSummaryRow then
      if StartsWith(cleaned, "0 - 1") then SummaryRow(st, Fields(cleaned)) else st
    else if StartsWith(cleaned, "UPI Link") then LinkLine(ports, links, st, Fields(cleaned))
    else OtherLine(st, Fields(cleaned))
  }

  /** The whole loop: lines are read until the stream ends, the trailer is
      met or an exception escapes. */
  function Scan(ports: set<string>, links: set<string>, st: ScanState, lines: seq<string>): ScanState
    decreases |lines|
  {
    if |lines| == 0 || !Scanning(st.phase) then st
    else Scan(ports, links, Step(ports, links, st, lines[0]), lines[1..])
  }

  /** One sample per accepted line in each list, and at most one `dico`
      entry per sample. */
  predicate Balanced(st: ScanState) {
    |st.datas| == |st.nondatas| && |st.dico| <= |st.datas|
  }

  /** The loop's state as an object: the two blacklists it filters against
      and the variables it updates line by line. */
  class LinkScanner {
    const portBlacklist: set<string>
    const linkBlacklist: set<string>
    var phase: Phase
    var gflops: string
    var elapsed: string
    var dico: map<string, Sample>
    var datas: seq<int>
    var nondatas: seq<int>

    function State(): ScanState
      reads this
    {
      ScanState(phase, gflops, elapsed, dico, datas, nondatas)
    }

    /** The assignments before the loop. */
    constructor(ports: set<string>, links: set<string>)
      ensures portBlacklist == ports && linkBlacklist == links
      ensures State() == Initial
    {
      portBlacklist, linkBlacklist := ports, links;
      phase, gflops, elapsed := SeekingHeader, "0", "10";
      dico, datas, nondatas := map[], [], [];
    }

    /** The body of the loop for one line. */
    method Feed(line: string)
      requires Scanning(phase)
      modifies this
      ensures State() == Step(portBlacklist, linkBlacklist, old(State()), line)
    {
      var cleaned := Clean(line);
      if |cleaned| == 0 {
        return;
      }
      if phase == SeekingHeader {
        if StartsWith(cleaned, "CPU-Node") {
          phase := SeekingSummaryRow;
        }
      } else if phase == SeekingSummaryRow {
        if StartsWith(cleaned, "0 - 1") {
          var fields := Fields(cleaned);
          if |fields| < 5 {
            phase := Failed(MissingField(4));
            return;
          }
          gflops := fields[4];
          phase := SeekingLinks;
        }
      } else {
        var fields := Fields(cleaned);
        if StartsWith(cleaned, "UPI Link") {
          ReadLinkLine(fields);
        } else {
          ReadOtherLine(fields);
        }
      }
    }

    /** The `UPI Link` branch: each `return` is one of the loop's `continue`s. */
    method ReadLinkLine(fields: seq<string>)
      modifies this
      ensures State() == LinkLine(portBlacklist, linkBlacklist, old(State()), fields)
    {
      if |fields| < 3 {
        phase := Failed(MissingField(2));
        return;
      }
      var fromUPI := fields[2];
      if |fields| < 6 {
        phase := Failed(MissingField(5));
        return;
      }
      var fromSocket := fields[5];
      // the origin port is switched off
      if fromSocket + "-" + fromUPI in portBlacklist {
        return;
      }
      if |fields| < 10 {
        phase := Failed(MissingField(9));
        return;
      }
      var toUPI := fields[9];
      if |fields| < 13 {
        phase := Failed(MissingField(12));
        return;
      }
      var toSocket := fields[12];
      // the destination port is switched off
      if toSocket + "-" + toUPI in portBlacklist {
        return;
      }
      var v0 := ParseInt(fromSocket);
      if v0.None? {
        phase := Failed(NotANumber(fromSocket));
        return;
      }
      var v1 := ParseInt(toSocket);
      if v1.None? {
        phase := Failed(NotANumber(toSocket));
        return;
      }
      // the link is black-listed, in either direction
      if LineKey(fromSocket, fromUPI, toSocket, toUPI, v0.value, v1.value) in linkBlacklist {
        return;
      }
      if |fields| < 14 {
        phase := Failed(MissingField(13));
        return;
      }
      var data := ParseInt(fields[13]);
      if data.None? {
        phase := Failed(NotANumber(fields[13]));
        return;
      }
      if |fields| < 15 {
        phase := Failed(MissingField(14));
        return;
      }
      var nondata := ParseInt(fields[14]);
      if nondata.None? {
        phase := Failed(NotANumber(fields[14]));
        return;
      }
      dico := dico[DicoKey(fromSocket, fromUPI, toSocket, toUPI) := Sample(data.value, nondata.value)];
      datas := datas + [data.value];
      nondatas := nondatas + [nondata.value];
    }

    /** The other lines of the link phase: the trailer ends the loop. */
    method ReadOtherLine(fields: seq<string>)
      modifies this
      ensures State() == OtherLine(old(State()), fields)
    {
      if |fields| < 3 {
        phase := Failed(MissingField(2));
        return;
      }
      if fields[2] != "time" {
        return;
      }
      if |fields| < 4 {
        phase := Failed(MissingField(3));
        return;
      }
      if fields[3] != "elapsed" {
        return;
      }
      if !IsFloatLiteral(fields[0]) {
        phase := Failed(NotANumber(fields[0]));
        return;
      }
      elapsed := fields[0];
      phase := Finished;
    }

    /** `for dataline in sys.stdin`: feeds lines until the stream ends or
        the loop stops, and says how many lines it took; every line but the
        last one taken left the loop running. */
    method Run(lines: seq<string>) returns (read: nat)
      requires Scanning(phase)
      modifies this
      ensures read <= |lines|
      ensures State() == Scan(portBlacklist, linkBlacklist, old(State()), lines)
      ensures State() == Scan(portBlacklist, linkBlacklist, old(State()), lines[..read])
      ensures read < |lines| ==> !Scanning(phase)
      ensures read > 0 ==> Scanning(Scan(portBlacklist, linkBlacklist, old(State()), lines[..read - 1]).phase)
    {
      read := 0;
      while read < |lines| && Scanning(phase)
        invariant read <= |lines|
        invariant Scan(portBlacklist, linkBlacklist, old(State()), lines)
               == Scan(portBlacklist, linkBlacklist, State(), lines[read..])
        invariant State() == Scan(portBlacklist, linkBlacklist, old(State()), lines[..read])
        invariant read > 0 ==> Scanning(Scan(portBlacklist, linkBlacklist, old(State()), lines[..read - 1]).phase)
        decreases |lines| - read
      {
        assert Scanning(Scan(portBlacklist, linkBlacklist, old(State()), lines[..read]).phase);
        Feed(lines[read]);
        ScanSnoc(portBlacklist, linkBlacklist, old(State()), lines[..read], lines[read]);
        assert lines[..read + 1] == lines[..read] + [lines[read]];
        assert lines[read..][1..] == lines[read + 1..];
        read := read + 1;
      }
    }
  }

  /** Feeding one more line to a scan continues it by one step, or not at
      all once it has stopped. */
  lemma {:induction false} ScanSnoc(ports: set<string>, links: set<string>, st: ScanState, lines: seq<string>, line: string)
    ensures var mid := Scan(ports, links, st, lines);
      Scan(ports, links, st, lines + [line])
      == if Scanning(mid.phase) then Step(ports, links, mid, line) else mid
    decreases |lines|
  {
    if |lines| > 0 && Scanning(st.phase) {
      ScanSnoc(ports, links, Step(ports, links, st, lines[0]), lines[1..], line);
      assert (lines + [line])[1..] == lines[1..] + [line];
    }
  }

  /** Two lines read one after the other. */
  lemma ScanTwoLines(ports: set<string>, links: set<string>, st: ScanState, a: string, b: string)
    requires Scanning(st.phase) && Scanning(Step(ports, links, st, a).phase)
    ensures Scan(ports, links, st, [a, b]) == Step(ports, links, Step(ports, links, st, a), b)
  {
    var mid := Step(ports, links, st, a);
    assert [a, b][1..] == [b];
    assert Scan(ports, links, mid, [b]) == Scan(ports, links, Step(ports, links, mid, b), []);
  }

  /** Lines after the one that stopped the loop are never read. */
  lemma StoppedScanReadsNoMore(ports: set<string>, links: set<string>, st: ScanState, lines: seq<string>, rest: seq<string>)
    requires !Scanning(Scan(ports, links, st, lines).phase)
    ensures Scan(ports, links, st, lines + rest) == Scan(ports, links, st, lines)
  {
    ScanAppend(ports, links, st, lines, rest);
  }

  /** Reading `a` and then `b` is reading `a + b`. */
  lemma {:induction false} ScanAppend(ports: set<string>, links: set<string>, st: ScanState, a: seq<string>, b: seq<string>)
    ensures Scan(ports, links, st, a + b) == Scan(ports, links, Scan(ports, links, st, a), b)
    decreases |a|
  {
    if |a| == 0 {
      assert a + b == b;
    } else if Scanning(st.phase) {
      ScanAppend(ports, links, Step(ports, links, st, a[0]), a[1..], b);
      assert (a + b)[1..] == a[1..] + b;
    }
  }

  lemma StepKeepsBalanced(ports: set<string>, links: set<string>, st: ScanState, line: string)
    requires Scanning(st.phase) && Balanced(st)
    ensures Balanced(Step(ports, links, st, line))
  {
  }

  /** `datas` and `nondatas` stay the same length, and `dico` never has
      more entries than there are samples. */
  lemma {:induction false} ScanKeepsBalanced(ports: set<string>, links: set<string>, st: ScanState, lines: seq<string>)
    requires Balanced(st)
    ensures Balanced(Scan(ports, links, st, lines))
    decreases |lines|
  {
    if |lines| > 0 && Scanning(st.phase) {
      StepKeepsBalanced(ports, links, st, lines[0]);
      ScanKeepsBalanced(ports, links, Step(ports, links, st, lines[0]), lines[1..]);
    }
  }

  /** A line of nothing but newlines and blanks is skipped, whatever the phase. */
  lemma BlankLineSkipped(ports: set<string>, links: set<string>, st: ScanState, line: string)
    requires Scanning(st.phase)
    requires forall i :: 0 <= i < |line| ==> IsNewlineOrBlank(line[i])
    ensures Step(ports, links, st, line) == st
  {
    TrimLeftOfDropped(line, IsNewlineOrBlank);
  }

  /** Before the summary row nothing is recorded and nothing ends the loop
      normally: a header line moves on to the summary row, and only a
      `0 - 1` row, read after the header, reaches the link phase, with
      `gflops` set to its fifth field. */
  lemma NothingRecordedBeforeLinks(ports: set<string>, links: set<string>, st: ScanState, line: string)
    requires st.phase == SeekingHeader || st.phase == SeekingSummaryRow
    ensures var r := Step(ports, links, st, line);
      && r.datas == st.datas && r.nondatas == st.nondatas && r.dico == st.dico
      && r.elapsed == st.elapsed
      && r.phase != Finished
      && (r.phase == SeekingSummaryRow ==> st.phase == SeekingSummaryRow || StartsWith(Clean(line), "CPU-Node"))
      && (r.phase == SeekingLinks ==>
            && st.phase == SeekingSummaryRow
            && StartsWith(Clean(line), "0 - 1")
            && var f := Fields(Clean(line)); |f| >= 5 && r.gflops == f[4])
  {
  }

  /** A line starting with `CPU-Node`, read while looking for the header,
      moves the loop on to the summary row and changes nothing else. */
  lemma HeaderMoves(ports: set<string>, links: set<string>, st: ScanState, line: string)
    requires st.phase == SeekingHeader
    requires StartsWith(Clean(line), "CPU-Node")
    ensures Step(ports, links, st, line) == st.(phase := SeekingSummaryRow)
  {
    StartsWithNonEmpty(Clean(line), "CPU-Node");
  }

  /** A `0 - 1` row with at least five fields, read after the header,
      opens the link phase and keeps its fifth field as `gflops`. */
  lemma SummaryRowMoves(ports: set<string>, links: set<string>, st: ScanState, line: string)
    requires st.phase == SeekingSummaryRow
    requires StartsWith(Clean(line), "0 - 1") && |Fields(Clean(line))| >= 5
    ensures Step(ports, links, st, line) == st.(phase := SeekingLinks, gflops := Fields(Clean(line))[4])
  {
    StartsWithNonEmpty(Clean(line), "0 - 1");
  }

  /** Without a `0 - 1` row the loop never reaches the link phase, so no
      `UPI Link` line and no trailer is acted on. */
  lemma {:induction false} NoSummaryRowNoLinks(ports: set<string>, links: set<string>, st: ScanState, lines: seq<string>)
    requires st.phase == SeekingHeader || st.phase == SeekingSummaryRow
    requires forall i :: 0 <= i < |lines| ==> !StartsWith(Clean(lines[i]), "0 - 1")
    ensures var r := Scan(ports, links, st, lines);
      && (r.phase == SeekingHeader || r.phase == SeekingSummaryRow)
      && r.datas == st.datas && r.nondatas == st.nondatas && r.dico == st.dico
      && r.elapsed == st.elapsed && r.gflops == st.gflops
    decreases |lines|
  {
    if |lines| > 0 {
      assert !StartsWith(Clean(lines[0]), "0 - 1");
      var rest := lines[1..];
      assert forall i :: 0 <= i < |rest| ==> !StartsWith(Clean(rest[i]), "0 - 1") by {
        forall i | 0 <= i < |rest|
          ensures !StartsWith(Clean(rest[i]), "0 - 1")
        {
          assert rest[i] == lines[i + 1];
        }
      }
      NoSummaryRowNoLinks(ports, links, Step(ports, links, st, lines[0]), rest);
    }
  }

  /** In the link phase, a `UPI Link` line whose origin or destination
      `socket-upi` text is a down port is skipped. */
  lemma DownPortLineSkipped(ports: set<string>, links: set<string>, st: ScanState, line: string)
    requires st.phase == SeekingLinks
    requires StartsWith(Clean(line), "UPI Link")
    requires var f := Fields(Clean(line));
      |f| >= 13 && (f[5] + "-" + f[2] in ports || f[12] + "-" + f[9] in ports)
    ensures Step(ports, links, st, line) == st
  {
    StartsWithNonEmpty(Clean(line), "UPI Link");
  }

  /** In the link phase a line becomes the end of the loop only as the
      trailer `<t> ... time elapsed`, and `elapsed` is then its first field,
      which `float()` accepts. */
  lemma FinishedOnlyAtTrailer(ports: set<string>, links: set<string>, st: ScanState, line: string)
    requires Scanning(st.phase)
    ensures var r := Step(ports, links, st, line);
      r.phase == Finished ==>
        && st.phase == SeekingLinks
        && !StartsWith(Clean(line), "UPI Link")
        && var f := Fields(Clean(line));
           |f| >= 4 && f[2] == "time" && f[3] == "elapsed" && IsFloatLiteral(f[0])
           && r == st.(phase := Finished, elapsed := f[0])
  {
  }

  /** `elapsed` changes only when the loop ends at the trailer: a scan that
      did not finish keeps the value it started with (`10` from `Initial`). */
  lemma {:induction false} ElapsedOnlyFromTrailer(ports: set<string>, links: set<string>, st: ScanState, lines: seq<string>)
    requires Scanning(st.phase)
    ensures var r := Scan(ports, links, st, lines);
      r.phase != Finished ==> r.elapsed == st.elapsed
    decreases |lines|
  {
    if |lines| > 0 {
      var next := Step(ports, links, st, lines[0]);
      FinishedOnlyAtTrailer(ports, links, st, lines[0]);
      if Scanning(next.phase) {
        ElapsedOnlyFromTrailer(ports, links, next, lines[1..]);
      }
    }
  }

  /** The trailer line as the tool prints it, `<t> seconds time elapsed`
      with a number of seconds first and any spacing, ends the loop and sets
      `elapsed`. */
  lemma TrailerEndsScan(ports: set<string>, links: set<string>, st: ScanState, t: string, layout: Layout)
    requires st.phase == SeekingLinks
    requires IsWord(t) && IsDigit(t[0]) && IsFloatLiteral(t)
    requires Fits(layout, 4)
    ensures Step(ports, links, st, Lay([t, "seconds", "time", "elapsed"], layout))
         == st.(phase := Finished, elapsed := t)
  {
    var ws := [t, "seconds", "time", "elapsed"];
    LaidOutFields(ws, layout);
    var line := Lay(ws, layout);
    assert !StartsWith(Clean(line), "UPI Link");
    OtherLinkPhaseLine(ports, links, st, line);
  }

  /** In the link phase, a nonblank line that is not a `UPI Link` line is
      looked at only for the trailer. */
  lemma OtherLinkPhaseLine(ports: set<string>, links: set<string>, st: ScanState, line: string)
    requires st.phase == SeekingLinks
    requires |Clean(line)| > 0 && !StartsWith(Clean(line), "UPI Link")
    ensures Step(ports, links, st, line) == OtherLine(st, Fields(Clean(line)))
  {
  }

  /** A line set out by a fitting layout loses its margins to the cleaning
      and splits back into its fields. */
  lemma LaidOutFields(ws: seq<string>, layout: Layout)
    requires Fits(layout, |ws|)
    requires forall i :: 0 <= i < |ws| ==> IsWord(ws[i])
    ensures Clean(Lay(ws, layout)) == Spaced(ws, layout.gaps)
    ensures Fields(Clean(Lay(ws, layout))) == ws
    ensures Clean(Lay(ws, layout))[0] == ws[0][0]
  {
    var s := Spaced(ws, layout.gaps);
    SpacedEnds(ws, layout.gaps);
    FieldsOfSpaced(ws, layout.gaps);
    assert !IsSpace(s[0]) && !IsSpace(s[|s| - 1]);
    StripMargins(layout.lead, s, layout.trail, IsNewlineOrBlank);
  }

  /** A `UPI Link` line with all fifteen fields and numeric sockets and
      volumes is either skipped by one of the exclusions or recorded. */
  lemma CompleteLinkLine(ports: set<string>, links: set<string>, st: ScanState, f: seq<string>,
                         v0: int, v1: int)
    requires |f| >= 15
    requires ParseInt(f[5]) == Some(v0) && ParseInt(f[12]) == Some(v1)
    ensures LinkLine(ports, links, st, f)
         == if f[5] + "-" + f[2] in ports || f[12] + "-" + f[9] in ports
               || LineKey(f[5], f[2], f[12], f[9], v0, v1) in links then st
            else if ParseInt(f[13]).None? then Fail(st, NotANumber(f[13]))
            else if ParseInt(f[14]).None? then Fail(st, NotANumber(f[14]))
            else st.(dico := st.dico[DicoKey(f[5], f[2], f[12], f[9]) := Sample(ParseInt(f[13]).value, ParseInt(f[14]).value)],
                     datas := st.datas + [ParseInt(f[13]).value],
                     nondatas := st.nondatas + [ParseInt(f[14]).value])
  {
  }

  /** A text that starts with a given nonempty prefix is not empty. */
  lemma StartsWithNonEmpty(s: string, prefix: string)
    requires StartsWith(s, prefix) && |prefix| > 0
    ensures |s| > 0
  {
  }
}
