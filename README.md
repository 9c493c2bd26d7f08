# UPI link-health evaluator, modelled in Dafny

`dgemm.py` reads the output of a `dgemm` run under `perf stat --iostat=upi`. It decides
whether the UPI links between the sockets of a server carry even and sufficient bandwidth.
Before it reads any input it turns two options into exclusion sets:

- `--down-ports s-u,...` becomes the *port blacklist*: tokens kept verbatim.
- `--down-links s-u:s-u,...` becomes the *link blacklist*: keys with the lower socket first.

A malformed token stops the program with status 1. A token naming a socket or UPI port
the machine lacks is dropped. When there are at least as many down links as the machine
has links (sockets × upis ports, two ports to a link), the program passes at once.

Otherwise it scans standard input with a flag-driven state machine:

1. It finds the `CPU-Node` header, then the `0 - 1` summary row, and keeps `gflops`.
2. In the link phase it takes one sample from each `UPI Link` line that neither blacklist
   excludes. The sample goes into `datas`, `nondatas` and the `dico` map.
3. It stops at the `... seconds time elapsed` trailer, which sets `elapsed`.

Finally the samples are divided by `elapsed`. The run fails if their sample variance
exceeds 0.05, checked first, or if their mean is below 90% of 16 GB/s.

The project has six modules:

- `Wrappers` (`wrappers.dfy`): `Option` and `Result`.
- `PyText` (`pytext.dfy`): the Python string operations the program relies on. These are
  `str.isspace`, `strip`, `split(sep)`, `split()`, `int()` with its limit of 4300 digits,
  the syntax `float()` accepts, and `str(int)`. Each comes with the lemmas the rest needs: split/join and
  `int(str(n)) == n` round trips, and strip keeping only the middle.
- `Exclusions` (`exclusions.dfy`): parsing the two options. `BuildPortBlacklist` and
  `BuildLinkBlacklist` are the source's loops as methods. Each is proved equal to a
  declarative specification (`PortBlacklist`, `LinkBlacklist`): a format error if and only
  if some token is malformed, otherwise the set of accepted tokens or keys. The same
  module holds the canonical-key lemmas.
- `Scanner` (`scanner.dfy`): the input loop. `Step` and `Scan` are the loop body and the
  whole loop as functions over a `ScanState` value. `LinkScanner` is the loop as an object:
  its fields are the phase, `gflops`, `elapsed`, `dico`, `datas` and `nondatas`, and its
  methods `Feed` and `Run` are proved to follow `Step` and `Scan`. The lemmas cover the
  state machine's invariants.
- `Bandwidth` (`verdict.dfy`): the final checks on exact reals, in the program's order.
- `Evaluator` (`evaluator.dfy`): the program end to end, as an `Evaluate` method proved
  against an `Evaluation` function, the exit status, and end-to-end statements about lines
  as the tool prints them. Those lines are set out by a `Layout`: margins of blanks and
  newlines, which `strip("\n ")` removes, and column padding of any whitespace between
  fields.

The two flags `looking4Gflop` and `passedHeader` become one `Phase`. `looking4UPI` is never
cleared, so it carries no state. Leaving the loop through an uncaught `IndexError` or
`ValueError` is the phase `Failed(error)`. The program then dies with status 1.

Where the code does less than its comments say (`dgemm.py:91` and `dgemm.py:111`: "where
s1<s2"; `dgemm.py:128`: "to ensure unicity"), the model follows the code:

- Link keys are direction-independent only between two different sockets, and only for
  tokens written in plain decimal. When `s0 <= s1` the key is the token exactly as written
  (`dgemm.py:131-132`). So ` 0-2:1-3` (a blank after the comma) is accepted but never
  matches a line (`BlankKeptInKey`, `BlankTokenDoesNotExclude`). A link within one socket
  and its reverse remain two entries (`SameSocketKeepsOrder`).
- The `< 0` range guards never fire: a token is cut at every `-`, so `-1-0` is a format
  error, not a port outside the topology (`NegativeSocketIsMalformed`,
  `ParsedPortIsNonNegative`).
- The `"," in spec` test is redundant: both branches equal `split(",")` (`TokensAreSplit`).

## Model

| member | source | states |
|---|---|---|
| PyText.ParseInt | dgemm.py:99 | defines `int(s)` in base 10: whitespace skipped at both ends, an optional sign, a digit group with single underscores and at most 4300 digits; anything else is the `ValueError` |
| PyText.ParseIntIsStripped | dgemm.py:99 | `int(s)` reads exactly what is left once the whitespace `int()` skips is stripped from both ends: an optional sign and a digit group with single underscores and at most 4300 digits |
| PyText.DigitGroupWithinLimit | dgemm.py:99 | a bare digit group reads as a number exactly when it has at most 4300 digits, underscores not counted |
| PyText.TooManyDigitsRefused | dgemm.py:99 | `int()` of 4301 ones raises |
| PyText.SeparatorIsNotNumberSpace | dgemm.py:120-121 | U+001C separates fields for `split()`, but `int()` does not skip it: `int("\x1c7")` is an error |
| PyText.ParseNatToString | dgemm.py:99 | `int(str(n)) == n` for every natural number of at most 4300 digits; `int()` raises on a longer one |
| PyText.ParseIntToString | dgemm.py:191-192 | `int(str(i)) == i` for every integer of at most 4300 digits, negative ones included; `int()` raises on a longer one |
| PyText.ParseIntWithoutMinus | dgemm.py:99 | a text with no `-` never reads as a negative integer |
| PyText.Split | dgemm.py:94 | defines `s.split(sep)` for a one-character separator: every occurrence cuts, so there is at least one part |
| PyText.SplitPartsLackSeparator | dgemm.py:119-121 | no part produced by `split(sep)` contains `sep` |
| PyText.JoinSplit | dgemm.py:119 | joining the parts of `split(sep)` with `sep` gives back the text |
| PyText.SplitJoin | dgemm.py:119 | splitting a join of separator-free parts gives back the parts |
| PyText.Strip | dgemm.py:154 | defines `strip(chars)`: characters of the set removed from both ends |
| PyText.TrimLeftKeepsSuffix | dgemm.py:154 | stripping the left keeps a suffix, removes only characters in the set, and stops at one outside it |
| PyText.TrimRightKeepsPrefix | dgemm.py:154 | the same on the right |
| PyText.StripEnds | dgemm.py:154 | after `strip`, neither end is in the stripped set, and a text whose ends are outside it is unchanged |
| PyText.StripMargins | dgemm.py:154 | `strip` removes margins made only of stripped characters and leaves the text between them whole |
| PyText.Word | dgemm.py:169 | the first word of a text is a prefix of non-whitespace followed by whitespace or the end |
| PyText.Fields | dgemm.py:169 | every field produced by `split()` is a nonempty run of non-whitespace |
| PyText.FieldsOfSpaced | dgemm.py:169 | `split()` of words separated by any nonempty runs of whitespace gives back the words |
| PyText.FieldsAfterRun | dgemm.py:169 | leading whitespace adds no field |
| PyText.NatToString | dgemm.py:130 | `str(n)` is a nonempty digit string, with no leading zero unless `n` is 0, whose value is `n` |
| PyText.NatToStringInjective | dgemm.py:130 | different numbers print differently |
| PyText.NumberIsWord | dgemm.py:169 | `str(i)` contains no whitespace, so it is one field of a line |
| PyText.IsFloatLiteral | dgemm.py:198 | defines the texts `float()` accepts: whitespace at both ends, a sign, `inf`, `infinity`, `nan` or a decimal mantissa with an optional exponent, case-insensitive |
| PyText.DecimalIsFloatLiteral | dgemm.py:198 | `float()` accepts the `<int>.<frac>` time the tool prints in its trailer |
| Exclusions.TokensAreSplit | dgemm.py:93-96 | both branches of the comma test cut the option at its commas |
| Exclusions.ParsePort | dgemm.py:99 | defines the reading of a port token: exactly two `-`-separated parts, each read by `int()` |
| Exclusions.ParseLink | dgemm.py:119-121 | defines the reading of a link token: exactly two `:`-separated parts, each read as a port |
| Exclusions.LinkKey | dgemm.py:128-132 | defines the blacklist key: the reversed link re-formatted when the first socket is the greater, otherwise the token as written |
| Exclusions.ParsedPortIsNonNegative | dgemm.py:99-103 | a parsed port never has a negative socket or UPI number |
| Exclusions.NegativeSocketIsMalformed | dgemm.py:99-101 | `-1-0` is a format error, not a port outside the topology |
| Exclusions.BuildPortBlacklist | dgemm.py:92-108 | the loop returns `PortBlacklist`: nothing without the option, the format error if any token is malformed, otherwise exactly the tokens inside the topology, verbatim |
| Exclusions.BuildLinkBlacklist | dgemm.py:111-135 | the loop returns `LinkBlacklist`: nothing without the option, the format error if any token is malformed, otherwise exactly the keys of the links inside the topology |
| Exclusions.LinksUpToNext | dgemm.py:118-132 | one more well-formed link token adds its key when both endpoints are inside the topology, and nothing otherwise |
| Exclusions.PortsUpToMeans | dgemm.py:98-105 | after `n` tokens the gathered set is exactly the accepted tokens among the first `n` |
| Exclusions.LinksUpToMeans | dgemm.py:118-132 | after `n` tokens the gathered set is exactly the keys of the accepted links among the first `n` |
| Exclusions.PortParsesAt | dgemm.py:98-99 | once the loop has passed `n` tokens, each of them parsed |
| Exclusions.LinkParsesAt | dgemm.py:118-121 | the same for link tokens |
| Exclusions.PortBlacklistFails | dgemm.py:106-108 | one malformed port token anywhere makes the whole option a format error |
| Exclusions.PortBlacklistSucceeds | dgemm.py:98-105 | when every token parses, the option yields the set the loop gathered |
| Exclusions.LinkBlacklistFails | dgemm.py:133-135 | one malformed link token anywhere makes the whole option a format error |
| Exclusions.LinkBlacklistSucceeds | dgemm.py:118-132 | when every token parses, the option yields the set the loop gathered |
| Exclusions.ParsePortText | dgemm.py:99 | the text `s-u` of a nonnegative port with numbers of at most 4300 digits parses back to that port |
| Exclusions.ParseLinkText | dgemm.py:119-121 | the text `s-u:s-u` of a link between such ports parses back to that link |
| Exclusions.KeyIsDirectionIndependent | dgemm.py:128-132 | between different sockets, a link and its reverse get the same key, the lower socket first |
| Exclusions.SameSocketKeepsOrder | dgemm.py:129-132 | within one socket there is no swap: a link and its reverse keep two different keys |
| Exclusions.AcceptedLinksSnoc | dgemm.py:118-132 | one more token adds at most its own key |
| Exclusions.ReversedDuplicateAddsNothing | dgemm.py:128-132 | listing a link again, reversed, does not grow the blacklist |
| Exclusions.OutOfTopologyPortIgnored | dgemm.py:100-103 | a port token outside the topology changes nothing |
| Exclusions.OutOfTopologyLinkIgnored | dgemm.py:122-127 | a link token with an endpoint outside the topology changes nothing |
| Exclusions.BlankBeforePort | dgemm.py:120 | a blank before a port's text does not stop it parsing |
| Exclusions.BlankKeptInKey | dgemm.py:131-132 | a link token with a leading blank, lower socket first, is accepted, but its key keeps the blank and differs from the line's key |
| Scanner.Step | dgemm.py:154-199 | defines one pass of the loop body: blank lines skipped, then the header, the summary row, and in the link phase `UPI Link` lines and other lines |
| Scanner.Scan | dgemm.py:153-199 | defines the whole loop: lines read until the input ends, the trailer is met or an exception escapes |
| Scanner.SummaryRow | dgemm.py:161-167 | defines the summary row: its fifth field becomes `gflops` and the link phase opens; fewer than five fields is an `IndexError` |
| Scanner.LinkLine | dgemm.py:170-196 | defines a `UPI Link` line, field by field in the order the loop reads them, with each `IndexError` and `ValueError` where the loop meets it |
| Scanner.LineKey | dgemm.py:182-187 | defines the key a line is looked up by: the four text fields, lower socket first when the sockets compare as integers |
| Scanner.OtherLine | dgemm.py:197-199 | defines any other link-phase line: only `<t> ... time elapsed` matters, and `float(t)` must accept `t` |
| Scanner.LinkScanner.constructor | dgemm.py:144-151 | the loop starts looking for the header, with `gflops` "0", `elapsed` 10 and nothing recorded |
| Scanner.LinkScanner.Feed | dgemm.py:154-199 | one line changes the fields exactly as `Step` says |
| Scanner.LinkScanner.ReadLinkLine | dgemm.py:170-196 | a `UPI Link` line, field by field: an exception, a skip for a down port or link, or one recorded sample |
| Scanner.LinkScanner.ReadOtherLine | dgemm.py:197-199 | any other link-phase line: an exception, nothing, or the trailer ending the loop |
| Scanner.LinkScanner.Run | dgemm.py:153-199 | reading the lines leaves the state `Scan` gives; the loop stops early only when it has ended, and every line read before the last one left it running |
| Scanner.ScanSnoc | dgemm.py:153 | one more line continues a running scan by one step and leaves a stopped one alone |
| Scanner.ScanAppend | dgemm.py:153 | reading `a` and then `b` is reading `a + b` |
| Scanner.StoppedScanReadsNoMore | dgemm.py:197-199 | once the loop has stopped, further input changes nothing |
| Scanner.StepKeepsBalanced | dgemm.py:191-196 | each line keeps `datas` and `nondatas` the same length, with no more `dico` entries than samples |
| Scanner.ScanKeepsBalanced | dgemm.py:191-196 | the same for the whole input |
| Scanner.BlankLineSkipped | dgemm.py:154-155 | a line of only newlines and blanks changes nothing, in every phase |
| Scanner.NothingRecordedBeforeLinks | dgemm.py:157-167 | before the link phase nothing is recorded and the loop does not finish. Only a header line moves on to the summary-row phase, and only a `0 - 1` row after the header reaches the link phase, setting `gflops` to its fifth field |
| Scanner.HeaderMoves | dgemm.py:157-160 | a line starting with `CPU-Node`, read while looking for the header, moves on to the summary row and changes nothing else |
| Scanner.SummaryRowMoves | dgemm.py:161-167 | a `0 - 1` row with at least five fields, read after the header, opens the link phase with `gflops` set to its fifth field and changes nothing else |
| Scanner.NoSummaryRowNoLinks | dgemm.py:157-168 | without a `0 - 1` row no `UPI Link` line and no trailer is ever acted on |
| Scanner.DownPortLineSkipped | dgemm.py:170-179 | a `UPI Link` line whose origin or destination `socket-upi` is a down port changes nothing |
| Scanner.CompleteLinkLine | dgemm.py:170-196 | a complete `UPI Link` line with numeric sockets is skipped exactly when a port or its key is blacklisted; otherwise a volume `int()` refuses is an exception, and readable volumes record one sample and overwrite `dico` at the directed key |
| Scanner.FinishedOnlyAtTrailer | dgemm.py:197-199 | the loop finishes only at a link-phase line whose third and fourth fields are `time elapsed` and whose first field `float()` accepts, and `elapsed` is then that first field |
| Scanner.ElapsedOnlyFromTrailer | dgemm.py:197-199 | a scan that does not finish keeps `elapsed` at its initial value |
| Scanner.TrailerEndsScan | dgemm.py:197-199 | the trailer `<t> seconds time elapsed`, in any layout, ends the loop with `elapsed` set to `t` |
| Scanner.LaidOutFields | dgemm.py:154-169 | a line in any layout loses its margins to the cleaning and splits back into its fields |
| Bandwidth.Judge | dgemm.py:202-228 | only runs with at least two samples and a nonzero elapsed time reach the variance and mean checks |
| Bandwidth.VarianceNonNegative | dgemm.py:208 | the sample variance is never negative |
| Bandwidth.PassHasFastLink | dgemm.py:226-230 | a passing run has at least one link at 90% of 16 GB/s or more |
| Bandwidth.UniformRun | dgemm.py:202-228 | equal samples never look uneven: the run passes exactly when their rate reaches 14.4 |
| Bandwidth.UnevenReportedBeforeLow | dgemm.py:223-228 | a run that is both uneven and slow is reported as uneven |
| Evaluator.Evaluation | dgemm.py:88-199 | defines the program's course: the port option, then the link option, then the short-circuit, then the scan of the input against both blacklists |
| Evaluator.Evaluate | dgemm.py:88-199 | the program follows `Evaluation`. A configuration error or the short-circuit reads no line. A scan reads a prefix of the input, stops early only when the loop ended, and every line before the last one read left the loop running |
| Evaluator.ShortCircuitExactly | dgemm.py:139-142 | once both options are read, the program stops before the input with status 0 exactly when twice the number of down links reaches sockets × upis, and scans otherwise |
| Evaluator.ExitZeroExactly | dgemm.py:106-230 | the program exits with status 0 or 1, and with 0 exactly when both options are well formed and either every link is down or the loop ended without an exception, at the trailer or at the end of the input, with samples that pass both checks |
| Evaluator.FailedScanExitsOne | dgemm.py:153-199 | an exception in the input loop ends the program with status 1, whatever was read before it |
| Evaluator.MalformedPortStopsBeforeInput | dgemm.py:97-108 | one malformed down-ports token ends the program with the format message and status 1, before any input line |
| Evaluator.MalformedLinkStopsBeforeInput | dgemm.py:117-135 | likewise for a malformed down-links token |
| Evaluator.UpiLineFields | dgemm.py:154-170 | a `UPI Link` line in any column layout (one blank inside `UPI Link`) splits back into its fields after cleaning and starts with `UPI Link` |
| Evaluator.UpiNumbers | dgemm.py:170-196 | the fields of such a line read back as its sockets, and as its volumes when they have at most 4300 digits; its port texts, lookup key and `dico` key are those of the link |
| Evaluator.UpiLineStep | dgemm.py:170-196 | that line is skipped exactly when an endpoint is a down port or the link's key is a down link; otherwise a volume of more than 4300 digits is an exception, and other volumes append one sample to each list and set the link's `dico` entry |
| Evaluator.DownLinkSkippedBothWays | dgemm.py:181-189 | a listed link between different sockets is skipped in both directions |
| Evaluator.DownPortSkipped | dgemm.py:173-179 | a line with a listed port at either end is skipped |
| Evaluator.BlankTokenDoesNotExclude | dgemm.py:181-196 | a down link written with a leading blank, lower socket first, does not exclude its line |
| Evaluator.RepeatedLinkKeepsLastSample | dgemm.py:193-196 | a link reported twice keeps one `dico` entry holding the later sample, while both samples enter the lists |
| Evaluator.CountedRowsRecorded | dgemm.py:168-196 | a table of `UPI Link` rows that no blacklist excludes appends their volumes to the two lists in order, gives each link a `dico` entry and stays in the link phase |
| Evaluator.WholeReport | dgemm.py:153-199 | a whole report (header, `0 - 1` row, such a table and the trailer) ends the loop normally with the row's `gflops`, the trailer's time and exactly the table's samples |
| Evaluator.EvaluationBalanced | dgemm.py:191-196 | every scanned outcome has as many data as non-data samples and no more `dico` entries than samples |

## Left out

- Argument parsing (`init`, `dgemm.py:13-37`) is not modelled. The socket and UPI counts and
  the two option strings are parameters; `None` stands for an absent option.
- Standard input is not modelled. It is a sequence of lines, and `Run` reports how many it
  consumed.
- `sys.exit` and the messages on standard error are not modelled. They become the
  `Outcome` value and `ExitCode`.
- The debug print (`dgemm.py:137`) and the verbose report (`dgemm.py:211-214`) are left
  out: they are output only.
- `float()` is modelled only as the syntax it accepts. The model keeps `elapsed` as the
  accepted text. Its numeric value is a real parameter of `ExitCode` and `Judge`.
- An `elapsed` of `nan` or `inf` is not modelled: a Dafny `real` has neither value. With
  `nan` both checks compare false, so any run with at least two samples exits with status 0;
  with `inf` every rate is 0 and the run is reported low.
- Floating-point arithmetic is not modelled. Normalising, the mean and the variance are on
  exact reals, so the rounding of `x/elapsed` and of `statistics` is absent. So is the
  non-data mean and variance: it fails under the same condition as the data mean and
  variance, and is only printed.
- `int()` refuses more than 4300 digits, the default limit of Python 3.11 and of the
  3.10.7 and 3.9.14 releases. A limit changed through `sys.set_int_max_str_digits` or
  `PYTHONINTMAXSTRDIGITS`, and the absence of any limit in older releases, are not modelled.
- `int()` and `float()` accept only ASCII digits here. Python also accepts other Unicode
  decimal digits in both.
- `mlc.py` is not part of this model. It runs an external binary and reformats its output.
- The commented-out link-count check (`dgemm.py:218-222`) is not code and is not modelled.
- Scanner.TrailerEndsScan: stated only for a first field that starts with a digit and for
  margins of blanks and newlines, as the tool prints it. `FinishedOnlyAtTrailer` covers
  every other form.
- Evaluator.UpiLineStep: stated only for lines whose numbers are written in plain decimal,
  as the tool prints them. Lines with other spellings are covered by `LinkLine` and
  `CompleteLinkLine`.
- Bandwidth.Judge: its own contract says only which runs reach the checks. The verdict's
  meaning is stated by `UniformRun`, `PassHasFastLink`, `UnevenReportedBeforeLow` and
  `VarianceNonNegative`.
