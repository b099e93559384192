# Cooja log analyzer, modelled in Dafny

This project models `CoojaLogAnalyzer`, the core of the analysis script of an
RPL DAO-replay-attack study. The script reads a log written by the Cooja
simulator and scans it line by line. Six independent substring tests decide
which of six counters each line raises:

- data sent
- data received
- DAO sent
- DAO blocked
- nodes blacklisted
- attack count

From those counters `get_metrics` derives the packet delivery ratio (pdr) and
the packet loss ratio (plr), in percent. The model also covers the fixed-width
row layout of the results summary table.

The project has four modules:

- `Text` (`text.dfy`) covers Python's `sub in s`, and `str.upper()` /
  `str.lower()` on ASCII letters. It proves that searching the upper-cased or
  lower-cased line for a word is a case-insensitive search, with that search
  defined independently character by character.
- `CoojaLog` (`log_analyzer.dfy`) holds the analyzer. It is a class whose six
  counter fields the scan bumps in place, as the script's `self.…` fields are.
  - `Analyze` is proved against the specification function `Tally`: each
    counter grows by the number of lines that pass its test.
  - `Summarize` states what the ratios are.
- `CoojaLogProperties` (`log_properties.dfy`) proves lemmas about the scan and
  the line tests:
  - A counter equals the cardinality of the set of matching line indices.
  - Counting is additive over a split log.
  - Counters only grow, by at most one per line.
  - It spells out the case behaviour of each line test on small example lines.
  - Two lemmas are stated on the lines the node programs print: the client's
    "DATA_TX: Sending packet" line and the root's two lines per received packet.
  - It states the ratio behaviour: it is complementary, and not clamped to
    0..100.
- `SummaryTable` (`summary_table.dfy`) covers the summary table's rows. Python's
  `f"{s:<width}"` pads with spaces and never truncates. A row whose cells all
  fit has its columns at fixed offsets, and the header lines up with it.

Two of the script's behaviours are worth stating.

First, `analyze()` never resets the counters. A second call on the same
analyzer adds to the first call's counts, so the contract of `Analyze` is
`Counters() == Plus(old(Counters()), Tally(lines))`. Only a fresh analyzer
(`AnalyzeLog`) yields `Summarize(Tally(lines))`.

Second, the DAO-sent test searches for "DAO" in the upper-cased line. A
lower-case "dao" therefore counts (`LowercaseDaoCounts`).

Third, the root node prints two lines for every packet it receives, and both
pass the received test (`RootReceptionCountsTwice`). The delivery ratio is not clamped
(`DeliveryRatioNotClamped`), so against the client's one line per packet it
can exceed 100 percent.

## Model

| member | source | states |
|---|---|---|
| `Text.Contains` | analyze_and_plot_real_logs.py:37 | Python's `sub in s`: some slice of `s` equals `sub` (its partners are `ContainsSameLength`, `MissingCharNotContained` and `ContainsAppendChar`) |
| `Text.Upper` | analyze_and_plot_real_logs.py:45 | `line.upper()` agrees with the line up to ASCII case and holds no lower-case ASCII letter; these two facts fix the result |
| `Text.Lower` | analyze_and_plot_real_logs.py:49 | `line.lower()` agrees with the line up to ASCII case and holds no upper-case ASCII letter; these two facts fix the result |
| `Text.ContainsUpperIff` | analyze_and_plot_real_logs.py:45 | `Upper(sub) in Upper(s)` holds exactly when `sub` occurs in `s` up to ASCII case (both directions) |
| `Text.ContainsLowerIff` | analyze_and_plot_real_logs.py:49 | `Lower(sub) in Lower(s)` holds exactly when `sub` occurs in `s` up to ASCII case (both directions) |
| `Text.ContainsAppendChar` | analyze_and_plot_real_logs.py:35-36 | appending a character that the searched word does not contain neither creates an occurrence nor removes one |
| `CoojaLog.IsDataSent` | analyze_and_plot_real_logs.py:37 | the data-sent test: "DATA_TX:" or "Sending packet" occurs, exact case |
| `CoojaLog.IsDataReceived` | analyze_and_plot_real_logs.py:41 | the data-received test: "DATA: Received" or "RX [" occurs, exact case |
| `CoojaLog.IsDaoSent` | analyze_and_plot_real_logs.py:45 | the DAO-sent test: "packet sent to" occurs and "DAO" occurs in the upper-cased line (its meaning is `DaoSentIgnoresCaseOfDao`) |
| `CoojaLog.IsDaoBlocked` | analyze_and_plot_real_logs.py:49 | the DAO-blocked test: "Blocked DAO" occurs or "blocked" occurs in the lower-cased line (its meaning is `DaoBlockedIgnoresCase`) |
| `CoojaLog.IsBlacklisted` | analyze_and_plot_real_logs.py:53 | the blacklisted test: "BLACKLISTED" occurs, exact case |
| `CoojaLog.IsAttack` | analyze_and_plot_real_logs.py:57 | the attack test: "Attack count" occurs, exact case |
| `CoojaLog.Matches` | analyze_and_plot_real_logs.py:37-58 | the test of each of the six counters, one per `if` |
| `CoojaLog.CountPrefix` | analyze_and_plot_real_logs.py:36-58 | a counter after `n` lines is at most `n` |
| `CoojaLog.Summarize` | analyze_and_plot_real_logs.py:62-76 | the six counts pass through unchanged; with no sent packets pdr is 0 and plr is 100; otherwise pdr·sent = 100·received; pdr + plr = 100; pdr ≥ 0; received ≤ sent keeps both ratios within 0..100; received > sent > 0 pushes pdr above 100 and plr below 0 |
| `CoojaLog.CoojaLogAnalyzer.constructor` | analyze_and_plot_real_logs.py:21-28 | a new analyzer keeps its log file name and starts with all six counters at zero |
| `CoojaLog.CoojaLogAnalyzer.Analyze` | analyze_and_plot_real_logs.py:30-60 | the log file name is kept; each counter grows by the number of lines that pass its test, with no reset; the result is `get_metrics()` of the new counters |
| `CoojaLog.CoojaLogAnalyzer.CountLine` | analyze_and_plot_real_logs.py:36-58 | every one of the six tests the line passes raises its own counter by exactly one, and no other field changes |
| `CoojaLog.CoojaLogAnalyzer.GetMetrics` | analyze_and_plot_real_logs.py:62-76 | the dictionary carries the six counters; pdr + plr = 100; pdr is 0 with no sent packets, and otherwise pdr·sent = 100·received |
| `CoojaLog.AnalyzeLog` | analyze_and_plot_real_logs.py:21-60 | a fresh analyzer's metrics depend on the log's lines alone: `Summarize(Tally(lines))` |
| `CoojaLogProperties.CountTrueIsCardinality` | analyze_and_plot_real_logs.py:36-58 | the running count of a sequence of flags equals the number of indices whose flag is set |
| `CoojaLogProperties.CountPrefixIsCountTrue` | analyze_and_plot_real_logs.py:36-58 | the counter after `n` lines equals the running count of the per-line test outcomes |
| `CoojaLogProperties.CountIsNumberOfMatchingLines` | analyze_and_plot_real_logs.py:36-58 | a counter is the number of lines that pass its test: a line holding the marker twice still counts once |
| `CoojaLogProperties.CountPrefixGrowth` | analyze_and_plot_real_logs.py:35-58 | scanning more lines never lowers a counter, and raises it by at most one per extra line |
| `CoojaLogProperties.CountPrefixOfConcat` | analyze_and_plot_real_logs.py:35-36 | the count over a prefix is not affected by lines that come later |
| `CoojaLogProperties.CountConcatPrefix` | analyze_and_plot_real_logs.py:35-36 | a count taken part way into the second piece of a split log is the first piece's count plus the count so far in the second |
| `CoojaLogProperties.CountAppend` | analyze_and_plot_real_logs.py:35-58 | counting a log in two pieces gives the sum of the pieces' counts |
| `CoojaLogProperties.EmptyLogMetrics` | analyze_and_plot_real_logs.py:64-65 | an empty log leaves all counters at zero and gives pdr 0, plr 100 |
| `CoojaLogProperties.DaoSentIgnoresCaseOfDao` | analyze_and_plot_real_logs.py:45 | the DAO-sent test holds exactly when "packet sent to" occurs in its exact case and "dao" occurs in any case |
| `CoojaLogProperties.BlockedDaoSubsumed` | analyze_and_plot_real_logs.py:49 | a line holding "Blocked DAO" also passes the lower-cased "blocked" search |
| `CoojaLogProperties.DaoBlockedIgnoresCase` | analyze_and_plot_real_logs.py:49 | the DAO-blocked test holds exactly when "blocked" occurs in any case |
| `CoojaLogProperties.ClientTransmitCountsOnce` | client-node.c:78 | the client's transmit line passes both halves of the sent test and still raises the counter by one |
| `CoojaLogProperties.RootReceptionCountsTwice` | root-node.c:33-34 | the root's two lines for one received packet raise the received counter by two |
| `CoojaLogProperties.LowercaseDaoCounts` | analyze_and_plot_real_logs.py:45 | a line with "packet sent to" and a lower-case "dao" counts as a DAO send |
| `CoojaLogProperties.CapitalisedPhraseIsNotDaoSend` | analyze_and_plot_real_logs.py:45 | the line "DAO Packet sent to root" fails the DAO-sent test: it holds "DAO", but the phrase has a capital P |
| `CoojaLogProperties.LowercasePhraseIsDaoSend` | analyze_and_plot_real_logs.py:45 | the same line with "packet" in lower case passes the test, so only the phrase's case decides |
| `CoojaLogProperties.UppercaseBlockedCounts` | analyze_and_plot_real_logs.py:49 | an all-capitals "BLOCKED" passes the DAO-blocked test |
| `CoojaLogProperties.LowercaseMarkersIgnored` | analyze_and_plot_real_logs.py:53-58 | a lower-case "blacklisted" or "attack count" passes neither test |
| `CoojaLogProperties.OneLineSeveralCounters` | analyze_and_plot_real_logs.py:49-58 | one line may raise several counters: the tests are independent `if`s, not an `elif` chain |
| `CoojaLogProperties.NewlineIrrelevant` | analyze_and_plot_real_logs.py:35-36 | the newline each line keeps when it is read from the file changes no test's outcome |
| `CoojaLogProperties.TwelveSentTenReceived` | analyze_and_plot_real_logs.py:64-65 | 12 sent and 10 received give pdr 250/3 and plr 50/3 exactly |
| `CoojaLogProperties.DeliveryRatioNotClamped` | analyze_and_plot_real_logs.py:64-65 | 1 sent and 2 received give pdr 200 and plr −100: there is no clamping |
| `SummaryTable.PadRight` | analyze_and_plot_real_logs.py:352-354 | `f"{s:<w}"` is `s` followed by spaces up to width `w`, and is never shorter than `s` |
| `SummaryTable.PadRightNeverTruncates` | analyze_and_plot_real_logs.py:352-354 | a value as wide as its column or wider is printed unchanged |
| `SummaryTable.PadRightIdempotent` | analyze_and_plot_real_logs.py:352-354 | padding a padded cell again to the same width changes nothing |
| `SummaryTable.FormatRow` | analyze_and_plot_real_logs.py:352-354 | one table row: the five cells padded to 15, 12, 15, 15 and 12 and joined by single spaces (its layout is `RowColumnsAligned`) |
| `SummaryTable.RowColumnsAligned` | analyze_and_plot_real_logs.py:352-354 | a row whose five cells fit their 15/12/15/15/12 columns is 73 characters long, with each cell at offset 0, 16, 29, 45 or 61 |
| `SummaryTable.Header` | analyze_and_plot_real_logs.py:348 | the header row: the five column titles laid out as a row |
| `SummaryTable.HeaderAligned` | analyze_and_plot_real_logs.py:348 | the header is 73 characters long, and each of its five titles ("Metric" through "Improvement") sits at its column's offset, the same offset as in every fitting row |

## Left out

- File and console I/O. `open(self.log_file)` and iterating over it become the sequence of the file's lines, each a string, passed to `Analyze`. The printed "Analyzing: …" message is not modelled.
- The failure paths of `analyze` are not modelled. Opening the file can fail. A decoding error part way through the file raises an exception and leaves the counters partly raised (analyze_and_plot_real_logs.py:34-58). The model's `Analyze` always scans every line.
- Case mapping covers ASCII letters only. Python's Unicode `upper()` / `lower()` also maps other scripts, and it can change a string's length (for example "ß" becomes "SS"). Neither is modelled.
- `pdr` is an exact real number. Python computes it as a float with rounding. When nothing was sent, Python returns the integer `0` and `plr` the integer `100`; the model returns the reals 0 and 100.
- `CoojaLog.CoojaLogAnalyzer.CountLine` is the loop body of `analyze` factored out into a method of its own. The six `if`s are unchanged.
- `SummaryTable.RowColumnsAligned` covers the padded rows only. The table's fixed data, its `str()` conversions, its `=`/`-` rules, its title and its write to `results/summary_table.txt` are not modelled.
- The plotting functions (`plot_*`), `main` and the hard-coded scenario datasets draw figures from fixed numbers, so they are not modelled.
- The node programs (`client-node.c`, `root-node.c`, `attacker-node.c`) and `project-conf.h` are not modelled. Only two lemmas use lines they print: `ClientTransmitCountsOnce` (client-node.c:78) and `RootReceptionCountsTwice` (root-node.c:33-34). The other line-test lemmas are stated on small example lines.
