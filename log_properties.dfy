/** What the log counter guarantees: counts are numbers of lines, the scan
    only ever adds, the line tests have the case behaviour they have, and the
    two ratios are complementary but not clamped. */
module CoojaLogProperties {
  import opened Text
  import opened CoojaLog

  /** Which lines pass counter `c`'s test. */
  ghost function Hits(lines: seq<string>, c: Counter): (hits: seq<bool>)
    ensures |hits| == |lines|
  {
    seq(|lines|, i requires 0 <= i < |lines| => Matches(c, lines[i]))
  }

  /** Number of `true` entries among the first `n` of `hits`. */
  ghost function CountTrue(hits: seq<bool>, n: nat): nat
    requires n <= |hits|
  {
    if n == 0 then 0 else CountTrue(hits, n - 1) + if hits[n - 1] then 1 else 0
  }

  /** The indices of the `true` entries among the first `n` of `hits`. */
  ghost function Marked(hits: seq<bool>, n: nat): set<nat>
    requires n <= |hits|
  {
    set i: nat | i < n && hits[i]
  }

  lemma {:induction false} CountTrueIsCardinality(hits: seq<bool>, n: nat)
    requires n <= |hits|
    ensures CountTrue(hits, n) == |Marked(hits, n)|
  {
    if n == 0 {
      assert Marked(hits, 0) == {};
    } else {
      CountTrueIsCardinality(hits, n - 1);
      var before := Marked(hits, n - 1);
      assert n - 1 !in before;
      if hits[n - 1] {
        assert Marked(hits, n) == before + {n - 1};
      } else {
        assert Marked(hits, n) == before;
      }
    }
  }

  lemma {:induction false} CountPrefixIsCountTrue(lines: seq<string>, n: nat, c: Counter)
    requires n <= |lines|
    ensures CountPrefix(lines, n, c) == CountTrue(Hits(lines, c), n)
  {
    if n > 0 {
      CountPrefixIsCountTrue(lines, n - 1, c);
    }
  }

  /** A counter counts lines, not occurrences: it is the number of lines that pass its test. */
  lemma CountIsNumberOfMatchingLines(lines: seq<string>, c: Counter)
    ensures Count(lines, c) == |set i: nat | i < |lines| && Matches(c, lines[i])|
  {
    var hits := Hits(lines, c);
    CountPrefixIsCountTrue(lines, |lines|, c);
    CountTrueIsCardinality(hits, |lines|);
    assert Marked(hits, |lines|) == (set i: nat | i < |lines| && Matches(c, lines[i]));
  }

  /** Scanning more lines never lowers a counter, and raises it by at most one per line. */
  lemma {:induction false} CountPrefixGrowth(lines: seq<string>, i: nat, j: nat, c: Counter)
    requires i <= j <= |lines|
    ensures CountPrefix(lines, i, c) <= CountPrefix(lines, j, c) <= CountPrefix(lines, i, c) + (j - i)
  {
    if i < j {
      CountPrefixGrowth(lines, i, j - 1, c);
    }
  }

  lemma {:induction false} CountPrefixOfConcat(a: seq<string>, b: seq<string>, n: nat, c: Counter)
    requires n <= |a|
    ensures CountPrefix(a + b, n, c) == CountPrefix(a, n, c)
  {
    if n > 0 {
      CountPrefixOfConcat(a, b, n - 1, c);
      assert (a + b)[n - 1] == a[n - 1];
    }
  }

  lemma {:induction false} CountConcatPrefix(a: seq<string>, b: seq<string>, k: nat, c: Counter)
    requires k <= |b|
    ensures CountPrefix(a + b, |a| + k, c) == Count(a, c) + CountPrefix(b, k, c)
  {
    if k == 0 {
      CountPrefixOfConcat(a, b, |a|, c);
    } else {
      CountConcatPrefix(a, b, k - 1, c);
      assert (a + b)[|a| + k - 1] == b[k - 1];
    }
  }

  /** Counting a log in two pieces gives the same counts as counting it whole. */
  lemma CountAppend(a: seq<string>, b: seq<string>, c: Counter)
    ensures Count(a + b, c) == Count(a, c) + Count(b, c)
  {
    CountConcatPrefix(a, b, |b|, c);
  }

  /** A log of no lines leaves every counter at zero: pdr 0, plr 100. */
  lemma EmptyLogMetrics()
    ensures Tally([]) == Zero
    ensures Summarize(Tally([])) == Metrics(0, 0, 0.0, 100.0, 0, 0, 0, 0)
  {
  }

  // ---------------------------------------------------------------------------
  // The line tests

  /** The DAO-sent test: the phrase is exact-case, "dao" may be in any case. */
  lemma DaoSentIgnoresCaseOfDao(line: string)
    ensures IsDaoSent(line) <==> Contains(line, "packet sent to") && ContainsIgnoringCase(line, "dao")
  {
    ContainsUpperIff(line, "dao");
    assert Upper("dao") == "DAO";
  }

  /** "blocked" is its own lower-case form. */
  lemma BlockedIsLowerCase()
    ensures Lower("blocked") == "blocked"
  {
  }

  /** A line holding "Blocked DAO" also holds "blocked" once lower-cased. */
  lemma BlockedDaoSubsumed(line: string)
    requires Contains(line, "Blocked DAO")
    ensures Contains(Lower(line), "blocked")
  {
    assert OccursAtIgnoringCase("Blocked DAO", "blocked", 0);
    ContainsIgnoringCaseTransitive(line, "Blocked DAO", "blocked");
    ContainsLowerIff(line, "blocked");
    BlockedIsLowerCase();
  }

  /** The blocked test is a case-insensitive search for "blocked". */
  lemma DaoBlockedIgnoresCase(line: string)
    ensures IsDaoBlocked(line) <==> ContainsIgnoringCase(line, "blocked")
  {
    ContainsLowerIff(line, "blocked");
    BlockedIsLowerCase();
    if Contains(line, "Blocked DAO") {
      BlockedDaoSubsumed(line);
    }
  }

  /** The client's transmit line passes both halves of the sent test, and still counts once. */
  lemma ClientTransmitCountsOnce(pre: string, post: string)
    ensures Contains(pre + "DATA_TX: " + "Sending packet" + post, "DATA_TX:")
    ensures Contains(pre + "DATA_TX: " + "Sending packet" + post, "Sending packet")
    ensures Count([pre + "DATA_TX: " + "Sending packet" + post], DataSent) == 1
  {
    var line := pre + "DATA_TX: " + "Sending packet" + post;
    assert line == pre + "DATA_TX:" + (" Sending packet" + post);
    OccursAfterPrefix(pre, "DATA_TX:", " Sending packet" + post);
    OccursAfterPrefix(pre + "DATA_TX: ", "Sending packet", post);
  }

  /** The root logs two lines per received packet, and both pass the received test. */
  lemma RootReceptionCountsTwice(lines: seq<string>, pre1: string, post1: string, pre2: string, post2: string)
    ensures Count(lines + [pre1 + "DATA: Received" + post1, pre2 + "RX [" + post2], DataReceived)
            == Count(lines, DataReceived) + 2
  {
    var r1, r2 := pre1 + "DATA: Received" + post1, pre2 + "RX [" + post2;
    OccursAfterPrefix(pre1, "DATA: Received", post1);
    OccursAfterPrefix(pre2, "RX [", post2);
    assert IsDataReceived(r1) && IsDataReceived(r2);
    assert CountPrefix([r1, r2], 1, DataReceived) == 1;
    CountAppend(lines, [r1, r2], DataReceived);
  }

  /** A lower-case "dao" is counted as a DAO send. */
  lemma LowercaseDaoCounts()
    ensures IsDaoSent("dao packet sent to parent")
  {
    var line := "dao packet sent to parent";
    assert OccursAt(line, "packet sent to", 4);
    assert OccursAt(line, "dao", 0);
    ContainsThenIgnoringCase(line, "dao");
    DaoSentIgnoresCaseOfDao(line);
  }

  /** The send phrase itself is exact-case: even with "DAO" present, a capital P
      in "Packet" fails the test. */
  lemma CapitalisedPhraseIsNotDaoSend()
    ensures !IsDaoSent("DAO Packet sent to root")
  {
    MissingCharNotContained("DAO Packet sent to root", "packet sent to", 'p');
  }

  /** The same line with the phrase in lower case passes the test. */
  lemma LowercasePhraseIsDaoSend()
    ensures IsDaoSent("DAO packet sent to root")
  {
    var line := "DAO packet sent to root";
    assert line == "DAO " + "packet sent to" + " root";
    OccursAfterPrefix("DAO ", "packet sent to", " root");
    assert OccursAtIgnoringCase(line, "dao", 0);
    DaoSentIgnoresCaseOfDao(line);
  }

  /** An all-capitals "BLOCKED" is counted as a blocked DAO. */
  lemma UppercaseBlockedCounts()
    ensures IsDaoBlocked("BLOCKED")
  {
    assert Lower("BLOCKED") == "blocked";
    assert OccursAt(Lower("BLOCKED"), "blocked", 0);
  }

  /** "BLACKLISTED" and "Attack count" are exact-case. */
  lemma LowercaseMarkersIgnored()
    ensures !IsBlacklisted("blacklisted")
    ensures !IsAttack("attack count")
  {
    assert "blacklisted"[0] != "BLACKLISTED"[0];
    ContainsSameLength("blacklisted", "BLACKLISTED");
    assert "attack count"[0] != "Attack count"[0];
    ContainsSameLength("attack count", "Attack count");
  }

  /** One line may bump several counters. */
  lemma OneLineSeveralCounters(pre: string, mid: string, post: string)
    ensures Count([pre + "Attack count" + mid + "Blocked DAO" + post], AttackCount) == 1
    ensures Count([pre + "Attack count" + mid + "Blocked DAO" + post], DaoBlocked) == 1
  {
    var line := pre + "Attack count" + mid + "Blocked DAO" + post;
    assert line == pre + "Attack count" + (mid + "Blocked DAO" + post);
    OccursAfterPrefix(pre, "Attack count", mid + "Blocked DAO" + post);
    OccursAfterPrefix(pre + "Attack count" + mid, "Blocked DAO", post);
  }

  /** A line read from the file keeps its newline; no test looks at it. */
  lemma NewlineIrrelevant(line: string, c: Counter)
    ensures Matches(c, line + "\n") <==> Matches(c, line)
  {
    var t := line + "\n";
    CaseMapAppendChar(line, '\n');
    assert Upper(t) == Upper(line) + "\n" && Lower(t) == Lower(line) + "\n";
    match c
    case DataSent =>
      ContainsAppendChar(line, "DATA_TX:", '\n');
      ContainsAppendChar(line, "Sending packet", '\n');
    case DataReceived =>
      ContainsAppendChar(line, "DATA: Received", '\n');
      ContainsAppendChar(line, "RX [", '\n');
    case DaoSent =>
      ContainsAppendChar(line, "packet sent to", '\n');
      ContainsAppendChar(Upper(line), "DAO", '\n');
    case DaoBlocked =>
      ContainsAppendChar(line, "Blocked DAO", '\n');
      ContainsAppendChar(Lower(line), "blocked", '\n');
    case NodesBlacklisted =>
      ContainsAppendChar(line, "BLACKLISTED", '\n');
    case AttackCount =>
      ContainsAppendChar(line, "Attack count", '\n');
  }

  // ---------------------------------------------------------------------------
  // The ratios

  /** Twelve sent and ten received lines give a delivery ratio of 83 1/3 percent. */
  lemma TwelveSentTenReceived()
    ensures Summarize(Counts(12, 10, 0, 0, 0, 0)).pdr == 250.0 / 3.0
    ensures Summarize(Counts(12, 10, 0, 0, 0, 0)).plr == 50.0 / 3.0
  {
  }

  /** pdr is not clamped: with the root's two lines per packet it reaches 200 and plr goes negative. */
  lemma DeliveryRatioNotClamped()
    ensures Summarize(Counts(1, 2, 0, 0, 0, 0)).pdr == 200.0
    ensures Summarize(Counts(1, 2, 0, 0, 0, 0)).plr == -100.0
  {
  }
}
