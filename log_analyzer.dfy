/** The Cooja log counter: one pass over the lines of a simulator log, six
    independent line tests, six counters, and the delivery and loss ratios
    derived from them. */
module CoojaLog {
  import opened Text

  /** The six counters, in the order the scan tests them. */
  datatype Counter = DataSent | DataReceived | DaoSent | DaoBlocked | NodesBlacklisted | AttackCount

  /** Data packets sent (analyze_and_plot_real_logs.py, line 37). */
  predicate IsDataSent(line: string) {
    Contains(line, "DATA_TX:") || Contains(line, "Sending packet")
  }

  /** Data packets received (analyze_and_plot_real_logs.py, line 41). */
  predicate IsDataReceived(line: string) {
    Contains(line, "DATA: Received") || Contains(line, "RX [")
  }

  /** DAO messages sent (analyze_and_plot_real_logs.py, line 45): the phrase is exact-case, "DAO" is searched in the upper-cased line. */
  predicate IsDaoSent(line: string) {
    Contains(line, "packet sent to") && Contains(Upper(line), "DAO")
  }

  /** DAO blocked (analyze_and_plot_real_logs.py, line 49): "blocked" is searched in the lower-cased line. */
  predicate IsDaoBlocked(line: string) {
    Contains(line, "Blocked DAO") || Contains(Lower(line), "blocked")
  }

  /** Nodes blacklisted (analyze_and_plot_real_logs.py, line 53), exact case. */
  predicate IsBlacklisted(line: string) {
    Contains(line, "BLACKLISTED")
  }

  /** Attack count (analyze_and_plot_real_logs.py, line 57), exact case. */
  predicate IsAttack(line: string) {
    Contains(line, "Attack count")
  }

  /** The test a line must pass to bump counter `c`. */
  predicate Matches(c: Counter, line: string) {
    match c
    case DataSent => IsDataSent(line)
    case DataReceived => IsDataReceived(line)
    case DaoSent => IsDaoSent(line)
    case DaoBlocked => IsDaoBlocked(line)
    case NodesBlacklisted => IsBlacklisted(line)
    case AttackCount => IsAttack(line)
  }

  /** Number of lines among the first `n` of `lines` that pass the test of counter `c`. */
  function CountPrefix(lines: seq<string>, n: nat, c: Counter): (k: nat)
    requires n <= |lines|
    ensures k <= n
  {
    if n == 0 then 0 else CountPrefix(lines, n - 1, c) + if Matches(c, lines[n - 1]) then 1 else 0
  }

  /** Number of lines of `lines` that pass the test of counter `c`. */
  function Count(lines: seq<string>, c: Counter): nat {
    CountPrefix(lines, |lines|, c)
  }

  /** The six counter values. */
  datatype Counts = Counts(dataSent: nat, dataReceived: nat, daoSent: nat,
                           daoBlocked: nat, nodesBlacklisted: nat, attackCount: nat)

  const Zero := Counts(0, 0, 0, 0, 0, 0)

  function Plus(a: Counts, b: Counts): Counts
  {
    Counts(a.dataSent + b.dataSent, a.dataReceived + b.dataReceived, a.daoSent + b.daoSent,
           a.daoBlocked + b.daoBlocked, a.nodesBlacklisted + b.nodesBlacklisted,
           a.attackCount + b.attackCount)
  }

  /** What one scan of `lines` adds to the counters. */
  function Tally(lines: seq<string>): Counts {
    Counts(Count(lines, DataSent), Count(lines, DataReceived), Count(lines, DaoSent),
           Count(lines, DaoBlocked), Count(lines, NodesBlacklisted), Count(lines, AttackCount))
  }

  /** The dictionary `get_metrics` returns. */
  datatype Metrics = Metrics(dataSent: nat, dataReceived: nat, pdr: real, plr: real,
                             daoSent: nat, daoBlocked: nat, nodesBlacklisted: nat, attackCount: nat)

  /** Packet delivery and loss ratios (percent) from the counters. */
  function Summarize(c: Counts): (m: Metrics)
    ensures m.dataSent == c.dataSent && m.dataReceived == c.dataReceived
    ensures m.daoSent == c.daoSent && m.daoBlocked == c.daoBlocked
    ensures m.nodesBlacklisted == c.nodesBlacklisted && m.attackCount == c.attackCount
    ensures c.dataSent == 0 ==> m.pdr == 0.0 && m.plr == 100.0
    ensures c.dataSent > 0 ==> m.pdr * (c.dataSent as real) == 100.0 * (c.dataReceived as real)
    ensures m.pdr + m.plr == 100.0
    ensures m.pdr >= 0.0
    ensures c.dataReceived <= c.dataSent ==> m.pdr <= 100.0 && m.plr >= 0.0
    ensures 0 < c.dataSent < c.dataReceived ==> m.pdr > 100.0 && m.plr < 0.0
  {
    var pdr := if c.dataSent > 0 then (c.dataReceived as real) / (c.dataSent as real) * 100.0 else 0.0;
    Metrics(c.dataSent, c.dataReceived, pdr, 100.0 - pdr,
            c.daoSent, c.daoBlocked, c.nodesBlacklisted, c.attackCount)
  }

  /** `CoojaLogAnalyzer`: the counters live in fields that the scan bumps in place. */
  class CoojaLogAnalyzer {
    var logFile: string
    var dataSent: nat
    var dataReceived: nat
    var daoSent: nat
    var daoBlocked: nat
    var nodesBlacklisted: nat
    var attackCount: nat

    /** The six fields as one value. */
    function Counters(): Counts
      reads this
    {
      Counts(dataSent, dataReceived, daoSent, daoBlocked, nodesBlacklisted, attackCount)
    }

    /** A new analyzer for `logFile` starts with every counter at zero. */
    constructor (logFile: string)
      ensures this.logFile == logFile
      ensures Counters() == Zero
    {
      this.logFile := logFile;
      dataSent, dataReceived, daoSent := 0, 0, 0;
      daoBlocked, nodesBlacklisted, attackCount := 0, 0, 0;
    }

    /** Scans `lines`, the lines read from `logFile`, and returns the metrics.
        The counters are not reset first: each counter grows by the number of
        lines passing its test. */
    method Analyze(lines: seq<string>) returns (m: Metrics)
      modifies this
      ensures logFile == old(logFile)
      ensures Counters() == Plus(old(Counters()), Tally(lines))
      ensures m == GetMetrics()
    {
      for i := 0 to |lines|
        invariant logFile == old(logFile)
        invariant dataSent == old(dataSent) + CountPrefix(lines, i, DataSent)
        invariant dataReceived == old(dataReceived) + CountPrefix(lines, i, DataReceived)
        invariant daoSent == old(daoSent) + CountPrefix(lines, i, DaoSent)
        invariant daoBlocked == old(daoBlocked) + CountPrefix(lines, i, DaoBlocked)
        invariant nodesBlacklisted == old(nodesBlacklisted) + CountPrefix(lines, i, NodesBlacklisted)
        invariant attackCount == old(attackCount) + CountPrefix(lines, i, AttackCount)
      {
        CountLine(lines[i]);
      }
      m := GetMetrics();
    }

    /** The body of the scan loop: every test the line passes bumps its counter by one. */
    method CountLine(line: string)
      modifies this
      ensures logFile == old(logFile)
      ensures dataSent == old(dataSent) + if IsDataSent(line) then 1 else 0
      ensures dataReceived == old(dataReceived) + if IsDataReceived(line) then 1 else 0
      ensures daoSent == old(daoSent) + if IsDaoSent(line) then 1 else 0
      ensures daoBlocked == old(daoBlocked) + if IsDaoBlocked(line) then 1 else 0
      ensures nodesBlacklisted == old(nodesBlacklisted) + if IsBlacklisted(line) then 1 else 0
      ensures attackCount == old(attackCount) + if IsAttack(line) then 1 else 0
    {
      if IsDataSent(line) {
        dataSent := dataSent + 1;
      }
      if IsDataReceived(line) {
        dataReceived := dataReceived + 1;
      }
      if IsDaoSent(line) {
        daoSent := daoSent + 1;
      }
      if IsDaoBlocked(line) {
        daoBlocked := daoBlocked + 1;
      }
      if IsBlacklisted(line) {
        nodesBlacklisted := nodesBlacklisted + 1;
      }
      if IsAttack(line) {
        attackCount := attackCount + 1;
      }
    }

    /** `get_metrics`: the current counters with the derived ratios. */
    function GetMetrics(): (m: Metrics)
      reads this
      ensures m.dataSent == dataSent && m.dataReceived == dataReceived
      ensures m.daoSent == daoSent && m.daoBlocked == daoBlocked
      ensures m.nodesBlacklisted == nodesBlacklisted && m.attackCount == attackCount
      ensures m.pdr + m.plr == 100.0
      ensures dataSent == 0 ==> m.pdr == 0.0
      ensures dataSent > 0 ==> m.pdr * (dataSent as real) == 100.0 * (dataReceived as real)
    {
      Summarize(Counters())
    }
  }

  /** `CoojaLogAnalyzer(path).analyze()`: a fresh analyzer's result depends on the lines alone. */
  method AnalyzeLog(logFile: string, lines: seq<string>) returns (m: Metrics)
    ensures m == Summarize(Tally(lines))
  {
    var analyzer := new CoojaLogAnalyzer(logFile);
    m := analyzer.Analyze(lines);
  }
}
