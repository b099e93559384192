/** The fixed-width rows of the results summary table: every cell is
    left-justified in its column with Python's `:<width` format, which pads
    with spaces up to the width and never truncates. */
module SummaryTable {

  /** `c * n` in Python: `n` copies of `c`. */
  function Repeat(c: char, n: nat): (r: string)
    ensures |r| == n
    ensures forall i :: 0 <= i < n ==> r[i] == c
  {
    if n == 0 then [] else [c] + Repeat(c, n - 1)
  }

  /** `f"{s:<width}"`. */
  function PadRight(s: string, width: nat): (r: string)
    ensures |r| == if |s| < width then width else |s|
    ensures r[..|s|] == s
    ensures forall i :: |s| <= i < |r| ==> r[i] == ' '
  {
    if |s| < width then s + Repeat(' ', width - |s|) else s
  }

  /** A cell already as wide as its column is left as it is. */
  lemma PadRightNeverTruncates(s: string, width: nat)
    requires width <= |s|
    ensures PadRight(s, width) == s
  {
    assert PadRight(s, width)[..|s|] == PadRight(s, width);
  }

  /** Padding an already padded cell to the same width changes nothing. */
  lemma PadRightIdempotent(s: string, width: nat)
    ensures PadRight(PadRight(s, width), width) == PadRight(s, width)
  {
    PadRightNeverTruncates(PadRight(s, width), width);
  }

  /** One row: the metric name and four values in columns 15, 12, 15, 15 and 12 wide, one space apart. */
  function FormatRow(metric: string, baseline: string, underAttack: string,
                     withMitigation: string, improvement: string): string
  {
    PadRight(metric, 15) + " " + PadRight(baseline, 12) + " " + PadRight(underAttack, 15) + " "
      + PadRight(withMitigation, 15) + " " + PadRight(improvement, 12)
  }

  /** When every cell fits its column, the row is 73 characters wide and each
      cell starts at its column's fixed offset (0, 16, 29, 45 and 61). */
  lemma {:induction false} RowColumnsAligned(metric: string, baseline: string, underAttack: string,
                                             withMitigation: string, improvement: string)
    requires |metric| <= 15 && |baseline| <= 12 && |underAttack| <= 15
    requires |withMitigation| <= 15 && |improvement| <= 12
    ensures var row := FormatRow(metric, baseline, underAttack, withMitigation, improvement);
      |row| == 73 &&
      row[0..|metric|] == metric &&
      row[16..16 + |baseline|] == baseline &&
      row[29..29 + |underAttack|] == underAttack &&
      row[45..45 + |withMitigation|] == withMitigation &&
      row[61..61 + |improvement|] == improvement
  {
    var a, b, c := PadRight(metric, 15), PadRight(baseline, 12), PadRight(underAttack, 15);
    var d, e := PadRight(withMitigation, 15), PadRight(improvement, 12);
    var row := a + " " + b + " " + c + " " + d + " " + e;
    assert row == FormatRow(metric, baseline, underAttack, withMitigation, improvement);
    assert row[0..15] == a;
    assert row[16..28] == b;
    assert row[29..44] == c;
    assert row[45..60] == d;
    assert row[61..73] == e;
    assert row[0..|metric|] == a[..|metric|];
    assert row[16..16 + |baseline|] == b[..|baseline|];
    assert row[29..29 + |underAttack|] == c[..|underAttack|];
    assert row[45..45 + |withMitigation|] == d[..|withMitigation|];
    assert row[61..61 + |improvement|] == e[..|improvement|];
  }

  /** The header row. */
  function Header(): string {
    FormatRow("Metric", "Baseline", "Under Attack", "With Li-MSD", "Improvement")
  }

  /** The header's titles all fit, so the header lines up with every row whose cells fit. */
  lemma HeaderAligned()
    ensures |Header()| == 73
    ensures Header()[0..6] == "Metric" && Header()[16..24] == "Baseline"
    ensures Header()[29..41] == "Under Attack" && Header()[45..56] == "With Li-MSD"
    ensures Header()[61..72] == "Improvement"
  {
    RowColumnsAligned("Metric", "Baseline", "Under Attack", "With Li-MSD", "Improvement");
  }
}
