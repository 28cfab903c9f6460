/**
 * The threshold ladders `StatsLine` uses to turn a raw metric into a table
 * cell. A cell is the raw string the source builds, colour escapes included:
 * a coloured cell is the colour's escape, the text, then the reset escape.
 */
module Thresholds {
  import opened Wrappers
  import opened Text

  const Esc: char := 27 as char
  const Red: string := [Esc] + "[31m"
  const Yellow: string := [Esc] + "[33m"
  const BrightGreen: string := [Esc] + "[92m"
  const Reset: string := [Esc] + "[0m"

  /** `colour + text + '\033[0m'`. */
  function Paint(colour: string, text: string): (r: string)
    ensures |r| == |colour| + |text| + |Reset|
    ensures forall i :: 0 <= i < |text| ==> r[|colour| + i] == text[i]
  {
    colour + text + Reset
  }

  /** A coloured cell starts with the colour's escape and ends with the reset escape. */
  lemma PaintFrame(colour: string, text: string)
    ensures Paint(colour, text)[..|colour|] == colour
    ensures Paint(colour, text)[|colour| + |text|..] == Reset
  {
  }

  /** The colour a cell is shown in: red, yellow or bright green. */
  datatype Severity = Critical | Warning | Good

  function ColourOf(s: Severity): string
  {
    match s
    case Critical => Red
    case Warning => Yellow
    case Good => BrightGreen
  }

  /**
   * The notarisation-UTXO cell (stats.py:75-84), written as the source's
   * ladder. The last `else` is the ladder's fall-through, where the count
   * would be shown unchanged; the contract shows it is never taken.
   */
  function UtxoCell(n: int): (r: string)
    ensures n < 5 ==> r == Paint(Red, "     " + IntToString(n))
    ensures 5 <= n < 10 ==> r == Paint(Yellow, "     " + IntToString(n))
    ensures 10 <= n <= 100 ==> r == Paint(BrightGreen, "    " + IntToString(n))
    ensures 100 < n ==> r == Paint(Red, "> 100")
  {
    if n < 5 then Paint(Red, "     " + IntToString(n))
    else if n < 10 then Paint(Yellow, "     " + IntToString(n))
    else if n > 100 then Paint(Red, "> 100")
    else if n > 40 then Paint(BrightGreen, "    " + IntToString(n))
    else if n >= 10 then Paint(BrightGreen, "    " + IntToString(n))
    else IntToString(n)
  }

  /** The UTXO buckets by range. */
  function UtxoSeverity(n: int): Severity
  {
    if 10 <= n <= 100 then Good
    else if 5 <= n <= 9 then Warning
    else Critical
  }

  /** The visible text the ladder shows for a count. */
  function UtxoText(n: int): string
  {
    if n > 100 then "> 100"
    else if n >= 10 then "    " + IntToString(n)
    else "     " + IntToString(n)
  }

  /**
   * The ladder's cell is its bucket's colour around its bucket's text, so the
   * cell opens with the red escape exactly for counts below 5 or above 100,
   * with the yellow one exactly for 5..9, and with the green one exactly for
   * 10..100.
   */
  lemma UtxoCellIsBucket(n: int)
    ensures UtxoCell(n) == Paint(ColourOf(UtxoSeverity(n)), UtxoText(n))
    ensures UtxoCell(n)[..5] == Red <==> n < 5 || 100 < n
    ensures UtxoCell(n)[..5] == Yellow <==> 5 <= n < 10
    ensures UtxoCell(n)[..5] == BrightGreen <==> 10 <= n <= 100
  {
    PaintFrame(ColourOf(UtxoSeverity(n)), UtxoText(n));
    assert Red[3] != Yellow[3] && Red[3] != BrightGreen[3] && Yellow[3] != BrightGreen[3];
  }

  /** The `> 40` and `>= 10` rungs are the same cell: 41..100 and 10..40 look alike. */
  lemma UtxoUpperRungsAgree(m: int, n: int)
    requires 10 <= m <= 40 < n <= 100
    ensures UtxoCell(m)[..|BrightGreen|] == UtxoCell(n)[..|BrightGreen|] == BrightGreen
    ensures UtxoCell(m) == Paint(BrightGreen, "    " + IntToString(m))
    ensures UtxoCell(n) == Paint(BrightGreen, "    " + IntToString(n))
  {
  }

  /**
   * The visible width of the UTXO text: six characters (the UTXO column's
   * width) for counts 0..99, seven for exactly 100, five for anything above.
   */
  lemma UtxoTextWidth(n: int)
    requires 0 <= n
    ensures n < 100 ==> |UtxoText(n)| == 6
    ensures n == 100 ==> |UtxoText(n)| == 7
    ensures n > 100 ==> |UtxoText(n)| == 5
  {
  }

  /**
   * The wallet-file size cell (stats.py:41-48): `unitText` is what
   * `helper.bytes_to_unit(filesize)` answers (None: it raised); the source
   * calls it only in the middle band, so only that band needs its answer.
   */
  function WalletSizeCell(size: int, unitText: Option<string>): (r: string)
    requires WalletBandOf(size) == Normal ==> unitText.Some?
    ensures 10485760 < size ==> r == Paint(Red, "   > 10M")
    ensures 5242880 < size <= 10485760 ==> r == Paint(Yellow, "    > 5M")
    ensures size < 1048576 ==> r == Paint(Yellow, "    > 1M")
    ensures 1048576 <= size <= 5242880 ==> r == unitText.value
  {
    if size > 10485760 then Paint(Red, "   > 10M")
    else if size > 5242880 then Paint(Yellow, "    > 5M")
    else if size < 1048576 then Paint(Yellow, "    > 1M")
    else unitText.value
  }

  /** The wallet-size bands, smallest first. */
  datatype WalletBand = Small | Normal | Large | Oversized

  function WalletBandOf(size: int): WalletBand
  {
    if size < 1048576 then Small
    else if size <= 5242880 then Normal
    else if size <= 10485760 then Large
    else Oversized
  }

  /** The cell of each band: only `Normal` shows the unit text. */
  function BandCell(band: WalletBand, unitText: Option<string>): string
    requires band == Normal ==> unitText.Some?
  {
    match band
    case Small => Paint(Yellow, "    > 1M")
    case Normal => unitText.value
    case Large => Paint(Yellow, "    > 5M")
    case Oversized => Paint(Red, "   > 10M")
  }

  /**
   * The size ladder is the cell of the size's band, and outside the `Normal`
   * band the cell does not depend on `bytes_to_unit` at all.
   */
  lemma WalletSizeCellIsBand(size: int, unitText: Option<string>)
    requires WalletBandOf(size) == Normal ==> unitText.Some?
    ensures WalletSizeCell(size, unitText) == BandCell(WalletBandOf(size), unitText)
    ensures WalletBandOf(size) != Normal ==> WalletSizeCell(size, unitText) == WalletSizeCell(size, None)
  {
  }

  /** The visible text of `Never`. */
  const NeverText: string := "   Never"

  /** `'\033[31m' + "   Never" + '\033[0m'`: the age of an event that never happened. */
  const Never: string := Paint(Red, NeverText)

  /**
   * The age cell of the last notarisation or the last block: `Never` when the
   * timestamp is 0, otherwise `ageText`, what `helper.sec_since` and
   * `helper.sec_to_dhms` answer (None: one of them raised), which the source
   * computes only for a non-zero timestamp.
   */
  function AgeCell(timestamp: int, ageText: Option<string>): (r: string)
    requires timestamp != 0 ==> ageText.Some?
    ensures timestamp == 0 ==> r == Never
    ensures timestamp != 0 ==> r == ageText.value
  {
    if timestamp == 0 then Never else ageText.value
  }

  /**
   * The age cell depends on the helpers' answer only for a non-zero
   * timestamp, and then only on the text they answered: a never-seen event
   * is `Never` whatever they would have said.
   */
  lemma AgeCellUsesAnswerOnlyWhenSeen(timestamp: int, x: Option<string>, y: Option<string>)
    requires timestamp != 0 ==> x.Some? && y.Some?
    ensures timestamp == 0 ==> AgeCell(timestamp, x) == AgeCell(timestamp, y) == Never
    ensures timestamp != 0 ==> (AgeCell(timestamp, x) == AgeCell(timestamp, y) <==> x.value == y.value)
  {
  }

  /**
   * The wallet balance, with `text` standing for `f"{balance:.3f}"`: red and
   * indented below 0.1, plain otherwise (stats.py:87-91).
   */
  datatype Balance = Balance(amount: real, text: string)

  function BalanceCell(b: Balance): (r: string)
    ensures b.amount < 0.1 ==> r == Paint(Red, "     " + b.text)
    ensures 0.1 <= b.amount ==> r == b.text
  {
    if b.amount < 0.1 then Paint(Red, "     " + b.text) else b.text
  }

  /**
   * A formatted number holds no escape character, so a balance cell carries
   * colour exactly when the balance is below 0.1; either way it shows the
   * whole formatted number, after five spaces of indent when it is low.
   */
  lemma BalanceCellMarksLow(b: Balance)
    requires Esc !in b.text
    ensures Esc in BalanceCell(b) <==> b.amount < 0.1
    ensures b.amount < 0.1 ==> BalanceCell(b)[|Red|..|Red| + 5 + |b.text|] == "     " + b.text
    ensures 0.1 <= b.amount ==> BalanceCell(b) == b.text
  {
    if b.amount < 0.1 {
      assert BalanceCell(b)[0] == Esc;
    }
  }
}
