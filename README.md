# Dashboard statistics table, modelled in Dafny

This project models the core of `stats.py` from a terminal dashboard for blockchain daemons. That core has two parts:

- `StatsLine` collects one row of health metrics per coin.
- `Stats` lays those rows out as a fixed-width table.

The model covers:

- **Threshold ladders** (module `Thresholds`). These turn a notarisation-UTXO count, a wallet-file size, a balance or an event timestamp into the raw cell string the source builds. Colour escapes are opaque prefix and suffix strings (`Paint`).
- **The row of one coin** (module `StatsLine`). The daemon's answers are inputs, with `None` marking a step that raised. `ntx_utxo_count` is a counting loop proved against `CountMatching`. `get` is a method that appends cell by cell, proved against the specification function `Row`. Its row has exactly 11 cells when every step answered, and is the single error message otherwise.
- **The table layout** (module `StatsTable`):
  - `format_line` is a loop that builds the line, with exact raw-length arithmetic. The first cell is left-justified and the others are right-justified. No cell is ever cut.
  - `table_width`, `spacer` and `format_errors`, with CPython's `str.center` rounding.
  - The header is as long as the spacer.
  - `show` routes one-cell rows to `format_errors`.
  - Class `Stats` sorts the caller's coin list in place, with an insertion sort proved to give the unique sorted permutation.
- **Python string helpers** (modules `Text`, `Ordering`): `ljust`, `rjust`, `center`, `"-" * n`, `str(int)` and string ordering.

All lengths are raw lengths, escapes included, because that is what the source pads.

Three behaviours of `stats.py` that the model keeps as written:

- A failed coin gives a one-element row holding the error message (stats.py:119), which `show` centres across the table.
- UTXO counts 10..40 and 41..100 are coloured and padded alike: both rungs are bright green with four spaces (stats.py:81-84).
- A wallet smaller than 1 MiB is shown as yellow `    > 1M` (stats.py:45-46).

## Model

| member | source | states |
|---|---|---|
| Text.Repeat | stats.py:148 | `c * n` has max(n, 0) characters |
| Text.RepeatAll | stats.py:148 | every character of `c * n` is c |
| Text.LJust | stats.py:139 | `ljust` yields max(w, len(s)) characters |
| Text.LJustShape | stats.py:139 | `ljust` keeps all of s at the front and fills only with spaces after it |
| Text.RJust | stats.py:141 | `rjust` yields max(w, len(s)) characters |
| Text.RJustShape | stats.py:141 | `rjust` puts only spaces in front and keeps all of s at the end |
| Text.CenterLeft | stats.py:151 | CPython's left margin for `center` is within the total margin, and the left and right margins differ by at most one |
| Text.Center | stats.py:151 | `center` yields max(w, len(s)) characters |
| Text.CenterShape | stats.py:151 | `center` puts the left margin of spaces, then the whole of s, then only spaces |
| Text.IntToString | stats.py:62 | `str(n)` is at least one character, starts with `-` exactly when n is negative, is otherwise all decimal digits, and has no leading zero unless it is `0` |
| Text.IntToStringRoundTrip | stats.py:62 | `str(n)` of an int reads back as n |
| Ordering.Le | stats.py:126 | a prefix of a string is ordered before it, and two non-empty strings in order have their first characters in order |
| Ordering.LexIsLe | stats.py:126 | after a common prefix, the string with the smaller code point at the first difference is ordered first |
| Ordering.LeTotal | stats.py:126 | Python's string order is total |
| Ordering.LeTransitive | stats.py:126 | Python's string order is transitive |
| Ordering.LeAntisymmetric | stats.py:126 | strings ordered both ways are equal |
| Ordering.SortedUnique | stats.py:126 | two sorted permutations of the same coins are the same list, so the sort's result is fully determined |
| Ordering.Sort | stats.py:126 | the in-place sort leaves the array sorted and a permutation of its old contents |
| Thresholds.Paint | stats.py:76 | a coloured cell is as long as the escape, the text and the reset together, and holds the whole text right after the escape |
| Thresholds.PaintFrame | stats.py:76 | a coloured cell starts with the colour's escape and ends with the reset escape |
| Thresholds.UtxoCell | stats.py:75-85 | below 5: red with 5 spaces; 5..9: yellow with 5 spaces; 10..100: bright green with 4 spaces; above 100: red `> 100`. The fall-through rung is never taken |
| Thresholds.UtxoCellIsBucket | stats.py:75-84 | the cell is its range's colour around its range's text, and it starts with red exactly for counts below 5 or above 100, with yellow exactly for 5..9 and with bright green exactly for 10..100 |
| Thresholds.UtxoUpperRungsAgree | stats.py:81-84 | the `> 40` and `>= 10` rungs produce the same bright-green cell |
| Thresholds.UtxoTextWidth | stats.py:75-84 | the visible text is 6 characters for counts 0..99, 7 for 100 and 5 above 100 |
| Thresholds.WalletSizeCell | stats.py:41-48 | above 10485760: red `   > 10M`; above 5242880: yellow `    > 5M`; below 1048576: yellow `    > 1M`; otherwise the text `bytes_to_unit` answered, which is needed only in that band |
| Thresholds.WalletSizeCellIsBand | stats.py:41-48 | the size ladder gives the cell of the size's band, and outside the middle band the cell does not depend on `bytes_to_unit` |
| Thresholds.AgeCellUsesAnswerOnlyWhenSeen | stats.py:64-70 | a zero timestamp shows red `   Never` whatever the elapsed-time helpers would answer; any other timestamp shows their answer, and two answers give the same cell only when they are the same text |
| Thresholds.BalanceCellMarksLow | stats.py:87-91 | since a formatted number holds no escape character, the cell carries colour exactly when the balance is below 0.1; a low balance shows 5 spaces and the whole number after the escape, any other shows just the number |
| StatsLine.CountMatching | stats.py:27-32 | the count of matching entries never exceeds the list's length |
| StatsLine.CountIsMultiplicity | stats.py:28-32 | the count equals how often the target amount occurs among the amounts |
| StatsLine.CountExtremes | stats.py:28-32 | the count is the length iff every entry matches, and 0 iff none does |
| StatsLine.NtxUtxoCount | stats.py:25-32 | the loop returns the number of entries whose amount equals the target, at most the list's length |
| StatsLine.Label | stats.py:51-56 | a `KMD_3P` or third-party label ends in ` (3P)`; any other coin's label starts with the coin's name, and is just that name for a coin that is not third-party |
| StatsLine.ErrorMessage | stats.py:119 | the error message is 40 characters longer than the coin's name and holds the name from position 24 |
| StatsLine.RowShape | stats.py:57-120 | a row has 11 cells iff every step answered, helpers included on the paths that call them; it is the single error message iff some step raised; it has one cell iff some step raised |
| StatsLine.RowCells | stats.py:50-111 | a complete row starts with the label, its UTXO cell classifies the target's multiplicity, and its NUMTX cell is the number of wallet transactions |
| StatsLine.LabelCases | stats.py:51-56 | `KMD_3P` gives `KMD (3P)`, another third-party coin gives `<coin> (3P)`, any other coin gives its own name |
| StatsLine.Get | stats.py:50-120 | appending cell by cell and stopping at the first step that raises (a daemon call or a helper on its path) gives exactly `Row`, with 1 or 11 cells |
| StatsTable.SumSnoc | stats.py:133 | extending a prefix of the widths by one width adds that width to the prefix's sum |
| StatsTable.CellJustified | stats.py:138-141 | each cell is max(width, len(text)) + 2 long and ends in ` |`. Cell 0 is its whole text then spaces; every other cell is spaces then its whole text |
| StatsTable.CellsLength | stats.py:136-141 | the cells so far are as long as their padded widths plus 2 per cell |
| StatsTable.LineLayout | stats.py:135-142 | a line starts with ` | `, is 3 + the sum of max(width, len(text)) + 2 * len(row) long, and holds cell i at its offset |
| StatsTable.Spacer | stats.py:147-148 | the spacer is a space then `table_width` dashes, so it is `table_width + 1` long |
| StatsTable.FormatErrors | stats.py:150-151 | the error line is max(table_width - 4, len(message)) + 4 long, so exactly `table_width` when the message fits in `table_width - 4` |
| StatsTable.FormatErrorsLayout | stats.py:150-151 | the error line is `| `, left spaces, the whole message, right spaces, ` |`, and the two paddings differ by at most one |
| StatsTable.HeaderMatchesSpacer | stats.py:133-148 | when every header fits its column, the header line is as long as the spacer, `table_width + 1` |
| StatsTable.DefaultWidthsSum | stats.py:128 | the default column widths add up to 90 |
| StatsTable.DefaultColumnsFit | stats.py:128-132 | there is one default column name per column, and each fits its column's width |
| StatsTable.DefaultLayout | stats.py:128-133 | the default widths give a table width of 114 and a 115-character spacer, with 11 columns whose names fit them |
| StatsTable.NeverFillsAgeColumns | stats.py:128-132 | the visible `   Never` text is exactly as wide as the LASTNTX and LASTBLK columns |
| StatsTable.DefaultErrorLines | stats.py:150-151 | in the default layout every error message of up to 110 characters gives a 114-character error line |
| StatsTable.RenderRowRoutes | stats.py:159-164 | a coin whose steps all answered is printed with `format_line`; a failed one is printed as the coloured `format_errors` line of its error message |
| StatsTable.Stats.constructor | stats.py:124-133 | the caller's coin list is sorted in place as a permutation of itself, and the default layout is set up with width 114 |
| StatsTable.Stats.FormatLine | stats.py:135-142 | the loop builds exactly `Line`, whose length is 3 + the padded widths + 2 * len(row) |
| StatsTable.Stats.Header | stats.py:144-145 | the header is the column names laid out as a line, as long as the spacer |
| StatsTable.Stats.ShowCoin | stats.py:158-164 | one coin's line is its row laid out by `format_line`, or, for a one-cell row, the coloured `format_errors` line |
| StatsTable.Stats.ShowCoins | stats.py:157-164 | the loop gives one line per coin, in list order, each the coin's row routed to `format_line` or `format_errors` |
| StatsTable.Stats.Show | stats.py:153-168 | the output is a blank line, the header, the spacer, one routed line per coin in list order, the spacer, and the right-aligned time stamp |

## Left out

- Daemon RPC calls are not modelled as calls. This covers `listtransactions`, `listunspent`, `getbalance`, `getblockcount`, `last_block_time`, `getnetworkinfo`, the `rpc("listunspent")` probe, and `StatsLine.last_block_time` (`getbestblockhash`, `getblock`). They are network I/O, so their results are fields of `Answers`, and `None` stands for an exception.
- Exceptions from indexing an answer (`ntx_stats[0]`, `networkinfo["connections"]`) are folded into the `None` of the step that produced it.
- Foreign helpers are inputs whose code is not part of this model:
  - `helper.get_ntx_stats`, `get_utxo_value` and `get_wallet_path` are `Answers` fields.
  - The texts of `helper.sec_since` + `sec_to_dhms` and of `bytes_to_unit` are `Option` fields of `Answers`. `None` means the helper raised, and it counts only on the path where the source calls the helper.
  - `const.COINS_3P` is the `coins3P` parameter.
  - `ColorMsg.colorize(_, "lightred")` is the `lightRed` function parameter.
- `os.path.getsize`, `time.perf_counter` and `datetime.now` are environment and clock. Their values are inputs: the wallet size, the latency text and `now`.
- StatsTable.Stats.Show: assumes that building `StatsLine(self.col_widths, coin)` does not raise (stats.py:158, which builds a `DaemonRPC` at stats.py:17). That call is outside `get`'s `try`, so in the source an exception there stops `show` with no further lines, and the model does not capture that.
- `Row`, `TableWidth`, `Line` and `RenderRow` carry no contract of their own. Their properties are stated by `RowShape` and `RowCells`, by `DefaultLayout` and `HeaderMatchesSpacer`, by `LineLayout`, and by `RenderRowRoutes`. These functions unfold at every use inside `Show`, and contracts on them make the proof of `Show` too expensive.
- `AgeCell` and `BalanceCell` carry only the source's choice between two texts as their contract. What they promise is stated by `AgeCellUsesAnswerOnlyWhenSeen`, `NeverFillsAgeColumns` and `BalanceCellMarksLow`.
- `print` is output. `Show` returns the printed lines instead.
- Floating-point formatting (`:.3f`, `:.4f`) is not modelled. Its texts are inputs.
- Balances and UTXO amounts are exact reals, not IEEE doubles. The `< 0.1` test and the `amount == utxo_value` comparison are therefore exact.
- The overwritten `utxo_value` parameter and the unused `last_mined` are dead data. They are not modelled.
- `StatsLine` is not a class: its fields are set once in `__init__` and never updated, so its members take the coin as a parameter.
- `Stats.spacer` and `Stats.format_errors` read only `table_width`. They are functions of it (`Spacer`, `FormatErrors`), which `Show` applies to the object's `tableWidth`.
- The interactive refresh loop (timed wait for operator input, refresh and quit commands) is not part of this model. Its code is not in `stats.py`.
- Visible-width alignment is not claimed. The source pads raw strings, escapes included. `UtxoTextWidth` shows that the UTXO text is 7 characters wide for exactly 100 and 5 above 100, while the column is 6 wide.
