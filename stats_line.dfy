/**
 * `StatsLine`: the row of one coin. The daemon's answers are inputs, one
 * `Option` per step that can raise (None: that step raised), so the row is a
 * deterministic function of them.
 */
module StatsLine {
  import opened Wrappers
  import opened Text
  import opened Thresholds

  /** One entry of `listunspent`; only its `amount` is read. */
  datatype Utxo = Utxo(amount: real)

  /** The number of entries of `unspent` whose amount is `target`. */
  function CountMatching(unspent: seq<Utxo>, target: real): (n: nat)
    ensures n <= |unspent|
  {
    if unspent == [] then 0
    else
      CountMatching(unspent[..|unspent| - 1], target)
      + (if unspent[|unspent| - 1].amount == target then 1 else 0)
  }

  function Amounts(unspent: seq<Utxo>): (r: seq<real>)
    ensures |r| == |unspent|
    ensures forall i :: 0 <= i < |r| ==> r[i] == unspent[i].amount
  {
    if unspent == [] then [] else Amounts(unspent[..|unspent| - 1]) + [unspent[|unspent| - 1].amount]
  }

  /** The count is the multiplicity of the target among the amounts. */
  lemma {:induction false} CountIsMultiplicity(unspent: seq<Utxo>, target: real)
    ensures CountMatching(unspent, target) == multiset(Amounts(unspent))[target]
  {
    if unspent != [] {
      CountIsMultiplicity(unspent[..|unspent| - 1], target);
    }
  }

  /** All entries match exactly when the count is the length; none when it is zero. */
  lemma {:induction false} CountExtremes(unspent: seq<Utxo>, target: real)
    ensures CountMatching(unspent, target) == |unspent|
        <==> forall i :: 0 <= i < |unspent| ==> unspent[i].amount == target
    ensures CountMatching(unspent, target) == 0
        <==> forall i :: 0 <= i < |unspent| ==> unspent[i].amount != target
  {
    if unspent != [] {
      var init := unspent[..|unspent| - 1];
      CountExtremes(init, target);
      assert forall i :: 0 <= i < |init| ==> init[i] == unspent[i];
    }
  }

  /** `ntx_utxo_count`: counts the unspent entries of the notarisation denomination. */
  method NtxUtxoCount(unspent: seq<Utxo>, utxoValue: real) returns (count: nat)
    ensures count == CountMatching(unspent, utxoValue)
    ensures count <= |unspent|
  {
    count := 0;
    for i := 0 to |unspent|
      invariant count == CountMatching(unspent[..i], utxoValue)
    {
      assert unspent[..i + 1][..i] == unspent[..i];
      if unspent[i].amount == utxoValue {
        count := count + 1;
      }
    }
    assert unspent[..|unspent|] == unspent;
  }

  /**
   * The first cell: the coin's name, marked " (3P)" for `KMD_3P` and for a
   * third-party coin, unchanged for any other coin.
   */
  function Label(coin: string, coins3P: set<string>): (r: string)
    ensures coin == "KMD_3P" || coin in coins3P ==> |r| >= 5 && r[|r| - 5..] == " (3P)"
    ensures coin != "KMD_3P" ==> |coin| <= |r| && r[..|coin|] == coin
    ensures coin != "KMD_3P" && coin !in coins3P ==> r == coin
  {
    if coin == "KMD_3P" then "KMD (3P)"
    else if coin in coins3P then coin + " (3P)"
    else coin
  }

  /** The one-cell row returned when any step raised: it names the coin after 24 characters. */
  function ErrorMessage(coin: string): (r: string)
    ensures |r| == |coin| + 40
    ensures r[24..24 + |coin|] == coin
  {
    "Error getting stats for " + coin + ". Is it running?"
  }

  /** `helper.get_ntx_stats`: the notarisation count and the time of the last one (0: never). */
  datatype NtxStats = NtxStats(count: int, lastNtxTime: int)

  /**
   * What the daemon and the foreign helpers answer during one `get`. Each
   * `Option` is a step that may raise (None: it raised); the strings are
   * renderings by helpers that are not part of this model (elapsed-time and
   * byte-unit formatting, the latency's `:.4f`).
   */
  datatype Answers = Answers(
    transactions: Option<nat>,        // listtransactions(), by its length
    ntxStats: Option<NtxStats>,       // helper.get_ntx_stats(wallet_tx, coin)
    ntxAge: Option<string>,           // sec_to_dhms(sec_since(last_ntx_time))
    utxoValue: Option<real>,          // helper.get_utxo_value(coin)
    unspent: Option<seq<Utxo>>,       // listunspent()
    balance: Option<Balance>,         // getbalance(), with its ":.3f" text
    blockCount: Option<int>,          // getblockcount()
    lastBlockTime: Option<int>,       // last_block_time(block_count)
    blockAge: Option<string>,         // sec_to_dhms(sec_since(t), True, 600, 1800, 7200)
    connections: Option<int>,         // getnetworkinfo()["connections"]
    walletSize: Option<int>,          // os.path.getsize(get_wallet_path(coin))
    sizeText: Option<string>,         // helper.bytes_to_unit(filesize)
    latency: Option<string>           // rpc("listunspent") round trip, as ":.4f"
  )

  /**
   * No step raised: every daemon call answered, and so did every helper on
   * the path that calls it (the elapsed-time helpers only for a non-zero
   * timestamp, `bytes_to_unit` only in its size band).
   */
  predicate Answered(a: Answers)
  {
    && a.transactions.Some? && a.ntxStats.Some?
    && (a.ntxStats.value.lastNtxTime != 0 ==> a.ntxAge.Some?)
    && a.utxoValue.Some? && a.unspent.Some? && a.balance.Some? && a.blockCount.Some?
    && a.lastBlockTime.Some? && (a.lastBlockTime.value != 0 ==> a.blockAge.Some?)
    && a.connections.Some?
    && a.walletSize.Some? && (WalletBandOf(a.walletSize.value) == Normal ==> a.sizeText.Some?)
    && a.latency.Some?
  }

  /** The number of columns of the table, and of every complete row. */
  const ColumnCount: nat := 11

  /** The row `get` returns for these answers. */
  function Row(coin: string, coins3P: set<string>, a: Answers): seq<string>
  {
    if !Answered(a) then [ErrorMessage(coin)]
    else
      [ Label(coin, coins3P),
        IntToString(a.ntxStats.value.count),
        AgeCell(a.ntxStats.value.lastNtxTime, a.ntxAge),
        UtxoCell(CountMatching(a.unspent.value, a.utxoValue.value)),
        BalanceCell(a.balance.value),
        IntToString(a.blockCount.value),
        AgeCell(a.lastBlockTime.value, a.blockAge),
        IntToString(a.connections.value),
        WalletSizeCell(a.walletSize.value, a.sizeText),
        IntToString(a.transactions.value),
        a.latency.value ]
  }

  /**
   * A row has one cell per column exactly when no step raised, and is the
   * single error message exactly when one did; the two never coincide.
   */
  lemma RowShape(coin: string, coins3P: set<string>, a: Answers)
    ensures Answered(a) <==> |Row(coin, coins3P, a)| == ColumnCount
    ensures !Answered(a) <==> Row(coin, coins3P, a) == [ErrorMessage(coin)]
    ensures |Row(coin, coins3P, a)| == 1 <==> !Answered(a)
  {
  }

  /** The cells of a complete row, in the table's column order. */
  lemma RowCells(coin: string, coins3P: set<string>, a: Answers)
    requires Answered(a)
    ensures var row := Row(coin, coins3P, a);
      && row[0] == Label(coin, coins3P)
      && row[3] == UtxoCell(multiset(Amounts(a.unspent.value))[a.utxoValue.value])
      && row[9] == IntToString(a.transactions.value)
  {
    CountIsMultiplicity(a.unspent.value, a.utxoValue.value);
  }

  /** The label: "KMD (3P)" for KMD_3P, "<coin> (3P)" for a third-party coin, else the coin. */
  lemma LabelCases(coin: string, coins3P: set<string>)
    ensures coin == "KMD_3P" ==> Label(coin, coins3P) == "KMD (3P)"
    ensures coin != "KMD_3P" && coin in coins3P ==> Label(coin, coins3P) == coin + " (3P)"
    ensures coin != "KMD_3P" && coin !in coins3P ==> Label(coin, coins3P) == coin
  {
  }

  /**
   * `StatsLine.get`: starts the row with the label, appends one cell per
   * step and gives up with the error row at the first step that raises.
   */
  method Get(coin: string, coins3P: set<string>, a: Answers) returns (row: seq<string>)
    ensures row == Row(coin, coins3P, a)
    ensures |row| == 1 || |row| == ColumnCount
  {
    row := [Label(coin, coins3P)];
    if a.transactions.None? || a.ntxStats.None? {
      return [ErrorMessage(coin)];
    }
    var stats := a.ntxStats.value;
    row := row + [IntToString(stats.count)];
    if stats.lastNtxTime != 0 && a.ntxAge.None? {
      return [ErrorMessage(coin)];
    }
    row := row + [AgeCell(stats.lastNtxTime, a.ntxAge)];
    if a.utxoValue.None? || a.unspent.None? {
      return [ErrorMessage(coin)];
    }
    var count := NtxUtxoCount(a.unspent.value, a.utxoValue.value);
    row := row + [UtxoCell(count)];
    if a.balance.None? {
      return [ErrorMessage(coin)];
    }
    row := row + [BalanceCell(a.balance.value)];
    if a.blockCount.None? {
      return [ErrorMessage(coin)];
    }
    row := row + [IntToString(a.blockCount.value)];
    if a.lastBlockTime.None? || (a.lastBlockTime.value != 0 && a.blockAge.None?) {
      return [ErrorMessage(coin)];
    }
    row := row + [AgeCell(a.lastBlockTime.value, a.blockAge)];
    if a.connections.None? {
      return [ErrorMessage(coin)];
    }
    row := row + [IntToString(a.connections.value)];
    if a.walletSize.None? || (WalletBandOf(a.walletSize.value) == Normal && a.sizeText.None?) {
      return [ErrorMessage(coin)];
    }
    row := row + [WalletSizeCell(a.walletSize.value, a.sizeText)];
    row := row + [IntToString(a.transactions.value)];
    if a.latency.None? {
      return [ErrorMessage(coin)];
    }
    row := row + [a.latency.value];
  }
}
