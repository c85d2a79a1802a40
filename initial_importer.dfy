/** The original one-shot import (stock_data_importer.py at the repository
    root): one year of history for every listed symbol, inserted row by
    row with ON CONFLICT DO NOTHING, and a single commit at the very end
    with no error handling. */
module InitialImporter {
  import opened Common
  import opened Prices

  /** The rows one symbol contributes, or None when the call raises or a volume is NaN. */
  function TickerRows(sym: Symbol, answer: FetchOutcome): (r: Option<seq<PriceRow>>)
    ensures r.Some? ==> forall k :: k in KeysOf(r.value) ==> k.symbol == sym
  {
    match answer
    case Raised(_) => None
    case Quotes(qs) =>
      if ToRows(sym, qs).Some? then ToRowsKeys(sym, qs); ToRows(sym, qs) else None
  }

  /** The uncommitted table after every symbol in order, or None once anything raises;
      provider(sym) is the answer to the one-year history request for sym. */
  function ImportAll(table: PriceTable, tickers: seq<Symbol>, provider: Symbol -> FetchOutcome): Option<PriceTable>
    decreases |tickers|
  {
    if tickers == [] then Some(table)
    else
      match TickerRows(tickers[0], provider(tickers[0]))
      case None => None
      case Some(rows) => ImportAll(InsertAll(table, rows), tickers[1..], provider)
  }

  /** Whether the run gets through: it does not depend on what is already stored. */
  predicate AllSucceed(tickers: seq<Symbol>, provider: Symbol -> FetchOutcome) {
    forall i :: 0 <= i < |tickers| ==> TickerRows(tickers[i], provider(tickers[i])).Some?
  }

  /** The run commits exactly when every symbol's call and every row conversion succeed;
      then no stored bar is overwritten and every answered bar is present. */
  lemma {:induction false} ImportAllShape(table: PriceTable, tickers: seq<Symbol>, provider: Symbol -> FetchOutcome)
    decreases |tickers|
    ensures ImportAll(table, tickers, provider).Some? <==> AllSucceed(tickers, provider)
    ensures ImportAll(table, tickers, provider).Some? ==>
      var t := ImportAll(table, tickers, provider).value;
      && (forall k :: k in table ==> k in t && t[k] == table[k])
      && (forall i :: 0 <= i < |tickers| ==> KeysOf(TickerRows(tickers[i], provider(tickers[i])).value) <= t.Keys)
  {
    if tickers != [] {
      ImportAllShape(InsertAll(table, TickerRows(tickers[0], provider(tickers[0])).GetOr([])), tickers[1..], provider);
      if AllSucceed(tickers, provider) {
        assert TickerRows(tickers[0], provider(tickers[0])).Some?;
        assert forall i :: 1 <= i < |tickers| ==> tickers[1..][i - 1] == tickers[i];
      } else {
        var i :| 0 <= i < |tickers| && TickerRows(tickers[i], provider(tickers[i])).None?;
        if i > 0 {
          assert tickers[1..][i - 1] == tickers[i];
        }
      }
    }
  }

  /** With every answered bar already stored, the run changes nothing. */
  lemma {:induction false} ImportAllPresent(table: PriceTable, tickers: seq<Symbol>, provider: Symbol -> FetchOutcome)
    requires AllSucceed(tickers, provider)
    requires forall i :: 0 <= i < |tickers| ==> KeysOf(TickerRows(tickers[i], provider(tickers[i])).value) <= table.Keys
    decreases |tickers|
    ensures ImportAll(table, tickers, provider) == Some(table)
  {
    if tickers != [] {
      InsertAllPresent(table, TickerRows(tickers[0], provider(tickers[0])).value);
      assert forall i :: 1 <= i < |tickers| ==> tickers[1..][i - 1] == tickers[i];
      ImportAllPresent(table, tickers[1..], provider);
    }
  }

  /** Re-running with the same provider data leaves the table as the first run left it. */
  lemma RerunIdempotent(table: PriceTable, tickers: seq<Symbol>, provider: Symbol -> FetchOutcome)
    requires ImportAll(table, tickers, provider).Some?
    ensures ImportAll(ImportAll(table, tickers, provider).value, tickers, provider) == ImportAll(table, tickers, provider)
  {
    ImportAllShape(table, tickers, provider);
    ImportAllPresent(ImportAll(table, tickers, provider).value, tickers, provider);
  }

  /** How the script ends. */
  datatype RunResult = EmptySymbolTable | Aborted | Committed

  /** One symbol's rows, each converted and inserted into the open transaction in turn. */
  method InsertTicker(base: PriceTable, sym: Symbol, qs: seq<Quote>) returns (ok: bool, pending: PriceTable)
    ensures ok <==> ToRows(sym, qs).Some?
    ensures ok ==> pending == InsertAll(base, ToRows(sym, qs).value)
  {
    var done: seq<PriceRow> := [];
    pending := base;
    var j := 0;
    while j < |qs|
      invariant 0 <= j <= |qs|
      invariant ToRows(sym, qs[..j]) == Some(done)
      invariant pending == InsertAll(base, done)
    {
      var row := ToRow(sym, qs[j]);
      if row.None? {
        ToRowsFailsAt(sym, qs, j);
        return false, pending;
      }
      ToRowsPrefixStep(sym, qs, j);
      InsertAllSnoc(base, done, row.value);
      pending := InsertIfAbsent(pending, row.value);
      done := done + [row.value];
      j := j + 1;
    }
    assert qs[..j] == qs;
    ok := true;
  }

  /** The script: exit status 1 on an empty symbol table; otherwise per-row inserts
      into the open transaction and one commit, which an exception anywhere prevents. */
  method Run(store: PriceDatabase, tickers: seq<Symbol>, provider: Symbol -> FetchOutcome) returns (result: RunResult)
    modifies store
    ensures tickers == [] ==> result == EmptySymbolTable
    ensures tickers != [] ==> (result == Committed <==> ImportAll(old(store.prices), tickers, provider).Some?)
    ensures result == Committed ==> store.prices == ImportAll(old(store.prices), tickers, provider).value
    ensures result != Committed ==> store.prices == old(store.prices)
    ensures store.lastFetched == old(store.lastFetched)
  {
    if tickers == [] {
      return EmptySymbolTable;
    }
    var pending := store.prices;
    var i := 0;
    while i < |tickers|
      invariant 0 <= i <= |tickers|
      invariant store.prices == old(store.prices) && store.lastFetched == old(store.lastFetched)
      invariant ImportAll(old(store.prices), tickers, provider) == ImportAll(pending, tickers[i..], provider)
    {
      var sym := tickers[i];
      assert tickers[i..][0] == sym && tickers[i..][1..] == tickers[i + 1..];
      var answer := provider(sym);
      if answer.Raised? {
        return Aborted;
      }
      var ok, next := InsertTicker(pending, sym, answer.quotes);
      if !ok {
        return Aborted;
      }
      pending := next;
      i := i + 1;
    }
    store.prices := pending;
    return Committed;
  }
}
