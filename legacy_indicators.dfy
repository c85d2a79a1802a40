/** The earlier indicator writer (technical_indicators.py): calculate_and_store
    replaces the stored indicator rows of one symbol by the rows of the given
    frame, with a DELETE of the symbol followed by a plain INSERT of one record
    per frame row, committed together. The indicator columns themselves are
    floating-point pandas computations and arrive as given values. */
module LegacyIndicators {
  import opened Common
  import opened Prices
  import opened Indicators

  /** One frame row after the indicator columns were added; `date` is the frame index. */
  datatype FrameRow = FrameRow(date: Day, symbol: Symbol, golden: bool, dead: bool, rsi: Option<real>,
                               macd: real, signal: real)

  /** The record built for one row; this writer leaves histogram and macd_score NULL. */
  function RecordOf(row: FrameRow): (r: IndicatorRecord)
    ensures r.key == PriceKey(row.symbol, row.date)
    ensures r.values.histogram.None? && r.values.macdScore.None?
  {
    IndicatorRecord(PriceKey(row.symbol, row.date),
      StoredIndicator(row.golden, row.dead, row.rsi, row.macd, row.signal, None, None))
  }

  /** The table after `DELETE FROM technical_indicators WHERE symbol = :symbol`. */
  function DeleteSymbol(table: IndicatorTable, sym: Symbol): (t: IndicatorTable)
    ensures forall k :: k in t <==> k in table && k.symbol != sym
    ensures forall k :: k in t ==> t[k] == table[k]
  {
    map k | k in table && k.symbol != sym :: table[k]
  }

  /** A plain INSERT of all records as one statement: it fails as a whole on a key that is
      already stored or repeated within the batch. */
  predicate InsertConflicts(table: IndicatorTable, records: seq<IndicatorRecord>) {
    (exists i :: 0 <= i < |records| && records[i].key in table)
    || (exists i, j :: 0 <= i < j < |records| && records[i].key == records[j].key)
  }

  function InsertAll(table: IndicatorTable, records: seq<IndicatorRecord>): (t: IndicatorTable)
    requires !InsertConflicts(table, records)
    decreases |records|
    ensures t.Keys == table.Keys + set r | r in records :: r.key
    ensures forall k :: k in table ==> t[k] == table[k]
    ensures forall i :: 0 <= i < |records| ==> t[records[i].key] == records[i].values
  {
    if records == [] then table
    else
      var next := table[records[0].key := records[0].values];
      assert !InsertConflicts(next, records[1..]) by {
        forall i | 0 <= i < |records[1..]| ensures records[1..][i].key !in next {
          assert records[1..][i] == records[i + 1];
        }
        forall i, j | 0 <= i < j < |records[1..]| ensures records[1..][i].key != records[1..][j].key {
          assert records[1..][i] == records[i + 1] && records[1..][j] == records[j + 1];
        }
      }
      InsertAll(next, records[1..])
  }

  /** calculate_and_store on a frame and the table: an empty frame fails at `iloc[0]`, a
      database error or an insert conflict leaves the table as it was (the connection is
      closed without a commit), and otherwise the symbol of the first row is deleted and
      every record inserted. The boolean is the function's result. */
  function Replace(table: IndicatorTable, frame: seq<FrameRow>, dbFails: bool): (r: (IndicatorTable, bool))
    ensures !r.1 ==> r.0 == table
    ensures r.1 <==> |frame| > 0 && !dbFails && !InsertConflicts(DeleteSymbol(table, frame[0].symbol), Records(frame))
  {
    if |frame| == 0 || dbFails then (table, false)
    else
      var cleared := DeleteSymbol(table, frame[0].symbol);
      var records := Records(frame);
      if InsertConflicts(cleared, records) then (table, false)
      else (InsertAll(cleared, records), true)
  }

  /** The records list, one per frame row in frame order. */
  function Records(frame: seq<FrameRow>): (r: seq<IndicatorRecord>)
    ensures |r| == |frame|
    ensures forall i :: 0 <= i < |frame| ==> r[i] == RecordOf(frame[i])
  {
    seq(|frame|, i requires 0 <= i < |frame| => RecordOf(frame[i]))
  }

  /** After a successful replace of a single-symbol frame, the symbol's stored rows are
      exactly the frame's records, and every other symbol's rows are untouched. */
  lemma ReplaceIsExact(table: IndicatorTable, frame: seq<FrameRow>, dbFails: bool)
    requires Replace(table, frame, dbFails).1
    requires forall i :: 0 <= i < |frame| ==> frame[i].symbol == frame[0].symbol
    ensures var t := Replace(table, frame, dbFails).0;
      && (forall k :: k in t && k.symbol == frame[0].symbol <==> exists i :: 0 <= i < |frame| && k == PriceKey(frame[0].symbol, frame[i].date))
      && (forall i :: 0 <= i < |frame| ==> t[PriceKey(frame[i].symbol, frame[i].date)] == RecordOf(frame[i]).values)
      && (forall k :: k in table && k.symbol != frame[0].symbol ==> k in t && t[k] == table[k])
  {
    var t := Replace(table, frame, dbFails).0;
    var records := Records(frame);
    forall k | k in t && k.symbol == frame[0].symbol
      ensures exists i :: 0 <= i < |frame| && k == PriceKey(frame[0].symbol, frame[i].date)
    {
      var r :| r in records && r.key == k;
      var i :| 0 <= i < |records| && records[i] == r;
    }
    forall i | 0 <= i < |frame| ensures PriceKey(frame[0].symbol, frame[i].date) in t {
      assert records[i] in records;
    }
  }

  /** A frame whose index repeats a date can never be stored: the insert conflicts with itself. */
  lemma RepeatedDateFails(table: IndicatorTable, frame: seq<FrameRow>, dbFails: bool, i: nat, j: nat)
    requires i < j < |frame|
    requires frame[i].symbol == frame[j].symbol && frame[i].date == frame[j].date
    ensures Replace(table, frame, dbFails) == (table, false)
  {
    assert Records(frame)[i].key == Records(frame)[j].key;
  }

  /** Replacing twice with the same single-symbol frame gives the same table as once. */
  lemma ReplaceIdempotent(table: IndicatorTable, frame: seq<FrameRow>)
    requires Replace(table, frame, false).1
    requires forall i :: 0 <= i < |frame| ==> frame[i].symbol == frame[0].symbol
    ensures Replace(Replace(table, frame, false).0, frame, false) == Replace(table, frame, false)
  {
    var once := Replace(table, frame, false).0;
    var sym := frame[0].symbol;
    ReplaceIsExact(table, frame, false);
    var again := DeleteSymbol(once, sym);
    var cleared := DeleteSymbol(table, sym);
    assert again.Keys == cleared.Keys;
    assert forall k :: k in again ==> again[k] == cleared[k];
    assert again == cleared;
  }

  /** The loop that builds the records list from the frame's rows. */
  method BuildRecords(frame: seq<FrameRow>) returns (records: seq<IndicatorRecord>)
    ensures records == Records(frame)
  {
    records := [];
    for n := 0 to |frame|
      invariant records == Records(frame[..n])
    {
      assert frame[..n + 1] == frame[..n] + [frame[n]];
      records := records + [RecordOf(frame[n])];
    }
    assert frame[..|frame|] == frame;
  }

  /** calculate_and_store against the stored table. */
  method CalculateAndStore(store: IndicatorStore, frame: seq<FrameRow>, dbFails: bool) returns (ok: bool)
    modifies store
    ensures (store.rows, ok) == Replace(old(store.rows), frame, dbFails)
  {
    if |frame| == 0 || dbFails {
      return false;
    }
    var cleared := DeleteSymbol(store.rows, frame[0].symbol);
    var records := BuildRecords(frame);
    if InsertConflicts(cleared, records) {
      return false;
    }
    store.rows := InsertAll(cleared, records);
    return true;
  }
}
