/** Technical-indicator logic (backend/technical_indicators.py): the golden and
    dead cross predicates over the short and long moving averages, the bounded
    MACD score, the per-symbol scoring pass over date-ordered rows and the
    batch upsert into `technical_indicators`. The moving averages, RSI and
    MACD series themselves are floating-point pandas computations and are
    taken as given values here; a NaN entry is None. */
module Indicators {
  import opened Common
  import opened Prices

  /** The short and long moving average on one row; None is NaN (not enough history yet). */
  datatype MaPoint = MaPoint(short: Option<real>, long: Option<real>)

  /** Every pandas comparison with a NaN operand is False. */
  predicate Above(p: MaPoint) {
    p.short.Some? && p.long.Some? && p.short.value > p.long.value
  }

  predicate Below(p: MaPoint) {
    p.short.Some? && p.long.Some? && p.short.value < p.long.value
  }

  predicate AtOrBelow(p: MaPoint) {
    p.short.Some? && p.long.Some? && p.short.value <= p.long.value
  }

  predicate AtOrAbove(p: MaPoint) {
    p.short.Some? && p.long.Some? && p.short.value >= p.long.value
  }

  /** `shift(1)` gives NaN on the first row, so no cross is ever reported there. */
  predicate GoldenAt(ma: seq<MaPoint>, i: nat)
    requires i < |ma|
  {
    i > 0 && Above(ma[i]) && AtOrBelow(ma[i - 1])
  }

  predicate DeadAt(ma: seq<MaPoint>, i: nat)
    requires i < |ma|
  {
    i > 0 && Below(ma[i]) && AtOrAbove(ma[i - 1])
  }

  /** calculate_crosses: the two boolean columns, one entry per row. */
  function Crosses(ma: seq<MaPoint>): (r: (seq<bool>, seq<bool>))
    ensures |r.0| == |ma| && |r.1| == |ma|
    ensures forall i :: 0 <= i < |ma| ==> (r.0[i] <==> GoldenAt(ma, i)) && (r.1[i] <==> DeadAt(ma, i))
  {
    (seq(|ma|, i requires 0 <= i < |ma| => GoldenAt(ma, i)),
     seq(|ma|, i requires 0 <= i < |ma| => DeadAt(ma, i)))
  }

  /** A row is never both a golden and a dead cross, and a golden cross is never
      followed directly by another one (nor a dead cross by a dead cross). */
  lemma CrossesExclusive(ma: seq<MaPoint>, i: nat)
    requires i < |ma|
    ensures !(Crosses(ma).0[i] && Crosses(ma).1[i])
    ensures i + 1 < |ma| ==> !(Crosses(ma).0[i] && Crosses(ma).0[i + 1])
    ensures i + 1 < |ma| ==> !(Crosses(ma).1[i] && Crosses(ma).1[i + 1])
  {
  }

  /** A golden cross is exactly the short average moving from at-or-below to strictly above. */
  lemma GoldenIsUpwardCrossing(ma: seq<MaPoint>, i: nat)
    requires 0 < i < |ma|
    requires forall j :: 0 <= j < |ma| ==> ma[j].short.Some? && ma[j].long.Some?
    ensures Crosses(ma).0[i] <==> !Above(ma[i - 1]) && Above(ma[i])
    ensures Crosses(ma).1[i] <==> !Below(ma[i - 1]) && Below(ma[i])
  {
  }

  /** calculate_macd_score: 3 for a golden cross, 2 for a rising histogram (or, with no
      previous value, 1 for a positive one), and 1 more for a positive histogram. */
  function MacdScore(golden: bool, histogram: real, previous: Option<real>): (score: int)
    ensures 0 <= score <= 6
    ensures previous.None? ==> score <= 5
    ensures golden ==> score >= 3
    ensures !golden ==> score <= 3
    ensures histogram <= 0.0 && previous.None? ==> score == (if golden then 3 else 0)
  {
    var cross := if golden then 3 else 0;
    var trend := match previous
      case Some(p) => if histogram > p then 2 else 0
      case None => if histogram > 0.0 then 1 else 0;
    cross + trend + (if histogram > 0.0 then 1 else 0)
  }

  /** The golden cross is worth exactly 3 whatever the histogram says. */
  lemma GoldenAddsThree(histogram: real, previous: Option<real>)
    ensures MacdScore(true, histogram, previous) == MacdScore(false, histogram, previous) + 3
  {
  }

  /** The histogram terms: with a previous value the trend term is 2 iff the histogram
      rose; without one the positivity of the histogram counts twice. */
  lemma HistogramTerms(golden: bool, histogram: real, previous: Option<real>)
    ensures previous.Some? ==>
      MacdScore(golden, histogram, previous) - MacdScore(golden, histogram, None)
        == (if histogram > previous.value then 2 else 0) - (if histogram > 0.0 then 1 else 0)
    ensures MacdScore(golden, histogram, None) == (if golden then 3 else 0) + (if histogram > 0.0 then 2 else 0)
  {
  }

  /** One computed row of a symbol: its date and indicator values. */
  datatype IndicatorRow = IndicatorRow(date: Day, golden: bool, dead: bool, rsi: Option<real>,
                                       macd: real, signal: real, histogram: real)

  /** The previous row's histogram, None on the first row. */
  function PreviousHistogram(series: seq<IndicatorRow>, i: nat): (p: Option<real>)
    requires i < |series|
    ensures p.None? <==> i == 0
    ensures i > 0 ==> p == Some(series[i - 1].histogram)
  {
    if i > 0 then Some(series[i - 1].histogram) else None
  }

  function ScoreOf(series: seq<IndicatorRow>, i: nat): (score: int)
    requires i < |series|
    ensures 0 <= score <= 6
    ensures i == 0 ==> score <= 5
  {
    MacdScore(series[i].golden, series[i].histogram, PreviousHistogram(series, i))
  }

  /** No later row of the series has the same date as row i. */
  predicate LastOfDate(series: seq<IndicatorRow>, i: nat)
    requires i < |series|
  {
    forall j :: i < j < |series| ==> series[j].date != series[i].date
  }

  /** The dates the first n rows of a symbol's series write to. */
  function KeysUpTo(sym: Symbol, series: seq<IndicatorRow>, n: nat): set<PriceKey>
    requires n <= |series|
  {
    set j | 0 <= j < n :: PriceKey(sym, series[j].date)
  }

  function SeriesKeys(sym: Symbol, series: seq<IndicatorRow>): set<PriceKey> {
    KeysUpTo(sym, series, |series|)
  }

  lemma KeysUpToNext(sym: Symbol, series: seq<IndicatorRow>, n: nat)
    requires n < |series|
    ensures KeysUpTo(sym, series, n + 1) == KeysUpTo(sym, series, n) + {PriceKey(sym, series[n].date)}
  {
  }

  /** No row of the series in (j, n) has the date of row j. */
  predicate LastBefore(series: seq<IndicatorRow>, j: nat, n: nat)
    requires j < n <= |series|
  {
    forall l :: j < l < n ==> series[l].date != series[j].date
  }

  /** One turn of the scoring loop keeps its three invariants. */
  lemma ScoreStep(column: map<PriceKey, int>, current: map<PriceKey, int>, next: map<PriceKey, int>,
                  sym: Symbol, series: seq<IndicatorRow>, i: nat)
    requires i < |series|
    requires next == current[PriceKey(sym, series[i].date) := ScoreOf(series, i)]
    requires current.Keys == column.Keys + KeysUpTo(sym, series, i)
    requires forall k :: k in column && k !in KeysUpTo(sym, series, i) ==> current[k] == column[k]
    requires forall j :: 0 <= j < i && LastBefore(series, j, i) ==>
      current[PriceKey(sym, series[j].date)] == ScoreOf(series, j)
    ensures next.Keys == column.Keys + KeysUpTo(sym, series, i + 1)
    ensures forall k :: k in column && k !in KeysUpTo(sym, series, i + 1) ==> next[k] == column[k]
    ensures forall j :: 0 <= j < i + 1 && LastBefore(series, j, i + 1) ==>
      next[PriceKey(sym, series[j].date)] == ScoreOf(series, j)
  {
    KeysUpToNext(sym, series, i);
    ScoreStepUntouched(column, current, next, sym, series, i);
    ScoreStepScores(current, next, sym, series, i);
  }

  /** The write of row i leaves every cell outside the first i + 1 dates alone. */
  lemma ScoreStepUntouched(column: map<PriceKey, int>, current: map<PriceKey, int>, next: map<PriceKey, int>,
                           sym: Symbol, series: seq<IndicatorRow>, i: nat)
    requires i < |series|
    requires next == current[PriceKey(sym, series[i].date) := ScoreOf(series, i)]
    requires current.Keys == column.Keys + KeysUpTo(sym, series, i)
    requires forall k :: k in column && k !in KeysUpTo(sym, series, i) ==> current[k] == column[k]
    ensures forall k :: k in column && k !in KeysUpTo(sym, series, i + 1) ==> next[k] == column[k]
  {
    KeysUpToNext(sym, series, i);
    forall k | k in column && k !in KeysUpTo(sym, series, i + 1)
      ensures next[k] == column[k]
    {
      assert k != PriceKey(sym, series[i].date) && k !in KeysUpTo(sym, series, i);
    }
  }

  /** After the write of row i, each of the first i + 1 rows that is the last of its date
      so far holds its own score. */
  lemma ScoreStepScores(current: map<PriceKey, int>, next: map<PriceKey, int>,
                        sym: Symbol, series: seq<IndicatorRow>, i: nat)
    requires i < |series|
    requires next == current[PriceKey(sym, series[i].date) := ScoreOf(series, i)]
    requires KeysUpTo(sym, series, i) <= current.Keys
    requires forall j :: 0 <= j < i && LastBefore(series, j, i) ==>
      current[PriceKey(sym, series[j].date)] == ScoreOf(series, j)
    ensures forall j :: 0 <= j < i + 1 && LastBefore(series, j, i + 1) ==>
      next[PriceKey(sym, series[j].date)] == ScoreOf(series, j)
  {
    forall j | 0 <= j < i + 1 && LastBefore(series, j, i + 1)
      ensures next[PriceKey(sym, series[j].date)] == ScoreOf(series, j)
    {
      var key := PriceKey(sym, series[j].date);
      if j < i {
        assert series[i].date != series[j].date;
        assert LastBefore(series, j, i);
        assert key in current.Keys by {
          assert key in KeysUpTo(sym, series, i);
        }
        assert key != PriceKey(sym, series[i].date);
        assert next[key] == current[key];
      }
    }
  }

  /** The inner scoring loop of calculate_indicators for one symbol, its rows in date order:
      each row's score is written to the `macd_score` cell of (symbol, date). When two rows
      share a date the later write wins. Nothing outside this symbol's dates changes. */
  method ScoreSymbol(column: map<PriceKey, int>, sym: Symbol, series: seq<IndicatorRow>)
    returns (column': map<PriceKey, int>)
    ensures column'.Keys == column.Keys + SeriesKeys(sym, series)
    ensures forall k :: k in column && k !in SeriesKeys(sym, series) ==> column'[k] == column[k]
    ensures forall i :: 0 <= i < |series| && LastOfDate(series, i) ==>
      column'[PriceKey(sym, series[i].date)] == ScoreOf(series, i)
  {
    column' := column;
    for i := 0 to |series|
      invariant column'.Keys == column.Keys + KeysUpTo(sym, series, i)
      invariant forall k :: k in column && k !in KeysUpTo(sym, series, i) ==> column'[k] == column[k]
      invariant forall j :: 0 <= j < i && LastBefore(series, j, i) ==>
        column'[PriceKey(sym, series[j].date)] == ScoreOf(series, j)
    {
      var previous := if i > 0 then Some(series[i - 1].histogram) else None;
      var score := MacdScore(series[i].golden, series[i].histogram, previous);
      assert score == ScoreOf(series, i);
      var next := column'[PriceKey(sym, series[i].date) := score];
      ScoreStep(column, column', next, sym, series, i);
      column' := next;
    }
    forall i | 0 <= i < |series| && LastOfDate(series, i)
      ensures column'[PriceKey(sym, series[i].date)] == ScoreOf(series, i)
    {
      assert LastBefore(series, i, |series|);
    }
  }

  /** The outer loop over the frame's distinct symbols, each with its rows in date order:
      every row that is the last of its date gets its own score, and no other cell is written. */
  method ScoreAll(groups: seq<(Symbol, seq<IndicatorRow>)>) returns (column: map<PriceKey, int>)
    requires forall a, b :: 0 <= a < b < |groups| ==> groups[a].0 != groups[b].0
    ensures forall k :: k in column <==> exists g :: 0 <= g < |groups| && k in SeriesKeys(groups[g].0, groups[g].1)
    ensures forall g, i :: 0 <= g < |groups| && 0 <= i < |groups[g].1| && LastOfDate(groups[g].1, i) ==>
      column[PriceKey(groups[g].0, groups[g].1[i].date)] == ScoreOf(groups[g].1, i)
  {
    column := map[];
    for n := 0 to |groups|
      invariant forall k :: k in column <==> exists g :: 0 <= g < n && k in SeriesKeys(groups[g].0, groups[g].1)
      invariant forall g, i :: 0 <= g < n && 0 <= i < |groups[g].1| && LastOfDate(groups[g].1, i) ==>
        column[PriceKey(groups[g].0, groups[g].1[i].date)] == ScoreOf(groups[g].1, i)
    {
      var before := column;
      column := ScoreSymbol(column, groups[n].0, groups[n].1);
      forall g, i | 0 <= g < n && 0 <= i < |groups[g].1| && LastOfDate(groups[g].1, i)
        ensures column[PriceKey(groups[g].0, groups[g].1[i].date)] == ScoreOf(groups[g].1, i)
      {
        var k := PriceKey(groups[g].0, groups[g].1[i].date);
        assert k in SeriesKeys(groups[g].0, groups[g].1);
        assert k !in SeriesKeys(groups[n].0, groups[n].1);
      }
    }
  }

  /** A `technical_indicators` row without its key; the score and histogram columns are
      NULL (None) when the writer leaves them out. */
  datatype StoredIndicator = StoredIndicator(golden: bool, dead: bool, rsi: Option<real>, macd: real,
                                             signal: real, histogram: Option<real>, macdScore: Option<int>)

  type IndicatorTable = map<PriceKey, StoredIndicator>

  datatype IndicatorRecord = IndicatorRecord(key: PriceKey, values: StoredIndicator)

  /** INSERT ... ON CONFLICT (symbol, date) DO UPDATE of all seven indicator columns, record by record. */
  function UpsertAll(table: IndicatorTable, records: seq<IndicatorRecord>): (t: IndicatorTable)
    decreases |records|
    ensures t.Keys == table.Keys + set r | r in records :: r.key
  {
    if records == [] then table
    else UpsertAll(table[records[0].key := records[0].values], records[1..])
  }

  /** A record's values are what is stored under its key when no later record has that key;
      keys no record mentions keep their row. */
  lemma {:induction false} UpsertAllLastWins(table: IndicatorTable, records: seq<IndicatorRecord>, i: nat)
    requires i < |records|
    requires forall j :: i < j < |records| ==> records[j].key != records[i].key
    decreases |records|
    ensures UpsertAll(table, records)[records[i].key] == records[i].values
  {
    if i == 0 {
      UpsertAllKeeps(table[records[0].key := records[0].values], records[1..], records[0].key);
    } else {
      UpsertAllLastWins(table[records[0].key := records[0].values], records[1..], i - 1);
    }
  }

  lemma {:induction false} UpsertAllKeeps(table: IndicatorTable, records: seq<IndicatorRecord>, k: PriceKey)
    requires k in table
    requires forall j :: 0 <= j < |records| ==> records[j].key != k
    decreases |records|
    ensures UpsertAll(table, records)[k] == table[k]
  {
    if records != [] {
      UpsertAllKeeps(table[records[0].key := records[0].values], records[1..], k);
    }
  }

  /** Storing the same batch twice leaves the table as storing it once. */
  lemma UpsertAllIdempotent(table: IndicatorTable, records: seq<IndicatorRecord>)
    ensures UpsertAll(UpsertAll(table, records), records) == UpsertAll(table, records)
  {
    var once := UpsertAll(table, records);
    var twice := UpsertAll(once, records);
    forall k | k in twice ensures k in once && twice[k] == once[k] {
      if j :| 0 <= j < |records| && records[j].key == k {
        var last := LastIndexOf(records, k, j);
        UpsertAllLastWins(table, records, last);
        UpsertAllLastWins(once, records, last);
      } else {
        UpsertAllKeeps(once, records, k);
      }
    }
  }

  /** The last index carrying key k, at or after a known one. */
  function LastIndexOf(records: seq<IndicatorRecord>, k: PriceKey, j: nat): (last: nat)
    requires j < |records| && records[j].key == k
    decreases |records| - j
    ensures j <= last < |records| && records[last].key == k
    ensures forall l :: last < l < |records| ==> records[l].key != k
  {
    if exists l :: j < l < |records| && records[l].key == k then
      var l :| j < l < |records| && records[l].key == k;
      LastIndexOf(records, k, l)
    else j
  }

  /** A row of calculate_indicators' result as passed to the batch store. */
  function ToRecord(sym: Symbol, row: IndicatorRow, score: int): (r: IndicatorRecord)
    ensures r.key == PriceKey(sym, row.date)
    ensures r.values.histogram == Some(row.histogram) && r.values.macdScore == Some(score)
  {
    IndicatorRecord(PriceKey(sym, row.date),
      StoredIndicator(row.golden, row.dead, row.rsi, row.macd, row.signal, Some(row.histogram), Some(score)))
  }

  /** The `technical_indicators` table, written in place by the two indicator writers. */
  class IndicatorStore {
    var rows: IndicatorTable

    constructor(initial: IndicatorTable)
      ensures rows == initial
    {
      rows := initial;
    }

    /** batch_store_indicators: all records in one transaction (engine.begin()); any
        failure rolls the whole batch back and is reported as false. */
    method BatchStore(records: seq<IndicatorRecord>, fails: bool) returns (ok: bool)
      modifies this
      ensures ok <==> !fails
      ensures rows == if ok then UpsertAll(old(rows), records) else old(rows)
    {
      if fails {
        return false;
      }
      rows := UpsertAll(rows, records);
      return true;
    }
  }
}
