/** The full symbol-catalog import (backend/batch/stock_symbol_importer.py):
    every JPX listing becomes a `stocks` row keyed by its ticker, written
    in batches of 100 with insert-or-replace of the nine listing columns;
    a failed batch is rolled back and retried row by row. */
module SymbolCatalog {
  import opened Common
  import opened Transactions

  const BatchSize: nat := 100

  /** One JPX listing as read from the spreadsheet: the code cell's text and
      the name, market, 33-sector code and name, 17-sector code and name,
      and scale code and name. */
  datatype JpxRow = JpxRow(
    code: String, name: String, market: String,
    industryCode33: String, industryName33: String,
    industryCode17: String, industryName17: String,
    scaleCode: String, scaleName: String)

  /** The ticker of a listing: its code followed by the Tokyo suffix. */
  function Ticker(code: String): (t: String)
    ensures |t| == |code| + 2 && t[..|code|] == code && EndsWith(t, ".T")
  {
    code + ".T"
  }

  /** A `stocks` row: the nine listing columns, and the price watermark this script never writes. */
  datatype StockRecord = StockRecord(listing: JpxRow, lastFetched: Option<int>)

  type Catalog = map<String, StockRecord>

  /** INSERT ... ON CONFLICT (symbol) DO UPDATE of all nine listing columns. */
  function Upsert(cat: Catalog, r: JpxRow): (cat': Catalog)
    ensures Ticker(r.code) in cat' && cat'[Ticker(r.code)].listing == r
    ensures cat'.Keys == cat.Keys + {Ticker(r.code)}
    ensures Ticker(r.code) in cat ==> cat'[Ticker(r.code)].lastFetched == cat[Ticker(r.code)].lastFetched
    ensures Ticker(r.code) !in cat ==> cat'[Ticker(r.code)].lastFetched == None
    ensures forall s :: s in cat && s != Ticker(r.code) ==> cat'[s] == cat[s]
  {
    var t := Ticker(r.code);
    cat[t := StockRecord(r, if t in cat then cat[t].lastFetched else None)]
  }

  function UpsertEffect(r: JpxRow): Catalog -> Catalog {
    (cat: Catalog) => Upsert(cat, r)
  }

  /** The listings upserted in order; a later listing with the same ticker wins. */
  function UpsertAll(cat: Catalog, rows: seq<JpxRow>): Catalog
    decreases |rows|
  {
    if rows == [] then cat else UpsertAll(Upsert(cat, rows[0]), rows[1..])
  }

  lemma {:induction false} UpsertAllAppend(cat: Catalog, a: seq<JpxRow>, b: seq<JpxRow>)
    decreases |a|
    ensures UpsertAll(cat, a + b) == UpsertAll(UpsertAll(cat, a), b)
  {
    if a == [] {
      assert a + b == b;
    } else {
      assert (a + b)[1..] == a[1..] + b;
      UpsertAllAppend(Upsert(cat, a[0]), a[1..], b);
    }
  }

  /** The listing row of the last occurrence of a ticker wins, and untouched tickers keep their rows. */
  lemma {:induction false} UpsertAllLastWins(cat: Catalog, rows: seq<JpxRow>, i: nat)
    requires i < |rows|
    requires forall j :: i < j < |rows| ==> Ticker(rows[j].code) != Ticker(rows[i].code)
    decreases |rows|
    ensures Ticker(rows[i].code) in UpsertAll(cat, rows)
    ensures UpsertAll(cat, rows)[Ticker(rows[i].code)].listing == rows[i]
  {
    if i == 0 {
      UpsertAllKeeps(Upsert(cat, rows[0]), rows[1..], Ticker(rows[0].code));
    } else {
      UpsertAllLastWins(Upsert(cat, rows[0]), rows[1..], i - 1);
    }
  }

  lemma {:induction false} UpsertAllKeeps(cat: Catalog, rows: seq<JpxRow>, t: String)
    requires t in cat
    requires forall j :: 0 <= j < |rows| ==> Ticker(rows[j].code) != t
    decreases |rows|
    ensures t in UpsertAll(cat, rows) && UpsertAll(cat, rows)[t] == cat[t]
  {
    if rows != [] {
      UpsertAllKeeps(Upsert(cat, rows[0]), rows[1..], t);
    }
  }

  /** The listings whose own statement does not fail, in order. */
  function Good(rows: seq<JpxRow>, fails: JpxRow -> bool): (g: seq<JpxRow>)
    ensures forall r :: r in g ==> r in rows && !fails(r)
    ensures forall r :: r in rows && !fails(r) ==> r in g
    ensures |g| <= |rows|
  {
    if rows == [] then []
    else (if fails(rows[0]) then [] else [rows[0]]) + Good(rows[1..], fails)
  }

  /** Good keeps each good listing as often as the input holds it, and no failing one. */
  lemma {:induction false} GoodCounts(rows: seq<JpxRow>, fails: JpxRow -> bool, r: JpxRow)
    decreases |rows|
    ensures multiset(Good(rows, fails))[r] == if fails(r) then 0 else multiset(rows)[r]
  {
    if rows != [] {
      GoodCounts(rows[1..], fails, r);
      assert rows == [rows[0]] + rows[1..];
    }
  }

  /** The good listings of consecutive parts are those of each part, in order, so Good
      keeps the input's order. */
  lemma {:induction false} GoodAppend(a: seq<JpxRow>, b: seq<JpxRow>, fails: JpxRow -> bool)
    decreases |a|
    ensures Good(a + b, fails) == Good(a, fails) + Good(b, fails)
  {
    if a == [] {
      assert a + b == b;
    } else {
      assert (a + b)[1..] == a[1..] + b;
      GoodAppend(a[1..], b, fails);
    }
  }

  /** The batch starting at offset i: rows [i, min(i + 100, total)). */
  function BatchAt(rows: seq<JpxRow>, i: nat): (b: seq<JpxRow>)
    requires i <= |rows|
    ensures |b| <= BatchSize
    ensures i < |rows| ==> |b| >= 1
    ensures b == rows[i..if i + BatchSize < |rows| then i + BatchSize else |rows|]
  {
    rows[i..if i + BatchSize < |rows| then i + BatchSize else |rows|]
  }

  /** The batches from offset i on. */
  function BatchesFrom(rows: seq<JpxRow>, i: nat): seq<seq<JpxRow>>
    requires i <= |rows|
    decreases |rows| - i
  {
    if i == |rows| then []
    else
      var next := if i + BatchSize < |rows| then i + BatchSize else |rows|;
      [BatchAt(rows, i)] + BatchesFrom(rows, next)
  }

  function Flatten(bs: seq<seq<JpxRow>>): seq<JpxRow> {
    if bs == [] then [] else bs[0] + Flatten(bs[1..])
  }

  /** The batches cover every row exactly once, in order, each holding 1 to 100 rows. */
  lemma {:induction false} BatchesPartition(rows: seq<JpxRow>, i: nat)
    requires i <= |rows|
    decreases |rows| - i
    ensures Flatten(BatchesFrom(rows, i)) == rows[i..]
    ensures forall k :: 0 <= k < |BatchesFrom(rows, i)| ==> 1 <= |BatchesFrom(rows, i)[k]| <= BatchSize
  {
    if i < |rows| {
      var next := if i + BatchSize < |rows| then i + BatchSize else |rows|;
      BatchesPartition(rows, next);
      var bs := BatchesFrom(rows, i);
      assert bs[1..] == BatchesFrom(rows, next);
      assert rows[i..] == rows[i..next] + rows[next..];
    }
  }

  /** cursor.executemany: the statements one after another, stopping at the first that fails. */
  function ExecuteMany(c: Conn<Catalog>, batch: seq<JpxRow>, fails: JpxRow -> bool): (r: (Conn<Catalog>, bool))
    decreases |batch|
    ensures r.0.committed == c.committed
  {
    if batch == [] then (c, true)
    else
      var (c1, ok) := Executed(c, UpsertEffect(batch[0]), fails(batch[0]));
      if !ok then (c1, false) else ExecuteMany(c1, batch[1..], fails)
  }

  /** On a usable transaction, executemany succeeds exactly when no statement of the batch
      fails, and then the batch is pending. */
  lemma {:induction false} ExecuteManyOutcome(c: Conn<Catalog>, batch: seq<JpxRow>, fails: JpxRow -> bool)
    requires !c.aborted
    decreases |batch|
    ensures ExecuteMany(c, batch, fails).1 <==> Good(batch, fails) == batch
    ensures ExecuteMany(c, batch, fails).1 ==>
      ExecuteMany(c, batch, fails).0 == Conn(c.committed, UpsertAll(c.pending, batch), false)
  {
    if batch != [] {
      if !fails(batch[0]) {
        ExecuteManyOutcome(Executed(c, UpsertEffect(batch[0]), false).0, batch[1..], fails);
      }
      GoodAllOrShorter(batch, fails);
    }
  }

  lemma {:induction false} GoodAllOrShorter(rows: seq<JpxRow>, fails: JpxRow -> bool)
    requires rows != []
    ensures Good(rows, fails) == rows <==> !fails(rows[0]) && Good(rows[1..], fails) == rows[1..]
  {
    if fails(rows[0]) {
      assert |Good(rows, fails)| <= |rows[1..]|;
    } else if Good(rows, fails) == rows {
      assert Good(rows, fails) == [rows[0]] + Good(rows[1..], fails);
      assert Good(rows[1..], fails) == rows[1..];
    }
  }

  /** The per-row fallback as written: a row that fails is only logged. With no
      rollback the transaction stays aborted, so every later row of the batch fails too. */
  function FallbackAsWritten(c: Conn<Catalog>, rows: seq<JpxRow>, fails: JpxRow -> bool): Conn<Catalog>
    decreases |rows|
  {
    if rows == [] then c
    else
      var (c1, ok) := Executed(c, UpsertEffect(rows[0]), fails(rows[0]));
      FallbackAsWritten(if ok then Committed(c1) else c1, rows[1..], fails)
  }

  /** As written, the fallback saves the rows before the first failing one and nothing after it. */
  lemma {:induction false} FallbackAsWrittenStopsAtFailure(c: Conn<Catalog>, rows: seq<JpxRow>, fails: JpxRow -> bool, j: nat)
    requires Clean(c)
    requires j < |rows| && fails(rows[j]) && forall k :: 0 <= k < j ==> !fails(rows[k])
    decreases j
    ensures FallbackAsWritten(c, rows, fails) == Conn(UpsertAll(c.committed, rows[..j]), UpsertAll(c.committed, rows[..j]), true)
  {
    if j == 0 {
      AbortedFallback(Executed(c, UpsertEffect(rows[0]), true).0, rows[1..], fails);
    } else {
      var c1 := Committed(Executed(c, UpsertEffect(rows[0]), false).0);
      FallbackAsWrittenStopsAtFailure(c1, rows[1..], fails, j - 1);
      assert rows[..j] == [rows[0]] + rows[1..][..j - 1];
    }
  }

  lemma {:induction false} AbortedFallback(c: Conn<Catalog>, rows: seq<JpxRow>, fails: JpxRow -> bool)
    requires c.aborted
    decreases |rows|
    ensures FallbackAsWritten(c, rows, fails) == c
  {
    if rows != [] {
      AbortedFallback(c, rows[1..], fails);
    }
  }

  /** Two new listings where only the first one's statement fails: as written, the second
      one is lost although nothing is wrong with it. */
  lemma FallbackAsWrittenLosesGoodRow(a: JpxRow, b: JpxRow, fails: JpxRow -> bool)
    requires fails(a) && !fails(b)
    ensures Ticker(b.code) !in FallbackAsWritten(Fresh(map[]), [a, b], fails).committed
    ensures Ticker(b.code) in Fallback(Fresh(map[]), [a, b], fails).committed
  {
    FallbackAsWrittenStopsAtFailure(Fresh(map[]), [a, b], fails, 0);
    assert [a, b][..0] == [];
    FallbackSavesGoodRows(Fresh(map[]), [a, b], fails);
    assert Good([a, b], fails) == [b] by {
      assert [a, b][1..] == [b];
      assert [b][1..] == [];
    }
  }

  /** The per-row fallback with the failed statement rolled back before moving on. */
  function Fallback(c: Conn<Catalog>, rows: seq<JpxRow>, fails: JpxRow -> bool): Conn<Catalog>
    decreases |rows|
  {
    if rows == [] then c
    else
      var (c1, ok) := Executed(c, UpsertEffect(rows[0]), fails(rows[0]));
      Fallback(if ok then Committed(c1) else RolledBack(c1), rows[1..], fails)
  }

  /** Rolled back properly, the fallback commits exactly the rows that do not fail themselves. */
  lemma {:induction false} FallbackSavesGoodRows(c: Conn<Catalog>, rows: seq<JpxRow>, fails: JpxRow -> bool)
    requires Clean(c)
    decreases |rows|
    ensures Clean(Fallback(c, rows, fails))
    ensures Fallback(c, rows, fails).committed == UpsertAll(c.committed, Good(rows, fails))
  {
    if rows != [] {
      var (c1, ok) := Executed(c, UpsertEffect(rows[0]), fails(rows[0]));
      FallbackSavesGoodRows(if ok then Committed(c1) else RolledBack(c1), rows[1..], fails);
      if fails(rows[0]) {
        assert Good(rows, fails) == Good(rows[1..], fails);
      } else {
        assert Good(rows, fails) == [rows[0]] + Good(rows[1..], fails);
      }
    }
  }

  /** One batch: executemany and commit, or on failure rollback and the per-row fallback. */
  function BatchStep(c: Conn<Catalog>, batch: seq<JpxRow>, fails: JpxRow -> bool): Conn<Catalog> {
    var (c1, ok) := ExecuteMany(c, batch, fails);
    if ok then Committed(c1) else Fallback(RolledBack(c1), batch, fails)
  }

  /** Either way a batch ends with exactly its good rows committed. */
  lemma BatchStepSavesGoodRows(c: Conn<Catalog>, batch: seq<JpxRow>, fails: JpxRow -> bool)
    requires Clean(c)
    ensures Clean(BatchStep(c, batch, fails))
    ensures BatchStep(c, batch, fails).committed == UpsertAll(c.committed, Good(batch, fails))
  {
    ExecuteManyOutcome(c, batch, fails);
    var (c1, ok) := ExecuteMany(c, batch, fails);
    if !ok {
      FallbackSavesGoodRows(RolledBack(c1), batch, fails);
    }
  }

  /** The batches from offset i on. */
  function ImportFrom(c: Conn<Catalog>, rows: seq<JpxRow>, i: nat, fails: JpxRow -> bool): Conn<Catalog>
    requires i <= |rows|
    decreases |rows| - i
  {
    if i == |rows| then c
    else
      var next := if i + BatchSize < |rows| then i + BatchSize else |rows|;
      ImportFrom(BatchStep(c, BatchAt(rows, i), fails), rows, next, fails)
  }

  /** The whole script after the listings are read: all batches, then a final commit. */
  function Import(c: Conn<Catalog>, rows: seq<JpxRow>, fails: JpxRow -> bool): Conn<Catalog> {
    Committed(ImportFrom(c, rows, 0, fails))
  }

  lemma {:induction false} ImportFromSavesGoodRows(c: Conn<Catalog>, rows: seq<JpxRow>, i: nat, fails: JpxRow -> bool)
    requires i <= |rows| && Clean(c)
    decreases |rows| - i
    ensures Clean(ImportFrom(c, rows, i, fails))
    ensures ImportFrom(c, rows, i, fails).committed == UpsertAll(c.committed, Good(rows[i..], fails))
  {
    if i < |rows| {
      var next := if i + BatchSize < |rows| then i + BatchSize else |rows|;
      var batch := BatchAt(rows, i);
      var c1 := BatchStep(c, batch, fails);
      assert ImportFrom(c, rows, i, fails) == ImportFrom(c1, rows, next, fails);
      BatchStepSavesGoodRows(c, batch, fails);
      ImportFromSavesGoodRows(c1, rows, next, fails);
      SliceSplit(rows, i, next);
      GoodAppend(batch, rows[next..], fails);
      UpsertAllAppend(c.committed, Good(batch, fails), Good(rows[next..], fails));
    }
  }

  /** From a clean connection, the catalog ends up holding every listing whose own
      statement succeeds, upserted in spreadsheet order, and nothing else changes. */
  lemma ImportSavesGoodRows(c: Conn<Catalog>, rows: seq<JpxRow>, fails: JpxRow -> bool)
    requires Clean(c)
    ensures Clean(Import(c, rows, fails))
    ensures Import(c, rows, fails).committed == UpsertAll(c.committed, Good(rows, fails))
  {
    ImportFromSavesGoodRows(c, rows, 0, fails);
    assert rows[0..] == rows;
  }

  /** The per-row fallback loop, each failed row rolled back. */
  method RunFallback(conn: Connection<Catalog>, batch: seq<JpxRow>, fails: JpxRow -> bool)
    modifies conn
    ensures conn.State() == Fallback(old(conn.State()), batch, fails)
  {
    var k := 0;
    while k < |batch|
      invariant 0 <= k <= |batch|
      invariant Fallback(old(conn.State()), batch, fails) == Fallback(conn.State(), batch[k..], fails)
    {
      assert batch[k..][1..] == batch[k + 1..];
      var ok := conn.Execute(UpsertEffect(batch[k]), fails(batch[k]));
      if ok {
        conn.Commit();
      } else {
        conn.Rollback();
      }
      k := k + 1;
    }
  }

  /** executemany over one batch. */
  method RunMany(conn: Connection<Catalog>, batch: seq<JpxRow>, fails: JpxRow -> bool) returns (ok: bool)
    modifies conn
    ensures (conn.State(), ok) == ExecuteMany(old(conn.State()), batch, fails)
  {
    var k := 0;
    while k < |batch|
      invariant 0 <= k <= |batch|
      invariant ExecuteMany(old(conn.State()), batch, fails) == ExecuteMany(conn.State(), batch[k..], fails)
    {
      assert batch[k..][1..] == batch[k + 1..];
      ok := conn.Execute(UpsertEffect(batch[k]), fails(batch[k]));
      if !ok {
        return false;
      }
      k := k + 1;
    }
    ok := true;
  }

  /** The script's loop over batch offsets 0, 100, 200, ... and its final commit. */
  method ImportListings(conn: Connection<Catalog>, rows: seq<JpxRow>, fails: JpxRow -> bool)
    modifies conn
    ensures conn.State() == Import(old(conn.State()), rows, fails)
  {
    var i := 0;
    while i < |rows|
      invariant 0 <= i <= |rows|
      invariant ImportFrom(old(conn.State()), rows, 0, fails) == ImportFrom(conn.State(), rows, i, fails)
      decreases |rows| - i
    {
      var batch := BatchAt(rows, i);
      var ok := RunMany(conn, batch, fails);
      if ok {
        conn.Commit();
      } else {
        conn.Rollback();
        RunFallback(conn, batch, fails);
      }
      i := if i + BatchSize < |rows| then i + BatchSize else |rows|;
    }
    conn.Commit();
  }
}
