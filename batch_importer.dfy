/** The incremental daily-price import run by the batch job
    (backend/batch/stock_data_importer.py, and its byte-identical copy
    backend/src/batch/stock_data_importer.py): for each symbol, a
    watermark check, a trading-day gate, a paced fetch with rate-limit
    retries, an insert-if-absent of the bars and a watermark advance,
    committed once. */
module BatchImporter {
  import opened Common
  import opened Prices

  /** The batch step's decision for a symbol whose stored watermark is wm. */
  function Decide(env: Env, sym: Symbol, wm: Option<Day>): (p: Plan)
    ensures p.outcome.Stored? ==> forall k :: k in KeysOf(p.rows) ==> k.symbol == sym
  {
    if !env.readOk(sym) then Plan(ReadError, [])
    else if wm.Some? && wm.value == env.today then Plan(UpToDate, [])
    else if wm.Some? && !TradingDayIn(env.isHoliday, wm.value, env.today) then Plan(NoTradingDay, [])
    else
      match Retry(Answers(env, sym, RequestFor(wm)), env.maxRetries, 0)
      case Failed(m) => Plan(FetchError(m), [])
      case Exhausted => Plan(NoData, [])
      case Fetched(qs) =>
        if qs == [] then Plan(NoData, [])
        else
          match ToRows(sym, qs)
          case None => Plan(BadVolume, [])
          case Some(rows) =>
            if !env.writeOk(sym) then Plan(WriteError, [])
            else
              ToRowsKeys(sym, qs);
              Plan(Stored(qs[|qs| - 1].date), rows)
  }

  /** One symbol's step: its outcome and the committed database after it. */
  function Process(db: Db, env: Env, sym: Symbol): (TickerOutcome, Db) {
    var p := Decide(env, sym, Watermark(db, sym));
    (p.outcome, Commit(db, sym, p))
  }

  /** Only a committed step changes the database. */
  lemma OnlyStoreWrites(db: Db, env: Env, sym: Symbol)
    ensures !Process(db, env, sym).0.Stored? ==> Process(db, env, sym).1 == db
    ensures !Succeeded(Process(db, env, sym).0) ==> Process(db, env, sym).1 == db
  {
  }

  /** A watermark dated today skips the symbol as a success, whatever the provider would say. */
  lemma SameDaySkips(db: Db, env: Env, sym: Symbol)
    requires env.readOk(sym) && Watermark(db, sym) == Some(env.today)
    ensures Process(db, env, sym) == (UpToDate, db)
    ensures Succeeded(Process(db, env, sym).0)
  {
  }

  /** With a watermark, a fetch is attempted exactly when a trading day lies in (watermark, today];
      a watermark later than today always skips. */
  lemma GateDecides(db: Db, env: Env, sym: Symbol)
    requires env.readOk(sym) && Watermark(db, sym).Some?
    ensures var w := Watermark(db, sym).value;
      Process(db, env, sym).0 == NoTradingDay <==> w != env.today && !TradingDayIn(env.isHoliday, w, env.today)
    ensures Watermark(db, sym).value > env.today ==> Process(db, env, sym) == (NoTradingDay, db)
  {
  }

  /** A watermark on a Friday with today the following Sunday skips; with
      today the Monday after, and no holiday, it fetches. */
  lemma WeekendGate(db: Db, env: Env, sym: Symbol)
    requires env.readOk(sym) && Watermark(db, sym) == Some(4)
    requires forall d :: !env.isHoliday(d)
    ensures env.today == 6 ==> Process(db, env, sym) == (NoTradingDay, db)
    ensures env.today == 7 ==> Process(db, env, sym).0 != NoTradingDay
  {
    if env.today == 7 {
      assert IsTradingDay(env.isHoliday, 7);
    }
  }

  /** Without a watermark the gate is bypassed and three years are requested;
      with one, the request starts the day after it. */
  lemma RequestShape(db: Db, env: Env, sym: Symbol)
    requires env.readOk(sym)
    ensures Watermark(db, sym).None? ==>
      Process(db, env, sym).0 == Decide(env, sym, None).outcome &&
      Decide(env, sym, None).outcome !in {UpToDate, NoTradingDay} &&
      RequestFor(Watermark(db, sym)) == ThreeYears
    ensures Watermark(db, sym).Some? ==> RequestFor(Watermark(db, sym)) == Since(Watermark(db, sym).value + 1)
  {
  }

  /** A committed step never overwrites a stored bar, adds only bars of its own
      symbol, and moves only its own symbol's watermark, to the last row's date. */
  lemma StoreFrame(db: Db, env: Env, sym: Symbol)
    requires Process(db, env, sym).0.Stored?
    ensures var (o, db') := Process(db, env, sym);
      && (forall k :: k in db.prices ==> k in db'.prices && db'.prices[k] == db.prices[k])
      && (forall k :: k in db'.prices && k !in db.prices ==> k.symbol == sym)
      && db'.lastFetched.Keys == db.lastFetched.Keys
      && (forall s :: s in db.lastFetched && s != sym ==> db'.lastFetched[s] == db.lastFetched[s])
      && (sym in db.lastFetched ==> db'.lastFetched[sym] == Some(o.watermark))
  {
  }

  /** The watermark is the date of the last row in provider order; when the
      provider honours the requested start day it moves strictly forward. */
  lemma WatermarkIsLastRow(db: Db, env: Env, sym: Symbol)
    requires Process(db, env, sym).0.Stored?
    ensures var qs := Retry(Answers(env, sym, RequestFor(Watermark(db, sym))), env.maxRetries, 0).quotes;
      qs != [] && Process(db, env, sym).0.watermark == qs[|qs| - 1].date
    ensures Watermark(db, sym).Some? && HonoursStart(env, sym, Watermark(db, sym).value + 1) ==>
      Process(db, env, sym).0.watermark > Watermark(db, sym).value
  {
    var wm := Watermark(db, sym);
    var answer := Answers(env, sym, RequestFor(wm));
    var p := Decide(env, sym, wm);
    assert Process(db, env, sym).0 == p.outcome;
    StoredIsLastQuote(env, sym, wm);
    var qs := Retry(answer, env.maxRetries, 0).quotes;
    if wm.Some? && HonoursStart(env, sym, wm.value + 1) {
      RetryResultSource(answer, env.maxRetries, 0);
      var k :| 0 <= k <= env.maxRetries && answer(k) == Quotes(qs);
      assert env.provider(sym, Since(wm.value + 1), k) == Quotes(qs);
      assert qs[|qs| - 1].date >= wm.value + 1;
    }
  }

  lemma StoredIsLastQuote(env: Env, sym: Symbol, wm: Option<Day>)
    requires Decide(env, sym, wm).outcome.Stored?
    ensures var res := Retry(Answers(env, sym, RequestFor(wm)), env.maxRetries, 0);
      res.Fetched? && res.quotes != [] && Decide(env, sym, wm).outcome.watermark == res.quotes[|res.quotes| - 1].date
  {
  }

  /** The provider returns no bar dated before the start day it was asked for. */
  ghost predicate HonoursStart(env: Env, sym: Symbol, start: Day) {
    forall k: nat :: env.provider(sym, Since(start), k).Quotes? ==>
      forall i :: 0 <= i < |env.provider(sym, Since(start), k).quotes| ==>
        env.provider(sym, Since(start), k).quotes[i].date >= start
  }

  /** The last row's date is the latest date only when the answer is in ascending order. */
  lemma LastRowIsLatestWhenAscending(qs: seq<Quote>)
    requires qs != []
    requires forall i, j :: 0 <= i < j < |qs| ==> qs[i].date <= qs[j].date
    ensures forall i :: 0 <= i < |qs| ==> qs[i].date <= qs[|qs| - 1].date
  {
  }

  /** Re-running a step on the same answer after it stored adds no bar and changes no stored bar. */
  lemma RestoreAddsNothing(db: Db, env: Env, sym: Symbol)
    requires Process(db, env, sym).0.Stored?
    ensures var p := Decide(env, sym, Watermark(db, sym));
      InsertAll(Process(db, env, sym).1.prices, p.rows) == Process(db, env, sym).1.prices
  {
    var p := Decide(env, sym, Watermark(db, sym));
    InsertAllIdempotent(db.prices, p.rows);
  }

  /** Steps for two different symbols commute: they touch disjoint keys and
      read only their own watermark, so the order the workers finish in
      does not change the database or either outcome. */
  lemma ProcessCommutes(db: Db, env: Env, a: Symbol, b: Symbol)
    requires a != b
    ensures Process(Process(db, env, a).1, env, b).1 == Process(Process(db, env, b).1, env, a).1
    ensures Process(Process(db, env, a).1, env, b).0 == Process(db, env, b).0
  {
    var pa := Decide(env, a, Watermark(db, a));
    var pb := Decide(env, b, Watermark(db, b));
    CommitsCommute(db, a, pa, b, pb);
    CommitsCommute(db, b, pb, a, pa);
    var afterA := Commit(db, a, pa);
    var afterB := Commit(db, b, pb);
    assert Process(db, env, a) == (pa.outcome, afterA);
    assert Process(db, env, b) == (pb.outcome, afterB);
    assert Process(afterA, env, b) == (pb.outcome, Commit(afterA, b, pb));
    assert Process(afterB, env, a) == (pa.outcome, Commit(afterB, a, pa));
  }

  /** The batch step as a function of the database and the symbol. */
  function Step(env: Env): (Db, Symbol) -> (TickerOutcome, Db) {
    (d: Db, sym: Symbol) => Process(d, env, sym)
  }

  /** Progress is logged after submitting the i-th symbol (0-based). */
  predicate LogsProgressAt(i: nat, n: nat) {
    (i + 1) % ProgressInterval(n) == 0 || i + 1 == n
  }

  /** The last symbol always logs progress, and so does every multiple of the interval. */
  lemma ProgressLoggedAtEnd(n: nat)
    requires n >= 1
    ensures LogsProgressAt(n - 1, n)
    ensures n < 20 ==> forall i: nat :: i < n ==> LogsProgressAt(i, n)
  {
  }

  /** The committed result of one `process_ticker` call as the source writes it:
      a returned bool, or an exception that leaves the function. */
  datatype Handled = Returned(ok: bool) | Escaped

  /** process_ticker as written: a failing watermark SELECT lands in the handler,
      whose log line reads `last_fetched` before it was ever bound, so an
      UnboundLocalError leaves the function instead of a False. */
  function ProcessAsWritten(db: Db, env: Env, sym: Symbol): (h: Handled)
    ensures h.Escaped? <==> !env.readOk(sym)
    ensures h.Returned? ==> h.ok == Succeeded(Process(db, env, sym).0)
  {
    if !env.readOk(sym) then Escaped else Returned(Succeeded(Process(db, env, sym).0))
  }

  /** The results of every submitted step, as the result loop sees them. */
  function HandledAll(db: Db, env: Env, tickers: seq<Symbol>): (hs: seq<Handled>)
    decreases |tickers|
    ensures |hs| == |tickers|
  {
    if tickers == [] then []
    else [ProcessAsWritten(db, env, tickers[0])] + HandledAll(Process(db, env, tickers[0]).1, env, tickers[1..])
  }

  /** The result loop as written: `future.result()` re-raises an escaped
      exception, the top-level handler prints it and exits with status 1,
      and no success count is reported. */
  method CountResultsAsWritten(results: seq<Handled>) returns (report: Option<nat>)
    ensures report.None? <==> exists i :: 0 <= i < |results| && results[i].Escaped?
    ensures report.Some? ==> report.value == CountTrue(results)
  {
    var successCount := 0;
    var i := 0;
    while i < |results|
      invariant 0 <= i <= |results|
      invariant forall j :: 0 <= j < i ==> results[j].Returned?
      invariant successCount == CountTrue(results[..i])
    {
      if results[i].Escaped? {
        return None;
      }
      CountTrueSnoc(results[..i], results[i]);
      assert results[..i + 1] == results[..i] + [results[i]];
      if results[i].ok {
        successCount := successCount + 1;
      }
      i := i + 1;
    }
    assert results[..i] == results;
    report := Some(successCount);
  }

  function CountTrue(results: seq<Handled>): nat {
    if results == [] then 0
    else (if results[0].Returned? && results[0].ok then 1 else 0) + CountTrue(results[1..])
  }

  lemma {:induction false} CountTrueSnoc(results: seq<Handled>, h: Handled)
    ensures CountTrue(results + [h]) == CountTrue(results) + (if h.Returned? && h.ok then 1 else 0)
  {
    if results != [] {
      assert (results + [h])[1..] == results[1..] + [h];
      CountTrueSnoc(results[1..], h);
    } else {
      assert [h][1..] == [];
    }
  }

  /** One failing watermark read anywhere in the list ends the run without a report. */
  lemma ReadFailureLosesReport(db: Db, env: Env, tickers: seq<Symbol>, i: nat)
    requires i < |tickers| && !env.readOk(tickers[i])
    ensures HandledAll(db, env, tickers)[i].Escaped?
    decreases i
  {
    if i > 0 {
      ReadFailureLosesReport(Process(db, env, tickers[0]).1, env, tickers[1..], i - 1);
    }
  }

  /** With the step corrected to return False on a failed read, a non-empty
      run always reports, and the failed symbol counts as a failure. */
  lemma ReadFailureCountsAsFailure(db: Db, env: Env, sym: Symbol)
    requires !env.readOk(sym)
    ensures Process(db, env, sym) == (ReadError, db)
    ensures !Succeeded(Process(db, env, sym).0)
    ensures RunSteps(Step(env), db, [sym]) == (0, db)
  {
  }

  /** process_ticker: the step for one symbol, in one transaction. */
  method ProcessTicker(store: PriceDatabase, env: Env, sym: Symbol, jitter: nat -> real) returns (ok: bool, outcome: TickerOutcome)
    requires forall k :: 0.0 <= jitter(k) < 1.0
    modifies store
    ensures (outcome, store.State()) == Process(old(store.State()), env, sym)
    ensures ok == Succeeded(outcome)
  {
    if !env.readOk(sym) {
      return false, ReadError;
    }
    var wm := Watermark(store.State(), sym);
    if wm.Some? {
      if wm.value == env.today {
        return true, UpToDate;
      }
      var hasTradingDay, _ := HasTradingDaySince(env.isHoliday, wm.value, env.today);
      if !hasTradingDay {
        return true, NoTradingDay;
      }
    }
    var result, _, _ := FetchWithRetry(Answers(env, sym, RequestFor(wm)), env.maxRetries, jitter);
    if result.Failed? {
      return false, FetchError(result.message);
    }
    if result.Exhausted? || result.quotes == [] {
      return false, NoData;
    }
    var rows, lastDate := AssembleRows(sym, result.quotes);
    if rows.None? {
      return false, BadVolume;
    }
    // The insert and the update run inside the open transaction; only the commit publishes them.
    var pending := InsertRows(store.prices, rows.value);
    var pendingMarks := SetWatermark(store.lastFetched, sym, lastDate.value);
    if !env.writeOk(sym) {
      return false, WriteError;
    }
    store.prices, store.lastFetched := pending, pendingMarks;
    return true, Stored(lastDate.value);
  }

  /** The run: every symbol in query order, counting the steps that returned True. */
  method ImportAll(store: PriceDatabase, env: Env, tickers: seq<Symbol>, jitter: nat -> real) returns (report: RunReport)
    requires forall k :: 0.0 <= jitter(k) < 1.0
    modifies store
    ensures tickers == [] ==> report == NoSymbols && store.State() == old(store.State())
    ensures tickers != [] ==>
      report == Completed(RunSteps(Step(env), old(store.State()), tickers).0, |tickers|) &&
      store.State() == RunSteps(Step(env), old(store.State()), tickers).1
  {
    if tickers == [] {
      return NoSymbols;
    }
    var successCount := 0;
    var i := 0;
    ghost var run := RunSteps(Step(env), old(store.State()), tickers);
    assert tickers[0..] == tickers;
    while i < |tickers|
      invariant 0 <= i <= |tickers|
      invariant run.0 == successCount + RunSteps(Step(env), store.State(), tickers[i..]).0
      invariant run.1 == RunSteps(Step(env), store.State(), tickers[i..]).1
    {
      ghost var db := store.State();
      RunStepsAt(Step(env), db, tickers, i);
      var ok, outcome := ProcessTicker(store, env, tickers[i], jitter);
      assert Step(env)(db, tickers[i]) == (outcome, store.State());
      if ok {
        successCount := successCount + 1;
      }
      i := i + 1;
    }
    assert tickers[i..] == [];
    report := Completed(successCount, |tickers|);
  }
}
