/** The earlier per-symbol import (backend/stock_data_importer.py): the same
    watermark, insert-if-absent and single commit as the batch job, but
    with no trading-day walk, no pacing and no retry. */
module LegacyImporter {
  import opened Common
  import opened Prices
  import BatchImporter

  /** The step's decision for a symbol whose stored watermark is wm: one provider call. */
  function Decide(env: Env, sym: Symbol, wm: Option<Day>): (p: Plan)
    ensures p.outcome.Stored? ==> forall k :: k in KeysOf(p.rows) ==> k.symbol == sym
  {
    if !env.readOk(sym) then Plan(ReadError, [])
    else if wm.Some? && wm.value == env.today then Plan(UpToDate, [])
    else
      match env.provider(sym, RequestFor(wm), 0)
      case Raised(m) => Plan(FetchError(m), [])
      case Quotes(qs) =>
        if qs == [] then Plan(NoData, [])
        else
          match ToRows(sym, qs)
          case None => Plan(BadVolume, [])
          case Some(rows) =>
            if !env.writeOk(sym) then Plan(WriteError, [])
            else
              ToRowsKeys(sym, qs);
              Plan(Stored(qs[|qs| - 1].date), rows)
  }

  function Process(db: Db, env: Env, sym: Symbol): (TickerOutcome, Db) {
    var p := Decide(env, sym, Watermark(db, sym));
    (p.outcome, Commit(db, sym, p))
  }

  function Step(env: Env): (Db, Symbol) -> (TickerOutcome, Db) {
    (d: Db, sym: Symbol) => Process(d, env, sym)
  }

  /** Only a watermark dated today skips; any other watermark fetches, weekend or not. */
  lemma SkipOnlySameDay(db: Db, env: Env, sym: Symbol)
    requires env.readOk(sym)
    ensures Process(db, env, sym).0 == UpToDate <==> Watermark(db, sym) == Some(env.today)
    ensures Process(db, env, sym).0 != NoTradingDay
  {
  }

  /** Exactly one call is made: the outcome is fixed by the answer to the first call,
      and a rate-limit error is not retried but fails the symbol. */
  lemma SingleCall(db: Db, env: Env, env': Env, sym: Symbol)
    requires env'.today == env.today && env'.readOk == env.readOk && env'.writeOk == env.writeOk
    requires var req := RequestFor(Watermark(db, sym)); env'.provider(sym, req, 0) == env.provider(sym, req, 0)
    ensures Process(db, env', sym) == Process(db, env, sym)
    ensures (env.readOk(sym) && Watermark(db, sym) != Some(env.today) &&
      RateLimitedAt(Answers(env, sym, RequestFor(Watermark(db, sym))), 0)) ==>
      !Succeeded(Process(db, env, sym).0) && Process(db, env, sym).1 == db
  {
  }

  /** Where the batch job's gate lets the symbol through and the first call is not
      rate-limited, the earlier step and the batch step do exactly the same thing. */
  lemma AgreesWithBatch(db: Db, env: Env, sym: Symbol)
    requires var wm := Watermark(db, sym); wm.None? || wm.value == env.today || TradingDayIn(env.isHoliday, wm.value, env.today)
    requires !RateLimitedAt(Answers(env, sym, RequestFor(Watermark(db, sym))), 0)
    ensures Process(db, env, sym) == BatchImporter.Process(db, env, sym)
  {
  }

  /** A committed step never overwrites a stored bar and adds bars of its own symbol only. */
  lemma StoreFrame(db: Db, env: Env, sym: Symbol)
    requires Process(db, env, sym).0.Stored?
    ensures var db' := Process(db, env, sym).1;
      && (forall k :: k in db.prices ==> k in db'.prices && db'.prices[k] == db.prices[k])
      && (forall k :: k in db'.prices && k !in db.prices ==> k.symbol == sym)
      && (forall s :: s in db.lastFetched && s != sym ==> db'.lastFetched[s] == db.lastFetched[s])
  {
  }

  /** process_ticker: the step for one symbol, in one transaction. */
  method ProcessTicker(store: PriceDatabase, env: Env, sym: Symbol) returns (ok: bool, outcome: TickerOutcome)
    modifies store
    ensures (outcome, store.State()) == Process(old(store.State()), env, sym)
    ensures ok == Succeeded(outcome)
  {
    if !env.readOk(sym) {
      return false, ReadError;
    }
    var wm := Watermark(store.State(), sym);
    if wm.Some? && wm.value == env.today {
      return true, UpToDate;
    }
    var answer := env.provider(sym, RequestFor(wm), 0);
    if answer.Raised? {
      return false, FetchError(answer.message);
    }
    if answer.quotes == [] {
      return false, NoData;
    }
    var rows, lastDate := AssembleRows(sym, answer.quotes);
    if rows.None? {
      return false, BadVolume;
    }
    var pending := InsertRows(store.prices, rows.value);
    var pendingMarks := SetWatermark(store.lastFetched, sym, lastDate.value);
    if !env.writeOk(sym) {
      return false, WriteError;
    }
    store.prices, store.lastFetched := pending, pendingMarks;
    return true, Stored(lastDate.value);
  }

  /** The run: every symbol in query order, counting the steps that returned True. */
  method ImportAll(store: PriceDatabase, env: Env, tickers: seq<Symbol>) returns (report: RunReport)
    modifies store
    ensures tickers == [] ==> report == NoSymbols && store.State() == old(store.State())
    ensures tickers != [] ==>
      report == Completed(RunSteps(Step(env), old(store.State()), tickers).0, |tickers|) &&
      store.State() == RunSteps(Step(env), old(store.State()), tickers).1
  {
    if tickers == [] {
      return NoSymbols;
    }
    var successCount := 0;
    var i := 0;
    ghost var run := RunSteps(Step(env), old(store.State()), tickers);
    assert tickers[0..] == tickers;
    while i < |tickers|
      invariant 0 <= i <= |tickers|
      invariant run.0 == successCount + RunSteps(Step(env), store.State(), tickers[i..]).0
      invariant run.1 == RunSteps(Step(env), store.State(), tickers[i..]).1
    {
      ghost var db := store.State();
      RunStepsAt(Step(env), db, tickers, i);
      var ok, outcome := ProcessTicker(store, env, tickers[i]);
      assert Step(env)(db, tickers[i]) == (outcome, store.State());
      if ok {
        successCount := successCount + 1;
      }
      i := i + 1;
    }
    assert tickers[i..] == [];
    report := Completed(successCount, |tickers|);
  }
}
