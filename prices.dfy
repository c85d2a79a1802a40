/** The price-history store shared by the three ingestion scripts: day
    numbers and the trading calendar, the provider's answer, the
    `stock_prices` table keyed by (symbol, date) and its
    INSERT ... ON CONFLICT (symbol, date) DO NOTHING semantics, and the
    rate-limit retry loop of the batch importer. */
module Prices {
  import opened Common

  /** A calendar day as a day number; the day numbered 0 is a Monday. */
  type Day = int
  type Symbol = String

  /** Python's date.weekday(): 0 for Monday through 6 for Sunday. */
  function Weekday(d: Day): (w: nat)
    ensures w < 7
  {
    d % 7
  }

  /** A weekday (Monday to Friday) that the holiday calendar does not list. */
  predicate IsTradingDay(isHoliday: Day -> bool, d: Day) {
    Weekday(d) < 5 && !isHoliday(d)
  }

  /** Some trading day lies in the half-open interval (last, today]. */
  predicate TradingDayIn(isHoliday: Day -> bool, last: Day, today: Day) {
    exists d | last < d <= today :: IsTradingDay(isHoliday, d)
  }

  /** One bar of the provider's answer, indexed by its date; a NaN volume is None. */
  datatype Quote = Quote(date: Day, open: real, high: real, low: real, close: real, volume: Option<int>)

  /** A stored `stock_prices` row without its key. */
  datatype Bar = Bar(open: real, high: real, low: real, close: real, volume: int)

  datatype PriceKey = PriceKey(symbol: Symbol, date: Day)

  type PriceTable = map<PriceKey, Bar>

  /** A row prepared for the bulk insert: the tuple (symbol, date, open, high, low, close, volume). */
  datatype PriceRow = PriceRow(key: PriceKey, bar: Bar)

  /** float(...) on the prices and int(row['Volume']); int() of a NaN volume raises. */
  function ToRow(symbol: Symbol, q: Quote): (r: Option<PriceRow>)
    ensures r.Some? <==> q.volume.Some?
    ensures r.Some? ==> r.value.key == PriceKey(symbol, q.date)
  {
    match q.volume
    case None => None
    case Some(v) => Some(PriceRow(PriceKey(symbol, q.date), Bar(q.open, q.high, q.low, q.close, v)))
  }

  /** The rows built from a whole answer, or None when some volume cannot be converted. */
  function ToRows(symbol: Symbol, quotes: seq<Quote>): (r: Option<seq<PriceRow>>)
    ensures r.Some? <==> forall i :: 0 <= i < |quotes| ==> quotes[i].volume.Some?
    ensures r.Some? ==> |r.value| == |quotes|
    ensures r.Some? ==> forall i :: 0 <= i < |quotes| ==> r.value[i].key == PriceKey(symbol, quotes[i].date)
  {
    if quotes == [] then Some([])
    else
      match (ToRow(symbol, quotes[0]), ToRows(symbol, quotes[1..]))
      case (Some(row), Some(rest)) => Some([row] + rest)
      case _ => None
  }

  /** One row under ON CONFLICT DO NOTHING: stored only when its key is free. */
  function InsertIfAbsent(table: PriceTable, row: PriceRow): PriceTable {
    if row.key in table then table else table[row.key := row.bar]
  }

  /** The rows inserted in order, each with ON CONFLICT (symbol, date) DO NOTHING. */
  function InsertAll(table: PriceTable, rows: seq<PriceRow>): (r: PriceTable)
    decreases |rows|
    ensures forall k :: k in table ==> k in r && r[k] == table[k]
    ensures r.Keys == table.Keys + KeysOf(rows)
  {
    if rows == [] then table
    else
      assert KeysOf(rows) == {rows[0].key} + KeysOf(rows[1..]) by {
        assert rows == [rows[0]] + rows[1..];
      }
      InsertAll(InsertIfAbsent(table, rows[0]), rows[1..])
  }

  function KeysOf(rows: seq<PriceRow>): set<PriceKey> {
    set i | 0 <= i < |rows| :: rows[i].key
  }

  lemma KeysOfCons(rows: seq<PriceRow>)
    requires rows != []
    ensures KeysOf(rows) == {rows[0].key} + KeysOf(rows[1..])
  {
    assert rows == [rows[0]] + rows[1..];
  }

  /** Every key of the rows built for a symbol carries that symbol. */
  lemma ToRowsKeys(symbol: Symbol, quotes: seq<Quote>)
    requires ToRows(symbol, quotes).Some?
    ensures forall k :: k in KeysOf(ToRows(symbol, quotes).value) ==> k.symbol == symbol
  {
    var rows := ToRows(symbol, quotes).value;
    forall k | k in KeysOf(rows) ensures k.symbol == symbol {
      var i :| 0 <= i < |rows| && rows[i].key == k;
    }
  }

  /** The bar that the first row with key k carries. */
  function FirstBarFor(rows: seq<PriceRow>, k: PriceKey): Option<Bar> {
    if rows == [] then None
    else if rows[0].key == k then Some(rows[0].bar)
    else FirstBarFor(rows[1..], k)
  }

  /** A key that was free ends up holding the bar of the first row that carries it. */
  lemma {:induction false} InsertAllFirstWins(table: PriceTable, rows: seq<PriceRow>, k: PriceKey)
    requires k !in table && k in KeysOf(rows)
    decreases |rows|
    ensures FirstBarFor(rows, k).Some? && InsertAll(table, rows)[k] == FirstBarFor(rows, k).value
  {
    if rows[0].key != k {
      KeysOfCons(rows);
      InsertAllFirstWins(InsertIfAbsent(table, rows[0]), rows[1..], k);
    }
  }

  /** Rows whose keys are all present change nothing. */
  lemma {:induction false} InsertAllPresent(table: PriceTable, rows: seq<PriceRow>)
    requires KeysOf(rows) <= table.Keys
    decreases |rows|
    ensures InsertAll(table, rows) == table
  {
    if rows != [] {
      KeysOfCons(rows);
      InsertAllPresent(table, rows[1..]);
    }
  }

  /** Inserting one more row after a batch is inserting the longer batch. */
  lemma {:induction false} InsertAllSnoc(table: PriceTable, rows: seq<PriceRow>, row: PriceRow)
    decreases |rows|
    ensures InsertAll(table, rows + [row]) == InsertIfAbsent(InsertAll(table, rows), row)
  {
    if rows == [] {
      assert [row][1..] == [];
    } else {
      assert (rows + [row])[1..] == rows[1..] + [row];
      InsertAllSnoc(InsertIfAbsent(table, rows[0]), rows[1..], row);
    }
  }

  /** A key no row carries has no first bar. */
  lemma {:induction false} FirstBarAbsent(rows: seq<PriceRow>, k: PriceKey)
    requires k !in KeysOf(rows)
    ensures FirstBarFor(rows, k).None?
  {
    if rows != [] {
      KeysOfCons(rows);
      FirstBarAbsent(rows[1..], k);
    }
  }

  /** The value under a key after a batch: the old one, else the first row's. */
  lemma InsertAllAt(t: PriceTable, rows: seq<PriceRow>, k: PriceKey)
    ensures k in InsertAll(t, rows) <==> k in t || k in KeysOf(rows)
    ensures k in t ==> InsertAll(t, rows)[k] == t[k]
    ensures k !in t && k in KeysOf(rows) ==>
      FirstBarFor(rows, k).Some? && InsertAll(t, rows)[k] == FirstBarFor(rows, k).value
  {
    if k !in t && k in KeysOf(rows) {
      InsertAllFirstWins(t, rows, k);
    }
  }

  /** Batches with disjoint keys can be inserted in either order. */
  lemma InsertAllCommutes(t: PriceTable, xs: seq<PriceRow>, ys: seq<PriceRow>)
    requires KeysOf(xs) !! KeysOf(ys)
    ensures InsertAll(InsertAll(t, xs), ys) == InsertAll(InsertAll(t, ys), xs)
  {
    var l := InsertAll(InsertAll(t, xs), ys);
    var r := InsertAll(InsertAll(t, ys), xs);
    forall k | k in l.Keys
      ensures k in r && l[k] == r[k]
    {
      InsertAllAt(t, xs, k);
      InsertAllAt(t, ys, k);
      InsertAllAt(InsertAll(t, xs), ys, k);
      InsertAllAt(InsertAll(t, ys), xs, k);
    }
  }

  /** Re-inserting the same batch changes nothing. */
  lemma InsertAllIdempotent(table: PriceTable, rows: seq<PriceRow>)
    ensures InsertAll(InsertAll(table, rows), rows) == InsertAll(table, rows)
  {
    InsertAllPresent(InsertAll(table, rows), rows);
  }

  /** What the provider was asked for: three years of history, or everything from a start day on. */
  datatype Request = ThreeYears | Since(start: Day)

  /** One provider call: its rows (possibly none) or the text of the exception it raised. */
  datatype FetchOutcome = Quotes(quotes: seq<Quote>) | Raised(message: String)

  /** The text test of the retry loop: "Too Many Requests" or "429" anywhere in str(e). */
  predicate IsRateLimit(message: String) {
    Contains(message, "Too Many Requests") || Contains(message, "429")
  }

  /** What the retry loop leaves behind: rows, no rows after the last permitted attempt, or a re-raised error. */
  datatype FetchResult = Fetched(quotes: seq<Quote>) | Exhausted | Failed(message: String)

  /** The retry loop from retry count r on: attempt r gets answer(r). */
  function Retry(answer: nat -> FetchOutcome, maxRetries: nat, r: nat): FetchResult
    decreases maxRetries + 1 - r
  {
    if r > maxRetries then Exhausted
    else
      match answer(r)
      case Quotes(qs) => Fetched(qs)
      case Raised(m) => if IsRateLimit(m) then Retry(answer, maxRetries, r + 1) else Failed(m)
  }

  /** The number of provider calls the loop makes from retry count r on. */
  function Attempts(answer: nat -> FetchOutcome, maxRetries: nat, r: nat): nat
    decreases maxRetries + 1 - r
  {
    if r > maxRetries then 0
    else
      match answer(r)
      case Quotes(_) => 1
      case Raised(m) => if IsRateLimit(m) then 1 + Attempts(answer, maxRetries, r + 1) else 1
  }

  /** Attempt k raised a rate-limit error. */
  predicate RateLimitedAt(answer: nat -> FetchOutcome, k: nat) {
    answer(k).Raised? && IsRateLimit(answer(k).message)
  }

  /** At most maxRetries + 1 calls are made, and at least one. */
  lemma {:induction false} AttemptsBounded(answer: nat -> FetchOutcome, maxRetries: nat, r: nat)
    requires r <= maxRetries
    decreases maxRetries - r
    ensures 1 <= Attempts(answer, maxRetries, r) <= maxRetries + 1 - r
  {
    if r < maxRetries && RateLimitedAt(answer, r) {
      AttemptsBounded(answer, maxRetries, r + 1);
    }
  }

  /** The loop gives up exactly when every permitted attempt was rate-limited. */
  lemma {:induction false} ExhaustedIffAllRateLimited(answer: nat -> FetchOutcome, maxRetries: nat, r: nat)
    decreases maxRetries + 1 - r
    ensures Retry(answer, maxRetries, r) == Exhausted
        <==> forall k :: r <= k <= maxRetries ==> RateLimitedAt(answer, k)
  {
    if r <= maxRetries {
      ExhaustedIffAllRateLimited(answer, maxRetries, r + 1);
      if !RateLimitedAt(answer, r) {
        assert Retry(answer, maxRetries, r) != Exhausted;
      }
    }
  }

  /** Rows and re-raised errors come from the first attempt that was not rate-limited. */
  lemma {:induction false} RetryResultSource(answer: nat -> FetchOutcome, maxRetries: nat, r: nat)
    requires Retry(answer, maxRetries, r) != Exhausted
    decreases maxRetries + 1 - r
    ensures exists k :: (r <= k <= maxRetries
      && (forall j :: r <= j < k ==> RateLimitedAt(answer, j))
      && !RateLimitedAt(answer, k)
      && (match Retry(answer, maxRetries, r)
          case Fetched(qs) => answer(k) == Quotes(qs)
          case Failed(m) => answer(k) == Raised(m) && !IsRateLimit(m)
          case Exhausted => false))
  {
    if RateLimitedAt(answer, r) {
      RetryResultSource(answer, maxRetries, r + 1);
      var k :| r + 1 <= k <= maxRetries
        && (forall j :: r + 1 <= j < k ==> RateLimitedAt(answer, j))
        && !RateLimitedAt(answer, k)
        && (match Retry(answer, maxRetries, r + 1)
            case Fetched(qs) => answer(k) == Quotes(qs)
            case Failed(m) => answer(k) == Raised(m) && !IsRateLimit(m)
            case Exhausted => false);
      assert forall j :: r <= j < k ==> RateLimitedAt(answer, j);
    }
  }

  /** The backoff before retry r + 1: 2^r seconds plus the jitter drawn for it, with no cap. */
  function Backoff(r: nat, jitter: nat -> real): real {
    Pow2(r) as real + jitter(r)
  }

  /** Whatever cap one names, a long enough run of rate limits waits longer than it. */
  lemma BackoffUncapped(cap: nat, jitter: nat -> real)
    requires jitter(cap) >= 0.0
    ensures Backoff(cap, jitter) > cap as real
  {
    Pow2Unbounded(cap);
  }

  /** Runs the rate-limited retry loop: a REQUEST_INTERVAL sleep before every call,
      a backoff of 2^retries + jitter after every rate-limit error, and a re-raise
      of any other error. */
  method FetchWithRetry(answer: nat -> FetchOutcome, maxRetries: nat, jitter: nat -> real)
    returns (result: FetchResult, attempts: nat, backoffs: seq<real>)
    requires forall k :: 0.0 <= jitter(k) < 1.0
    ensures result == Retry(answer, maxRetries, 0)
    ensures attempts == Attempts(answer, maxRetries, 0)
    ensures |backoffs| == (if result == Exhausted then attempts else attempts - 1)
    ensures forall r :: 0 <= r < |backoffs| ==>
      backoffs[r] == Backoff(r, jitter) && Pow2(r) as real <= backoffs[r] < Pow2(r) as real + 1.0
  {
    var retries := 0;
    attempts := 0;
    backoffs := [];
    result := Exhausted;
    while retries <= maxRetries
      invariant retries <= maxRetries + 1
      invariant attempts == retries == |backoffs|
      invariant Retry(answer, maxRetries, 0) == Retry(answer, maxRetries, retries)
      invariant Attempts(answer, maxRetries, 0) == retries + Attempts(answer, maxRetries, retries)
      invariant forall r :: 0 <= r < |backoffs| ==>
        backoffs[r] == Backoff(r, jitter) && Pow2(r) as real <= backoffs[r] < Pow2(r) as real + 1.0
      decreases maxRetries + 1 - retries
    {
      attempts := attempts + 1;
      var outcome := answer(retries);
      match outcome {
        case Quotes(qs) =>
          result := Fetched(qs);
          return;
        case Raised(m) =>
          if IsRateLimit(m) {
            var wait := Backoff(retries, jitter);
            backoffs := backoffs + [wait];
            retries := retries + 1;
          } else {
            result := Failed(m);
            return;
          }
      }
    }
  }

  /** Walks the days after `last` up to `today`, stopping at the first trading day. */
  method HasTradingDaySince(isHoliday: Day -> bool, last: Day, today: Day) returns (found: bool, checkedDays: nat)
    ensures found <==> TradingDayIn(isHoliday, last, today)
    ensures found ==> IsTradingDay(isHoliday, last + checkedDays)
    ensures forall d :: last < d < last + checkedDays ==> !IsTradingDay(isHoliday, d)
    ensures checkedDays <= if today > last then today - last else 0
  {
    found := false;
    checkedDays := 0;
    var delta := today - last;
    var i := 1;
    while i <= delta
      invariant 1 <= i <= (if delta >= 1 then delta + 1 else 1)
      invariant checkedDays == i - 1
      invariant forall d :: last < d < last + i ==> !IsTradingDay(isHoliday, d)
    {
      checkedDays := i;
      if IsTradingDay(isHoliday, last + i) {
        found := true;
        return;
      }
      i := i + 1;
    }
  }

  /** Builds the insert tuples in provider order and remembers the date of the last one. */
  method AssembleRows(symbol: Symbol, quotes: seq<Quote>) returns (rows: Option<seq<PriceRow>>, lastDate: Option<Day>)
    ensures rows == ToRows(symbol, quotes)
    ensures rows.Some? && quotes != [] ==> lastDate == Some(quotes[|quotes| - 1].date)
    ensures quotes == [] ==> lastDate == None
  {
    var data: seq<PriceRow> := [];
    lastDate := None;
    var i := 0;
    while i < |quotes|
      invariant 0 <= i <= |quotes|
      invariant ToRows(symbol, quotes[..i]) == Some(data)
      invariant i == 0 ==> lastDate == None
      invariant i > 0 ==> lastDate == Some(quotes[i - 1].date)
    {
      lastDate := Some(quotes[i].date);
      var row := ToRow(symbol, quotes[i]);
      if row.None? {
        ToRowsFailsAt(symbol, quotes, i);
        return None, lastDate;
      }
      ToRowsPrefixStep(symbol, quotes, i);
      data := data + [row.value];
      i := i + 1;
    }
    assert quotes[..i] == quotes;
    rows := Some(data);
  }

  /** Converting one more quote of a prefix appends its row. */
  lemma ToRowsPrefixStep(symbol: Symbol, qs: seq<Quote>, i: nat)
    requires i < |qs| && ToRows(symbol, qs[..i]).Some? && ToRow(symbol, qs[i]).Some?
    ensures ToRows(symbol, qs[..i + 1]) == Some(ToRows(symbol, qs[..i]).value + [ToRow(symbol, qs[i]).value])
  {
    assert qs[..i + 1] == qs[..i] + [qs[i]];
    ToRowsSnoc(symbol, qs[..i], qs[i]);
  }

  lemma {:induction false} ToRowsSnoc(symbol: Symbol, qs: seq<Quote>, q: Quote)
    requires ToRows(symbol, qs).Some? && ToRow(symbol, q).Some?
    ensures ToRows(symbol, qs + [q]) == Some(ToRows(symbol, qs).value + [ToRow(symbol, q).value])
  {
    if qs == [] {
      assert qs + [q] == [q];
      assert [q][1..] == [];
      var row := ToRow(symbol, q).value;
      assert ToRows(symbol, [q][1..]) == Some([]);
      assert ToRows(symbol, [q]) == Some([row] + []);
      assert [row] + [] == [row];
      assert ToRows(symbol, qs).value + [row] == [row];
    } else {
      assert (qs + [q])[1..] == qs[1..] + [q];
      assert (qs + [q])[0] == qs[0];
      var head := ToRow(symbol, qs[0]).value;
      var rest := ToRows(symbol, qs[1..]).value;
      assert ToRows(symbol, qs) == Some([head] + rest);
      ToRowsSnoc(symbol, qs[1..], q);
      assert [head] + (rest + [ToRow(symbol, q).value]) == [head] + rest + [ToRow(symbol, q).value];
      assert ToRows(symbol, qs + [q]) == Some([head] + ToRows(symbol, qs[1..] + [q]).value);
    }
  }

  lemma ToRowsFailsAt(symbol: Symbol, qs: seq<Quote>, i: nat)
    requires i < |qs| && qs[i].volume.None?
    ensures ToRows(symbol, qs) == None
  {
  }

  /** Runs the bulk insert row by row against the pending (uncommitted) table. */
  method InsertRows(table: PriceTable, rows: seq<PriceRow>) returns (pending: PriceTable)
    ensures pending == InsertAll(table, rows)
  {
    pending := table;
    var i := 0;
    while i < |rows|
      invariant 0 <= i <= |rows|
      invariant InsertAll(pending, rows[i..]) == InsertAll(table, rows)
    {
      assert rows[i..][1..] == rows[i + 1..];
      pending := InsertIfAbsent(pending, rows[i]);
      i := i + 1;
    }
  }

  /** The two tables the importers touch: bars by (symbol, date), and each
      listed symbol's watermark (`stocks.last_fetched`, None when NULL). */
  datatype Db = Db(prices: PriceTable, lastFetched: map<Symbol, Option<Day>>)

  /** Everything outside the process, as plain values: today's JST date,
      the holiday calendar, the provider's answer to the k-th call for a
      symbol and request, whether the watermark read and the write
      transaction (insert, update, commit) go through, and the batch job's
      MAX_RETRIES environment variable (3 when unset). */
  datatype Env = Env(
    today: Day,
    maxRetries: nat,
    isHoliday: Day -> bool,
    provider: (Symbol, Request, nat) -> FetchOutcome,
    readOk: Symbol -> bool,
    writeOk: Symbol -> bool)

  /** Why one symbol's step ended the way it did. */
  datatype TickerOutcome =
    | UpToDate                      // watermark dated today
    | NoTradingDay                  // no trading day after the watermark
    | Stored(watermark: Day)        // bars inserted, watermark moved, committed
    | NoData                        // empty answer, or every attempt rate-limited
    | FetchError(message: String)   // a non-rate-limit error, re-raised
    | BadVolume                     // int() of a NaN volume raised
    | WriteError                    // the insert, the update or the commit raised
    | ReadError                     // the watermark SELECT raised

  /** The value process_ticker returns. */
  predicate Succeeded(o: TickerOutcome) {
    o.UpToDate? || o.NoTradingDay? || o.Stored?
  }

  /** `SELECT last_fetched FROM stocks WHERE symbol = ...`: None for a
      missing row and for NULL alike. */
  function Watermark(db: Db, sym: Symbol): Option<Day> {
    if sym in db.lastFetched then db.lastFetched[sym] else None
  }

  /** Three years without a watermark, else everything from the day after it. */
  function RequestFor(wm: Option<Day>): (req: Request)
    ensures wm.None? <==> req == ThreeYears
    ensures wm.Some? ==> req == Since(wm.value + 1)
  {
    match wm
    case None => ThreeYears
    case Some(w) => Since(w + 1)
  }

  /** `UPDATE stocks SET last_fetched = d WHERE symbol = sym`: no row, no change. */
  function SetWatermark(lastFetched: map<Symbol, Option<Day>>, sym: Symbol, d: Day): map<Symbol, Option<Day>> {
    if sym in lastFetched then lastFetched[sym := Some(d)] else lastFetched
  }

  function Answers(env: Env, sym: Symbol, req: Request): nat -> FetchOutcome {
    (k: nat) => env.provider(sym, req, k)
  }

  /** What a step decided for a symbol: its outcome and, when it stores,
      the rows it inserts. */
  datatype Plan = Plan(outcome: TickerOutcome, rows: seq<PriceRow>)

  /** The commit: the bars inserted if absent and the watermark moved, or nothing at all. */
  function Commit(db: Db, sym: Symbol, p: Plan): Db {
    if p.outcome.Stored? then Db(InsertAll(db.prices, p.rows), SetWatermark(db.lastFetched, sym, p.outcome.watermark))
    else db
  }

  /** Commits for two different symbols, each inserting only rows of its own symbol,
      commute, and neither moves the other's watermark. */
  lemma CommitsCommute(db: Db, a: Symbol, pa: Plan, b: Symbol, pb: Plan)
    requires a != b
    requires pa.outcome.Stored? ==> forall k :: k in KeysOf(pa.rows) ==> k.symbol == a
    requires pb.outcome.Stored? ==> forall k :: k in KeysOf(pb.rows) ==> k.symbol == b
    ensures Watermark(Commit(db, a, pa), b) == Watermark(db, b)
    ensures Commit(Commit(db, a, pa), b, pb) == Commit(Commit(db, b, pb), a, pa)
  {
    if pa.outcome.Stored? && pb.outcome.Stored? {
      assert KeysOf(pa.rows) !! KeysOf(pb.rows);
      InsertAllCommutes(db.prices, pa.rows, pb.rows);
      SetWatermarksCommute(db.lastFetched, a, pa.outcome.watermark, b, pb.outcome.watermark);
    }
  }

  lemma SetWatermarksCommute(m: map<Symbol, Option<Day>>, a: Symbol, da: Day, b: Symbol, db: Day)
    requires a != b
    ensures SetWatermark(SetWatermark(m, a, da), b, db) == SetWatermark(SetWatermark(m, b, db), a, da)
    ensures b in SetWatermark(m, a, da) <==> b in m
    ensures b in m ==> SetWatermark(m, a, da)[b] == m[b]
  {
  }

  /** The database the importers write to. Fields are the committed state. */
  class PriceDatabase {
    var prices: PriceTable
    var lastFetched: map<Symbol, Option<Day>>

    function State(): Db
      reads this
    {
      Db(prices, lastFetched)
    }

    constructor(db: Db)
      ensures State() == db
    {
      prices := db.prices;
      lastFetched := db.lastFetched;
    }
  }

  /** A run over the symbols in query order: how many steps returned True,
      and the committed database after the last step. */
  function RunSteps(step: (Db, Symbol) -> (TickerOutcome, Db), db: Db, tickers: seq<Symbol>): (r: (nat, Db))
    decreases |tickers|
    ensures r.0 <= |tickers|
  {
    if tickers == [] then (0, db)
    else
      var (o, db1) := step(db, tickers[0]);
      var (n, db2) := RunSteps(step, db1, tickers[1..]);
      ((if Succeeded(o) then 1 else 0) + n, db2)
  }

  /** A run from position i takes step i first, then the rest of the run. */
  lemma RunStepsAt(step: (Db, Symbol) -> (TickerOutcome, Db), db: Db, tickers: seq<Symbol>, i: nat)
    requires i < |tickers|
    ensures var (o, db1) := step(db, tickers[i]);
      RunSteps(step, db, tickers[i..])
        == ((if Succeeded(o) then 1 else 0) + RunSteps(step, db1, tickers[i + 1..]).0, RunSteps(step, db1, tickers[i + 1..]).1)
  {
    assert tickers[i..][0] == tickers[i];
    assert tickers[i..][1..] == tickers[i + 1..];
  }

  /** How an import run ends: exit status 1 when the symbol table is empty,
      else a success count over the number of symbols. */
  datatype RunReport = NoSymbols | Completed(successCount: nat, total: nat)

  /** How often progress is logged: every tenth of the list, and at least every symbol. */
  function ProgressInterval(n: nat): (k: nat)
    ensures k >= 1
    ensures n >= 10 ==> k == n / 10
    ensures n < 10 ==> k == 1
  {
    if n / 10 > 1 then n / 10 else 1
  }
}
