/** Data access for the recommendation agents (backend/src/aiagent/data_access.py):
    symbol normalisation, the symbol filtering in front of the `fetch_*`
    queries, the prompt-template fallback and the saving of a recommendation
    session with its result rows in one transaction. The SQL queries are
    oracles; the frame-to-text rendering is foreign. */
module RecommendationData {
  import opened Common

  /** normalize_symbol: append ".T" to a non-empty symbol that lacks it. */
  function Normalize(symbol: String): (r: String)
    ensures symbol == [] ==> r == []
    ensures symbol != [] ==> EndsWith(r, ".T")
    ensures EndsWith(symbol, ".T") ==> r == symbol
    ensures symbol != [] && !EndsWith(symbol, ".T") ==> r == symbol + ".T"
  {
    if symbol != [] && !EndsWith(symbol, ".T") then symbol + ".T" else symbol
  }

  /** Normalising twice is normalising once. */
  lemma NormalizeIdempotent(symbol: String)
    ensures Normalize(Normalize(symbol)) == Normalize(symbol)
  {
  }

  /** `[normalize_symbol(s) for s in symbols if s and isinstance(s, str)]`. */
  function QuerySymbols(symbols: seq<Json>): (r: seq<String>)
    ensures |r| <= |symbols|
    ensures forall x :: x in r ==> x != [] && EndsWith(x, ".T")
    ensures forall s :: JStr(s) in symbols && s != [] ==> Normalize(s) in r
    ensures forall x :: x in r ==> exists s :: JStr(s) in symbols && s != [] && x == Normalize(s)
  {
    if symbols == [] then []
    else
      var head := if symbols[0].JStr? && symbols[0].s != [] then [Normalize(symbols[0].s)] else [];
      var tail := QuerySymbols(symbols[1..]);
      assert forall s :: JStr(s) in symbols[1..] ==> JStr(s) in symbols;
      head + tail
  }

  /** Filtering an already-filtered list again changes nothing. */
  lemma {:induction false} QuerySymbolsStable(symbols: seq<Json>)
    decreases |symbols|
    ensures QuerySymbols(AsJson(QuerySymbols(symbols))) == QuerySymbols(symbols)
  {
    if symbols != [] {
      QuerySymbolsStable(symbols[1..]);
      var head := if symbols[0].JStr? && symbols[0].s != [] then [Normalize(symbols[0].s)] else [];
      AsJsonAppend(head, QuerySymbols(symbols[1..]));
      QuerySymbolsAppend(AsJson(head), AsJson(QuerySymbols(symbols[1..])));
      if head != [] {
        NormalizeIdempotent(symbols[0].s);
        assert AsJson(head) == [JStr(Normalize(symbols[0].s))];
        assert QuerySymbols(AsJson(head)) == head by {
          assert AsJson(head)[1..] == [];
        }
      }
    }
  }

  function AsJson(xs: seq<String>): (r: seq<Json>)
    ensures |r| == |xs| && forall i :: 0 <= i < |xs| ==> r[i] == JStr(xs[i])
  {
    seq(|xs|, i requires 0 <= i < |xs| => JStr(xs[i]))
  }

  lemma AsJsonAppend(a: seq<String>, b: seq<String>)
    ensures AsJson(a + b) == AsJson(a) + AsJson(b)
  {
  }

  lemma {:induction false} QuerySymbolsAppend(a: seq<Json>, b: seq<Json>)
    decreases |a|
    ensures QuerySymbols(a + b) == QuerySymbols(a) + QuerySymbols(b)
  {
    if a == [] {
      assert a + b == b;
    } else {
      assert (a + b)[0] == a[0];
      assert (a + b)[1..] == a[1..] + b;
      QuerySymbolsAppend(a[1..], b);
    }
  }

  /** fetch_company_infos, fetch_technical_indicators and fetch_price_history: "" when no
      usable symbol remains (no query is made), else the rendered result, "" for an empty
      one (None from the query). */
  function FetchText(symbols: seq<Json>, query: seq<String> -> Option<String>): (r: String)
    ensures QuerySymbols(symbols) == [] ==> r == []
    ensures QuerySymbols(symbols) != [] ==> r == query(QuerySymbols(symbols)).GetOr([])
  {
    var normalized := QuerySymbols(symbols);
    if normalized == [] then [] else query(normalized).GetOr([])
  }

  datatype Company = Company(name: String, industry33: String)

  datatype NewsItem = NewsItem(title: String, summary: String, source: String)

  const DefaultNews: NewsItem := NewsItem("市場ニュース", "本日の株式市場は概ね好調です", "日経新聞")

  /** fetch_news: the default item for no usable symbols or no matching company, else one
      item about the first company returned. */
  function FetchNews(symbols: seq<Json>, query: seq<String> -> seq<Company>): (r: seq<NewsItem>)
    ensures |r| == 1
    ensures r[0] == DefaultNews <==> QuerySymbols(symbols) == [] || query(QuerySymbols(symbols)) == []
    ensures r[0] != DefaultNews ==> r[0].title == query(QuerySymbols(symbols))[0].name + "に関するニュース"
  {
    var normalized := QuerySymbols(symbols);
    if normalized == [] then [DefaultNews]
    else
      var companies := query(normalized);
      if companies == [] then [DefaultNews]
      else
        var first := companies[0];
        [NewsItem(first.name + "に関するニュース", first.industry33 + "業界の" + first.name + "が好調", "仮想ニュースソース")]
  }

  datatype PromptTemplate = PromptTemplate(systemRole: String, userTemplate: String, outputFormat: String)

  /** A `prompt_templates` row; system_role may be NULL. */
  datatype TemplateRow = TemplateRow(systemRole: Option<String>, userTemplate: String, outputFormat: String)

  const DefaultTemplate: PromptTemplate := PromptTemplate(
    "あなたはプロの株式アナリストです。",
    "以下の銘柄情報を分析して投資推奨を行ってください。\n銘柄情報:\n{company_info}\n\nテクニカル指標:\n{technical_indicators}\n\n価格履歴:\n{price_history}",
    "JSON形式で推奨銘柄とその理由を返してください")

  /** get_prompt_template: the built-in default for an unknown id; a NULL system role reads "". */
  function GetPromptTemplate(rows: map<int, TemplateRow>, id: int): (t: PromptTemplate)
    ensures id !in rows ==> t == DefaultTemplate
    ensures id in rows ==> t.userTemplate == rows[id].userTemplate && t.outputFormat == rows[id].outputFormat
    ensures id in rows ==> t.systemRole == rows[id].systemRole.GetOr([])
  {
    if id !in rows then DefaultTemplate
    else PromptTemplate(rows[id].systemRole.GetOr([]), rows[id].userTemplate, rows[id].outputFormat)
  }

  /** A `recommendation_sessions` row. */
  datatype Session = Session(id: nat, principal: Json, riskTolerance: Json, strategy: Json, symbols: Json,
                             technicalFilter: Json, rawResponse: Json, totalReturnEstimate: Json)

  /** A `recommendation_results` row. */
  datatype ResultRow = ResultRow(sessionId: nat, symbol: String, name: Json, allocation: Json,
                                 confidence: Option<real>, reason: Json)

  /** `rec.get('confidence') / 100.0 if rec.get('confidence') else None`: None for a falsy
      value (0 included); a truthy non-number raises (outer None), a boolean True counts as 1. */
  function Confidence(v: Json): (r: Option<Option<real>>)
    ensures !Truthy(v) ==> r == Some(None)
    ensures v.JNum? && v.n != 0.0 ==> r == Some(Some(v.n / 100.0))
    ensures r.None? <==> Truthy(v) && !v.JNum? && !v.JBool?
  {
    if !Truthy(v) then Some(None)
    else match v
      case JNum(n) => Some(Some(n / 100.0))
      case JBool(_) => Some(Some(1.0 / 100.0))
      case _ => None
  }

  /** One result row, or None when building it raises: the entry is not a dict, has no
      string symbol, or has a confidence that cannot be divided. */
  function RowFor(sessionId: nat, rec: Json): (r: Option<ResultRow>)
    ensures r.Some? <==> (rec.JObj? && "symbol" in rec.fields && rec.fields["symbol"].JStr?
                          && Confidence(GetField(rec.fields, "confidence", JNull)).Some?)
    ensures r.Some? ==> r.value.sessionId == sessionId && r.value.symbol == Normalize(rec.fields["symbol"].s)
    ensures r.Some? ==> (r.value.name == GetField(rec.fields, "name", JStr([]))
                      && r.value.reason == GetField(rec.fields, "reason", JStr([]))
                      && r.value.allocation == GetField(rec.fields, "allocation", JStr([])))
    ensures r.Some? ==> Some(r.value.confidence) == Confidence(GetField(rec.fields, "confidence", JNull))
  {
    if !rec.JObj? || "symbol" !in rec.fields || !rec.fields["symbol"].JStr? then None
    else
      var conf := Confidence(GetField(rec.fields, "confidence", JNull));
      if conf.None? then None
      else Some(ResultRow(sessionId, Normalize(rec.fields["symbol"].s), GetField(rec.fields, "name", JStr([])),
                          GetField(rec.fields, "allocation", JStr([])), conf.value, GetField(rec.fields, "reason", JStr([]))))
  }

  function RowsFor(sessionId: nat, recs: seq<Json>): (r: Option<seq<ResultRow>>)
    ensures r.Some? <==> forall i :: 0 <= i < |recs| ==> RowFor(sessionId, recs[i]).Some?
    ensures r.Some? ==> |r.value| == |recs| && forall i :: 0 <= i < |recs| ==> r.value[i] == RowFor(sessionId, recs[i]).value
  {
    if recs == [] then Some([])
    else
      var head := RowFor(sessionId, recs[0]);
      var tail := RowsFor(sessionId, recs[1..]);
      if head.None? || tail.None? then
        assert head.None? ==> !RowFor(sessionId, recs[0]).Some?;
        assert tail.None? ==> exists i :: 1 <= i < |recs| && RowFor(sessionId, recs[i]).None? by {
          if tail.None? {
            var j :| 0 <= j < |recs[1..]| && RowFor(sessionId, recs[1..][j]).None?;
            assert recs[1..][j] == recs[j + 1];
          }
        }
        None
      else
        assert forall i :: 1 <= i < |recs| ==> recs[i] == recs[1..][i - 1];
        Some([head.value] + tail.value)
  }

  /** What `for rec in result.get('recommendations', [])` iterates over: nothing without
      the key; a list's items; an empty string or dict gives no iteration; anything else
      raises (None), and so do the items of a non-empty string or dict, whose elements
      are strings and cannot be indexed by 'symbol'. */
  function Recommendations(result: map<String, Json>): (r: Option<seq<Json>>)
    ensures "recommendations" !in result ==> r == Some([])
    ensures r.Some? && r.value != [] ==> "recommendations" in result && result["recommendations"] == JList(r.value)
  {
    if "recommendations" !in result then Some([])
    else match result["recommendations"]
      case JList(items) => Some(items)
      case JStr(s) => if s == [] then Some([]) else None
      case JObj(fields) => if |fields| == 0 then Some([]) else None
      case _ => None
  }

  /** The parameters save_recommendation reads with `params[...]`, which raise when absent;
      len() of the selected symbols raises unless they are a sized value. */
  predicate ParamsReadable(params: map<String, Json>) {
    && "principal" in params && "risk_tolerance" in params && "strategy" in params
    && "selected_symbols" in params
    && (params["selected_symbols"].JStr? || params["selected_symbols"].JList? || params["selected_symbols"].JObj?)
  }

  function SessionFor(id: nat, result: map<String, Json>, params: map<String, Json>, raw: Json): (s: Session)
    requires ParamsReadable(params)
    ensures s.id == id && s.rawResponse == raw
    ensures s.totalReturnEstimate == GetField(result, "total_return_estimate", JNum(-1.0))
    ensures s.technicalFilter == GetField(params, "technical_filter", JNull)
  {
    Session(id, params["principal"], params["risk_tolerance"], params["strategy"], params["selected_symbols"],
            GetField(params, "technical_filter", JNull), raw, GetField(result, "total_return_estimate", JNum(-1.0)))
  }

  /** save_recommendation: the session and its result rows, or None when anything raises. */
  function Saved(id: nat, result: map<String, Json>, params: map<String, Json>, raw: Json): (r: Option<(Session, seq<ResultRow>)>)
    ensures r.Some? <==> ParamsReadable(params) && Recommendations(result).Some?
                         && RowsFor(id, Recommendations(result).value).Some?
    ensures r.Some? ==> r.value.0 == SessionFor(id, result, params, raw)
    ensures r.Some? ==> r.value.1 == RowsFor(id, Recommendations(result).value).value
  {
    if !ParamsReadable(params) then None
    else match Recommendations(result)
      case None => None
      case Some(recs) =>
        match RowsFor(id, recs)
        case None => None
        case Some(rows) => Some((SessionFor(id, result, params, raw), rows))
  }

  /** Every saved row belongs to the new session and carries the normalised symbol; there
      is one row per recommendation, and none without a 'recommendations' key. */
  lemma SavedRowsShape(id: nat, result: map<String, Json>, params: map<String, Json>, raw: Json)
    requires Saved(id, result, params, raw).Some?
    ensures var rows := Saved(id, result, params, raw).value.1;
      && (forall i :: 0 <= i < |rows| ==> rows[i].sessionId == id && (rows[i].symbol == [] || EndsWith(rows[i].symbol, ".T")))
      && ("recommendations" !in result ==> rows == [])
      && ("recommendations" in result && result["recommendations"].JList? ==> |rows| == |result["recommendations"].items|)
  {
  }

  /** The recommendation tables and the serial sequence behind session_id. A sequence
      is not rolled back with the transaction that drew from it, so the next value only
      ever grows, and every stored session id lies below it. */
  class RecommendationStore {
    var sessions: seq<Session>
    var results: seq<ResultRow>
    var nextSerial: nat

    predicate Valid()
      reads this
    {
      forall i :: 0 <= i < |sessions| ==> sessions[i].id < nextSerial
    }

    constructor(sessions0: seq<Session>, results0: seq<ResultRow>, serial0: nat)
      requires forall i :: 0 <= i < |sessions0| ==> sessions0[i].id < serial0
      ensures sessions == sessions0 && results == results0 && nextSerial == serial0
      ensures Valid()
    {
      sessions := sessions0;
      results := results0;
      nextSerial := serial0;
    }
  }

  /** save_recommendation against the store: one transaction (engine.begin()) holding the
      session insert and the per-recommendation inserts; any exception, including a
      database failure, rolls it back and gives false. Once the parameters have been read
      the session insert runs and draws the next serial value, which survives a rollback;
      the SELECT of the highest id then reads that value back, since it exceeds every
      stored id. A database failure is taken to happen after the session insert. */
  method SaveRecommendation(store: RecommendationStore, result: map<String, Json>, params: map<String, Json>,
                            raw: Json, dbFails: bool) returns (ok: bool)
    requires store.Valid()
    modifies store
    ensures store.Valid()
    ensures store.nextSerial == old(store.nextSerial) + (if ParamsReadable(params) then 1 else 0)
    ensures var saved := Saved(old(store.nextSerial), result, params, raw);
      && (ok <==> saved.Some? && !dbFails)
      && (ok ==> (store.sessions == old(store.sessions) + [saved.value.0]
               && store.results == old(store.results) + saved.value.1))
      && (!ok ==> store.sessions == old(store.sessions) && store.results == old(store.results))
    ensures ok ==> forall i :: 0 <= i < |old(store.sessions)| ==> old(store.sessions)[i].id < store.sessions[|store.sessions| - 1].id
  {
    if !ParamsReadable(params) {
      return false;
    }
    var id := store.nextSerial;
    store.nextSerial := store.nextSerial + 1;
    var session := SessionFor(id, result, params, raw);
    var recs := Recommendations(result);
    if recs.None? {
      return false;
    }
    var pending: seq<ResultRow> := [];
    for i := 0 to |recs.value|
      invariant |pending| == i
      invariant forall j :: 0 <= j < i ==> RowFor(id, recs.value[j]).Some? && pending[j] == RowFor(id, recs.value[j]).value
    {
      var row := RowFor(id, recs.value[i]);
      if row.None? {
        return false;
      }
      pending := pending + [row.value];
    }
    if dbFails {
      return false;
    }
    store.sessions := store.sessions + [session];
    store.results := store.results + pending;
    ok := true;
  }
}
