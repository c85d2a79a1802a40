/** formatParam of the two confirmation dialogs: the text each parameter is shown with
    before recommendations are generated. RecommendationConfirmationDialog.tsx is the
    current dialog; ConfirmationDialog.tsx is the earlier one, which knows fewer keys and
    checks the RSI filter less strictly. */
module ParamDisplay {
  import opened Common
  import opened JsValues

  const NotSpecified: String := "指定なし"
  const Yen: String := "円"
  const GoldenOn: String := "ゴールデンクロス 有り"
  const GoldenOff: String := "ゴールデンクロス 無し"
  const Separator: String := " / "

  /** The parameter keys the current dialog knows. */
  datatype ParamKey =
    | Principal | RiskTolerance | Strategy | AgentType | Symbols | Search
    | TechnicalFilters | PromptId | RecommendationPromptId | EvaluationPromptId

  /** Browser conversions the dialogs use and this model takes as given: String(value),
      Number(value).toLocaleString(), the template-literal text of a finite number, and
      parseFloat. */
  datatype Render = Render(
    str: JsVal -> String,
    localeNumber: JsVal -> String,
    numberText: real -> String,
    parseFloat: String -> JsNumber)

  const RiskLabels: map<String, String> :=
    map["low" := "低リスク", "medium" := "中リスク", "high" := "高リスク"]
  const StrategyLabels: map<String, String> :=
    map["growth" := "成長株重視", "dividend" := "配当株重視", "balanced" := "バランス型", "value" := "バリュー投資"]
  const AgentTypeLabels: map<String, String> :=
    map["direct" := "Direct (シンプルな推奨生成)", "mcpagent" := "MCP Agent (評価・最適化ループ付き)"]

  /** null, undefined and '' are shown as 指定なし whatever the key. */
  predicate Unset(v: JsVal) {
    v == Undefined || v == Null || v == Text([])
  }

  /** A code's label; an unknown code is shown as it is, a non-string through String(). */
  function Label(labels: map<String, String>, v: JsVal, env: Render): (t: String)
    ensures v.Text? && v.s in labels ==> t == labels[v.s]
    ensures v.Text? && v.s !in labels ==> t == v.s
    ensures !v.Text? ==> t == env.str(v)
  {
    if v.Text? then (if v.s in labels then labels[v.s] else v.s) else env.str(v)
  }

  /** `typeof val === 'string' ? parseFloat(val) : val` */
  function Numeric(v: JsVal, env: Render): (n: JsVal)
    ensures v.Text? ==> n == Number(env.parseFloat(v.s))
    ensures !v.Text? ==> n == v
  {
    if v.Text? then Number(env.parseFloat(v.s)) else v
  }

  function RsiText(greater: bool, number: String): String {
    "RSI " + (if greater then "＞" else "＜") + " " + number
  }

  /** The current dialog shows an RSI pair only for the operators '>' and '<' with a
      value that is, or parses to, a number other than NaN. */
  function RsiParts(rsi: JsVal, env: Render): (parts: seq<String>)
    ensures |parts| <= 1
    ensures |parts| == 1 <==>
      rsi.Array? && (At(rsi, 0) == Text(">") || At(rsi, 0) == Text("<"))
      && Numeric(At(rsi, 1), env).Number? && Numeric(At(rsi, 1), env).n.Num?
    ensures |parts| == 1 ==>
      parts[0] == RsiText(At(rsi, 0) == Text(">"), env.numberText(Numeric(At(rsi, 1), env).n.r))
  {
    if !rsi.Array? then []
    else
      var op := At(rsi, 0);
      var num := Numeric(At(rsi, 1), env);
      if (op == Text(">") || op == Text("<")) && num.Number? && num.n.Num? then
        [RsiText(op == Text(">"), env.numberText(num.n.r))]
      else []
  }

  /** The golden-cross flag of a pair: a string means true when it reads "true" in any
      case, anything else by its truthiness. */
  predicate GoldenFlag(v: JsVal) {
    if v.Text? then Lower(v.s) == "true" else JsTruthy(v)
  }

  /** A golden-cross pair is always shown, as 有り or 無し. */
  function GoldenParts(gc: JsVal): (parts: seq<String>)
    ensures |parts| == 1 <==> gc.Array?
    ensures parts == [GoldenOn] <==> gc.Array? && GoldenFlag(At(gc, 1))
    ensures parts == [GoldenOff] <==> gc.Array? && !GoldenFlag(At(gc, 1))
    ensures |parts| <= 1
  {
    if !gc.Array? then []
    else [if GoldenFlag(At(gc, 1)) then GoldenOn else GoldenOff]
  }

  /** Joining the shown filters: an empty list gives 指定なし, and a non-empty one never
      does, since every piece starts with "RSI" or "ゴールデンクロス". */
  function JoinFilters(parts: seq<String>): (t: String)
    requires forall i :: 0 <= i < |parts| ==> parts[i] != [] && parts[i][0] != NotSpecified[0]
    ensures t == NotSpecified <==> parts == []
    ensures parts != [] ==> t == Join(Separator, parts)
  {
    if parts == [] then NotSpecified
    else
      JoinHead(Separator, parts);
      Join(Separator, parts)
  }

  lemma {:induction false} JoinHead(sep: String, parts: seq<String>)
    requires parts != [] && parts[0] != []
    ensures Join(sep, parts) != [] && Join(sep, parts)[0] == parts[0][0]
  {
  }

  predicate FiltersObject(value: JsVal) {
    JsTruthy(value) && IsObject(value)
  }

  /** The technical filters as the current dialog shows them. */
  function FiltersText(value: JsVal, env: Render): (t: String)
    ensures t == NotSpecified <==>
      !FiltersObject(value) || RsiParts(Member(value, "rsi"), env) + GoldenParts(Member(value, "golden_cross")) == []
    ensures t != NotSpecified ==>
      t == Join(Separator, RsiParts(Member(value, "rsi"), env) + GoldenParts(Member(value, "golden_cross")))
  {
    if !FiltersObject(value) then NotSpecified
    else JoinFilters(RsiParts(Member(value, "rsi"), env) + GoldenParts(Member(value, "golden_cross")))
  }

  /** The earlier dialog shows an RSI pair for any truthy operator and any number,
      NaN included, and writes every operator other than '>' as ＜. */
  function LegacyRsiParts(rsi: JsVal, env: Render): (parts: seq<String>)
    ensures |parts| <= 1
    ensures |parts| == 1 <==> rsi.Array? && JsTruthy(At(rsi, 0)) && Numeric(At(rsi, 1), env).Number?
    ensures |parts| == 1 ==>
      parts[0] == RsiText(At(rsi, 0) == Text(">"), NumberText(Numeric(At(rsi, 1), env).n, env.numberText))
  {
    if !rsi.Array? then []
    else
      var op := At(rsi, 0);
      var num := Numeric(At(rsi, 1), env);
      if JsTruthy(op) && num.Number? then [RsiText(op == Text(">"), NumberText(num.n, env.numberText))]
      else []
  }

  /** The technical filters as the earlier dialog shows them. */
  function LegacyFiltersText(value: JsVal, env: Render): (t: String)
    ensures t == NotSpecified <==>
      !FiltersObject(value) || LegacyRsiParts(Member(value, "rsi"), env) + GoldenParts(Member(value, "golden_cross")) == []
    ensures t != NotSpecified ==>
      t == Join(Separator, LegacyRsiParts(Member(value, "rsi"), env) + GoldenParts(Member(value, "golden_cross")))
  {
    if !FiltersObject(value) then NotSpecified
    else JoinFilters(LegacyRsiParts(Member(value, "rsi"), env) + GoldenParts(Member(value, "golden_cross")))
  }

  predicate IsPromptKey(key: ParamKey) {
    key == PromptId || key == RecommendationPromptId || key == EvaluationPromptId
  }

  /** `String(value || '指定なし')` */
  function Plain(value: JsVal, env: Render): (t: String)
    ensures !JsTruthy(value) ==> t == NotSpecified
    ensures value.Text? && value.s != [] ==> t == value.s
  {
    if !JsTruthy(value) then NotSpecified else if value.Text? then value.s else env.str(value)
  }

  /** formatParam of the current dialog. */
  function FormatParam(key: ParamKey, value: JsVal, env: Render): (t: String)
    ensures Unset(value) ==> t == NotSpecified
    ensures !Unset(value) && key == RiskTolerance ==> t == Label(RiskLabels, value, env)
    ensures !Unset(value) && key == Strategy ==> t == Label(StrategyLabels, value, env)
    ensures !Unset(value) && key == AgentType ==> t == Label(AgentTypeLabels, value, env)
    ensures !Unset(value) && key == Principal ==> t == env.localeNumber(value) + Yen
    ensures !Unset(value) && IsPromptKey(key) && value.Number? ==> t == "ID: " + NumberText(value.n, env.numberText)
    ensures IsPromptKey(key) && !value.Number? ==> t == NotSpecified
    ensures !Unset(value) && key == TechnicalFilters ==> t == FiltersText(value, env)
    ensures (key == Symbols || key == Search) ==> t == Plain(value, env)
  {
    if Unset(value) then NotSpecified
    else
      match key
      case RiskTolerance => Label(RiskLabels, value, env)
      case Strategy => Label(StrategyLabels, value, env)
      case AgentType => Label(AgentTypeLabels, value, env)
      case Principal => env.localeNumber(value) + Yen
      case TechnicalFilters => FiltersText(value, env)
      case Symbols => Plain(value, env)
      case Search => Plain(value, env)
      case _ => if value.Number? then "ID: " + NumberText(value.n, env.numberText) else NotSpecified
  }

  /** formatParam of the earlier dialog: the agent type and prompt ids fall to the
      default case, and the technical filters use the looser RSI check. */
  function LegacyFormatParam(key: ParamKey, value: JsVal, env: Render): (t: String)
    ensures Unset(value) ==> t == NotSpecified
    ensures !Unset(value) && key == RiskTolerance ==> t == Label(RiskLabels, value, env)
    ensures !Unset(value) && key == Strategy ==> t == Label(StrategyLabels, value, env)
    ensures !Unset(value) && key == Principal ==> t == env.localeNumber(value) + Yen
    ensures !Unset(value) && key == TechnicalFilters ==> t == LegacyFiltersText(value, env)
    ensures key != RiskTolerance && key != Strategy && key != Principal && key != TechnicalFilters ==>
      t == Plain(value, env)
  {
    if Unset(value) then NotSpecified
    else
      match key
      case RiskTolerance => Label(RiskLabels, value, env)
      case Strategy => Label(StrategyLabels, value, env)
      case Principal => env.localeNumber(value) + Yen
      case TechnicalFilters => LegacyFiltersText(value, env)
      case _ => Plain(value, env)
  }

  /** The two dialogs agree on an RSI pair the current one shows. */
  lemma DialogsAgreeOnShownRsi(rsi: JsVal, env: Render)
    requires |RsiParts(rsi, env)| == 1
    ensures LegacyRsiParts(rsi, env) == RsiParts(rsi, env)
  {
  }

  /** A pair whose value parses to NaN is hidden by the current dialog but shown by the
      earlier one as "RSI ＞ NaN". */
  lemma LegacyShowsNaN(env: Render)
    ensures RsiParts(Array([Text(">"), Number(NaN)]), env) == []
    ensures LegacyRsiParts(Array([Text(">"), Number(NaN)]), env) == [RsiText(true, "NaN")]
  {
  }

  /** An operator such as ">=" is hidden by the current dialog and shown as ＜ by the
      earlier one. */
  lemma LegacyMislabelsOperator(r: real, env: Render)
    ensures RsiParts(Array([Text(">="), Number(Num(r))]), env) == []
    ensures LegacyRsiParts(Array([Text(">="), Number(Num(r))]), env) == [RsiText(false, env.numberText(r))]
  {
    assert Text(">=") != Text(">");
    assert Text(">=") != Text("<");
  }

  /** A golden-cross pair whose flag is the string "TRUE" is shown as set. */
  lemma GoldenFlagIgnoresCase()
    ensures GoldenParts(Array([Text("=="), Text("TRUE")])) == [GoldenOn]
  {
    assert Lower("TRUE") == "true";
  }

  /** An object with no filter the dialog recognises is shown as 指定なし, while the
      empty object is truthy and so takes the same path as a real filter set. */
  lemma EmptyFiltersNotSpecified(env: Render)
    ensures FiltersText(Object([]), env) == NotSpecified
    ensures LegacyFiltersText(Object([]), env) == NotSpecified
  {
  }
}
