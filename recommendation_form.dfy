/** The recommendation form (frontend/src/RecommendationForm.tsx): its field state,
    the technical-filter object it builds from the RSI and golden-cross controls, and the
    parameters it submits. The lemmas at the end follow a submission through the
    confirmation dialog's display, the request transform and the backend's filter
    builder. */
module RecommendationForm {
  import opened Common
  import opened JsValues
  import RequestTransform
  import ParamDisplay
  import Api

  /** The names of the form's inputs, the keys of its field state. */
  const FormFields: set<String> := {"principal", "riskTolerance", "strategy", "symbols", "search"}

  /** The component state: the fields, the RSI operator select ('', '<' or '>'), the
      RSI value input and the golden-cross checkbox. */
  datatype FormState = FormState(data: map<String, String>, rsiOperator: String, rsiValue: String, goldenCross: bool)

  predicate WellFormed(form: FormState) {
    FormFields <= form.data.Keys
  }

  /** The state the form opens with. */
  function InitialState(): (form: FormState)
    ensures WellFormed(form) && form.data.Keys == FormFields
    ensures form.data["principal"] == "1000000" && form.data["riskTolerance"] == "medium"
    ensures form.data["strategy"] == "growth" && form.data["symbols"] == [] && form.data["search"] == []
    ensures form.rsiOperator == [] && form.rsiValue == [] && !form.goldenCross
  {
    FormState(
      map["principal" := "1000000", "riskTolerance" := "medium", "strategy" := "growth", "symbols" := "", "search" := ""],
      "", "", false)
  }

  /** handleChange: the input named `name` takes the new value; every other field and
      control keeps its value. */
  function HandleChange(form: FormState, name: String, value: String): (r: FormState)
    ensures name in r.data && r.data[name] == value
    ensures r.data.Keys == form.data.Keys + {name}
    ensures forall k :: k in form.data && k != name ==> r.data[k] == form.data[k]
    ensures r.rsiOperator == form.rsiOperator && r.rsiValue == form.rsiValue && r.goldenCross == form.goldenCross
  {
    form.(data := form.data[name := value])
  }

  /** Editing one of the form's own inputs keeps the field set. */
  lemma ChangeKeepsFields(form: FormState, name: String, value: String)
    requires WellFormed(form) && name in FormFields
    ensures WellFormed(HandleChange(form, name, value))
    ensures HandleChange(form, name, value).data.Keys == form.data.Keys
  {
  }

  predicate RsiSet(form: FormState) {
    form.rsiOperator != [] && form.rsiValue != []
  }

  const GoldenPair: JsVal := Array([Text("=="), Text("true")])

  function RsiPair(form: FormState, parseFloat: String -> JsNumber): JsVal {
    Array([Text(form.rsiOperator), Number(parseFloat(form.rsiValue))])
  }

  /** setTechFilter: an "rsi" entry exactly when both RSI controls are filled, a
      "golden_cross" entry exactly when the box is ticked, and nothing else. */
  function TechFilters(form: FormState, parseFloat: String -> JsNumber): (f: JsVal)
    ensures f.Object?
    ensures Member(f, "rsi") == (if RsiSet(form) then RsiPair(form, parseFloat) else Undefined)
    ensures Member(f, "golden_cross") == (if form.goldenCross then GoldenPair else Undefined)
    ensures forall i :: 0 <= i < |f.fields| ==> f.fields[i].0 == "rsi" || f.fields[i].0 == "golden_cross"
    ensures !RsiSet(form) && !form.goldenCross ==> f == Object([])
  {
    assert "rsi" != "golden_cross";
    var rsi := ("rsi", RsiPair(form, parseFloat));
    var golden := ("golden_cross", GoldenPair);
    if RsiSet(form) && form.goldenCross then
      assert [rsi, golden][..1] == [rsi];
      assert Lookup([rsi], "rsi") == rsi.1;
      Object([rsi, golden])
    else if RsiSet(form) then Object([rsi])
    else if form.goldenCross then Object([golden])
    else Object([])
  }

  /** handleSubmit: the fields plus a technical_filters object that is always present.
      The form sets neither an agent type nor a prompt. */
  function Submit(form: FormState, parseFloat: String -> JsNumber): (p: RequestTransform.RecommendationParams)
    requires WellFormed(form)
    ensures p.principal == form.data["principal"] && p.riskTolerance == form.data["riskTolerance"]
    ensures p.strategy == form.data["strategy"] && p.symbols == form.data["symbols"] && p.search == form.data["search"]
    ensures p.technicalFilters == TechFilters(form, parseFloat)
    ensures p.agentType.None? && p.promptId.None?
  {
    RequestTransform.RecommendationParams(
      form.data["principal"], form.data["riskTolerance"], form.data["strategy"], None,
      form.data["symbols"], form.data["search"], TechFilters(form, parseFloat), None)
  }

  /** The filter entries as the backend's technical_filters dict holds them once the
      request's JSON is decoded. */
  function SentFilters(form: FormState, parseFloat: String -> JsNumber): seq<(String, Json)> {
    Entries(TechFilters(form, parseFloat))
  }

  const GoldenJson: Json := JList([JStr("=="), JStr("true")])

  lemma SentFiltersShape(form: FormState, parseFloat: String -> JsNumber)
    ensures var rsi := if RsiSet(form) then [("rsi", ToJson(RsiPair(form, parseFloat)))] else [];
      var golden := if form.goldenCross then [("golden_cross", GoldenJson)] else [];
      SentFilters(form, parseFloat) == rsi + golden
  {
    var rsi := ("rsi", RsiPair(form, parseFloat));
    var golden := ("golden_cross", GoldenPair);
    if RsiSet(form) && form.goldenCross {
      SentBoth(form, parseFloat);
    } else if RsiSet(form) {
      assert TechFilters(form, parseFloat) == Object([rsi]);
      SentOne(form, parseFloat, rsi);
    } else if form.goldenCross {
      assert TechFilters(form, parseFloat) == Object([golden]);
      SentOne(form, parseFloat, golden);
      GoldenPairJson();
    } else {
      assert EntriesFrom(Object([]), 0) == [];
    }
  }

  lemma SentBoth(form: FormState, parseFloat: String -> JsNumber)
    requires RsiSet(form) && form.goldenCross
    ensures SentFilters(form, parseFloat) == [("rsi", ToJson(RsiPair(form, parseFloat)))] + [("golden_cross", GoldenJson)]
  {
    var rsi := ("rsi", RsiPair(form, parseFloat));
    var golden := ("golden_cross", GoldenPair);
    assert TechFilters(form, parseFloat) == Object([rsi, golden]);
    TwoFieldEntries(rsi, golden);
    GoldenPairJson();
  }

  lemma SentOne(form: FormState, parseFloat: String -> JsNumber, a: (String, JsVal))
    requires a.1 != Undefined
    requires TechFilters(form, parseFloat) == Object([a])
    ensures SentFilters(form, parseFloat) == [(a.0, ToJson(a.1))]
  {
    OneFieldEntries(a);
  }

  lemma GoldenPairJson()
    ensures ToJson(GoldenPair) == GoldenJson
  {
    assert ElementsJson([Text("true")]) == [JStr("true")];
  }

  lemma OneFieldEntries(a: (String, JsVal))
    requires a.1 != Undefined
    ensures Entries(Object([a])) == [(a.0, ToJson(a.1))]
  {
    var f := Object([a]);
    assert EntriesFrom(f, 1) == [];
  }

  lemma TwoFieldEntries(a: (String, JsVal), b: (String, JsVal))
    requires a.1 != Undefined && b.1 != Undefined
    ensures Entries(Object([a, b])) == [(a.0, ToJson(a.1)), (b.0, ToJson(b.1))]
  {
    var f := Object([a, b]);
    assert EntriesFrom(f, 2) == [];
    assert EntriesFrom(f, 1) == [(b.0, ToJson(b.1))];
  }

  /** The backend's clauses for two filter entries, in order. */
  lemma TwoEntries(a: (String, Json), b: (String, Json), other: Json -> String, isFloat: String -> bool)
    ensures Api.FilterClauses([a, b], other, isFloat)
      == Api.AsList(Api.FilterClause(a.0, a.1, other, isFloat)) + Api.AsList(Api.FilterClause(b.0, b.1, other, isFloat))
  {
    assert [a, b][..1] == [a];
    assert [a][..0] == [];
  }

  lemma OneEntry(a: (String, Json), other: Json -> String, isFloat: String -> bool)
    ensures Api.FilterClauses([a], other, isFloat) == Api.AsList(Api.FilterClause(a.0, a.1, other, isFloat))
  {
    assert [a][..0] == [];
  }

  lemma GoldenEntryAccepted(other: Json -> String, isFloat: String -> bool)
    ensures Api.FilterClause("golden_cross", GoldenJson, other, isFloat) == Some(Api.Single(Api.GoldenCross))
  {
    assert Lower("true") == "true";
  }

  /** A submitted RSI filter with a number reaches the backend as an RSI clause with the
      chosen operator, and a ticked box as the golden-cross clause, in that order. */
  lemma SubmittedFiltersApplied(form: FormState, parseFloat: String -> JsNumber, x: real,
                                other: Json -> String, isFloat: String -> bool)
    requires RsiSet(form) && parseFloat(form.rsiValue) == Num(x)
    ensures Api.FilterClauses(SentFilters(form, parseFloat), other, isFloat)
      == [Api.Single(Api.RsiCompare(form.rsiOperator, other(JNum(x))))]
         + (if form.goldenCross then [Api.Single(Api.GoldenCross)] else [])
  {
    SentFiltersShape(form, parseFloat);
    var pair := JList([JStr(form.rsiOperator), JNum(x)]);
    RsiPairJson(form, parseFloat, Num(x));
    Api.OperatorNotValidated(form.rsiOperator, x, other, isFloat);
    if form.goldenCross {
      assert SentFilters(form, parseFloat) == [("rsi", pair), ("golden_cross", GoldenJson)];
      TwoEntries(("rsi", pair), ("golden_cross", GoldenJson), other, isFloat);
      GoldenEntryAccepted(other, isFloat);
    } else {
      assert SentFilters(form, parseFloat) == [("rsi", pair)];
      OneEntry(("rsi", pair), other, isFloat);
    }
  }

  /** The RSI pair as the request's JSON carries it: NaN becomes null. */
  lemma RsiPairJson(form: FormState, parseFloat: String -> JsNumber, n: JsNumber)
    requires parseFloat(form.rsiValue) == n
    ensures ToJson(RsiPair(form, parseFloat)) == JList([JStr(form.rsiOperator), if n.NaN? then JNull else JNum(n.r)])
  {
    assert ElementsJson([Number(n)]) == [if n.NaN? then JNull else JNum(n.r)];
  }

  /** An RSI value that parses to NaN is sent as null, and the backend then drops the
      RSI filter without an error: only the golden cross, if ticked, is applied. */
  lemma NaNRsiDropped(form: FormState, parseFloat: String -> JsNumber, other: Json -> String, isFloat: String -> bool)
    requires RsiSet(form) && parseFloat(form.rsiValue).NaN?
    ensures Api.FilterClauses(SentFilters(form, parseFloat), other, isFloat)
      == (if form.goldenCross then [Api.Single(Api.GoldenCross)] else [])
  {
    SentFiltersShape(form, parseFloat);
    var pair := JList([JStr(form.rsiOperator), JNull]);
    RsiPairJson(form, parseFloat, NaN);
    assert Api.FilterClause("rsi", pair, other, isFloat).None?;
    if form.goldenCross {
      assert SentFilters(form, parseFloat) == [("rsi", pair), ("golden_cross", GoldenJson)];
      TwoEntries(("rsi", pair), ("golden_cross", GoldenJson), other, isFloat);
      GoldenEntryAccepted(other, isFloat);
    } else {
      OneEntry(("rsi", pair), other, isFloat);
    }
  }

  /** The current confirmation dialog shows the submitted filters as they were chosen:
      the RSI comparison with its number, then the golden cross. */
  lemma SubmittedFiltersShown(form: FormState, env: ParamDisplay.Render, x: real)
    requires form.rsiOperator == ">" || form.rsiOperator == "<"
    requires form.rsiValue != [] && env.parseFloat(form.rsiValue) == Num(x)
    ensures ParamDisplay.FiltersText(TechFilters(form, env.parseFloat), env)
      == Join(ParamDisplay.Separator,
              [ParamDisplay.RsiText(form.rsiOperator == ">", env.numberText(x))]
              + (if form.goldenCross then [ParamDisplay.GoldenOn] else []))
  {
    var f := TechFilters(form, env.parseFloat);
    assert Text(form.rsiOperator) == Text(">") <==> form.rsiOperator == ">";
    assert ParamDisplay.GoldenFlag(Text("true")) by {
      assert Lower("true") == "true";
    }
  }

  /** The form's operators are the only ones the current dialog shows; any other
      operator reaching the backend still filters, unseen in the dialog. */
  lemma HiddenOperatorStillApplied(op: String, x: real, env: ParamDisplay.Render,
                                   other: Json -> String, isFloat: String -> bool)
    requires op != [] && op != ">" && op != "<"
    ensures ParamDisplay.RsiParts(Array([Text(op), Number(Num(x))]), env) == []
    ensures Api.FilterClause("rsi", JList([JStr(op), JNum(x)]), other, isFloat).Some?
  {
    Api.OperatorNotValidated(op, x, other, isFloat);
  }

  /** Submitting the form untouched asks for a principal of one million with medium risk,
      the growth strategy, the direct agent, no symbol list and no filters. */
  lemma InitialSubmission(parseFloat: String -> JsNumber, other: Json -> String, isFloat: String -> bool)
    requires parseFloat("1000000") == Num(1000000.0)
    ensures var r := RequestTransform.Transform(Submit(InitialState(), parseFloat), parseFloat);
      && r.Transformed?
      && r.request.principal == 1000000.0
      && r.request.riskTolerance == "medium" && r.request.strategy == "growth"
      && r.request.agentType == RequestTransform.DefaultAgentType
      && r.request.symbols.None?
      && r.request.technicalFilters == Object([])
      && Api.FilterClauses(SentFilters(InitialState(), parseFloat), other, isFloat) == []
  {
    assert EntriesFrom(Object([]), 0) == [];
  }
}
