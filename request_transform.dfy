/** transformRecommendationRequest (frontend/src/utils/requestTransform.ts): the form's
    parameters become the body of the recommendation request. The principal must parse to
    a positive number, the comma-separated symbol list becomes an array of trimmed,
    non-empty symbols, and the agent type defaults to "direct". */
module RequestTransform {
  import opened Common
  import opened JsValues

  /** The parameters the form hands over. agentType and promptId are read by the
      transform but never set by the form, so they may be absent. */
  datatype RecommendationParams = RecommendationParams(
    principal: String,
    riskTolerance: String,
    strategy: String,
    agentType: Option<String>,
    symbols: String,
    search: String,
    technicalFilters: JsVal,
    promptId: Option<int>)

  /** The request body. An absent symbol list is `undefined` and so left out of the JSON. */
  datatype TransformedRequest = TransformedRequest(
    principal: real,
    riskTolerance: String,
    strategy: String,
    agentType: String,
    symbols: Option<seq<String>>,
    search: String,
    technicalFilters: JsVal,
    promptId: Option<int>)

  /** The transform either returns the body or throws an Error with a message. */
  datatype Outcome = Transformed(request: TransformedRequest) | Thrown(message: String)

  const NotANumberMessage: String := "投資元金には有効な数値を入力してください"
  const NotPositiveMessage: String := "投資元金は0より大きい値を入力してください"
  const DefaultAgentType: String := "direct"

  /** split(',').map(trim).filter(s => s.length > 0) over the pieces of the list. */
  function TrimmedSymbols(parts: seq<String>): (syms: seq<String>)
    ensures |syms| <= |parts|
    ensures forall i :: 0 <= i < |syms| ==> syms[i] != [] && Strip(syms[i]) == syms[i]
  {
    if parts == [] then []
    else
      var t := Strip(parts[0]);
      StripIdempotent(parts[0]);
      (if t != [] then [t] else []) + TrimmedSymbols(parts[1..])
  }

  /** The symbols of a comma-separated list. */
  function SymbolList(s: String): (syms: seq<String>)
    ensures forall i :: 0 <= i < |syms| ==> syms[i] != [] && ',' !in syms[i]
  {
    var parts := Split(s, ',');
    TrimmedHaveNoSeparator(parts);
    TrimmedSymbols(parts)
  }

  /** transformRecommendationRequest. `parseFloat` is JavaScript's parseFloat. */
  function Transform(data: RecommendationParams, parseFloat: String -> JsNumber): (r: Outcome)
    ensures r.Thrown? <==> parseFloat(data.principal).NaN? || parseFloat(data.principal).r <= 0.0
    ensures parseFloat(data.principal).NaN? ==> r == Thrown(NotANumberMessage)
    ensures parseFloat(data.principal).Num? && parseFloat(data.principal).r <= 0.0 ==> r == Thrown(NotPositiveMessage)
    ensures r.Transformed? ==>
      && r.request.principal > 0.0
      && parseFloat(data.principal) == Num(r.request.principal)
      && r.request.riskTolerance == data.riskTolerance
      && r.request.strategy == data.strategy
      && r.request.search == data.search
      && r.request.technicalFilters == data.technicalFilters
      && r.request.promptId == data.promptId
      && (r.request.symbols.None? <==> data.symbols == [])
      && (r.request.symbols.Some? ==> r.request.symbols.value == SymbolList(data.symbols))
      && r.request.agentType != []
      && (data.agentType.Some? && data.agentType.value != [] ==> r.request.agentType == data.agentType.value)
      && (!(data.agentType.Some? && data.agentType.value != []) ==> r.request.agentType == DefaultAgentType)
  {
    match parseFloat(data.principal)
    case NaN => Thrown(NotANumberMessage)
    case Num(principal) =>
      if principal <= 0.0 then Thrown(NotPositiveMessage)
      else
        Transformed(TransformedRequest(
          principal,
          data.riskTolerance,
          data.strategy,
          if data.agentType.Some? && data.agentType.value != [] then data.agentType.value else DefaultAgentType,
          if data.symbols != [] then Some(SymbolList(data.symbols)) else None,
          data.search,
          data.technicalFilters,
          data.promptId))
  }

  lemma {:induction false} TrimmedHaveNoSeparator(parts: seq<String>)
    requires forall p :: p in parts ==> ',' !in p
    ensures forall x :: x in TrimmedSymbols(parts) ==> ',' !in x
  {
    if parts != [] {
      TrimmedHaveNoSeparator(parts[1..]);
      var t := Strip(parts[0]);
      assert parts[0] in parts;
      forall k | 0 <= k < |t|
        ensures t[k] != ','
      {
        assert t[k] == parts[0][|parts[0]| - |TrimStart(parts[0])| + k];
      }
    }
  }

  /** A symbol is in the list exactly when some comma-separated piece trims to it and is
      not blank. */
  lemma {:induction false} TrimmedMembers(parts: seq<String>, x: String)
    ensures x in TrimmedSymbols(parts) <==> x != [] && exists p :: p in parts && Strip(p) == x
  {
    if parts != [] {
      TrimmedMembers(parts[1..], x);
      if x != [] && Strip(parts[0]) != x {
        if exists p :: p in parts && Strip(p) == x {
          var p :| p in parts && Strip(p) == x;
          assert p in parts[1..];
        }
      }
    }
  }

  /** A list of trimmed, non-empty symbols without commas survives the round trip
      through its comma-separated text. */
  lemma {:induction false} SymbolListRoundTrip(syms: seq<String>)
    requires forall i :: 0 <= i < |syms| ==> syms[i] != [] && Strip(syms[i]) == syms[i] && ',' !in syms[i]
    ensures SymbolList(Join(",", syms)) == syms
  {
    var text := Join(",", syms);
    if syms != [] {
      SplitJoin(syms, ',');
      assert Split(text, ',') == syms;
      TrimmedOfTrimmed(syms);
    } else {
      assert Split(text, ',') == [[]];
      assert TrimmedSymbols([[]]) == [] by {
        assert Strip([]) == [];
      }
    }
    assert SymbolList(text) == TrimmedSymbols(Split(text, ','));
  }

  lemma {:induction false} TrimmedOfTrimmed(syms: seq<String>)
    requires forall i :: 0 <= i < |syms| ==> syms[i] != [] && Strip(syms[i]) == syms[i]
    ensures TrimmedSymbols(syms) == syms
  {
    if syms != [] {
      TrimmedOfTrimmed(syms[1..]);
    }
  }

  /** A list that holds only commas and blanks gives an empty array, not undefined:
      only the empty string leaves the symbols out. */
  lemma BlankListIsEmptyArray(data: RecommendationParams, parseFloat: String -> JsNumber)
    requires data.symbols == " , "
    requires parseFloat(data.principal).Num? && parseFloat(data.principal).r > 0.0
    ensures Transform(data, parseFloat).request.symbols == Some([])
  {
    assert Split(" , ", ',') == [" ", " "] by {
      SplitCons(" ", " ", ',');
      assert " , " == " " + [','] + " ";
    }
    assert Strip(" ") == [];
  }
}
