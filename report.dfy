/** The per-stock XML report (backend/src/batch/report_generator.py and its
    identical copy backend/batch/report_generator.py; the earlier
    backend/report_generator.py has no AI element). An entry is built from the
    last row of a stock's frame as a `Stock` element tree; the report file gets
    a header on init and the closing tag on finalize. Number formatting
    (":.2f", ":.4f", ":,") is a parameter, and the tree is returned as a value
    rather than serialised. */
module Report {
  import opened Common

  /** An XML element: tag, attributes in the order they were set, optional text, children. */
  datatype Element = Element(tag: String, attrs: seq<(String, String)>, text: Option<String>, children: seq<Element>)

  /** The value of an attribute, None when it was never set. */
  function Attr(e: Element, name: String): Option<String>
    decreases |e.attrs|
  {
    if e.attrs == [] then None
    else if e.attrs[|e.attrs| - 1].0 == name then Some(e.attrs[|e.attrs| - 1].1)
    else Attr(e.(attrs := e.attrs[..|e.attrs| - 1]), name)
  }

  function Tags(es: seq<Element>): (r: seq<String>)
    ensures |r| == |es| && forall i :: 0 <= i < |es| ==> r[i] == es[i].tag
  {
    seq(|es|, i requires 0 <= i < |es| => es[i].tag)
  }

  /** The tags of an optional element, the middle one and another optional element. */
  lemma TagsOfParts(a: seq<Element>, e: Element, b: seq<Element>)
    requires |a| <= 1 && |b| <= 1
    ensures Tags(a + [e] + b) == (if a == [] then [] else [a[0].tag]) + [e.tag] + (if b == [] then [] else [b[0].tag])
  {
  }

  lemma PartsAt(a: seq<Element>, e: Element, b: seq<Element>)
    requires |a| <= 1 && |b| <= 1
    ensures (a + [e] + b)[|a|] == e
    ensures a != [] ==> (a + [e] + b)[0] == a[0]
    ensures b != [] ==> (a + [e] + b)[|a + [e] + b| - 1] == b[0]
  {
  }

  lemma StockAttrs(symbol: String, name: String, children: seq<Element>)
    ensures var e := Element("Stock", [("symbol", symbol), ("name", name)], None, children);
      Attr(e, "symbol") == Some(symbol) && Attr(e, "name") == Some(name)
  {
    var e := Element("Stock", [("symbol", symbol), ("name", name)], None, children);
    assert e.attrs[1].0 == "name";
    assert e.(attrs := e.attrs[..1]).attrs == [("symbol", symbol)];
    assert "symbol" != "name";
  }

  /** The last frame row's columns; None is NaN. */
  datatype ReportRow = ReportRow(close: Option<real>, ma30: Option<real>, volume: Option<real>,
                                 high: Option<real>, low: Option<real>, rsi: Option<real>,
                                 macd: Option<real>, signal: Option<real>, golden: bool, dead: bool)

  /** The three number formats the entry uses. */
  datatype NumberFormat = TwoDecimals | FourDecimals | Grouped

  type Formatter = (Option<real>, NumberFormat) -> String

  const Overbought: String := "買われすぎ"
  const Oversold: String := "売られすぎ"
  const Neutral: String := "中立"
  const Bullish: String := "強気"
  const Bearish: String := "弱気"
  const Present: String := "有"
  const Absent: String := "無"
  const NotAvailable: String := "N/A"

  /** The RSI state: above 70 overbought, below 30 oversold, otherwise (30 and 70
      themselves, and NaN) neutral. */
  function RsiState(rsi: Option<real>): (s: String)
    ensures s == Overbought <==> rsi.Some? && rsi.value > 70.0
    ensures s == Oversold <==> rsi.Some? && rsi.value < 30.0
    ensures s == Neutral <==> rsi.None? || 30.0 <= rsi.value <= 70.0
  {
    if rsi.Some? && rsi.value > 70.0 then Overbought
    else if rsi.Some? && rsi.value < 30.0 then Oversold
    else Neutral
  }

  /** The MACD trend: bullish iff the MACD is strictly above its signal line. */
  function MacdTrend(macd: Option<real>, signal: Option<real>): (s: String)
    ensures s == Bullish <==> macd.Some? && signal.Some? && macd.value > signal.value
    ensures s == Bearish <==> !(macd.Some? && signal.Some? && macd.value > signal.value)
  {
    if macd.Some? && signal.Some? && macd.value > signal.value then Bullish else Bearish
  }

  function CrossText(b: bool): (s: String)
    ensures s == Present <==> b
    ensures s == Absent <==> !b
  {
    if b then Present else Absent
  }

  function Difference(a: Option<real>, b: Option<real>): Option<real> {
    if a.Some? && b.Some? then Some(a.value - b.value) else None
  }

  function Leaf(tag: String, text: String): Element {
    Element(tag, [], Some(text), [])
  }

  /** The children of `Indicators`, in order. */
  const IndicatorTags: seq<String> := ["Close", "MA30", "Volume", "PriceRange", "RSI", "MACD", "GoldenCross", "DeadCross"]

  /** The children of `AIRecommendation`, in order. */
  const AiTags: seq<String> := ["RiskAssessment", "ReturnAssessment", "OverallRating", "Recommendation", "Reasoning"]

  /** The `Indicators` element of a row. */
  function IndicatorsOf(row: ReportRow, format: Formatter): (e: Element)
    ensures e.tag == "Indicators"
    ensures Tags(e.children) == IndicatorTags
    ensures Attr(e.children[4], "state") == Some(RsiState(row.rsi))
    ensures Attr(e.children[5], "trend") == Some(MacdTrend(row.macd, row.signal))
    ensures e.children[6].text == Some(CrossText(row.golden)) && e.children[7].text == Some(CrossText(row.dead))
  {
    Element("Indicators", [], None, [
      Leaf("Close", format(row.close, TwoDecimals)),
      Leaf("MA30", format(row.ma30, TwoDecimals)),
      Leaf("Volume", format(row.volume, Grouped)),
      Leaf("PriceRange", format(Difference(row.high, row.low), TwoDecimals)),
      Element("RSI", [("value", format(row.rsi, TwoDecimals)), ("state", RsiState(row.rsi))], None, []),
      Element("MACD", [("value", format(row.macd, FourDecimals)), ("signal", format(row.signal, FourDecimals)),
                       ("trend", MacdTrend(row.macd, row.signal))], None, []),
      Leaf("GoldenCross", CrossText(row.golden)),
      Leaf("DeadCross", CrossText(row.dead))])
  }

  /** The `AIRecommendation` element; missing scores read "0" and missing texts "N/A". */
  function AiElement(ai: map<String, String>): (e: Element)
    ensures e.tag == "AIRecommendation"
    ensures Tags(e.children) == AiTags
    ensures Attr(e.children[0], "score") == Some(GetField(ai, "risk_score", "0"))
    ensures Attr(e.children[1], "score") == Some(GetField(ai, "return_score", "0"))
    ensures e.children[4].text == Some(GetField(ai, "reasoning", NotAvailable))
  {
    Element("AIRecommendation", [], None, [
      Element("RiskAssessment", [("score", GetField(ai, "risk_score", "0")), ("level", GetField(ai, "risk_level", NotAvailable))], None, []),
      Element("ReturnAssessment", [("score", GetField(ai, "return_score", "0")), ("level", GetField(ai, "return_level", NotAvailable))], None, []),
      Leaf("OverallRating", GetField(ai, "overall_rating", NotAvailable)),
      Leaf("Recommendation", GetField(ai, "recommendation", NotAvailable)),
      Leaf("Reasoning", GetField(ai, "reasoning", NotAvailable))])
  }

  /** Python truthiness of the optional recommendation dict: None and {} are false. */
  predicate HasRecommendation(ai: Option<map<String, String>>) {
    ai.Some? && |ai.value| > 0
  }

  /** The children of a `Stock` element: a `ChartImage` first iff a chart path is given,
      then `Indicators` of the row, then `AIRecommendation` iff the dict is truthy. */
  function StockChildren(row: ReportRow, chartPath: Option<String>, ai: Option<map<String, String>>,
                         format: Formatter): (children: seq<Element>)
    ensures Tags(children) ==
      (if chartPath.Some? then ["ChartImage"] else []) + ["Indicators"] + (if HasRecommendation(ai) then ["AIRecommendation"] else [])
    ensures chartPath.Some? ==> children[0].text == chartPath
    ensures children[if chartPath.Some? then 1 else 0] == IndicatorsOf(row, format)
    ensures HasRecommendation(ai) ==> children[|children| - 1] == AiElement(ai.value)
  {
    var chart := if chartPath.Some? then [Leaf("ChartImage", chartPath.value)] else [];
    var aiPart := if HasRecommendation(ai) then [AiElement(ai.value)] else [];
    var indicators := IndicatorsOf(row, format);
    TagsOfParts(chart, indicators, aiPart);
    assert chart != [] ==> chart[0].tag == "ChartImage";
    assert aiPart != [] ==> aiPart[0].tag == "AIRecommendation";
    PartsAt(chart, indicators, aiPart);
    chart + [indicators] + aiPart
  }

  /** generate_stock_entry: None when the frame is empty (`iloc[-1]` raises); otherwise a
      `Stock` element with symbol and name whose children are those of the last row. */
  function StockEntry(frame: seq<ReportRow>, symbol: String, name: String, chartPath: Option<String>,
                      ai: Option<map<String, String>>, format: Formatter): (r: Option<Element>)
    ensures r.None? <==> frame == []
    ensures r.Some? ==> r.value.tag == "Stock" && Attr(r.value, "symbol") == Some(symbol) && Attr(r.value, "name") == Some(name)
    ensures r.Some? ==> r.value.children == StockChildren(frame[|frame| - 1], chartPath, ai, format)
  {
    if frame == [] then None
    else
      var children := StockChildren(frame[|frame| - 1], chartPath, ai, format);
      StockAttrs(symbol, name, children);
      Some(Element("Stock", [("symbol", symbol), ("name", name)], None, children))
  }


  /** The earlier generate_stock_entry, which takes no recommendation argument: the same
      entry as the current one given no recommendation, so it never has an AI element. */
  function EntryWithoutAi(frame: seq<ReportRow>, symbol: String, name: String, chartPath: Option<String>,
                          format: Formatter): (r: Option<Element>)
    ensures r.None? <==> frame == []
    ensures r.Some? ==> forall i :: 0 <= i < |r.value.children| ==> r.value.children[i].tag != "AIRecommendation"
  {
    var r := StockEntry(frame, symbol, name, chartPath, None, format);
    assert r.Some? ==> Tags(r.value.children) == (if chartPath.Some? then ["ChartImage"] else []) + ["Indicators"];
    r
  }

  /** An empty recommendation dict is falsy: the entry is the same as with none at all. */
  lemma EmptyRecommendationIsOmitted(frame: seq<ReportRow>, symbol: String, name: String, chartPath: Option<String>,
                                     format: Formatter)
    ensures StockEntry(frame, symbol, name, chartPath, Some(map[]), format) == EntryWithoutAi(frame, symbol, name, chartPath, format)
  {
  }

  const Header: String := "<?xml version=\"1.0\" encoding=\"utf-8\"?>\n<StockAnalysisReport>\n"
  const Footer: String := "</StockAnalysisReport>"

  /** The report file; the entries are appended by the caller between init and finalize. */
  class ReportFile {
    var content: String

    constructor(initial: String)
      ensures content == initial
    {
      content := initial;
    }

    /** init_xml_report: truncate and write the declaration and the opening tag. */
    method Init(fails: bool) returns (ok: bool)
      modifies this
      ensures ok <==> !fails
      ensures ok ==> content == Header
      ensures !ok ==> content == old(content)
    {
      if fails {
        return false;
      }
      content := Header;
      return true;
    }

    /** finalize_xml_report: append the closing tag. */
    method Finalize(fails: bool) returns (ok: bool)
      modifies this
      ensures ok <==> !fails
      ensures ok ==> content == old(content) + Footer
      ensures !ok ==> content == old(content)
    {
      if fails {
        return false;
      }
      content := content + Footer;
      return true;
    }
  }
}
