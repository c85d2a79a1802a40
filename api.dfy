/** Request validation and SQL WHERE construction of the web API
    (backend/src/api.py): the sort validation and the filter builder of
    get_stocks, the filter builder of prepare_recommendations, and the sort
    parser, filters and offset of get_recommendation_history. The queries
    themselves run in the database; the model describes the WHERE text the
    endpoints splice into them and what that text selects under SQL's rule
    that AND binds tighter than OR. */
module Api {
  import opened Common

  // ---------------------------------------------------------------------------
  // get_stocks: sort validation
  // ---------------------------------------------------------------------------

  const StockSortColumns: seq<String> :=
    ["symbol", "name", "industry", "technical_date", "golden_cross", "dead_cross", "rsi", "macd", "signal_line"]

  /** The outcome of the validation: the sort to use, a 400, or a 500 (the `.lower()` of
      a missing sort order raises an AttributeError that the generic handler turns into
      a 500). */
  datatype StockSort = Sorted(column: Option<String>, order: String) | BadRequest | ServerError

  predicate BadSortColumn(sortBy: Option<String>) {
    sortBy.Some? && sortBy.value != [] && sortBy.value !in StockSortColumns
  }

  function ValidateStockSort(sortBy: Option<String>, sortOrder: Option<String>): (r: StockSort)
    ensures r == BadRequest <==>
      BadSortColumn(sortBy) || (sortOrder.Some? && Lower(sortOrder.value) != "asc" && Lower(sortOrder.value) != "desc")
    ensures r == ServerError <==> !BadSortColumn(sortBy) && sortOrder.None?
    ensures r.Sorted? ==> r.column == sortBy && (r.order == "ASC" || r.order == "DESC")
    ensures r.Sorted? ==> (r.order == "ASC" <==> Lower(sortOrder.value) == "asc")
  {
    if BadSortColumn(sortBy) then BadRequest
    else if sortOrder.None? then ServerError
    else if Lower(sortOrder.value) != "asc" && Lower(sortOrder.value) != "desc" then BadRequest
    else
      UpperIgnoresLower(sortOrder.value);
      assert Upper("asc") == "ASC" && Upper("desc") == "DESC";
      Sorted(sortBy, Upper(sortOrder.value))
  }

  /** Upper-casing a text gives the same as upper-casing its lower-cased form. */
  lemma UpperIgnoresLower(s: String)
    ensures Upper(Lower(s)) == Upper(s)
  {
    forall i | 0 <= i < |s| ensures Upper(Lower(s))[i] == Upper(s)[i] {
      assert UpperChar(LowerChar(s[i])) == UpperChar(s[i]);
    }
  }

  // ---------------------------------------------------------------------------
  // WHERE clauses: their text and what that text selects
  // ---------------------------------------------------------------------------

  /** The atomic conditions the builders emit. RsiCompare carries the operator and value
      texts exactly as they are spliced into the SQL. */
  datatype Atom =
    | SymbolLike
    | NameLike
    | IndustryIs
    | ScaleIs
    | RsiCompare(op: String, val: String)
    | GoldenCross

  /** One element of the builders' clause list: its atoms joined by OR, and whether the
      clause is written inside parentheses. */
  datatype Clause = Clause(alts: seq<Atom>, grouped: bool)

  /** The search clause as the source writes it, without parentheses. */
  const SearchClause: Clause := Clause([SymbolLike, NameLike], false)

  function Single(a: Atom): Clause {
    Clause([a], false)
  }

  predicate IsSingle(c: Clause) {
    !c.grouped && |c.alts| == 1
  }

  function AtomText(a: Atom): String {
    match a
    case SymbolLike => "LOWER(s.symbol) LIKE :search_term"
    case NameLike => "LOWER(s.name) LIKE :search_term"
    case IndustryIs => "s.industry_code_33 = :industry_code"
    case ScaleIs => "s.scale_code = :scale_code"
    case RsiCompare(op, val) => "ti.rsi " + op + " " + val
    case GoldenCross => "ti.golden_cross = true"
  }

  function AtomTexts(alts: seq<Atom>): (r: seq<String>)
    ensures |r| == |alts| && forall i :: 0 <= i < |alts| ==> r[i] == AtomText(alts[i])
  {
    seq(|alts|, i requires 0 <= i < |alts| => AtomText(alts[i]))
  }

  function ClauseText(c: Clause): String {
    var body := Join(" OR ", AtomTexts(c.alts));
    if c.grouped then "(" + body + ")" else body
  }

  function ClauseTexts(cs: seq<Clause>): (r: seq<String>)
    ensures |r| == |cs| && forall i :: 0 <= i < |cs| ==> r[i] == ClauseText(cs[i])
  {
    seq(|cs|, i requires 0 <= i < |cs| => ClauseText(cs[i]))
  }

  /** `f"WHERE {' AND '.join(where_clauses)}" if where_clauses else ""`. */
  function WhereText(cs: seq<Clause>): (r: String)
    ensures r == [] <==> cs == []
  {
    if cs == [] then [] else "WHERE " + Join(" AND ", ClauseTexts(cs))
  }

  lemma {:induction false} JoinSnoc(sep: String, parts: seq<String>, last: String)
    requires parts != []
    decreases |parts|
    ensures Join(sep, parts + [last]) == Join(sep, parts) + sep + last
  {
    if |parts| == 1 {
      assert parts + [last] == [parts[0], last];
      assert [last][1..] == [];
    } else {
      assert (parts + [last])[1..] == parts[1..] + [last];
      JoinSnoc(sep, parts[1..], last);
    }
  }

  /** Appending a clause appends " AND " and its text to a non-empty WHERE text. */
  lemma WhereTextSnoc(cs: seq<Clause>, c: Clause)
    ensures WhereText(cs + [c]) == if cs == [] then "WHERE " + ClauseText(c) else WhereText(cs) + " AND " + ClauseText(c)
  {
    assert ClauseTexts(cs + [c]) == ClauseTexts(cs) + [ClauseText(c)];
    if cs != [] {
      JoinSnoc(" AND ", ClauseTexts(cs), ClauseText(c));
    }
  }

  /** The WHERE text read as SQL reads it: a flat run of operands, each preceded by the
      connective written before it (the first one's is And and is not printed). */
  datatype Conn = And | Or
  datatype Operand = Plain(atom: Atom) | Paren(group: seq<Atom>)

  function OrChain(alts: seq<Atom>, lead: Conn): (r: seq<(Conn, Operand)>)
    decreases |alts|
    ensures |r| == |alts|
  {
    if alts == [] then [] else [(lead, Plain(alts[0]))] + OrChain(alts[1..], Or)
  }

  function ClauseTokens(c: Clause): seq<(Conn, Operand)> {
    if c.grouped then [(And, Paren(c.alts))] else OrChain(c.alts, And)
  }

  function Tokens(cs: seq<Clause>): seq<(Conn, Operand)>
    decreases |cs|
  {
    if cs == [] then [] else ClauseTokens(cs[0]) + Tokens(cs[1..])
  }

  function OperandText(o: Operand): String {
    match o
    case Plain(a) => AtomText(a)
    case Paren(alts) => "(" + Join(" OR ", AtomTexts(alts)) + ")"
  }

  function ConnText(c: Conn): String {
    if c == And then " AND " else " OR "
  }

  function TailText(ts: seq<(Conn, Operand)>): String
    decreases |ts|
  {
    if ts == [] then [] else ConnText(ts[0].0) + OperandText(ts[0].1) + TailText(ts[1..])
  }

  function TokensText(ts: seq<(Conn, Operand)>): String {
    if ts == [] then [] else OperandText(ts[0].1) + TailText(ts[1..])
  }

  lemma {:induction false} TailTextAppend(a: seq<(Conn, Operand)>, b: seq<(Conn, Operand)>)
    decreases |a|
    ensures TailText(a + b) == TailText(a) + TailText(b)
  {
    if a == [] {
      assert a + b == b;
    } else {
      assert (a + b)[0] == a[0];
      assert (a + b)[1..] == a[1..] + b;
      TailTextAppend(a[1..], b);
    }
  }

  lemma {:induction false} OrChainTail(alts: seq<Atom>)
    requires alts != []
    decreases |alts|
    ensures TailText(OrChain(alts, Or)) == " OR " + Join(" OR ", AtomTexts(alts))
  {
    if |alts| > 1 {
      OrChainTail(alts[1..]);
      assert AtomTexts(alts)[1..] == AtomTexts(alts[1..]);
    } else {
      assert alts[1..] == [];
    }
  }

  /** The text of a clause is the text of its operand run, which starts with And. */
  lemma ClauseTokensText(c: Clause)
    requires c.alts != []
    ensures ClauseTokens(c) != [] && ClauseTokens(c)[0].0 == And
    ensures TokensText(ClauseTokens(c)) == ClauseText(c)
  {
    if !c.grouped {
      var ts := OrChain(c.alts, And);
      assert ts[1..] == OrChain(c.alts[1..], Or);
      if |c.alts| > 1 {
        OrChainTail(c.alts[1..]);
        assert AtomTexts(c.alts)[1..] == AtomTexts(c.alts[1..]);
      } else {
        assert c.alts[1..] == [];
      }
    }
  }

  lemma TokensTextAppend(head: seq<(Conn, Operand)>, rest: seq<(Conn, Operand)>)
    requires head != []
    ensures TokensText(head + rest) == TokensText(head) + TailText(rest)
  {
    assert (head + rest)[0] == head[0];
    assert (head + rest)[1..] == head[1..] + rest;
    TailTextAppend(head[1..], rest);
  }

  lemma TailOfAndRun(ts: seq<(Conn, Operand)>)
    requires ts != [] && ts[0].0 == And
    ensures TailText(ts) == " AND " + TokensText(ts)
  {
  }

  lemma JoinCons(sep: String, parts: seq<String>)
    requires |parts| > 1
    ensures Join(sep, parts) == parts[0] + sep + Join(sep, parts[1..])
  {
  }

  lemma ConcatAssoc(a: String, b: String, c: String)
    ensures a + (b + c) == a + b + c
  {
  }

  /** Joining the clause texts with " AND " prints the flat run of the clause list. */
  lemma {:induction false} JoinedTokens(cs: seq<Clause>)
    requires cs != []
    requires forall i :: 0 <= i < |cs| ==> cs[i].alts != []
    decreases |cs|
    ensures Tokens(cs) != [] && Tokens(cs)[0].0 == And
    ensures Join(" AND ", ClauseTexts(cs)) == TokensText(Tokens(cs))
  {
    ClauseTokensText(cs[0]);
    var head := ClauseTokens(cs[0]);
    var rest := Tokens(cs[1..]);
    assert Tokens(cs) == head + rest;
    TokensTextAppend(head, rest);
    var texts := ClauseTexts(cs);
    if |cs| > 1 {
      JoinedTokens(cs[1..]);
      TailOfAndRun(rest);
      assert texts[1..] == ClauseTexts(cs[1..]);
      JoinCons(" AND ", texts);
      ConcatAssoc(ClauseText(cs[0]), " AND ", Join(" AND ", texts[1..]));
    } else {
      assert cs[1..] == [];
    }
  }

  /** The WHERE text is exactly the operand run of the clause list. */
  lemma WhereTextIsTokens(cs: seq<Clause>)
    requires forall i :: 0 <= i < |cs| ==> cs[i].alts != []
    ensures cs != [] ==> WhereText(cs) == "WHERE " + TokensText(Tokens(cs))
  {
    if cs != [] {
      JoinedTokens(cs);
    }
  }

  /** What an operand selects, given which atoms hold for a row. SQL's NULL is read as
      false: with only AND and OR, a row is selected exactly when this is true. */
  function OperandHolds(o: Operand, holds: Atom -> bool): bool {
    match o
    case Plain(a) => holds(a)
    case Paren(alts) => exists j :: 0 <= j < |alts| && holds(alts[j])
  }

  /** SQL precedence over the run: AND-groups are evaluated first and OR joins them.
      `any` is whether an earlier group held, `cur` whether the current group holds. */
  function EvalFrom(ts: seq<(Conn, Operand)>, holds: Atom -> bool, any: bool, cur: bool): bool
    decreases |ts|
  {
    if ts == [] then any || cur
    else if ts[0].0 == Or then EvalFrom(ts[1..], holds, any || cur, OperandHolds(ts[0].1, holds))
    else EvalFrom(ts[1..], holds, any, cur && OperandHolds(ts[0].1, holds))
  }

  /** Whether a row is selected by the WHERE text of these clauses. */
  predicate Selects(cs: seq<Clause>, holds: Atom -> bool) {
    EvalFrom(Tokens(cs), holds, false, true)
  }

  /** A clause read on its own: one of its atoms holds. */
  predicate ClauseHolds(c: Clause, holds: Atom -> bool) {
    exists j :: 0 <= j < |c.alts| && holds(c.alts[j])
  }

  /** The meaning the builders intend: every clause of the list holds. */
  predicate AllHold(cs: seq<Clause>, holds: Atom -> bool) {
    forall i :: 0 <= i < |cs| ==> ClauseHolds(cs[i], holds)
  }

  /** A run joined only by AND: the current group continues through all of it. */
  lemma {:induction false} AndRun(ts: seq<(Conn, Operand)>, holds: Atom -> bool, any: bool, cur: bool)
    requires forall k :: 0 <= k < |ts| ==> ts[k].0 == And
    decreases |ts|
    ensures EvalFrom(ts, holds, any, cur) == (any || (cur && forall k :: 0 <= k < |ts| ==> OperandHolds(ts[k].1, holds)))
  {
    if ts != [] {
      AndRun(ts[1..], holds, any, cur && OperandHolds(ts[0].1, holds));
      assert forall k :: 1 <= k < |ts| ==> ts[k] == ts[1..][k - 1];
    }
  }

  /** A clause that is one operand: a single atom, or a parenthesised group. */
  predicate IsUnit(c: Clause) {
    c.alts != [] && (c.grouped || |c.alts| == 1)
  }

  function UnitOperand(c: Clause): Operand
    requires IsUnit(c)
  {
    if c.grouped then Paren(c.alts) else Plain(c.alts[0])
  }

  lemma {:induction false} UnitTokens(cs: seq<Clause>)
    requires forall i :: 0 <= i < |cs| ==> IsUnit(cs[i])
    decreases |cs|
    ensures |Tokens(cs)| == |cs|
    ensures forall k :: 0 <= k < |cs| ==> Tokens(cs)[k] == (And, UnitOperand(cs[k]))
  {
    if cs != [] {
      UnitTokens(cs[1..]);
      assert ClauseTokens(cs[0]) == [(And, UnitOperand(cs[0]))];
      assert forall k :: 1 <= k < |cs| ==> cs[k] == cs[1..][k - 1];
    }
  }

  /** A list of units selects exactly the rows for which every clause holds. */
  lemma UnitsMeanConjunction(cs: seq<Clause>, holds: Atom -> bool)
    requires forall i :: 0 <= i < |cs| ==> IsUnit(cs[i])
    ensures Selects(cs, holds) == AllHold(cs, holds)
  {
    UnitTokens(cs);
    AndRun(Tokens(cs), holds, false, true);
    forall k | 0 <= k < |cs| ensures OperandHolds(Tokens(cs)[k].1, holds) == ClauseHolds(cs[k], holds) {
      if !cs[k].grouped {
        assert cs[k].alts == [cs[k].alts[0]];
      }
    }
  }

  /** The list as written: the unparenthesised search clause first, then single-atom
      clauses. AND binds to the name match only, so a row whose symbol matches the search
      is selected whatever the other clauses say. */
  lemma SearchFirstMeaning(rest: seq<Clause>, holds: Atom -> bool)
    requires forall i :: 0 <= i < |rest| ==> IsSingle(rest[i])
    ensures Selects([SearchClause] + rest, holds) ==
      (holds(SymbolLike) || (holds(NameLike) && AllHold(rest, holds)))
  {
    var cs := [SearchClause] + rest;
    assert cs[1..] == rest;
    assert OrChain([SymbolLike, NameLike], And) == [(And, Plain(SymbolLike)), (Or, Plain(NameLike))] by {
      assert [SymbolLike, NameLike][1..] == [NameLike];
      assert [NameLike][1..] == [];
    }
    var ts := Tokens(cs);
    var t := Tokens(rest);
    assert ts == [(And, Plain(SymbolLike)), (Or, Plain(NameLike))] + t;
    assert ts[1..][1..] == t;
    assert EvalFrom(ts, holds, false, true) == EvalFrom(ts[1..], holds, false, holds(SymbolLike));
    assert EvalFrom(ts[1..], holds, false, holds(SymbolLike)) == EvalFrom(t, holds, holds(SymbolLike), holds(NameLike));
    forall i | 0 <= i < |rest| ensures IsUnit(rest[i]) {
    }
    UnitsMeanConjunction(rest, holds);
    UnitTokens(rest);
    AndRun(t, holds, false, true);
    AndRun(t, holds, holds(SymbolLike), holds(NameLike));
  }

  /** The intended form: a clause of several atoms is parenthesised. */
  function Grouped(cs: seq<Clause>): (r: seq<Clause>)
    ensures |r| == |cs|
    ensures forall i :: 0 <= i < |cs| ==> r[i].alts == cs[i].alts
  {
    seq(|cs|, i requires 0 <= i < |cs| => if |cs[i].alts| > 1 then cs[i].(grouped := true) else cs[i])
  }

  /** With the search clause in parentheses the text means what the builders intend:
      every clause holds. */
  lemma GroupedMeansConjunction(cs: seq<Clause>, holds: Atom -> bool)
    requires forall i :: 0 <= i < |cs| ==> cs[i].alts != [] && (IsSingle(cs[i]) || |cs[i].alts| > 1)
    ensures Selects(Grouped(cs), holds) == AllHold(cs, holds)
  {
    var g := Grouped(cs);
    UnitsMeanConjunction(g, holds);
    assert forall i :: 0 <= i < |cs| ==> ClauseHolds(g[i], holds) == ClauseHolds(cs[i], holds);
  }

  // ---------------------------------------------------------------------------
  // get_stocks: the filter builder
  // ---------------------------------------------------------------------------

  /** All white space: exactly the texts that strip to nothing (StripEmptyIffAllSpace). */
  predicate Blank(s: String) {
    forall i :: 0 <= i < |s| ==> IsSpace(s[i])
  }

  /** A parameter that counts: given, and not blank once stripped. */
  predicate Given(p: Option<String>) {
    p.Some? && !Blank(p.value)
  }

  /** The LIKE pattern for a search: the stripped search, lower-cased, between '%'
      wildcards, so it matches the search anywhere in a value. */
  function SearchTerm(search: String): (t: String)
    ensures |t| == |Strip(search)| + 2 && t[0] == '%' && t[|t| - 1] == '%'
    ensures forall i :: 0 <= i < |Strip(search)| ==>
      t[i + 1] == LowerChar(Strip(search)[i]) && !('A' <= t[i + 1] <= 'Z')
    ensures |t| > 2 ==> !IsSpace(t[1]) && !IsSpace(t[|t| - 2])
  {
    var stripped := Strip(search);
    var pattern := ['%'] + Lower(stripped) + ['%'];
    LikePattern(stripped, '%', pattern);
    pattern
  }

  /** Lower-casing a text that does not start or end in white space, between two
      delimiters: each character one place along, lower-cased, no white space at either
      end of the text and no upper-case letter anywhere in it. */
  lemma LikePattern(text: String, c: char, t: String)
    requires text == [] || (!IsSpace(text[0]) && !IsSpace(text[|text| - 1]))
    requires !('A' <= c <= 'Z')
    requires t == [c] + Lower(text) + [c]
    ensures |t| == |text| + 2 && t[0] == c && t[|t| - 1] == c
    ensures forall i :: 0 <= i < |text| ==> t[i + 1] == LowerChar(text[i]) && !('A' <= t[i + 1] <= 'Z')
    ensures |t| > 2 ==> !IsSpace(t[1]) && !IsSpace(t[|t| - 2])
  {
    var core := Lower(text);
    Wrapped(core, c);
    forall i | 0 <= i < |text|
      ensures t[i + 1] == core[i] && !('A' <= t[i + 1] <= 'Z') && (IsSpace(t[i + 1]) ==> IsSpace(text[i]))
    {
      LowerCharShape(text[i]);
    }
  }

  /** A lower-cased character is no upper-case letter, and white space only when the
      character was. */
  lemma LowerCharShape(x: char)
    ensures !('A' <= LowerChar(x) <= 'Z')
    ensures IsSpace(LowerChar(x)) ==> IsSpace(x)
  {
  }

  /** The sequence between two added delimiters is the sequence itself, one place along. */
  lemma Wrapped<T>(m: seq<T>, c: T)
    ensures |[c] + m + [c]| == |m| + 2 && ([c] + m + [c])[0] == c && ([c] + m + [c])[|m| + 1] == c
    ensures forall i :: 1 <= i <= |m| ==> ([c] + m + [c])[i] == m[i - 1]
  {
  }

  /** The clause list get_stocks writes: search, then industry, then scale, each only when
      given. */
  function StockClauses(search: Option<String>, industry: Option<String>, scale: Option<String>): (cs: seq<Clause>)
    ensures cs == [] <==> !Given(search) && !Given(industry) && !Given(scale)
    ensures |cs| > 0 && Given(search) ==> cs[0] == SearchClause
    ensures Single(IndustryIs) in cs <==> Given(industry)
    ensures Single(ScaleIs) in cs <==> Given(scale)
  {
    (if Given(search) then [SearchClause] else [])
    + (if Given(industry) then [Single(IndustryIs)] else [])
    + (if Given(scale) then [Single(ScaleIs)] else [])
  }

  /** `search_params` of get_stocks: an entry per given parameter. */
  datatype StockParams = StockParams(searchTerm: Option<String>, industryCode: Option<String>, scaleCode: Option<String>)

  /** The value bound for a filter parameter: its stripped text, present exactly when the
      parameter is given, and then never empty. */
  function Bound(p: Option<String>): (v: Option<String>)
    ensures v.Some? <==> Given(p)
    ensures v.Some? ==> v.value == Strip(p.value) && v.value != []
  {
    if Given(p) then
      StripEmptyIffAllSpace(p.value);
      Some(Strip(p.value))
    else None
  }

  function ParamsFor(search: Option<String>, industry: Option<String>, scale: Option<String>): (p: StockParams)
    ensures p.searchTerm.Some? <==> Given(search)
    ensures Given(search) ==> p.searchTerm.value == SearchTerm(search.value)
    ensures p.industryCode == Bound(industry) && p.scaleCode == Bound(scale)
  {
    StockParams(if Given(search) then Some(SearchTerm(search.value)) else None, Bound(industry), Bound(scale))
  }

  lemma SingleText(a: Atom)
    ensures ClauseText(Single(a)) == AtomText(a)
  {
    assert AtomTexts([a]) == [AtomText(a)];
  }

  lemma SearchText()
    ensures WhereText([SearchClause]) == "WHERE " + AtomText(SymbolLike) + " OR " + AtomText(NameLike)
  {
    assert AtomTexts(SearchClause.alts) == [AtomText(SymbolLike), AtomText(NameLike)];
    assert ClauseTexts([SearchClause]) == [ClauseText(SearchClause)];
  }

  /** One step of the builder: the condition so far, extended by a single-atom clause. */
  lemma AppendSingle(cs: seq<Clause>, condition: String, a: Atom)
    requires condition == WhereText(cs)
    ensures (if condition == [] then "WHERE " + AtomText(a) else condition + " AND " + AtomText(a))
      == WhereText(cs + [Single(a)])
  {
    WhereTextSnoc(cs, Single(a));
    SingleText(a);
  }

  /** One filter block of get_stocks: "WHERE" and the atom when nothing is written yet,
      else " AND " and the atom appended. */
  method AddCondition(condition: String, ghost cs: seq<Clause>, a: Atom) returns (next: String)
    requires condition == WhereText(cs)
    ensures next == WhereText(cs + [Single(a)])
  {
    AppendSingle(cs, condition, a);
    if condition == [] {
      next := "WHERE " + AtomText(a);
    } else {
      next := condition + " AND " + AtomText(a);
    }
  }

  /** The condition string built as get_stocks builds it; the parameters bound beside it
      are ParamsFor. */
  method BuildStockFilter(search: Option<String>, industry: Option<String>, scale: Option<String>)
      returns (condition: String)
    ensures condition == WhereText(StockClauses(search, industry, scale))
  {
    ghost var cs: seq<Clause> := [];
    condition := "";
    if Given(search) {
      condition := "WHERE " + AtomText(SymbolLike) + " OR " + AtomText(NameLike);
      cs := [SearchClause];
      SearchText();
    }
    if Given(industry) {
      condition := AddCondition(condition, cs, IndustryIs);
      cs := cs + [Single(IndustryIs)];
    }
    if Given(scale) {
      condition := AddCondition(condition, cs, ScaleIs);
      cs := cs + [Single(ScaleIs)];
    }
    assert cs == (if Given(search) then [SearchClause] else [])
      + (if Given(industry) then [Single(IndustryIs)] else [])
      + (if Given(scale) then [Single(ScaleIs)] else []);
  }

  /** What the condition selects as written: with a search, a symbol match alone selects
      the row, and the industry and scale filters bind to the name match only. */
  lemma StockFilterAsWritten(search: Option<String>, industry: Option<String>, scale: Option<String>, holds: Atom -> bool)
    requires Given(search)
    ensures Selects(StockClauses(search, industry, scale), holds) ==
      (holds(SymbolLike) || (holds(NameLike)
        && (Given(industry) ==> holds(IndustryIs)) && (Given(scale) ==> holds(ScaleIs))))
  {
    var b: seq<Clause> := if Given(industry) then [Single(IndustryIs)] else [];
    var c: seq<Clause> := if Given(scale) then [Single(ScaleIs)] else [];
    assert StockClauses(search, industry, scale) == [SearchClause] + (b + c);
    assert forall i :: 0 <= i < |b + c| ==> IsSingle((b + c)[i]);
    SearchFirstMeaning(b + c, holds);
    AllHoldAppend(b, c, holds);
    SingleHolds(IndustryIs, holds);
    SingleHolds(ScaleIs, holds);
  }

  lemma AllHoldAppend(a: seq<Clause>, b: seq<Clause>, holds: Atom -> bool)
    ensures AllHold(a + b, holds) == (AllHold(a, holds) && AllHold(b, holds))
  {
    assert forall i :: 0 <= i < |a| ==> (a + b)[i] == a[i];
    assert forall i :: 0 <= i < |b| ==> (a + b)[|a| + i] == b[i];
    if AllHold(a, holds) && AllHold(b, holds) {
      forall i | 0 <= i < |a + b| ensures ClauseHolds((a + b)[i], holds) {
        if i >= |a| {
          assert (a + b)[i] == b[i - |a|];
        }
      }
    }
  }

  lemma ClauseHoldsOf(a: Atom, holds: Atom -> bool)
    ensures ClauseHolds(Single(a), holds) == holds(a)
    ensures ClauseHolds(SearchClause, holds) == (holds(SymbolLike) || holds(NameLike))
  {
    assert Single(a).alts[0] == a;
    assert SearchClause.alts[0] == SymbolLike && SearchClause.alts[1] == NameLike;
  }

  lemma SingleHolds(a: Atom, holds: Atom -> bool)
    ensures AllHold([Single(a)], holds) == holds(a)
    ensures AllHold([SearchClause], holds) == (holds(SymbolLike) || holds(NameLike))
  {
    ClauseHoldsOf(a, holds);
    assert [Single(a)][0] == Single(a);
    assert [SearchClause][0] == SearchClause;
  }

  /** Parenthesising the search clause gives the intended filter: the search matches and
      every given filter holds. */
  lemma StockFilterGrouped(search: Option<String>, industry: Option<String>, scale: Option<String>, holds: Atom -> bool)
    ensures Selects(Grouped(StockClauses(search, industry, scale)), holds) ==
      ((Given(search) ==> holds(SymbolLike) || holds(NameLike))
        && (Given(industry) ==> holds(IndustryIs)) && (Given(scale) ==> holds(ScaleIs)))
  {
    var a: seq<Clause> := if Given(search) then [SearchClause] else [];
    var b: seq<Clause> := if Given(industry) then [Single(IndustryIs)] else [];
    var c: seq<Clause> := if Given(scale) then [Single(ScaleIs)] else [];
    assert StockClauses(search, industry, scale) == a + b + c;
    GroupedMeansConjunction(a + b + c, holds);
    AllHoldAppend(a + b, c, holds);
    AllHoldAppend(a, b, holds);
    SingleHolds(IndustryIs, holds);
    SingleHolds(ScaleIs, holds);
  }

  /** A row of another industry whose symbol matches the search and whose name does not. */
  predicate SymbolMatchOnly(a: Atom) {
    a == SymbolLike
  }

  /** Such a row is listed as written and dropped once the search clause is
      parenthesised. */
  lemma SearchBypassesIndustry()
    ensures var cs := StockClauses(Some("7203"), Some("3700"), None);
      Selects(cs, SymbolMatchOnly) && !Selects(Grouped(cs), SymbolMatchOnly)
  {
    assert Given(Some("7203")) by {
      assert !IsSpace("7203"[0]);
    }
    assert Given(Some("3700")) by {
      assert !IsSpace("3700"[0]);
    }
    StockFilterAsWritten(Some("7203"), Some("3700"), None, SymbolMatchOnly);
    StockFilterGrouped(Some("7203"), Some("3700"), None, SymbolMatchOnly);
  }

  // ---------------------------------------------------------------------------
  // prepare_recommendations: the filter builder
  // ---------------------------------------------------------------------------

  /** Python's str() of a value: strings are themselves, booleans and None have fixed
      texts, and the text of numbers, lists and dicts is given by `other`. */
  function Str(v: Json, other: Json -> String): (s: String)
    ensures v.JStr? ==> s == v.s
    ensures v == JBool(true) ==> s == "True"
    ensures v == JBool(false) ==> s == "False"
    ensures v == JNull ==> s == "None"
    ensures v.JNum? || v.JList? || v.JObj? ==> s == other(v)
  {
    match v
    case JStr(s) => s
    case JBool(b) => if b then "True" else "False"
    case JNull => "None"
    case _ => other(v)
  }

  /** Whether `float(val)` succeeds: numbers and booleans convert; a string converts when
      it is a float literal (`isFloat`); None, lists and dicts raise a TypeError. */
  predicate FloatConvertible(v: Json, isFloat: String -> bool) {
    match v
    case JNum(_) => true
    case JBool(_) => true
    case JStr(s) => isFloat(s)
    case _ => false
  }

  /** The conditions under which an "rsi" entry yields a clause. */
  predicate RsiAccepted(value: Json, isFloat: String -> bool) {
    value.JList? && |value.items| == 2 && Truthy(value.items[0])
    && value.items[1] != JNull && value.items[1] != JStr("")
    && FloatConvertible(value.items[1], isFloat)
  }

  predicate GoldenAccepted(value: Json, other: Json -> String) {
    value == JBool(true)
    || (value.JList? && |value.items| == 2 && Lower(Str(value.items[1], other)) == "true")
    || Lower(Str(value, other)) == "true"
  }

  /** The clause one entry of technical_filters contributes, if any. */
  function FilterClause(key: String, value: Json, other: Json -> String, isFloat: String -> bool): (r: Option<Clause>)
    ensures key != "rsi" && key != "golden_cross" ==> r.None?
    ensures key == "rsi" ==> (r.Some? <==> RsiAccepted(value, isFloat))
    ensures key == "rsi" && r.Some? ==>
      r.value == Single(RsiCompare(Str(value.items[0], other), Str(value.items[1], other)))
    ensures key == "golden_cross" ==> (r.Some? <==> GoldenAccepted(value, other))
    ensures key == "golden_cross" && r.Some? ==> r.value == Single(GoldenCross)
  {
    if key == "rsi" then
      if !value.JList? || |value.items| != 2 then None
      else
        var op := value.items[0];
        var val := value.items[1];
        if !Truthy(op) || val == JNull || val == JStr("") then None
        else if FloatConvertible(val, isFloat) then Some(Single(RsiCompare(Str(op, other), Str(val, other))))
        else None
    else if key == "golden_cross" then
      if value == JBool(true) then Some(Single(GoldenCross))
      else if value.JList? && |value.items| == 2 && Lower(Str(value.items[1], other)) == "true" then Some(Single(GoldenCross))
      else if Lower(Str(value, other)) == "true" then Some(Single(GoldenCross))
      else None
    else None
  }

  /** The clauses of the filter entries, in the dict's order. */
  function FilterClauses(items: seq<(String, Json)>, other: Json -> String, isFloat: String -> bool): (cs: seq<Clause>)
    decreases |items|
    ensures |cs| <= |items|
    ensures forall i :: 0 <= i < |cs| ==> IsSingle(cs[i])
  {
    if items == [] then []
    else
      var last := items[|items| - 1];
      FilterClauses(items[..|items| - 1], other, isFloat) + AsList(FilterClause(last.0, last.1, other, isFloat))
  }

  function AsList(c: Option<Clause>): (r: seq<Clause>)
    ensures |r| <= 1
  {
    match c
    case Some(x) => [x]
    case None => []
  }

  lemma FilterClausesSnoc(items: seq<(String, Json)>, i: nat, other: Json -> String, isFloat: String -> bool)
    requires i < |items|
    ensures FilterClauses(items[..i + 1], other, isFloat)
      == FilterClauses(items[..i], other, isFloat) + AsList(FilterClause(items[i].0, items[i].1, other, isFloat))
  {
    assert items[..i + 1][..i] == items[..i];
  }

  /** `if request.search:` is Python truthiness: a whitespace-only search counts here. */
  predicate SearchGiven(search: Option<String>) {
    search.Some? && search.value != []
  }

  function PrepareClauses(search: Option<String>, filters: Option<seq<(String, Json)>>,
                          other: Json -> String, isFloat: String -> bool): (cs: seq<Clause>)
    ensures SearchGiven(search) ==> |cs| > 0 && cs[0] == SearchClause
    ensures forall i :: (if SearchGiven(search) then 1 else 0) <= i < |cs| ==> IsSingle(cs[i])
  {
    (if SearchGiven(search) then [SearchClause] else [])
    + (if filters.Some? then FilterClauses(filters.value, other, isFloat) else [])
  }

  lemma PrepareClausesParts(search: Option<String>, filters: Option<seq<(String, Json)>>,
                            other: Json -> String, isFloat: String -> bool)
    ensures PrepareClauses(search, filters, other, isFloat) ==
      (if SearchGiven(search) then [SearchClause] else [])
      + (if filters.Some? && filters.value != [] then FilterClauses(filters.value, other, isFloat) else [])
  {
  }

  lemma FilterStep(prefix: seq<Clause>, items: seq<(String, Json)>, i: nat, r: seq<Clause>,
                   other: Json -> String, isFloat: String -> bool)
    requires i < |items| && r == prefix + FilterClauses(items[..i], other, isFloat)
    ensures var c := FilterClause(items[i].0, items[i].1, other, isFloat);
      (if c.Some? then r + [c.value] else r) == prefix + FilterClauses(items[..i + 1], other, isFloat)
  {
    FilterClausesSnoc(items, i, other, isFloat);
  }

  /** The loop over the technical_filters entries: each accepted entry appends its clause
      to the list, in the dict's order. */
  method AppendFilters(whereClauses: seq<Clause>, items: seq<(String, Json)>,
                       other: Json -> String, isFloat: String -> bool)
      returns (r: seq<Clause>)
    ensures r == whereClauses + FilterClauses(items, other, isFloat)
  {
    r := whereClauses;
    for i := 0 to |items|
      invariant r == whereClauses + FilterClauses(items[..i], other, isFloat)
    {
      FilterStep(whereClauses, items, i, r, other, isFloat);
      var c := FilterClause(items[i].0, items[i].1, other, isFloat);
      if c.Some? {
        r := r + [c.value];
      }
    }
    assert items[..|items|] == items;
  }

  /** where_sql of prepare_recommendations, built with a loop over the filter entries, and
      the search term, the only parameter it binds. */
  method BuildRecommendationFilter(search: Option<String>, filters: Option<seq<(String, Json)>>,
                                   other: Json -> String, isFloat: String -> bool)
      returns (whereSql: String, searchTerm: Option<String>)
    ensures whereSql == WhereText(PrepareClauses(search, filters, other, isFloat))
    ensures searchTerm.Some? <==> SearchGiven(search)
    ensures SearchGiven(search) ==> searchTerm.value == SearchTerm(search.value)
  {
    var whereClauses: seq<Clause> := [];
    searchTerm := None;
    if SearchGiven(search) {
      whereClauses := whereClauses + [SearchClause];
      searchTerm := Some(SearchTerm(search.value));
    }
    assert whereClauses == if SearchGiven(search) then [SearchClause] else [];
    if filters.Some? && filters.value != [] {
      whereClauses := AppendFilters(whereClauses, filters.value, other, isFloat);
    }
    PrepareClausesParts(search, filters, other, isFloat);
    whereSql := if whereClauses != [] then WhereText(whereClauses) else "";
  }

  /** What the filter selects as written: a symbol match alone selects the row, and the
      RSI and golden-cross conditions bind to the name match only. */
  lemma RecommendationFilterAsWritten(search: Option<String>, filters: Option<seq<(String, Json)>>,
                                      other: Json -> String, isFloat: String -> bool, holds: Atom -> bool)
    requires SearchGiven(search)
    ensures var rest := if filters.Some? then FilterClauses(filters.value, other, isFloat) else [];
      Selects(PrepareClauses(search, filters, other, isFloat), holds) ==
      (holds(SymbolLike) || (holds(NameLike) && AllHold(rest, holds)))
  {
    var rest := if filters.Some? then FilterClauses(filters.value, other, isFloat) else [];
    assert PrepareClauses(search, filters, other, isFloat) == [SearchClause] + rest;
    SearchFirstMeaning(rest, holds);
  }

  /** With the search clause parenthesised the filter means the conjunction intended. */
  lemma RecommendationFilterGrouped(search: Option<String>, filters: Option<seq<(String, Json)>>,
                                    other: Json -> String, isFloat: String -> bool, holds: Atom -> bool)
    ensures var rest := if filters.Some? then FilterClauses(filters.value, other, isFloat) else [];
      Selects(Grouped(PrepareClauses(search, filters, other, isFloat)), holds) ==
      ((SearchGiven(search) ==> holds(SymbolLike) || holds(NameLike)) && AllHold(rest, holds))
  {
    var rest := if filters.Some? then FilterClauses(filters.value, other, isFloat) else [];
    var head := if SearchGiven(search) then [SearchClause] else [];
    var cs := PrepareClauses(search, filters, other, isFloat);
    assert cs == head + rest;
    GroupedMeansConjunction(cs, holds);
    AllHoldAppend(head, rest, holds);
    assert SearchClause.alts[0] == SymbolLike && SearchClause.alts[1] == NameLike;
    assert AllHold(head, holds) == (SearchGiven(search) ==> ClauseHolds(SearchClause, holds));
  }

  /** The filters the recommendation form submits (an RSI pair and the golden-cross pair
      ['==', 'true']) both yield a clause. */
  lemma FormFiltersAccepted(op: String, rsi: real, other: Json -> String, isFloat: String -> bool)
    requires op != []
    ensures var items := [("rsi", JList([JStr(op), JNum(rsi)])), ("golden_cross", JList([JStr("=="), JStr("true")]))];
      FilterClauses(items, other, isFloat) == [Single(RsiCompare(op, other(JNum(rsi)))), Single(GoldenCross)]
  {
    var items := [("rsi", JList([JStr(op), JNum(rsi)])), ("golden_cross", JList([JStr("=="), JStr("true")]))];
    assert Lower("true") == "true";
    assert items[..1][..0] == [];
    assert items[..1] == [items[0]];
  }

  /** The operator of an RSI entry is spliced into the SQL as given: any non-empty text is
      accepted, whatever it says. */
  lemma OperatorNotValidated(op: String, rsi: real, other: Json -> String, isFloat: String -> bool)
    requires op != []
    ensures FilterClause("rsi", JList([JStr(op), JNum(rsi)]), other, isFloat) == Some(Single(RsiCompare(op, other(JNum(rsi)))))
    ensures StartsWith(AtomText(RsiCompare(op, other(JNum(rsi)))), "ti.rsi " + op)
  {
  }

  /** A whitespace-only search is ignored by get_stocks but still adds a clause here, whose
      term "%%" matches every symbol. */
  lemma BlankSearchDiffers(blank: String, other: Json -> String, isFloat: String -> bool)
    requires blank != [] && forall i :: 0 <= i < |blank| ==> IsSpace(blank[i])
    ensures StockClauses(Some(blank), None, None) == []
    ensures PrepareClauses(Some(blank), None, other, isFloat) == [SearchClause]
    ensures SearchTerm(blank) == "%%"
  {
    StripEmptyIffAllSpace(blank);
  }

  // ---------------------------------------------------------------------------
  // get_recommendation_history
  // ---------------------------------------------------------------------------

  const HistorySortFields: seq<String> := ["generated_at", "principal", "risk_tolerance", "strategy"]

  datatype SortChoice = SortChoice(field: String, order: String)

  predicate OrderText(order: String) {
    Lower(order) == "asc" || Lower(order) == "desc"
  }

  /** The sort parser as written: the string is split on '-' only when it contains '_'
      (a split that does not give exactly two parts is a ValueError); otherwise the whole
      string is the field and the order is desc. None stands for the 400. */
  function ParseHistorySortAsWritten(sort: String): (r: Option<SortChoice>)
    ensures r.Some? ==> r.value.field in HistorySortFields && OrderText(r.value.order)
    ensures '_' !in sort ==> (r.Some? <==> sort in HistorySortFields)
    ensures '_' in sort && r.Some? ==> Split(sort, '-') == [r.value.field, r.value.order]
  {
    if '_' in sort then
      var parts := Split(sort, '-');
      if |parts| != 2 then None
      else if !OrderText(parts[1]) then None
      else if parts[0] !in HistorySortFields then None
      else Some(SortChoice(parts[0], parts[1]))
    else if sort !in HistorySortFields then None
    else Some(SortChoice(sort, "desc"))
  }

  /** The parser as intended: "field-order" is split whenever it contains '-', which is
      the form the history page sends; a bare field sorts descending. */
  function ParseHistorySort(sort: String): (r: Option<SortChoice>)
    ensures r.Some? ==> r.value.field in HistorySortFields && OrderText(r.value.order)
  {
    if '-' in sort then
      var parts := Split(sort, '-');
      if |parts| != 2 then None
      else if !OrderText(parts[1]) then None
      else if parts[0] !in HistorySortFields then None
      else Some(SortChoice(parts[0], parts[1]))
    else if sort !in HistorySortFields then None
    else Some(SortChoice(sort, "desc"))
  }

  lemma FirstSeparator(s: String, sep: char, n: nat)
    requires n < |s| && s[n] == sep
    requires forall k :: 0 <= k < n ==> s[k] != sep
    ensures FindFrom(s, sep, 0) == n
  {
  }

  /** Splitting "a-b" on '-' gives [a, b] when neither part holds a '-'. */
  lemma SplitPair(a: String, b: String, sep: char)
    requires sep !in a && sep !in b
    ensures Split(a + [sep] + b, sep) == [a, b]
  {
    var s := a + [sep] + b;
    assert s[|a|] == sep;
    assert sep in s;
    assert forall k :: 0 <= k < |a| ==> s[k] == a[k] && a[k] in a;
    FirstSeparator(s, sep, |a|);
    assert s[..|a|] == a;
    assert s[|a| + 1..] == b;
  }

  /** The sort fields and orders hold neither '-' nor, save the two snake-case fields, '_'. */
  lemma SortWordChars(w: String)
    requires w in HistorySortFields || w == "asc" || w == "desc"
    ensures '-' !in w
    ensures w != "generated_at" && w != "risk_tolerance" ==> '_' !in w
  {
    if w == "generated_at" {
      assert forall i :: 0 <= i < |w| ==> w[i] != '-';
    } else if w == "principal" {
      assert forall i :: 0 <= i < |w| ==> w[i] != '-' && w[i] != '_';
    } else if w == "risk_tolerance" {
      assert forall i :: 0 <= i < |w| ==> w[i] != '-';
    } else if w == "strategy" {
      assert forall i :: 0 <= i < |w| ==> w[i] != '-' && w[i] != '_';
    } else {
      assert forall i :: 0 <= i < |w| ==> w[i] != '-' && w[i] != '_';
    }
  }

  lemma OrdersAreOrderText()
    ensures OrderText("asc") && OrderText("desc")
  {
    assert Lower("asc") == "asc";
    assert Lower("desc") == "desc";
  }

  /** "field-order" splits on its one '-' into the field and the order. */
  lemma SortPairSplits(field: String, order: String)
    requires field in HistorySortFields && (order == "asc" || order == "desc")
    ensures field + "-" + order == field + ['-'] + order
    ensures '-' in field + "-" + order
    ensures Split(field + "-" + order, '-') == [field, order]
  {
    SortWordChars(field);
    SortWordChars(order);
    SplitPair(field, order, '-');
    assert (field + ['-'] + order)[|field|] == '-';
  }

  /** Every sort the history page can send for a whitelisted field is accepted by the
      intended parser. */
  lemma HistorySortRoundTrip(field: String, order: String)
    requires field in HistorySortFields && (order == "asc" || order == "desc")
    ensures ParseHistorySort(field + "-" + order) == Some(SortChoice(field, order))
  {
    SortPairSplits(field, order);
    OrdersAreOrderText();
  }

  /** A sort that splits into two parts whose field is not whitelisted is refused by
      both parsers. */
  lemma UnlistedFieldRefused(sort: String, field: String, order: String)
    requires '-' in sort && Split(sort, '-') == [field, order] && field !in HistorySortFields
    ensures ParseHistorySortAsWritten(sort).None?
    ensures ParseHistorySort(sort).None?
  {
    if sort in HistorySortFields {
      SortWordChars(sort);
    }
  }

  /** The intended parser keeps every sort the written one accepts. */
  lemma HistorySortExtends(sort: String)
    requires ParseHistorySortAsWritten(sort).Some?
    ensures ParseHistorySort(sort) == ParseHistorySortAsWritten(sort)
  {
    if '_' !in sort {
      assert '-' !in sort;
    }
  }

  /** As written, the sorts the history page sends for the principal and strategy columns
      are rejected: they hold no '_', so the whole text is taken as the field. */
  lemma PageSortRejected(field: String, order: String)
    requires field == "principal" || field == "strategy"
    requires order == "asc" || order == "desc"
    ensures ParseHistorySortAsWritten(field + "-" + order).None?
    ensures ParseHistorySort(field + "-" + order) == Some(SortChoice(field, order))
  {
    var s := field + "-" + order;
    SortWordChars(field);
    SortWordChars(order);
    assert '_' !in s by {
      assert s == field + ['-'] + order;
    }
    SortPairSplits(field, order);
    assert s !in HistorySortFields by {
      if s in HistorySortFields {
        SortWordChars(s);
      }
    }
    HistorySortRoundTrip(field, order);
  }

  /** The endpoint's own default "date_desc" is rejected: it holds a '_', but splitting it
      on '-' gives one part, not two. */
  lemma DefaultSortRejected()
    ensures ParseHistorySortAsWritten("date_desc").None?
  {
    assert "date_desc"[4] == '_';
    assert '-' !in "date_desc";
  }

  /** A field with '_' in its name is accepted as written in the page's form. */
  lemma UnderscoreFieldAccepted(field: String, order: String)
    requires field == "generated_at" || field == "risk_tolerance"
    requires order == "asc" || order == "desc"
    ensures ParseHistorySortAsWritten(field + "-" + order) == Some(SortChoice(field, order))
  {
    var s := field + "-" + order;
    assert '_' in field by {
      if field == "generated_at" {
        assert field[9] == '_';
      } else {
        assert field[4] == '_';
      }
    }
    SortPairSplits(field, order);
    assert '_' in s by {
      assert s == field + ['-'] + order;
    }
    OrdersAreOrderText();
    AsWrittenSplitsOnUnderscore(s, field, order);
  }

  lemma AsWrittenSplitsOnUnderscore(sort: String, field: String, order: String)
    requires '_' in sort && Split(sort, '-') == [field, order]
    requires OrderText(order) && field in HistorySortFields
    ensures ParseHistorySortAsWritten(sort) == Some(SortChoice(field, order))
  {
  }

  /** The optional filters of the history query, each present when truthy. */
  function HistoryFilters(startDate: Option<String>, endDate: Option<String>, strategy: Option<String>)
      : (r: (seq<String>, map<String, String>))
    ensures "start_date" in r.1 <==> SearchGiven(startDate)
    ensures "end_date" in r.1 <==> SearchGiven(endDate)
    ensures "strategy" in r.1 <==> SearchGiven(strategy)
    ensures |r.0| == |r.1| == (if SearchGiven(startDate) then 1 else 0) + (if SearchGiven(endDate) then 1 else 0)
      + (if SearchGiven(strategy) then 1 else 0)
    ensures forall k :: k in r.1 ==> k == "start_date" || k == "end_date" || k == "strategy"
    ensures SearchGiven(startDate) ==> r.0[0] == "generated_at >= :start_date" && r.1["start_date"] == startDate.value
    ensures SearchGiven(endDate) ==>
      r.0[if SearchGiven(startDate) then 1 else 0] == "generated_at <= :end_date" && r.1["end_date"] == endDate.value
    ensures SearchGiven(strategy) ==> r.0[|r.0| - 1] == "strategy = :strategy" && r.1["strategy"] == strategy.value
  {
    var c0: seq<String> := if SearchGiven(startDate) then ["generated_at >= :start_date"] else [];
    var p0: map<String, String> := if SearchGiven(startDate) then map["start_date" := startDate.value] else map[];
    var c1 := if SearchGiven(endDate) then c0 + ["generated_at <= :end_date"] else c0;
    var p1 := if SearchGiven(endDate) then p0["end_date" := endDate.value] else p0;
    var c2 := if SearchGiven(strategy) then c1 + ["strategy = :strategy"] else c1;
    var p2 := if SearchGiven(strategy) then p1["strategy" := strategy.value] else p1;
    (c2, p2)
  }

  /** `(page - 1) * limit`. */
  function Offset(page: int, limit: int): (o: int)
    ensures page >= 1 && limit >= 0 ==> o >= 0
    ensures page == 1 ==> o == 0
  {
    (page - 1) * limit
  }

  /** Consecutive pages start `limit` rows apart, so the pages tile the result. */
  lemma OffsetNextPage(page: int, limit: int)
    ensures Offset(page + 1, limit) == Offset(page, limit) + limit
  {
  }

  /** The response of get_recommendation_history. */
  datatype HistoryResponse =
    | Listed(sort: SortChoice, offset: int)
    | Failed(status: int, sessions: seq<Json>)

  /** Whether PostgreSQL runs `LIMIT :limit OFFSET :offset`: it refuses a negative
      LIMIT and a negative OFFSET. Neither page nor limit is checked by the handler. */
  predicate PagingAccepted(page: int, limit: int) {
    limit >= 0 && Offset(page, limit) >= 0
  }

  /** The 400 for a bad sort is raised inside the handler's own try, so the generic
      `except Exception` answers it, like a database failure or a refused LIMIT/OFFSET,
      with a 500 and no sessions. */
  function History(sort: String, page: int, limit: int, dbFails: bool): (r: HistoryResponse)
    ensures r.Listed? <==> ParseHistorySortAsWritten(sort).Some? && !dbFails && PagingAccepted(page, limit)
    ensures r.Listed? ==> r.sort == ParseHistorySortAsWritten(sort).value && r.offset == Offset(page, limit) && r.offset >= 0
    ensures r.Failed? ==> r.status == 500 && r.sessions == []
  {
    match ParseHistorySortAsWritten(sort)
    case None => Failed(500, [])
    case Some(choice) =>
      if dbFails || !PagingAccepted(page, limit) then Failed(500, []) else Listed(choice, Offset(page, limit))
  }

  /** A page before the first with a positive limit asks for a negative OFFSET, and a
      negative limit for a negative LIMIT: both end in the 500. Page 0 with no rows at all
      is still listed. */
  lemma PagingRefusals(sort: String, page: int, limit: int, dbFails: bool)
    ensures page < 1 && limit > 0 ==> History(sort, page, limit, dbFails) == Failed(500, [])
    ensures limit < 0 ==> History(sort, page, limit, dbFails) == Failed(500, [])
    ensures page >= 1 && limit >= 0 ==> PagingAccepted(page, limit)
    ensures PagingAccepted(page, 0)
  {
  }

  /** The page's "principal-desc" is answered with a 500, never with the intended 400. */
  lemma RejectedSortIsServerError(page: int, limit: int, dbFails: bool)
    ensures History("principal-desc", page, limit, dbFails) == Failed(500, [])
  {
    PageSortRejected("principal", "desc");
    assert "principal" + "-" + "desc" == "principal-desc";
  }
}
