/** The sampled symbol import (backend/stock_symbol_importer.py): two
    required tickers plus a random sample of the other JPX listings, a
    hundred in all, each stored with the provider's company name and
    industry in one transaction committed at the end. */
module SymbolSampler {
  import opened Common
  import opened Transactions
  import SymbolCatalog

  const SelectionSize: int := 100

  /** The tickers always included. */
  const Required: seq<String> := ["7203.T", "6753.T"]

  /** A JPX listing as this script reads it: code text, name and market. */
  datatype Listing = Listing(code: String, name: String, market: String)

  function TickerOf(l: Listing): String {
    SymbolCatalog.Ticker(l.code)
  }

  predicate IsRequired(l: Listing) {
    TickerOf(l) in Required
  }

  /** `jpx_df[jpx_df['ticker'].isin(required_tickers)]`, in list order. */
  function RequiredRows(rows: seq<Listing>): (r: seq<Listing>)
    ensures forall x :: x in r <==> x in rows && IsRequired(x)
  {
    if rows == [] then []
    else (if IsRequired(rows[0]) then [rows[0]] else []) + RequiredRows(rows[1..])
  }

  /** `jpx_df[~jpx_df['ticker'].isin(required_tickers)]`, in list order. */
  function OtherRows(rows: seq<Listing>): (r: seq<Listing>)
    ensures forall x :: x in r <==> x in rows && !IsRequired(x)
  {
    if rows == [] then []
    else (if IsRequired(rows[0]) then [] else [rows[0]]) + OtherRows(rows[1..])
  }

  /** Required and other rows split the list: together they are the list, up to order. */
  lemma {:induction false} SplitIsPartition(rows: seq<Listing>)
    ensures multiset(RequiredRows(rows)) + multiset(OtherRows(rows)) == multiset(rows)
    ensures |RequiredRows(rows)| + |OtherRows(rows)| == |rows|
  {
    if rows != [] {
      SplitIsPartition(rows[1..]);
      assert rows == [rows[0]] + rows[1..];
    }
  }

  /** How many other rows are sampled: enough to reach 100, or all of them when too few. */
  function SampleSize(requiredCount: nat, otherCount: nat): (n: int)
    ensures n <= otherCount && n <= SelectionSize - requiredCount
    ensures n == otherCount || n == SelectionSize - requiredCount
  {
    var n := SelectionSize - requiredCount;
    if otherCount < n then otherCount else n
  }

  /** A sample of n rows: n distinct positions in the other rows (the draw itself is random). */
  predicate IsSample(other: seq<Listing>, picks: seq<nat>, n: int) {
    |picks| == n
    && (forall k :: 0 <= k < |picks| ==> picks[k] < |other|)
    && (forall k, l :: 0 <= k < l < |picks| ==> picks[k] != picks[l])
  }

  function Picked(other: seq<Listing>, picks: seq<nat>): (r: seq<Listing>)
    requires forall k :: 0 <= k < |picks| ==> picks[k] < |other|
    ensures |r| == |picks|
    ensures forall k :: 0 <= k < |picks| ==> r[k] == other[picks[k]]
  {
    if picks == [] then [] else [other[picks[0]]] + Picked(other, picks[1..])
  }

  /** `pd.concat([required_rows, sampled_rows])`. */
  function Selection(rows: seq<Listing>, picks: seq<nat>): seq<Listing>
    requires forall k :: 0 <= k < |picks| ==> picks[k] < |OtherRows(rows)|
  {
    RequiredRows(rows) + Picked(OtherRows(rows), picks)
  }

  /** The selection keeps every required listing, samples only other listings, and has
      |required| + sample size rows: a hundred, or the whole list when it is shorter. */
  lemma SelectionShape(rows: seq<Listing>, picks: seq<nat>)
    requires |RequiredRows(rows)| <= SelectionSize
    requires IsSample(OtherRows(rows), picks, SampleSize(|RequiredRows(rows)|, |OtherRows(rows)|))
    ensures forall x :: x in rows && IsRequired(x) ==> x in Selection(rows, picks)
    ensures forall k :: |RequiredRows(rows)| <= k < |Selection(rows, picks)| ==> !IsRequired(Selection(rows, picks)[k])
    ensures |Selection(rows, picks)| == |RequiredRows(rows)| + SampleSize(|RequiredRows(rows)|, |OtherRows(rows)|)
    ensures |Selection(rows, picks)| == if |rows| < SelectionSize then |rows| else SelectionSize
  {
    SplitIsPartition(rows);
    var sel := Selection(rows, picks);
    forall k | |RequiredRows(rows)| <= k < |sel| ensures !IsRequired(sel[k]) {
      var j := k - |RequiredRows(rows)|;
      assert sel[k] == OtherRows(rows)[picks[j]];
    }
  }

  /** A `stocks` row as far as this script is concerned. */
  datatype Profile = Profile(name: String, industry: String, lastFetched: Option<int>)

  type Profiles = map<String, Profile>

  /** `info.get('longName', jpx_name)` and `info.get('industry', '')`. */
  function NameAndIndustry(jpxName: String, info: map<String, String>): (r: (String, String))
    ensures r.0 == (if "longName" in info then info["longName"] else jpxName)
    ensures r.1 == (if "industry" in info then info["industry"] else "")
  {
    (if "longName" in info then info["longName"] else jpxName,
     if "industry" in info then info["industry"] else "")
  }

  /** INSERT ... ON CONFLICT (symbol) DO UPDATE of name and industry only. */
  function UpsertProfile(ps: Profiles, ticker: String, name: String, industry: String): (ps': Profiles)
    ensures ticker in ps' && ps'[ticker].name == name && ps'[ticker].industry == industry
    ensures ticker in ps ==> ps'[ticker].lastFetched == ps[ticker].lastFetched
    ensures forall s :: s in ps && s != ticker ==> s in ps' && ps'[s] == ps[s]
    ensures ps'.Keys == ps.Keys + {ticker}
  {
    ps[ticker := Profile(name, industry, if ticker in ps then ps[ticker].lastFetched else None)]
  }

  function ProfileEffect(l: Listing, info: map<String, String>): Profiles -> Profiles {
    var (name, industry) := NameAndIndustry(l.name, info);
    (ps: Profiles) => UpsertProfile(ps, TickerOf(l), name, industry)
  }

  /** The per-ticker loop as written: `stock.info` runs outside the try, so a failing
      lookup (None) ends the script before the commit; a failing upsert is only logged,
      leaving the transaction aborted. */
  function SaveAsWritten(c: Conn<Profiles>, sel: seq<Listing>, info: String -> Option<map<String, String>>,
                         fails: String -> bool): Option<Conn<Profiles>>
    decreases |sel|
  {
    if sel == [] then Some(Committed(c))
    else
      match info(TickerOf(sel[0]))
      case None => None
      case Some(i) => SaveAsWritten(Executed(c, ProfileEffect(sel[0], i), fails(TickerOf(sel[0]))).0, sel[1..], info, fails)
  }

  /** As written, one failing upsert anywhere loses every ticker of the run: the
      transaction stays aborted and the final commit rolls it back. */
  lemma {:induction false} OneFailureLosesAll(c: Conn<Profiles>, sel: seq<Listing>, info: String -> Option<map<String, String>>,
                                               fails: String -> bool, j: nat)
    requires !c.aborted
    requires j < |sel| && fails(TickerOf(sel[j]))
    requires forall k :: 0 <= k < |sel| ==> info(TickerOf(sel[k])).Some?
    decreases j
    ensures SaveAsWritten(c, sel, info, fails) == Some(RolledBack(c))
  {
    var c1 := Executed(c, ProfileEffect(sel[0], info(TickerOf(sel[0])).value), fails(TickerOf(sel[0]))).0;
    assert forall k :: 0 <= k < |sel[1..]| ==> sel[1..][k] == sel[k + 1];
    if j == 0 || fails(TickerOf(sel[0])) {
      AbortedSaveAsWritten(c1, sel[1..], info, fails);
    } else {
      OneFailureLosesAll(c1, sel[1..], info, fails, j - 1);
    }
  }

  lemma {:induction false} AbortedSaveAsWritten(c: Conn<Profiles>, sel: seq<Listing>, info: String -> Option<map<String, String>>,
                                                 fails: String -> bool)
    requires c.aborted
    requires forall k :: 0 <= k < |sel| ==> info(TickerOf(sel[k])).Some?
    decreases |sel|
    ensures SaveAsWritten(c, sel, info, fails) == Some(RolledBack(c))
  {
    if sel != [] {
      assert forall k :: 0 <= k < |sel[1..]| ==> sel[1..][k] == sel[k + 1];
      AbortedSaveAsWritten(c, sel[1..], info, fails);
    }
  }

  /** The loop with each upsert in its own savepoint, so a failing ticker is skipped
      without undoing the others. */
  function Save(c: Conn<Profiles>, sel: seq<Listing>, info: String -> Option<map<String, String>>,
                fails: String -> bool): Option<Conn<Profiles>>
    decreases |sel|
  {
    if sel == [] then Some(Committed(c))
    else
      match info(TickerOf(sel[0]))
      case None => None
      case Some(i) => Save(ExecutedInSavepoint(c, ProfileEffect(sel[0], i), fails(TickerOf(sel[0]))).0, sel[1..], info, fails)
  }

  /** The profiles every non-failing ticker writes, in selection order. */
  function Expected(ps: Profiles, sel: seq<Listing>, info: String -> Option<map<String, String>>,
                    fails: String -> bool): Profiles
    requires forall k :: 0 <= k < |sel| ==> info(TickerOf(sel[k])).Some?
    decreases |sel|
  {
    if sel == [] then ps
    else
      var next := if fails(TickerOf(sel[0])) then ps else ProfileEffect(sel[0], info(TickerOf(sel[0])).value)(ps);
      Expected(next, sel[1..], info, fails)
  }

  /** With savepoints, the run commits the upsert of exactly the tickers that do not fail;
      a failing company lookup still ends the run with nothing committed. */
  lemma {:induction false} SaveKeepsGoodTickers(c: Conn<Profiles>, sel: seq<Listing>, info: String -> Option<map<String, String>>,
                                                 fails: String -> bool)
    requires !c.aborted
    decreases |sel|
    ensures (forall k :: 0 <= k < |sel| ==> info(TickerOf(sel[k])).Some?) <==> Save(c, sel, info, fails).Some?
    ensures Save(c, sel, info, fails).Some? ==>
      Save(c, sel, info, fails).value == Fresh(Expected(c.pending, sel, info, fails))
  {
    if sel != [] {
      var i := info(TickerOf(sel[0]));
      if i.Some? {
        SaveKeepsGoodTickers(ExecutedInSavepoint(c, ProfileEffect(sel[0], i.value), fails(TickerOf(sel[0]))).0, sel[1..], info, fails);
        assert forall k :: 1 <= k < |sel| ==> sel[1..][k - 1] == sel[k];
      }
    }
  }

  /** Two new tickers where only the first one's upsert fails: as written neither is saved,
      with savepoints the second one is. */
  lemma FailureExample(a: Listing, b: Listing, fails: String -> bool)
    requires fails(TickerOf(a)) && !fails(TickerOf(b))
    ensures var info := (t: String) => Some(map[]);
      && SaveAsWritten(Fresh(map[]), [a, b], info, fails) == Some(Fresh(map[]))
      && Save(Fresh(map[]), [a, b], info, fails).Some?
      && TickerOf(b) in Save(Fresh(map[]), [a, b], info, fails).value.committed
  {
    var info := (t: String) => Some(map[]);
    OneFailureLosesAll(Fresh(map[]), [a, b], info, fails, 0);
    SaveKeepsGoodTickers(Fresh(map[]), [a, b], info, fails);
    assert [a, b][1..] == [b];
    assert [b][1..] == [];
    var written := ProfileEffect(b, map[])(map[]);
    assert TickerOf(b) in written;
    assert Expected(map[], [a, b], info, fails) == Expected(map[], [b], info, fails) == written;
  }

  /** The per-ticker loop and the final commit; false when a company lookup raised. */
  method SaveProfiles(conn: Connection<Profiles>, sel: seq<Listing>, info: String -> Option<map<String, String>>,
                      fails: String -> bool) returns (completed: bool)
    modifies conn
    ensures completed <==> Save(old(conn.State()), sel, info, fails).Some?
    ensures completed ==> conn.State() == Save(old(conn.State()), sel, info, fails).value
    ensures !completed ==> conn.committed == old(conn.committed)
  {
    var i := 0;
    while i < |sel|
      invariant 0 <= i <= |sel|
      invariant conn.committed == old(conn.committed)
      invariant Save(old(conn.State()), sel, info, fails) == Save(conn.State(), sel[i..], info, fails)
    {
      assert sel[i..][1..] == sel[i + 1..];
      var details := info(TickerOf(sel[i]));
      if details.None? {
        return false;
      }
      var _ := conn.ExecuteInSavepoint(ProfileEffect(sel[i], details.value), fails(TickerOf(sel[i])));
      i := i + 1;
    }
    conn.Commit();
    completed := true;
  }
}
