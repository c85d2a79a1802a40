/** The candidate-stock selection of the two confirmation dialogs
    (frontend/src/components/RecommendationConfirmationDialog.tsx and the earlier
    frontend/src/components/ConfirmationDialog.tsx, whose selection code is the same):
    ticking one stock, the header checkbox that selects all or none, and the confirm
    button that needs a selection. The dialog hands each new selection to its parent
    rather than keeping it, so each operation is a function from the old selection to
    the new one. */
module StockSelection {
  import opened Common

  /** A candidate row; only its symbol takes part in the selection. */
  datatype Stock = Stock(symbol: String, name: String, industry: String)

  /** stocks.map(s => s.symbol) */
  function Symbols(stocks: seq<Stock>): (syms: seq<String>)
    ensures |syms| == |stocks|
    ensures forall i :: 0 <= i < |stocks| ==> syms[i] == stocks[i].symbol
  {
    if stocks == [] then [] else Symbols(stocks[..|stocks| - 1]) + [stocks[|stocks| - 1].symbol]
  }

  /** selected.filter(s => s !== symbol) */
  function Without(xs: seq<String>, x: String): (r: seq<String>)
    ensures x !in r
    ensures forall y :: y != x ==> (y in r <==> y in xs)
    ensures multiset(r) == multiset(xs)[x := 0]
  {
    if xs == [] then []
    else
      var last := xs[|xs| - 1];
      assert xs == xs[..|xs| - 1] + [last];
      Without(xs[..|xs| - 1], x) + (if last == x then [] else [last])
  }

  /** toggleStock: a selected symbol is removed (every occurrence of it), an unselected
      one is appended at the end. */
  function ToggleStock(selected: seq<String>, symbol: String): (r: seq<String>)
    ensures symbol in r <==> symbol !in selected
    ensures forall y :: y != symbol ==> (y in r <==> y in selected)
    ensures symbol in selected ==> multiset(r) == multiset(selected)[symbol := 0]
    ensures symbol !in selected ==> r == selected + [symbol]
  {
    if symbol in selected then Without(selected, symbol) else selected + [symbol]
  }

  /** toggleAllStocks: a selection as long as the list is cleared; any other becomes
      every listed symbol, in list order. */
  function ToggleAll(selected: seq<String>, stocks: seq<Stock>): (r: seq<String>)
    ensures |selected| == |stocks| ==> r == []
    ensures |selected| != |stocks| ==> |r| == |stocks| && forall i :: 0 <= i < |stocks| ==> r[i] == stocks[i].symbol
  {
    if |selected| == |stocks| then [] else Symbols(stocks)
  }

  /** The header checkbox: checked when the selection is as long as the list and the
      list is not empty. */
  predicate HeaderChecked(selected: seq<String>, stocks: seq<Stock>) {
    |selected| == |stocks| && |stocks| > 0
  }

  /** The confirm button is disabled while nothing is selected. */
  predicate ConfirmDisabled(selected: seq<String>) {
    |selected| == 0
  }

  predicate Distinct(xs: seq<String>) {
    forall i, j :: 0 <= i < j < |xs| ==> xs[i] != xs[j]
  }

  /** What a selection can be: distinct symbols taken from the list. */
  predicate SelectionOf(selected: seq<String>, stocks: seq<Stock>) {
    Distinct(selected) && forall s :: s in selected ==> s in Symbols(stocks)
  }

  lemma {:induction false} WithoutOfAbsent(xs: seq<String>, x: String)
    requires x !in xs
    ensures Without(xs, x) == xs
  {
    if xs != [] {
      var init := xs[..|xs| - 1];
      var last := xs[|xs| - 1];
      assert xs == init + [last];
      assert last != x;
      assert x !in init by {
        forall k | 0 <= k < |init| ensures init[k] != x {
          assert init[k] == xs[k];
        }
      }
      WithoutOfAbsent(init, x);
      assert Without(xs, x) == Without(init, x) + [last];
    }
  }

  /** Ticking an unselected stock twice gives the selection back unchanged. */
  lemma ToggleTwiceRestores(selected: seq<String>, symbol: String)
    requires symbol !in selected
    ensures ToggleStock(ToggleStock(selected, symbol), symbol) == selected
  {
    var once := selected + [symbol];
    assert once[..|once| - 1] == selected;
    WithoutOfAbsent(selected, symbol);
  }

  lemma {:induction false} WithoutKeepsDistinct(xs: seq<String>, x: String)
    requires Distinct(xs)
    ensures Distinct(Without(xs, x))
  {
    if xs != [] {
      var init := xs[..|xs| - 1];
      var last := xs[|xs| - 1];
      assert Distinct(init);
      WithoutKeepsDistinct(init, x);
      assert last !in init by {
        forall k | 0 <= k < |init| ensures init[k] != last {
          assert init[k] == xs[k];
        }
      }
    }
  }

  /** Ticking keeps a selection of distinct symbols from the list one. */
  lemma ToggleKeepsSelection(selected: seq<String>, stocks: seq<Stock>, symbol: String)
    requires SelectionOf(selected, stocks)
    requires symbol in Symbols(stocks)
    ensures SelectionOf(ToggleStock(selected, symbol), stocks)
  {
    if symbol in selected {
      WithoutKeepsDistinct(selected, symbol);
    }
  }

  lemma {:induction false} OnceInDistinct(xs: seq<String>, x: String)
    requires Distinct(xs) && x in xs
    ensures multiset(xs)[x] == 1
  {
    var init := xs[..|xs| - 1];
    var last := xs[|xs| - 1];
    assert xs == init + [last];
    assert Distinct(init);
    if last == x {
      assert x !in init by {
        forall k | 0 <= k < |init| ensures init[k] != last {
          assert init[k] == xs[k];
        }
      }
    } else {
      OnceInDistinct(init, x);
    }
  }

  /** Ticking a selected stock twice keeps the same symbols, the ticked one moved to
      the end. */
  lemma ToggleTwiceKeepsSymbols(selected: seq<String>, symbol: String)
    requires Distinct(selected) && symbol in selected
    ensures ToggleStock(ToggleStock(selected, symbol), symbol) == Without(selected, symbol) + [symbol]
    ensures multiset(ToggleStock(ToggleStock(selected, symbol), symbol)) == multiset(selected)
  {
    OnceInDistinct(selected, symbol);
  }

  function Elements(xs: seq<String>): set<String> {
    set x | x in xs
  }

  lemma {:induction false} DistinctCard(xs: seq<String>)
    requires Distinct(xs)
    ensures |Elements(xs)| == |xs|
  {
    if xs != [] {
      var init := xs[..|xs| - 1];
      var last := xs[|xs| - 1];
      assert Distinct(init);
      DistinctCard(init);
      assert last !in Elements(init) by {
        forall k | 0 <= k < |init| ensures init[k] != last {
          assert init[k] == xs[k];
        }
      }
      assert Elements(xs) == Elements(init) + {last};
    }
  }

  lemma {:induction false} SubsetCard(a: set<String>, b: set<String>)
    requires a <= b
    ensures |a| <= |b|
    decreases a
  {
    if a != {} {
      var x :| x in a;
      SubsetCard(a - {x}, b - {x});
    }
  }

  lemma EqualCardSubset(a: set<String>, b: set<String>)
    requires a <= b && |a| == |b|
    ensures a == b
  {
    if x :| x in b && x !in a {
      SubsetCard(a, b - {x});
    }
  }

  /** The header compares lengths only, yet for a selection of distinct listed symbols
      over a list of distinct symbols, equal length means every listed stock is
      selected. */
  lemma LengthMeansAllSelected(selected: seq<String>, stocks: seq<Stock>)
    requires SelectionOf(selected, stocks) && Distinct(Symbols(stocks))
    ensures |selected| == |stocks| <==> forall i :: 0 <= i < |stocks| ==> stocks[i].symbol in selected
  {
    if |selected| == |stocks| {
      FullLengthSelectsAll(selected, stocks);
    }
    if forall i :: 0 <= i < |stocks| ==> stocks[i].symbol in selected {
      AllSelectedIsFullLength(selected, stocks);
    }
  }

  lemma FullLengthSelectsAll(selected: seq<String>, stocks: seq<Stock>)
    requires SelectionOf(selected, stocks) && Distinct(Symbols(stocks))
    requires |selected| == |stocks|
    ensures forall i :: 0 <= i < |stocks| ==> stocks[i].symbol in selected
  {
    var syms := Symbols(stocks);
    SameLengthCovers(selected, syms);
    forall i | 0 <= i < |stocks| ensures stocks[i].symbol in selected {
      assert syms[i] in syms;
    }
  }

  lemma AllSelectedIsFullLength(selected: seq<String>, stocks: seq<Stock>)
    requires SelectionOf(selected, stocks) && Distinct(Symbols(stocks))
    requires forall i :: 0 <= i < |stocks| ==> stocks[i].symbol in selected
    ensures |selected| == |stocks|
  {
    var syms := Symbols(stocks);
    forall i | 0 <= i < |syms| ensures syms[i] in selected {
      assert syms[i] == stocks[i].symbol;
    }
    IndexCoverSameLength(selected, syms);
  }

  lemma IndexCoverSameLength(xs: seq<String>, ys: seq<String>)
    requires Distinct(xs) && Distinct(ys)
    requires forall s :: s in xs ==> s in ys
    requires forall i :: 0 <= i < |ys| ==> ys[i] in xs
    ensures |xs| == |ys|
  {
    forall s | s in ys ensures s in xs {
      var i :| 0 <= i < |ys| && ys[i] == s;
    }
    MutualCoverSameLength(xs, ys);
  }

  /** Two lists of distinct elements, the first within the second and as long, hold the
      same elements. */
  lemma SameLengthCovers(xs: seq<String>, ys: seq<String>)
    requires Distinct(xs) && Distinct(ys) && |xs| == |ys|
    requires forall s :: s in xs ==> s in ys
    ensures forall s :: s in ys ==> s in xs
  {
    DistinctCard(xs);
    DistinctCard(ys);
    var a, b := Elements(xs), Elements(ys);
    assert a <= b;
    EqualCardSubset(a, b);
    forall s | s in ys ensures s in xs {
      assert s in b;
    }
  }

  lemma MutualCoverSameLength(xs: seq<String>, ys: seq<String>)
    requires Distinct(xs) && Distinct(ys)
    requires forall s :: s in xs ==> s in ys
    requires forall s :: s in ys ==> s in xs
    ensures |xs| == |ys|
  {
    DistinctCard(xs);
    DistinctCard(ys);
    var a, b := Elements(xs), Elements(ys);
    assert a == b;
  }

  /** The header checkbox undoes itself: on a non-empty list it clears a full selection
      and selects everything otherwise. */
  lemma ToggleAllFlipsHeader(selected: seq<String>, stocks: seq<Stock>)
    requires |stocks| > 0
    ensures HeaderChecked(ToggleAll(selected, stocks), stocks) <==> !HeaderChecked(selected, stocks)
    ensures HeaderChecked(selected, stocks) ==> ConfirmDisabled(ToggleAll(selected, stocks))
  {
  }

  /** With distinct symbols in the list, select-all yields a selection in the sense
      above. */
  lemma ToggleAllIsSelection(selected: seq<String>, stocks: seq<Stock>)
    requires Distinct(Symbols(stocks))
    ensures SelectionOf(ToggleAll(selected, stocks), stocks)
  {
  }
}
