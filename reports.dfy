/** The figures behind the three reports of `ProductionCalculator`
    (`_report_recipe_details`, `_report_net_products`,
    `_report_resource_summary`): totals over the variants a plan runs, the
    net output of every item, and how much of each raw resource is used.
    The text of the reports is not modelled, only the numbers in it. */
module Reports {
  import opened Wrappers
  import opened Dicts
  import Config
  import opened Elements
  import opened Matrix
  import opened Production

  /** Rates at or below this are treated as zero (`1e-8`). */
  const TINY: real := 0.00000001

  /** The value of row `i` in column `c`. */
  function Cell(f: Frame, i: int, c: string): real
    requires f.Valid() && 0 <= i < |f.index| && c in f.columns
  {
    f.values[i][IndexOf(f.columns, c)]
  }

  lemma AggregatesInColumns(f: Frame)
    requires AGGREGATES <= f.columns
    ensures "somersloop" in f.columns && "power" in f.columns && "raw_power" in f.columns
    ensures IndexOf(f.columns, "somersloop") == 0
  {
    assert f.columns[0] == "somersloop" && f.columns[1] == "power" && f.columns[2] == "raw_power";
  }

  // ----- Recipe details -----

  /** Total somersloops, power and raw power of the variants a plan runs. */
  datatype Totals = Totals(somersloop: real, power: real, rawPower: real)

  /** Add row `i`, run at rate `xi`, to the totals. */
  function AddRowTotals(t: Totals, f: Frame, i: int, xi: real): Totals
    requires f.Valid() && 0 <= i < |f.index| && AGGREGATES <= f.columns
  {
    AggregatesInColumns(f);
    Totals(t.somersloop + Term(Cell(f, i, "somersloop"), xi),
           t.power + Term(Cell(f, i, "power"), xi),
           t.rawPower + Term(Cell(f, i, "raw_power"), xi))
  }

  /** The totals of `_report_recipe_details`: over the rates of the plan in
      order, skipping rates of at most 1e-8 and rows whose label does not
      start with a known recipe; a rate beyond the last row is an IndexError. */
  function DetailTotals(f: Frame, recipes: Dict<Recipe>, x: seq<real>): Result<Totals>
    requires f.Valid() && AGGREGATES <= f.columns
  {
    if |x| == 0 then Ok(Totals(0.0, 0.0, 0.0))
    else
      var n := |x| - 1;
      match DetailTotals(f, recipes, x[..n])
      case Err(e) => Err(e)
      case Ok(t) =>
        if x[n] <= TINY then Ok(t)
        else if n >= |f.index| then Err(IndexError)
        else if RecipePrefix(f.index[n]) !in recipes.entries then Ok(t)
        else Ok(AddRowTotals(t, f, n, x[n]))
  }

  /** The totals fail exactly when the plan runs a variable the matrix has
      no row for (at a rate above 1e-8). */
  lemma {:induction false} DetailTotalsFails(f: Frame, recipes: Dict<Recipe>, x: seq<real>)
    requires f.Valid() && AGGREGATES <= f.columns
    ensures DetailTotals(f, recipes, x).Ok? <==> forall i :: |f.index| <= i < |x| ==> x[i] <= TINY
    ensures DetailTotals(f, recipes, x).Err? ==> DetailTotals(f, recipes, x).error == IndexError
  {
    if |x| > 0 {
      var n := |x| - 1;
      DetailTotalsFails(f, recipes, x[..n]);
      assert forall i :: 0 <= i < n ==> x[..n][i] == x[i];
    }
  }

  /** A failure part-way through is the outcome of the whole loop. */
  lemma {:induction false} DetailTotalsStops(f: Frame, recipes: Dict<Recipe>, x: seq<real>, i: nat)
    requires f.Valid() && AGGREGATES <= f.columns
    requires i <= |x| && DetailTotals(f, recipes, x[..i]).Err?
    ensures DetailTotals(f, recipes, x) == DetailTotals(f, recipes, x[..i])
  {
    if i < |x| {
      var n := |x| - 1;
      assert x[..n][..i] == x[..i];
      DetailTotalsStops(f, recipes, x[..n], i);
    } else {
      assert x[..i] == x;
    }
  }

  /** With non-negative rates and somersloop counts, the somersloops the
      report totals over the first `n` rows are at most the plan's net
      somersloop use over those rows. */
  lemma {:induction false} TotalSomersloopAtMostFlow(f: Frame, recipes: Dict<Recipe>, x: seq<real>, n: nat)
    requires f.Valid() && AGGREGATES <= f.columns && |x| == |f.index| && n <= |x|
    requires forall i :: 0 <= i < |x| ==> x[i] >= 0.0 && f.values[i][0] >= 0.0
    ensures DetailTotals(f, recipes, x[..n]).Ok?
    ensures DetailTotals(f, recipes, x[..n]).value.somersloop <= Dot(Column(f, 0)[..n], x[..n])
  {
    AggregatesInColumns(f);
    if n > 0 {
      var m := n - 1;
      assert x[..n][..m] == x[..m];
      TotalSomersloopAtMostFlow(f, recipes, x, m);
      var col := Column(f, 0);
      assert col[..n][..m] == col[..m];
      assert Dot(col[..n], x[..n]) == Dot(col[..m], x[..m]) + Term(col[m], x[m]);
      assert Term(col[m], x[m]) >= 0.0;
    }
  }

  /** A plan that meets the somersloop constraint, with non-negative rates,
      reports at most 106 somersloops in total. */
  lemma TotalSomersloopWithinLimit(f: Frame, recipes: Dict<Recipe>, pinned: bool, x: seq<real>)
    requires f.Valid() && AGGREGATES <= f.columns && |x| == |f.index|
    requires forall i :: 0 <= i < |x| ==> x[i] >= 0.0 && f.values[i][0] >= 0.0
    requires ColumnHolds("somersloop", pinned, NetFlow(f, 0, x))
    ensures DetailTotals(f, recipes, x).Ok?
    ensures DetailTotals(f, recipes, x).value.somersloop <= 106.0
  {
    AggregatesInColumns(f);
    TotalSomersloopAtMostFlow(f, recipes, x, |x|);
    assert x[..|x|] == x;
    assert Column(f, 0)[..|x|] == Column(f, 0);
  }

  /** `_report_recipe_details`: the totals over the stored solver result. */
  method ReportRecipeDetails(calculator: ProductionCalculator) returns (r: Result<Totals>)
    requires calculator.Valid()
    ensures calculator.result.None? ==> r.Err? && r.error.RuntimeError?
    ensures calculator.result.Some? ==>
              r == DetailTotals(calculator.recipeMatrix.coefMatrix, calculator.recipeMatrix.dataset.recipes,
                                calculator.result.value.x)
  {
    var res := calculator.GetResult();
    if res.Err? {
      return Err(res.error);
    }
    var f := calculator.recipeMatrix.coefMatrix;
    var recipes := calculator.recipeMatrix.dataset.recipes;
    var x := res.value.x;
    AggregatesInColumns(f);
    var totalPower, totalRawPower, totalSomersloop := 0.0, 0.0, 0.0;
    for ix := 0 to |x|
      invariant DetailTotals(f, recipes, x[..ix]) == Ok(Totals(totalSomersloop, totalPower, totalRawPower))
    {
      assert x[..ix + 1][..ix] == x[..ix];
      if x[ix] > TINY {
        if ix >= |f.index| {
          DetailTotalsStops(f, recipes, x, ix + 1);
          return Err(IndexError);
        }
        var recipeClassname := RecipePrefix(f.index[ix]);
        if recipeClassname in recipes.entries {
          totalSomersloop := totalSomersloop + Term(Cell(f, ix, "somersloop"), x[ix]);
          totalPower := totalPower + Term(Cell(f, ix, "power"), x[ix]);
          totalRawPower := totalRawPower + Term(Cell(f, ix, "raw_power"), x[ix]);
        }
      }
    }
    assert x[..|x|] == x;
    r := Ok(Totals(totalSomersloop, totalPower, totalRawPower));
  }

  // ----- Net products -----

  /** One line of the net-products report: an item, its net output per
      minute (in displayed units) and, for a sinkable item, the sink points
      per minute that output is worth. */
  datatype NetLine = NetLine(item: string, perMinute: real, sinkPoints: Option<real>)

  /** The line for an item of net output `amount` per second. */
  function LineOf(c: string, item: Item, amount: real): NetLine {
    NetLine(c, item.RescaleAmount(amount * 60.0),
            if item.IsSinkable() then Some(item.RescaledSinkPoints(amount * 60.0)) else None)
  }

  function PointsOf(line: NetLine): real {
    if line.sinkPoints.Some? then line.sinkPoints.value else 0.0
  }

  /** Total sink points of the lines. */
  function SumPoints(lines: seq<NetLine>): real {
    if |lines| == 0 then 0.0 else SumPoints(lines[..|lines| - 1]) + PointsOf(lines[|lines| - 1])
  }

  function Names(lines: seq<NetLine>): (names: seq<string>)
    ensures |names| == |lines| && forall k :: 0 <= k < |lines| ==> names[k] == lines[k].item
  {
    seq(|lines|, k requires 0 <= k < |lines| => lines[k].item)
  }

  /** The plan's net flow in every column of the coefficient matrix. */
  function NetFlows(f: Frame, x: seq<real>): (prod: seq<real>)
    requires f.Valid() && |x| == |f.index|
    ensures |prod| == |f.columns|
    ensures forall j :: 0 <= j < |f.columns| ==> prod[j] == NetFlow(f, j, x)
  {
    seq(|f.columns|, j requires 0 <= j < |f.columns| => NetFlow(f, j, x))
  }

  /** The lines for the first `n` columns, `prod` holding each column's net
      output: every column that is an item with a net output of at least
      1e-8. */
  function NetLines(items: map<string, Item>, columns: seq<string>, prod: seq<real>, n: nat): seq<NetLine>
    requires |prod| == |columns| && n <= |columns|
  {
    if n == 0 then []
    else
      var c, amount := columns[n - 1], prod[n - 1];
      NetLines(items, columns, prod, n - 1)
      + (if c !in items || amount < TINY then [] else [LineOf(c, items[c], amount)])
  }

  /** `_report_net_products`: the lines and the total sink points; a plan
      whose length differs from the matrix's row count is the ValueError
      `DataFrame.dot` raises for an array operand (its message also names
      the two shapes, which the model leaves out). */
  function NetProducts(f: Frame, items: Dict<Item>, x: seq<real>): Result<(seq<NetLine>, real)>
    requires f.Valid()
  {
    if |x| != |f.index| then Err(ValueError("Dot product shape mismatch"))
    else
      var lines := NetLines(items.entries, f.columns, NetFlows(f, x), |f.columns|);
      Ok((lines, SumPoints(lines)))
  }

  lemma SinkPointsNonNegative(item: Item, amount: real)
    requires item.IsSinkable() && amount >= TINY
    ensures item.RescaledSinkPoints(amount * 60.0) == item.resourceSinkPoints as real * amount * 60.0
    ensures item.RescaledSinkPoints(amount * 60.0) > 0.0
  {
    RescaledSinkPointsCases(item, amount * 60.0, false);
    var p := item.resourceSinkPoints as real;
    assert p > 0.0 && amount * 60.0 > 0.0;
    assert p * (amount * 60.0) > 0.0;
  }

  /** What a line of the net-products report says about its item: the item
      is a column and a dataset item, the line gives its net output per
      minute in displayed units, it has sink points iff the item is
      sinkable, and then they are the item's points per unit times its
      output per minute. */
  ghost predicate LineRight(items: map<string, Item>, columns: seq<string>, prod: seq<real>, line: NetLine) {
    && |prod| == |columns|
    && line.item in columns && line.item in items
    && var item := items[line.item];
       var amount := prod[IndexOf(columns, line.item)];
       && amount >= TINY
       && line.perMinute == item.RescaleAmount(amount * 60.0)
       && (line.sinkPoints.Some? <==> item.IsSinkable())
       && (line.sinkPoints.Some? ==> line.sinkPoints.value == item.resourceSinkPoints as real * amount * 60.0)
  }

  /** One more column adds its line, or nothing when it is not an item or
      its net output is below 1e-8. */
  lemma NetLinesStep(items: map<string, Item>, columns: seq<string>, prod: seq<real>, n: nat)
    requires |prod| == |columns| && 0 < n <= |columns|
    ensures var c, amount := columns[n - 1], prod[n - 1];
            NetLines(items, columns, prod, n) ==
              if c !in items || amount < TINY then NetLines(items, columns, prod, n - 1)
              else NetLines(items, columns, prod, n - 1) + [LineOf(c, items[c], amount)]
  {
    assert NetLines(items, columns, prod, n - 1) + [] == NetLines(items, columns, prod, n - 1);
  }

  /** The report lists, in column order, each column that is an item with a
      net output of at least 1e-8, and only those. */
  lemma {:induction false} NetLinesMembers(items: map<string, Item>, columns: seq<string>, prod: seq<real>, n: nat)
    requires |prod| == |columns| && Distinct(columns) && n <= |columns|
    ensures forall c :: c in Names(NetLines(items, columns, prod, n)) <==>
              c in columns[..n] && c in items && prod[IndexOf(columns, c)] >= TINY
  {
    if n > 0 {
      var m := n - 1;
      NetLinesMembers(items, columns, prod, m);
      NetLinesStep(items, columns, prod, n);
      var init := NetLines(items, columns, prod, m);
      var names := Names(NetLines(items, columns, prod, n));
      var c := columns[m];
      assert IndexOf(columns, c) == m;
      if c in items && prod[m] >= TINY {
        assert names == Names(init) + [c];
      } else {
        assert names == Names(init);
      }
      forall d
        ensures d in names <==> d in columns[..n] && d in items && prod[IndexOf(columns, d)] >= TINY
      {
        assert columns[..n] == columns[..m] + [c];
        assert d in columns[..n] <==> d in columns[..m] || d == c;
      }
    }
  }

  /** No item is listed twice. */
  lemma {:induction false} NetLinesDistinct(items: map<string, Item>, columns: seq<string>, prod: seq<real>, n: nat)
    requires |prod| == |columns| && Distinct(columns) && n <= |columns|
    ensures Distinct(Names(NetLines(items, columns, prod, n)))
    ensures forall c :: c in Names(NetLines(items, columns, prod, n)) ==> c in columns[..n]
  {
    if n > 0 {
      var m := n - 1;
      NetLinesDistinct(items, columns, prod, m);
      NetLinesStep(items, columns, prod, n);
      var init := NetLines(items, columns, prod, m);
      var c := columns[m];
      assert columns[..n] == columns[..m] + [c];
      assert c !in columns[..m];
      if c in items && prod[m] >= TINY {
        assert Names(init + [LineOf(c, items[c], prod[m])]) == Names(init) + [c];
      }
    }
  }

  /** Every line of the net-products report is right about its item. */
  lemma {:induction false} NetLinesRight(items: map<string, Item>, columns: seq<string>, prod: seq<real>, n: nat)
    requires |prod| == |columns| && Distinct(columns) && n <= |columns|
    ensures forall line :: line in NetLines(items, columns, prod, n) ==> LineRight(items, columns, prod, line)
  {
    if n > 0 {
      var m := n - 1;
      NetLinesRight(items, columns, prod, m);
      NetLinesStep(items, columns, prod, n);
      var c, amount := columns[m], prod[m];
      assert IndexOf(columns, c) == m;
      if c in items && amount >= TINY {
        var item := items[c];
        if item.IsSinkable() {
          SinkPointsNonNegative(item, amount);
        }
        assert LineRight(items, columns, prod, LineOf(c, item, amount));
      }
    }
  }

  /** The total sink points of the report are never negative. */
  lemma {:induction false} NetLinesTotal(items: map<string, Item>, columns: seq<string>, prod: seq<real>, n: nat)
    requires |prod| == |columns| && n <= |columns|
    ensures SumPoints(NetLines(items, columns, prod, n)) >= 0.0
  {
    if n > 0 {
      var m := n - 1;
      NetLinesTotal(items, columns, prod, m);
      NetLinesStep(items, columns, prod, n);
      var c, amount := columns[m], prod[m];
      if c in items && amount >= TINY {
        LinePointsNonNegative(c, items[c], amount);
        SumPointsAppend(NetLines(items, columns, prod, m), LineOf(c, items[c], amount));
      }
    }
  }

  /** A line of positive output is worth no negative points. */
  lemma LinePointsNonNegative(c: string, item: Item, amount: real)
    requires amount >= TINY
    ensures PointsOf(LineOf(c, item, amount)) >= 0.0
  {
    if item.IsSinkable() {
      SinkPointsNonNegative(item, amount);
    }
  }

  /** `_report_net_products` lists, in column order and each once, exactly
      the matrix columns that are items with a net output of at least 1e-8,
      every line right about its item; the total is the lines' sink points
      and is never negative. A plan of the wrong length is a ValueError. */
  lemma NetProductsMeaning(f: Frame, items: Dict<Item>, x: seq<real>)
    requires f.Valid() && Distinct(f.columns)
    ensures NetProducts(f, items, x).Err? <==> |x| != |f.index|
    ensures NetProducts(f, items, x).Err? ==> NetProducts(f, items, x).error.ValueError?
    ensures NetProducts(f, items, x).Ok? ==>
              var (lines, total) := NetProducts(f, items, x).value;
              && Distinct(Names(lines))
              && (forall c :: c in Names(lines) <==>
                    c in f.columns && c in items.entries && NetFlow(f, IndexOf(f.columns, c), x) >= TINY)
              && (forall line :: line in lines ==> LineRight(items.entries, f.columns, NetFlows(f, x), line))
              && total == SumPoints(lines) && total >= 0.0
  {
    if |x| == |f.index| {
      var prod := NetFlows(f, x);
      var n := |f.columns|;
      assert f.columns[..n] == f.columns;
      NetLinesMembers(items.entries, f.columns, prod, n);
      NetLinesDistinct(items.entries, f.columns, prod, n);
      NetLinesRight(items.entries, f.columns, prod, n);
      NetLinesTotal(items.entries, f.columns, prod, n);
    }
  }

  lemma SumPointsAppend(lines: seq<NetLine>, line: NetLine)
    ensures SumPoints(lines + [line]) == SumPoints(lines) + PointsOf(line)
  {
    assert (lines + [line])[..|lines|] == lines;
  }

  /** `_report_net_products` over the stored solver result. */
  method ReportNetProducts(calculator: ProductionCalculator) returns (r: Result<(seq<NetLine>, real)>)
    requires calculator.Valid()
    ensures calculator.result.None? ==> r.Err? && r.error.RuntimeError?
    ensures calculator.result.Some? ==>
              r == NetProducts(calculator.recipeMatrix.coefMatrix, calculator.recipeMatrix.dataset.items,
                               calculator.result.value.x)
  {
    var res := calculator.GetResult();
    if res.Err? {
      return Err(res.error);
    }
    var f := calculator.recipeMatrix.coefMatrix;
    var x := res.value.x;
    if |x| != |f.index| {
      return Err(ValueError("Dot product shape mismatch"));
    }
    var prod := NetFlows(f, x);
    var lines, total := NetProductLines(calculator.recipeMatrix.dataset.items.entries, f.columns, prod);
    r := Ok((lines, total));
  }

  /** The loop of `_report_net_products`, given the plan's net flow `prod`
      of every column: walk the columns in order, adding up the sink points
      as it goes. */
  method NetProductLines(items: map<string, Item>, columns: seq<string>, prod: seq<real>)
    returns (lines: seq<NetLine>, total: real)
    requires |prod| == |columns|
    ensures lines == NetLines(items, columns, prod, |columns|)
    ensures total == SumPoints(lines)
  {
    lines := [];
    var totalSinkpoints := 0.0;
    for j := 0 to |columns|
      invariant lines == NetLines(items, columns, prod, j)
      invariant totalSinkpoints == SumPoints(lines)
    {
      var itemclass, amount := columns[j], prod[j];
      NetLinesStep(items, columns, prod, j + 1);
      if itemclass in items && amount >= TINY {
        var item := items[itemclass];
        var sinkpoints: Option<real> := None;
        if item.IsSinkable() {
          sinkpoints := Some(item.RescaledSinkPoints(amount * 60.0));
          totalSinkpoints := totalSinkpoints + sinkpoints.value;
        }
        var line := NetLine(itemclass, item.RescaleAmount(amount * 60.0), sinkpoints);
        assert line == LineOf(itemclass, item, amount);
        SumPointsAppend(lines, line);
        lines := lines + [line];
      }
    }
    total := totalSinkpoints;
  }

  // ----- Resource summary -----

  /** Positions, among the first `n` rows, of the variants of resource-proxy
      recipes; a row whose label does not start with a known recipe is a
      KeyError. */
  function ProxyRows(f: Frame, recipes: Dict<Recipe>, n: nat): Result<seq<int>>
    requires n <= |f.index|
  {
    if n == 0 then Ok([])
    else
      match ProxyRows(f, recipes, n - 1)
      case Err(e) => Err(e)
      case Ok(pos) =>
        var r := RecipePrefix(f.index[n - 1]);
        if r !in recipes.entries then Err(KeyError(r))
        else if recipes.entries[r].isResourceProxy then Ok(pos + [n - 1])
        else Ok(pos)
  }

  /** The proxy rows are found exactly when every row label starts with a
      known recipe; they are then, in order, exactly the rows of
      resource-proxy recipes. */
  lemma ProxyRowsMeaning(f: Frame, recipes: Dict<Recipe>, n: nat)
    requires n <= |f.index|
    ensures ProxyRows(f, recipes, n).Ok? <==> forall i :: 0 <= i < n ==> RecipePrefix(f.index[i]) in recipes.entries
    ensures ProxyRows(f, recipes, n).Err? ==> ProxyRows(f, recipes, n).error.KeyError?
    ensures ProxyRows(f, recipes, n).Ok? ==>
              var pos := ProxyRows(f, recipes, n).value;
              && (forall k, l :: 0 <= k < l < |pos| ==> pos[k] < pos[l])
              && (forall k :: 0 <= k < |pos| ==> 0 <= pos[k] < n)
              && forall i :: 0 <= i < n ==>
                   (i in pos <==> recipes.entries[RecipePrefix(f.index[i])].isResourceProxy)
  {
    ProxyRowsFound(f, recipes, n);
    if ProxyRows(f, recipes, n).Ok? {
      ProxyRowsPositions(f, recipes, n);
    }
  }

  /** The proxy rows are found exactly when every row label starts with a
      known recipe, and a failure is a KeyError. */
  lemma {:induction false} ProxyRowsFound(f: Frame, recipes: Dict<Recipe>, n: nat)
    requires n <= |f.index|
    ensures ProxyRows(f, recipes, n).Ok? <==> forall i :: 0 <= i < n ==> RecipePrefix(f.index[i]) in recipes.entries
    ensures ProxyRows(f, recipes, n).Err? ==> ProxyRows(f, recipes, n).error.KeyError?
  {
    if n > 0 {
      ProxyRowsFound(f, recipes, n - 1);
    }
  }

  /** Found proxy rows are increasing row numbers below `n`, and a row is
      among them iff its recipe is a resource proxy. */
  lemma {:induction false} ProxyRowsPositions(f: Frame, recipes: Dict<Recipe>, n: nat)
    requires n <= |f.index| && ProxyRows(f, recipes, n).Ok?
    ensures var pos := ProxyRows(f, recipes, n).value;
            && (forall k, l :: 0 <= k < l < |pos| ==> pos[k] < pos[l])
            && (forall k :: 0 <= k < |pos| ==> 0 <= pos[k] < n)
            && forall i :: 0 <= i < n ==>
                 && RecipePrefix(f.index[i]) in recipes.entries
                 && (i in pos <==> recipes.entries[RecipePrefix(f.index[i])].isResourceProxy)
  {
    if n > 0 {
      ProxyRowsPositions(f, recipes, n - 1);
      var pos := ProxyRows(f, recipes, n - 1).value;
      var r := RecipePrefix(f.index[n - 1]);
      if recipes.entries[r].isResourceProxy {
        assert ProxyRows(f, recipes, n).value == pos + [n - 1];
        assert n - 1 !in pos;
      } else {
        assert ProxyRows(f, recipes, n).value == pos;
      }
    }
  }

  /** Σ over the proxy rows `pos` of their value in column `j` times their rate. */
  function RateOver(f: Frame, j: int, pos: seq<int>, x: seq<real>): real
    requires f.Valid() && 0 <= j < |f.columns|
    requires forall k :: 0 <= k < |pos| ==> 0 <= pos[k] < |f.index| && pos[k] < |x|
  {
    if |pos| == 0 then 0.0
    else
      var p := pos[|pos| - 1];
      RateOver(f, j, pos[..|pos| - 1], x) + Term(f.values[p][j], x[p])
  }

  /** One line of the resource summary: a raw resource, its consumption per
      minute, its configured ceiling and, when that ceiling is positive, the
      percentage of it used. Where the matrix has no column for the
      resource, `reindex` fills the proxy rows' cells with NaN and the
      consumption is NaN (none here, and then there is no percentage either);
      with no proxy rows at all the product is empty and the consumption is
      0. A ceiling of zero or less is shown as "N/A". */
  datatype Utilisation = Utilisation(item: string, perMinute: Option<real>, ceiling: int, percent: Option<real>)

  /** The line for one configured resource. */
  function UtilisationOf(c: string, item: Item, rate: Option<real>, ceiling: int): Utilisation {
    var perMinute := if rate.Some? then Some(item.RescaleAmount(rate.value) * 60.0) else None;
    Utilisation(c, perMinute, ceiling,
                if ceiling > 0 && perMinute.Some? then Some(perMinute.value / ceiling as real * 100.0) else None)
  }

  /** `(reindex(...).T @ x)[c]`: the proxy rows' consumption of `c`; NaN
      (none) when the matrix has no column `c` and there are proxy rows. */
  function RateOf(f: Frame, c: string, pos: seq<int>, x: seq<real>): Option<real>
    requires f.Valid()
    requires forall k :: 0 <= k < |pos| ==> 0 <= pos[k] < |f.index| && pos[k] < |x|
  {
    if c in f.columns then Some(RateOver(f, IndexOf(f.columns, c), pos, x))
    else if |pos| == 0 then Some(0.0)
    else None
  }

  /** The lines for the configured resources in `table`, in table order,
      skipping those that are not dataset items. */
  function UtilisationLines(table: seq<(string, int)>, f: Frame, items: Dict<Item>, pos: seq<int>, x: seq<real>)
    : seq<Utilisation>
    requires f.Valid()
    requires forall k :: 0 <= k < |pos| ==> 0 <= pos[k] < |f.index| && pos[k] < |x|
  {
    if |table| == 0 then []
    else
      var (c, ceiling) := table[|table| - 1];
      var rate := RateOf(f, c, pos, x);
      UtilisationLines(table[..|table| - 1], f, items, pos, x)
      + (if c in items.entries then [UtilisationOf(c, items.entries[c], rate, ceiling)] else [])
  }

  /** `_report_resource_summary`: the proxy rows (KeyError on an unknown
      recipe), their rates (IndexError past the end of the plan), and one
      line per configured resource that is a dataset item. */
  function ResourceSummary(f: Frame, recipes: Dict<Recipe>, items: Dict<Item>, x: seq<real>)
    : Result<seq<Utilisation>>
    requires f.Valid()
  {
    var pos :- ProxyRows(f, recipes, |f.index|);
    ProxyRowsMeaning(f, recipes, |f.index|);
    if exists k :: 0 <= k < |pos| && pos[k] >= |x| then Err(IndexError)
    else Ok(UtilisationLines(Config.RESOURCE_GLOBAL_LIMIT, f, items, pos, x))
  }

  /** What a line of the resource summary says: its resource is configured
      with its ceiling and is a dataset item; its consumption is known iff
      the matrix has the column or there are no proxy rows; with the column
      it is the proxy rows' rate of the resource, rescaled, per minute, and
      without proxy rows it is 0; it has a percentage exactly when the
      ceiling is positive and the consumption known, and then percentage
      times ceiling is 100 times the consumption per minute, so the
      percentage is at most 100 exactly when the consumption is within the
      ceiling. */
  ghost predicate UtilisationRight(table: seq<(string, int)>, f: Frame, items: Dict<Item>,
                                   pos: seq<int>, x: seq<real>, line: Utilisation)
    requires f.Valid()
    requires forall k :: 0 <= k < |pos| ==> 0 <= pos[k] < |f.index| && pos[k] < |x|
  {
    && (line.item, line.ceiling) in table
    && line.item in items.entries
    && (line.perMinute.Some? <==> line.item in f.columns || |pos| == 0)
    && (line.item in f.columns ==>
          line.perMinute == Some(items.entries[line.item].RescaleAmount(
                                   RateOver(f, IndexOf(f.columns, line.item), pos, x)) * 60.0))
    && (|pos| == 0 ==> line.perMinute == Some(0.0))
    && (line.percent.Some? <==> line.ceiling > 0 && line.perMinute.Some?)
    && (line.percent.Some? ==>
          && line.percent.value * line.ceiling as real == line.perMinute.value * 100.0
          && (line.percent.value <= 100.0 <==> line.perMinute.value <= line.ceiling as real))
  }

  /** The summary has one line per configured resource that is a dataset
      item, in table order, and every line is right about its resource. */
  lemma {:induction false} UtilisationLinesMeaning(table: seq<(string, int)>, f: Frame, items: Dict<Item>,
                                                   pos: seq<int>, x: seq<real>)
    requires f.Valid()
    requires forall k :: 0 <= k < |pos| ==> 0 <= pos[k] < |f.index| && pos[k] < |x|
    ensures var lines := UtilisationLines(table, f, items, pos, x);
            && (forall line :: line in lines ==> UtilisationRight(table, f, items, pos, x, line))
            && |lines| == |TableItems(table, items)|
            && forall k :: 0 <= k < |lines| ==> lines[k].item == TableItems(table, items)[k]
  {
    if |table| > 0 {
      var init := table[..|table| - 1];
      UtilisationLinesMeaning(init, f, items, pos, x);
      var (c, ceiling) := table[|table| - 1];
      assert forall e :: e in init ==> e in table;
      assert (c, ceiling) in table;
      if c in items.entries {
        UtilisationOfRight(table, f, items, pos, x, c, ceiling);
      }
    }
  }

  /** The line built for one configured resource is right about it. */
  lemma UtilisationOfRight(table: seq<(string, int)>, f: Frame, items: Dict<Item>,
                           pos: seq<int>, x: seq<real>, c: string, ceiling: int)
    requires f.Valid()
    requires forall k :: 0 <= k < |pos| ==> 0 <= pos[k] < |f.index| && pos[k] < |x|
    requires (c, ceiling) in table && c in items.entries
    ensures UtilisationRight(table, f, items, pos, x, UtilisationOf(c, items.entries[c], RateOf(f, c, pos, x), ceiling))
  {
    var item := items.entries[c];
    var line := UtilisationOf(c, item, RateOf(f, c, pos, x), ceiling);
    if |pos| == 0 {
      if c in f.columns {
        assert RateOver(f, IndexOf(f.columns, c), pos, x) == 0.0;
      }
      assert RateOf(f, c, pos, x) == Some(0.0);
      assert item.RescaleAmount(0.0) == 0.0;
    }
    if line.percent.Some? {
      PercentOf(line.perMinute.value, ceiling);
    }
  }

  /** The configured resources of `table` that are dataset items, in order. */
  function TableItems(table: seq<(string, int)>, items: Dict<Item>): seq<string> {
    if |table| == 0 then []
    else
      var c := table[|table| - 1].0;
      TableItems(table[..|table| - 1], items) + (if c in items.entries then [c] else [])
  }

  lemma PercentOf(perMinute: real, ceiling: int)
    requires ceiling > 0
    ensures perMinute / ceiling as real * 100.0 * ceiling as real == perMinute * 100.0
    ensures perMinute / ceiling as real * 100.0 <= 100.0 <==> perMinute <= ceiling as real
  {
    var l := ceiling as real;
    assert perMinute / l * l == perMinute;
  }

  /** `_report_resource_summary` over the stored solver result. */
  method ReportResourceSummary(calculator: ProductionCalculator) returns (r: Result<seq<Utilisation>>)
    requires calculator.Valid()
    ensures calculator.result.None? ==> r.Err? && r.error.RuntimeError?
    ensures calculator.result.Some? ==>
              r == ResourceSummary(calculator.recipeMatrix.coefMatrix, calculator.recipeMatrix.dataset.recipes,
                                   calculator.recipeMatrix.dataset.items, calculator.result.value.x)
  {
    var res := calculator.GetResult();
    if res.Err? {
      return Err(res.error);
    }
    var f := calculator.recipeMatrix.coefMatrix;
    var recipes := calculator.recipeMatrix.dataset.recipes;
    var items := calculator.recipeMatrix.dataset.items;
    var x := res.value.x;
    var resourceProxyRecipes: seq<int> := [];
    for i := 0 to |f.index|
      invariant ProxyRows(f, recipes, i) == Ok(resourceProxyRecipes)
    {
      var name := RecipePrefix(f.index[i]);
      if name !in recipes.entries {
        ProxyRowsStops(f, recipes, i + 1);
        return Err(KeyError(name));
      }
      if recipes.entries[name].isResourceProxy {
        resourceProxyRecipes := resourceProxyRecipes + [i];
      }
    }
    ProxyRowsMeaning(f, recipes, |f.index|);
    if exists k :: 0 <= k < |resourceProxyRecipes| && resourceProxyRecipes[k] >= |x| {
      return Err(IndexError);
    }
    r := Ok(UtilisationLines(Config.RESOURCE_GLOBAL_LIMIT, f, items, resourceProxyRecipes, x));
  }

  /** A KeyError on some row is the outcome for every longer prefix. */
  lemma {:induction false} ProxyRowsStops(f: Frame, recipes: Dict<Recipe>, i: nat)
    requires i <= |f.index| && ProxyRows(f, recipes, i).Err?
    ensures ProxyRows(f, recipes, |f.index|) == ProxyRows(f, recipes, i)
    decreases |f.index| - i
  {
    if i < |f.index| {
      ProxyRowsStops(f, recipes, i + 1);
    }
  }
}
