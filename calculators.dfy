/** The four working calculator scripts (`calc.max_power.waste_free.wo_conv.py`,
    `calc.max_power.waste_free.py`, `calc.max_point.with_sloop.py`,
    `calc.max_power.waste_prone.py`): each turns the base constraint matrix
    and vector into a linear program (which rows are equalities, which are
    inequalities, the per-variable bounds and the objective row) and hands it
    to the calculator's `calculate`. */
module Calculators {
  import opened Wrappers
  import opened Dicts
  import Config
  import opened Matrix
  import opened Production

  const PLUTONIUM_FUEL_ROD: string := "Desc_PlutoniumFuelRod_C"

  /** The equality rows: the net-zero items, and the plutonium fuel rod too
      when it may not be sunk (so every rod made must be burnt). */
  function EqIndex(netZero: seq<string>, allowPlutoniumSink: bool): (eq: seq<string>)
    ensures netZero <= eq
    ensures forall c :: c in eq <==> c in netZero || (!allowPlutoniumSink && c == PLUTONIUM_FUEL_ROD)
  {
    if allowPlutoniumSink then netZero else netZero + [PLUTONIUM_FUEL_ROD]
  }

  /** The upper bounds of a limit series are finite caps or infinity; the
      caps are never negative. */
  ghost predicate LimitsNonNegative(limits: Dict<Limit>) {
    forall k :: k in limits.entries && limits.entries[k].Finite? ==> limits.entries[k].value >= 0.0
  }

  /** `[(0, gl) for gl in global_limit.values]`. */
  function PlainBounds(limits: Dict<Limit>): seq<Bound>
    requires limits.Valid()
  {
    seq(|limits.keys|, n requires 0 <= n < |limits.keys| => Bound(0.0, limits.entries[limits.keys[n]]))
  }

  /** The bound of one row when the recipes of `converters` are disabled. */
  function PinnedBound(converters: seq<string>, name: string, l: Limit): Bound {
    if RecipePrefix(name) in converters then Bound(0.0, Finite(0.0))
    else Bound(0.0, l)
  }

  /** The bounds of the listed rows when resource conversion is disabled. */
  function PinnedBounds(converters: seq<string>, keys: seq<string>, entries: map<string, Limit>): (bounds: seq<Bound>)
    requires forall k :: k in keys ==> k in entries
    ensures |bounds| == |keys|
    ensures forall n :: 0 <= n < |keys| ==> bounds[n] == PinnedBound(converters, keys[n], entries[keys[n]])
  {
    if |keys| == 0 then []
    else
      var last := keys[|keys| - 1];
      PinnedBounds(converters, keys[..|keys| - 1], entries) + [PinnedBound(converters, last, entries[last])]
  }

  /** `x` lies within the bounds, one per variable. */
  ghost predicate Within(bounds: seq<Bound>, x: seq<real>) {
    && |bounds| == |x|
    && forall n :: 0 <= n < |x| ==>
         bounds[n].lower <= x[n] && (bounds[n].upper.Finite? ==> x[n] <= bounds[n].upper.value)
  }

  /** Within the plain bounds, every variant runs at a non-negative rate no
      greater than its limit. */
  lemma PlainBoundsMeaning(limits: Dict<Limit>, x: seq<real>)
    requires limits.Valid()
    ensures Within(PlainBounds(limits), x) <==>
              && |x| == |limits.keys|
              && forall n :: 0 <= n < |x| ==>
                   0.0 <= x[n] &&
                   (limits.entries[limits.keys[n]].Finite? ==> x[n] <= limits.entries[limits.keys[n]].value)
  {
  }

  /** The pinned bounds demand the same, and that no resource-conversion
      variant runs at all. */
  lemma PinnedBoundsMeaning(converters: seq<string>, limits: Dict<Limit>, x: seq<real>)
    requires limits.Valid() && LimitsNonNegative(limits)
    ensures Within(PinnedBounds(converters, limits.keys, limits.entries), x) <==>
              && Within(PlainBounds(limits), x)
              && forall n :: 0 <= n < |x| && RecipePrefix(limits.keys[n]) in converters ==> x[n] == 0.0
  {
    var plain, pinned := PlainBounds(limits), PinnedBounds(converters, limits.keys, limits.entries);
    if Within(pinned, x) {
      forall n | 0 <= n < |x|
        ensures plain[n].lower <= x[n] && (plain[n].upper.Finite? ==> x[n] <= plain[n].upper.value)
      {
        assert limits.keys[n] in limits.entries;
      }
    }
    if Within(plain, x) && forall n :: 0 <= n < |x| && RecipePrefix(limits.keys[n]) in converters ==> x[n] == 0.0 {
      forall n | 0 <= n < |x|
        ensures pinned[n].lower <= x[n] && (pinned[n].upper.Finite? ==> x[n] <= pinned[n].upper.value)
      {
        assert limits.keys[n] in limits.entries;
      }
    }
  }

  /** The split linear program: the rows of `eq` become equalities, every
      other row an inequality, and `objective` names the row minimised. */
  function SplitProblem(f: Frame, eq: seq<string>, bounds: seq<Bound>, objective: string): Result<LinProg>
    requires f.Valid()
  {
    var a :- ConstraintMatrixBase(f);
    var b := ConstraintVectorBase(f.columns);
    var aEq :- LocRows(a.index, a.values, eq);
    var bEq :- LocRows(b.index, b.values, eq);
    var aUb :- DropRows(a.index, a.values, eq);
    var bUb :- DropRows(b.index, b.values, eq);
    var c :- LocRows(a.index, a.values, [objective]);
    Ok(LinProg(c[0], aUb.1, bUb.1, aEq, bEq, bounds))
  }

  /** `p` splits the constraint rows of `f` by `eq`: the equality rows are
      the rows named in `eq`, in that order, with right-hand side 0 (106 for
      somersloop), and the inequality rows are all the other rows, in order. */
  ghost predicate SplitBy(f: Frame, eq: seq<string>, p: LinProg)
    requires f.Valid() && "somersloop" in f.columns
  {
    var a := ConstraintMatrixBase(f).value;
    var pos := Kept(f.columns, eq);
    && (forall n :: 0 <= n < |eq| ==> eq[n] in f.columns)
    && |p.aEq| == |eq| && |p.bEq| == |eq|
    && |p.aUb| == |pos| && |p.bUb| == |pos|
    && (forall n :: 0 <= n < |eq| ==>
          p.aEq[n] == a.values[IndexOf(f.columns, eq[n])] && p.bEq[n] == Rhs(eq[n]))
    && (forall n :: 0 <= n < |pos| ==>
          p.aUb[n] == a.values[pos[n]] && p.bUb[n] == Rhs(f.columns[pos[n]]))
  }

  /** The split fails exactly when the somersloop column, an equality row or
      the objective row is missing. */
  lemma SplitFails(f: Frame, eq: seq<string>, bounds: seq<Bound>, objective: string)
    requires f.Valid()
    ensures SplitProblem(f, eq, bounds, objective).Ok? <==>
              "somersloop" in f.columns && objective in f.columns &&
              forall n :: 0 <= n < |eq| ==> eq[n] in f.columns
  {
    if "somersloop" in f.columns {
      var a := ConstraintMatrixBase(f).value;
      var b := ConstraintVectorBase(f.columns);
      assert a.index == f.columns && b.index == f.columns;
      assert LocRows(a.index, a.values, [objective]).Ok? <==> objective in f.columns;
    }
  }

  /** A split that succeeds splits the rows by `eq`, keeps the bounds, and
      its objective is the named constraint row. */
  lemma SplitShape(f: Frame, eq: seq<string>, bounds: seq<Bound>, objective: string)
    requires f.Valid()
    ensures var p := SplitProblem(f, eq, bounds, objective);
            p.Ok? ==>
              && "somersloop" in f.columns && objective in f.columns
              && SplitBy(f, eq, p.value)
              && p.value.bounds == bounds
              && p.value.c == ConstraintMatrixBase(f).value.values[IndexOf(f.columns, objective)]
  {
    if SplitProblem(f, eq, bounds, objective).Ok? {
      var a := ConstraintMatrixBase(f).value;
      var b := ConstraintVectorBase(f.columns);
      assert a.index == f.columns && b.index == f.columns;
      var aEq := LocRows(a.index, a.values, eq).value;
      var bEq := LocRows(b.index, b.values, eq).value;
      var aUb := DropRows(a.index, a.values, eq).value;
      var bUb := DropRows(b.index, b.values, eq).value;
      var c := LocRows(a.index, a.values, [objective]).value;
      assert SplitProblem(f, eq, bounds, objective).value == LinProg(c[0], aUb.1, bUb.1, aEq, bEq, bounds);
      assert objective in f.columns;
    }
  }

  /** `x` satisfies every equality and inequality of the program. */
  ghost predicate Satisfies(p: LinProg, x: seq<real>) {
    && |p.bEq| == |p.aEq| && |p.bUb| == |p.aUb|
    && (forall n :: 0 <= n < |p.aEq| ==> |p.aEq[n]| == |x| && Dot(p.aEq[n], x) == p.bEq[n])
    && (forall n :: 0 <= n < |p.aUb| ==> |p.aUb[n]| == |x| && Dot(p.aUb[n], x) <= p.bUb[n])
  }

  /** What a plan must meet, column by column: the net flow of every column
      listed in `eq` is pinned, and every other column is bounded. */
  ghost predicate Meets(f: Frame, eq: seq<string>, x: seq<real>)
    requires f.Valid() && |x| == |f.index|
  {
    forall j :: 0 <= j < |f.columns| ==> ColumnHolds(f.columns[j], f.columns[j] in eq, NetFlow(f, j, x))
  }

  /** A plan satisfying a split program meets every column's constraint. */
  lemma SplitSound(f: Frame, eq: seq<string>, p: LinProg, x: seq<real>)
    requires f.Valid() && "somersloop" in f.columns && Distinct(f.columns) && |x| == |f.index|
    requires SplitBy(f, eq, p) && Satisfies(p, x)
    ensures Meets(f, eq, x)
  {
    var pos := Kept(f.columns, eq);
    forall j | 0 <= j < |f.columns|
      ensures ColumnHolds(f.columns[j], f.columns[j] in eq, NetFlow(f, j, x))
    {
      ConstraintRowMeaning(f, x, j);
      if f.columns[j] in eq {
        var n := IndexOf(eq, f.columns[j]);
        assert IndexOf(f.columns, eq[n]) == j;
        assert Dot(p.aEq[n], x) == p.bEq[n];
      } else {
        assert j in pos;
        var n :| 0 <= n < |pos| && pos[n] == j;
        assert Dot(p.aUb[n], x) <= p.bUb[n];
      }
    }
  }

  /** A plan meeting every column's constraint satisfies a split program. */
  lemma SplitComplete(f: Frame, eq: seq<string>, p: LinProg, x: seq<real>)
    requires f.Valid() && "somersloop" in f.columns && |x| == |f.index|
    requires SplitBy(f, eq, p) && Meets(f, eq, x)
    ensures Satisfies(p, x)
  {
    var pos := Kept(f.columns, eq);
    forall n | 0 <= n < |p.aEq|
      ensures |p.aEq[n]| == |x| && Dot(p.aEq[n], x) == p.bEq[n]
    {
      ConstraintRowMeaning(f, x, IndexOf(f.columns, eq[n]));
    }
    forall n | 0 <= n < |p.aUb|
      ensures |p.aUb[n]| == |x| && Dot(p.aUb[n], x) <= p.bUb[n]
    {
      assert f.columns[pos[n]] !in eq;
      ConstraintRowMeaning(f, x, pos[n]);
    }
  }

  /** A plan satisfies the split program exactly when it meets every
      column's constraint: zero net flow of every equality item, a
      non-negative net flow of everything else, at most 106 somersloops. */
  lemma SplitMeaning(f: Frame, eq: seq<string>, bounds: seq<Bound>, objective: string, x: seq<real>)
    requires f.Valid() && Distinct(f.columns) && |x| == |f.index|
    requires SplitProblem(f, eq, bounds, objective).Ok?
    ensures Satisfies(SplitProblem(f, eq, bounds, objective).value, x) <==> Meets(f, eq, x)
  {
    var p := SplitProblem(f, eq, bounds, objective).value;
    SplitShape(f, eq, bounds, objective);
    if Satisfies(p, x) {
      SplitSound(f, eq, p, x);
    }
    if Meets(f, eq, x) {
      SplitComplete(f, eq, p, x);
    }
  }

  /** Minimising the objective row of an aggregate column maximises the
      plan's net flow of that column. */
  lemma ObjectiveMeaning(f: Frame, eq: seq<string>, bounds: seq<Bound>, objective: string, x: seq<real>)
    requires f.Valid() && |x| == |f.index| && objective != "somersloop"
    requires SplitProblem(f, eq, bounds, objective).Ok?
    ensures objective in f.columns
    ensures Dot(SplitProblem(f, eq, bounds, objective).value.c, x) ==
              -NetFlow(f, IndexOf(f.columns, objective), x)
  {
    SplitShape(f, eq, bounds, objective);
    ConstraintRowValue(f, x, IndexOf(f.columns, objective));
  }

  /** With the somersloop column, the objective row and every equality row
      present, the split succeeds; a plan satisfies it exactly when it meets
      every column's constraint, its bounds are those given, and its
      objective is minus the plan's net flow of the objective column. */
  lemma SplitProblemMeaning(f: Frame, eq: seq<string>, bounds: seq<Bound>, objective: string, x: seq<real>)
    requires f.Valid() && Distinct(f.columns) && |x| == |f.index|
    requires "somersloop" in f.columns && objective in f.columns && objective != "somersloop"
    requires forall c :: c in eq ==> c in f.columns
    ensures SplitProblem(f, eq, bounds, objective).Ok?
    ensures var p := SplitProblem(f, eq, bounds, objective).value;
            && (Satisfies(p, x) <==> Meets(f, eq, x))
            && p.bounds == bounds
            && |p.c| == |x| && Dot(p.c, x) == -NetFlow(f, IndexOf(f.columns, objective), x)
  {
    SplitFails(f, eq, bounds, objective);
    SplitMeaning(f, eq, bounds, objective, x);
    SplitShape(f, eq, bounds, objective);
    ObjectiveMeaning(f, eq, bounds, objective, x);
  }

  /** `MaxPowerWasteFreeNoConverterCalculator.calculate`: no waste, no
      resource conversion, maximum raw power. */
  function WasteFreeNoConverterProblem(f: Frame, limits: Dict<Limit>, netZero: seq<string>,
                                       allowPlutoniumSink: bool): Result<LinProg>
    requires f.Valid() && limits.Valid()
  {
    SplitProblem(f, EqIndex(netZero, allowPlutoniumSink),
                 PinnedBounds(Config.RESOURCE_CONVERTER_RECIPE_LIST, limits.keys, limits.entries), "raw_power")
  }

  /** `MaxPowerWasteFreeCalculator.calc_max_raw_power`: no waste, maximum
      raw power. */
  function WasteFreeProblem(f: Frame, limits: Dict<Limit>, netZero: seq<string>,
                            allowPlutoniumSink: bool): Result<LinProg>
    requires f.Valid() && limits.Valid()
  {
    SplitProblem(f, EqIndex(netZero, allowPlutoniumSink), PlainBounds(limits), "raw_power")
  }

  /** `MaxPointCalculator.calculate`: no waste, maximum sink points. */
  function MaxPointProblem(f: Frame, limits: Dict<Limit>, netZero: seq<string>): Result<LinProg>
    requires f.Valid() && limits.Valid()
  {
    SplitProblem(f, netZero, PlainBounds(limits), "points_gain_rate")
  }

  /** `MaxPowerWasteProneCalculator.calculate`: every row an inequality,
      maximum raw power. */
  function WasteProneProblem(f: Frame, limits: Dict<Limit>): Result<LinProg>
    requires f.Valid() && limits.Valid()
  {
    var a :- ConstraintMatrixBase(f);
    var b := ConstraintVectorBase(f.columns);
    var c :- LocRows(a.index, a.values, ["raw_power"]);
    Ok(LinProg(c[0], a.values, b.values, [], [], PlainBounds(limits)))
  }

  /** The no-converter program exists when the somersloop and raw-power
      columns and every equality row are present. Then a plan is feasible
      exactly when it makes no net surplus or deficit of any net-zero item
      (nor of plutonium fuel rods when they may not be sunk), no deficit of
      any other column, uses at most 106 somersloops, keeps every variant
      within its limit and runs no resource-conversion variant; its
      objective is minus the plan's raw power. */
  lemma WasteFreeNoConverterMeaning(f: Frame, limits: Dict<Limit>, netZero: seq<string>,
                                    allowPlutoniumSink: bool, x: seq<real>)
    requires f.Valid() && Distinct(f.columns) && limits.Valid() && LimitsNonNegative(limits)
    requires |x| == |f.index| && "somersloop" in f.columns && "raw_power" in f.columns
    requires forall c :: c in EqIndex(netZero, allowPlutoniumSink) ==> c in f.columns
    ensures WasteFreeNoConverterProblem(f, limits, netZero, allowPlutoniumSink).Ok?
    ensures var p := WasteFreeNoConverterProblem(f, limits, netZero, allowPlutoniumSink).value;
            && (Satisfies(p, x) <==> Meets(f, EqIndex(netZero, allowPlutoniumSink), x))
            && (Within(p.bounds, x) <==>
                  && Within(PlainBounds(limits), x)
                  && forall n :: 0 <= n < |x| && RecipePrefix(limits.keys[n]) in Config.RESOURCE_CONVERTER_RECIPE_LIST
                       ==> x[n] == 0.0)
            && |p.c| == |x| && Dot(p.c, x) == -NetFlow(f, IndexOf(f.columns, "raw_power"), x)
  {
    var converters := Config.RESOURCE_CONVERTER_RECIPE_LIST;
    SplitProblemMeaning(f, EqIndex(netZero, allowPlutoniumSink),
                        PinnedBounds(converters, limits.keys, limits.entries), "raw_power", x);
    PinnedBoundsMeaning(converters, limits, x);
  }

  /** The waste-free program: the same constraints and objective, with every
      variant free to run up to its limit. */
  lemma WasteFreeMeaning(f: Frame, limits: Dict<Limit>, netZero: seq<string>,
                         allowPlutoniumSink: bool, x: seq<real>)
    requires f.Valid() && Distinct(f.columns) && limits.Valid()
    requires |x| == |f.index| && "somersloop" in f.columns && "raw_power" in f.columns
    requires forall c :: c in EqIndex(netZero, allowPlutoniumSink) ==> c in f.columns
    ensures WasteFreeProblem(f, limits, netZero, allowPlutoniumSink).Ok?
    ensures var p := WasteFreeProblem(f, limits, netZero, allowPlutoniumSink).value;
            && (Satisfies(p, x) <==> Meets(f, EqIndex(netZero, allowPlutoniumSink), x))
            && p.bounds == PlainBounds(limits)
            && |p.c| == |x| && Dot(p.c, x) == -NetFlow(f, IndexOf(f.columns, "raw_power"), x)
  {
    SplitProblemMeaning(f, EqIndex(netZero, allowPlutoniumSink), PlainBounds(limits), "raw_power", x);
  }

  /** The maximum-points program: exactly the net-zero items are pinned, and
      its objective is minus the plan's sink-point rate. */
  lemma MaxPointMeaning(f: Frame, limits: Dict<Limit>, netZero: seq<string>, x: seq<real>)
    requires f.Valid() && Distinct(f.columns) && limits.Valid()
    requires |x| == |f.index| && "somersloop" in f.columns && "points_gain_rate" in f.columns
    requires forall c :: c in netZero ==> c in f.columns
    ensures MaxPointProblem(f, limits, netZero).Ok?
    ensures var p := MaxPointProblem(f, limits, netZero).value;
            && (Satisfies(p, x) <==> Meets(f, netZero, x))
            && p.bounds == PlainBounds(limits)
            && |p.c| == |x| && Dot(p.c, x) == -NetFlow(f, IndexOf(f.columns, "points_gain_rate"), x)
  {
    SplitProblemMeaning(f, netZero, PlainBounds(limits), "points_gain_rate", x);
  }

  /** The waste-prone program fails exactly when the somersloop or the
      raw-power column is missing; otherwise it has no equalities, every
      constraint row is an inequality, and its objective is the raw-power
      row. */
  lemma WasteProneShape(f: Frame, limits: Dict<Limit>)
    requires f.Valid() && limits.Valid()
    ensures WasteProneProblem(f, limits).Ok? <==> "somersloop" in f.columns && "raw_power" in f.columns
    ensures WasteProneProblem(f, limits).Ok? ==>
              var p := WasteProneProblem(f, limits).value;
              && p.aEq == [] && p.bEq == []
              && p.aUb == ConstraintMatrixBase(f).value.values
              && p.bUb == ConstraintVectorBase(f.columns).values
              && p.c == ConstraintMatrixBase(f).value.values[IndexOf(f.columns, "raw_power")]
              && p.bounds == PlainBounds(limits)
  {
    if "somersloop" in f.columns {
      var a := ConstraintMatrixBase(f).value;
      assert a.index == f.columns;
      assert LocRows(a.index, a.values, ["raw_power"]).Ok? <==> "raw_power" in f.columns;
    }
  }

  /** A plan satisfies a program whose inequalities are all the constraint
      rows, and which has no equalities, exactly when no column runs a
      deficit and it uses at most 106 somersloops. */
  lemma AllRowsMeaning(f: Frame, p: LinProg, x: seq<real>)
    requires f.Valid() && "somersloop" in f.columns && |x| == |f.index|
    requires p.aEq == [] && p.bEq == []
    requires p.aUb == ConstraintMatrixBase(f).value.values && p.bUb == ConstraintVectorBase(f.columns).values
    ensures Satisfies(p, x) <==> Meets(f, [], x)
  {
    assert ConstraintVectorBase(f.columns).index == f.columns;
    if Satisfies(p, x) {
      forall j | 0 <= j < |f.columns|
        ensures ColumnHolds(f.columns[j], f.columns[j] in [], NetFlow(f, j, x))
      {
        ConstraintRowMeaning(f, x, j);
        assert Dot(p.aUb[j], x) <= p.bUb[j];
      }
    }
    if Meets(f, [], x) {
      forall j | 0 <= j < |p.aUb|
        ensures |p.aUb[j]| == |x| && Dot(p.aUb[j], x) <= p.bUb[j]
      {
        ConstraintRowMeaning(f, x, j);
        assert f.columns[j] !in [];
      }
    }
  }

  /** The waste-prone program has no equalities: a plan is feasible exactly
      when no column runs a deficit and it uses at most 106 somersloops, and
      its objective is minus the plan's raw power. */
  lemma WasteProneMeaning(f: Frame, limits: Dict<Limit>, x: seq<real>)
    requires f.Valid() && limits.Valid() && |x| == |f.index|
    requires "somersloop" in f.columns && "raw_power" in f.columns
    ensures WasteProneProblem(f, limits).Ok?
    ensures var p := WasteProneProblem(f, limits).value;
            && (Satisfies(p, x) <==> Meets(f, [], x))
            && p.bounds == PlainBounds(limits)
            && |p.c| == |x| && Dot(p.c, x) == -NetFlow(f, IndexOf(f.columns, "raw_power"), x)
  {
    WasteProneShape(f, limits);
    AllRowsMeaning(f, WasteProneProblem(f, limits).value, x);
    ConstraintRowValue(f, x, IndexOf(f.columns, "raw_power"));
  }

  /** The net-zero item list of a recipe matrix. */
  function NetZeroOf(m: RecipeMatrix): seq<string>
    reads m
  {
    NetZeroItems(m.dataset.items.keys, m.dataset.items.entries, m.coefMatrix.columns)
  }

  /** What running a script did: an error raised while building the program
      leaves the stored result alone; otherwise the solver's result is
      stored and `calculate` returns its outcome. */
  ghost predicate Ran(p: Result<LinProg>, solve: LinProg -> SolverResult,
                      before: Option<SolverResult>, after: Option<SolverResult>, r: Result<SolverResult>) {
    && (p.Err? ==> r == Err(p.error) && after == before)
    && (p.Ok? ==> after == Some(solve(p.value)) && r == Outcome(solve(p.value)))
  }

  /** `MaxPowerWasteFreeNoConverterCalculator.calculate`. */
  method MaxPowerWasteFreeNoConverter(calculator: ProductionCalculator, solve: LinProg -> SolverResult,
                                      allowPlutoniumSink: bool := true)
    returns (r: Result<SolverResult>)
    requires calculator.Valid()
    modifies calculator
    ensures Ran(WasteFreeNoConverterProblem(calculator.recipeMatrix.coefMatrix, calculator.recipeMatrix.globalLimit,
                                            NetZeroOf(calculator.recipeMatrix), allowPlutoniumSink),
                solve, old(calculator.result), calculator.result, r)
  {
    var m := calculator.recipeMatrix;
    var eqIndex := calculator.NetZeroItemsBase();
    if !allowPlutoniumSink {
      eqIndex := eqIndex + [PLUTONIUM_FUEL_ROD];
    }
    var bounds := ConverterPinnedBounds(m.globalLimit, Config.RESOURCE_CONVERTER_RECIPE_LIST);
    var p := SplitProblem(m.coefMatrix, eqIndex, bounds, "raw_power");
    if p.Err? {
      return Err(p.error);
    }
    r := calculator.Calculate(p.value, solve);
  }

  /** The bounds loop of the no-converter script: `(0, 0)` for a row of a
      resource-conversion recipe, `(0, limit)` for every other row. */
  method ConverterPinnedBounds(globalLimit: Dict<Limit>, converters: seq<string>) returns (bounds: seq<Bound>)
    requires globalLimit.Valid()
    ensures bounds == PinnedBounds(converters, globalLimit.keys, globalLimit.entries)
  {
    bounds := [];
    for i := 0 to |globalLimit.keys|
      invariant bounds == PinnedBounds(converters, globalLimit.keys[..i], globalLimit.entries)
    {
      assert globalLimit.keys[..i + 1][..i] == globalLimit.keys[..i];
      var name := globalLimit.keys[i];
      var gl := globalLimit.entries[name];
      assert PinnedBounds(converters, globalLimit.keys[..i + 1], globalLimit.entries)
          == PinnedBounds(converters, globalLimit.keys[..i], globalLimit.entries) + [PinnedBound(converters, name, gl)];
      if RecipePrefix(name) in converters {
        bounds := bounds + [Bound(0.0, Finite(0.0))];
      } else {
        bounds := bounds + [Bound(0.0, gl)];
      }
    }
    assert globalLimit.keys[..|globalLimit.keys|] == globalLimit.keys;
  }

  /** `MaxPowerWasteFreeCalculator.calc_max_raw_power`. */
  method MaxPowerWasteFree(calculator: ProductionCalculator, solve: LinProg -> SolverResult,
                           allowPlutoniumSink: bool := true)
    returns (r: Result<SolverResult>)
    requires calculator.Valid()
    modifies calculator
    ensures Ran(WasteFreeProblem(calculator.recipeMatrix.coefMatrix, calculator.recipeMatrix.globalLimit,
                                 NetZeroOf(calculator.recipeMatrix), allowPlutoniumSink),
                solve, old(calculator.result), calculator.result, r)
  {
    var m := calculator.recipeMatrix;
    var eqIndex := calculator.NetZeroItemsBase();
    if !allowPlutoniumSink {
      eqIndex := eqIndex + [PLUTONIUM_FUEL_ROD];
    }
    var p := SplitProblem(m.coefMatrix, eqIndex, PlainBounds(m.globalLimit), "raw_power");
    if p.Err? {
      return Err(p.error);
    }
    r := calculator.Calculate(p.value, solve);
  }

  /** `MaxPointCalculator.calculate`. */
  method MaxPoint(calculator: ProductionCalculator, solve: LinProg -> SolverResult)
    returns (r: Result<SolverResult>)
    requires calculator.Valid()
    modifies calculator
    ensures Ran(MaxPointProblem(calculator.recipeMatrix.coefMatrix, calculator.recipeMatrix.globalLimit,
                                NetZeroOf(calculator.recipeMatrix)),
                solve, old(calculator.result), calculator.result, r)
  {
    var m := calculator.recipeMatrix;
    var eqIndex := calculator.NetZeroItemsBase();
    var p := SplitProblem(m.coefMatrix, eqIndex, PlainBounds(m.globalLimit), "points_gain_rate");
    if p.Err? {
      return Err(p.error);
    }
    r := calculator.Calculate(p.value, solve);
  }

  /** `MaxPowerWasteProneCalculator.calculate`. */
  method MaxPowerWasteProne(calculator: ProductionCalculator, solve: LinProg -> SolverResult)
    returns (r: Result<SolverResult>)
    requires calculator.Valid()
    modifies calculator
    ensures Ran(WasteProneProblem(calculator.recipeMatrix.coefMatrix, calculator.recipeMatrix.globalLimit),
                solve, old(calculator.result), calculator.result, r)
  {
    var m := calculator.recipeMatrix;
    var p := WasteProneProblem(m.coefMatrix, m.globalLimit);
    if p.Err? {
      return Err(p.error);
    }
    r := calculator.Calculate(p.value, solve);
  }
}
