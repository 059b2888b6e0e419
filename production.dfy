/** The linear-programming side of `calc_lib/production_calculator.py`: the
    constraint matrix and vector derived from a recipe matrix, label-based row
    selection on them, the net-zero item list, and the calculator object that
    runs the solver and keeps its last result. The solver itself is a
    function parameter about which nothing is assumed. */
module Production {
  import opened Wrappers
  import opened Strings
  import opened Dicts
  import Config
  import opened Elements
  import opened Dataset
  import opened Matrix

  /** A labelled vector of floats (a pandas `Series`). */
  datatype Series = Series(index: seq<string>, values: seq<real>) {
    ghost predicate Valid() {
      |values| == |index|
    }
  }

  /** Column `j` of a frame, one entry per row. */
  function Column(f: Frame, j: int): (col: seq<real>)
    requires f.Valid() && 0 <= j < |f.columns|
    ensures |col| == |f.index|
    ensures forall i :: 0 <= i < |f.index| ==> col[i] == f.values[i][j]
  {
    seq(|f.index|, i requires 0 <= i < |f.index| => f.values[i][j])
  }

  function Scaled(k: real, a: seq<real>): (s: seq<real>)
    ensures |s| == |a|
    ensures forall i :: 0 <= i < |a| ==> s[i] == k * a[i]
  {
    seq(|a|, i requires 0 <= i < |a| => k * a[i])
  }

  function Term(a: real, x: real): real {
    a * x
  }

  /** `a @ x`. */
  function Dot(a: seq<real>, x: seq<real>): real
    requires |a| == |x|
  {
    if |a| == 0 then 0.0 else Dot(a[..|a| - 1], x[..|x| - 1]) + Term(a[|a| - 1], x[|x| - 1])
  }

  /** Scaling a vector scales its product with any other. */
  lemma {:induction false} DotScaled(k: real, a: seq<real>, x: seq<real>)
    requires |a| == |x|
    ensures Dot(Scaled(k, a), x) == k * Dot(a, x)
  {
    if |a| > 0 {
      var n := |a| - 1;
      forall i | 0 <= i < n
        ensures Scaled(k, a)[..n][i] == Scaled(k, a[..n])[i]
      {
      }
      assert Scaled(k, a)[..n] == Scaled(k, a[..n]);
      DotScaled(k, a[..n], x[..n]);
      assert Term(Scaled(k, a)[n], x[n]) == k * Term(a[n], x[n]);
    }
  }

  /** A plan that runs no variant at all has no flows. */
  lemma {:induction false} DotZero(a: seq<real>, x: seq<real>)
    requires |a| == |x| && forall i :: 0 <= i < |x| ==> x[i] == 0.0
    ensures Dot(a, x) == 0.0
  {
    if |a| > 0 {
      DotZero(a[..|a| - 1], x[..|x| - 1]);
    }
  }

  /** The factor each coefficient column is multiplied by in the constraint
      matrix: the somersloop column keeps its sign, every other is negated. */
  function ColumnSign(c: string): real {
    if c == "somersloop" then 1.0 else -1.0
  }

  /** `constraint_matrix_base_`: the transpose of the coefficient matrix,
      negated except for the somersloop column, which must exist. */
  function ConstraintMatrixBase(f: Frame): (r: Result<Frame>)
    requires f.Valid()
    ensures r.Err? <==> "somersloop" !in f.columns
    ensures r.Err? ==> r.error == KeyError("somersloop")
    ensures r.Ok? ==> r.value.Valid() && r.value.index == f.columns && r.value.columns == f.index
    ensures r.Ok? ==> forall j, i :: 0 <= j < |f.columns| && 0 <= i < |f.index| ==>
                        r.value.values[j][i] ==
                          (if f.columns[j] == "somersloop" then f.values[i][j] else -f.values[i][j])
  {
    if "somersloop" !in f.columns then Err(KeyError("somersloop"))
    else Ok(Frame(f.columns, f.index, SignedColumns(f)))
  }

  /** Column `j` of the coefficient matrix times its sign, for every `j`. */
  function SignedColumns(f: Frame): (rows: seq<seq<real>>)
    requires f.Valid()
    ensures |rows| == |f.columns|
    ensures forall j :: 0 <= j < |f.columns| ==> rows[j] == Scaled(ColumnSign(f.columns[j]), Column(f, j))
  {
    seq(|f.columns|, j requires 0 <= j < |f.columns| => Scaled(ColumnSign(f.columns[j]), Column(f, j)))
  }

  /** The right-hand side of the constraint on column `c`. */
  function Rhs(c: string): real {
    if c == "somersloop" then Config.SOMERSLOOP_GLOBAL_LIMIT as real else 0.0
  }

  /** `constraint_vector_base_`: 0.0 for every coefficient column, except the
      somersloop entry, which holds the game-wide somersloop count (a label
      the columns lack is appended). */
  function ConstraintVectorBase(columns: seq<string>): (b: Series)
    ensures b.Valid()
    ensures "somersloop" in columns ==> b.index == columns
    ensures "somersloop" !in columns ==> b.index == columns + ["somersloop"]
    ensures forall j :: 0 <= j < |b.index| ==> b.values[j] == Rhs(b.index[j])
    ensures forall j :: 0 <= j < |b.index| ==> b.values[j] == 0.0 || b.index[j] == "somersloop"
  {
    var index := if "somersloop" in columns then columns else columns + ["somersloop"];
    Series(index, seq(|index|, j requires 0 <= j < |index| => Rhs(index[j])))
  }

  /** Row `c` of the constraint matrix applied to a plan `x` (one rate per
      matrix row) is the plan's net flow in coefficient column `c`, negated
      unless `c` is the somersloop column. */
  lemma ConstraintRowValue(f: Frame, x: seq<real>, j: int)
    requires f.Valid() && "somersloop" in f.columns && |x| == |f.index| && 0 <= j < |f.columns|
    ensures Dot(ConstraintMatrixBase(f).value.values[j], x) ==
              if f.columns[j] == "somersloop" then Dot(Column(f, j), x) else -Dot(Column(f, j), x)
  {
    var col := Column(f, j);
    var row := ConstraintMatrixBase(f).value.values[j];
    assert row == SignedColumns(f)[j];
    if f.columns[j] == "somersloop" {
      assert row == Scaled(1.0, col);
      DotScaled(1.0, col, x);
    } else {
      assert row == Scaled(-1.0, col);
      DotScaled(-1.0, col, x);
    }
  }

  /** Whether a net flow meets the constraint on its column: at most 106
      somersloops (exactly 106 when pinned), and for every other column a
      non-negative net flow (exactly zero when pinned). */
  predicate ColumnHolds(c: string, pinned: bool, flow: real) {
    if c == "somersloop" then (if pinned then flow == 106.0 else flow <= 106.0)
    else (if pinned then flow == 0.0 else flow >= 0.0)
  }

  /** So the inequality `A[c] @ x <= b[c]` demands that the plan's net flow
      of `c` be non-negative, except that it may use at most 106 somersloops;
      the equality `A[c] @ x == b[c]` pins the net flow. */
  lemma ConstraintRowMeaning(f: Frame, x: seq<real>, j: int)
    requires f.Valid() && "somersloop" in f.columns && |x| == |f.index| && 0 <= j < |f.columns|
    ensures var d := Dot(ConstraintMatrixBase(f).value.values[j], x);
            var rhs := ConstraintVectorBase(f.columns).values[j];
            && (d <= rhs <==> ColumnHolds(f.columns[j], false, Dot(Column(f, j), x)))
            && (d == rhs <==> ColumnHolds(f.columns[j], true, Dot(Column(f, j), x)))
  {
    ConstraintRowValue(f, x, j);
    assert ConstraintVectorBase(f.columns).values[j] == Rhs(f.columns[j]);
  }

  /** The plan's net flow in column `j` of the coefficient matrix. */
  function NetFlow(f: Frame, j: int, x: seq<real>): real
    requires f.Valid() && 0 <= j < |f.columns| && |x| == |f.index|
  {
    Dot(Column(f, j), x)
  }

  /** `name.split("/")[0]`: the recipe class name a row label starts with. */
  function RecipePrefix(name: string): string {
    Split(name, '/')[0]
  }

  /** The prefix of a variant's row label is its recipe's class name. */
  lemma RecipePrefixOfRowName(classname: string, somersloop: nat, clock: ClockSpeed)
    requires '/' !in classname
    ensures RecipePrefix(RowName(classname, somersloop, clock)) == classname
  {
    var tail := "S" + NatToString(somersloop) + "_OC" + NatToString(clock);
    assert RowName(classname, somersloop, clock) == classname + ['/'] + tail;
    SplitFirstPiece(classname, '/', tail);
  }

  /** Position of the first occurrence of `k` in `s`, or -1. */
  function IndexOf(s: seq<string>, k: string): (i: int)
    ensures -1 <= i < |s|
    ensures i == -1 <==> k !in s
    ensures 0 <= i ==> s[i] == k && k !in s[..i]
  {
    if |s| == 0 then -1
    else if s[0] == k then 0
    else
      var j := IndexOf(s[1..], k);
      assert j >= 0 ==> s[..j + 1] == [s[0]] + s[1..][..j];
      if j == -1 then -1 else j + 1
  }

  /** The first label that is not in `index`, if any. */
  function FirstMissing(labels: seq<string>, index: seq<string>): (m: Option<string>)
    ensures m.None? <==> forall n :: 0 <= n < |labels| ==> labels[n] in index
    ensures m.Some? ==> m.value in labels && m.value !in index
  {
    if |labels| == 0 then None
    else if labels[0] !in index then Some(labels[0])
    else
      var m := FirstMissing(labels[1..], index);
      assert forall n :: 1 <= n < |labels| ==> labels[n] == labels[1..][n - 1];
      m
  }

  /** `frame.loc[labels]` (or `series.loc[labels]`): the rows with those
      labels, in the order given, each label once per mention; a label the
      index lacks is a KeyError. */
  function LocRows<T>(index: seq<string>, rows: seq<T>, labels: seq<string>): (r: Result<seq<T>>)
    requires |rows| == |index|
    ensures r.Err? <==> exists n :: 0 <= n < |labels| && labels[n] !in index
    ensures r.Err? ==> r.error.KeyError? && r.error.key in labels && r.error.key !in index
    ensures r.Ok? ==> |r.value| == |labels| &&
                      forall n :: 0 <= n < |labels| ==> r.value[n] == rows[IndexOf(index, labels[n])]
  {
    var missing := FirstMissing(labels, index);
    if missing.Some? then Err(KeyError(missing.value))
    else Ok(seq(|labels|, n requires 0 <= n < |labels| => rows[IndexOf(index, labels[n])]))
  }

  /** Positions of the rows whose label is not among `labels`, in order. */
  function Kept(index: seq<string>, labels: seq<string>): (pos: seq<int>)
    ensures forall n :: 0 <= n < |pos| ==> 0 <= pos[n] < |index| && index[pos[n]] !in labels
    ensures forall n, m :: 0 <= n < m < |pos| ==> pos[n] < pos[m]
    ensures forall j :: 0 <= j < |index| && index[j] !in labels ==> j in pos
  {
    if |index| == 0 then []
    else
      var last := |index| - 1;
      var init := Kept(index[..last], labels);
      if index[last] in labels then init else init + [last]
  }

  /** `frame.drop(index=labels)` (or the same on a series): every row whose
      label is not among `labels`, in the original order; a label the index
      lacks is a KeyError. */
  function DropRows<T>(index: seq<string>, rows: seq<T>, labels: seq<string>)
    : (r: Result<(seq<string>, seq<T>)>)
    requires |rows| == |index|
    ensures r.Err? <==> exists n :: 0 <= n < |labels| && labels[n] !in index
    ensures r.Err? ==> r.error.KeyError? && r.error.key in labels && r.error.key !in index
    ensures r.Ok? ==> var pos := Kept(index, labels);
                      && |r.value.0| == |pos| && |r.value.1| == |pos|
                      && forall n :: 0 <= n < |pos| ==>
                           r.value.0[n] == index[pos[n]] && r.value.1[n] == rows[pos[n]]
  {
    var missing := FirstMissing(labels, index);
    if missing.Some? then Err(KeyError(missing.value))
    else
      var pos := Kept(index, labels);
      Ok((seq(|pos|, n requires 0 <= n < |pos| => index[pos[n]]),
          seq(|pos|, n requires 0 <= n < |pos| => rows[pos[n]])))
  }

  /** An item whose net output must be exactly zero: one that cannot be sunk,
      or a raw resource. */
  predicate NetZero(item: Item) {
    !item.IsSinkable() || item.category == Some(Config.CURATOR_NATIVE_CLASSNAME_RESOURCE_SHORT)
  }

  /** The class names of the net-zero items among `keys` that are matrix
      columns, in key order. */
  function NetZeroItems(keys: seq<string>, items: map<string, Item>, columns: seq<string>): seq<string> {
    if |keys| == 0 then []
    else
      var k := keys[|keys| - 1];
      NetZeroItems(keys[..|keys| - 1], items, columns)
      + (if k in items && items[k].classname in columns && NetZero(items[k]) then [items[k].classname] else [])
  }

  /** `r` lists elements of `s` in the order in which they occur there. */
  predicate Subsequence(r: seq<string>, s: seq<string>) {
    if |r| == 0 then true
    else if |s| == 0 then false
    else if r[|r| - 1] == s[|s| - 1] then Subsequence(r[..|r| - 1], s[..|s| - 1])
    else Subsequence(r, s[..|s| - 1])
  }

  /** `r` stays a subsequence when `s` grows at its end. */
  lemma {:induction false} SubsequenceExtend(r: seq<string>, s: seq<string>, k: string)
    requires Subsequence(r, s)
    ensures Subsequence(r, s + [k])
    decreases |s|, 1
  {
    var s' := s + [k];
    assert s'[..|s'| - 1] == s;
    if |r| > 0 && r[|r| - 1] == k {
      SubsequenceDropLast(r, s);
    }
  }

  /** Dropping the last element of `r` keeps it a subsequence. */
  lemma {:induction false} SubsequenceDropLast(r: seq<string>, s: seq<string>)
    requires |r| > 0 && Subsequence(r, s)
    ensures Subsequence(r[..|r| - 1], s)
    decreases |s|, 0
  {
    var init := s[..|s| - 1];
    if r[|r| - 1] != s[|s| - 1] {
      SubsequenceDropLast(r, init);
    }
    SubsequenceExtend(r[..|r| - 1], init, s[|s| - 1]);
    assert init + [s[|s| - 1]] == s;
  }

  /** `net_zero_items_base_` lists exactly the listed items that are matrix
      columns and must have zero net output, once each, in key order. */
  lemma NetZeroItemsMeaning(keys: seq<string>, items: map<string, Item>, columns: seq<string>)
    requires Distinct(keys) && forall k :: k in items ==> items[k].classname == k
    ensures var r := NetZeroItems(keys, items, columns);
            && Distinct(r)
            && Subsequence(r, keys)
            && forall c :: c in r <==> c in keys && c in items && c in columns && NetZero(items[c])
  {
    NetZeroItemsMembers(keys, items, columns);
    NetZeroItemsDistinct(keys, items, columns);
    NetZeroItemsOrder(keys, items, columns);
  }

  /** The last key decides alone whether it is appended. */
  lemma NetZeroItemsLast(keys: seq<string>, items: map<string, Item>, columns: seq<string>)
    requires |keys| > 0 && forall k :: k in items ==> items[k].classname == k
    ensures var k := keys[|keys| - 1];
            NetZeroItems(keys, items, columns) ==
              NetZeroItems(keys[..|keys| - 1], items, columns)
              + (if k in items && k in columns && NetZero(items[k]) then [k] else [])
  {
  }

  lemma {:induction false} NetZeroItemsMembers(keys: seq<string>, items: map<string, Item>, columns: seq<string>)
    requires forall k :: k in items ==> items[k].classname == k
    ensures forall c :: c in NetZeroItems(keys, items, columns) <==>
              c in keys && c in items && c in columns && NetZero(items[c])
  {
    if |keys| > 0 {
      var init := keys[..|keys| - 1];
      NetZeroItemsMembers(init, items, columns);
      NetZeroItemsLast(keys, items, columns);
      assert keys == init + [keys[|keys| - 1]];
    }
  }

  lemma {:induction false} NetZeroItemsDistinct(keys: seq<string>, items: map<string, Item>, columns: seq<string>)
    requires Distinct(keys) && forall k :: k in items ==> items[k].classname == k
    ensures Distinct(NetZeroItems(keys, items, columns))
  {
    if |keys| > 0 {
      var init := keys[..|keys| - 1];
      var k := keys[|keys| - 1];
      NetZeroItemsDistinct(init, items, columns);
      NetZeroItemsMembers(init, items, columns);
      NetZeroItemsLast(keys, items, columns);
      assert k !in init;
    }
  }

  lemma {:induction false} NetZeroItemsOrder(keys: seq<string>, items: map<string, Item>, columns: seq<string>)
    requires forall k :: k in items ==> items[k].classname == k
    ensures Subsequence(NetZeroItems(keys, items, columns), keys)
  {
    if |keys| > 0 {
      var init := keys[..|keys| - 1];
      var k := keys[|keys| - 1];
      NetZeroItemsOrder(init, items, columns);
      NetZeroItemsLast(keys, items, columns);
      var r0 := NetZeroItems(init, items, columns);
      assert keys == init + [k];
      SubsequenceExtend(r0, init, k);
      if k in items && k in columns && NetZero(items[k]) {
        var r := r0 + [k];
        assert r[..|r| - 1] == r0 && r[|r| - 1] == keys[|keys| - 1];
      } else {
        assert r0 + [] == r0;
      }
    }
  }

  /** The same for a dataset's item dictionary, in dataset order. */
  lemma NetZeroItemsOfDataset(items: Dict<Item>, columns: seq<string>)
    requires items.Valid() && forall k :: k in items.entries ==> items.entries[k].classname == k
    ensures var r := NetZeroItems(items.keys, items.entries, columns);
            && Distinct(r)
            && Subsequence(r, items.keys)
            && forall c :: c in r <==> c in items.entries && c in columns && NetZero(items.entries[c])
  {
    NetZeroItemsMeaning(items.keys, items.entries, columns);
  }

  /** What the solver returns: a rate per variable, and whether it succeeded. */
  datatype SolverResult = SolverResult(x: seq<real>, success: bool, message: string)

  /** A variable bound `(lower, upper)`; an unlimited upper bound is infinity. */
  datatype Bound = Bound(lower: real, upper: Limit)

  /** The arguments handed to `scipy.optimize.linprog`: minimise `c @ x`
      subject to `aUb @ x <= bUb`, `aEq @ x == bEq` and the bounds. */
  datatype LinProg = LinProg(
    c: seq<real>,
    aUb: seq<seq<real>>,
    bUb: seq<real>,
    aEq: seq<seq<real>>,
    bEq: seq<real>,
    bounds: seq<Bound>)

  /** What `calculate` returns for a solver result: the result itself on
      success, and otherwise the fatal exit with the solver's message. */
  function Outcome(res: SolverResult): (r: Result<SolverResult>)
    ensures r.Ok? <==> res.success
    ensures r.Ok? ==> r.value == res
    ensures r.Err? ==> r.error == SolverFailed(res.message)
  {
    if res.success then Ok(res) else Err(SolverFailed(res.message))
  }

  /** `ProductionCalculator`: a recipe matrix and the last solver result. */
  class ProductionCalculator {
    const recipeMatrix: RecipeMatrix
    var result: Option<SolverResult>

    ghost predicate Valid()
      reads this, recipeMatrix
    {
      recipeMatrix.Valid()
    }

    /** A new calculator has no result yet. */
    constructor(recipeMatrix: RecipeMatrix)
      ensures this.recipeMatrix == recipeMatrix && result == None
    {
      this.recipeMatrix := recipeMatrix;
      result := None;
    }

    /** `result`: the stored solver result; RuntimeError while there is none. */
    method GetResult() returns (r: Result<SolverResult>)
      ensures r.Err? <==> result.None?
      ensures r.Err? ==> r.error.RuntimeError?
      ensures r.Ok? ==> r.value == result.value
    {
      if result.None? {
        return Err(RuntimeError("no result available"));
      }
      r := Ok(result.value);
    }

    /** `calculate`: solve, store the result whatever it is, then stop with
        the solver's message unless it succeeded. */
    method Calculate(lp: LinProg, solve: LinProg -> SolverResult) returns (r: Result<SolverResult>)
      modifies this
      ensures result == Some(solve(lp))
      ensures r == Outcome(solve(lp))
    {
      var res := solve(lp);
      result := Some(res);
      if !res.success {
        return Err(SolverFailed(res.message));
      }
      r := Ok(res);
    }

    /** `net_zero_items_base_`: walk the dataset's items in order, keeping
        the net-zero ones that are matrix columns. */
    method NetZeroItemsBase() returns (ret: seq<string>)
      ensures ret == NetZeroItems(recipeMatrix.dataset.items.keys, recipeMatrix.dataset.items.entries,
                                  recipeMatrix.coefMatrix.columns)
    {
      var items := recipeMatrix.dataset.items;
      var matrixItems := recipeMatrix.coefMatrix.columns;
      ret := [];
      for i := 0 to |items.keys|
        invariant ret == NetZeroItems(items.keys[..i], items.entries, matrixItems)
      {
        assert items.keys[..i + 1][..i] == items.keys[..i];
        var k := items.keys[i];
        if k in items.entries {
          var v := items.entries[k];
          if v.classname in matrixItems && NetZero(v) {
            ret := ret + [v.classname];
          }
        }
      }
      assert items.keys[..|items.keys|] == items.keys;
    }
  }
}
