/** The recipe matrix (`calc_lib/recipe_matrix.py`): one coefficient row per
    recipe variant (somersloop count x clock speed), holding the item flows
    per second and four aggregate columns, and one limit entry per row. */
module Matrix {
  import opened Wrappers
  import opened Strings
  import opened Dicts
  import opened Elements
  import opened Dataset

  /** An upper bound on how often a recipe variant may run: `inf` or a number. */
  datatype Limit = Unlimited | Finite(value: real)

  /** `float("inf") if global_limit < 0 else global_limit`. */
  function LimitOf(globalLimit: int): (l: Limit)
    ensures l.Unlimited? <==> globalLimit < 0
    ensures l.Finite? ==> l.value == globalLimit as real && l.value >= 0.0
  {
    if globalLimit < 0 then Unlimited else Finite(globalLimit as real)
  }

  /** A named pandas Series: one row of the coefficient matrix. */
  datatype Row = Row(name: string, values: Dict<real>)

  /** The aggregate columns every row starts with. */
  const AGGREGATES: seq<string> := ["somersloop", "power", "raw_power", "points_gain_rate"]

  /** `_basic_coef_matrix_row`: the four aggregate columns, in that order;
      raw power is the positive part of the power. */
  function BasicCoefMatrixRow(name: string, somersloop: int := 0, power: real := 0.0,
                              sinkPointsRate: real := 0.0): (row: Row)
    ensures row.name == name && row.values.Valid()
    ensures row.values.keys == AGGREGATES
    ensures row.values.entries["somersloop"] == somersloop as real
    ensures row.values.entries["power"] == power
    ensures row.values.entries["raw_power"] == (if power > 0.0 then power else 0.0)
    ensures row.values.entries["points_gain_rate"] == sinkPointsRate
  {
    var raw := if power > 0.0 then power else 0.0;
    var entries := map["somersloop" := somersloop as real, "power" := power,
                       "raw_power" := raw, "points_gain_rate" := sinkPointsRate];
    AggregatesDistinct();
    assert entries.Keys == {"somersloop", "power", "raw_power", "points_gain_rate"};
    Row(name, Dict(AGGREGATES, entries))
  }

  lemma AggregatesDistinct()
    ensures Distinct(AGGREGATES)
  {
    assert |AGGREGATES[0]| == 10 && |AGGREGATES[1]| == 5 && |AGGREGATES[2]| == 9 && |AGGREGATES[3]| == 16;
  }

  /** `f"{classname}/S{somersloop}_OC{clock}"`. */
  function RowName(classname: string, somersloop: nat, clock: ClockSpeed): string {
    classname + "/S" + NatToString(somersloop) + "_OC" + NatToString(clock)
  }

  /** A row name determines the recipe, somersloop count and clock speed. */
  lemma RowNameInjective(c1: string, s1: nat, k1: ClockSpeed, c2: string, s2: nat, k2: ClockSpeed)
    requires RowName(c1, s1, k1) == RowName(c2, s2, k2)
    ensures c1 == c2 && s1 == s2 && k1 == k2
  {
    var x1 := c1 + "/S" + NatToString(s1) + "_O";
    var x2 := c2 + "/S" + NatToString(s2) + "_O";
    assert RowName(c1, s1, k1) == x1 + ['C'] + NatToString(k1);
    assert RowName(c2, s2, k2) == x2 + ['C'] + NatToString(k2);
    DigitSuffixUnique(x1, x2, 'C', NatToString(k1), NatToString(k2));
    NatToStringInjective(k1, k2);
    var y1 := c1 + "/";
    var y2 := c2 + "/";
    assert x1[..|x1| - 2] == y1 + ['S'] + NatToString(s1);
    assert x2[..|x2| - 2] == y2 + ['S'] + NatToString(s2);
    DigitSuffixUnique(y1, y2, 'S', NatToString(s1), NatToString(s2));
    NatToStringInjective(s1, s2);
    assert c1 == y1[..|y1| - 1] && c2 == y2[..|y2| - 1];
  }

  /** `range(0, slot_size + 1)` with somersloops, else `range(0, 1)`. */
  function Somersloops(building: Building, withSomersloop: bool): (s: seq<nat>)
    ensures |s| == if !withSomersloop then 1
                   else if building.productionShardSlotSize < 0 then 0
                   else building.productionShardSlotSize + 1
    ensures forall i :: 0 <= i < |s| ==> s[i] == i
  {
    var n := if !withSomersloop then 1
             else if building.productionShardSlotSize < 0 then 0
             else building.productionShardSlotSize + 1;
    seq(n, i => i)
  }

  /** The clock speeds of a recipe's variants: the extraction clock for a
      resource proxy, else the set {production clock, 250}, listed in the
      set's iteration order (production first iff `productionClockFirst`). */
  function ClockSpeeds(recipe: Recipe, production: ClockSpeed, extraction: ClockSpeed,
                       productionClockFirst: bool): (c: seq<ClockSpeed>)
    ensures recipe.isResourceProxy ==> c == [extraction]
    ensures !recipe.isResourceProxy ==> (forall k :: k in c <==> k == production || k == 250)
    ensures !recipe.isResourceProxy ==> |c| == if production == 250 then 1 else 2
    ensures Distinct(c)
  {
    if recipe.isResourceProxy then [extraction]
    else if production == 250 then [250]
    else if productionClockFirst then [production, 250]
    else [250, production]
  }

  /** `itertools.product(somersloops, clocks)`: somersloop-major order. */
  function Variants(somersloops: seq<nat>, clocks: seq<ClockSpeed>): seq<(nat, ClockSpeed)> {
    if |somersloops| == 0 then []
    else
      Variants(somersloops[..|somersloops| - 1], clocks)
      + seq(|clocks|, j requires 0 <= j < |clocks| => (somersloops[|somersloops| - 1], clocks[j]))
  }

  /** The product has one entry per pair, and distinct pairs when both
      factors are duplicate-free. */
  lemma VariantsShape(somersloops: seq<nat>, clocks: seq<ClockSpeed>)
    ensures |Variants(somersloops, clocks)| == |somersloops| * |clocks|
    ensures forall v :: v in Variants(somersloops, clocks) <==> v.0 in somersloops && v.1 in clocks
    ensures Distinct(somersloops) && Distinct(clocks) ==> Distinct(Variants(somersloops, clocks))
  {
    VariantsLength(somersloops, clocks);
    VariantsMembers(somersloops, clocks);
    if Distinct(somersloops) && Distinct(clocks) {
      VariantsDistinct(somersloops, clocks);
    }
  }

  /** The variants of the first somersloop counts, then those of the last. */
  lemma VariantsLast(somersloops: seq<nat>, clocks: seq<ClockSpeed>)
    requires |somersloops| > 0
    ensures var last := somersloops[|somersloops| - 1];
            Variants(somersloops, clocks)
            == Variants(somersloops[..|somersloops| - 1], clocks)
               + seq(|clocks|, j requires 0 <= j < |clocks| => (last, clocks[j]))
  {
  }

  lemma {:induction false} VariantsLength(somersloops: seq<nat>, clocks: seq<ClockSpeed>)
    ensures |Variants(somersloops, clocks)| == |somersloops| * |clocks|
  {
    if |somersloops| > 0 {
      var init := somersloops[..|somersloops| - 1];
      VariantsLength(init, clocks);
      VariantsLast(somersloops, clocks);
      assert |somersloops| * |clocks| == |init| * |clocks| + |clocks|;
    }
  }

  lemma {:induction false} VariantsMembers(somersloops: seq<nat>, clocks: seq<ClockSpeed>)
    ensures forall v :: v in Variants(somersloops, clocks) <==> v.0 in somersloops && v.1 in clocks
  {
    if |somersloops| > 0 {
      var init := somersloops[..|somersloops| - 1];
      var last := somersloops[|somersloops| - 1];
      VariantsMembers(init, clocks);
      VariantsLast(somersloops, clocks);
      var tail := seq(|clocks|, j requires 0 <= j < |clocks| => (last, clocks[j]));
      assert somersloops == init + [last];
      forall v ensures v in Variants(somersloops, clocks) <==> v.0 in somersloops && v.1 in clocks {
        if v.0 == last && v.1 in clocks {
          var j :| 0 <= j < |clocks| && clocks[j] == v.1;
          assert tail[j] == v;
        }
      }
    }
  }

  lemma {:induction false} VariantsDistinct(somersloops: seq<nat>, clocks: seq<ClockSpeed>)
    requires Distinct(somersloops) && Distinct(clocks)
    ensures Distinct(Variants(somersloops, clocks))
  {
    if |somersloops| > 0 {
      var init := somersloops[..|somersloops| - 1];
      var last := somersloops[|somersloops| - 1];
      assert Distinct(init);
      assert last !in init;
      VariantsDistinct(init, clocks);
      VariantsMembers(init, clocks);
      VariantsLast(somersloops, clocks);
      var head := Variants(init, clocks);
      var tail := seq(|clocks|, j requires 0 <= j < |clocks| => (last, clocks[j]));
      var all := head + tail;
      forall i: int, j: int | 0 <= i < j < |all|
        ensures all[i] != all[j]
      {
        if j < |head| {
        } else if i >= |head| {
        } else {
          assert head[i] in head;
        }
      }
    }
  }

  /** The flow of one item per second: `amount * coef * cps`. */
  function Flow(amount: real, coef: real, cps: real): real {
    amount * coef * cps
  }

  /** Write the flow of each key of `keys`, in order. */
  function SetFlows(d: Dict<real>, keys: seq<string>, amounts: map<string, real>,
                    coef: real, cps: real): Dict<real>
  {
    if |keys| == 0 then d
    else
      var k := keys[|keys| - 1];
      SetFlows(d, keys[..|keys| - 1], amounts, coef, cps)
        .Set(k, if k in amounts then Flow(amounts[k], coef, cps) else 0.0)
  }

  /** One more key writes its flow over the earlier ones. */
  lemma SetFlowsStep(d: Dict<real>, keys: seq<string>, j: int, amounts: map<string, real>, coef: real, cps: real)
    requires 0 <= j < |keys| && keys[j] in amounts
    ensures SetFlows(d, keys[..j + 1], amounts, coef, cps)
            == SetFlows(d, keys[..j], amounts, coef, cps).Set(keys[j], Flow(amounts[keys[j]], coef, cps))
  {
    assert keys[..j + 1][..j] == keys[..j];
  }

  /** Writing the flows keeps the row well formed and its earlier keys in
      front; each written key holds its flow, every other key is unchanged. */
  lemma {:induction false} SetFlowsMeaning(d: Dict<real>, keys: seq<string>, amounts: map<string, real>,
                                           coef: real, cps: real)
    requires d.Valid()
    requires forall k :: k in keys ==> k in amounts
    ensures SetFlows(d, keys, amounts, coef, cps).Valid()
    ensures d.keys <= SetFlows(d, keys, amounts, coef, cps).keys
    ensures forall k :: k in SetFlows(d, keys, amounts, coef, cps).entries <==> k in d.entries || k in keys
    ensures forall k :: k in keys ==> SetFlows(d, keys, amounts, coef, cps).entries[k] == Flow(amounts[k], coef, cps)
    ensures forall k :: k !in keys && k in d.entries ==>
                          SetFlows(d, keys, amounts, coef, cps).entries[k] == d.entries[k]
  {
    if |keys| > 0 {
      SetFlowsMeaning(d, keys[..|keys| - 1], amounts, coef, cps);
      forall k | k in keys ensures k == keys[|keys| - 1] || k in keys[..|keys| - 1] {
        var i :| 0 <= i < |keys| && keys[i] == k;
        if i < |keys| - 1 {
          assert keys[..|keys| - 1][i] == k;
        }
      }
    }
  }

  /** Cycles per second at a clock speed: `(clock / 100) / duration`. */
  function CyclesPerSecond(clock: ClockSpeed, duration: real): real
    requires duration != 0.0
  {
    Fraction(clock) / duration
  }

  /** The coefficient row of one variant, or the error building it raises:
      a zero duration, a somersloop count the building cannot hold, or a
      power rule that rejects the recipe. */
  function VariantRow(recipe: Recipe, building: Building, items: Dict<Item>, somersloop: nat,
                      clock: ClockSpeed, pow: (real, real) -> real): Result<Row>
  {
    if recipe.manufacturingDuration == 0.0 then Err(ZeroDivisionError)
    else
      var cps := CyclesPerSecond(clock, recipe.manufacturingDuration);
      var pm := building.GetProductionMultiplier(somersloop);
      if pm.Err? then Err(pm.error)
      else
        var name := RowName(recipe.classname, somersloop, clock);
        var power := building.GetAdjustedPower(clock, somersloop, Some(recipe), pow);
        if power.Err? then Err(power.error)
        else
          var rate := recipe.SinkPointsGain(items, pm.value, cps, true);
          Ok(AssembleRow(recipe, name, somersloop, power.value, rate, pm.value, cps))
  }

  /** The basic row of the aggregates, then the ingredient flows (coefficient
      -1), then the product flows (the production multiplier). */
  function AssembleRow(recipe: Recipe, name: string, somersloop: nat, power: real, rate: real,
                       prodMultiplier: real, cps: real): Row
  {
    var basic := BasicCoefMatrixRow(name, somersloop, power, rate);
    var withIngredients := SetFlows(basic.values, recipe.ingredients.keys,
                                    recipe.ingredients.entries, -1.0, cps);
    Row(name, SetFlows(withIngredients, recipe.products.keys, recipe.products.entries,
                       prodMultiplier, cps))
  }

  /** Append a row (unless building it raised) and set its limit entry. */
  function AddRow(acc: (seq<Row>, Dict<Limit>), row: Result<Row>, l: Limit)
    : Result<(seq<Row>, Dict<Limit>)>
  {
    if row.Err? then Err(row.error)
    else Ok((acc.0 + [row.value], acc.1.Set(row.value.name, l)))
  }

  /** One iteration of the variant loop, for rows built by `rowOf`. */
  function RowStep(rowOf: ((nat, ClockSpeed)) -> Result<Row>, l: Limit)
    : ((seq<Row>, Dict<Limit>), (nat, ClockSpeed)) -> Result<(seq<Row>, Dict<Limit>)>
  {
    (acc, v) => AddRow(acc, rowOf(v), l)
  }

  function VariantRowOf(recipe: Recipe, b: Building, items: Dict<Item>, pow: (real, real) -> real)
    : ((nat, ClockSpeed)) -> Result<Row>
  {
    (v: (nat, ClockSpeed)) => VariantRow(recipe, b, items, v.0, v.1, pow)
  }

  /** The variants of a recipe run by `building`. */
  function RecipeVariants(recipe: Recipe, building: Building, production: ClockSpeed,
                          extraction: ClockSpeed, withSomersloop: bool,
                          productionClockFirst: bool): seq<(nat, ClockSpeed)>
  {
    Variants(Somersloops(building, withSomersloop),
             ClockSpeeds(recipe, production, extraction, productionClockFirst))
  }

  /** What `_append_regular_recipe` leaves in the row list and limit series. */
  function AppendSpec(acc: (seq<Row>, Dict<Limit>), cat: Catalogue, recipe: Recipe,
                      production: ClockSpeed, extraction: ClockSpeed, withSomersloop: bool,
                      productionClockFirst: bool, pow: (real, real) -> real)
    : Result<(seq<Row>, Dict<Limit>)>
  {
    match recipe.Manufacturer(cat.buildings)
    case None => Ok(acc)
    case Some(building) =>
      FoldResult(RecipeVariants(recipe, building, production, extraction, withSomersloop,
                                productionClockFirst),
                 acc, RowStep(VariantRowOf(recipe, building, cat.items, pow), LimitOf(recipe.globalLimit)))
  }

  /** The two inner loops of `_append_regular_recipe`: `row[k] = v * coef * cps`
      for every entry of one amount map (coef -1 for ingredients, the
      production multiplier for products). */
  method WriteFlows(row: Dict<real>, amounts: Dict<real>, coef: real, cps: real)
    returns (written: Dict<real>)
    requires amounts.Valid()
    ensures written == SetFlows(row, amounts.keys, amounts.entries, coef, cps)
  {
    written := row;
    for j := 0 to |amounts.keys|
      invariant written == SetFlows(row, amounts.keys[..j], amounts.entries, coef, cps)
    {
      var k := amounts.keys[j];
      assert k in amounts.entries;
      SetFlowsStep(row, amounts.keys, j, amounts.entries, coef, cps);
      written := written.Set(k, Flow(amounts.entries[k], coef, cps));
    }
    assert amounts.keys[..|amounts.keys|] == amounts.keys;
  }

  /** `_append_regular_recipe`: for each variant, build its row and append
      it with its limit entry; a recipe no known building runs adds nothing.
      The caller's list and series are passed in and returned updated. */
  method AppendRegularRecipe(coefRows: seq<Row>, globalLimit: Dict<Limit>, cat: Catalogue,
                             recipe: Recipe, production: ClockSpeed, extraction: ClockSpeed,
                             withSomersloop: bool, productionClockFirst: bool,
                             pow: (real, real) -> real)
    returns (r: Result<(seq<Row>, Dict<Limit>)>)
    requires recipe.Valid()
    ensures r == AppendSpec((coefRows, globalLimit), cat, recipe, production, extraction,
                            withSomersloop, productionClockFirst, pow)
  {
    var building := recipe.GetManufacturer(cat.buildings);
    if building.None? {
      return Ok((coefRows, globalLimit));
    }
    var b := building.value;
    var variants := RecipeVariants(recipe, b, production, extraction, withSomersloop,
                                   productionClockFirst);
    r := AppendVariantRows(coefRows, globalLimit, cat.items, recipe, b, variants, pow,
                           VariantRowOf(recipe, b, cat.items, pow));
  }

  /** The variant loop of `_append_regular_recipe`: build each variant's row
      and append it with its limit entry, stopping at the first error. */
  method AppendVariantRows(coefRows: seq<Row>, globalLimit: Dict<Limit>, items: Dict<Item>,
                           recipe: Recipe, b: Building, variants: seq<(nat, ClockSpeed)>,
                           pow: (real, real) -> real, ghost rowOf: ((nat, ClockSpeed)) -> Result<Row>)
    returns (r: Result<(seq<Row>, Dict<Limit>)>)
    requires recipe.Valid()
    requires forall v :: rowOf(v) == VariantRow(recipe, b, items, v.0, v.1, pow)
    ensures r == FoldResult(variants, (coefRows, globalLimit), RowStep(rowOf, LimitOf(recipe.globalLimit)))
  {
    ghost var step := RowStep(rowOf, LimitOf(recipe.globalLimit));
    var rows, limits := coefRows, globalLimit;
    for i := 0 to |variants|
      invariant FoldResult(variants[..i], (coefRows, globalLimit), step) == Ok((rows, limits))
    {
      FoldResultStep(variants, i, (coefRows, globalLimit), step);
      var row := BuildVariantRow(recipe, b, items, variants[i].0, variants[i].1, pow);
      assert row == rowOf(variants[i]);
      if row.Err? {
        FoldResultStopsAtError(variants, i + 1, (coefRows, globalLimit), step);
        return Err(row.error);
      }
      var limit := if recipe.globalLimit < 0 then Unlimited else Finite(recipe.globalLimit as real);
      assert step((rows, limits), variants[i]) == Ok((rows + [row.value], limits.Set(row.value.name, limit)));
      rows := rows + [row.value];
      limits := limits.Set(row.value.name, limit);
    }
    assert variants[..|variants|] == variants;
    r := Ok((rows, limits));
  }

  /** The body of the variant loop of `_append_regular_recipe`: one
      variant's row, or the error that stops the loop. */
  method BuildVariantRow(recipe: Recipe, b: Building, items: Dict<Item>, somersloop: nat, clock: ClockSpeed,
                         pow: (real, real) -> real)
    returns (r: Result<Row>)
    requires recipe.Valid()
    ensures r == VariantRow(recipe, b, items, somersloop, clock, pow)
  {
    if recipe.manufacturingDuration == 0.0 {
      return Err(ZeroDivisionError);
    }
    var cyclesPerSecond := CyclesPerSecond(clock, recipe.manufacturingDuration);
    var prodMultiplier := b.GetProductionMultiplier(somersloop);
    if prodMultiplier.Err? {
      return Err(prodMultiplier.error);
    }
    var index := RowName(recipe.classname, somersloop, clock);
    var power := b.GetAdjustedPower(clock, somersloop, Some(recipe), pow);
    if power.Err? {
      return Err(power.error);
    }
    var rate := recipe.GetProductionSinkPointsGain(items, prodMultiplier.value, cyclesPerSecond, true);
    var row := BasicCoefMatrixRow(index, somersloop, power.value, rate);
    var values := WriteFlows(row.values, recipe.ingredients, -1.0, cyclesPerSecond);
    values := WriteFlows(values, recipe.products, prodMultiplier.value, cyclesPerSecond);
    r := Ok(Row(index, values));
  }

  /** A row is a well-formed Series whose first columns are the aggregates. */
  ghost predicate WellShaped(row: Row) {
    row.values.Valid() && AGGREGATES <= row.values.keys
  }

  /** A variant's row exists iff the duration is not zero, the building
      holds that many somersloops and the power rules accept the recipe. */
  lemma VariantRowOk(recipe: Recipe, b: Building, items: Dict<Item>, s: nat, clock: ClockSpeed,
                     pow: (real, real) -> real)
    ensures VariantRow(recipe, b, items, s, clock, pow).Ok? <==>
              recipe.manufacturingDuration != 0.0 && s <= b.productionShardSlotSize &&
              b.GetAdjustedPower(clock, s, Some(recipe), pow).Ok?
  {
  }

  /** A variant's row is its name, power, point rate, production multiplier
      (s * boost + 1, by `GetProductionMultiplier`) and cycle rate assembled
      into one row. */
  lemma VariantRowIs(recipe: Recipe, b: Building, items: Dict<Item>, s: nat, clock: ClockSpeed,
                     pow: (real, real) -> real)
    requires VariantRow(recipe, b, items, s, clock, pow).Ok?
    ensures recipe.manufacturingDuration != 0.0 && b.GetAdjustedPower(clock, s, Some(recipe), pow).Ok?
    ensures b.GetProductionMultiplier(s).Ok?
    ensures var pm := b.GetProductionMultiplier(s).value;
            var cps := CyclesPerSecond(clock, recipe.manufacturingDuration);
            VariantRow(recipe, b, items, s, clock, pow).value ==
              AssembleRow(recipe, RowName(recipe.classname, s, clock), s,
                          b.GetAdjustedPower(clock, s, Some(recipe), pow).value,
                          recipe.SinkPointsGain(items, pm, cps, true), pm, cps)
  {
  }

  /** The item columns of an assembled row: a product holds its flow
      boosted by the production multiplier, an ingredient that is not also a
      product its flow negated; the row has the aggregate and item columns
      only, aggregates first. */
  lemma AssembleRowFlows(recipe: Recipe, name: string, s: nat, power: real, rate: real,
                         pm: real, cps: real)
    requires recipe.Valid()
    ensures var row := AssembleRow(recipe, name, s, power, rate, pm, cps);
            var ingredients := recipe.ingredients.entries;
            var products := recipe.products.entries;
            && row.name == name
            && WellShaped(row)
            && (forall k :: k in row.values.entries <==> k in AGGREGATES || k in ingredients || k in products)
            && (forall k :: k in products ==> row.values.entries[k] == Flow(products[k], pm, cps))
            && (forall k :: k in ingredients && k !in products ==>
                              row.values.entries[k] == Flow(ingredients[k], -1.0, cps))
  {
    var basic := BasicCoefMatrixRow(name, s, power, rate);
    var withIngredients := SetFlows(basic.values, recipe.ingredients.keys,
                                    recipe.ingredients.entries, -1.0, cps);
    SetFlowsMeaning(basic.values, recipe.ingredients.keys, recipe.ingredients.entries, -1.0, cps);
    SetFlowsMeaning(withIngredients, recipe.products.keys, recipe.products.entries, pm, cps);
  }

  /** The aggregate columns of an assembled row that no item shares its name
      with: the somersloop count, the power, its positive part, the rate. */
  lemma AssembleRowAggregates(recipe: Recipe, name: string, s: nat, power: real, rate: real,
                              pm: real, cps: real, k: string)
    requires recipe.Valid()
    requires k in AGGREGATES && k !in recipe.ingredients.entries && k !in recipe.products.entries
    ensures var entries := AssembleRow(recipe, name, s, power, rate, pm, cps).values.entries;
            k in entries &&
            entries[k] == if k == "somersloop" then s as real
                          else if k == "power" then power
                          else if k == "raw_power" then (if power > 0.0 then power else 0.0)
                          else rate
  {
    var basic := BasicCoefMatrixRow(name, s, power, rate);
    assert k in basic.values.entries;
    var withIngredients := SetFlows(basic.values, recipe.ingredients.keys,
                                    recipe.ingredients.entries, -1.0, cps);
    SetFlowsKeeps(basic.values, recipe.ingredients.keys, recipe.ingredients.entries, -1.0, cps, k);
    SetFlowsKeeps(withIngredients, recipe.products.keys, recipe.products.entries, pm, cps, k);
  }

  /** Writing flows for keys other than `k` leaves `k`'s entry alone. */
  lemma {:induction false} SetFlowsKeeps(d: Dict<real>, keys: seq<string>, amounts: map<string, real>,
                                         coef: real, cps: real, k: string)
    requires k !in keys && k in d.entries
    ensures k in SetFlows(d, keys, amounts, coef, cps).entries
    ensures SetFlows(d, keys, amounts, coef, cps).entries[k] == d.entries[k]
  {
    if |keys| > 0 {
      assert k !in keys[..|keys| - 1];
      SetFlowsKeeps(d, keys[..|keys| - 1], amounts, coef, cps, k);
    }
  }

  /** The names of a list of rows, in order (the index of the matrix). */
  function RowNames(rows: seq<Row>): (names: seq<string>)
    ensures |names| == |rows|
    ensures forall j :: 0 <= j < |rows| ==> names[j] == rows[j].name
  {
    seq(|rows|, j requires 0 <= j < |rows| => rows[j].name)
  }

  /** `d[n] = l` for each name in turn. */
  function SetEach(d: Dict<Limit>, names: seq<string>, l: Limit): Dict<Limit> {
    if |names| == 0 then d
    else SetEach(d, names[..|names| - 1], l).Set(names[|names| - 1], l)
  }

  /** Setting fresh, distinct names appends them to the keys in order. */
  lemma {:induction false} SetEachFresh(d: Dict<Limit>, names: seq<string>, l: Limit)
    requires d.Valid() && Distinct(names)
    requires forall n :: n in names ==> n !in d.entries
    ensures SetEach(d, names, l).Valid()
    ensures SetEach(d, names, l).keys == d.keys + names
    ensures forall n :: n in SetEach(d, names, l).entries <==> n in d.entries || n in names
    ensures forall n :: n in names ==> SetEach(d, names, l).entries[n] == l
  {
    if |names| > 0 {
      var init := names[..|names| - 1];
      var last := names[|names| - 1];
      assert names == init + [last];
      assert last !in init;
      SetEachFresh(d, init, l);
    }
  }

  /** The rows and limits a loop of `RowStep`s adds: it succeeds iff every
      row can be built; then one row per element is appended, in order, and
      each row's name gets the limit `l`. */
  lemma RowFoldShape(vs: seq<(nat, ClockSpeed)>, acc: (seq<Row>, Dict<Limit>),
                     rowOf: ((nat, ClockSpeed)) -> Result<Row>, l: Limit)
    ensures FoldResult(vs, acc, RowStep(rowOf, l)).Ok? <==> forall j :: 0 <= j < |vs| ==> rowOf(vs[j]).Ok?
    ensures FoldResult(vs, acc, RowStep(rowOf, l)).Ok? ==>
              var rows := FoldResult(vs, acc, RowStep(rowOf, l)).value.0;
              var limits := FoldResult(vs, acc, RowStep(rowOf, l)).value.1;
              && |rows| == |acc.0| + |vs|
              && rows[..|acc.0|] == acc.0
              && (forall j :: 0 <= j < |vs| ==> rows[|acc.0| + j] == rowOf(vs[j]).value)
              && limits == SetEach(acc.1, RowNames(rows[|acc.0|..]), l)
  {
    RowFoldOk(vs, acc, rowOf, l);
    if FoldResult(vs, acc, RowStep(rowOf, l)).Ok? {
      RowFoldRows(vs, acc, rowOf, l);
    }
  }

  /** The loop of `RowStep`s succeeds iff every row can be built. */
  lemma {:induction false} RowFoldOk(vs: seq<(nat, ClockSpeed)>, acc: (seq<Row>, Dict<Limit>),
                                     rowOf: ((nat, ClockSpeed)) -> Result<Row>, l: Limit)
    ensures FoldResult(vs, acc, RowStep(rowOf, l)).Ok? <==> forall j :: 0 <= j < |vs| ==> rowOf(vs[j]).Ok?
  {
    if |vs| > 0 {
      var init := vs[..|vs| - 1];
      RowFoldOk(init, acc, rowOf, l);
      assert forall j :: 0 <= j < |init| ==> vs[j] == init[j];
    }
  }

  /** A loop of `RowStep`s that succeeds appends one row per element, in
      order, and gives each row's name the limit `l`. */
  lemma {:induction false} RowFoldRows(vs: seq<(nat, ClockSpeed)>, acc: (seq<Row>, Dict<Limit>),
                                       rowOf: ((nat, ClockSpeed)) -> Result<Row>, l: Limit)
    requires FoldResult(vs, acc, RowStep(rowOf, l)).Ok?
    ensures var rows := FoldResult(vs, acc, RowStep(rowOf, l)).value.0;
            var limits := FoldResult(vs, acc, RowStep(rowOf, l)).value.1;
            && |rows| == |acc.0| + |vs|
            && rows[..|acc.0|] == acc.0
            && (forall j :: 0 <= j < |vs| ==> rowOf(vs[j]).Ok? && rows[|acc.0| + j] == rowOf(vs[j]).value)
            && limits == SetEach(acc.1, RowNames(rows[|acc.0|..]), l)
  {
    var step := RowStep(rowOf, l);
    if |vs| > 0 {
      var init := vs[..|vs| - 1];
      var last := vs[|vs| - 1];
      var prev := FoldResult(init, acc, step);
      assert prev.Ok?;
      RowFoldRows(init, acc, rowOf, l);
      var row := rowOf(last);
      var rows := prev.value.0 + [row.value];
      assert FoldResult(vs, acc, step).value == (rows, prev.value.1.Set(row.value.name, l));
      assert rows[|acc.0|..] == prev.value.0[|acc.0|..] + [row.value];
      assert RowNames(rows[|acc.0|..])[..|vs| - 1] == RowNames(prev.value.0[|acc.0|..]);
      forall j | 0 <= j < |vs| ensures rowOf(vs[j]).Ok? && rows[|acc.0| + j] == rowOf(vs[j]).value {
        if j < |vs| - 1 {
          assert vs[j] == init[j];
        }
      }
    }
  }

  /** What holds of the rows and limits once the recipes named in `done`
      have been appended: the limit series is keyed by the row names, in row
      order (so no two rows share a name), every row is well shaped, and
      no row is named after a recipe outside `done`. */
  ghost predicate Assembled(acc: (seq<Row>, Dict<Limit>), done: seq<string>) {
    && acc.1.Valid()
    && acc.1.keys == RowNames(acc.0)
    && (forall j :: 0 <= j < |acc.0| ==> WellShaped(acc.0[j]))
    && (forall j :: 0 <= j < |acc.0| ==> NamedWithin(acc.0[j].name, done))
  }

  /** `name` is the row name of no variant of a recipe outside `done`. */
  ghost predicate NamedWithin(name: string, done: seq<string>) {
    forall c: string, s: nat, k: ClockSpeed :: c !in done ==> name != RowName(c, s, k)
  }

  lemma NamedWithinWider(name: string, done: seq<string>, more: seq<string>)
    requires NamedWithin(name, done) && forall c :: c in done ==> c in more
    ensures NamedWithin(name, more)
  {
  }

  /** A variant's row is well shaped and named after its variant. */
  lemma VariantRowShape(recipe: Recipe, b: Building, items: Dict<Item>, v: (nat, ClockSpeed),
                        pow: (real, real) -> real)
    requires recipe.Valid() && VariantRow(recipe, b, items, v.0, v.1, pow).Ok?
    ensures WellShaped(VariantRow(recipe, b, items, v.0, v.1, pow).value)
    ensures VariantRow(recipe, b, items, v.0, v.1, pow).value.name == RowName(recipe.classname, v.0, v.1)
  {
    VariantRowIs(recipe, b, items, v.0, v.1, pow);
    var pm := b.GetProductionMultiplier(v.0).value;
    var cps := CyclesPerSecond(v.1, recipe.manufacturingDuration);
    AssembleRowFlows(recipe, RowName(recipe.classname, v.0, v.1), v.0,
                     b.GetAdjustedPower(v.1, v.0, Some(recipe), pow).value,
                     recipe.SinkPointsGain(items, pm, cps, true), pm, cps);
  }

  /** Naming one more recipe as done keeps the invariant. */
  lemma AssembledGrows(acc: (seq<Row>, Dict<Limit>), done: seq<string>, classname: string)
    requires Assembled(acc, done)
    ensures Assembled(acc, done + [classname])
  {
    forall j | 0 <= j < |acc.0| ensures NamedWithin(acc.0[j].name, done + [classname]) {
      NamedWithinWider(acc.0[j].name, done, done + [classname]);
    }
  }

  /** Rows named after distinct variants of one class name have distinct names. */
  lemma DistinctVariantNames(classname: string, vs: seq<(nat, ClockSpeed)>, added: seq<Row>)
    requires Distinct(vs) && |added| == |vs|
    requires forall j :: 0 <= j < |vs| ==> added[j].name == RowName(classname, vs[j].0, vs[j].1)
    ensures Distinct(RowNames(added))
  {
    var names := RowNames(added);
    forall i, j | 0 <= i < j < |names| ensures names[i] != names[j] {
      if names[i] == names[j] {
        RowNameInjective(classname, vs[i].0, vs[i].1, classname, vs[j].0, vs[j].1);
      }
    }
  }

  /** Rows named after a class name outside `done` have names no row of an
      `Assembled` list has. */
  lemma FreshVariantNames(acc: (seq<Row>, Dict<Limit>), done: seq<string>, classname: string,
                          vs: seq<(nat, ClockSpeed)>, added: seq<Row>)
    requires Assembled(acc, done) && classname !in done && |added| == |vs|
    requires forall j :: 0 <= j < |vs| ==> added[j].name == RowName(classname, vs[j].0, vs[j].1)
    ensures forall n :: n in RowNames(added) ==> n !in acc.1.entries
  {
    var names := RowNames(added);
    forall n | n in names ensures n !in acc.1.entries {
      var j :| 0 <= j < |names| && names[j] == n;
      forall i | 0 <= i < |acc.0| ensures RowNames(acc.0)[i] != n {
        assert NamedWithin(acc.0[i].name, done);
      }
      assert n !in acc.1.keys;
    }
  }

  /** Rows named after variants of `classname` are named after no other recipe. */
  lemma NamedAfterOnly(classname: string, vs: seq<(nat, ClockSpeed)>, added: seq<Row>)
    requires |added| == |vs|
    requires forall j :: 0 <= j < |vs| ==> added[j].name == RowName(classname, vs[j].0, vs[j].1)
    ensures forall j :: 0 <= j < |added| ==> NamedWithin(added[j].name, [classname])
  {
    forall j, c: string, s: nat, k: ClockSpeed | 0 <= j < |added| && c !in [classname]
      ensures added[j].name != RowName(c, s, k)
    {
      if added[j].name == RowName(c, s, k) {
        RowNameInjective(classname, vs[j].0, vs[j].1, c, s, k);
      }
    }
  }

  /** Appending well-shaped rows named after distinct variants of a class
      name not seen before, and setting their limits, keeps rows and limits
      in step. */
  lemma AssembledExtend(acc: (seq<Row>, Dict<Limit>), done: seq<string>, classname: string,
                        vs: seq<(nat, ClockSpeed)>, added: seq<Row>, l: Limit)
    requires Assembled(acc, done) && classname !in done && Distinct(vs) && |added| == |vs|
    requires forall j :: 0 <= j < |vs| ==> added[j].name == RowName(classname, vs[j].0, vs[j].1)
    requires forall j :: 0 <= j < |vs| ==> WellShaped(added[j])
    ensures Assembled((acc.0 + added, SetEach(acc.1, RowNames(added), l)), done + [classname])
  {
    DistinctVariantNames(classname, vs, added);
    FreshVariantNames(acc, done, classname, vs, added);
    ExtendLimits(acc.1, acc.0, added, l);
    ExtendShaped(acc.0, added);
    NamedAfterOnly(classname, vs, added);
    ExtendNamed(acc.0, done, classname, added);
  }

  /** The limits of the appended rows extend the limit series in row order. */
  lemma ExtendLimits(d: Dict<Limit>, rows: seq<Row>, added: seq<Row>, l: Limit)
    requires d.Valid() && d.keys == RowNames(rows) && Distinct(RowNames(added))
    requires forall n :: n in RowNames(added) ==> n !in d.entries
    ensures SetEach(d, RowNames(added), l).Valid()
    ensures SetEach(d, RowNames(added), l).keys == RowNames(rows + added)
  {
    SetEachFresh(d, RowNames(added), l);
    assert RowNames(rows + added) == RowNames(rows) + RowNames(added);
  }

  /** Appending well-shaped rows keeps every row well shaped. */
  lemma ExtendShaped(rows: seq<Row>, added: seq<Row>)
    requires forall j :: 0 <= j < |rows| ==> WellShaped(rows[j])
    requires forall j :: 0 <= j < |added| ==> WellShaped(added[j])
    ensures forall j :: 0 <= j < |rows + added| ==> WellShaped((rows + added)[j])
  {
    forall j | 0 <= j < |rows + added| ensures WellShaped((rows + added)[j]) {
      if j >= |rows| {
        assert (rows + added)[j] == added[j - |rows|];
      }
    }
  }

  /** Rows named after recipes of `done`, followed by rows named after
      `classname` only, are named after recipes of `done + [classname]`
      only. */
  lemma ExtendNamed(rows: seq<Row>, done: seq<string>, classname: string, added: seq<Row>)
    requires forall j :: 0 <= j < |rows| ==> NamedWithin(rows[j].name, done)
    requires forall j :: 0 <= j < |added| ==> NamedWithin(added[j].name, [classname])
    ensures forall j :: 0 <= j < |rows + added| ==> NamedWithin((rows + added)[j].name, done + [classname])
  {
    forall j | 0 <= j < |rows + added| ensures NamedWithin((rows + added)[j].name, done + [classname]) {
      if j >= |rows| {
        assert (rows + added)[j] == added[j - |rows|];
        NamedWithinWider(added[j - |rows|].name, [classname], done + [classname]);
      } else {
        assert (rows + added)[j] == rows[j];
        NamedWithinWider(rows[j].name, done, done + [classname]);
      }
    }
  }

  /** The rows a recipe's variant loop appends keep rows and limits in step. */
  lemma AppendRowsShape(acc: (seq<Row>, Dict<Limit>), done: seq<string>, classname: string,
                        vs: seq<(nat, ClockSpeed)>, rowOf: ((nat, ClockSpeed)) -> Result<Row>, l: Limit)
    requires Assembled(acc, done) && classname !in done && Distinct(vs)
    requires forall j :: 0 <= j < |vs| && rowOf(vs[j]).Ok? ==>
               WellShaped(rowOf(vs[j]).value) && rowOf(vs[j]).value.name == RowName(classname, vs[j].0, vs[j].1)
    requires FoldResult(vs, acc, RowStep(rowOf, l)).Ok?
    ensures Assembled(FoldResult(vs, acc, RowStep(rowOf, l)).value, done + [classname])
  {
    RowFoldRows(vs, acc, rowOf, l);
    var result := FoldResult(vs, acc, RowStep(rowOf, l)).value;
    var added := result.0[|acc.0|..];
    assert result.0 == acc.0 + added;
    forall j | 0 <= j < |vs|
      ensures added[j].name == RowName(classname, vs[j].0, vs[j].1) && WellShaped(added[j])
    {
      assert added[j] == result.0[|acc.0| + j];
    }
    AssembledExtend(acc, done, classname, vs, added, l);
  }

  /** Appending a recipe whose class name is new keeps rows and limits in step. */
  lemma AppendShape(acc: (seq<Row>, Dict<Limit>), done: seq<string>, cat: Catalogue, recipe: Recipe,
                    production: ClockSpeed, extraction: ClockSpeed, withSomersloop: bool,
                    productionClockFirst: bool, pow: (real, real) -> real)
    requires Assembled(acc, done) && recipe.Valid() && recipe.classname !in done
    requires AppendSpec(acc, cat, recipe, production, extraction, withSomersloop,
                        productionClockFirst, pow).Ok?
    ensures Assembled(AppendSpec(acc, cat, recipe, production, extraction, withSomersloop,
                                 productionClockFirst, pow).value, done + [recipe.classname])
  {
    var done' := done + [recipe.classname];
    match recipe.Manufacturer(cat.buildings)
    case None =>
      assert AppendSpec(acc, cat, recipe, production, extraction, withSomersloop,
                        productionClockFirst, pow).value == acc;
      AssembledGrows(acc, done, recipe.classname);
    case Some(b) =>
      var somersloops := Somersloops(b, withSomersloop);
      var clocks := ClockSpeeds(recipe, production, extraction, productionClockFirst);
      var vs := Variants(somersloops, clocks);
      var rowOf := VariantRowOf(recipe, b, cat.items, pow);
      VariantsShape(somersloops, clocks);
      forall j | 0 <= j < |vs| && rowOf(vs[j]).Ok?
        ensures WellShaped(rowOf(vs[j]).value) && rowOf(vs[j]).value.name == RowName(recipe.classname, vs[j].0, vs[j].1)
      {
        VariantRowShape(recipe, b, cat.items, vs[j], pow);
      }
      AppendRowsShape(acc, done, recipe.classname, vs, rowOf, LimitOf(recipe.globalLimit));
  }

  /** One iteration of the loop over the dataset's recipes. */
  function RecipeStep(cat: Catalogue, production: ClockSpeed, extraction: ClockSpeed,
                      withSomersloop: bool, productionClockFirst: bool, pow: (real, real) -> real)
    : ((seq<Row>, Dict<Limit>), string) -> Result<(seq<Row>, Dict<Limit>)>
  {
    (acc, name) =>
      if name in cat.recipes.entries then
        AppendSpec(acc, cat, cat.recipes.entries[name], production, extraction, withSomersloop,
                   productionClockFirst, pow)
      else Ok(acc)
  }

  /** The rows and limits after appending every recipe, in dataset order. */
  function ConstructSpec(cat: Catalogue, production: ClockSpeed, extraction: ClockSpeed,
                         withSomersloop: bool, productionClockFirst: bool, pow: (real, real) -> real)
    : Result<(seq<Row>, Dict<Limit>)>
  {
    FoldResult(cat.recipes.keys, ([], Empty()),
               RecipeStep(cat, production, extraction, withSomersloop, productionClockFirst, pow))
  }

  /** After any prefix of the recipes, rows and limits are in step. */
  lemma {:induction false} ConstructShape(cat: Catalogue, i: int, production: ClockSpeed,
                                          extraction: ClockSpeed, withSomersloop: bool,
                                          productionClockFirst: bool, pow: (real, real) -> real)
    requires cat.Valid() && 0 <= i <= |cat.recipes.keys|
    requires FoldResult(cat.recipes.keys[..i], ([], Empty()),
                        RecipeStep(cat, production, extraction, withSomersloop,
                                   productionClockFirst, pow)).Ok?
    ensures Assembled(FoldResult(cat.recipes.keys[..i], ([], Empty()),
                                 RecipeStep(cat, production, extraction, withSomersloop,
                                            productionClockFirst, pow)).value,
                      cat.recipes.keys[..i])
  {
    var keys := cat.recipes.keys;
    var step := RecipeStep(cat, production, extraction, withSomersloop, productionClockFirst, pow);
    var init: (seq<Row>, Dict<Limit>) := ([], Empty());
    if i > 0 {
      FoldResultStep(keys, i - 1, init, step);
      ConstructShape(cat, i - 1, production, extraction, withSomersloop, productionClockFirst, pow);
      var acc := FoldResult(keys[..i - 1], init, step).value;
      var name := keys[i - 1];
      assert name !in keys[..i - 1];
      assert keys[..i] == keys[..i - 1] + [name];
      AppendShape(acc, keys[..i - 1], cat, cat.recipes.entries[name], production, extraction,
                  withSomersloop, productionClockFirst, pow);
    }
  }

  /** Append the keys not yet among `cols`, in order. */
  function AddColumns(cols: seq<string>, keys: seq<string>): seq<string>
    decreases |keys|
  {
    if |keys| == 0 then cols
    else AddColumns(if keys[0] in cols then cols else cols + [keys[0]], keys[1..])
  }

  lemma {:induction false} AddColumnsMeaning(cols: seq<string>, keys: seq<string>)
    ensures cols <= AddColumns(cols, keys)
    ensures forall k :: k in AddColumns(cols, keys) <==> k in cols || k in keys
    ensures Distinct(cols) ==> Distinct(AddColumns(cols, keys))
    decreases |keys|
  {
    if |keys| > 0 {
      var next := if keys[0] in cols then cols else cols + [keys[0]];
      AddColumnsMeaning(next, keys[1..]);
      assert keys == [keys[0]] + keys[1..];
    }
  }

  /** Adding keys none of which is present yet appends them all. */
  lemma {:induction false} AddColumnsFresh(cols: seq<string>, keys: seq<string>)
    requires Distinct(cols + keys)
    ensures AddColumns(cols, keys) == cols + keys
    decreases |keys|
  {
    if |keys| > 0 {
      assert (cols + keys)[|cols|] == keys[0];
      forall i | 0 <= i < |cols| ensures cols[i] != keys[0] {
        assert (cols + keys)[i] == cols[i];
      }
      assert cols + keys == (cols + [keys[0]]) + keys[1..];
      AddColumnsFresh(cols + [keys[0]], keys[1..]);
    }
  }

  /** The column labels of `pandas.concat(rows, axis=1).T`: the union of the
      rows' keys, in order of first appearance. */
  function ColumnsUnion(rows: seq<Row>): seq<string> {
    if |rows| == 0 then []
    else AddColumns(ColumnsUnion(rows[..|rows| - 1]), rows[|rows| - 1].values.keys)
  }

  /** The columns are listed once each, are exactly the keys of the rows,
      and begin with the keys of the first row. */
  lemma {:induction false} ColumnsUnionMeaning(rows: seq<Row>)
    ensures Distinct(ColumnsUnion(rows))
    ensures forall k :: k in ColumnsUnion(rows) <==> exists i :: 0 <= i < |rows| && k in rows[i].values.keys
    ensures |rows| > 0 && Distinct(rows[0].values.keys) ==> rows[0].values.keys <= ColumnsUnion(rows)
  {
    if |rows| > 0 {
      var init := rows[..|rows| - 1];
      ColumnsUnionMeaning(init);
      AddColumnsMeaning(ColumnsUnion(init), rows[|rows| - 1].values.keys);
      forall k ensures k in ColumnsUnion(rows) <==> exists i :: 0 <= i < |rows| && k in rows[i].values.keys {
        if exists i :: 0 <= i < |init| && k in init[i].values.keys {
          var i :| 0 <= i < |init| && k in init[i].values.keys;
          assert rows[i] == init[i];
        }
        if exists i :: 0 <= i < |rows| && k in rows[i].values.keys {
          var i :| 0 <= i < |rows| && k in rows[i].values.keys;
          if i < |init| {
            assert init[i] == rows[i];
          }
        }
      }
      if Distinct(rows[0].values.keys) {
        if |rows| == 1 {
          AddColumnsFresh([], rows[0].values.keys);
          assert [] + rows[0].values.keys == rows[0].values.keys;
        } else {
          assert init[0] == rows[0];
        }
      }
    }
  }

  /** A DataFrame: row labels, column labels and a dense table of values. */
  datatype Frame = Frame(index: seq<string>, columns: seq<string>, values: seq<seq<real>>) {
    ghost predicate Valid() {
      && |values| == |index|
      && (forall i :: 0 <= i < |values| ==> |values[i]| == |columns|)
    }
  }

  /** `row[c]`, or 0 where the row has no such column (`fillna(0)`). */
  function CellOf(row: Row, c: string): real {
    if c in row.values.entries then row.values.entries[c] else 0.0
  }

  /** `pandas.concat(rows, axis=1).T.fillna(0)`: one row per Series, labelled
      by its name. */
  function FrameOf(rows: seq<Row>): (f: Frame)
    ensures f.Valid()
  {
    var cols := ColumnsUnion(rows);
    Frame(RowNames(rows), cols,
          seq(|rows|, i requires 0 <= i < |rows| =>
            seq(|cols|, j requires 0 <= j < |cols| => CellOf(rows[i], cols[j]))))
  }

  /** `_construct_matrices`: every recipe's rows and limits; concatenating
      no rows at all raises ValueError. */
  function MatricesOf(cat: Catalogue, production: ClockSpeed, extraction: ClockSpeed,
                      withSomersloop: bool, productionClockFirst: bool, pow: (real, real) -> real)
    : Result<(Frame, Dict<Limit>)>
  {
    var built := ConstructSpec(cat, production, extraction, withSomersloop, productionClockFirst, pow);
    if built.Err? then Err(built.error)
    else if |built.value.0| == 0 then Err(ValueError("No objects to concatenate"))
    else Ok((FrameOf(built.value.0), built.value.1))
  }

  /** The matrices of a valid dataset: the limit series is keyed by the row
      labels, in row order, with no label twice; the columns are listed once
      each, start with the four aggregates, and are exactly the columns of
      the emitted rows; a cell is the row's value, or 0 where it has none. */
  lemma MatricesShape(cat: Catalogue, production: ClockSpeed, extraction: ClockSpeed,
                      withSomersloop: bool, productionClockFirst: bool, pow: (real, real) -> real)
    requires cat.Valid()
    requires MatricesOf(cat, production, extraction, withSomersloop, productionClockFirst, pow).Ok?
    ensures var rows := ConstructSpec(cat, production, extraction, withSomersloop,
                                      productionClockFirst, pow).value.0;
            var m := MatricesOf(cat, production, extraction, withSomersloop, productionClockFirst, pow).value;
            var f := m.0;
            && f.Valid()
            && m.1.Valid() && m.1.keys == f.index && Distinct(f.index)
            && f.index == RowNames(rows)
            && Distinct(f.columns) && AGGREGATES <= f.columns
            && (forall c :: c in f.columns <==> exists i :: 0 <= i < |rows| && c in rows[i].values.entries)
            && (forall i, j :: 0 <= i < |rows| && 0 <= j < |f.columns| ==>
                                 f.values[i][j] == CellOf(rows[i], f.columns[j]))
  {
    var keys := cat.recipes.keys;
    assert keys[..|keys|] == keys;
    ConstructShape(cat, |keys|, production, extraction, withSomersloop, productionClockFirst, pow);
    var rows := ConstructSpec(cat, production, extraction, withSomersloop, productionClockFirst, pow).value.0;
    ColumnsUnionMeaning(rows);
    assert WellShaped(rows[0]);
    assert AGGREGATES <= rows[0].values.keys <= ColumnsUnion(rows);
    forall c ensures c in ColumnsUnion(rows) <==> exists i :: 0 <= i < |rows| && c in rows[i].values.entries {
      if exists i :: 0 <= i < |rows| && c in rows[i].values.entries {
        var i :| 0 <= i < |rows| && c in rows[i].values.entries;
        assert WellShaped(rows[i]);
      }
      if c in ColumnsUnion(rows) {
        var i :| 0 <= i < |rows| && c in rows[i].values.keys;
        assert WellShaped(rows[i]);
      }
    }
  }

  /** `RecipeMatrix`: a dataset, the clock settings, and the coefficient
      matrix and limit series built from them. */
  class RecipeMatrix {
    const dataset: Catalogue
    const productionClockSpeed: ClockSpeed
    const resourceExtractionClockSpeed: ClockSpeed
    const withSomersloop: bool
    /** Whether iterating the set {production clock, 250} yields the
        production clock first. */
    const productionClockFirst: bool
    var coefMatrix: Frame
    var globalLimit: Dict<Limit>

    /** The limit series is keyed by the matrix's row labels, in row order,
        and the columns are distinct and start with the aggregates. */
    ghost predicate Valid()
      reads this
    {
      && dataset.Valid() && coefMatrix.Valid() && globalLimit.Valid()
      && globalLimit.keys == coefMatrix.index && Distinct(coefMatrix.index)
      && Distinct(coefMatrix.columns) && AGGREGATES <= coefMatrix.columns
    }

    /** The settings, with the matrices not yet built. */
    constructor Init(dataset: Catalogue, productionClockSpeed: ClockSpeed,
                     resourceExtractionClockSpeed: ClockSpeed, withSomersloop: bool,
                     productionClockFirst: bool)
      ensures this.dataset == dataset
      ensures this.productionClockSpeed == productionClockSpeed
      ensures this.resourceExtractionClockSpeed == resourceExtractionClockSpeed
      ensures this.withSomersloop == withSomersloop
      ensures this.productionClockFirst == productionClockFirst
      ensures coefMatrix == Frame([], [], []) && globalLimit == Empty()
    {
      this.dataset := dataset;
      this.productionClockSpeed := productionClockSpeed;
      this.resourceExtractionClockSpeed := resourceExtractionClockSpeed;
      this.withSomersloop := withSomersloop;
      this.productionClockFirst := productionClockFirst;
      coefMatrix := Frame([], [], []);
      globalLimit := Empty();
    }

    /** `_construct_matrices`: append every recipe's rows and limits, then
        concatenate the rows and store both; on an error nothing is stored. */
    method ConstructMatrices(pow: (real, real) -> real) returns (r: Result<()>)
      requires dataset.Valid()
      modifies this
      ensures var m := MatricesOf(dataset, productionClockSpeed, resourceExtractionClockSpeed,
                                  withSomersloop, productionClockFirst, pow);
              && (r.Ok? <==> m.Ok?)
              && (r.Err? ==> r.error == m.error && unchanged(this))
              && (r.Ok? ==> coefMatrix == m.value.0 && globalLimit == m.value.1 && Valid())
    {
      var coefRows: seq<Row> := [];
      var limits: Dict<Limit> := Empty();
      var keys := dataset.recipes.keys;
      ghost var step := RecipeStep(dataset, productionClockSpeed, resourceExtractionClockSpeed,
                                   withSomersloop, productionClockFirst, pow);
      for i := 0 to |keys|
        invariant FoldResult(keys[..i], ([], Empty()), step) == Ok((coefRows, limits))
        invariant unchanged(this)
      {
        FoldResultStep(keys, i, ([], Empty()), step);
        var recipe := dataset.recipes.entries[keys[i]];
        var appended := AppendRegularRecipe(coefRows, limits, dataset, recipe, productionClockSpeed,
                                            resourceExtractionClockSpeed, withSomersloop,
                                            productionClockFirst, pow);
        if appended.Err? {
          FoldResultStopsAtError(keys, i + 1, ([], Empty()), step);
          return Err(appended.error);
        }
        coefRows, limits := appended.value.0, appended.value.1;
      }
      assert keys[..|keys|] == keys;
      if |coefRows| == 0 {
        return Err(ValueError("No objects to concatenate"));
      }
      coefMatrix := FrameOf(coefRows);
      globalLimit := limits;
      MatricesShape(dataset, productionClockSpeed, resourceExtractionClockSpeed, withSomersloop,
                    productionClockFirst, pow);
      r := Ok(());
    }
  }

  /** `RecipeMatrix(dataset, ...)`: both clock speeds go through
      `ClockSpeed`, then the matrices are built. */
  method NewRecipeMatrix(dataset: Catalogue, productionClockFirst: bool, pow: (real, real) -> real,
                         productionClockSpeed: int := 100, resourceExtractionClockSpeed: int := 250,
                         withSomersloop: bool := false)
    returns (r: Result<RecipeMatrix>)
    requires dataset.Valid()
    ensures !(1 <= productionClockSpeed <= 250 && 1 <= resourceExtractionClockSpeed <= 250) ==>
              r.Err? && r.error.ValueError?
    ensures (1 <= productionClockSpeed <= 250 && 1 <= resourceExtractionClockSpeed <= 250) ==>
              var m := MatricesOf(dataset, productionClockSpeed, resourceExtractionClockSpeed,
                                  withSomersloop, productionClockFirst, pow);
              && (r.Ok? <==> m.Ok?)
              && (r.Err? ==> r.error == m.error)
              && (r.Ok? ==> r.value.coefMatrix == m.value.0 && r.value.globalLimit == m.value.1)
    ensures r.Ok? ==> fresh(r.value) && r.value.Valid() && r.value.dataset == dataset
                      && r.value.productionClockSpeed == productionClockSpeed
                      && r.value.resourceExtractionClockSpeed == resourceExtractionClockSpeed
                      && r.value.withSomersloop == withSomersloop
  {
    var production :- NewClockSpeed(productionClockSpeed);
    var extraction :- NewClockSpeed(resourceExtractionClockSpeed);
    var m := new RecipeMatrix.Init(dataset, production, extraction, withSomersloop, productionClockFirst);
    var built := m.ConstructMatrices(pow);
    if built.Err? {
      return Err(built.error);
    }
    r := Ok(m);
  }
}
