/** The catalogue value types (`calc_lib/elements.py`): clock speeds, items,
    recipes and buildings, with sink-point accounting and the power rules.
    Floats are exact reals. `x ** e` with a real exponent is the parameter
    `pow`, about which nothing is assumed. */
module Elements {
  import opened Wrappers
  import opened Strings
  import opened Dicts
  import Config

  /** A clock speed: an integer percentage from 1 to 250. */
  type ClockSpeed = x: int | 1 <= x <= 250 witness 100

  /** `ClockSpeed(x)`: accepts exactly 1..250 (default 100), else ValueError. */
  function NewClockSpeed(x: int := 100): (r: Result<ClockSpeed>)
    ensures r.Ok? <==> 1 <= x <= 250
    ensures r.Ok? ==> r.value == x
    ensures r.Err? ==> r.error.ValueError?
  {
    if x < 1 || x > 250 then Err(ValueError("ClockSpeed must be between 0 and 250"))
    else Ok(x)
  }

  /** Clock speed as a fraction of the nominal speed (`clock_speed / 100`). */
  function Fraction(clock: ClockSpeed): real {
    clock as real / 100.0
  }

  datatype Item = Item(
    classname: string,
    displayName: string,
    form: string,
    energyValue: real := 0.0,
    resourceSinkPoints: int := 0,
    category: Option<string> := None)
  {
    predicate IsSolid() { form == "RF_SOLID" }

    predicate IsLiquid() { form == "RF_LIQUID" }

    predicate IsGas() { form == "RF_GAS" }

    predicate IsFluid() { IsLiquid() || IsGas() }

    /** Liquids and gases are stored at 1000 times their displayed amount;
        rescaling undoes that and leaves solids alone. */
    function RescaleAmount(amount: real): (r: real)
      ensures IsFluid() ==> r * 1000.0 == amount
      ensures !IsFluid() ==> r == amount
    {
      if IsLiquid() || IsGas() then amount / 1000.0 else amount
    }

    predicate IsSinkable() {
      IsSolid() && resourceSinkPoints > 0
    }

    /** Sink points of `amount` units (see `RescaledSinkPointsCases`). */
    function RescaledSinkPoints(amount: real, sinkableOnly: bool := false): real
    {
      if !IsSinkable() && sinkableOnly then 0.0
      else resourceSinkPoints as real * RescaleAmount(amount)
    }
  }

  /** Rescaling commutes with scaling a rate (per second to per minute). */
  lemma RescaleIsLinear(item: Item, amount: real, k: real)
    ensures item.RescaleAmount(amount * k) == item.RescaleAmount(amount) * k
  {
  }

  /** Sink points of an amount: none at all for an item that cannot be sunk
      when only sinkable items count; the plain product for a sinkable item;
      points per unit times the rescaled amount when every item counts. */
  lemma RescaledSinkPointsCases(item: Item, amount: real, sinkableOnly: bool)
    ensures sinkableOnly && !item.IsSinkable() ==> item.RescaledSinkPoints(amount, sinkableOnly) == 0.0
    ensures item.IsSinkable() ==>
              item.RescaledSinkPoints(amount, sinkableOnly) == item.resourceSinkPoints as real * amount
    ensures !sinkableOnly ==>
              item.RescaledSinkPoints(amount, sinkableOnly)
              == item.resourceSinkPoints as real * item.RescaleAmount(amount)
  {
  }

  /** Sinkable items are solid, so they are never rescaled. */
  lemma SinkableIsNotFluid(item: Item)
    requires item.IsSinkable()
    ensures !item.IsFluid()
  {
  }

  datatype Recipe = Recipe(
    classname: string,
    displayName: string,
    ingredients: Dict<real>,
    products: Dict<real>,
    manufacturingDuration: real,
    producedIn: seq<string>,
    globalLimit: int := -1,
    variablePowerConsumptionConstant: real := 0.0,
    variablePowerConsumptionFactor: real := 0.0,
    rawSinkPointsGain: real := 0.0,
    sinkablePointsGain: real := 0.0,
    isResourceProxy: bool := false)
  {
    /** Both amount maps are well-formed dictionaries (as every Python dict is). */
    ghost predicate Valid() {
      ingredients.Valid() && products.Valid()
    }

    /** The building of the first `produced_in` entry that is a known building. */
    function Manufacturer(buildings: Dict<Building>): Option<Building> {
      FirstBuilding(producedIn, buildings)
    }

    /** `get_manufacturer`: a for-else search over `produced_in`. */
    method GetManufacturer(buildings: Dict<Building>) returns (ret: Option<Building>)
      ensures ret == Manufacturer(buildings)
    {
      ret := None;
      for i := 0 to |producedIn|
        invariant ret == None
        invariant FirstBuilding(producedIn, buildings) == FirstBuilding(producedIn[i..], buildings)
      {
        var b := producedIn[i];
        assert producedIn[i..][1..] == producedIn[i + 1..];
        if b in buildings.entries {
          ret := Some(buildings.entries[b]);
          return;
        }
      }
    }

    /** Sink points per second of running at `cyclesPerSecond` with the
        products multiplied by `prodMultiplier`; ingredients count -1 each. */
    function SinkPointsGain(items: Dict<Item>, prodMultiplier: real, cyclesPerSecond: real,
                            sinkableOnly: bool := false): real
    {
      PointsPerCycle(items, prodMultiplier, sinkableOnly) * cyclesPerSecond
    }

    /** Points of one cycle: ingredients weighted -1, products weighted by
        the production multiplier. */
    function PointsPerCycle(items: Dict<Item>, prodMultiplier: real, sinkableOnly: bool): real
    {
      PointsOver(ingredients.keys, ingredients.entries, items, -1.0, sinkableOnly)
      + PointsOver(products.keys, products.entries, items, prodMultiplier, sinkableOnly)
    }

    /** `get_production_sink_points_gain`: nested loops over the two
        categories and their items, skipping items absent from `items`. */
    method GetProductionSinkPointsGain(items: Dict<Item>, prodMultiplier: real,
                                       cyclesPerSecond: real, sinkableOnly: bool := false)
      returns (r: real)
      requires Valid()
      ensures r == SinkPointsGain(items, prodMultiplier, cyclesPerSecond, sinkableOnly)
    {
      var pointsPerCycle := 0.0;
      var categories := [(ingredients, -1.0), (products, prodMultiplier)];
      ghost var ingredientPoints := PointsOver(ingredients.keys, ingredients.entries, items, -1.0, sinkableOnly);
      ghost var productPoints := PointsOver(products.keys, products.entries, items, prodMultiplier, sinkableOnly);
      for c := 0 to 2
        invariant c == 0 ==> pointsPerCycle == 0.0
        invariant c == 1 ==> pointsPerCycle == ingredientPoints
        invariant c == 2 ==> pointsPerCycle == ingredientPoints + productPoints
      {
        var category := categories[c].0;
        var coef := categories[c].1;
        pointsPerCycle := AccumulateCategory(pointsPerCycle, category, coef, items, sinkableOnly);
      }
      r := pointsPerCycle * cyclesPerSecond;
    }

    /** `calculate_sink_points`: overwrite the two per-cycle gains. */
    function CalculateSinkPoints(items: Dict<Item>): (r: Recipe)
      ensures r.rawSinkPointsGain == SinkPointsGain(items, 1.0, 1.0, false)
      ensures r.sinkablePointsGain == SinkPointsGain(items, 1.0, 1.0, true)
      ensures r.(rawSinkPointsGain := rawSinkPointsGain, sinkablePointsGain := sinkablePointsGain) == this
    {
      this.(rawSinkPointsGain := SinkPointsGain(items, 1.0, 1.0, false),
            sinkablePointsGain := SinkPointsGain(items, 1.0, 1.0, true))
    }
  }

  /** The inner loop of `get_production_sink_points_gain`: add the points
      of one category's items, skipping those absent from `items`. */
  method AccumulateCategory(start: real, category: Dict<real>, coef: real, items: Dict<Item>,
                            sinkableOnly: bool) returns (total: real)
    requires category.Valid()
    ensures total == start + PointsOver(category.keys, category.entries, items, coef, sinkableOnly)
  {
    total := start;
    for i := 0 to |category.keys|
      invariant total == start + PointsOver(category.keys[..i], category.entries, items, coef, sinkableOnly)
    {
      var itemclass := category.keys[i];
      PointsOverStep(category.keys, i, category.entries, items, coef, sinkableOnly);
      if itemclass in items.entries {
        var item := items.entries[itemclass];
        var p := item.RescaledSinkPoints(category.entries[itemclass], sinkableOnly) * coef;
        PointsTermOfKnownItem(itemclass, category.entries, items, coef, sinkableOnly);
        total := total + p;
      }
    }
    assert category.keys[..|category.keys|] == category.keys;
  }

  function FirstBuilding(names: seq<string>, buildings: Dict<Building>): (r: Option<Building>)
    ensures r.None? <==> forall i :: 0 <= i < |names| ==> names[i] !in buildings.entries
    ensures r.Some? ==> exists i :: 0 <= i < |names| && names[i] in buildings.entries &&
                          r.value == buildings.entries[names[i]] &&
                          forall j :: 0 <= j < i ==> names[j] !in buildings.entries
  {
    if |names| == 0 then None
    else if names[0] in buildings.entries then Some(buildings.entries[names[0]])
    else
      var r := FirstBuilding(names[1..], buildings);
      assert forall i :: 1 <= i < |names| ==> names[i] == names[1..][i - 1];
      r
  }

  /** Sum, over the listed keys that are known items, of their sink points
      times `coef`. */
  function PointsOver(keys: seq<string>, amounts: map<string, real>, items: Dict<Item>,
                      coef: real, sinkableOnly: bool): real
  {
    if |keys| == 0 then 0.0
    else
      PointsOver(keys[..|keys| - 1], amounts, items, coef, sinkableOnly)
      + PointsTerm(keys[|keys| - 1], amounts, items, coef, sinkableOnly)
  }

  /** The points of one key: zero unless it is a known item with an amount. */
  function PointsTerm(k: string, amounts: map<string, real>, items: Dict<Item>,
                      coef: real, sinkableOnly: bool): real
  {
    if k in items.entries && k in amounts
    then items.entries[k].RescaledSinkPoints(amounts[k], sinkableOnly) * coef
    else 0.0
  }

  lemma PointsTermOfKnownItem(k: string, amounts: map<string, real>, items: Dict<Item>,
                              coef: real, sinkableOnly: bool)
    requires k in items.entries && k in amounts
    ensures PointsTerm(k, amounts, items, coef, sinkableOnly)
            == items.entries[k].RescaledSinkPoints(amounts[k], sinkableOnly) * coef
  {
  }

  lemma PointsOverStep(keys: seq<string>, i: int, amounts: map<string, real>, items: Dict<Item>,
                       coef: real, sinkableOnly: bool)
    requires 0 <= i < |keys|
    ensures PointsOver(keys[..i + 1], amounts, items, coef, sinkableOnly)
            == PointsOver(keys[..i], amounts, items, coef, sinkableOnly)
               + PointsTerm(keys[i], amounts, items, coef, sinkableOnly)
  {
    assert keys[..i + 1][..i] == keys[..i];
  }

  ghost function CategoriesPoints(categories: seq<(Dict<real>, real)>, items: Dict<Item>,
                                  sinkableOnly: bool): real
  {
    if |categories| == 0 then 0.0
    else
      var last := categories[|categories| - 1];
      CategoriesPoints(categories[..|categories| - 1], items, sinkableOnly)
      + PointsOver(last.0.keys, last.0.entries, items, last.1, sinkableOnly)
  }

  /** The weighted sum is `coef` times the unweighted one. */
  lemma {:induction false} PointsOverScales(keys: seq<string>, amounts: map<string, real>,
                                            items: Dict<Item>, coef: real, sinkableOnly: bool)
    ensures PointsOver(keys, amounts, items, coef, sinkableOnly)
            == coef * PointsOver(keys, amounts, items, 1.0, sinkableOnly)
  {
    if |keys| > 0 {
      PointsOverScales(keys[..|keys| - 1], amounts, items, coef, sinkableOnly);
    }
  }

  /** Points per cycle = multiplier * product points - ingredient points. */
  lemma PointsPerCycleDecomposition(r: Recipe, items: Dict<Item>, prodMultiplier: real,
                                    sinkableOnly: bool)
    ensures r.PointsPerCycle(items, prodMultiplier, sinkableOnly)
            == prodMultiplier * PointsOver(r.products.keys, r.products.entries, items, 1.0, sinkableOnly)
               - PointsOver(r.ingredients.keys, r.ingredients.entries, items, 1.0, sinkableOnly)
  {
    PointsOverScales(r.products.keys, r.products.entries, items, prodMultiplier, sinkableOnly);
    PointsOverScales(r.ingredients.keys, r.ingredients.entries, items, -1.0, sinkableOnly);
  }

  /** The gain is the cycle rate times the points of one cycle, so it is
      linear in the cycle rate. */
  lemma SinkPointsGainIsLinear(r: Recipe, items: Dict<Item>, prodMultiplier: real,
                               cyclesPerSecond: real, sinkableOnly: bool)
    ensures r.SinkPointsGain(items, prodMultiplier, 1.0, sinkableOnly)
            == r.PointsPerCycle(items, prodMultiplier, sinkableOnly)
    ensures r.SinkPointsGain(items, prodMultiplier, cyclesPerSecond, sinkableOnly)
            == cyclesPerSecond * r.SinkPointsGain(items, prodMultiplier, 1.0, sinkableOnly)
  {
  }

  /** A recipe with no ingredients and no products gains nothing. */
  lemma SinkPointsGainOfEmptyRecipe(r: Recipe, items: Dict<Item>, prodMultiplier: real,
                                    cyclesPerSecond: real, sinkableOnly: bool)
    requires r.ingredients.keys == [] && r.products.keys == []
    ensures r.SinkPointsGain(items, prodMultiplier, cyclesPerSecond, sinkableOnly) == 0.0
  {
    assert r.PointsPerCycle(items, prodMultiplier, sinkableOnly) == 0.0;
  }

  /** At production multiplier 1 the point rate of a recipe is its stored
      sinkable-only gain per cycle times the cycle rate. */
  lemma SinkRateAtUnitMultiplier(r: Recipe, items: Dict<Item>, cyclesPerSecond: real)
    ensures r.CalculateSinkPoints(items).SinkPointsGain(items, 1.0, cyclesPerSecond, true)
            == cyclesPerSecond * r.CalculateSinkPoints(items).sinkablePointsGain
  {
    var r' := r.CalculateSinkPoints(items);
    assert r'.ingredients == r.ingredients && r'.products == r.products;
    assert r'.PointsPerCycle(items, 1.0, true) == r.PointsPerCycle(items, 1.0, true);
    SinkPointsGainIsLinear(r', items, 1.0, cyclesPerSecond, true);
  }

  /** The first purity label that `name` ends with, with its multiplier. */
  function PurityOfSuffix(table: seq<(string, Config.PurityConfig)>, name: string)
    : (r: Option<Config.PurityConfig>)
    ensures r.None? <==> forall i :: 0 <= i < |table| ==> !EndsWith(name, table[i].1.labelName)
    ensures r.Some? ==> exists i :: 0 <= i < |table| && table[i].1 == r.value &&
                          EndsWith(name, r.value.labelName) &&
                          forall j :: 0 <= j < i ==> !EndsWith(name, table[j].1.labelName)
  {
    if |table| == 0 then None
    else if EndsWith(name, table[0].1.labelName) then Some(table[0].1)
    else
      var r := PurityOfSuffix(table[1..], name);
      assert forall i :: 1 <= i < |table| ==> table[i] == table[1..][i - 1];
      r
  }

  datatype Building = Building(
    classname: string,
    displayName: string,
    variablePowerConsumption: bool := false,
    powerProduction: real := 0.0,
    powerConsumption: real := 0.0,
    powerConsumptionExponent: real := 1.321929,
    productionShardSlotSize: int := 0,
    productionShardBoostMultiplier: real := 0.0,
    productionBoostPowerConsumptionExponent: real := 0.0,
    extractCycleTime: real := 0.0,
    itemsPerCycle: int := 0)
  {
    /** Power before overclocking; negative is consumption. Precedence:
        variable power (needs a recipe), then consumption, then production. */
    function GetBasePower(recipe: Option<Recipe>): (r: Result<real>)
      ensures variablePowerConsumption && recipe.None? ==> r.Err? && r.error.ValueError?
      ensures variablePowerConsumption && recipe.Some? ==>
                r == Ok(-recipe.value.variablePowerConsumptionConstant
                        - recipe.value.variablePowerConsumptionFactor / 2.0)
      ensures !variablePowerConsumption ==> r.Ok?
      ensures !variablePowerConsumption && r.Ok? ==>
                (r.value < 0.0 <==> powerConsumption > 0.0) &&
                (r.value > 0.0 <==> powerConsumption <= 0.0 && powerProduction > 0.0) &&
                (r.value < 0.0 ==> r.value == -powerConsumption) &&
                (r.value > 0.0 ==> r.value == powerProduction)
    {
      if variablePowerConsumption then
        if recipe.None? then
          Err(ValueError("recipe must be provided for variable power consumption buildings"))
        else
          Ok(-recipe.value.variablePowerConsumptionConstant
             - recipe.value.variablePowerConsumptionFactor / 2.0)
      else if powerConsumption > 0.0 then Ok(-powerConsumption)
      else if powerProduction > 0.0 then Ok(powerProduction)
      else Ok(0.0)
    }

    /** Consumers scale as `(clock/100) ** exponent`, producers linearly;
        an integer outside 1..250 is rejected by the `ClockSpeed` conversion. */
    function GetOverclockPowerMultiplier(clock: int, pow: (real, real) -> real): (r: Result<real>)
      ensures r.Err? <==> !(1 <= clock <= 250)
      ensures r.Ok? && powerConsumption > 0.0 ==>
                r.value == pow(clock as real / 100.0, powerConsumptionExponent)
      ensures r.Ok? && powerConsumption <= 0.0 && powerProduction > 0.0 ==>
                r.value == clock as real / 100.0
      ensures r.Ok? && powerConsumption <= 0.0 && powerProduction <= 0.0 ==> r.value == 1.0
    {
      var c :- NewClockSpeed(clock);
      if powerConsumption > 0.0 then Ok(pow(Fraction(c), powerConsumptionExponent))
      else if powerProduction > 0.0 then Ok(Fraction(c))
      else Ok(1.0)
    }

    /** Raises unless 0 <= somersloop <= slot size; else somersloop * boost + 1. */
    function GetProductionMultiplier(somersloop: int): (r: Result<real>)
      ensures r.Ok? <==> 0 <= somersloop <= productionShardSlotSize
      ensures r.Err? ==> r.error.ValueError?
      ensures r.Ok? ==> r.value == somersloop as real * productionShardBoostMultiplier + 1.0
    {
      if somersloop < 0 || somersloop > productionShardSlotSize then
        Err(ValueError("somersloop must be between 0 and slot size"))
      else Ok(somersloop as real * productionShardBoostMultiplier + 1.0)
    }

    /** Exactly 1.0 for a building whose consumption is 0 (whatever the
        somersloop count); otherwise the production multiplier raised to the
        boost exponent. */
    function GetProductionBoostPowerMultiplier(somersloop: int, pow: (real, real) -> real)
      : (r: Result<real>)
      ensures powerConsumption == 0.0 ==> r == Ok(1.0)
      ensures powerConsumption != 0.0 ==>
                (r.Ok? <==> 0 <= somersloop <= productionShardSlotSize)
      ensures r.Err? ==> r.error.ValueError?
      ensures powerConsumption != 0.0 && r.Ok? ==>
                r.value == pow(somersloop as real * productionShardBoostMultiplier + 1.0,
                               productionBoostPowerConsumptionExponent)
    {
      if powerConsumption == 0.0 then Ok(1.0)
      else
        var multiplier := GetProductionMultiplier(somersloop);
        if multiplier.Err? then Err(multiplier.error)
        else
          assert multiplier.value == somersloop as real * productionShardBoostMultiplier + 1.0;
          Ok(pow(multiplier.value, productionBoostPowerConsumptionExponent))
    }

    /** A geothermal generator: 200 MW times the multiplier of the first
        purity label the recipe's class name ends with. Without a recipe,
        reading `recipe.classname` on None raises AttributeError. */
    function GetGeothermalPower(recipe: Option<Recipe>): (r: Result<real>)
      ensures recipe.None? ==> r.Err? && r.error.AttributeError?
      ensures recipe.Some? ==>
                match PurityOfSuffix(Config.RESOURCE_NODE_PURITY_CONFIG, recipe.value.classname)
                case None => r.Err? && r.error.ValueError?
                case Some(p) => r == Ok(Config.RESOURCE_NODE_GEYSER_POWER_NORMAL * p.multiplier)
    {
      if recipe.None? then Err(AttributeError("'NoneType' object has no attribute 'classname'"))
      else
        match PurityOfSuffix(Config.RESOURCE_NODE_PURITY_CONFIG, recipe.value.classname)
        case None => Err(ValueError(classname + " cannot work with recipe " + recipe.value.classname))
        case Some(p) => Ok(Config.RESOURCE_NODE_GEYSER_POWER_NORMAL * p.multiplier)
    }

    /** Any other building: the base power times the overclock multiplier,
        and for consumers also times the somersloop surcharge. */
    function GetOverclockedPower(clock: int, somersloop: int, recipe: Option<Recipe>,
                                 pow: (real, real) -> real): (r: Result<real>)
      // a fixed generator: linear in the clock, independent of somersloops
      ensures (!variablePowerConsumption && powerConsumption <= 0.0 && powerProduction > 0.0
               && 1 <= clock <= 250) ==>
                r == Ok(powerProduction * (clock as real / 100.0))
      // a fixed consumer: a power of the clock, surcharged by somersloops
      ensures (!variablePowerConsumption && powerConsumption > 0.0 && 1 <= clock <= 250) ==>
                if 0 <= somersloop <= productionShardSlotSize then
                  r == Ok(-powerConsumption
                          * pow(clock as real / 100.0, powerConsumptionExponent)
                          * pow(somersloop as real * productionShardBoostMultiplier + 1.0,
                                productionBoostPowerConsumptionExponent))
                else r.Err? && r.error.ValueError?
      // no power at all, whatever the clock and somersloops
      ensures (!variablePowerConsumption && powerConsumption <= 0.0 && powerProduction <= 0.0) ==>
                r == Ok(0.0)
      // a variable-power building needs the recipe
      ensures variablePowerConsumption && recipe.None? ==> r.Err? && r.error.ValueError?
      // an invalid clock is rejected whenever the base power is not zero
      ensures (!(1 <= clock <= 250) && GetBasePower(recipe).Ok? && GetBasePower(recipe).value != 0.0)
              ==> r.Err?
    {
      var base := GetBasePower(recipe);
      if base.Err? then Err(base.error)
      else if base.value == 0.0 then Ok(base.value)
      else
        var m := GetOverclockPowerMultiplier(clock, pow);
        if m.Err? then Err(m.error)
        else if base.value > 0.0 then
          var power := base.value * m.value;
          assert !variablePowerConsumption && powerConsumption <= 0.0 ==>
                   power == powerProduction * (clock as real / 100.0);
          Ok(power)
        else
          var boost := GetProductionBoostPowerMultiplier(somersloop, pow);
          if boost.Err? then Err(boost.error)
          else
            var power := base.value * m.value * boost.value;
            assert !variablePowerConsumption && powerConsumption > 0.0 ==>
                     0 <= somersloop <= productionShardSlotSize &&
                     power == -powerConsumption
                              * pow(clock as real / 100.0, powerConsumptionExponent)
                              * pow(somersloop as real * productionShardBoostMultiplier + 1.0,
                                    productionBoostPowerConsumptionExponent);
            Ok(power)
    }

    /** `get_adjusted_power`: the power of one building at a clock speed and
        somersloop count; geothermal generators ignore both. */
    function GetAdjustedPower(clock: int, somersloop: int, recipe: Option<Recipe>,
                              pow: (real, real) -> real): (r: Result<real>)
      ensures classname == Config.RESOURCE_NODE_GEYSER_GENERATOR ==>
                r == GetGeothermalPower(recipe)
      ensures classname != Config.RESOURCE_NODE_GEYSER_GENERATOR ==>
                r == GetOverclockedPower(clock, somersloop, recipe, pow)
    {
      if classname == Config.RESOURCE_NODE_GEYSER_GENERATOR then GetGeothermalPower(recipe)
      else GetOverclockedPower(clock, somersloop, recipe, pow)
    }
  }

  /** Positive (produced) power never depends on the somersloop count. */
  lemma ProducedPowerIgnoresSomersloop(b: Building, clock: int, s1: int, s2: int,
                                       recipe: Option<Recipe>, pow: (real, real) -> real)
    requires b.classname != Config.RESOURCE_NODE_GEYSER_GENERATOR
    requires b.GetBasePower(recipe).Ok? && b.GetBasePower(recipe).value > 0.0
    ensures b.GetAdjustedPower(clock, s1, recipe, pow) == b.GetAdjustedPower(clock, s2, recipe, pow)
  {
  }
}
