/** The synthetic ("proxy") recipes of `RecipeDatasetCurator`
    (`calc_lib/recipe_dataset_curator.py`): one recipe per fuel a generator
    burns, and resource-extraction recipes for nodes, wells, unrestrained
    sources and geysers, built from the configuration tables and the
    buildings and items already in the dataset. */
module Proxies {
  import opened Wrappers
  import Strings
  import opened Dicts
  import Config
  import opened Elements
  import opened Dataset
  import opened Curation

  /** What every resource-extraction recipe is: a resource proxy that
      consumes nothing. */
  predicate IsResourceProxy(e: Entity) {
    e.RecipeEntity? && e.recipe.isResourceProxy && e.recipe.ingredients == Empty()
  }

  // ----- Generators -----

  /** One fuel entry of a generator in the docs data. */
  datatype Fuel = Fuel(fuelClass: string, supplementalResourceClass: string,
                       byproduct: string, byproductAmount: int)

  /** One generator class in the docs data. */
  datatype Generator = Generator(classname: string, displayName: string, powerProduction: real,
                                 requiresSupplementalResource: bool, supplementalToPowerRatio: real,
                                 fuels: seq<Fuel>)

  /** The recipe for generator `g` burning `fuel` (the item `item`): one
      unit of fuel per cycle, a cycle as long as that unit's energy lasts
      at the generator's output, the supplemental resource truncated to an
      integer amount, and the byproduct, if there is one, as product. */
  function GeneratorRecipe(g: Generator, fuel: Fuel, item: Item): Recipe
    requires g.powerProduction != 0.0
  {
    var cycleTime := item.energyValue / g.powerProduction;
    var withFuel := Empty<real>().Set(fuel.fuelClass, 1.0);
    var ingredients :=
      if g.requiresSupplementalResource
      then withFuel.Set(fuel.supplementalResourceClass, SupplementalAmount(g, cycleTime) as real)
      else withFuel;
    var products := if fuel.byproduct != "" then Empty<real>().Set(fuel.byproduct, fuel.byproductAmount as real)
                    else Empty();
    Recipe(g.classname + "-" + fuel.fuelClass, g.displayName + " (" + item.displayName + ")",
           ingredients, products, cycleTime, [g.classname])
  }

  /** The supplemental resource a generator needs per cycle, truncated
      toward zero. */
  function SupplementalAmount(g: Generator, cycleTime: real): int {
    Int(g.powerProduction * g.supplementalToPowerRatio * cycleTime)
  }

  /** One fuel of one generator: a KeyError for a fuel that is not an item,
      a ZeroDivisionError for a generator without output. */
  function GeneratorFuel(items: Dict<Item>, g: Generator, fuel: Fuel): Attempt {
    if fuel.fuelClass !in items.entries then Fail(KeyError(fuel.fuelClass))
    else if g.powerProduction == 0.0 then Fail(ZeroDivisionError)
    else Adds([RecipeEntity(GeneratorRecipe(g, fuel, items.entries[fuel.fuelClass]))])
  }

  function GeneratorFuelStep(items: Dict<Item>, g: Generator): Fuel -> Attempt {
    fuel => GeneratorFuel(items, g, fuel)
  }

  function GeneratorOf(items: Dict<Item>, g: Generator): Attempt {
    ForEach(g.fuels, GeneratorFuelStep(items, g))
  }

  function GeneratorStep(items: Dict<Item>): Generator -> Attempt {
    g => GeneratorOf(items, g)
  }

  function GeneratorClass(data: map<string, seq<Generator>>, items: Dict<Item>, d: string): Attempt {
    if d !in data then Fail(KeyError(d)) else ForEach(data[d], GeneratorStep(items))
  }

  function GeneratorClassStep(data: map<string, seq<Generator>>, items: Dict<Item>): string -> Attempt {
    d => GeneratorClass(data, items, d)
  }

  /** `_add_generator_proxy_recipes`. */
  function GeneratorProxies(data: map<string, seq<Generator>>, items: Dict<Item>): Attempt {
    ForEach(Config.CURATOR_NATIVE_CLASSNAME_LIST_GENERATOR, GeneratorClassStep(data, items))
  }

  /** A generator recipe burns one unit of fuel per cycle (unless the
      supplemental resource is the fuel itself), a cycle lasts exactly as
      long as the unit's energy at the generator's output, the supplemental
      amount is the truncated ratio times that energy and is there iff the
      generator needs one, and there is a product iff there is a byproduct.
      It runs in that generator only, with the default (unlimited) global
      limit, and is not a resource proxy. */
  lemma GeneratorRecipeMeaning(g: Generator, fuel: Fuel, item: Item)
    requires g.powerProduction != 0.0
    ensures var r := GeneratorRecipe(g, fuel, item);
            && r.classname == g.classname + "-" + fuel.fuelClass
            && r.producedIn == [g.classname]
            && r.globalLimit == -1 && !r.isResourceProxy
            && r.manufacturingDuration * g.powerProduction == item.energyValue
            && fuel.fuelClass in r.ingredients.entries
            && (!g.requiresSupplementalResource || fuel.supplementalResourceClass != fuel.fuelClass ==>
                  r.ingredients.entries[fuel.fuelClass] == 1.0)
            && (g.requiresSupplementalResource ==>
                  r.ingredients.entries[fuel.supplementalResourceClass]
                  == Int(g.supplementalToPowerRatio * item.energyValue) as real)
            && (!g.requiresSupplementalResource ==> r.ingredients.keys == [fuel.fuelClass])
            && (fuel.byproduct != "" <==> r.products.keys != [])
            && (fuel.byproduct != "" ==> r.products.entries == map[fuel.byproduct := fuel.byproductAmount as real])
            && r.Valid()
  {
    var cycleTime := item.energyValue / g.powerProduction;
    CycleTimeTimesPower(item.energyValue, g.powerProduction);
    GeneratorSupplemental(g, item);
    GeneratorRecipeAmounts(g, fuel, item, cycleTime);
  }

  /** The supplemental amount per cycle is the truncated ratio times the
      unit's energy. */
  lemma GeneratorSupplemental(g: Generator, item: Item)
    requires g.powerProduction != 0.0
    ensures SupplementalAmount(g, item.energyValue / g.powerProduction)
            == Int(g.supplementalToPowerRatio * item.energyValue)
  {
    SupplementalOfEnergy(item.energyValue, g.powerProduction, g.supplementalToPowerRatio);
  }

  /** The amounts of a generator recipe, for a cycle time `cycleTime`. */
  lemma GeneratorRecipeAmounts(g: Generator, fuel: Fuel, item: Item, cycleTime: real)
    requires g.powerProduction != 0.0 && cycleTime == item.energyValue / g.powerProduction
    ensures var r := GeneratorRecipe(g, fuel, item);
            && fuel.fuelClass in r.ingredients.entries
            && (!g.requiresSupplementalResource || fuel.supplementalResourceClass != fuel.fuelClass ==>
                  r.ingredients.entries[fuel.fuelClass] == 1.0)
            && (g.requiresSupplementalResource ==>
                  r.ingredients.entries[fuel.supplementalResourceClass] == SupplementalAmount(g, cycleTime) as real)
            && (!g.requiresSupplementalResource ==> r.ingredients.keys == [fuel.fuelClass])
            && (fuel.byproduct != "" <==> r.products.keys != [])
            && (fuel.byproduct != "" ==> r.products.entries == map[fuel.byproduct := fuel.byproductAmount as real])
            && r.Valid()
  {
  }

  lemma CycleTimeTimesPower(energy: real, power: real)
    requires power != 0.0
    ensures energy / power * power == energy
  {
  }

  lemma SupplementalOfEnergy(energy: real, power: real, ratio: real)
    requires power != 0.0
    ensures power * ratio * (energy / power) == ratio * energy
  {
    var cycleTime := energy / power;
    CycleTimeTimesPower(energy, power);
    assert power * ratio * cycleTime == ratio * (cycleTime * power);
  }

  /** Every recipe the generator step adds is the recipe of some fuel of
      some listed generator. */
  lemma GeneratorProxiesAreRecipes(data: map<string, seq<Generator>>, items: Dict<Item>)
    ensures forall e :: e in GeneratorProxies(data, items).added ==> e.RecipeEntity? && e.recipe.Valid()
  {
    var P := (e: Entity) => e.RecipeEntity? && e.recipe.ingredients.Valid() && e.recipe.products.Valid();
    forall d | d in Config.CURATOR_NATIVE_CLASSNAME_LIST_GENERATOR
      ensures forall e :: e in GeneratorClass(data, items, d).added ==> P(e)
    {
      if d in data {
        forall g | g in data[d]
          ensures forall e :: e in GeneratorOf(items, g).added ==> P(e)
        {
          forall fuel | fuel in g.fuels
            ensures forall e :: e in GeneratorFuel(items, g, fuel).added ==> P(e)
          {
            if fuel.fuelClass in items.entries && g.powerProduction != 0.0 {
              GeneratorRecipeMeaning(g, fuel, items.entries[fuel.fuelClass]);
            }
          }
          ForEachAll(g.fuels, GeneratorFuelStep(items, g), P);
        }
        ForEachAll(data[d], GeneratorStep(items), P);
      }
    }
    ForEachAll(Config.CURATOR_NATIVE_CLASSNAME_LIST_GENERATOR, GeneratorClassStep(data, items), P);
  }

  method AddGeneratorFuelRecipes(ds: RecipeDataset, g: Generator) returns (r: Result<()>)
    requires ds.Valid()
    modifies ds
    ensures ds.Valid() && ds.items == old(ds.items) && ds.buildings == old(ds.buildings)
    ensures Did(old(ds.Contents()), GeneratorOf(old(ds.items), g), ds.Contents(), r)
  {
    ghost var c0 := ds.Contents();
    ghost var done: seq<Entity> := [];
    ghost var step := GeneratorFuelStep(ds.items, g);
    var powerProd := g.powerProduction;
    for i := 0 to |g.fuels|
      invariant ds.Valid() && ds.items == c0.items && ds.buildings == c0.buildings
      invariant ds.Contents() == AddAll(c0, done)
      invariant ForEach(g.fuels[..i], step) == Adds(done)
    {
      var fuel := g.fuels[i];
      if fuel.fuelClass !in ds.items.entries {
        r := Err(KeyError(fuel.fuelClass));
        LoopStops(c0, g.fuels, i, step, done, ds.Contents(), r);
        return;
      }
      if powerProd == 0.0 {
        r := Err(ZeroDivisionError);
        LoopStops(c0, g.fuels, i, step, done, ds.Contents(), r);
        return;
      }
      var recipe := GeneratorRecipe(g, fuel, ds.items.entries[fuel.fuelClass]);
      var _ := ds.Add(RecipeEntity(recipe));
      LoopAddsOne(c0, g.fuels, i, step, done, RecipeEntity(recipe));
      done := done + [RecipeEntity(recipe)];
    }
    r := Ok(());
    LoopEnds(c0, g.fuels, step, done, ds.Contents());
  }

  method AddGeneratorsOf(ds: RecipeDataset, gens: seq<Generator>) returns (r: Result<()>)
    requires ds.Valid()
    modifies ds
    ensures ds.Valid() && ds.items == old(ds.items) && ds.buildings == old(ds.buildings)
    ensures Did(old(ds.Contents()), ForEach(gens, GeneratorStep(old(ds.items))), ds.Contents(), r)
  {
    ghost var c0 := ds.Contents();
    ghost var done: seq<Entity> := [];
    ghost var step := GeneratorStep(ds.items);
    for i := 0 to |gens|
      invariant ds.Valid() && ds.items == c0.items && ds.buildings == c0.buildings
      invariant ds.Contents() == AddAll(c0, done)
      invariant ForEach(gens[..i], step) == Adds(done)
    {
      r := AddGeneratorFuelRecipes(ds, gens[i]);
      if r.Err? {
        LoopStops(c0, gens, i, step, done, ds.Contents(), r);
        return;
      }
      LoopGoesOn(c0, gens, i, step, done, ds.Contents(), r);
      done := done + step(gens[i]).added;
    }
    r := Ok(());
    LoopEnds(c0, gens, step, done, ds.Contents());
  }

  /** `_add_generator_proxy_recipes`: every generator of every listed
      native class, every fuel it burns. */
  method AddGeneratorProxyRecipes(ds: RecipeDataset, data: map<string, seq<Generator>>) returns (r: Result<()>)
    requires ds.Valid()
    modifies ds
    ensures ds.Valid() && ds.items == old(ds.items) && ds.buildings == old(ds.buildings)
    ensures Did(old(ds.Contents()), GeneratorProxies(data, old(ds.items)), ds.Contents(), r)
  {
    r := AddGeneratorClassRecipes(ds, data, Config.CURATOR_NATIVE_CLASSNAME_LIST_GENERATOR);
  }

  method AddGeneratorClassRecipes(ds: RecipeDataset, data: map<string, seq<Generator>>, classes: seq<string>)
    returns (r: Result<()>)
    requires ds.Valid()
    modifies ds
    ensures ds.Valid() && ds.items == old(ds.items) && ds.buildings == old(ds.buildings)
    ensures Did(old(ds.Contents()), ForEach(classes, GeneratorClassStep(data, old(ds.items))), ds.Contents(), r)
  {
    ghost var c0 := ds.Contents();
    ghost var done: seq<Entity> := [];
    ghost var step := GeneratorClassStep(data, ds.items);
    for i := 0 to |classes|
      invariant ds.Valid() && ds.items == c0.items && ds.buildings == c0.buildings
      invariant ds.Contents() == AddAll(c0, done)
      invariant ForEach(classes[..i], step) == Adds(done)
    {
      var d := classes[i];
      if d !in data {
        r := Err(KeyError(d));
        LoopStops(c0, classes, i, step, done, ds.Contents(), r);
        return;
      }
      r := AddGeneratorsOf(ds, data[d]);
      if r.Err? {
        LoopStops(c0, classes, i, step, done, ds.Contents(), r);
        return;
      }
      LoopGoesOn(c0, classes, i, step, done, ds.Contents(), r);
      done := done + step(classes[i]).added;
    }
    r := Ok(());
    LoopEnds(c0, classes, step, done, ds.Contents());
  }

  // ----- Resource nodes -----

  /** The recipe for extractor `extractor` on the `count` nodes of `item`
      at one purity. */
  function NodeRecipe(extractor: Building, item: Item, purity: Config.PurityConfig, count: int): Recipe {
    Recipe("ResourceNode-" + extractor.classname + "-" + item.classname + "-" + purity.labelName,
           extractor.displayName + " (" + item.displayName + ", " + purity.labelName + ")",
           Empty(), Empty<real>().Set(item.classname, extractor.itemsPerCycle as real * purity.multiplier),
           extractor.extractCycleTime, [extractor.classname], globalLimit := count, isResourceProxy := true)
  }

  /** One purity level: a KeyError for an unknown purity, nothing for a
      count of zero or less, else one recipe. */
  function NodePurity(extractor: Building, item: Item, entry: (string, int)): Attempt {
    match Config.Lookup(Config.RESOURCE_NODE_PURITY_CONFIG, entry.0)
    case None => Fail(KeyError(entry.0))
    case Some(p) => if entry.1 <= 0 then Adds([]) else Adds([RecipeEntity(NodeRecipe(extractor, item, p, entry.1))])
  }

  function NodePurityStep(extractor: Building, item: Item): ((string, int)) -> Attempt {
    entry => NodePurity(extractor, item, entry)
  }

  /** One extractor of one resource, looked up among the dataset's
      buildings. */
  function NodeExtractor(buildings: map<string, Building>, item: Item, counts: seq<(string, int)>, b: string)
    : Attempt
  {
    if b !in buildings then Fail(KeyError(b))
    else ForEach(counts, NodePurityStep(buildings[b], item))
  }

  function NodeExtractorStep(buildings: map<string, Building>, item: Item, counts: seq<(string, int)>)
    : string -> Attempt
  {
    b => NodeExtractor(buildings, item, counts, b)
  }

  /** One configured resource, looked up among the dataset's items, with
      the extractors configured for it. */
  function NodeItem(items: map<string, Item>, buildings: map<string, Building>,
                    entry: (string, seq<(string, int)>)): Attempt
  {
    if entry.0 !in items then Fail(KeyError(entry.0))
    else
      match Config.Lookup(Config.RESOURCE_NODE_EXTRACTOR_CONFIG, entry.0)
      case None => Fail(KeyError(entry.0))
      case Some(extractors) => ForEach(extractors, NodeExtractorStep(buildings, items[entry.0], entry.1))
  }

  function NodeItemStep(items: map<string, Item>, buildings: map<string, Building>)
    : ((string, seq<(string, int)>)) -> Attempt
  {
    entry => NodeItem(items, buildings, entry)
  }

  /** `_add_resource_node_proxy_recipes`. */
  function NodeProxies(c: Catalogue): Attempt {
    ForEach(Config.RESOURCE_NODE_CONFIG, NodeItemStep(c.items.entries, c.buildings.entries))
  }

  /** How many purity levels have a positive count. */
  function PositiveCounts(counts: seq<(string, int)>): nat {
    if |counts| == 0 then 0
    else PositiveCounts(counts[..|counts| - 1]) + (if counts[|counts| - 1].1 > 0 then 1 else 0)
  }

  /** `e` is the recipe of the purity level `entry`: a known purity with a
      positive count. */
  ghost predicate NodeRecipeOf(extractor: Building, item: Item, entry: (string, int), e: Entity) {
    var p := Config.Lookup(Config.RESOURCE_NODE_PURITY_CONFIG, entry.0);
    p.Some? && entry.1 > 0 && e == RecipeEntity(NodeRecipe(extractor, item, p.value, entry.1))
  }

  /** Every purity level of `counts` is a configured purity. */
  ghost predicate KnownPurities(counts: seq<(string, int)>) {
    forall k :: 0 <= k < |counts| ==> Config.Lookup(Config.RESOURCE_NODE_PURITY_CONFIG, counts[k].0).Some?
  }

  lemma KnownPuritiesStep(counts: seq<(string, int)>)
    requires |counts| > 0
    ensures KnownPurities(counts) <==>
              KnownPurities(counts[..|counts| - 1]) &&
              Config.Lookup(Config.RESOURCE_NODE_PURITY_CONFIG, counts[|counts| - 1].0).Some?
  {
    var n := |counts| - 1;
    assert forall k :: 0 <= k < n ==> counts[..n][k] == counts[k];
  }

  /** For one extractor, the purity loop fails exactly on an unknown purity. */
  lemma {:induction false} NodePurityFails(extractor: Building, item: Item, counts: seq<(string, int)>)
    ensures ForEach(counts, NodePurityStep(extractor, item)).failure.None? <==> KnownPurities(counts)
  {
    if |counts| > 0 {
      NodePurityFails(extractor, item, counts[..|counts| - 1]);
      KnownPuritiesStep(counts);
    }
  }

  /** A purity loop that did not fail added one recipe per purity with a
      positive count: zero counts add nothing. */
  lemma {:induction false} NodePurityCount(extractor: Building, item: Item, counts: seq<(string, int)>)
    ensures var a := ForEach(counts, NodePurityStep(extractor, item));
            a.failure.None? ==> |a.added| == PositiveCounts(counts)
  {
    if |counts| > 0 {
      NodePurityCount(extractor, item, counts[..|counts| - 1]);
    }
  }

  /** Each recipe the purity loop adds is the recipe of one of its purity
      levels: a resource proxy limited to that many nodes, producing the
      extractor's items per cycle times the purity multiplier of `item`. */
  lemma {:induction false} NodePurityRecipes(extractor: Building, item: Item, counts: seq<(string, int)>)
    ensures forall e :: e in ForEach(counts, NodePurityStep(extractor, item)).added ==>
              exists k :: 0 <= k < |counts| && NodeRecipeOf(extractor, item, counts[k], e)
  {
    if |counts| > 0 {
      var n := |counts| - 1;
      NodePurityRecipes(extractor, item, counts[..n]);
      assert forall k :: 0 <= k < n ==> counts[..n][k] == counts[k];
    }
  }

  /** The recipe of a purity level is a resource proxy limited to a
      positive number of nodes, producing exactly `item`. */
  lemma NodeRecipeShape(extractor: Building, item: Item, entry: (string, int), e: Entity)
    requires NodeRecipeOf(extractor, item, entry, e)
    ensures IsResourceProxy(e) && e.recipe.globalLimit == entry.1 > 0
    ensures e.recipe.products.keys == [item.classname]
    ensures e.recipe.products.entries[item.classname] ==
              extractor.itemsPerCycle as real *
              Config.Lookup(Config.RESOURCE_NODE_PURITY_CONFIG, entry.0).value.multiplier
  {
  }

  /** Every recipe the node step adds is a resource proxy limited to a
      positive number of nodes, producing exactly one item. */
  lemma NodeProxiesShape(c: Catalogue)
    ensures forall e :: e in NodeProxies(c).added ==>
              IsResourceProxy(e) && e.recipe.globalLimit > 0 && |e.recipe.products.keys| == 1
  {
    var P := (e: Entity) => IsResourceProxy(e) && e.recipe.globalLimit > 0 && |e.recipe.products.keys| == 1;
    forall entry | entry in Config.RESOURCE_NODE_CONFIG
      ensures forall e :: e in NodeItem(c.items.entries, c.buildings.entries, entry).added ==> P(e)
    {
      if entry.0 in c.items.entries {
        var extractors := Config.Lookup(Config.RESOURCE_NODE_EXTRACTOR_CONFIG, entry.0);
        if extractors.Some? {
          var item := c.items.entries[entry.0];
          forall b | b in extractors.value
            ensures forall e :: e in NodeExtractor(c.buildings.entries, item, entry.1, b).added ==> P(e)
          {
            if b in c.buildings.entries {
              var extractor := c.buildings.entries[b];
              NodePurityRecipes(extractor, item, entry.1);
              forall e | e in NodeExtractor(c.buildings.entries, item, entry.1, b).added ensures P(e) {
                var k :| 0 <= k < |entry.1| && NodeRecipeOf(extractor, item, entry.1[k], e);
                NodeRecipeShape(extractor, item, entry.1[k], e);
              }
            }
          }
          ForEachAll(extractors.value, NodeExtractorStep(c.buildings.entries, item, entry.1), P);
        }
      }
    }
    ForEachAll(Config.RESOURCE_NODE_CONFIG, NodeItemStep(c.items.entries, c.buildings.entries), P);
  }

  method AddNodePurityRecipes(ds: RecipeDataset, extractor: Building, item: Item, counts: seq<(string, int)>)
    returns (r: Result<()>)
    requires ds.Valid()
    modifies ds
    ensures ds.Valid() && ds.items == old(ds.items) && ds.buildings == old(ds.buildings)
    ensures Did(old(ds.Contents()), ForEach(counts, NodePurityStep(extractor, item)), ds.Contents(), r)
  {
    ghost var c0 := ds.Contents();
    ghost var done: seq<Entity> := [];
    ghost var step := NodePurityStep(extractor, item);
    for i := 0 to |counts|
      invariant ds.Valid() && ds.items == c0.items && ds.buildings == c0.buildings
      invariant ds.Contents() == AddAll(c0, done)
      invariant ForEach(counts[..i], step) == Adds(done)
    {
      var (purity, count) := counts[i];
      var purityConfig := Config.Lookup(Config.RESOURCE_NODE_PURITY_CONFIG, purity);
      if purityConfig.None? {
        r := Err(KeyError(purity));
        LoopStops(c0, counts, i, step, done, ds.Contents(), r);
        return;
      }
      if count <= 0 {
        LoopSkips(counts, i, step, done);
        continue;
      }
      var recipe := NodeRecipe(extractor, item, purityConfig.value, count);
      var _ := ds.Add(RecipeEntity(recipe));
      LoopAddsOne(c0, counts, i, step, done, RecipeEntity(recipe));
      done := done + [RecipeEntity(recipe)];
    }
    r := Ok(());
    LoopEnds(c0, counts, step, done, ds.Contents());
  }

  method AddNodeExtractorRecipes(ds: RecipeDataset, item: Item, counts: seq<(string, int)>, extractors: seq<string>)
    returns (r: Result<()>)
    requires ds.Valid()
    modifies ds
    ensures ds.Valid() && ds.items == old(ds.items) && ds.buildings == old(ds.buildings)
    ensures Did(old(ds.Contents()), ForEach(extractors, NodeExtractorStep(old(ds.buildings.entries), item, counts)),
                ds.Contents(), r)
  {
    ghost var c0 := ds.Contents();
    ghost var done: seq<Entity> := [];
    ghost var step := NodeExtractorStep(ds.buildings.entries, item, counts);
    for i := 0 to |extractors|
      invariant ds.Valid() && ds.items == c0.items && ds.buildings == c0.buildings
      invariant ds.Contents() == AddAll(c0, done)
      invariant ForEach(extractors[..i], step) == Adds(done)
    {
      var b := extractors[i];
      if b !in ds.buildings.entries {
        r := Err(KeyError(b));
        LoopStops(c0, extractors, i, step, done, ds.Contents(), r);
        return;
      }
      var extractor := ds.buildings.entries[b];
      r := AddNodePurityRecipes(ds, extractor, item, counts);
      if r.Err? {
        LoopStops(c0, extractors, i, step, done, ds.Contents(), r);
        return;
      }
      LoopGoesOn(c0, extractors, i, step, done, ds.Contents(), r);
      done := done + step(extractors[i]).added;
    }
    r := Ok(());
    LoopEnds(c0, extractors, step, done, ds.Contents());
  }

  /** `_add_resource_node_proxy_recipes`: every configured resource, every
      extractor configured for it, every purity level. */
  method AddResourceNodeProxyRecipes(ds: RecipeDataset) returns (r: Result<()>)
    requires ds.Valid()
    modifies ds
    ensures ds.Valid() && ds.items == old(ds.items) && ds.buildings == old(ds.buildings)
    ensures Did(old(ds.Contents()), NodeProxies(old(ds.Contents())), ds.Contents(), r)
  {
    r := AddNodeItemRecipes(ds, Config.RESOURCE_NODE_CONFIG);
  }

  method AddNodeItemRecipes(ds: RecipeDataset, table: seq<(string, seq<(string, int)>)>) returns (r: Result<()>)
    requires ds.Valid()
    modifies ds
    ensures ds.Valid() && ds.items == old(ds.items) && ds.buildings == old(ds.buildings)
    ensures Did(old(ds.Contents()), ForEach(table, NodeItemStep(old(ds.items.entries), old(ds.buildings.entries))),
                ds.Contents(), r)
  {
    ghost var c0 := ds.Contents();
    ghost var done: seq<Entity> := [];
    ghost var step := NodeItemStep(ds.items.entries, ds.buildings.entries);
    for i := 0 to |table|
      invariant ds.Valid() && ds.items == c0.items && ds.buildings == c0.buildings
      invariant ds.Contents() == AddAll(c0, done)
      invariant ForEach(table[..i], step) == Adds(done)
    {
      var (itemclass, purityCounts) := table[i];
      if itemclass !in ds.items.entries {
        r := Err(KeyError(itemclass));
        LoopStops(c0, table, i, step, done, ds.Contents(), r);
        return;
      }
      var item := ds.items.entries[itemclass];
      var extractors := Config.Lookup(Config.RESOURCE_NODE_EXTRACTOR_CONFIG, itemclass);
      if extractors.None? {
        r := Err(KeyError(itemclass));
        LoopStops(c0, table, i, step, done, ds.Contents(), r);
        return;
      }
      r := AddNodeExtractorRecipes(ds, item, purityCounts, extractors.value);
      if r.Err? {
        LoopStops(c0, table, i, step, done, ds.Contents(), r);
        return;
      }
      LoopGoesOn(c0, table, i, step, done, ds.Contents(), r);
      done := done + step(table[i]).added;
    }
    r := Ok(());
    LoopEnds(c0, table, step, done, ds.Contents());
  }

  // ----- Resource wells -----

  /** The recipe for activator `activator` on the well cluster of `item`
      at `location`, extracting `rate`: one cycle per second, one cluster. */
  function WellRecipe(activator: Building, item: Item, location: string, rate: real): Recipe {
    Recipe("ResourceWell-" + activator.classname + "-" + item.classname + "-" + location,
           activator.displayName + " (" + item.displayName + ", " + location + ")",
           Empty(), Empty<real>().Set(item.classname, rate),
           1.0, [activator.classname], globalLimit := 1, isResourceProxy := true)
  }

  function WellLocationStep(activator: Building, item: Item): ((string, real)) -> Attempt {
    (cluster: (string, real)) => Adds([RecipeEntity(WellRecipe(activator, item, cluster.0, cluster.1))])
  }

  function WellActivator(buildings: map<string, Building>, item: Item, clusters: seq<(string, real)>, b: string)
    : Attempt
  {
    if b !in buildings then Fail(KeyError(b))
    else ForEach(clusters, WellLocationStep(buildings[b], item))
  }

  function WellActivatorStep(buildings: map<string, Building>, item: Item, clusters: seq<(string, real)>)
    : string -> Attempt
  {
    b => WellActivator(buildings, item, clusters, b)
  }

  function WellItem(items: map<string, Item>, buildings: map<string, Building>,
                    entry: (string, seq<(string, real)>)): Attempt
  {
    if entry.0 !in items then Fail(KeyError(entry.0))
    else ForEach(Config.RESOURCE_WELL_ACTIVATOR_LIST, WellActivatorStep(buildings, items[entry.0], entry.1))
  }

  function WellItemStep(items: map<string, Item>, buildings: map<string, Building>)
    : ((string, seq<(string, real)>)) -> Attempt
  {
    entry => WellItem(items, buildings, entry)
  }

  /** `_add_resource_well_proxy_recipes`. */
  function WellProxies(c: Catalogue): Attempt {
    ForEach(Config.RESOURCE_WELL_CONFIG, WellItemStep(c.items.entries, c.buildings.entries))
  }

  /** For one activator, the location loop never fails and adds exactly one
      recipe per cluster, in order: a resource proxy of one cycle per
      second, limited to one, producing the cluster's rate of `item`. */
  lemma WellLocationsMeaning(activator: Building, item: Item, clusters: seq<(string, real)>)
    ensures var a := ForEach(clusters, WellLocationStep(activator, item));
            && a.failure.None? && |a.added| == |clusters|
            && forall k :: 0 <= k < |clusters| ==>
                 && IsResourceProxy(a.added[k])
                 && a.added[k].recipe == WellRecipe(activator, item, clusters[k].0, clusters[k].1)
                 && a.added[k].recipe.globalLimit == 1 && a.added[k].recipe.manufacturingDuration == 1.0
                 && a.added[k].recipe.products.entries == map[item.classname := clusters[k].1]
  {
    var a := ForEach(clusters, WellLocationStep(activator, item));
    WellLocationsAdded(activator, item, clusters);
    forall k | 0 <= k < |clusters|
      ensures IsResourceProxy(a.added[k])
      ensures a.added[k].recipe.globalLimit == 1 && a.added[k].recipe.manufacturingDuration == 1.0
      ensures a.added[k].recipe.products.entries == map[item.classname := clusters[k].1]
    {
      WellRecipeShape(activator, item, clusters[k].0, clusters[k].1);
    }
  }

  /** The location loop adds the recipe of each cluster, in order. */
  lemma WellLocationsAdded(activator: Building, item: Item, clusters: seq<(string, real)>)
    ensures var a := ForEach(clusters, WellLocationStep(activator, item));
            && a.failure.None? && |a.added| == |clusters|
            && forall k :: 0 <= k < |clusters| ==>
                 a.added[k] == RecipeEntity(WellRecipe(activator, item, clusters[k].0, clusters[k].1))
  {
    ForEachOne(clusters, WellLocationStep(activator, item),
               (cluster: (string, real)) => RecipeEntity(WellRecipe(activator, item, cluster.0, cluster.1)));
  }

  /** A well recipe is a resource proxy of one cycle per second, limited to
      one, producing `rate` of the item. */
  lemma WellRecipeShape(activator: Building, item: Item, location: string, rate: real)
    ensures var r := WellRecipe(activator, item, location, rate);
            && IsResourceProxy(RecipeEntity(r))
            && r.globalLimit == 1 && r.manufacturingDuration == 1.0
            && r.products.entries == map[item.classname := rate]
  {
  }

  /** Every recipe the well step adds is a resource proxy limited to one
      cluster, of one cycle per second. */
  lemma WellProxiesShape(c: Catalogue)
    ensures forall e :: e in WellProxies(c).added ==>
              IsResourceProxy(e) && e.recipe.globalLimit == 1 && e.recipe.manufacturingDuration == 1.0
  {
    var P := (e: Entity) => IsResourceProxy(e) && e.recipe.globalLimit == 1 && e.recipe.manufacturingDuration == 1.0;
    forall entry | entry in Config.RESOURCE_WELL_CONFIG
      ensures forall e :: e in WellItem(c.items.entries, c.buildings.entries, entry).added ==> P(e)
    {
      if entry.0 in c.items.entries {
        var item := c.items.entries[entry.0];
        forall b | b in Config.RESOURCE_WELL_ACTIVATOR_LIST
          ensures forall e :: e in WellActivator(c.buildings.entries, item, entry.1, b).added ==> P(e)
        {
          if b in c.buildings.entries {
            var a := ForEach(entry.1, WellLocationStep(c.buildings.entries[b], item));
            WellLocationsMeaning(c.buildings.entries[b], item, entry.1);
            forall e | e in a.added ensures P(e) {
              var k :| 0 <= k < |a.added| && a.added[k] == e;
            }
          }
        }
        ForEachAll(Config.RESOURCE_WELL_ACTIVATOR_LIST, WellActivatorStep(c.buildings.entries, item, entry.1), P);
      }
    }
    ForEachAll(Config.RESOURCE_WELL_CONFIG, WellItemStep(c.items.entries, c.buildings.entries), P);
  }

  method AddWellLocationRecipes(ds: RecipeDataset, activator: Building, item: Item, clusters: seq<(string, real)>)
    requires ds.Valid()
    modifies ds
    ensures ds.Valid() && ds.items == old(ds.items) && ds.buildings == old(ds.buildings)
    ensures Did(old(ds.Contents()), ForEach(clusters, WellLocationStep(activator, item)), ds.Contents(), Ok(()))
  {
    ghost var c0 := ds.Contents();
    ghost var done: seq<Entity> := [];
    ghost var step := WellLocationStep(activator, item);
    for i := 0 to |clusters|
      invariant ds.Valid() && ds.items == c0.items && ds.buildings == c0.buildings
      invariant ds.Contents() == AddAll(c0, done)
      invariant ForEach(clusters[..i], step) == Adds(done)
    {
      var (location, clusterSumRate) := clusters[i];
      var recipe := WellRecipe(activator, item, location, clusterSumRate);
      var _ := ds.Add(RecipeEntity(recipe));
      LoopAddsOne(c0, clusters, i, step, done, RecipeEntity(recipe));
      done := done + [RecipeEntity(recipe)];
    }
    LoopEnds(c0, clusters, step, done, ds.Contents());
  }

  method AddWellActivatorRecipes(ds: RecipeDataset, item: Item, clusters: seq<(string, real)>, activators: seq<string>)
    returns (r: Result<()>)
    requires ds.Valid()
    modifies ds
    ensures ds.Valid() && ds.items == old(ds.items) && ds.buildings == old(ds.buildings)
    ensures Did(old(ds.Contents()), ForEach(activators, WellActivatorStep(old(ds.buildings.entries), item, clusters)),
                ds.Contents(), r)
  {
    ghost var c0 := ds.Contents();
    ghost var done: seq<Entity> := [];
    ghost var step := WellActivatorStep(ds.buildings.entries, item, clusters);
    for i := 0 to |activators|
      invariant ds.Valid() && ds.items == c0.items && ds.buildings == c0.buildings
      invariant ds.Contents() == AddAll(c0, done)
      invariant ForEach(activators[..i], step) == Adds(done)
    {
      var b := activators[i];
      if b !in ds.buildings.entries {
        r := Err(KeyError(b));
        LoopStops(c0, activators, i, step, done, ds.Contents(), r);
        return;
      }
      var activator := ds.buildings.entries[b];
      AddWellLocationRecipes(ds, activator, item, clusters);
      LoopGoesOn(c0, activators, i, step, done, ds.Contents(), Ok(()));
      done := done + step(activators[i]).added;
    }
    r := Ok(());
    LoopEnds(c0, activators, step, done, ds.Contents());
  }

  /** `_add_resource_well_proxy_recipes`: every configured resource, every
      activator, every cluster location. */
  method AddResourceWellProxyRecipes(ds: RecipeDataset) returns (r: Result<()>)
    requires ds.Valid()
    modifies ds
    ensures ds.Valid() && ds.items == old(ds.items) && ds.buildings == old(ds.buildings)
    ensures Did(old(ds.Contents()), WellProxies(old(ds.Contents())), ds.Contents(), r)
  {
    r := AddWellItemRecipes(ds, Config.RESOURCE_WELL_CONFIG);
  }

  method AddWellItemRecipes(ds: RecipeDataset, table: seq<(string, seq<(string, real)>)>) returns (r: Result<()>)
    requires ds.Valid()
    modifies ds
    ensures ds.Valid() && ds.items == old(ds.items) && ds.buildings == old(ds.buildings)
    ensures Did(old(ds.Contents()), ForEach(table, WellItemStep(old(ds.items.entries), old(ds.buildings.entries))),
                ds.Contents(), r)
  {
    ghost var c0 := ds.Contents();
    ghost var done: seq<Entity> := [];
    ghost var step := WellItemStep(ds.items.entries, ds.buildings.entries);
    for i := 0 to |table|
      invariant ds.Valid() && ds.items == c0.items && ds.buildings == c0.buildings
      invariant ds.Contents() == AddAll(c0, done)
      invariant ForEach(table[..i], step) == Adds(done)
    {
      var (itemclass, wellClusters) := table[i];
      if itemclass !in ds.items.entries {
        r := Err(KeyError(itemclass));
        LoopStops(c0, table, i, step, done, ds.Contents(), r);
        return;
      }
      var item := ds.items.entries[itemclass];
      r := AddWellActivatorRecipes(ds, item, wellClusters, Config.RESOURCE_WELL_ACTIVATOR_LIST);
      if r.Err? {
        LoopStops(c0, table, i, step, done, ds.Contents(), r);
        return;
      }
      LoopGoesOn(c0, table, i, step, done, ds.Contents(), r);
      done := done + step(table[i]).added;
    }
    r := Ok(());
    LoopEnds(c0, table, step, done, ds.Contents());
  }

  // ----- Unrestrained sources -----

  /** The recipe for extractor `extractor` on an unrestrained source of
      `item`: no global limit (-1). */
  function UnrestrainedRecipe(extractor: Building, item: Item): Recipe {
    Recipe("ResourceMisc-" + extractor.classname + "-" + item.classname,
           extractor.displayName + " (" + item.displayName + ")",
           Empty(), Empty<real>().Set(item.classname, extractor.itemsPerCycle as real),
           extractor.extractCycleTime, [extractor.classname], isResourceProxy := true)
  }

  function UnrestrainedBuilding(buildings: map<string, Building>, item: Item, b: string): Attempt {
    if b !in buildings then Fail(KeyError(b))
    else Adds([RecipeEntity(UnrestrainedRecipe(buildings[b], item))])
  }

  function UnrestrainedBuildingStep(buildings: map<string, Building>, item: Item): string -> Attempt {
    b => UnrestrainedBuilding(buildings, item, b)
  }

  function UnrestrainedItem(items: map<string, Item>, buildings: map<string, Building>,
                            entry: (string, seq<string>)): Attempt
  {
    if entry.0 !in items then Fail(KeyError(entry.0))
    else ForEach(entry.1, UnrestrainedBuildingStep(buildings, items[entry.0]))
  }

  function UnrestrainedItemStep(items: map<string, Item>, buildings: map<string, Building>)
    : ((string, seq<string>)) -> Attempt
  {
    entry => UnrestrainedItem(items, buildings, entry)
  }

  /** `_add_unrestrained_resource_proxy_recipes`. */
  function UnrestrainedProxies(c: Catalogue): Attempt {
    ForEach(Config.UNRESTRAINED_RESOURCE_CONFIG, UnrestrainedItemStep(c.items.entries, c.buildings.entries))
  }

  /** Every recipe the unrestrained step adds is a resource proxy with the
      default, unlimited global limit. */
  lemma UnrestrainedProxiesUnlimited(c: Catalogue)
    ensures forall e :: e in UnrestrainedProxies(c).added ==> IsResourceProxy(e) && e.recipe.globalLimit == -1
  {
    var P := (e: Entity) => IsResourceProxy(e) && e.recipe.globalLimit == -1;
    forall entry | entry in Config.UNRESTRAINED_RESOURCE_CONFIG
      ensures forall e :: e in UnrestrainedItem(c.items.entries, c.buildings.entries, entry).added ==> P(e)
    {
      if entry.0 in c.items.entries {
        ForEachAll(entry.1, UnrestrainedBuildingStep(c.buildings.entries, c.items.entries[entry.0]), P);
      }
    }
    ForEachAll(Config.UNRESTRAINED_RESOURCE_CONFIG, UnrestrainedItemStep(c.items.entries, c.buildings.entries), P);
  }

  /** An unrestrained recipe is a resource proxy without ingredients and
      without a global limit, run by its extractor only, that yields the
      extractor's items per cycle of `item` every extraction cycle. */
  lemma UnrestrainedRecipeShape(extractor: Building, item: Item)
    ensures var r := UnrestrainedRecipe(extractor, item);
            && IsResourceProxy(RecipeEntity(r)) && r.globalLimit == -1
            && r.ingredients == Empty()
            && r.products.keys == [item.classname]
            && r.products.entries == map[item.classname := extractor.itemsPerCycle as real]
            && r.manufacturingDuration == extractor.extractCycleTime
            && r.producedIn == [extractor.classname]
  {
  }

  /** The extractor loop of one unrestrained source stops, with a
      KeyError, exactly at an extractor that is not a building. */
  lemma {:induction false} UnrestrainedBuildingsFail(buildings: map<string, Building>, item: Item,
                                                     bs: seq<string>)
    ensures var a := ForEach(bs, UnrestrainedBuildingStep(buildings, item));
            && (a.failure.None? <==> forall b :: b in bs ==> b in buildings)
            && (a.failure.Some? ==> a.failure.value.KeyError?)
  {
    if |bs| > 0 {
      var n := |bs| - 1;
      UnrestrainedBuildingsFail(buildings, item, bs[..n]);
      assert forall b :: b in bs <==> b in bs[..n] || b == bs[n];
    }
  }

  /** With every extractor a building, the loop adds one recipe per
      extractor, in order. */
  lemma {:induction false} UnrestrainedBuildingsAdd(buildings: map<string, Building>, item: Item,
                                                    bs: seq<string>)
    requires forall b :: b in bs ==> b in buildings
    ensures var a := ForEach(bs, UnrestrainedBuildingStep(buildings, item));
            && a.failure.None? && |a.added| == |bs|
            && forall k :: 0 <= k < |bs| ==>
                 a.added[k] == RecipeEntity(UnrestrainedRecipe(buildings[bs[k]], item))
  {
    if |bs| > 0 {
      var n := |bs| - 1;
      assert forall b :: b in bs[..n] ==> b in bs;
      var step := UnrestrainedBuildingStep(buildings, item);
      UnrestrainedBuildingsAdd(buildings, item, bs[..n]);
      var a0 := ForEach(bs[..n], step);
      assert bs[n] in bs;
      var last := RecipeEntity(UnrestrainedRecipe(buildings[bs[n]], item));
      assert step(bs[n]) == Adds([last]);
      assert ForEach(bs, step) == Attempt(a0.added + [last], None);
      forall k | 0 <= k < |bs|
        ensures ForEach(bs, step).added[k] == RecipeEntity(UnrestrainedRecipe(buildings[bs[k]], item))
      {
        if k < n {
          assert bs[..n][k] == bs[k];
        }
      }
    }
  }

  /** Every configured source is an item and each of its extractors a building. */
  ghost predicate UnrestrainedKnown(table: seq<(string, seq<string>)>, items: map<string, Item>,
                                    buildings: map<string, Building>)
  {
    forall k :: 0 <= k < |table| ==> table[k].0 in items && forall b :: b in table[k].1 ==> b in buildings
  }

  /** The number of (source, extractor) pairs configured. */
  function ExtractorCount(table: seq<(string, seq<string>)>): nat {
    if |table| == 0 then 0 else ExtractorCount(table[..|table| - 1]) + |table[|table| - 1].1|
  }

  lemma UnrestrainedKnownStep(table: seq<(string, seq<string>)>, items: map<string, Item>,
                              buildings: map<string, Building>)
    requires |table| > 0
    ensures var n := |table| - 1;
            UnrestrainedKnown(table, items, buildings) <==>
              && UnrestrainedKnown(table[..n], items, buildings)
              && table[n].0 in items && forall b :: b in table[n].1 ==> b in buildings
  {
    var n := |table| - 1;
    assert forall k :: 0 <= k < n ==> table[..n][k] == table[k];
  }

  /** The source loop stops, with a KeyError, exactly when a configured
      source or extractor is unknown. */
  lemma {:induction false} UnrestrainedItemsFail(items: map<string, Item>, buildings: map<string, Building>,
                                                 table: seq<(string, seq<string>)>)
    ensures var a := ForEach(table, UnrestrainedItemStep(items, buildings));
            && (a.failure.None? <==> UnrestrainedKnown(table, items, buildings))
            && (a.failure.Some? ==> a.failure.value.KeyError?)
  {
    if |table| > 0 {
      var n := |table| - 1;
      var init := table[..n];
      var step := UnrestrainedItemStep(items, buildings);
      UnrestrainedItemsFail(items, buildings, init);
      UnrestrainedKnownStep(table, items, buildings);
      assert ForEach(table, step) == Then(ForEach(init, step), UnrestrainedItem(items, buildings, table[n]));
      if ForEach(init, step).failure.None? && table[n].0 in items {
        UnrestrainedBuildingsFail(buildings, items[table[n].0], table[n].1);
      }
    }
  }

  /** A source loop that does not fail adds one recipe per configured
      (source, extractor) pair. */
  lemma {:induction false} UnrestrainedItemsCount(items: map<string, Item>, buildings: map<string, Building>,
                                                  table: seq<(string, seq<string>)>)
    requires UnrestrainedKnown(table, items, buildings)
    ensures var a := ForEach(table, UnrestrainedItemStep(items, buildings));
            a.failure.None? && |a.added| == ExtractorCount(table)
  {
    if |table| > 0 {
      var n := |table| - 1;
      var init := table[..n];
      var step := UnrestrainedItemStep(items, buildings);
      UnrestrainedKnownStep(table, items, buildings);
      UnrestrainedItemsCount(items, buildings, init);
      assert ForEach(table, step) == Then(ForEach(init, step), UnrestrainedItem(items, buildings, table[n]));
      UnrestrainedBuildingsAdd(buildings, items[table[n].0], table[n].1);
    }
  }

  /** Each recipe the source loop adds is the recipe of a configured
      source and one of its extractors. */
  lemma {:induction false} UnrestrainedItemsRecipes(items: map<string, Item>, buildings: map<string, Building>,
                                                    table: seq<(string, seq<string>)>)
    ensures forall e :: e in ForEach(table, UnrestrainedItemStep(items, buildings)).added ==>
              exists k, b :: 0 <= k < |table| && b in table[k].1 && table[k].0 in items && b in buildings &&
                             e == RecipeEntity(UnrestrainedRecipe(buildings[b], items[table[k].0]))
  {
    if |table| > 0 {
      var n := |table| - 1;
      UnrestrainedItemsRecipes(items, buildings, table[..n]);
      assert forall k :: 0 <= k < n ==> table[..n][k] == table[k];
      var entry := table[n];
      if entry.0 in items {
        var a := ForEach(entry.1, UnrestrainedBuildingStep(buildings, items[entry.0]));
        UnrestrainedBuildingsOf(buildings, items[entry.0], entry.1);
        forall e | e in a.added
          ensures exists b :: b in entry.1 && b in buildings &&
                              e == RecipeEntity(UnrestrainedRecipe(buildings[b], items[entry.0]))
        {
        }
      }
    }
  }

  /** Each recipe the extractor loop adds is the recipe of one of its extractors. */
  lemma {:induction false} UnrestrainedBuildingsOf(buildings: map<string, Building>, item: Item, bs: seq<string>)
    ensures forall e :: e in ForEach(bs, UnrestrainedBuildingStep(buildings, item)).added ==>
              exists b :: b in bs && b in buildings && e == RecipeEntity(UnrestrainedRecipe(buildings[b], item))
  {
    if |bs| > 0 {
      var n := |bs| - 1;
      UnrestrainedBuildingsOf(buildings, item, bs[..n]);
      assert forall b :: b in bs[..n] ==> b in bs;
      assert bs[n] in bs;
    }
  }

  /** `_add_unrestrained_resource_proxy_recipes` stops with a KeyError
      exactly when a configured source or extractor is unknown; otherwise it
      adds one recipe per configured (source, extractor) pair, each the
      unrestrained recipe of that pair. */
  lemma UnrestrainedProxiesMeaning(c: Catalogue)
    ensures var a := UnrestrainedProxies(c);
            var table := Config.UNRESTRAINED_RESOURCE_CONFIG;
            && (a.failure.None? <==> UnrestrainedKnown(table, c.items.entries, c.buildings.entries))
            && (a.failure.Some? ==> a.failure.value.KeyError?)
            && (a.failure.None? ==> |a.added| == ExtractorCount(table))
            && forall e :: e in a.added ==>
                 exists k, b :: 0 <= k < |table| && b in table[k].1 && table[k].0 in c.items.entries &&
                                b in c.buildings.entries &&
                                e == RecipeEntity(UnrestrainedRecipe(c.buildings.entries[b],
                                                                     c.items.entries[table[k].0]))
  {
    UnrestrainedItemsFail(c.items.entries, c.buildings.entries, Config.UNRESTRAINED_RESOURCE_CONFIG);
    if UnrestrainedKnown(Config.UNRESTRAINED_RESOURCE_CONFIG, c.items.entries, c.buildings.entries) {
      UnrestrainedItemsCount(c.items.entries, c.buildings.entries, Config.UNRESTRAINED_RESOURCE_CONFIG);
    }
    UnrestrainedItemsRecipes(c.items.entries, c.buildings.entries, Config.UNRESTRAINED_RESOURCE_CONFIG);
  }

  method AddUnrestrainedBuildingRecipes(ds: RecipeDataset, item: Item, buildings: seq<string>)
    returns (r: Result<()>)
    requires ds.Valid()
    modifies ds
    ensures ds.Valid() && ds.items == old(ds.items) && ds.buildings == old(ds.buildings)
    ensures Did(old(ds.Contents()), ForEach(buildings, UnrestrainedBuildingStep(old(ds.buildings.entries), item)),
                ds.Contents(), r)
  {
    ghost var c0 := ds.Contents();
    ghost var done: seq<Entity> := [];
    ghost var step := UnrestrainedBuildingStep(ds.buildings.entries, item);
    for i := 0 to |buildings|
      invariant ds.Valid() && ds.items == c0.items && ds.buildings == c0.buildings
      invariant ds.Contents() == AddAll(c0, done)
      invariant ForEach(buildings[..i], step) == Adds(done)
    {
      var b := buildings[i];
      if b !in ds.buildings.entries {
        r := Err(KeyError(b));
        LoopStops(c0, buildings, i, step, done, ds.Contents(), r);
        return;
      }
      var recipe := UnrestrainedRecipe(ds.buildings.entries[b], item);
      var _ := ds.Add(RecipeEntity(recipe));
      LoopAddsOne(c0, buildings, i, step, done, RecipeEntity(recipe));
      done := done + [RecipeEntity(recipe)];
    }
    r := Ok(());
    LoopEnds(c0, buildings, step, done, ds.Contents());
  }

  /** `_add_unrestrained_resource_proxy_recipes`: every configured resource,
      every extractor listed for it. */
  method AddUnrestrainedResourceProxyRecipes(ds: RecipeDataset) returns (r: Result<()>)
    requires ds.Valid()
    modifies ds
    ensures ds.Valid() && ds.items == old(ds.items) && ds.buildings == old(ds.buildings)
    ensures Did(old(ds.Contents()), UnrestrainedProxies(old(ds.Contents())), ds.Contents(), r)
  {
    r := AddUnrestrainedItemRecipes(ds, Config.UNRESTRAINED_RESOURCE_CONFIG);
  }

  method AddUnrestrainedItemRecipes(ds: RecipeDataset, table: seq<(string, seq<string>)>) returns (r: Result<()>)
    requires ds.Valid()
    modifies ds
    ensures ds.Valid() && ds.items == old(ds.items) && ds.buildings == old(ds.buildings)
    ensures Did(old(ds.Contents()), ForEach(table, UnrestrainedItemStep(old(ds.items.entries), old(ds.buildings.entries))),
                ds.Contents(), r)
  {
    ghost var c0 := ds.Contents();
    ghost var done: seq<Entity> := [];
    ghost var step := UnrestrainedItemStep(ds.items.entries, ds.buildings.entries);
    for i := 0 to |table|
      invariant ds.Valid() && ds.items == c0.items && ds.buildings == c0.buildings
      invariant ds.Contents() == AddAll(c0, done)
      invariant ForEach(table[..i], step) == Adds(done)
    {
      var (itemclass, buildings) := table[i];
      if itemclass !in ds.items.entries {
        r := Err(KeyError(itemclass));
        LoopStops(c0, table, i, step, done, ds.Contents(), r);
        return;
      }
      var item := ds.items.entries[itemclass];
      r := AddUnrestrainedBuildingRecipes(ds, item, buildings);
      if r.Err? {
        LoopStops(c0, table, i, step, done, ds.Contents(), r);
        return;
      }
      LoopGoesOn(c0, table, i, step, done, ds.Contents(), r);
      done := done + step(table[i]).added;
    }
    r := Ok(());
    LoopEnds(c0, table, step, done, ds.Contents());
  }

  // ----- Geysers -----

  /** The recipe for the geothermal generator on the `count` geysers of one
      purity: it consumes and produces nothing; its class name ends with
      the purity label. */
  function GeothermalRecipe(generator: Building, purity: Config.PurityConfig, count: int): Recipe {
    Recipe("ResourceNode-" + generator.classname + "-" + purity.labelName,
           generator.displayName + " (" + purity.labelName + ")",
           Empty(), Empty(), 1.0, [generator.classname], globalLimit := count, isResourceProxy := true)
  }

  function GeothermalPurity(generator: Building, entry: (string, int)): Attempt {
    match Config.Lookup(Config.RESOURCE_NODE_PURITY_CONFIG, entry.0)
    case None => Fail(KeyError(entry.0))
    case Some(p) => Adds([RecipeEntity(GeothermalRecipe(generator, p, entry.1))])
  }

  function GeothermalPurityStep(generator: Building): ((string, int)) -> Attempt {
    entry => GeothermalPurity(generator, entry)
  }

  /** `_add_geothermal_proxy_recipes`, without the `overclockable` argument
      (see `GeothermalProxiesAsWritten`). */
  function GeothermalProxies(c: Catalogue): Attempt {
    if Config.RESOURCE_NODE_GEYSER_GENERATOR !in c.buildings.entries
    then Fail(KeyError(Config.RESOURCE_NODE_GEYSER_GENERATOR))
    else ForEach(Config.RESOURCE_NODE_GEYSER_CONFIG,
                 GeothermalPurityStep(c.buildings.entries[Config.RESOURCE_NODE_GEYSER_GENERATOR]))
  }

  /** The loop as the source writes it: the recipe constructor is also
      handed `overclockable=False`, which is not a field of `Recipe`, so the
      first purity that is found raises a TypeError. */
  function GeothermalPurityAsWritten(entry: (string, int)): Attempt {
    match Config.Lookup(Config.RESOURCE_NODE_PURITY_CONFIG, entry.0)
    case None => Fail(KeyError(entry.0))
    case Some(_) => Fail(TypeError("__init__() got an unexpected keyword argument 'overclockable'"))
  }

  function GeothermalProxiesAsWritten(c: Catalogue): Attempt {
    if Config.RESOURCE_NODE_GEYSER_GENERATOR !in c.buildings.entries
    then Fail(KeyError(Config.RESOURCE_NODE_GEYSER_GENERATOR))
    else ForEach(Config.RESOURCE_NODE_GEYSER_CONFIG, entry => GeothermalPurityAsWritten(entry))
  }

  /** As written, the geyser step never adds a recipe: with the generator
      present it always stops with a TypeError. */
  lemma GeothermalAsWrittenFails(c: Catalogue)
    requires Config.RESOURCE_NODE_GEYSER_GENERATOR in c.buildings.entries
    ensures GeothermalProxiesAsWritten(c).added == []
    ensures GeothermalProxiesAsWritten(c).failure.Some?
    ensures GeothermalProxiesAsWritten(c).failure.value.TypeError?
  {
    var table := Config.RESOURCE_NODE_GEYSER_CONFIG;
    var body := (entry: (string, int)) => GeothermalPurityAsWritten(entry);
    assert Config.Lookup(Config.RESOURCE_NODE_PURITY_CONFIG, table[0].0).Some?;
    ForEachStep(table, 0, body);
    assert table[..0] == [];
    ForEachStops(table, 1, body);
  }

  /** A geothermal recipe's class name ends with its purity label and with
      no label listed before it, so a geothermal generator running it
      produces the normal geyser output times that purity's multiplier. */
  lemma GeothermalRecipePower(generator: Building, k: int, count: int)
    requires 0 <= k < |Config.RESOURCE_NODE_PURITY_CONFIG|
    ensures var p := Config.RESOURCE_NODE_PURITY_CONFIG[k].1;
            generator.GetGeothermalPower(Some(GeothermalRecipe(generator, p, count)))
            == Ok(Config.RESOURCE_NODE_GEYSER_POWER_NORMAL * p.multiplier)
  {
    var table := Config.RESOURCE_NODE_PURITY_CONFIG;
    var name := GeothermalRecipe(generator, table[k].1, count).classname;
    var prefix := "ResourceNode-" + generator.classname;
    assert name == prefix + "-" + table[k].1.labelName;
    if k == 0 {
      assert name[|name| - 6..] == "Impure";
      assert Strings.EndsWith(name, "Impure");
    } else if k == 1 {
      assert name[|name| - 6..] == "Normal";
      assert Strings.EndsWith(name, "Normal");
      assert !Strings.EndsWith(name, "Impure");
    } else {
      assert name[|name| - 5..] == "-Pure";
      assert name[|name| - 4..] == "Pure";
      assert Strings.EndsWith(name, "Pure");
      assert !Strings.EndsWith(name, "Impure") by {
        assert name[|name| - 5] == '-';
      }
      assert !Strings.EndsWith(name, "Normal") by {
        assert name[|name| - 5] == '-';
      }
    }
  }

  /** `e` is the recipe of the geyser purity level `entry`. */
  ghost predicate GeothermalRecipeOf(generator: Building, entry: (string, int), e: Entity) {
    var p := Config.Lookup(Config.RESOURCE_NODE_PURITY_CONFIG, entry.0);
    p.Some? && e == RecipeEntity(GeothermalRecipe(generator, p.value, entry.1))
  }

  /** The geyser loop fails exactly on an unknown purity, and otherwise
      adds one recipe per purity level. */
  lemma {:induction false} GeothermalPuritiesCount(generator: Building, table: seq<(string, int)>)
    ensures var a := ForEach(table, GeothermalPurityStep(generator));
            && (a.failure.None? <==> KnownPurities(table))
            && (a.failure.None? ==> |a.added| == |table|)
  {
    if |table| > 0 {
      GeothermalPuritiesCount(generator, table[..|table| - 1]);
      KnownPuritiesStep(table);
    }
  }

  /** Each recipe the geyser loop adds is the recipe of one of its purity
      levels. */
  lemma {:induction false} GeothermalPurityRecipes(generator: Building, table: seq<(string, int)>)
    ensures forall e :: e in ForEach(table, GeothermalPurityStep(generator)).added ==>
              exists k :: 0 <= k < |table| && GeothermalRecipeOf(generator, table[k], e)
  {
    if |table| > 0 {
      var n := |table| - 1;
      GeothermalPurityRecipes(generator, table[..n]);
      assert forall k :: 0 <= k < n ==> table[..n][k] == table[k];
    }
  }

  /** The recipe of a geyser purity level is a resource proxy that consumes
      and produces nothing, runs in the geothermal generator, is limited to
      the level's geyser count, and makes the generator produce the normal
      geyser output times the level's multiplier. */
  lemma GeothermalRecipeShape(generator: Building, entry: (string, int), e: Entity)
    requires GeothermalRecipeOf(generator, entry, e)
    ensures IsResourceProxy(e) && e.recipe.products == Empty()
    ensures e.recipe.producedIn == [generator.classname] && e.recipe.globalLimit == entry.1
    ensures generator.GetGeothermalPower(Some(e.recipe)) ==
              Ok(Config.RESOURCE_NODE_GEYSER_POWER_NORMAL *
                 Config.Lookup(Config.RESOURCE_NODE_PURITY_CONFIG, entry.0).value.multiplier)
  {
    var p := Config.Lookup(Config.RESOURCE_NODE_PURITY_CONFIG, entry.0).value;
    var j :| 0 <= j < |Config.RESOURCE_NODE_PURITY_CONFIG| &&
             Config.RESOURCE_NODE_PURITY_CONFIG[j] == (entry.0, p);
    GeothermalRecipePower(generator, j, entry.1);
  }

  /** Every recipe the geyser step adds is a resource proxy that consumes
      and produces nothing, and a geothermal generator running it produces
      a positive multiple of the normal geyser output. */
  lemma GeothermalProxiesShape(c: Catalogue)
    ensures forall e :: e in GeothermalProxies(c).added ==>
              && IsResourceProxy(e) && e.recipe.products == Empty()
              && var generator := c.buildings.entries[Config.RESOURCE_NODE_GEYSER_GENERATOR];
                 && generator.GetGeothermalPower(Some(e.recipe)).Ok?
                 && generator.GetGeothermalPower(Some(e.recipe)).value > 0.0
  {
    if Config.RESOURCE_NODE_GEYSER_GENERATOR in c.buildings.entries {
      GeothermalLoopShape(c.buildings.entries[Config.RESOURCE_NODE_GEYSER_GENERATOR],
                          Config.RESOURCE_NODE_GEYSER_CONFIG);
    }
  }

  /** What the geyser loop adds over any table of purities. */
  lemma GeothermalLoopShape(generator: Building, table: seq<(string, int)>)
    ensures forall e :: e in ForEach(table, GeothermalPurityStep(generator)).added ==>
              && IsResourceProxy(e) && e.recipe.products == Empty()
              && generator.GetGeothermalPower(Some(e.recipe)).Ok?
              && generator.GetGeothermalPower(Some(e.recipe)).value > 0.0
  {
    GeothermalPurityRecipes(generator, table);
    forall e | e in ForEach(table, GeothermalPurityStep(generator)).added
      ensures IsResourceProxy(e) && e.recipe.products == Empty()
      ensures generator.GetGeothermalPower(Some(e.recipe)).Ok?
      ensures generator.GetGeothermalPower(Some(e.recipe)).value > 0.0
    {
      var k :| 0 <= k < |table| && GeothermalRecipeOf(generator, table[k], e);
      GeothermalRecipeShape(generator, table[k], e);
      PurityMultiplierPositive(table[k].0);
    }
  }

  /** Every configured purity multiplier is positive. */
  lemma PurityMultiplierPositive(purity: string)
    requires Config.Lookup(Config.RESOURCE_NODE_PURITY_CONFIG, purity).Some?
    ensures Config.Lookup(Config.RESOURCE_NODE_PURITY_CONFIG, purity).value.multiplier > 0.0
  {
  }

  /** `_add_geothermal_proxy_recipes` (without `overclockable`): one recipe
      per configured purity. */
  method AddGeothermalProxyRecipes(ds: RecipeDataset) returns (r: Result<()>)
    requires ds.Valid()
    modifies ds
    ensures ds.Valid() && ds.items == old(ds.items) && ds.buildings == old(ds.buildings)
    ensures Did(old(ds.Contents()), GeothermalProxies(old(ds.Contents())), ds.Contents(), r)
  {
    if Config.RESOURCE_NODE_GEYSER_GENERATOR !in ds.buildings.entries {
      return Err(KeyError(Config.RESOURCE_NODE_GEYSER_GENERATOR));
    }
    var generator := ds.buildings.entries[Config.RESOURCE_NODE_GEYSER_GENERATOR];
    r := AddGeothermalPurityRecipes(ds, generator, Config.RESOURCE_NODE_GEYSER_CONFIG);
  }

  method AddGeothermalPurityRecipes(ds: RecipeDataset, generator: Building, table: seq<(string, int)>)
    returns (r: Result<()>)
    requires ds.Valid()
    modifies ds
    ensures ds.Valid() && ds.items == old(ds.items) && ds.buildings == old(ds.buildings)
    ensures Did(old(ds.Contents()), ForEach(table, GeothermalPurityStep(generator)), ds.Contents(), r)
  {
    ghost var c0 := ds.Contents();
    ghost var done: seq<Entity> := [];
    ghost var step := GeothermalPurityStep(generator);
    for i := 0 to |table|
      invariant ds.Valid() && ds.items == c0.items && ds.buildings == c0.buildings
      invariant ds.Contents() == AddAll(c0, done)
      invariant ForEach(table[..i], step) == Adds(done)
    {
      var (purity, count) := table[i];
      var purityConfig := Config.Lookup(Config.RESOURCE_NODE_PURITY_CONFIG, purity);
      if purityConfig.None? {
        r := Err(KeyError(purity));
        LoopStops(c0, table, i, step, done, ds.Contents(), r);
        return;
      }
      var recipe := GeothermalRecipe(generator, purityConfig.value, count);
      var _ := ds.Add(RecipeEntity(recipe));
      LoopAddsOne(c0, table, i, step, done, RecipeEntity(recipe));
      done := done + [RecipeEntity(recipe)];
    }
    r := Ok(());
    LoopEnds(c0, table, step, done, ds.Contents());
  }

  /** `_add_resource_proxy_recipes`: nodes, wells, unrestrained sources,
      geysers, in that order; each only runs if the one before succeeded. */
  function ResourceProxies(c: Catalogue): Result<Catalogue> {
    var c1 :- Run(c, NodeProxies(c));
    var c2 :- Run(c1, WellProxies(c1));
    var c3 :- Run(c2, UnrestrainedProxies(c2));
    Run(c3, GeothermalProxies(c3))
  }

  /** A loop that adds only recipes leaves items and buildings as they were. */
  lemma RunKeepsItemsAndBuildings(c: Catalogue, a: Attempt)
    requires forall e :: e in a.added ==> e.RecipeEntity?
    ensures Run(c, a).Ok? ==> Run(c, a).value.items == c.items && Run(c, a).value.buildings == c.buildings
  {
    AddAllRecipes(c, a.added);
  }

  lemma NodeRunKeeps(c: Catalogue)
    ensures Run(c, NodeProxies(c)).Ok? ==>
              Run(c, NodeProxies(c)).value.items == c.items && Run(c, NodeProxies(c)).value.buildings == c.buildings
  {
    NodeProxiesShape(c);
    RunKeepsItemsAndBuildings(c, NodeProxies(c));
  }

  lemma WellRunKeeps(c: Catalogue)
    ensures Run(c, WellProxies(c)).Ok? ==>
              Run(c, WellProxies(c)).value.items == c.items && Run(c, WellProxies(c)).value.buildings == c.buildings
  {
    WellProxiesShape(c);
    RunKeepsItemsAndBuildings(c, WellProxies(c));
  }

  lemma UnrestrainedRunKeeps(c: Catalogue)
    ensures Run(c, UnrestrainedProxies(c)).Ok? ==>
              && Run(c, UnrestrainedProxies(c)).value.items == c.items
              && Run(c, UnrestrainedProxies(c)).value.buildings == c.buildings
  {
    UnrestrainedProxiesUnlimited(c);
    RunKeepsItemsAndBuildings(c, UnrestrainedProxies(c));
  }

  lemma GeothermalRunKeeps(c: Catalogue)
    ensures Run(c, GeothermalProxies(c)).Ok? ==>
              && Run(c, GeothermalProxies(c)).value.items == c.items
              && Run(c, GeothermalProxies(c)).value.buildings == c.buildings
  {
    GeothermalProxiesShape(c);
    RunKeepsItemsAndBuildings(c, GeothermalProxies(c));
  }

  /** The resource step adds only recipes: items and buildings stay as
      they were. */
  lemma ResourceProxiesAddRecipes(c: Catalogue)
    ensures ResourceProxies(c).Ok? ==>
              ResourceProxies(c).value.items == c.items && ResourceProxies(c).value.buildings == c.buildings
  {
    NodeRunKeeps(c);
    match Run(c, NodeProxies(c))
    case Err(_) =>
    case Ok(c1) =>
      WellRunKeeps(c1);
      match Run(c1, WellProxies(c1))
      case Err(_) =>
      case Ok(c2) =>
        UnrestrainedRunKeeps(c2);
        match Run(c2, UnrestrainedProxies(c2))
        case Err(_) =>
        case Ok(c3) =>
          GeothermalRunKeeps(c3);
  }

  /** The catalogue after a loop that did not fail, or its error. */
  function Run(c: Catalogue, a: Attempt): Result<Catalogue> {
    if a.failure.Some? then Err(a.failure.value) else Ok(AddAll(c, a.added))
  }

  method AddResourceProxyRecipes(ds: RecipeDataset) returns (r: Result<()>)
    requires ds.Valid()
    modifies ds
    ensures ds.Valid()
    ensures r.Ok? <==> ResourceProxies(old(ds.Contents())).Ok?
    ensures r.Ok? ==> ds.Contents() == ResourceProxies(old(ds.Contents())).value
    ensures r.Err? ==> r.error == ResourceProxies(old(ds.Contents())).error
  {
    r := AddResourceNodeProxyRecipes(ds);
    if r.Err? {
      return;
    }
    r := AddResourceWellProxyRecipes(ds);
    if r.Err? {
      return;
    }
    r := AddUnrestrainedResourceProxyRecipes(ds);
    if r.Err? {
      return;
    }
    r := AddGeothermalProxyRecipes(ds);
  }
}
