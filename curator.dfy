/** `RecipeDatasetCurator.curate_from_docs_json`
    (`calc_lib/recipe_dataset_curator.py`) after the docs JSON has been
    read: items, buildings and recipes from the docs data, then the
    generator and resource proxy recipes, then the sink points of every
    recipe. */
module Curator {
  import opened Wrappers
  import Config
  import opened Elements
  import opened Dataset
  import opened Curation
  import opened Proxies

  /** A power booster entry of the docs JSON, with the fields the booster
      step reads. */
  datatype PowerBooster = PowerBooster(classname: string, displayName: string,
                                       basePowerProduction: real, baseBoostPercentage: real,
                                       defaultFuelClasses: seq<string>)

  /** The docs data, by native class, with each class's entries already
      read into model values. */
  datatype DocsData = DocsData(items: map<string, seq<Item>>, buildings: map<string, seq<Building>>,
                               recipes: map<string, seq<Recipe>>, generators: map<string, seq<Generator>>,
                               boosters: map<string, seq<PowerBooster>>)

  /** Every recipe read from the docs has one amount per item in its
      ingredients and in its products (a parsed Python dict). */
  ghost predicate Parsed(data: DocsData) {
    forall d, k :: d in data.recipes && 0 <= k < |data.recipes[d]| ==> data.recipes[d][k].Valid()
  }

  /** The catalogue with every recipe's sink-point gains recomputed. */
  function Filled(c: Catalogue): Catalogue {
    c.(recipes := FilledSinkPoints(c.recipes, c.items))
  }

  /** Everything `curate_from_docs_json` adds, in its order, before the
      sink points are filled. */
  function Assembled(data: DocsData): Result<Catalogue> {
    var c3 :- ReadDocs(data);
    WithProxies(c3, data.generators)
  }

  /** The items, buildings and recipes of the docs data, in that order. */
  function ReadDocs(data: DocsData): Result<Catalogue> {
    var c1 :- Run(EmptyCatalogue(), CuratedItems(data.items));
    var c2 :- Run(c1, CuratedBuildings(data.buildings));
    Run(c2, CuratedRecipes(data.recipes))
  }

  /** The generator proxies and then the resource proxies added to `c`. */
  function WithProxies(c: Catalogue, generators: map<string, seq<Generator>>): Result<Catalogue> {
    var c4 :- Run(c, GeneratorProxies(generators, c.items));
    ResourceProxies(c4)
  }

  /** The dataset `curate_from_docs_json` builds, or the error it raises. */
  function Curated(data: DocsData): Result<Catalogue> {
    var c :- Assembled(data);
    Ok(Filled(c))
  }

  /** `curate_from_docs_json`, from the data on. */
  method CurateFromDocs(data: DocsData) returns (r: Result<RecipeDataset>)
    requires Parsed(data)
    ensures r.Ok? <==> Curated(data).Ok?
    ensures r.Ok? ==> fresh(r.value) && r.value.Valid() && r.value.Contents() == Curated(data).value
    ensures r.Err? ==> r.error == Curated(data).error
  {
    var ds := new RecipeDataset();
    var step := CurateItems(ds, data.items);
    if step.Err? {
      return Err(step.error);
    }
    step := CurateBuildings(ds, data.buildings);
    if step.Err? {
      return Err(step.error);
    }
    step := CurateRecipes(ds, data.recipes);
    if step.Err? {
      return Err(step.error);
    }
    step := AddGeneratorProxyRecipes(ds, data.generators);
    if step.Err? {
      return Err(step.error);
    }
    step := AddResourceProxyRecipes(ds);
    if step.Err? {
      return Err(step.error);
    }
    FillSinkPointsGain(ds);
    r := Ok(ds);
  }

  /** `_add_apa_building_and_proxy_recipes` as written, for one native
      class: `data[d]` raises KeyError when the class is missing; the first
      booster's `CuratedBuilding(...)` passes `base_power_boost`, which is
      not a field of `Building`, and raises TypeError; a class without
      boosters adds nothing. */
  function ApaClassAsWritten(boosters: map<string, seq<PowerBooster>>, d: string): Attempt {
    if d !in boosters then Fail(KeyError(d))
    else if |boosters[d]| == 0 then Adds([])
    else Fail(TypeError("__init__() got an unexpected keyword argument 'base_power_boost'"))
  }

  function ApaClassAsWrittenStep(boosters: map<string, seq<PowerBooster>>): string -> Attempt {
    d => ApaClassAsWritten(boosters, d)
  }

  /** The booster step as written, over every listed booster class. */
  function ApaAsWritten(boosters: map<string, seq<PowerBooster>>): Attempt {
    ForEach(Config.CURATOR_NATIVE_CLASSNAME_LIST_POWERBOOSTER, ApaClassAsWrittenStep(boosters))
  }

  /** As written, the booster step never adds anything: it raises KeyError
      when the booster class is missing, TypeError when the class lists a
      booster, and succeeds only when the class lists none. */
  lemma ApaStepAsWrittenFails(boosters: map<string, seq<PowerBooster>>)
    ensures var d := Config.CURATOR_NATIVE_CLASSNAME_LIST_POWERBOOSTER[0];
            var a := ApaAsWritten(boosters);
            && a.added == []
            && (a.failure == Some(KeyError(d)) <==> d !in boosters)
            && (a.failure.Some? && a.failure.value.TypeError? <==> d in boosters && |boosters[d]| > 0)
            && (a.failure.None? <==> d in boosters && |boosters[d]| == 0)
  {
    var list := Config.CURATOR_NATIVE_CLASSNAME_LIST_POWERBOOSTER;
    var step := ApaClassAsWrittenStep(boosters);
    assert list[..0] == [];
    assert ForEach(list[..0], step) == Adds([]);
    assert list[..1] == list;
    assert ForEach(list, step) == Then(Adds([]), step(list[0]));
  }

  /** Everything `curate_from_docs_json` adds as written, up to the
      generator and resource proxy steps: the booster step as written sits
      between the recipes and the generator proxies. */
  function AssembledWithApaAsWritten(data: DocsData): Result<Catalogue> {
    var c3 :- ReadDocs(data);
    var c3a :- Run(c3, ApaAsWritten(data.boosters));
    WithProxies(c3a, data.generators)
  }

  /** Once items, buildings and recipes are curated, the booster step as
      written stops curation with a KeyError when the booster class is
      missing and with a TypeError when it lists a booster; when it lists
      none, curation is the one `Assembled` gives. */
  lemma CuratedWithApaAsWritten(data: DocsData)
    requires ReadDocs(data).Ok?
    ensures var d := Config.CURATOR_NATIVE_CLASSNAME_LIST_POWERBOOSTER[0];
            && (d !in data.boosters ==> AssembledWithApaAsWritten(data) == Err(KeyError(d)))
            && (d in data.boosters && |data.boosters[d]| > 0 ==>
                  AssembledWithApaAsWritten(data).Err? && AssembledWithApaAsWritten(data).error.TypeError?)
            && (d in data.boosters && |data.boosters[d]| == 0 ==> AssembledWithApaAsWritten(data) == Assembled(data))
  {
    ApaStepAsWrittenFails(data.boosters);
    var c3 := ReadDocs(data).value;
    var a := ApaAsWritten(data.boosters);
    if a.failure.None? {
      assert AddAll(c3, a.added) == c3;
      assert Run(c3, a) == Ok(c3);
    }
  }

  /** Adding buildings only leaves the recipes and the items alone. */
  lemma {:induction false} AddAllBuildings(c: Catalogue, objs: seq<Entity>)
    requires forall e :: e in objs ==> e.BuildingEntity?
    ensures AddAll(c, objs).recipes == c.recipes && AddAll(c, objs).items == c.items
  {
    if |objs| > 0 {
      assert objs[|objs| - 1] in objs;
      assert forall e :: e in objs[..|objs| - 1] ==> e in objs;
      AddAllBuildings(c, objs[..|objs| - 1]);
    }
  }

  lemma CuratedBuildingsAreBuildings(data: map<string, seq<Building>>)
    ensures forall e :: e in CuratedBuildings(data).added ==> e.BuildingEntity?
  {
    var P := (e: Entity) => e.BuildingEntity?;
    ForEachAll(Config.CURATOR_NATIVE_CLASSNAME_LIST_BUILDING, BuildingClassStep(data), P);
  }

  lemma CuratedRecipesAreRecipes(data: map<string, seq<Recipe>>)
    ensures forall e :: e in CuratedRecipes(data).added ==> e.RecipeEntity?
  {
    var P := (e: Entity) => e.RecipeEntity?;
    ForEachAll(Config.CURATOR_NATIVE_CLASSNAME_LIST_RECIPE, RecipeClassStep(data), P);
  }

  /** Items are curated first and buildings second: nothing later changes
      either, so the final items are those the item step read and the final
      buildings those the building step read. */
  lemma CuratedItemsAndBuildingsFirst(data: DocsData)
    ensures var r1 := Run(EmptyCatalogue(), CuratedItems(data.items));
            Curated(data).Ok? ==>
              && r1.Ok? && Curated(data).value.items == r1.value.items
              && var r2 := Run(r1.value, CuratedBuildings(data.buildings));
                 r2.Ok? && Curated(data).value.buildings == r2.value.buildings
  {
    var r1 := Run(EmptyCatalogue(), CuratedItems(data.items));
    if Curated(data).Ok? {
      var c1 := r1.value;
      var b := CuratedBuildings(data.buildings);
      CuratedBuildingsAreBuildings(data.buildings);
      AddAllBuildings(c1, b.added);
      var c2 := AddAll(c1, b.added);
      var a3 := CuratedRecipes(data.recipes);
      CuratedRecipesAreRecipes(data.recipes);
      RunKeepsItemsAndBuildings(c2, a3);
      var c3 := AddAll(c2, a3.added);
      var a4 := GeneratorProxies(data.generators, c3.items);
      GeneratorProxiesAreRecipes(data.generators, c3.items);
      RunKeepsItemsAndBuildings(c3, a4);
      var c4 := AddAll(c3, a4.added);
      ResourceProxiesAddRecipes(c4);
    }
  }

  /** Sink points are filled last, from the final items: every recipe of
      the curated dataset stores the gains its amounts earn, and filling
      again changes nothing. */
  lemma CuratedSinkPointsFilled(data: DocsData)
    requires Curated(data).Ok?
    ensures var c := Curated(data).value;
            && (forall k :: k in c.recipes.entries ==>
                  && c.recipes.entries[k].rawSinkPointsGain
                     == c.recipes.entries[k].SinkPointsGain(c.items, 1.0, 1.0, false)
                  && c.recipes.entries[k].sinkablePointsGain
                     == c.recipes.entries[k].SinkPointsGain(c.items, 1.0, 1.0, true))
            && Filled(c) == c
  {
    var c := Assembled(data).value;
    FilledSinkPointsMeaning(c.recipes, c.items);
  }

  /** Every listed native item class must be in the docs data: without the
      first, curation stops with a KeyError before anything else. */
  lemma CuratedNeedsItemClass(data: DocsData)
    requires Config.CURATOR_NATIVE_CLASSNAME_LIST_ITEM[0] !in data.items
    ensures Curated(data) == Err(KeyError(Config.CURATOR_NATIVE_CLASSNAME_LIST_ITEM[0]))
  {
    var list := Config.CURATOR_NATIVE_CLASSNAME_LIST_ITEM;
    NativeClassName("FGItemDescriptor");
    assert ItemClass(data.items, list[0]) == Fail(KeyError(list[0]));
    ForEachStep(list, 0, ItemClassStep(data.items));
    assert list[..0] == [];
    ForEachStops(list, 1, ItemClassStep(data.items));
  }
}
