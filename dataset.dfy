/** The catalogue store (`calc_lib/recipe_dataset.py`): three dictionaries,
    recipes, buildings and items, each keyed by the class name of its entries. */
module Dataset {
  import opened Wrappers
  import opened Dicts
  import opened Elements

  /** What `add` can be handed: one of the three catalogue types, or a value
      of any other type (named by `typeName`). */
  datatype Entity =
    | RecipeEntity(recipe: Recipe)
    | BuildingEntity(building: Building)
    | ItemEntity(item: Item)
    | OtherEntity(typeName: string)

  /** The three dictionaries of a dataset, as one value. */
  datatype Catalogue = Catalogue(recipes: Dict<Recipe>, buildings: Dict<Building>, items: Dict<Item>)
  {
    /** Every dictionary is well formed and keyed by its entries' own class
        names, and every recipe's amount maps are well formed. */
    ghost predicate Valid() {
      && recipes.Valid() && buildings.Valid() && items.Valid()
      && (forall k :: k in recipes.entries ==> recipes.entries[k].classname == k)
      && (forall k :: k in buildings.entries ==> buildings.entries[k].classname == k)
      && (forall k :: k in items.entries ==> items.entries[k].classname == k)
      && (forall k :: k in recipes.entries ==> recipes.entries[k].Valid())
    }
  }

  function EmptyCatalogue(): (c: Catalogue)
    ensures c.Valid()
  {
    Catalogue(Empty(), Empty(), Empty())
  }

  /** Whether an entity may enter a valid dataset: a recipe must have
      well-formed amount maps (every Python dict does). */
  ghost predicate WellFormed(obj: Entity) {
    obj.RecipeEntity? ==> obj.recipe.Valid()
  }

  /** The items no recipe produces: the item keys minus the product keys of
      every recipe listed in `keys`. */
  function ProductKeys(keys: seq<string>, recipes: map<string, Recipe>): set<string>
  {
    if |keys| == 0 then {}
    else
      ProductKeys(keys[..|keys| - 1], recipes)
      + (if keys[|keys| - 1] in recipes then recipes[keys[|keys| - 1]].products.entries.Keys else {})
  }

  function RawResourcesOf(c: Catalogue): set<string> {
    c.items.entries.Keys - ProductKeys(c.recipes.keys, c.recipes.entries)
  }

  /** A key is among the product keys iff some listed recipe has it as a product. */
  lemma {:induction false} ProductKeysMeaning(keys: seq<string>, recipes: map<string, Recipe>, k: string)
    ensures k in ProductKeys(keys, recipes) <==>
              exists j :: 0 <= j < |keys| && keys[j] in recipes && k in recipes[keys[j]].products.entries
  {
    if |keys| > 0 {
      var init := keys[..|keys| - 1];
      ProductKeysMeaning(init, recipes, k);
      if k in ProductKeys(init, recipes) {
        var j :| 0 <= j < |init| && init[j] in recipes && k in recipes[init[j]].products.entries;
        assert keys[j] == init[j];
      }
      if exists j :: 0 <= j < |keys| && keys[j] in recipes && k in recipes[keys[j]].products.entries {
        var j :| 0 <= j < |keys| && keys[j] in recipes && k in recipes[keys[j]].products.entries;
        if j < |keys| - 1 {
          assert init[j] == keys[j];
        }
      }
    }
  }

  /** `raw_resources` holds exactly the items that are a product of no recipe. */
  lemma RawResourcesMeaning(c: Catalogue, k: string)
    requires c.Valid()
    ensures k in RawResourcesOf(c) <==>
              k in c.items.entries &&
              forall r :: r in c.recipes.entries.Values ==> k !in r.products.entries
  {
    ProductKeysMeaning(c.recipes.keys, c.recipes.entries, k);
    if k in ProductKeys(c.recipes.keys, c.recipes.entries) {
      var j :| 0 <= j < |c.recipes.keys| && c.recipes.keys[j] in c.recipes.entries &&
               k in c.recipes.entries[c.recipes.keys[j]].products.entries;
      assert c.recipes.entries[c.recipes.keys[j]] in c.recipes.entries.Values;
    } else {
      forall r | r in c.recipes.entries.Values
        ensures k !in r.products.entries
      {
        var name :| name in c.recipes.entries && c.recipes.entries[name] == r;
        var j :| 0 <= j < |c.recipes.keys| && c.recipes.keys[j] == name;
      }
    }
  }

  class RecipeDataset {
    var recipes: Dict<Recipe>
    var buildings: Dict<Building>
    var items: Dict<Item>

    function Contents(): Catalogue
      reads this
    {
      Catalogue(recipes, buildings, items)
    }

    ghost predicate Valid()
      reads this
    {
      Contents().Valid()
    }

    /** A new dataset has three empty dictionaries. */
    constructor()
      ensures Contents() == EmptyCatalogue() && Valid()
    {
      recipes := Empty();
      buildings := Empty();
      items := Empty();
    }

    /** `add`: store the entity under its class name in the dictionary of
        its type (overwriting an entry of the same name); any other type is
        a TypeError that changes nothing. */
    method Add(obj: Entity) returns (r: Result<()>)
      modifies this
      ensures obj.OtherEntity? <==> r.Err?
      ensures r.Err? ==> r.error.TypeError? && Contents() == old(Contents())
      ensures obj.RecipeEntity? ==>
                Contents() == old(Contents()).(recipes := old(recipes).Set(obj.recipe.classname, obj.recipe))
      ensures obj.BuildingEntity? ==>
                Contents() == old(Contents()).(buildings := old(buildings).Set(obj.building.classname, obj.building))
      ensures obj.ItemEntity? ==>
                Contents() == old(Contents()).(items := old(items).Set(obj.item.classname, obj.item))
      ensures old(Valid()) && WellFormed(obj) ==> Valid()
    {
      match obj
      case RecipeEntity(recipe) =>
        recipes := recipes.Set(recipe.classname, recipe);
        r := Ok(());
      case BuildingEntity(building) =>
        buildings := buildings.Set(building.classname, building);
        r := Ok(());
      case ItemEntity(item) =>
        items := items.Set(item.classname, item);
        r := Ok(());
      case OtherEntity(typeName) =>
        r := Err(TypeError("unsupported type: " + typeName));
    }

    /** `raw_resources`: collect every recipe's product keys, then take the
        item keys that are not among them. */
    method RawResources() returns (s: set<string>)
      requires Valid()
      ensures s == RawResourcesOf(Contents())
    {
      var products: set<string> := {};
      for i := 0 to |recipes.keys|
        invariant products == ProductKeys(recipes.keys[..i], recipes.entries)
      {
        assert recipes.keys[..i + 1][..i] == recipes.keys[..i];
        products := products + recipes.entries[recipes.keys[i]].products.entries.Keys;
      }
      assert recipes.keys[..|recipes.keys|] == recipes.keys;
      s := items.entries.Keys - products;
    }
  }

  /** Re-adding a class name overwrites its entry without adding a key. */
  lemma ReAddOverwrites(d: Dict<Recipe>, a: Recipe, b: Recipe)
    requires a.classname == b.classname
    ensures d.Set(a.classname, a).Set(b.classname, b) == d.Set(b.classname, b)
  {
    assert d.Set(a.classname, a).Set(b.classname, b).entries == d.Set(b.classname, b).entries;
  }
}
