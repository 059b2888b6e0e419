/** The constants of `calc_lib/config.py` that the modelled code reads.
    Python dict literals become sequences of (key, value) pairs in their
    literal order; `Lookup` is indexing such a literal by key. */
module Config {
  import opened Wrappers

  /** `d[k]` on a dict literal: the value of the first pair with key `k`. */
  function Lookup<V>(table: seq<(string, V)>, k: string): (r: Option<V>)
    ensures r.None? <==> forall i :: 0 <= i < |table| ==> table[i].0 != k
    ensures r.Some? ==> exists i :: 0 <= i < |table| && table[i] == (k, r.value) &&
                          forall j :: 0 <= j < i ==> table[j].0 != k
  {
    if |table| == 0 then None
    else if table[0].0 == k then Some(table[0].1)
    else Lookup(table[1..], k)
  }

  /** The docs JSON names a native class `/Script/CoreUObject.Class'/Script/FactoryGame.<name>'`. */
  function NativeClass(name: string): string {
    "/Script/CoreUObject.Class" + "'" + "/Script/FactoryGame" + "." + name + "'"
  }

  /** The native classes of the docs JSON that hold recipes, items,
      buildings and fuel generators. */
  const CURATOR_NATIVE_CLASSNAME_LIST_RECIPE: seq<string> := [
    NativeClass("FGRecipe")
  ]

  const CURATOR_NATIVE_CLASSNAME_LIST_ITEM: seq<string> := [
    NativeClass("FGItemDescriptor"),
    NativeClass("FGResourceDescriptor"),
    NativeClass("FGItemDescriptorBiomass"),
    NativeClass("FGItemDescriptorNuclearFuel"),
    NativeClass("FGAmmoTypeInstantHit"),
    NativeClass("FGAmmoTypeProjectile"),
    NativeClass("FGEquipmentDescriptor"),
    NativeClass("FGPowerShardDescriptor"),
    NativeClass("FGAmmoTypeSpreadshot"),
    NativeClass("FGItemDescriptorPowerBoosterFuel")
  ]

  const CURATOR_NATIVE_CLASSNAME_LIST_BUILDING: seq<string> := [
    NativeClass("FGBuildableGeneratorFuel"),
    NativeClass("FGBuildableResourceExtractor"),
    NativeClass("FGBuildableManufacturer"),
    NativeClass("FGBuildableGeneratorNuclear"),
    NativeClass("FGBuildableFrackingExtractor"),
    NativeClass("FGBuildableFrackingActivator"),
    NativeClass("FGBuildableGeneratorGeoThermal"),
    NativeClass("FGBuildableWaterPump"),
    NativeClass("FGBuildableManufacturerVariablePower")
  ]

  const CURATOR_NATIVE_CLASSNAME_LIST_GENERATOR: seq<string> := [
    NativeClass("FGBuildableGeneratorFuel"),
    NativeClass("FGBuildableGeneratorNuclear")
  ]

  /** The native classes of the docs JSON that hold power boosters. */
  const CURATOR_NATIVE_CLASSNAME_LIST_POWERBOOSTER: seq<string> := [
    NativeClass("FGBuildablePowerBooster")
  ]

  const CURATOR_NATIVE_CLASSNAME_RESOURCE_SHORT: string := "FGResourceDescriptor"

  /** Extraction ceilings in items/min; -1 marks an unlimited resource. */
  const RESOURCE_GLOBAL_LIMIT: seq<(string, int)> := [
    ("Desc_OreIron_C", 92100),
    ("Desc_OreGold_C", 15000),
    ("Desc_OreCopper_C", 36900),
    ("Desc_Stone_C", 69300),
    ("Desc_Coal_C", 42300),
    ("Desc_RawQuartz_C", 13500),
    ("Desc_Sulfur_C", 10800),
    ("Desc_OreUranium_C", 2100),
    ("Desc_OreBauxite_C", 12300),
    ("Desc_SAM_C", 10200),
    ("Desc_LiquidOil_C", 12600),
    ("Desc_NitrogenGas_C", 12000),
    ("Desc_Water_C", -1)
  ]

  datatype PurityConfig = PurityConfig(labelName: string, multiplier: real)

  const RESOURCE_NODE_PURITY_CONFIG: seq<(string, PurityConfig)> := [
    ("impure", PurityConfig("Impure", 0.5)),
    ("normal", PurityConfig("Normal", 1.0)),
    ("pure", PurityConfig("Pure", 2.0))
  ]

  /** Node counts per resource and purity. */
  const RESOURCE_NODE_CONFIG: seq<(string, seq<(string, int)>)> := [
    ("Desc_OreIron_C", [("impure", 39), ("normal", 42), ("pure", 46)]),
    ("Desc_OreGold_C", [("impure", 0), ("normal", 9), ("pure", 8)]),
    ("Desc_OreCopper_C", [("impure", 13), ("normal", 29), ("pure", 13)]),
    ("Desc_Stone_C", [("impure", 15), ("normal", 50), ("pure", 29)]),
    ("Desc_Coal_C", [("impure", 15), ("normal", 31), ("pure", 16)]),
    ("Desc_RawQuartz_C", [("impure", 3), ("normal", 7), ("pure", 7)]),
    ("Desc_Sulfur_C", [("impure", 6), ("normal", 5), ("pure", 5)]),
    ("Desc_OreUranium_C", [("impure", 3), ("normal", 2), ("pure", 0)]),
    ("Desc_OreBauxite_C", [("impure", 5), ("normal", 6), ("pure", 6)]),
    ("Desc_SAM_C", [("impure", 10), ("normal", 6), ("pure", 3)]),
    ("Desc_LiquidOil_C", [("impure", 10), ("normal", 12), ("pure", 8)])
  ]

  const RESOURCE_NODE_EXTRACTOR_LIST_SOLID: seq<string> := ["Build_MinerMk3_C"]

  const RESOURCE_NODE_EXTRACTOR_LIST_CRUDE_OIL: seq<string> := ["Build_OilPump_C"]

  const RESOURCE_NODE_EXTRACTOR_CONFIG: seq<(string, seq<string>)> := [
    ("Desc_OreIron_C", RESOURCE_NODE_EXTRACTOR_LIST_SOLID),
    ("Desc_OreGold_C", RESOURCE_NODE_EXTRACTOR_LIST_SOLID),
    ("Desc_OreCopper_C", RESOURCE_NODE_EXTRACTOR_LIST_SOLID),
    ("Desc_Stone_C", RESOURCE_NODE_EXTRACTOR_LIST_SOLID),
    ("Desc_Coal_C", RESOURCE_NODE_EXTRACTOR_LIST_SOLID),
    ("Desc_RawQuartz_C", RESOURCE_NODE_EXTRACTOR_LIST_SOLID),
    ("Desc_Sulfur_C", RESOURCE_NODE_EXTRACTOR_LIST_SOLID),
    ("Desc_OreUranium_C", RESOURCE_NODE_EXTRACTOR_LIST_SOLID),
    ("Desc_OreBauxite_C", RESOURCE_NODE_EXTRACTOR_LIST_SOLID),
    ("Desc_SAM_C", RESOURCE_NODE_EXTRACTOR_LIST_SOLID),
    ("Desc_LiquidOil_C", RESOURCE_NODE_EXTRACTOR_LIST_CRUDE_OIL)
  ]

  const RESOURCE_NODE_GEYSER_CONFIG: seq<(string, int)> := [
    ("impure", 9),
    ("normal", 13),
    ("pure", 9)
  ]

  const RESOURCE_NODE_GEYSER_GENERATOR: string := "Build_GeneratorGeoThermal_C"

  /** Output of one geothermal generator on a normal geyser, in MW. */
  const RESOURCE_NODE_GEYSER_POWER_NORMAL: real := 200.0

  /** Extraction rate of each resource-well cluster, by location. */
  const RESOURCE_WELL_CONFIG: seq<(string, seq<(string, real)>)> := [
    ("Desc_LiquidOil_C", [
      ("Islands", 6000.0),
      ("RedBambooFields", 9000.0),
      ("Swamp", 3000.0)]),
    ("Desc_NitrogenGas_C", [
      ("DuneDesert", 12000.0),
      ("AbyssCliff", 11000.0),
      ("TitanForest", 20000.0),
      ("BlueCrater", 10000.0),
      ("JungleSpires", 14000.0),
      ("RockyDesert", 13000.0)]),
    ("Desc_Water_C", [
      ("DuneDesertNorth", 10000.0),
      ("DuneDesertSouth", 10000.0),
      ("DesertCanyons", 10500.0),
      ("TitanForest", 12000.0),
      ("EasternDuneForest", 7000.0),
      ("Grassfield", 11000.0),
      ("SnaketreeForest", 13000.0),
      ("WestDuneForest", 14000.0)])
  ]

  const RESOURCE_WELL_ACTIVATOR_LIST: seq<string> := ["Build_FrackingSmasher_C"]

  const UNRESTRAINED_RESOURCE_CONFIG: seq<(string, seq<string>)> := [
    ("Desc_Water_C", ["Build_WaterPump_C"])
  ]

  /** Total number of somersloops in the game. */
  const SOMERSLOOP_GLOBAL_LIMIT: int := 106

  const RESOURCE_CONVERTER_RECIPE_LIST: seq<string> := [
    "Recipe_Bauxite_Caterium_C",
    "Recipe_Bauxite_Copper_C",
    "Recipe_Caterium_Copper_C",
    "Recipe_Caterium_Quartz_C",
    "Recipe_Coal_Iron_C",
    "Recipe_Coal_Limestone_C",
    "Recipe_Copper_Quartz_C",
    "Recipe_Copper_Sulfur_C",
    "Recipe_Iron_Limestone_C",
    "Recipe_Limestone_Sulfur_C",
    "Recipe_Nitrogen_Bauxite_C",
    "Recipe_Nitrogen_Caterium_C",
    "Recipe_Quartz_Bauxite_C",
    "Recipe_Quartz_Coal_C",
    "Recipe_Sulfur_Coal_C",
    "Recipe_Sulfur_Iron_C",
    "Recipe_Uranium_Bauxite_C"
  ]
}
