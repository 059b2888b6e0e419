# Satisfactory production calculator, modelled in Dafny

The program turns the game's catalogue into a linear program and then explains the solver's answer. The catalogue holds items, buildings and recipes, read from the game's `Docs.json`, plus synthetic resource-extraction and power-generation recipes built from configuration tables. Its stages are:

- every recipe is expanded into variants, one per number of somersloops (amplifiers) installed and per clock speed;
- each variant becomes one row of a coefficient matrix, holding its item flows per second, somersloop use, power and sink-point rate;
- each variant also gets a limit on how often it may run;
- four calculator scripts turn the matrix into equality rows, inequality rows, per-variable bounds and an objective, and hand them to `scipy.optimize.linprog`;
- three reports total up the chosen plan.

This project models that pipeline once the docs data is in memory. The parts are:

- **Catalogue value types** (`Wrappers`, `Dicts`, `Elements`): clock speeds, items, recipes, buildings, sink points and the power rules.
- **Datasets** (`Dataset`, `Curation`, `Proxies`, `Curator`):
  - the dataset class and its type-directed `add`;
  - the curator's string helpers and its loops of `add` calls;
  - the proxy recipes of generators, resource nodes, resource wells, unrestrained sources and geysers;
  - the final sink-point fill.
- **The recipe matrix** (`Matrix`).
- **The calculator** (`Production`, `Calculators`): its constraint matrix and vector, label-based row selection, the net-zero item list, the solver call and its cached result, and the four scripts' programs.
- **The reports** (`Reports`): the figures behind the three reports.
- **Decimal trimming** (`Util`).
- **Constants** (`Config`, `Strings`): the constants of `calc_lib/config.py` that this code reads, and the Python string operations it uses.

Modelling choices:

- Floats are exact reals.
- `x ** e` with a real exponent is a function parameter `pow`, and the solver is a function parameter `solve`. Nothing is assumed about either.
- Python dicts and pandas Series are insertion-ordered dictionaries (`Dicts.Dict`).
- DataFrames are a row index, a column index and a table of values (`Matrix.Frame`).
- Raised exceptions and the fatal exit after a failed solve are the error half of `Wrappers.Result`.

## Model

| member | source | states |
|---|---|---|
| Elements.NewClockSpeed | calc_lib/elements.py:11-16 | a clock speed is accepted exactly when it lies in 1..250 (default 100) and is then that integer; anything else is a ValueError |
| Elements.Item.RescaleAmount | calc_lib/elements.py:40-48 | a liquid or gas amount becomes one thousandth of itself; any other amount is unchanged |
| Elements.RescaleIsLinear | calc_lib/elements.py:44-48 | rescaling commutes with scaling a rate, e.g. from per second to per minute |
| Elements.RescaledSinkPointsCases | calc_lib/elements.py:50-60 | with `sinkable_only` set, an unsinkable item is worth 0 points; a sinkable item is worth points × amount; with the flag unset every item is worth points × rescaled amount |
| Elements.SinkableIsNotFluid | calc_lib/elements.py:58-60 | a sinkable item is solid, so its amounts are never rescaled |
| Elements.Recipe.GetManufacturer | calc_lib/elements.py:84-92 | the for-else search returns the building of the first `produced_in` entry that is a known building, and None exactly when no entry is known (via `FirstBuilding`) |
| Elements.FirstBuilding | calc_lib/elements.py:86-91 | the result is None iff no name is a known building; otherwise it is an entry whose every predecessor is unknown |
| Elements.Recipe.GetProductionSinkPointsGain | calc_lib/elements.py:101-116 | the nested accumulation loops compute the sink-point gain, with items absent from the item map skipped |
| Elements.AccumulateCategory | calc_lib/elements.py:109-114 | the inner loop adds coef × points of each known item of one amount map to its starting total |
| Elements.PointsTermOfKnownItem | calc_lib/elements.py:110-113 | a known item with an amount contributes its rescaled sink points times the category coefficient |
| Elements.PointsOverStep | calc_lib/elements.py:109-114 | one more key of an amount map adds exactly that key's term |
| Elements.PointsOverScales | calc_lib/elements.py:108-114 | a category's weighted sum is its coefficient times the unweighted sum |
| Elements.PointsPerCycleDecomposition | calc_lib/elements.py:105-114 | points per cycle = multiplier × product points − ingredient points |
| Elements.SinkPointsGainIsLinear | calc_lib/elements.py:116 | the gain is cycles per second × points per cycle, so it is linear in the cycle rate |
| Elements.SinkPointsGainOfEmptyRecipe | calc_lib/elements.py:101-116 | a recipe with no ingredients and no products gains 0 |
| Elements.Recipe.CalculateSinkPoints | calc_lib/elements.py:94-99 | both gain fields are overwritten with the gain at multiplier 1 and one cycle per second (all items, resp. sinkable only); every other field is unchanged |
| Elements.SinkRateAtUnitMultiplier | calc_lib/elements.py:94-116 | at multiplier 1, a recipe's point rate is its stored sinkable-only gain times the cycle rate |
| Elements.PurityOfSuffix | calc_lib/elements.py:185-190 | the result is the first purity of the table whose label the name ends with, and None iff no label matches |
| Elements.Building.GetBasePower | calc_lib/elements.py:137-151 | see below |
| Elements.Building.GetOverclockPowerMultiplier | calc_lib/elements.py:153-164 | see below |
| Elements.Building.GetProductionMultiplier | calc_lib/elements.py:166-170 | a somersloop count outside 0..slot size is a ValueError; otherwise the result is count × boost + 1 |
| Elements.Building.GetProductionBoostPowerMultiplier | calc_lib/elements.py:172-178 | a building consuming 0 gets exactly 1.0, whatever the count; otherwise the result is the production multiplier raised to the boost exponent, with the same ValueError |
| Elements.Building.GetGeothermalPower | calc_lib/elements.py:184-192 | a missing recipe is an AttributeError (reading `recipe.classname` on None); otherwise the result is 200 MW × the multiplier of the first purity label the recipe's class name ends with, and a ValueError when none matches |
| Elements.Building.GetOverclockedPower | calc_lib/elements.py:193-203 | see below |
| Elements.Building.GetAdjustedPower | calc_lib/elements.py:180-204 | the geothermal generator takes the geyser rule; every other building takes the overclock rule |
| Elements.ProducedPowerIgnoresSomersloop | calc_lib/elements.py:195-197 | power a building produces is the same for every somersloop count |
| Dicts.Dict.Set | calc_lib/recipe_dataset.py:20-24 | `d[k] = v` maps k to v, keeps a known key's position, appends a new key, and keeps the dict well formed |
| Dicts.Empty | calc_lib/recipe_dataset.py:14-16 | a new dict is empty and well formed |
| Dataset.EmptyCatalogue | calc_lib/recipe_dataset.py:12-16 | the catalogue of three empty dictionaries is valid |
| Dataset.RecipeDataset.constructor | calc_lib/recipe_dataset.py:12-16 | a new dataset holds three empty dictionaries and is valid |
| Dataset.RecipeDataset.Add | calc_lib/recipe_dataset.py:18-27 | see below |
| Dataset.ReAddOverwrites | calc_lib/recipe_dataset.py:19-20 | adding a second entry under the same class name leaves exactly the second, with no extra key |
| Dataset.ProductKeysMeaning | calc_lib/recipe_dataset.py:50-52 | a key is among the collected product keys iff some listed recipe has it as a product |
| Dataset.RawResourcesMeaning | calc_lib/recipe_dataset.py:47-54 | an item is a raw resource iff it is a dataset item and no recipe produces it |
| Dataset.RecipeDataset.RawResources | calc_lib/recipe_dataset.py:47-54 | the loop that gathers product keys, then takes the difference, yields exactly the raw resources |
| Util.SimplifyDecimal | calc_lib/util.py:4-11 | the result is a prefix of the formatted string |
| Util.SimplifyDecimalInteger | calc_lib/util.py:7-8 | a formatted string without a dot is returned unchanged |
| Util.SimplifyDecimalKeepsIntegerPart | calc_lib/util.py:9-10 | everything before the dot is kept, and only zeros and dots are dropped |
| Util.SimplifyDecimalNoTrailingDot | calc_lib/util.py:7-10 | the result never ends with a dot |
| Util.SimplifyDecimalNoTrailingZero | calc_lib/util.py:10 | if a dot survives (in a rendering with at most one dot), the result does not end with a zero |
| Config.Lookup | calc_lib/recipe_dataset_curator.py:250 | dict indexing gives None iff no pair has the key; otherwise it gives the value of the first pair with that key |
| Strings.RStrip | calc_lib/util.py:10 | `rstrip` yields a prefix that does not end in the strip set; everything removed is in the set |
| Strings.LStrip | calc_lib/recipe_dataset_curator.py:85-86 | `lstrip` yields a suffix that does not start in the strip set; everything removed is in the set |
| Strings.Strip | calc_lib/recipe_dataset_curator.py:85-86 | `strip` gives a slice of the text such that everything before and after it is in the set and neither end of it is, so exactly the longest leading and trailing runs of set characters are removed; it keeps characters of the text only |
| Strings.SplitJoin | calc_lib/recipe_dataset_curator.py:16 | `split` yields one piece more than there are separators, and joining the pieces gives the text back |
| Strings.SplitPiecesWithoutSeparator | calc_lib/recipe_dataset_curator.py:16 | no piece of a split contains the separator |
| Strings.SplitKeepsCharacters | calc_lib/recipe_dataset_curator.py:85-86 | every piece of a split is made of characters of the text |
| Strings.SplitConcat | calc_lib/recipe_dataset_curator.py:85-86 | splitting at a separator splits the two sides independently |
| Strings.SplitWithoutSeparator | calc_lib/recipe_dataset_curator.py:85 | a text without the separator splits into itself |
| Strings.NatToString | calc_lib/recipe_matrix.py:124 | `str(n)` is a non-empty run of digits |
| Strings.NatToStringInjective | calc_lib/recipe_matrix.py:124 | distinct integers render differently |
| Strings.DigitSuffixUnique | calc_lib/recipe_matrix.py:124 | a text ending in a non-digit marker and then digits can be cut at that marker in only one way |
| Curation.StripClassnamePrefix | calc_lib/recipe_dataset_curator.py:14-16 | `split("'")[-2]` succeeds iff the text has a quote (otherwise an IndexError); the result contains neither a quote nor a dot |
| Curation.ClassnameOfNativePath | calc_lib/recipe_dataset_curator.py:14-16 | a path `a'b.c'` with a plain class name c gives c, whatever precedes the quote |
| Curation.NativeClassName | calc_lib/recipe_dataset_curator.py:125-126 | the short name of a docs native class is its class name |
| Curation.ResourceDescriptorCategory | calc_lib/recipe_dataset_curator.py:125-128 | the category read from the resource descriptor class is exactly the raw-resource category the net-zero test uses |
| Curation.ProducedInName | calc_lib/recipe_dataset_curator.py:85 | one produced-in entry gives a name without a dot, made of the entry's characters, with no quote at either end |
| Curation.ProducedIn | calc_lib/recipe_dataset_curator.py:85-86 | the produced-in list has one name per comma plus one (after stripping the parentheses), and no name contains a comma or a dot |
| Curation.ProducedInNameOfQuoted | calc_lib/recipe_dataset_curator.py:85 | an entry written `"path.Name"` gives Name |
| Curation.ProducedInRoundTrip | calc_lib/recipe_dataset_curator.py:85-86 | parsing a produced-in list written the way the docs write it gives back the building class names, in order |
| Curation.Int | calc_lib/recipe_dataset_curator.py:163 | `int()` of a float truncates toward zero |
| Curation.ForEachStops | calc_lib/recipe_dataset_curator.py:124-141 | an exception in one iteration of an `add` loop ends the whole loop with that outcome |
| Curation.AddAllRecipes | calc_lib/recipe_dataset.py:19-20 | adding only recipes leaves the items and buildings alone |
| Curation.AddEach | calc_lib/recipe_dataset_curator.py:127-128 | calling `add` on each entity in turn yields the catalogue after adding them in order, still valid |
| Curation.WithCategory | calc_lib/recipe_dataset_curator.py:126-128 | every item of a native class is tagged with that class's short name, one entity per item, in order |
| Curation.ResourceItemsCategory | calc_lib/recipe_dataset_curator.py:125-128 | items read from the resource descriptor class carry the raw-resource category |
| Curation.CurateItemClass | calc_lib/recipe_dataset_curator.py:125-128 | one native item class: a KeyError if the data lacks it, else its items are stored in order |
| Curation.CurateItems | calc_lib/recipe_dataset_curator.py:124-129 | `_curate_items` stores exactly what the item loop adds, stopping at the first error |
| Curation.CurateBuildings | calc_lib/recipe_dataset_curator.py:131-135 | `_curate_buildings` stores exactly what the building loop adds, stopping at the first error |
| Curation.CurateRecipes | calc_lib/recipe_dataset_curator.py:137-141 | `_curate_recipes` stores exactly what the recipe loop adds, stopping at the first error |
| Curation.CalculateSinkPointsIdempotent | calc_lib/elements.py:94-99 | recomputing the gains of an already computed recipe changes nothing |
| Curation.FilledSinkPointsMeaning | calc_lib/recipe_dataset_curator.py:351-354 | after filling, every recipe stores the gains its amounts earn, and filling again changes nothing |
| Curation.RefillRecipe | calc_lib/recipe_dataset_curator.py:352-353 | one iteration replaces one stored recipe by its refilled copy and leaves items and buildings alone |
| Curation.FillSinkPointsGain | calc_lib/recipe_dataset_curator.py:351-354 | `_fill_sink_points_gain` refills every recipe in place, keeping key order, items and buildings |
| Proxies.GeneratorRecipeMeaning | calc_lib/recipe_dataset_curator.py:149-179 | see below |
| Proxies.GeneratorProxiesAreRecipes | calc_lib/recipe_dataset_curator.py:143-182 | the generator step adds only well-formed recipes |
| Proxies.AddGeneratorFuelRecipes | calc_lib/recipe_dataset_curator.py:150-181 | one generator's fuel loop stores exactly its recipes, stopping at the first error, with items and buildings unchanged |
| Proxies.AddGeneratorProxyRecipes | calc_lib/recipe_dataset_curator.py:143-182 | `_add_generator_proxy_recipes` stores exactly what the generator loops add, stopping at the first error, with items and buildings unchanged |
| Proxies.NodePurityFails | calc_lib/recipe_dataset_curator.py:249-250 | the purity loop fails exactly when some purity is not configured |
| Proxies.NodePurityCount | calc_lib/recipe_dataset_curator.py:249-253 | a purity loop that does not fail adds one recipe per purity with a positive count; zero counts add nothing |
| Proxies.NodePurityRecipes | calc_lib/recipe_dataset_curator.py:249-272 | each recipe added is the recipe of one of its purity levels |
| Proxies.NodeRecipeShape | calc_lib/recipe_dataset_curator.py:255-270 | see below |
| Proxies.NodeProxiesShape | calc_lib/recipe_dataset_curator.py:241-273 | every node recipe is a resource proxy limited to a positive number of nodes and producing exactly one item |
| Proxies.AddResourceNodeProxyRecipes | calc_lib/recipe_dataset_curator.py:241-273 | `_add_resource_node_proxy_recipes` stores exactly what its loops add, with a KeyError for an unknown item, building or purity, and items and buildings unchanged |
| Proxies.WellLocationsMeaning | calc_lib/recipe_dataset_curator.py:283-300 | the location loop never fails and adds one recipe per cluster, in order: a resource proxy of one cycle per second, limited to 1, producing the cluster's rate |
| Proxies.WellRecipeShape | calc_lib/recipe_dataset_curator.py:285-298 | a well recipe has duration 1, global limit 1 and the cluster rate as its only product |
| Proxies.WellProxiesShape | calc_lib/recipe_dataset_curator.py:275-301 | every well recipe is a resource proxy limited to one cluster, of one cycle per second |
| Proxies.AddResourceWellProxyRecipes | calc_lib/recipe_dataset_curator.py:275-301 | `_add_resource_well_proxy_recipes` stores exactly what its loops add, with a KeyError for an unknown item or activator |
| Proxies.UnrestrainedProxiesUnlimited | calc_lib/recipe_dataset_curator.py:310-322 | every unrestrained recipe is a resource proxy with the default global limit −1 (unlimited) |
| Proxies.UnrestrainedRecipeShape | calc_lib/recipe_dataset_curator.py:310-322 | an unrestrained recipe is a resource proxy with limit −1, no ingredients, the item as its only product at the extractor's items per cycle, the extractor's cycle time as duration, and runs in that extractor |
| Proxies.UnrestrainedBuildingsFail | calc_lib/recipe_dataset_curator.py:306-308 | the extractor loop for one source fails iff one of its extractors is unknown, and then with a KeyError |
| Proxies.UnrestrainedBuildingsAdd | calc_lib/recipe_dataset_curator.py:306-324 | with every extractor known, the loop adds one recipe per extractor, in order, each the unrestrained recipe of that extractor and the source |
| Proxies.UnrestrainedBuildingsOf | calc_lib/recipe_dataset_curator.py:306-324 | every recipe the extractor loop adds is the unrestrained recipe of one of the listed, known extractors |
| Proxies.UnrestrainedKnownStep | calc_lib/recipe_dataset_curator.py:304-308 | the table is fully known iff its prefix is and the last source and all its extractors are known |
| Proxies.UnrestrainedItemsFail | calc_lib/recipe_dataset_curator.py:304-308 | the source loop fails iff some source or extractor is unknown, and then with a KeyError |
| Proxies.UnrestrainedItemsCount | calc_lib/recipe_dataset_curator.py:304-325 | with everything known, the source loop adds one recipe per configured (source, extractor) pair |
| Proxies.UnrestrainedItemsRecipes | calc_lib/recipe_dataset_curator.py:304-325 | every recipe the source loop adds is the unrestrained recipe of a configured, known (source, extractor) pair |
| Proxies.UnrestrainedProxiesMeaning | calc_lib/recipe_dataset_curator.py:303-325 | the unrestrained step fails exactly when a configured source or extractor is unknown (KeyError), and otherwise adds one recipe per configured pair, each the unrestrained recipe of that pair |
| Proxies.AddUnrestrainedResourceProxyRecipes | calc_lib/recipe_dataset_curator.py:303-325 | `_add_unrestrained_resource_proxy_recipes` stores exactly what its loops add, with a KeyError for an unknown item or extractor |
| Proxies.GeothermalAsWrittenFails | calc_lib/recipe_dataset_curator.py:327-349 | as written, the geyser step adds nothing and always stops with a TypeError (see Findings) |
| Proxies.GeothermalRecipePower | calc_lib/recipe_dataset_curator.py:333-335 | a geothermal recipe's class name ends with its purity label and with no earlier label, so the generator produces 200 MW × that purity's multiplier |
| Proxies.GeothermalPuritiesCount | calc_lib/recipe_dataset_curator.py:329-348 | the geyser loop fails exactly on an unknown purity and otherwise adds one recipe per purity |
| Proxies.GeothermalRecipeShape | calc_lib/recipe_dataset_curator.py:332-344 | a geyser recipe is a resource proxy with no ingredients or products, runs in the geothermal generator, is limited to the geyser count, and yields 200 MW × the purity multiplier |
| Proxies.GeothermalLoopShape | calc_lib/recipe_dataset_curator.py:329-348 | every recipe the corrected geyser loop adds makes the generator produce positive power |
| Proxies.GeothermalProxiesShape | calc_lib/recipe_dataset_curator.py:327-349 | every recipe of the corrected geyser step is a resource proxy and yields positive geothermal power |
| Proxies.AddGeothermalProxyRecipes | calc_lib/recipe_dataset_curator.py:327-349 | the corrected `_add_geothermal_proxy_recipes` stores one recipe per configured purity (KeyError without the generator) |
| Proxies.ResourceProxiesAddRecipes | calc_lib/recipe_dataset_curator.py:233-239 | the resource step adds only recipes, so items and buildings stay as they were |
| Proxies.AddResourceProxyRecipes | calc_lib/recipe_dataset_curator.py:233-239 | see below |
| Curator.CurateFromDocs | calc_lib/recipe_dataset_curator.py:104-122 | see below |
| Curator.ApaStepAsWrittenFails | calc_lib/recipe_dataset_curator.py:184-197 | as written, the booster step adds nothing: KeyError without the booster class, TypeError when it lists a booster, success only when it lists none (see Findings) |
| Curator.CuratedWithApaAsWritten | calc_lib/recipe_dataset_curator.py:110-118 | once items, buildings and recipes are curated, curation with the booster step as written stops with that KeyError or TypeError, and with no boosters listed it equals the corrected curation |
| Curator.CuratedItemsAndBuildingsFirst | calc_lib/recipe_dataset_curator.py:110-119 | the final items are those the item step read, and the final buildings those the building step read: nothing later changes them |
| Curator.CuratedSinkPointsFilled | calc_lib/recipe_dataset_curator.py:120-121 | every recipe of the curated dataset stores the gains its amounts earn from the final items, and filling again changes nothing |
| Curator.CuratedNeedsItemClass | calc_lib/recipe_dataset_curator.py:125-127 | docs data without the first native item class stops with a KeyError for it |
| Matrix.LimitOf | calc_lib/recipe_matrix.py:147-149 | a negative global limit is infinity; any other limit is that number, never negative |
| Matrix.BasicCoefMatrixRow | calc_lib/recipe_matrix.py:70-85 | see below |
| Matrix.RowNameInjective | calc_lib/recipe_matrix.py:124 | a row name `{classname}/S{s}_OC{clock}` determines the recipe, the somersloop count and the clock |
| Matrix.Somersloops | calc_lib/recipe_matrix.py:107-109 | the counts are 0..slot size with somersloops, else just 0 |
| Matrix.ClockSpeeds | calc_lib/recipe_matrix.py:111-116 | a resource proxy runs at the extraction clock only; any other recipe runs at exactly the production clock and 250, two speeds unless the production clock is 250; no speed repeats |
| Matrix.VariantsShape | calc_lib/recipe_matrix.py:119 | `itertools.product` has one entry per pair, exactly the pairs of the factors, no repeats when neither factor repeats |
| Matrix.SetFlowsMeaning | calc_lib/recipe_matrix.py:138-142 | each written key holds its flow, every other key is unchanged, and earlier keys keep their places |
| Matrix.WriteFlows | calc_lib/recipe_matrix.py:139-142 | the flow-writing loops write every key of one amount map |
| Matrix.VariantRowOk | calc_lib/recipe_matrix.py:119-137 | a variant's row exists iff the duration is not zero, the building holds that many somersloops, and the power rules accept the recipe |
| Matrix.VariantRowIs | calc_lib/recipe_matrix.py:119-142 | a variant's row is built from its name, adjusted power, sinkable-only point rate at the production multiplier s × boost + 1, and cycle rate (clock/100)/duration |
| Matrix.AssembleRowFlows | calc_lib/recipe_matrix.py:127-142 | see below |
| Matrix.AssembleRowAggregates | calc_lib/recipe_matrix.py:77-84 | aggregate columns that no item shares hold the somersloop count, the power, its positive part and the point rate |
| Matrix.BuildVariantRow | calc_lib/recipe_matrix.py:120-142 | the loop body builds one variant's row, or returns the error that stops the loop |
| Matrix.AppendVariantRows | calc_lib/recipe_matrix.py:119-149 | the variant loop appends each row with its limit entry in turn, stopping at the first error |
| Matrix.AppendRegularRecipe | calc_lib/recipe_matrix.py:87-151 | see below |
| Matrix.RowFoldShape | calc_lib/recipe_matrix.py:144-149 | see below |
| Matrix.AppendShape | calc_lib/recipe_matrix.py:87-151 | appending a recipe not seen before keeps the limit series keyed by row name, in row order |
| Matrix.ConstructShape | calc_lib/recipe_matrix.py:42-44 | after any prefix of the recipes, rows and limits stay in step: one limit per row, no repeated name, every row well shaped |
| Matrix.AddColumnsMeaning | calc_lib/recipe_matrix.py:48 | adding keys keeps existing columns in front, adds exactly the new keys, and never repeats one |
| Matrix.ColumnsUnionMeaning | calc_lib/recipe_matrix.py:48 | the concatenated columns appear once each, are exactly the rows' keys, and begin with the first row's keys |
| Matrix.FrameOf | calc_lib/recipe_matrix.py:48-50 | `concat(...).T.fillna(0)` gives a well-formed frame |
| Matrix.MatricesShape | calc_lib/recipe_matrix.py:37-55 | see below |
| Matrix.RecipeMatrix.Init | calc_lib/recipe_matrix.py:15-32 | the settings are stored, and the matrices are empty until built |
| Matrix.RecipeMatrix.ConstructMatrices | calc_lib/recipe_matrix.py:37-55 | `_construct_matrices` stores the matrices on success; on an error the object is unchanged |
| Matrix.NewRecipeMatrix | calc_lib/recipe_matrix.py:15-35 | a clock outside 1..250 is a ValueError; otherwise the new object stores its settings and the constructed matrices, or the construction error |
| Production.ConstraintMatrixBase | calc_lib/production_calculator.py:25-31 | see below |
| Production.SignedColumns | calc_lib/production_calculator.py:29-31 | row c of the constraint matrix is coefficient column c times its sign |
| Production.ConstraintVectorBase | calc_lib/production_calculator.py:33-39 | there is one entry per coefficient column, 0.0 except "somersloop" = 106; the label is appended if the columns lack it |
| Production.ConstraintRowValue | calc_lib/production_calculator.py:25-31 | constraint row c applied to a plan is the plan's net flow of column c, negated unless c is "somersloop" |
| Production.ConstraintRowMeaning | calc_lib/production_calculator.py:25-39 | `A[c] @ x <= b[c]` iff the plan's net flow of c is ≥ 0 (for "somersloop": at most 106); `==` pins it to 0 (resp. 106) |
| Production.DotScaled | calc_lib/production_calculator.py:29 | negating a column negates its product with any plan |
| Production.RecipePrefixOfRowName | calc.max_power.waste_free.wo_conv.py:32 | `name.split("/")[0]` of a variant's row name is its recipe's class name |
| Production.IndexOf | calc.max_power.waste_free.wo_conv.py:37 | position of the first occurrence of a label, or −1 exactly when it is absent |
| Production.LocRows | calc.max_power.waste_free.wo_conv.py:25-26 | `.loc[labels]` gives the labelled rows in the given order, and a KeyError naming a missing label exactly when one is missing |
| Production.Kept | calc.max_power.waste_free.wo_conv.py:27-28 | the kept positions are increasing, and are exactly the rows whose label is not dropped |
| Production.DropRows | calc.max_power.waste_free.wo_conv.py:27-28 | `.drop(index=labels)` keeps every other row in order, and is a KeyError naming a missing label exactly when one is missing |
| Production.NetZeroItemsMeaning | calc_lib/production_calculator.py:41-53 | the net-zero list holds exactly the listed items that are matrix columns and are unsinkable or raw resources, once each, in key order |
| Production.NetZeroItemsOfDataset | calc_lib/production_calculator.py:41-53 | the same for a dataset's item dictionary, in dataset order |
| Production.ProductionCalculator.NetZeroItemsBase | calc_lib/production_calculator.py:41-53 | the loop builds exactly the net-zero list of the calculator's dataset and matrix |
| Production.Outcome | calc_lib/production_calculator.py:65-69 | a successful solver result is returned as is; otherwise the program exits with the solver's message |
| Production.ProductionCalculator.constructor | calc_lib/production_calculator.py:19-23 | a new calculator holds its matrix and no result |
| Production.ProductionCalculator.GetResult | calc_lib/production_calculator.py:55-59 | `result` is a RuntimeError exactly while nothing is stored, else the stored result |
| Production.ProductionCalculator.Calculate | calc_lib/production_calculator.py:61-69 | `calculate` stores the solver result before checking it, then returns its outcome |
| Calculators.EqIndex | calc.max_power.waste_free.wo_conv.py:22-24 | the equality labels are the net-zero items followed by, exactly when plutonium may not be sunk, the plutonium fuel rod |
| Calculators.PinnedBounds | calc.max_power.waste_free.wo_conv.py:30-35 | one bound per limit entry, in order: (0, 0) for a converter recipe's row, (0, limit) otherwise |
| Calculators.ConverterPinnedBounds | calc.max_power.waste_free.wo_conv.py:30-35 | the loop of appends builds exactly those bounds |
| Calculators.PlainBoundsMeaning | calc.max_power.waste_free.py:29 | a plan is within `(0, gl)` bounds iff every variant runs at a non-negative rate no greater than its limit |
| Calculators.PinnedBoundsMeaning | calc.max_power.waste_free.wo_conv.py:30-35 | the pinned bounds demand the same, and that no resource-conversion variant runs |
| Calculators.SplitFails | calc.max_power.waste_free.wo_conv.py:25-28 | the split fails exactly when the somersloop column, an equality label or the objective row is missing |
| Calculators.SplitShape | calc.max_power.waste_free.wo_conv.py:25-37 | a successful split takes the equality rows in the order named and every other row in order as inequalities, and uses the named objective row and the given bounds |
| Calculators.SplitMeaning | calc.max_power.waste_free.wo_conv.py:16-28 | a plan satisfies the split program iff every equality item's net flow is 0, every other column's is ≥ 0, and it uses at most 106 somersloops |
| Calculators.ObjectiveMeaning | calc.max_power.waste_free.wo_conv.py:37 | minimising an aggregate's constraint row maximises the plan's net flow of that aggregate |
| Calculators.WasteFreeNoConverterMeaning | calc.max_power.waste_free.wo_conv.py:8-41 | see below |
| Calculators.WasteFreeMeaning | calc.max_power.waste_free.py:8-36 | the same program with plain `(0, limit)` bounds |
| Calculators.MaxPointMeaning | calc.max_point.with_sloop.py:8-29 | exactly the net-zero items are pinned; the bounds are plain; minimising the objective maximises the sink-point rate |
| Calculators.WasteProneShape | calc.max_power.waste_prone.py:8-21 | the program exists iff the somersloop and raw-power columns do; it has no equalities, the whole base matrix and vector as inequalities, plain bounds, and the raw-power row as objective |
| Calculators.WasteProneMeaning | calc.max_power.waste_prone.py:12-21 | a plan is feasible iff no column runs a deficit and it uses at most 106 somersloops; the objective is minus raw power |
| Calculators.MaxPowerWasteFreeNoConverter | calc.max_power.waste_free.wo_conv.py:8-41 | the script hands its program to `calculate` and caches the solver result; an error while building the program leaves the cache alone |
| Calculators.MaxPowerWasteFree | calc.max_power.waste_free.py:8-36 | the same for the waste-free program |
| Calculators.MaxPoint | calc.max_point.with_sloop.py:8-29 | the same for the maximum-points program |
| Calculators.MaxPowerWasteProne | calc.max_power.waste_prone.py:8-21 | the same for the waste-prone program |
| Reports.DetailTotalsFails | calc_lib/production_calculator.py:95-114 | the recipe-detail totals fail, with an IndexError, exactly when the plan runs a variable past the matrix's last row at a rate above 1e-8 |
| Reports.TotalSomersloopAtMostFlow | calc_lib/production_calculator.py:95-112 | with non-negative rates and counts, the somersloop total over any prefix is at most the plan's somersloop use over it |
| Reports.TotalSomersloopWithinLimit | calc_lib/production_calculator.py:93-112 | a plan meeting the somersloop constraint, with non-negative rates, reports at most 106 somersloops |
| Reports.ReportRecipeDetails | calc_lib/production_calculator.py:80-148 | the totals over the stored result's rates, or the RuntimeError when nothing is stored |
| Reports.NetFlows | calc_lib/production_calculator.py:158 | `coef.T @ x` holds each column's net flow |
| Reports.SinkPointsNonNegative | calc_lib/production_calculator.py:166-167 | a sinkable item's output is worth points × amount × 60, which is positive |
| Reports.NetLinesMembers | calc_lib/production_calculator.py:160-165 | the report lists, in column order, exactly the columns that are items with a net output of at least 1e-8 |
| Reports.NetLinesDistinct | calc_lib/production_calculator.py:160-177 | no item is listed twice |
| Reports.NetLinesRight | calc_lib/production_calculator.py:165-176 | a line's output is its net flow rescaled per minute; it has points iff the item is sinkable, and these are points × net flow × 60 |
| Reports.NetLinesTotal | calc_lib/production_calculator.py:159-168 | the total sink points are never negative |
| Reports.NetProductsMeaning | calc_lib/production_calculator.py:150-185 | see below |
| Reports.NetProductLines | calc_lib/production_calculator.py:159-177 | the loop over columns builds exactly those lines and sums their points |
| Reports.ReportNetProducts | calc_lib/production_calculator.py:150-185 | the net products of the stored result, or the RuntimeError when nothing is stored |
| Reports.ProxyRowsMeaning | calc_lib/production_calculator.py:197-202 | selecting proxy rows succeeds iff every row label starts with a known recipe (a KeyError otherwise); it then gives, in order, exactly the rows of resource-proxy recipes |
| Reports.UtilisationLinesMeaning | calc_lib/production_calculator.py:203-230 | see below |
| Reports.PercentOf | calc_lib/production_calculator.py:220-221 | percentage × ceiling = 100 × use, so the percentage is at most 100 iff the use is within the ceiling |
| Reports.ReportResourceSummary | calc_lib/production_calculator.py:187-233 | the resource summary of the stored result, or the RuntimeError when nothing is stored |

The longer "states" entries:

- **Elements.Building.GetBasePower**:
  - a variable-power building without a recipe is a ValueError;
  - with a recipe, the result is −(constant + factor/2);
  - otherwise the power is negative iff the building consumes, and is then −consumption;
  - it is positive iff the building does not consume but produces, and is then +production;
  - else it is 0.
- **Elements.Building.GetOverclockPowerMultiplier**:
  - a clock outside 1..250 is rejected;
  - a consumer gets (clock/100) ** exponent, a producer clock/100, anything else 1.0.
- **Elements.Building.GetOverclockedPower**:
  - a producer gets production × clock/100, independent of somersloops;
  - a consumer gets −consumption × (clock/100)^exponent × (s × boost + 1)^boost exponent, or a ValueError for a count the slots cannot hold;
  - a building with no power gets 0;
  - a variable-power building without a recipe is a ValueError;
  - a bad clock is rejected whenever the base power is not 0.
- **Dataset.RecipeDataset.Add**:
  - a recipe, building or item is stored under its class name in its own dictionary and nothing else changes;
  - any other type is a TypeError that changes nothing;
  - validity is kept: every entry sits under its own class name.
- **Proxies.GeneratorRecipeMeaning**:
  - a burner recipe takes one unit of fuel per cycle;
  - the cycle lasts exactly the unit's energy at the generator's output;
  - the supplemental resource is there iff the generator needs one, and then equals int(ratio × energy);
  - there is a product iff there is a byproduct, and it is the byproduct amount;
  - the recipe runs in that generator only, has the default global limit −1 and is not a resource proxy.
- **Proxies.NodeRecipeShape**: a node recipe
  - is a resource proxy;
  - has global limit = the node count, which is > 0;
  - has one product, the item, at items per cycle × purity multiplier.
- **Proxies.AddResourceProxyRecipes**: the corrected resource step (with the corrected geyser step, see Findings)
  - nodes, wells, unrestrained sources and geysers are added in that order;
  - each step runs only if the one before succeeded;
  - the final contents, or the first error, are those of the specification.
- **Curator.CurateFromDocs**: the corrected curation (see Findings)
  - the steps run in order: items, buildings, recipes, generator proxies, resource proxies, then the sink-point fill;
  - the result is the curated dataset, or the first error raised.
- **Matrix.BasicCoefMatrixRow**:
  - the row is named as given;
  - its columns are exactly somersloop, power, raw_power and points_gain_rate, in that order;
  - raw power is the power when positive, else 0.
- **Matrix.AssembleRowFlows**:
  - a product holds amount × multiplier × cps;
  - an ingredient that is not also a product holds −amount × cps;
  - the row has only the aggregate and item columns, aggregates first.
- **Matrix.AppendRegularRecipe**:
  - a recipe no known building runs adds nothing;
  - otherwise each variant's row is appended with its limit entry, in variant order, stopping at the first error.
- **Matrix.RowFoldShape**:
  - the loop succeeds iff every row can be built;
  - it then appends one row per variant, in order;
  - it sets each row's limit under the row's name.
- **Matrix.MatricesShape**:
  - the limit series is keyed by the row labels, in row order, with none repeated;
  - the columns appear once each, start with the four aggregates, and are exactly the keys of the rows;
  - a missing cell is 0.
- **Production.ConstraintMatrixBase**:
  - the result is the transpose of the coefficient matrix, negated except for the somersloop column;
  - the recipe matrix is not modified;
  - a missing "somersloop" column is a KeyError.
- **Calculators.WasteFreeNoConverterMeaning**:
  - the program exists when the somersloop, raw-power and equality columns exist;
  - a plan is feasible iff it:
    - makes zero net flow of every net-zero item (and of plutonium rods when they may not be sunk);
    - makes no deficit of any other column;
    - uses at most 106 somersloops;
    - stays within every limit;
    - runs no resource converter;
  - the objective is minus the plan's raw power.
- **Reports.NetProductsMeaning**:
  - the net products list, in column order and once each, exactly the matrix columns that are items with a net output of at least 1e-8, each line right about its item;
  - the total is the lines' sink points and is never negative;
  - a plan of the wrong length is a ValueError.
- **Reports.UtilisationLinesMeaning**:
  - there is one line per configured resource that is a dataset item, in table order;
  - the consumption is known iff the matrix has the column or there are no proxy rows;
  - with the column it is the proxy rows' rescaled rate of the resource, per minute; with no proxy rows it is 0;
  - a percentage is shown iff the ceiling is positive and the consumption is known, and then it is use per minute / ceiling × 100.

## Left out

- Reading `Docs.json` and the dataset JSON files is not modelled: file I/O, UTF-16 decoding, `_dictize`, `RecipeDataset.to_json`/`from_json` and `RecipeMatrix.from_curated_recipe_dataset_json`.
  - The docs data enters the model already read into items, buildings, recipes, generators and power boosters per native class (`Curator.DocsData`).
- The regular-expression parsers `_parse_enclosed_array` and `_parse_item_amount_pair_array`, and the field readers of `CuratedItem`, `CuratedBuilding` and `CuratedRecipe.curate_from`, are left out: they depend on Python's `re` engine and on float/int parsing.
  - The `produced_in` splitting of `CuratedRecipe.curate_from` is modelled (`Curation.ProducedIn`).
- Curator.CurateFromDocs requires every docs recipe to have well-formed amount maps (`Curator.Parsed`), which every parsed Python dict has.
- Curator.CurateFromDocs models the corrected curation: the power booster step `_add_apa_building_and_proxy_recipes` is left out of it, and the geyser step is the corrected one.
  - As written, the booster step raises KeyError when the docs data has no `FGBuildablePowerBooster` class, and TypeError as soon as that class lists a booster: its `CuratedBuilding(...)` passes `base_power_boost` and `fueled_power_boost`, which are not fields of `Building`. With an empty booster list it adds nothing (`Curator.ApaStepAsWrittenFails`).
  - The booster building and its recipes have no counterpart in `Building` and `Recipe` (no boost fields, no `overclockable`), so the corrected curation adds nothing for boosters. Reading booster entries is not modelled beyond the fields listed in `Curator.PowerBooster`.
- All text output is left out: the printed tables, `item_flux_repr`, the `simplify_decimal` calls on report fields, warnings on stderr, and `report()`, which only calls the three reports in turn.
  - The reports are modelled as the numbers they print.
  - A recipe-detail row's ingredient and product strings are not modelled.
- Util.SimplifyDecimal takes the string already formatted with a fixed number of decimals: formatting a float is not modelled.
  - SimplifyDecimalNoTrailingZero assumes that string has at most one dot, as every fixed-point rendering does.
- Floating-point rounding: floats are exact reals.
  - `x ** e` with a real exponent is the parameter `pow`, about which nothing is assumed.
- `scipy.optimize.linprog` is the parameter `solve`.
  - Optimality, infeasibility and unboundedness of the program are not modelled.
  - `sys.exit(1)` after a failed solve is the error `SolverFailed` carrying the solver's message.
- Matrix.ClockSpeeds does not fix the order of `list({production, 250})`. In CPython a `ClockSpeed` is an `int` and hashes to its value, so that order is fixed by the set's table layout (the production clock comes first exactly when it is at most 2 modulo 8; the default 100 comes after 250). The model does not encode the set layout: the order is the parameter `productionClockFirst`.
- `Matrix.RecipeMatrix` holds the dataset as a value snapshot taken at construction. Aliasing between the matrix and a dataset object mutated later is not modelled.
- Reports.UtilisationLinesMeaning: when there are proxy rows, `reindex` fills a configured resource the matrix has no column for with NaN, and `.T @ x` gives NaN. The model gives that line no consumption and no percentage (`None`). With no proxy rows the product is empty and every consumption is 0, as in the source.
- Config.RESOURCE_GLOBAL_LIMIT and the other dict literals are sequences of pairs in literal order; lookups take the first pair with a key. The literals repeat no key.
- Curation.Int: `int()` of a float truncates toward zero. Supplemental amounts are exact reals before truncation, so float rounding just below an integer is not modelled.
- `functools.cached_property` caching of `raw_resources` is not modelled. `RecipeDataset.RawResources` recomputes the set on every call.
- Elements.Building.GetOverclockedPower: for a variable-power building with a recipe, the contract states only that a bad clock is rejected when the base power is not zero. The value itself, the base power times the overclock and somersloop multipliers, is left to the definition.
- `calc.max_point.py`, `apa_grid.max_power.data_gen.py` and the other scripts call methods the calculator does not define, or only plot, write spreadsheets or convert encodings. They are not part of this model, and neither are the `__main__` loops of the four modelled scripts.

## Findings

| source | as written | input that shows it | evidently intended | confidence | as-written member | corrected member |
|---|---|---|---|---|---|---|
| calc_lib/recipe_dataset_curator.py:345 | `_add_geothermal_proxy_recipes` passes `overclockable=False` to the `Recipe` dataclass, which has no such field (calc_lib/elements.py:69-82), so constructing the first geyser recipe raises TypeError and curation stops | any docs data containing `Build_GeneratorGeoThermal_C` | one geyser recipe per configured purity, each a resource proxy with no ingredients or products, limited to the geyser count, on which the geothermal generator produces 200 MW × the purity multiplier | not executed | Proxies.GeothermalAsWrittenFails | Proxies.GeothermalRecipeShape |
| calc_lib/recipe_dataset_curator.py:184-197 | `_add_apa_building_and_proxy_recipes` indexes `data[d]` for the booster class and builds each booster with `CuratedBuilding(..., base_power_boost=..., fueled_power_boost=0.3)`; `Building` (calc_lib/elements.py:119-135) has neither field, so the first booster raises TypeError, and docs data without the class raises KeyError; either stops curation | docs data whose `FGBuildablePowerBooster` class lists one booster, or that has no such class | the booster building and its unfueled and fueled proxy recipes added, or at least curation not stopped | not executed | Curator.ApaStepAsWrittenFails | Curator.CurateFromDocs |
