/** The building blocks of `RecipeDatasetCurator`
    (`calc_lib/recipe_dataset_curator.py`): its class-name and
    produced-in string helpers, loops of `add` calls that stop at the first
    error, reading items, buildings and recipes out of the docs data, and
    filling in every recipe's sink-point gains. */
module Curation {
  import opened Wrappers
  import opened Strings
  import opened Dicts
  import Config
  import opened Elements
  import opened Dataset

  // ----- Class-name helpers -----

  lemma {:induction false} CountMeaning(s: string, c: char)
    ensures Count(s, c) == 0 <==> c !in s
  {
    if |s| > 0 {
      CountMeaning(s[1..], c);
      assert s == [s[0]] + s[1..];
    }
  }

  /** `_strip_classname_prefix`: the text after the last `.` of the piece
      before the last `'`. A text without `'` has too few pieces, an IndexError. */
  function StripClassnamePrefix(s: string): (r: Result<string>)
    ensures r.Ok? <==> '\'' in s
    ensures r.Ok? ==> '\'' !in r.value && '.' !in r.value
  {
    var pieces := Split(s, '\'');
    SplitJoin(s, '\'');
    CountMeaning(s, '\'');
    if |pieces| < 2 then Err(IndexError)
    else
      SplitPiecesWithoutSeparator(s, '\'');
      var piece := pieces[|pieces| - 2];
      var names := Split(piece, '.');
      SplitKeepsCharacters(piece, '.');
      SplitPiecesWithoutSeparator(piece, '.');
      var last := names[|names| - 1];
      assert forall ch :: ch in last ==> ch in piece;
      Ok(last)
  }

  /** A native class path `a'b.c'` with a plain class name `c` names `c`,
      whatever comes before the quote. */
  lemma ClassnameOfNativePath(a: string, b: string, c: string)
    requires '\'' !in b && '\'' !in c && '.' !in c
    ensures StripClassnamePrefix(a + "'" + b + "." + c + "'") == Ok(c)
  {
    var m := b + "." + c;
    assert m == b + ['.'] + c;
    assert '\'' !in m;
    assert a + "'" + b + "." + c + "'" == a + ['\''] + (m + ['\''] + "");
    SplitConcat(a, '\'', m + ['\''] + "");
    SplitConcat(m, '\'', "");
    SplitWithoutSeparator(m, '\'');
    SplitConcat(b, '.', c);
    SplitWithoutSeparator(c, '.');
  }

  /** The short name of a docs native class is its class name. */
  lemma NativeClassName(name: string)
    requires '\'' !in name && '.' !in name
    ensures StripClassnamePrefix(Config.NativeClass(name)) == Ok(name)
  {
    ClassnameOfNativePath("/Script/CoreUObject.Class", "/Script/FactoryGame", name);
  }

  /** The item category read from the resource descriptor class is exactly
      the category that marks raw resources. */
  lemma ResourceDescriptorCategory()
    ensures StripClassnamePrefix(Config.CURATOR_NATIVE_CLASSNAME_LIST_ITEM[1])
            == Ok(Config.CURATOR_NATIVE_CLASSNAME_RESOURCE_SHORT)
  {
    var name := Config.CURATOR_NATIVE_CLASSNAME_RESOURCE_SHORT;
    ResourceShortNameIsPlain();
    NativeClassName(name);
    ResourceDescriptorClass();
  }

  lemma ResourceShortNameIsPlain()
    ensures '\'' !in Config.CURATOR_NATIVE_CLASSNAME_RESOURCE_SHORT
    ensures '.' !in Config.CURATOR_NATIVE_CLASSNAME_RESOURCE_SHORT
  {
  }

  lemma ResourceDescriptorClass()
    ensures Config.CURATOR_NATIVE_CLASSNAME_LIST_ITEM[1]
            == Config.NativeClass(Config.CURATOR_NATIVE_CLASSNAME_RESOURCE_SHORT)
  {
  }

  const PARENS: set<char> := {'(', ')'}
  const QUOTE: set<char> := {'"'}

  /** One entry of a produced-in list: the text after the last `.`, with
      surrounding quotes removed. */
  function ProducedInName(piece: string): (r: string)
    ensures '.' !in r && (forall ch :: ch in r ==> ch in piece)
    ensures |r| == 0 || (r[0] != '"' && r[|r| - 1] != '"')
  {
    var names := Split(piece, '.');
    SplitKeepsCharacters(piece, '.');
    SplitPiecesWithoutSeparator(piece, '.');
    Strip(Last(names), QUOTE)
  }

  /** The `produced_in` of a recipe read from the docs: strip the
      parentheses, split at `,`, keep each entry's class name. There is one
      name per comma plus one, and no name holds a `,` or a `.`. */
  function ProducedIn(s: string): (r: seq<string>)
    ensures |r| == Count(Strip(s, PARENS), ',') + 1
    ensures forall k :: 0 <= k < |r| ==> ',' !in r[k] && '.' !in r[k]
  {
    var pieces := Split(Strip(s, PARENS), ',');
    SplitJoin(Strip(s, PARENS), ',');
    SplitPiecesWithoutSeparator(Strip(s, PARENS), ',');
    seq(|pieces|, k requires 0 <= k < |pieces| => ProducedInName(pieces[k]))
  }

  /** How the docs write one building: `"path.Name"`. */
  function Quoted(path: string, name: string): string {
    "\"" + path + "." + name + "\""
  }

  function QuotedAll(paths: seq<string>, names: seq<string>): (q: seq<string>)
    requires |paths| == |names|
    ensures |q| == |names| && forall k :: 0 <= k < |q| ==> q[k] == Quoted(paths[k], names[k])
  {
    seq(|names|, k requires 0 <= k < |names| => Quoted(paths[k], names[k]))
  }

  lemma {:induction false} JoinThenSplit(parts: seq<string>, sep: char)
    requires |parts| >= 1 && forall k :: 0 <= k < |parts| ==> sep !in parts[k]
    ensures Split(Join(parts, sep), sep) == parts
  {
    if |parts| == 1 {
      SplitWithoutSeparator(parts[0], sep);
    } else {
      JoinThenSplit(parts[1..], sep);
      SplitConcat(parts[0], sep, Join(parts[1..], sep));
      SplitWithoutSeparator(parts[0], sep);
      assert parts == [parts[0]] + parts[1..];
    }
  }

  lemma {:induction false} JoinEnds(parts: seq<string>, sep: char, first: char, last: char)
    requires |parts| >= 1 && forall k :: 0 <= k < |parts| ==> |parts[k]| >= 1 && parts[k][0] == first
    requires forall k :: 0 <= k < |parts| ==> parts[k][|parts[k]| - 1] == last
    ensures var j := Join(parts, sep); |j| >= 1 && j[0] == first && j[|j| - 1] == last
  {
    if |parts| > 1 {
      JoinEnds(parts[1..], sep, first, last);
    }
  }

  /** The last `.`-piece of a quoted entry is the class name and its closing quote. */
  lemma QuotedLastPiece(path: string, name: string)
    requires '.' !in name && '"' !in name
    ensures Last(Split(Quoted(path, name), '.')) == name + "\""
  {
    var tail := name + "\"";
    assert Quoted(path, name) == ("\"" + path) + ['.'] + tail;
    SplitConcat("\"" + path, '.', tail);
    SplitWithoutSeparator(tail, '.');
  }

  /** Stripping quotes off a name and its closing quote gives the name. */
  lemma StripClosingQuote(name: string)
    requires '"' !in name
    ensures Strip(name + "\"", QUOTE) == name
  {
    var tail := name + "\"";
    assert tail[..|tail| - 1] == name;
    assert RStrip(tail, QUOTE) == RStrip(name, QUOTE);
    assert RStrip(name, QUOTE) == name;
    assert LStrip(name, QUOTE) == name;
  }

  lemma ProducedInNameOfQuoted(path: string, name: string)
    requires '.' !in name && '"' !in name
    ensures ProducedInName(Quoted(path, name)) == name
  {
    QuotedLastPiece(path, name);
    StripClosingQuote(name);
  }

  /** Reading back a produced-in list written the way the docs write it
      gives the building class names, in order. */
  lemma ProducedInRoundTrip(paths: seq<string>, names: seq<string>)
    requires |paths| == |names| >= 1
    requires forall k :: 0 <= k < |names| ==> ',' !in paths[k]
    requires forall k :: 0 <= k < |names| ==> ',' !in names[k] && '.' !in names[k] && '"' !in names[k]
    ensures ProducedIn("(" + Join(QuotedAll(paths, names), ',') + ")") == names
  {
    var q := QuotedAll(paths, names);
    var j := Join(q, ',');
    forall k | 0 <= k < |q|
      ensures ',' !in q[k] && |q[k]| >= 1 && q[k][0] == '"' && q[k][|q[k]| - 1] == '"'
    {
      assert q[k] == "\"" + paths[k] + "." + names[k] + "\"";
    }
    JoinEnds(q, ',', '"', '"');
    StripParensAround(j);
    JoinThenSplit(q, ',');
    var r := ProducedIn("(" + j + ")");
    assert |r| == |names|;
    forall k | 0 <= k < |names|
      ensures r[k] == names[k]
    {
      ProducedInNameOfQuoted(paths[k], names[k]);
    }
  }

  /** Stripping the parentheses around a text that neither starts nor ends
      with one gives the text back. */
  lemma StripParensAround(j: string)
    requires |j| >= 1 && j[0] !in PARENS && j[|j| - 1] !in PARENS
    ensures Strip("(" + j + ")", PARENS) == j
  {
    var s := "(" + j + ")";
    assert s[..|s| - 1] == "(" + j;
    assert RStrip(s, PARENS) == "(" + j;
    assert ("(" + j)[1..] == j;
  }

  /** Python's `int(x)` on a float: truncation toward zero. */
  function Int(x: real): (r: int)
    ensures x >= 0.0 ==> r as real <= x < r as real + 1.0
    ensures x < 0.0 ==> r as real - 1.0 < x <= r as real
  {
    if x >= 0.0 then x.Floor else -((-x).Floor)
  }

  // ----- Loops of `add` calls -----

  /** What a loop of `add` calls did: the entities it stored, in order, and
      the error that stopped it, if one did. */
  datatype Attempt = Attempt(added: seq<Entity>, failure: Option<Error>)

  function Adds(objs: seq<Entity>): Attempt {
    Attempt(objs, None)
  }

  function Fail(e: Error): Attempt {
    Attempt([], Some(e))
  }

  /** `b` run after `a`, unless `a` was stopped by an error. */
  function Then(a: Attempt, b: Attempt): Attempt {
    if a.failure.Some? then a else Attempt(a.added + b.added, b.failure)
  }

  /** A loop over `xs` whose body does `body(x)`. */
  function ForEach<T>(xs: seq<T>, body: T -> Attempt): Attempt {
    if |xs| == 0 then Adds([]) else Then(ForEach(xs[..|xs| - 1], body), body(xs[|xs| - 1]))
  }

  lemma ForEachStep<T>(xs: seq<T>, i: int, body: T -> Attempt)
    requires 0 <= i < |xs|
    ensures ForEach(xs[..i + 1], body) == Then(ForEach(xs[..i], body), body(xs[i]))
  {
    assert xs[..i + 1][..i] == xs[..i];
  }

  /** An error in some iteration ends the whole loop. */
  lemma {:induction false} ForEachStops<T>(xs: seq<T>, i: int, body: T -> Attempt)
    requires 0 <= i <= |xs| && ForEach(xs[..i], body).failure.Some?
    ensures ForEach(xs, body) == ForEach(xs[..i], body)
    decreases |xs|
  {
    if i == |xs| {
      assert xs[..i] == xs;
    } else {
      var init := xs[..|xs| - 1];
      assert init[..i] == xs[..i];
      ForEachStops(init, i, body);
    }
  }

  /** A loop adds only what its iterations add. */
  lemma {:induction false} ForEachAll<T>(xs: seq<T>, body: T -> Attempt, P: Entity -> bool)
    requires forall x :: x in xs ==> forall e :: e in body(x).added ==> P(e)
    ensures forall e :: e in ForEach(xs, body).added ==> P(e)
  {
    if |xs| > 0 {
      var init := xs[..|xs| - 1];
      assert forall x :: x in init ==> x in xs;
      ForEachAll(init, body, P);
      assert xs[|xs| - 1] in xs;
    }
  }

  /** A loop whose every iteration adds one entity adds them all, in order. */
  lemma {:induction false} ForEachOne<T>(xs: seq<T>, body: T -> Attempt, f: T -> Entity)
    requires forall k :: 0 <= k < |xs| ==> body(xs[k]) == Adds([f(xs[k])])
    ensures ForEach(xs, body).failure.None? && |ForEach(xs, body).added| == |xs|
    ensures forall k :: 0 <= k < |xs| ==> ForEach(xs, body).added[k] == f(xs[k])
  {
    if |xs| > 0 {
      var n := |xs| - 1;
      assert forall k :: 0 <= k < n ==> xs[..n][k] == xs[k];
      ForEachOne(xs[..n], body, f);
      assert body(xs[n]) == Adds([f(xs[n])]);
    }
  }

  /** The catalogue after `add(obj)` (see `RecipeDataset.Add`). */
  function Added(c: Catalogue, obj: Entity): Catalogue {
    match obj
    case RecipeEntity(r) => c.(recipes := c.recipes.Set(r.classname, r))
    case BuildingEntity(b) => c.(buildings := c.buildings.Set(b.classname, b))
    case ItemEntity(i) => c.(items := c.items.Set(i.classname, i))
    case OtherEntity(_) => c
  }

  /** The catalogue after adding `objs` in order. */
  function AddAll(c: Catalogue, objs: seq<Entity>): Catalogue {
    if |objs| == 0 then c else Added(AddAll(c, objs[..|objs| - 1]), objs[|objs| - 1])
  }

  lemma {:induction false} AddAllAppend(c: Catalogue, a: seq<Entity>, b: seq<Entity>)
    ensures AddAll(c, a + b) == AddAll(AddAll(c, a), b)
  {
    if |b| == 0 {
      assert a + b == a;
    } else {
      assert (a + b)[..|a + b| - 1] == a + b[..|b| - 1];
      AddAllAppend(c, a, b[..|b| - 1]);
    }
  }

  /** Adding recipes leaves the items and the buildings alone. */
  lemma {:induction false} AddAllRecipes(c: Catalogue, objs: seq<Entity>)
    requires forall e :: e in objs ==> e.RecipeEntity?
    ensures AddAll(c, objs).items == c.items && AddAll(c, objs).buildings == c.buildings
  {
    if |objs| > 0 {
      assert objs[|objs| - 1] in objs;
      assert forall e :: e in objs[..|objs| - 1] ==> e in objs;
      AddAllRecipes(c, objs[..|objs| - 1]);
    }
  }

  /** A method that ran the loop `a` from catalogue `c0` and left `c`:
      it stored what the loop added and reports the error that stopped it. */
  ghost predicate Did(c0: Catalogue, a: Attempt, c: Catalogue, r: Result<()>) {
    && c == AddAll(c0, a.added)
    && (r.Ok? <==> a.failure.None?)
    && (r.Err? ==> r.error == a.failure.value)
  }

  /** A loop whose iteration `i` stopped with an error, after the earlier
      iterations added `done` and the failing one left `c`: the whole loop
      did exactly that. */
  lemma LoopStops<T>(c0: Catalogue, xs: seq<T>, i: int, body: T -> Attempt, done: seq<Entity>,
                     c: Catalogue, r: Result<()>)
    requires 0 <= i < |xs| && ForEach(xs[..i], body) == Adds(done)
    requires Did(AddAll(c0, done), body(xs[i]), c, r) && r.Err?
    ensures Did(c0, ForEach(xs, body), c, r)
  {
    ForEachStep(xs, i, body);
    AddAllAppend(c0, done, body(xs[i]).added);
    ForEachStops(xs, i + 1, body);
  }

  /** A loop whose iteration `i` added its entities without error has
      added `done` followed by them so far. */
  lemma LoopGoesOn<T>(c0: Catalogue, xs: seq<T>, i: int, body: T -> Attempt, done: seq<Entity>,
                      c: Catalogue, r: Result<()>)
    requires 0 <= i < |xs| && ForEach(xs[..i], body) == Adds(done)
    requires Did(AddAll(c0, done), body(xs[i]), c, r) && r.Ok?
    ensures ForEach(xs[..i + 1], body) == Adds(done + body(xs[i]).added)
    ensures c == AddAll(c0, done + body(xs[i]).added)
  {
    ForEachStep(xs, i, body);
    AddAllAppend(c0, done, body(xs[i]).added);
  }

  /** An iteration that adds the one entity `e`. */
  lemma LoopAddsOne<T>(c0: Catalogue, xs: seq<T>, i: int, body: T -> Attempt, done: seq<Entity>, e: Entity)
    requires 0 <= i < |xs| && ForEach(xs[..i], body) == Adds(done) && body(xs[i]) == Adds([e])
    ensures ForEach(xs[..i + 1], body) == Adds(done + [e])
    ensures AddAll(c0, done + [e]) == Added(AddAll(c0, done), e)
  {
    ForEachStep(xs, i, body);
    assert (done + [e])[..|done|] == done;
  }

  /** An iteration that adds nothing. */
  lemma LoopSkips<T>(xs: seq<T>, i: int, body: T -> Attempt, done: seq<Entity>)
    requires 0 <= i < |xs| && ForEach(xs[..i], body) == Adds(done) && body(xs[i]) == Adds([])
    ensures ForEach(xs[..i + 1], body) == Adds(done)
  {
    ForEachStep(xs, i, body);
    assert done + [] == done;
  }

  /** A loop that went through all of `xs` without error. */
  lemma LoopEnds<T>(c0: Catalogue, xs: seq<T>, body: T -> Attempt, done: seq<Entity>, c: Catalogue)
    requires ForEach(xs[..|xs|], body) == Adds(done) && c == AddAll(c0, done)
    ensures Did(c0, ForEach(xs, body), c, Ok(()))
  {
    assert xs[..|xs|] == xs;
  }

  /** `self.add(obj)` for each of `objs` in turn. */
  method AddEach(ds: RecipeDataset, objs: seq<Entity>)
    requires ds.Valid()
    requires forall e :: e in objs ==> WellFormed(e)
    modifies ds
    ensures ds.Valid() && ds.Contents() == AddAll(old(ds.Contents()), objs)
  {
    ghost var c0 := ds.Contents();
    for i := 0 to |objs|
      invariant ds.Valid() && ds.Contents() == AddAll(c0, objs[..i])
    {
      assert objs[..i + 1][..i] == objs[..i];
      assert objs[i] in objs;
      var _ := ds.Add(objs[i]);
    }
    assert objs[..|objs|] == objs;
  }

  // ----- Reading the docs data -----

  /** The items of one native class, tagged with the class's short name. */
  function WithCategory(items: seq<Item>, category: string): (objs: seq<Entity>)
    ensures |objs| == |items|
    ensures forall k :: 0 <= k < |items| ==> objs[k] == ItemEntity(items[k].(category := Some(category)))
  {
    seq(|items|, k requires 0 <= k < |items| => ItemEntity(items[k].(category := Some(category))))
  }

  /** `_curate_items`, one native class: take its short name as category,
      then every item listed under it (a KeyError if the data lacks it). */
  function ItemClass(data: map<string, seq<Item>>, d: string): Attempt {
    match StripClassnamePrefix(d)
    case Err(e) => Fail(e)
    case Ok(category) => if d !in data then Fail(KeyError(d)) else Adds(WithCategory(data[d], category))
  }

  function ItemClassStep(data: map<string, seq<Item>>): string -> Attempt {
    d => ItemClass(data, d)
  }

  function CuratedItems(data: map<string, seq<Item>>): Attempt {
    ForEach(Config.CURATOR_NATIVE_CLASSNAME_LIST_ITEM, ItemClassStep(data))
  }

  function BuildingClass(data: map<string, seq<Building>>, d: string): Attempt {
    if d !in data then Fail(KeyError(d))
    else Adds(seq(|data[d]|, k requires 0 <= k < |data[d]| => BuildingEntity(data[d][k])))
  }

  function BuildingClassStep(data: map<string, seq<Building>>): string -> Attempt {
    d => BuildingClass(data, d)
  }

  function CuratedBuildings(data: map<string, seq<Building>>): Attempt {
    ForEach(Config.CURATOR_NATIVE_CLASSNAME_LIST_BUILDING, BuildingClassStep(data))
  }

  function RecipeClass(data: map<string, seq<Recipe>>, d: string): Attempt {
    if d !in data then Fail(KeyError(d))
    else Adds(seq(|data[d]|, k requires 0 <= k < |data[d]| => RecipeEntity(data[d][k])))
  }

  function RecipeClassStep(data: map<string, seq<Recipe>>): string -> Attempt {
    d => RecipeClass(data, d)
  }

  function CuratedRecipes(data: map<string, seq<Recipe>>): Attempt {
    ForEach(Config.CURATOR_NATIVE_CLASSNAME_LIST_RECIPE, RecipeClassStep(data))
  }

  /** Items read from the resource descriptor class carry the raw-resource
      category. */
  lemma ResourceItemsCategory(data: map<string, seq<Item>>)
    requires Config.CURATOR_NATIVE_CLASSNAME_LIST_ITEM[1] in data
    ensures forall e :: e in ItemClass(data, Config.CURATOR_NATIVE_CLASSNAME_LIST_ITEM[1]).added ==>
              e.ItemEntity? && e.item.category == Some(Config.CURATOR_NATIVE_CLASSNAME_RESOURCE_SHORT)
  {
    ResourceDescriptorCategory();
  }

  /** `_curate_items`, one native class. */
  method CurateItemClass(ds: RecipeDataset, data: map<string, seq<Item>>, d: string) returns (r: Result<()>)
    requires ds.Valid()
    modifies ds
    ensures ds.Valid() && Did(old(ds.Contents()), ItemClass(data, d), ds.Contents(), r)
  {
    var category := StripClassnamePrefix(d);
    if category.Err? {
      return Err(category.error);
    }
    if d !in data {
      return Err(KeyError(d));
    }
    AddEach(ds, WithCategory(data[d], category.value));
    r := Ok(());
  }

  /** `_curate_items`: every listed native class in order. */
  method CurateItems(ds: RecipeDataset, data: map<string, seq<Item>>) returns (r: Result<()>)
    requires ds.Valid()
    modifies ds
    ensures ds.Valid() && Did(old(ds.Contents()), CuratedItems(data), ds.Contents(), r)
  {
    r := CurateItemClasses(ds, data, Config.CURATOR_NATIVE_CLASSNAME_LIST_ITEM);
  }

  method CurateItemClasses(ds: RecipeDataset, data: map<string, seq<Item>>, classes: seq<string>)
    returns (r: Result<()>)
    requires ds.Valid()
    modifies ds
    ensures ds.Valid() && Did(old(ds.Contents()), ForEach(classes, ItemClassStep(data)), ds.Contents(), r)
  {
    ghost var c0 := ds.Contents();
    ghost var done: seq<Entity> := [];
    ghost var step := ItemClassStep(data);
    for i := 0 to |classes|
      invariant ds.Valid() && ds.Contents() == AddAll(c0, done)
      invariant ForEach(classes[..i], step) == Adds(done)
    {
      r := CurateItemClass(ds, data, classes[i]);
      if r.Err? {
        LoopStops(c0, classes, i, step, done, ds.Contents(), r);
        return;
      }
      LoopGoesOn(c0, classes, i, step, done, ds.Contents(), r);
      done := done + step(classes[i]).added;
    }
    r := Ok(());
    LoopEnds(c0, classes, step, done, ds.Contents());
  }

  /** `_curate_buildings`: every listed native class in order. */
  method CurateBuildings(ds: RecipeDataset, data: map<string, seq<Building>>) returns (r: Result<()>)
    requires ds.Valid()
    modifies ds
    ensures ds.Valid() && Did(old(ds.Contents()), CuratedBuildings(data), ds.Contents(), r)
  {
    r := CurateBuildingClasses(ds, data, Config.CURATOR_NATIVE_CLASSNAME_LIST_BUILDING);
  }

  method CurateBuildingClasses(ds: RecipeDataset, data: map<string, seq<Building>>, classes: seq<string>)
    returns (r: Result<()>)
    requires ds.Valid()
    modifies ds
    ensures ds.Valid() && Did(old(ds.Contents()), ForEach(classes, BuildingClassStep(data)), ds.Contents(), r)
  {
    ghost var c0 := ds.Contents();
    ghost var done: seq<Entity> := [];
    ghost var step := BuildingClassStep(data);
    for i := 0 to |classes|
      invariant ds.Valid() && ds.Contents() == AddAll(c0, done)
      invariant ForEach(classes[..i], step) == Adds(done)
    {
      var d := classes[i];
      if d !in data {
        r := Err(KeyError(d));
        LoopStops(c0, classes, i, step, done, ds.Contents(), r);
        return;
      }
      var objs := seq(|data[d]|, k requires 0 <= k < |data[d]| => BuildingEntity(data[d][k]));
      AddEach(ds, objs);
      LoopGoesOn(c0, classes, i, step, done, ds.Contents(), Ok(()));
      done := done + objs;
    }
    r := Ok(());
    LoopEnds(c0, classes, step, done, ds.Contents());
  }

  /** `_curate_recipes`: every listed native class in order. */
  method CurateRecipes(ds: RecipeDataset, data: map<string, seq<Recipe>>) returns (r: Result<()>)
    requires ds.Valid()
    requires forall d, k :: d in data && 0 <= k < |data[d]| ==> data[d][k].Valid()
    modifies ds
    ensures ds.Valid() && Did(old(ds.Contents()), CuratedRecipes(data), ds.Contents(), r)
  {
    r := CurateRecipeClasses(ds, data, Config.CURATOR_NATIVE_CLASSNAME_LIST_RECIPE);
  }

  method CurateRecipeClasses(ds: RecipeDataset, data: map<string, seq<Recipe>>, classes: seq<string>)
    returns (r: Result<()>)
    requires ds.Valid()
    requires forall d, k :: d in data && 0 <= k < |data[d]| ==> data[d][k].Valid()
    modifies ds
    ensures ds.Valid() && Did(old(ds.Contents()), ForEach(classes, RecipeClassStep(data)), ds.Contents(), r)
  {
    ghost var c0 := ds.Contents();
    ghost var done: seq<Entity> := [];
    ghost var step := RecipeClassStep(data);
    for i := 0 to |classes|
      invariant ds.Valid() && ds.Contents() == AddAll(c0, done)
      invariant ForEach(classes[..i], step) == Adds(done)
    {
      var d := classes[i];
      if d !in data {
        r := Err(KeyError(d));
        LoopStops(c0, classes, i, step, done, ds.Contents(), r);
        return;
      }
      var objs := seq(|data[d]|, k requires 0 <= k < |data[d]| => RecipeEntity(data[d][k]));
      AddEach(ds, objs);
      LoopGoesOn(c0, classes, i, step, done, ds.Contents(), Ok(()));
      done := done + objs;
    }
    r := Ok(());
    LoopEnds(c0, classes, step, done, ds.Contents());
  }

  // ----- Sink points -----

  /** Every recipe with its two sink-point gains recomputed from `items`;
      the keys and their order stay as they were. */
  function FilledSinkPoints(recipes: Dict<Recipe>, items: Dict<Item>): Dict<Recipe> {
    Dict(recipes.keys, map k | k in recipes.entries :: recipes.entries[k].CalculateSinkPoints(items))
  }

  /** Recomputing the gains of a recipe whose gains are already computed
      changes nothing: they depend only on its amounts and the items. */
  lemma CalculateSinkPointsIdempotent(r: Recipe, items: Dict<Item>)
    ensures r.CalculateSinkPoints(items).CalculateSinkPoints(items) == r.CalculateSinkPoints(items)
  {
    var r' := r.CalculateSinkPoints(items);
    assert r'.ingredients == r.ingredients && r'.products == r.products;
    assert r'.PointsPerCycle(items, 1.0, false) == r.PointsPerCycle(items, 1.0, false);
    assert r'.PointsPerCycle(items, 1.0, true) == r.PointsPerCycle(items, 1.0, true);
  }

  /** After filling, every recipe's stored gains are the ones its amounts
      earn, so filling again changes nothing. */
  lemma FilledSinkPointsMeaning(recipes: Dict<Recipe>, items: Dict<Item>)
    ensures var d := FilledSinkPoints(recipes, items);
            && d.keys == recipes.keys && d.entries.Keys == recipes.entries.Keys
            && (forall k :: k in d.entries ==>
                  && d.entries[k].rawSinkPointsGain == d.entries[k].SinkPointsGain(items, 1.0, 1.0, false)
                  && d.entries[k].sinkablePointsGain == d.entries[k].SinkPointsGain(items, 1.0, 1.0, true))
            && FilledSinkPoints(d, items) == d
  {
    var d := FilledSinkPoints(recipes, items);
    forall k | k in d.entries
      ensures d.entries[k].CalculateSinkPoints(items) == d.entries[k]
    {
      CalculateSinkPointsIdempotent(recipes.entries[k], items);
    }
    assert FilledSinkPoints(d, items).entries == d.entries;
  }

  /** `r.calculate_sink_points(self.items)` on the stored recipe `k`. */
  method RefillRecipe(ds: RecipeDataset, k: string)
    requires ds.Valid() && k in ds.recipes.entries
    modifies ds
    ensures ds.Valid() && ds.items == old(ds.items) && ds.buildings == old(ds.buildings)
    ensures ds.recipes == old(ds.recipes).Set(k, old(ds.recipes.entries[k]).CalculateSinkPoints(ds.items))
  {
    var recipe := ds.recipes.entries[k].CalculateSinkPoints(ds.items);
    assert recipe.classname == ds.recipes.entries[k].classname;
    ds.recipes := ds.recipes.Set(k, recipe);
  }

  /** `_fill_sink_points_gain`: recompute the gains of every recipe, in
      place, in key order. */
  method FillSinkPointsGain(ds: RecipeDataset)
    requires ds.Valid()
    modifies ds
    ensures ds.Valid()
    ensures ds.recipes == FilledSinkPoints(old(ds.recipes), ds.items)
    ensures ds.items == old(ds.items) && ds.buildings == old(ds.buildings)
  {
    ghost var r0 := ds.recipes;
    ghost var items := ds.items;
    var keys := ds.recipes.keys;
    for i := 0 to |keys|
      invariant ds.Valid() && ds.items == items && ds.buildings == old(ds.buildings)
      invariant ds.recipes.keys == keys
      invariant FilledUpTo(ds.recipes.entries, r0.entries, keys, i, items)
    {
      ghost var before := ds.recipes.entries;
      RefillRecipe(ds, keys[i]);
      FilledUpToStep(before, r0.entries, keys, i, items);
    }
    FilledUpToAll(ds.recipes.entries, r0, items);
  }

  /** The first `i` recipes of `keys` are refilled, the others untouched. */
  ghost predicate FilledUpTo(m: map<string, Recipe>, r0: map<string, Recipe>, keys: seq<string>, i: int,
                             items: Dict<Item>)
  {
    && (forall j :: 0 <= j < |keys| ==> keys[j] in m && keys[j] in r0)
    && (forall j :: 0 <= j < |keys| && j < i ==> m[keys[j]] == r0[keys[j]].CalculateSinkPoints(items))
    && (forall j :: 0 <= j < |keys| && i <= j ==> m[keys[j]] == r0[keys[j]])
  }

  lemma FilledUpToStep(m: map<string, Recipe>, r0: map<string, Recipe>, keys: seq<string>, i: int,
                       items: Dict<Item>)
    requires Distinct(keys) && 0 <= i < |keys| && FilledUpTo(m, r0, keys, i, items)
    ensures FilledUpTo(m[keys[i] := r0[keys[i]].CalculateSinkPoints(items)], r0, keys, i + 1, items)
  {
    assert forall j :: 0 <= j < |keys| && j != i ==> keys[j] != keys[i];
  }

  lemma FilledUpToAll(m: map<string, Recipe>, r0: Dict<Recipe>, items: Dict<Item>)
    requires r0.Valid() && Dict(r0.keys, m).Valid()
    requires FilledUpTo(m, r0.entries, r0.keys, |r0.keys|, items)
    ensures Dict(r0.keys, m) == FilledSinkPoints(r0, items)
  {
    assert m.Keys == r0.entries.Keys;
    forall k | k in r0.entries
      ensures m[k] == r0.entries[k].CalculateSinkPoints(items)
    {
      var j :| 0 <= j < |r0.keys| && r0.keys[j] == k;
    }
  }
}
