/** The inventory store (DataManager.swift): the pure queries over the current
    ingredients and recipes, and the `DataManager` object that owns them.

    The remote service and the device's key/value store are not called: each
    remote call's outcome is an argument of the method that makes it, the
    key/value slot holding the saved ingredient list is a field, and every
    remote write the store issues is appended to `remoteRequests`. */
module Store {
  import opened Foundation
  import opened Seqs
  import opened Ingredients
  import opened Recipes
  import opened Matching

  // ---------------------------------------------------------------- queries

  function InCategory(category: IngredientCategory): Ingredient -> bool
  {
    (ingredient: Ingredient) => ingredient.category == category
  }

  /** `getIngredientsByCategory`: exactly the ingredients of that category, in order. */
  function IngredientsByCategory(ingredients: seq<Ingredient>, category: IngredientCategory): (r: seq<Ingredient>)
    ensures forall x | x in r :: x in ingredients && x.category == category
    ensures forall x {:trigger x in r} | x in ingredients && x.category == category :: x in r
    ensures forall y :: multiset(r)[y] == if y.category == category then multiset(ingredients)[y] else 0
    ensures IsSubsequence(r, ingredients)
  {
    FilterIsSubsequence(ingredients, InCategory(category));
    FilterSound(ingredients, InCategory(category));
    FilterMultiset(ingredients, InCategory(category));
    Filter(ingredients, InCategory(category))
  }

  /** Due within three whole days: today (0) counts, an already negative count does not. */
  predicate ExpiresSoon(ingredient: Ingredient, now: Date)
  {
    var days := DaysUntilExpiration(ingredient, now);
    days.Some? && 0 <= days.value <= 3
  }

  function ExpiringAt(now: Date): Ingredient -> bool
  {
    ingredient => ExpiresSoon(ingredient, now)
  }

  /** `getExpiringIngredients`: exactly the dated ingredients with 0 to 3 days left, in order. */
  function ExpiringIngredients(ingredients: seq<Ingredient>, now: Date): (r: seq<Ingredient>)
    ensures forall x | x in r ::
              x in ingredients && x.expirationDate.Some? && 0 <= DaysUntilExpiration(x, now).value <= 3
    ensures forall x {:trigger x in r} | x in ingredients && ExpiresSoon(x, now) :: x in r
    ensures forall y :: multiset(r)[y] == if ExpiresSoon(y, now) then multiset(ingredients)[y] else 0
    ensures IsSubsequence(r, ingredients)
  {
    FilterIsSubsequence(ingredients, ExpiringAt(now));
    FilterSound(ingredients, ExpiringAt(now));
    FilterMultiset(ingredients, ExpiringAt(now));
    Filter(ingredients, ExpiringAt(now))
  }

  /** An ingredient that expired less than a day ago is still listed as expiring. */
  lemma JustExpiredIsStillExpiring(ingredients: seq<Ingredient>, k: nat, now: Date)
    requires k < |ingredients| && ingredients[k].expirationDate.Some?
    requires ingredients[k].expirationDate.value < now < ingredients[k].expirationDate.value + SecondsPerDay
    ensures IsExpired(ingredients[k], now)
    ensures ingredients[k] in ExpiringIngredients(ingredients, now)
  {
    ExpiredToday(ingredients[k], now);
  }

  /** The recommendation threshold: at least 70% of the required ingredients matched. */
  predicate IsRecommended(recipe: Recipe, available: seq<Ingredient>)
  {
    RatioAtLeast(MatchedCount(recipe, available), RequiredCount(recipe), 7)
  }

  function RecommendedWith(available: seq<Ingredient>): Recipe -> bool
  {
    recipe => IsRecommended(recipe, available)
  }

  /** `getRecipesForIngredients`: the recipes, in catalogue order, whose required
      ingredients are at least 70% covered; a recipe with nothing required is never kept. */
  function GetRecipesForIngredients(recipes: seq<Recipe>, available: seq<Ingredient>): (r: seq<Recipe>)
    ensures forall x | x in r ::
              x in recipes && RequiredCount(x) > 0 && 10 * MatchedCount(x, available) >= 7 * RequiredCount(x)
    ensures forall x {:trigger x in r} | x in recipes && IsRecommended(x, available) :: x in r
    ensures forall y :: multiset(r)[y] == if IsRecommended(y, available) then multiset(recipes)[y] else 0
    ensures IsSubsequence(r, recipes)
  {
    FilterIsSubsequence(recipes, RecommendedWith(available));
    FilterSound(recipes, RecommendedWith(available));
    FilterMultiset(recipes, RecommendedWith(available));
    Filter(recipes, RecommendedWith(available))
  }

  /** A recipe whose ingredients are all optional is never recommended, whatever is in the fridge. */
  lemma OnlyOptionalNeverRecommended(recipes: seq<Recipe>, recipe: Recipe, available: seq<Ingredient>)
    requires forall i | 0 <= i < |recipe.ingredients| :: recipe.ingredients[i].isOptional
    ensures recipe !in GetRecipesForIngredients(recipes, available)
  {
    FilterNone(recipe.ingredients, IsRequired);
  }

  /** The recommendation is the 0.7 quotient test on exact reals. */
  lemma RecommendedIsQuotientTest(recipe: Recipe, available: seq<Ingredient>)
    requires RequiredCount(recipe) > 0
    ensures IsRecommended(recipe, available)
            <==> (MatchedCount(recipe, available) as real) / (RequiredCount(recipe) as real) >= 0.7
  {
    RatioAtLeastIsQuotient(MatchedCount(recipe, available), RequiredCount(recipe), 7);
  }

  /** Adding ingredients to the fridge never drops a recommended recipe. */
  lemma RecommendationMonotone(recipes: seq<Recipe>, available: seq<Ingredient>, more: seq<Ingredient>)
    requires forall x | x in available :: x in more
    ensures forall r | r in GetRecipesForIngredients(recipes, available) :: r in GetRecipesForIngredients(recipes, more)
  {
    forall r | r in GetRecipesForIngredients(recipes, available)
      ensures r in GetRecipesForIngredients(recipes, more)
    {
      MatchedCountMonotone(r, available, more);
    }
  }

  // ------------------------------------------------------- list edits by id

  function HasId(id: Uuid): Ingredient -> bool
  {
    (ingredient: Ingredient) => ingredient.id == id
  }

  function LacksId(id: Uuid): Ingredient -> bool
  {
    (ingredient: Ingredient) => ingredient.id != id
  }

  function RecipeHasId(id: Uuid): Recipe -> bool
  {
    (recipe: Recipe) => recipe.id == id
  }

  /** `ingredients.removeAll { $0.id == id }`: every entry with that id goes, the rest stay in order. */
  function RemoveById(ingredients: seq<Ingredient>, id: Uuid): (r: seq<Ingredient>)
    ensures forall x | x in r :: x in ingredients && x.id != id
    ensures forall x {:trigger x in r} | x in ingredients && x.id != id :: x in r
    ensures forall y :: multiset(r)[y] == if y.id != id then multiset(ingredients)[y] else 0
    ensures IsSubsequence(r, ingredients)
  {
    FilterIsSubsequence(ingredients, LacksId(id));
    FilterSound(ingredients, LacksId(id));
    FilterMultiset(ingredients, LacksId(id));
    Filter(ingredients, LacksId(id))
  }

  /** Appending an ingredient with a fresh id and then removing it restores the list. */
  lemma AddThenRemoveRestores(ingredients: seq<Ingredient>, ingredient: Ingredient)
    requires forall i | 0 <= i < |ingredients| :: ingredients[i].id != ingredient.id
    ensures RemoveById(ingredients + [ingredient], ingredient.id) == ingredients
  {
    FilterAppend(ingredients, [ingredient], LacksId(ingredient.id));
    FilterKeepsAll(ingredients, LacksId(ingredient.id));
  }

  /** The `updateIngredient` edit: the first entry with the same id is replaced, nothing
      else changes, and a list without that id is returned as it was. */
  function ReplaceFirstById(ingredients: seq<Ingredient>, ingredient: Ingredient): (r: seq<Ingredient>)
    ensures |r| == |ingredients|
    ensures (forall j | 0 <= j < |ingredients| :: ingredients[j].id != ingredient.id) ==> r == ingredients
    ensures forall i | 0 <= i < |ingredients| && ingredients[i].id == ingredient.id
                        && (forall j | 0 <= j < i :: ingredients[j].id != ingredient.id)
              :: r == ingredients[i := ingredient]
  {
    match FirstIndex(ingredients, HasId(ingredient.id))
    case None => ingredients
    case Some(i) => ingredients[i := ingredient]
  }

  /** The `likeRecipe` edit: the first recipe with that id gets exactly one more like;
      nothing else changes, and a catalogue without that id is returned as it was. */
  function LikeFirst(recipes: seq<Recipe>, id: Uuid): (r: seq<Recipe>)
    ensures |r| == |recipes|
    ensures (forall j | 0 <= j < |recipes| :: recipes[j].id != id) ==> r == recipes
    ensures forall i | 0 <= i < |recipes| && recipes[i].id == id && (forall j | 0 <= j < i :: recipes[j].id != id)
              :: r == recipes[i := recipes[i].(likes := recipes[i].likes + 1)]
  {
    match FirstIndex(recipes, RecipeHasId(id))
    case None => recipes
    case Some(i) => recipes[i := recipes[i].(likes := recipes[i].likes + 1)]
  }

  /** Liking a recipe twice adds exactly two likes to it and changes nothing else. */
  lemma LikeTwiceAddsTwo(recipes: seq<Recipe>, id: Uuid, i: nat)
    requires i < |recipes| && recipes[i].id == id
    requires forall j | 0 <= j < i :: recipes[j].id != id
    ensures LikeFirst(LikeFirst(recipes, id), id) == recipes[i := recipes[i].(likes := recipes[i].likes + 2)]
  {
    var once := LikeFirst(recipes, id);
    assert once == recipes[i := recipes[i].(likes := recipes[i].likes + 1)];
    assert once[i].id == id;
    assert forall j | 0 <= j < i :: once[j].id != id;
  }

  // ------------------------------------------------------------ the store

  /** What `errorMessage` says; the error's localized description is not modelled. */
  datatype StoreError =
    | CloudLoadFailed     // loading from the cloud failed
    | CloudSaveFailed     // a cloud save failed
    | CloudDeleteFailed   // a cloud delete failed
    | RecipeUpdateFailed  // writing a liked recipe failed
    | SyncFailed          // an upload during sync failed

  /** The outcome of one remote call. */
  datatype Outcome = Succeeds | Fails

  /** A write sent to the remote service. */
  datatype RemoteRequest =
    | SaveIngredientCall(ingredient: Ingredient)
    | DeleteIngredientCall(ingredient: Ingredient)
    | SaveRecipeCall(recipe: Recipe)

  /** One save request per ingredient, in order. */
  function SaveRequests(ingredients: seq<Ingredient>): (r: seq<RemoteRequest>)
    ensures |r| == |ingredients|
    ensures forall i | 0 <= i < |ingredients| :: r[i] == SaveIngredientCall(ingredients[i])
  {
    if ingredients == [] then []
    else SaveRequests(ingredients[..|ingredients| - 1]) + [SaveIngredientCall(ingredients[|ingredients| - 1])]
  }

  /** The index of the first of `n` calls that fails, or `n` when none does. */
  function FirstFailure(succeeds: nat -> bool, n: nat): (k: nat)
    ensures k <= n
    ensures forall j | 0 <= j < k :: succeeds(j)
    ensures k < n ==> !succeeds(k)
  {
    if n == 0 then 0
    else
      var k := FirstFailure(succeeds, n - 1);
      if k < n - 1 then k else if succeeds(n - 1) then n else n - 1
  }

  /** The three properties of `FirstFailure` single it out. */
  lemma FirstFailureUnique(succeeds: nat -> bool, n: nat, k: nat)
    requires k <= n
    requires forall j | 0 <= j < k :: succeeds(j)
    requires k < n ==> !succeeds(k)
    ensures k == FirstFailure(succeeds, n)
  {
  }

  /** `loadIngredientsLocally`: the saved list if one decodes, else the sample ingredients.
      A saved empty list is loaded as empty. */
  function LocalIngredients(saved: Option<seq<Ingredient>>, sample: seq<Ingredient>): (r: seq<Ingredient>)
    ensures saved.Some? ==> r == saved.value
    ensures saved.None? ==> r == sample
  {
    match saved
    case Some(s) => s
    case None => sample
  }

  /** The collections and saved slot after `loadDataFromFirebase`, and whether it failed. */
  datatype Loaded = Loaded(
    ingredients: seq<Ingredient>,
    recipes: seq<Recipe>,
    saved: Option<seq<Ingredient>>,
    failed: bool)

  /** `loadDataFromFirebase` as a function of the two remote answers (`None`: the call threw). */
  function RemoteLoad(
    remoteIngredients: Option<seq<Ingredient>>, remoteRecipes: Option<seq<Recipe>>,
    saved: Option<seq<Ingredient>>, catalog: seq<Recipe>, sample: seq<Ingredient>): (l: Loaded)
    ensures l.failed <==> remoteIngredients.None? || remoteRecipes.None?
    ensures l.failed ==> l.ingredients == LocalIngredients(saved, sample) && l.recipes == catalog && l.saved == saved
    ensures !l.failed ==> l.ingredients == remoteIngredients.value && l.saved == Some(l.ingredients)
    ensures !l.failed && remoteRecipes.value == [] ==> l.recipes == catalog
    ensures !l.failed && remoteRecipes.value != [] ==> l.recipes == remoteRecipes.value
  {
    if remoteIngredients.None? || remoteRecipes.None? then
      Loaded(LocalIngredients(saved, sample), catalog, saved, true)
    else
      var recipes := if remoteRecipes.value == [] then catalog else remoteRecipes.value;
      Loaded(remoteIngredients.value, recipes, Some(remoteIngredients.value), false)
  }

  /** With a non-empty bundled catalogue the loaded recipe list is never empty. */
  lemma RemoteLoadHasRecipes(
    remoteIngredients: Option<seq<Ingredient>>, remoteRecipes: Option<seq<Recipe>>,
    saved: Option<seq<Ingredient>>, catalog: seq<Recipe>, sample: seq<Ingredient>)
    requires catalog != []
    ensures RemoteLoad(remoteIngredients, remoteRecipes, saved, catalog, sample).recipes != []
  {
  }

  class DataManager {
    /** `ExtendedRecipeData.allRecipes`, the bundled catalogue. */
    const defaultCatalog: seq<Recipe>
    /** `TestData.sampleIngredients`. */
    const sampleIngredients: seq<Ingredient>

    var ingredients: seq<Ingredient>
    var recipes: seq<Recipe>
    var isLoading: bool
    var errorMessage: Option<StoreError>
    var isOnline: bool
    /** The key/value slot "savedIngredients"; `None` when absent or not decodable. */
    var savedIngredients: Option<seq<Ingredient>>
    /** Every write issued to the remote service, in order. */
    var remoteRequests: seq<RemoteRequest>

    predicate Valid()
    {
      defaultCatalog != []
    }

    /** `init()`: the published defaults. The bootstrap it schedules is `Initialize`. */
    constructor (catalog: seq<Recipe>, sample: seq<Ingredient>, saved: Option<seq<Ingredient>>)
      requires catalog != []
      ensures Valid()
      ensures defaultCatalog == catalog && sampleIngredients == sample
      ensures ingredients == [] && recipes == [] && !isLoading && errorMessage == None && isOnline
      ensures savedIngredients == saved && remoteRequests == []
    {
      defaultCatalog, sampleIngredients := catalog, sample;
      ingredients, recipes := [], [];
      isLoading, errorMessage, isOnline := false, None, true;
      savedIngredients, remoteRequests := saved, [];
    }

    /** `saveIngredientsLocally`: the whole list overwrites the saved slot. */
    method SaveIngredientsLocally()
      modifies this`savedIngredients
      ensures savedIngredients == Some(ingredients)
    {
      savedIngredients := Some(ingredients);
    }

    /** `loadIngredientsLocally`. */
    method LoadIngredientsLocally()
      modifies this`ingredients
      ensures ingredients == LocalIngredients(savedIngredients, sampleIngredients)
    {
      if savedIngredients.Some? {
        ingredients := savedIngredients.value;
      } else {
        ingredients := sampleIngredients;
      }
    }

    /** `loadLocalData`: local ingredients, bundled recipes. */
    method LoadLocalData()
      modifies this`ingredients, this`recipes
      ensures ingredients == LocalIngredients(savedIngredients, sampleIngredients)
      ensures recipes == defaultCatalog
    {
      LoadIngredientsLocally();
      recipes := defaultCatalog;
    }

    /** The collections and the saved slot are what `RemoteLoad` gives for the
        remote answers and the slot as it was before. */
    twostate predicate LoadedFrom(remoteIngredients: Option<seq<Ingredient>>, remoteRecipes: Option<seq<Recipe>>)
      reads this
    {
      var l := RemoteLoad(remoteIngredients, remoteRecipes, old(savedIngredients), defaultCatalog, sampleIngredients);
      ingredients == l.ingredients && recipes == l.recipes && savedIngredients == l.saved
    }

    /** `loadDataFromFirebase`, given what the two remote loads return. */
    method LoadDataFromFirebase(remoteIngredients: Option<seq<Ingredient>>, remoteRecipes: Option<seq<Recipe>>)
      modifies this`ingredients, this`recipes, this`savedIngredients, this`errorMessage
      ensures LoadedFrom(remoteIngredients, remoteRecipes)
      ensures errorMessage == if remoteIngredients.None? || remoteRecipes.None? then Some(CloudLoadFailed) else old(errorMessage)
    {
      if remoteIngredients.None? {
        errorMessage := Some(CloudLoadFailed);
        LoadLocalData();
        return;
      }
      ingredients := remoteIngredients.value;
      if remoteRecipes.None? {
        errorMessage := Some(CloudLoadFailed);
        LoadLocalData();
        return;
      }
      recipes := if remoteRecipes.value == [] then defaultCatalog else remoteRecipes.value;
      SaveIngredientsLocally();
    }

    /** The state `initialize` leaves: the loading flag down, online exactly when
        sign-in succeeded, and then the remote load's result (its failure, if any,
        reported); after a failed sign-in the local ingredients, the bundled recipes
        and the error message untouched. No remote write is issued. */
    twostate predicate Bootstrapped(
      signIn: Outcome, remoteIngredients: Option<seq<Ingredient>>, remoteRecipes: Option<seq<Recipe>>)
      reads this
    {
      && !isLoading
      && isOnline == (signIn == Succeeds)
      && remoteRequests == old(remoteRequests)
      && if signIn == Succeeds then
           && LoadedFrom(remoteIngredients, remoteRecipes)
           && errorMessage == (if remoteIngredients.None? || remoteRecipes.None? then Some(CloudLoadFailed)
                               else old(errorMessage))
         else
           && ingredients == LocalIngredients(old(savedIngredients), sampleIngredients)
           && recipes == defaultCatalog
           && savedIngredients == old(savedIngredients)
           && errorMessage == old(errorMessage)
    }

    /** `initialize`: sign in, then load remotely, or fall back to local data. */
    method Initialize(signIn: Outcome, remoteIngredients: Option<seq<Ingredient>>, remoteRecipes: Option<seq<Recipe>>)
      requires Valid()
      modifies this
      ensures Bootstrapped(signIn, remoteIngredients, remoteRecipes)
      ensures recipes != []
    {
      isLoading := true;
      if signIn == Succeeds {
        LoadDataFromFirebase(remoteIngredients, remoteRecipes);
        isOnline := true;
      } else {
        isOnline := false;
        LoadLocalData();
      }
      RemoteLoadHasRecipes(remoteIngredients, remoteRecipes, old(savedIngredients), defaultCatalog, sampleIngredients);
      isLoading := false;
    }

    /** `retryConnection`: the bootstrap again. */
    method RetryConnection(signIn: Outcome, remoteIngredients: Option<seq<Ingredient>>, remoteRecipes: Option<seq<Recipe>>)
      requires Valid()
      modifies this
      ensures Bootstrapped(signIn, remoteIngredients, remoteRecipes)
      ensures recipes != []
    {
      Initialize(signIn, remoteIngredients, remoteRecipes);
    }

    /** The local save and, when online, the remote write of one edit: the saved slot
        holds the current list, the request is issued only online, and a failed remote
        write only sets the error message. */
    twostate predicate Persisted(request: RemoteRequest, remote: Outcome, failure: StoreError)
      reads this
    {
      && savedIngredients == Some(ingredients)
      && remoteRequests == old(remoteRequests) + (if isOnline then [request] else [])
      && errorMessage == (if isOnline && remote == Fails then Some(failure) else old(errorMessage))
    }

    /** `saveIngredient` (private). */
    method SaveIngredient(ingredient: Ingredient, remote: Outcome)
      modifies this`savedIngredients, this`remoteRequests, this`errorMessage
      ensures Persisted(SaveIngredientCall(ingredient), remote, CloudSaveFailed)
    {
      SaveIngredientsLocally();
      if isOnline {
        remoteRequests := remoteRequests + [SaveIngredientCall(ingredient)];
        if remote == Fails {
          errorMessage := Some(CloudSaveFailed);
        }
      }
    }

    /** `deleteIngredient` (private). */
    method DeleteIngredient(ingredient: Ingredient, remote: Outcome)
      modifies this`savedIngredients, this`remoteRequests, this`errorMessage
      ensures Persisted(DeleteIngredientCall(ingredient), remote, CloudDeleteFailed)
    {
      SaveIngredientsLocally();
      if isOnline {
        remoteRequests := remoteRequests + [DeleteIngredientCall(ingredient)];
        if remote == Fails {
          errorMessage := Some(CloudDeleteFailed);
        }
      }
    }

    /** `addIngredient`: appended at the end, then saved. */
    method AddIngredient(ingredient: Ingredient, remote: Outcome)
      modifies this`ingredients, this`savedIngredients, this`remoteRequests, this`errorMessage
      ensures ingredients == old(ingredients) + [ingredient]
      ensures Persisted(SaveIngredientCall(ingredient), remote, CloudSaveFailed)
    {
      ingredients := ingredients + [ingredient];
      SaveIngredient(ingredient, remote);
    }

    /** `removeIngredient`: every entry with that id removed, then the deletion saved,
        also when no entry had that id. */
    method RemoveIngredient(ingredient: Ingredient, remote: Outcome)
      modifies this`ingredients, this`savedIngredients, this`remoteRequests, this`errorMessage
      ensures ingredients == RemoveById(old(ingredients), ingredient.id)
      ensures Persisted(DeleteIngredientCall(ingredient), remote, CloudDeleteFailed)
    {
      ingredients := RemoveById(ingredients, ingredient.id);
      DeleteIngredient(ingredient, remote);
    }

    /** `updateIngredient`: the first entry with that id replaced and saved; without
        such an entry nothing at all happens. */
    method UpdateIngredient(ingredient: Ingredient, remote: Outcome)
      modifies this`ingredients, this`savedIngredients, this`remoteRequests, this`errorMessage
      ensures ingredients == ReplaceFirstById(old(ingredients), ingredient)
      ensures (exists i | 0 <= i < |old(ingredients)| :: old(ingredients)[i].id == ingredient.id)
              ==> Persisted(SaveIngredientCall(ingredient), remote, CloudSaveFailed)
      ensures (forall i | 0 <= i < |old(ingredients)| :: old(ingredients)[i].id != ingredient.id)
              ==> unchanged(this)
    {
      var index := FirstIndex(ingredients, HasId(ingredient.id));
      if index.Some? {
        ingredients := ingredients[index.value := ingredient];
        SaveIngredient(ingredient, remote);
      }
    }

    /** `likeRecipe`: one more like for the first recipe with that id, then, online,
        the updated recipe is written remotely; without such a recipe nothing happens. */
    method LikeRecipe(recipe: Recipe, remote: Outcome)
      modifies this`recipes, this`remoteRequests, this`errorMessage
      ensures recipes == LikeFirst(old(recipes), recipe.id)
      ensures var index := FirstIndex(old(recipes), RecipeHasId(recipe.id));
              && remoteRequests == old(remoteRequests)
                   + (if isOnline && index.Some? then [SaveRecipeCall(recipes[index.value])] else [])
              && errorMessage == (if isOnline && index.Some? && remote == Fails then Some(RecipeUpdateFailed)
                                  else old(errorMessage))
    {
      var index := FirstIndex(recipes, RecipeHasId(recipe.id));
      if index.Some? {
        var i := index.value;
        recipes := recipes[i := recipes[i].(likes := recipes[i].likes + 1)];
        if isOnline {
          remoteRequests := remoteRequests + [SaveRecipeCall(recipes[i])];
          if remote == Fails {
            errorMessage := Some(RecipeUpdateFailed);
          }
        }
      }
    }

    /** The upload loop of `syncWithFirebase`: one save request per ingredient, in
        order, stopping after the first that fails. The result is the index of that
        ingredient, or the length of the list when every upload succeeds. */
    method UploadIngredients(uploads: nat -> bool) returns (k: nat)
      modifies this`remoteRequests
      ensures k <= |ingredients|
      ensures forall j | 0 <= j < k :: uploads(j)
      ensures k < |ingredients| ==> !uploads(k)
      ensures remoteRequests == old(remoteRequests) + SaveRequests(ingredients[..if k < |ingredients| then k + 1 else k])
    {
      k := 0;
      while k < |ingredients|
        invariant 0 <= k <= |ingredients|
        invariant forall j | 0 <= j < k :: uploads(j)
        invariant remoteRequests == old(remoteRequests) + SaveRequests(ingredients[..k])
      {
        remoteRequests := remoteRequests + [SaveIngredientCall(ingredients[k])];
        assert SaveRequests(ingredients[..k + 1]) == SaveRequests(ingredients[..k]) + [SaveIngredientCall(ingredients[k])];
        if !uploads(k) {
          return;
        }
        k := k + 1;
      }
    }

    /** `syncWithFirebase`, given the outcome of each upload (`uploads(k)` for the
        k-th ingredient) and what the reload returns. Offline it does nothing.
        Online, every ingredient is uploaded in order until one upload fails; a
        failure stops the sync with `SyncFailed` and no reload. Otherwise the data
        is reloaded and the error message is cleared, even when the reload failed
        and fell back to local data. */
    method SyncWithFirebase(
      uploads: nat -> bool, remoteIngredients: Option<seq<Ingredient>>, remoteRecipes: Option<seq<Recipe>>)
      modifies this
      ensures !old(isOnline) ==> unchanged(this)
      ensures old(isOnline) ==> isOnline && !isLoading
      ensures old(isOnline) ==>
                var n := |old(ingredients)|;
                var k := FirstFailure(uploads, n);
                && remoteRequests == old(remoteRequests) + SaveRequests(old(ingredients)[..if k < n then k + 1 else n])
                && if k < n then
                     && errorMessage == Some(SyncFailed)
                     && ingredients == old(ingredients) && recipes == old(recipes)
                     && savedIngredients == old(savedIngredients)
                   else
                     && LoadedFrom(remoteIngredients, remoteRecipes)
                     && errorMessage == None
    {
      if !isOnline {
        return;
      }
      isLoading := true;
      var k := UploadIngredients(uploads);
      FirstFailureUnique(uploads, |ingredients|, k);
      if k < |ingredients| {
        errorMessage := Some(SyncFailed);
        isLoading := false;
        return;
      }
      LoadDataFromFirebase(remoteIngredients, remoteRecipes);
      errorMessage := None;
      isLoading := false;
    }
  }
}
