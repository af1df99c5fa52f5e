# WeeklyChef in Dafny

WeeklyChef is an iOS app. It keeps a fridge inventory and recommends recipes
that the fridge can (nearly) cover. This project models its core and proves
properties of the model:

- **Matching rule.** A recipe ingredient is "in the fridge" when, after
  lower-casing, a fridge ingredient's name contains the recipe ingredient's
  name, or the other way round. The source writes this rule out seven times;
  here it is stated once, in `Matching`.
- **Recommendation engine.** Optional ingredients are dropped and matched
  required ingredients are counted. A recipe is kept when at least 70% of its
  required ingredients are matched. Kept recipes fall into three tabs:
  - "can make": at least 90% matched;
  - "need 1–2": one or two required ingredients missing;
  - "need more": more than two missing.

  The ratio tests are written as integer cross-multiplication, `10*matched >=
  7*required`. A lemma proves that this equals the quotient test on exact reals.
- **`DataManager` store.** A class with the ingredient and recipe lists and
  the `isLoading`, `errorMessage` and `isOnline` flags. Its methods edit the
  lists in place:
  - append;
  - remove by id;
  - replace the first entry with an id;
  - add one like.

  It also runs a bootstrap: sign in, then load remotely; otherwise fall back to
  the local copy and the bundled catalogue. Then there is the upload-and-reload
  sync.
- **Small helpers.**
  - the recipe list's category and search filter;
  - the settings screen's toggle chips and allergy rows;
  - the derived fields, defaults and enum mappings of `Recipe`, `Ingredient`
    and `UserPreferences`.

Modules follow the source files:

| module | file | models |
|---|---|---|
| `Foundation` | `foundation.dfy` | `Option`, ids, dates as integer seconds |
| `Seqs` | `seqs.dfy` | `filter`, `firstIndex(where:)`, subsequences of lists |
| `Text` | `text.dfy` | `lowercased()`, `contains(_:)` |
| `Ingredients` | `ingredient.dfy` | `Ingredient.swift` |
| `Recipes` | `recipe.dfy` | `Recipe.swift` |
| `Preferences` | `user_preferences.dfy` | `UserPreferences.swift` |
| `Matching` | `matching.dfy` | the matching rule of `DataManager.swift`, `RecommendationsView.swift` and `RecipeDetailView.swift` |
| `Store` | `data_manager.dfy` | `DataManager.swift` |
| `Recommendations` | `recommendations.dfy` | `RecommendationsView.swift` |
| `Catalog` | `recipe_view.dfy` | `RecipeView.swift` |
| `Settings` | `settings_view.dfy` | `SettingsView.swift` |
| `Scenarios` | `scenarios.dfy` | worked cases on the bundled tomato-and-egg recipe |

Inputs from outside the program are parameters of the model:

- **The remote service.** Each call's outcome is an argument of the method that
  makes it: an `Outcome`, an `Option` holding the loaded list, or `uploads(k)`
  for the k-th upload of a sync. Every remote write the store issues is
  recorded in the field `remoteRequests`, in order.
- **The device's key/value store.** The slot holding the saved ingredient list is
  the field `savedIngredients`. It holds `None` when the slot is absent or
  cannot be decoded.
- **Seed data.** The bundled recipe catalogue and the sample ingredients are
  arguments of the `DataManager` constructor.
- **The clock.** "Now" is an argument of every date computation. Dates are
  whole seconds.

Where the code and its surroundings say different things, the model follows the code:

- **The 70% gate.** The comment above the test (`DataManager.swift:141`) says
  "more than 70%", but the test on the next line is `>= 0.7`. The model uses
  `>=`, so a recipe with exactly 70% of its required ingredients matched is
  recommended.
- **Nothing required.** No source text says what should happen to a recipe with
  no required ingredient. The code computes `0.0 / 0.0`, which is NaN, and NaN
  compares false. Such a recipe is therefore never recommended and never "can
  make". In the model this is `RatioAtLeast` with `required > 0`, and
  `MatchingPercentage` is `None` for it.

With the thresholds as written, every recommended recipe lands in at least one
of the three narrower tabs (`TiersCoverRecommendations`), and the tabs can
overlap (`CanMakeAndNeedFewOverlap`).

## Model

| member | source | states |
|---|---|---|
| `Text.LowerChar` | WeeklyChef/Views/RecipeDetailView.swift:117 | the result is never an upper-case ASCII letter; other characters are kept; upper-case ones move down by 32 |
| `Text.Lower` | WeeklyChef/Views/RecipeDetailView.swift:117-118 | `lowercased()` keeps the length and lower-cases every character |
| `Text.LowerIdempotent` | WeeklyChef/Views/RecipeDetailView.swift:117-118 | lower-casing twice equals lower-casing once |
| `Text.ContainsIffOccurs` | WeeklyChef/Views/RecipeDetailView.swift:117-118 | `contains` holds iff the needle starts at some position of the string |
| `Text.ContainsLength` | WeeklyChef/Views/RecipeDetailView.swift:117-118 | a string that contains another is at least as long |
| `Text.ContainsCharIff` | WeeklyChef/Views/RecipeDetailView.swift:117-118 | a one-character needle is contained iff the character occurs |
| `Text.Contains` | WeeklyChef/Views/RecipeDetailView.swift:117-118 | definition: the needle occurs as a contiguous substring, either as a prefix or somewhere further on |
| `Text.CaseInsensitiveContains` | WeeklyChef/Views/RecipeView.swift:17-19 | definition: `Contains` after lower-casing both strings |
| `Ingredients.DaysBetween` | WeeklyChef/Models/Ingredient.swift:17-18 | the whole-day count rounds toward zero and brackets the elapsed seconds from both sides |
| `Ingredients.DaysUntilExpiration` | WeeklyChef/Models/Ingredient.swift:15-19 | the day count is undefined iff there is no expiration date |
| `Ingredients.IsExpired` | WeeklyChef/Models/Ingredient.swift:11-14 | definition: false without an expiration date, otherwise now is later than the date |
| `Ingredients.ExpiryAgreesWithDayCount` | WeeklyChef/Models/Ingredient.swift:11-19 | `isExpired` (false without a date, else now after the date) agrees with the day count: expired means no whole day left, a negative count means expired, a positive one means not expired |
| `Ingredients.ExpiredToday` | WeeklyChef/Models/Ingredient.swift:11-19 | less than a day after the expiration date an ingredient is expired yet has 0 days left |
| `Ingredients.IngredientCategoryIconInjective` | WeeklyChef/Models/Ingredient.swift:34-46 | the ten categories have ten different icons |
| `Ingredients.IngredientCategoryIcon` | WeeklyChef/Models/Ingredient.swift:34-46 | definition: the icon name of each of the ten categories |
| `Recipes.SumCosts` | WeeklyChef/Models/Recipe.swift:24-26 | the sum of no costs is 0; non-negative costs give a non-negative sum |
| `Recipes.SumCostsAppend` | WeeklyChef/Models/Recipe.swift:24-26 | the cost sum of two joined lists is the sum of their cost sums |
| `Recipes.EstimatedCost` | WeeklyChef/Models/Recipe.swift:24-26 | a recipe without ingredients costs 0; with non-negative ingredient costs the estimate is non-negative |
| `Recipes.NewRecipe` | WeeklyChef/Models/Recipe.swift:29-45 | a new recipe has no likes, no image, no author and no nutrition block; both timestamps are the creation time; every other field is the argument given |
| `Recipes.NewRecipeIngredient` | WeeklyChef/Models/Recipe.swift:48-55 | `isOptional` defaults to false; the other fields are the arguments |
| `Recipes.DefaultNutritionInfo` | WeeklyChef/Models/Recipe.swift:105-113 | all seven nutrition values default to 0 |
| `Recipes.DifficultyColors` | WeeklyChef/Models/Recipe.swift:62-68 | easy is green, medium is orange, hard is red |
| `Recipes.RecipeCategoryIconInjective` | WeeklyChef/Models/Recipe.swift:81-92 | the eight recipe categories have eight different icons |
| `Recipes.TotalIngredients` | WeeklyChef/Models/Recipe.swift:20-22 | definition: the number of ingredients, optional ones included |
| `Recipes.DifficultyColor` | WeeklyChef/Models/Recipe.swift:62-68 | definition: the colour name of each difficulty |
| `Recipes.RecipeCategoryIcon` | WeeklyChef/Models/Recipe.swift:81-92 | definition: the icon name of each of the eight recipe categories |
| `Preferences.DefaultPreferences` | WeeklyChef/Models/UserPreferences.swift:13-22 | no restrictions, cuisines chinese then quick, beginner, 30 minutes, medium budget, and empty allergy, favourite and disliked lists |
| `Preferences.MaxDifficultyMonotone` | WeeklyChef/Models/UserPreferences.swift:42-48 | beginner maps to easy, intermediate to medium and advanced to hard, so a higher skill never allows a lower difficulty, and the converse |
| `Preferences.MaxCostIncreasing` | WeeklyChef/Models/UserPreferences.swift:56-62 | the budget ceilings are 10, 20 and 50, strictly increasing |
| `Preferences.DefaultLimits` | WeeklyChef/Models/UserPreferences.swift:16-18 | the default preferences allow easy recipes and 20 per meal |
| `Preferences.MaxDifficulty` | WeeklyChef/Models/UserPreferences.swift:42-48 | definition: the hardest difficulty allowed at each skill level |
| `Preferences.MaxCost` | WeeklyChef/Models/UserPreferences.swift:56-62 | definition: the cost ceiling per meal of each budget |
| `Matching.NamesMatch` | WeeklyChef/Views/RecipeDetailView.swift:117-118 | definition: after lower-casing, either name contains the other |
| `Matching.IsIngredientAvailable` | WeeklyChef/Views/RecipeDetailView.swift:115-120 | definition: some fridge ingredient's name matches the recipe ingredient's name |
| `Matching.Required` | WeeklyChef/Models/DataManager.swift:131 | definition: the ingredients that are not optional, in recipe order |
| `Matching.RequiredCount` | WeeklyChef/Models/DataManager.swift:131 | definition: the number of required ingredients |
| `Matching.Matched` | WeeklyChef/Models/DataManager.swift:134-139 | definition: the required ingredients that are available in the fridge, in recipe order |
| `Matching.RatioAtLeast` | WeeklyChef/Models/DataManager.swift:142 | definition: something is required and `10 * matched >= tenths * required` |
| `Matching.NamesMatchSymmetric` | WeeklyChef/Views/RecipeDetailView.swift:117-118 | the name match is symmetric in the two names |
| `Matching.NothingAvailableInEmptyFridge` | WeeklyChef/Views/RecipeDetailView.swift:116 | no ingredient is available in an empty fridge |
| `Matching.AvailabilityDependsOnlyOnName` | WeeklyChef/Views/RecipeDetailView.swift:115-120 | two recipe ingredients with the same name are equally available, whatever their quantity, unit or optionality |
| `Matching.SameNameIsAvailable` | WeeklyChef/Views/RecipeDetailView.swift:117 | a fridge ingredient with the same name, ignoring case, makes the recipe ingredient available |
| `Matching.AvailabilityMonotone` | WeeklyChef/Views/RecipeDetailView.swift:116-119 | what is available in a fridge stays available in any fridge holding all its ingredients |
| `Matching.MatchedCount` | WeeklyChef/Models/DataManager.swift:131-139 | the matched required ingredients never outnumber the required ones |
| `Matching.TotalIsRequiredPlusOptional` | WeeklyChef/Models/Recipe.swift:20-22 | `totalIngredients` counts optional ingredients too: it is required plus optional |
| `Matching.RatioAtLeastIsQuotient` | WeeklyChef/Models/DataManager.swift:142 | for a non-zero required count, the cross-multiplied threshold test equals `matched / required >= tenths / 10` on exact reals |
| `Matching.Share` | WeeklyChef/Views/RecommendationsView.swift:158 | the matched share lies in [0, 1] and times the required count gives the matched count |
| `Matching.MatchedCountMonotone` | WeeklyChef/Models/DataManager.swift:134-139 | a bigger fridge never matches fewer required ingredients |
| `Store.IngredientsByCategory` | WeeklyChef/Models/DataManager.swift:116-118 | exactly the ingredients of the category, as an order-preserving subsequence; every copy of such an ingredient is kept |
| `Store.ExpiringIngredients` | WeeklyChef/Models/DataManager.swift:120-125 | exactly the dated ingredients with 0 to 3 whole days left, in order; every copy of such an ingredient is kept |
| `Store.ExpiresSoon` | WeeklyChef/Models/DataManager.swift:120-125 | definition: the ingredient has a date and 0 to 3 whole days left |
| `Store.JustExpiredIsStillExpiring` | WeeklyChef/Models/DataManager.swift:120-125 | an ingredient expired less than a day ago is still listed as expiring |
| `Store.GetRecipesForIngredients` | WeeklyChef/Models/DataManager.swift:129-143 | a recipe is kept iff it has a required ingredient and `10*matched >= 7*required`; the result is an order-preserving subsequence of the recipes; every copy of such a recipe is kept |
| `Store.IsRecommended` | WeeklyChef/Models/DataManager.swift:142 | definition: at least 70% of the required ingredients matched, by `RatioAtLeast` |
| `Store.OnlyOptionalNeverRecommended` | WeeklyChef/Models/DataManager.swift:142 | a recipe whose ingredients are all optional is never recommended |
| `Store.RecommendedIsQuotientTest` | WeeklyChef/Models/DataManager.swift:142 | the recommendation is the 0.7 quotient test |
| `Store.RecommendationMonotone` | WeeklyChef/Models/DataManager.swift:129-143 | adding ingredients to the fridge never drops a recommended recipe |
| `Store.RemoveById` | WeeklyChef/Models/DataManager.swift:73 | every entry with the id goes, every other entry stays, in order; every copy of another entry is kept |
| `Store.AddThenRemoveRestores` | WeeklyChef/Models/DataManager.swift:67-73 | appending an ingredient with a fresh id and removing it restores the list |
| `Store.ReplaceFirstById` | WeeklyChef/Models/DataManager.swift:78-79 | the length is kept, only the first entry with the id is replaced, and a list without the id comes back unchanged |
| `Store.LikeFirst` | WeeklyChef/Models/DataManager.swift:147-148 | only the first recipe with the id gains exactly one like, and a catalogue without the id comes back unchanged |
| `Store.LikeTwiceAddsTwo` | WeeklyChef/Models/DataManager.swift:146-148 | liking twice adds exactly two likes to that one recipe |
| `Store.SaveRequests` | WeeklyChef/Models/DataManager.swift:188-190 | one save request per ingredient, in list order |
| `Store.FirstFailure` | WeeklyChef/Models/DataManager.swift:186-190 | the index of the first failing upload: all earlier ones succeed, and it fails unless it is the end |
| `Store.FirstFailureUnique` | WeeklyChef/Models/DataManager.swift:186-190 | the first-failure properties determine the index |
| `Store.LocalIngredients` | WeeklyChef/Models/DataManager.swift:170-177 | the saved list when there is one, even an empty one; otherwise the sample ingredients |
| `Store.RemoteLoad` | WeeklyChef/Models/DataManager.swift:42-58 | a failure of either remote load falls back to the local ingredients and the bundled catalogue and leaves the saved slot; otherwise the remote ingredients are taken and saved, and an empty remote recipe list is replaced by the bundled catalogue |
| `Store.RemoteLoadHasRecipes` | WeeklyChef/Models/DataManager.swift:50 | with a non-empty bundled catalogue the loaded recipe list is never empty |
| `Store.DataManager.constructor` | WeeklyChef/Models/DataManager.swift:6-19 | empty lists, not loading, no error, online |
| `Store.DataManager.SaveIngredientsLocally` | WeeklyChef/Models/DataManager.swift:164-168 | the saved slot holds the current list |
| `Store.DataManager.LoadIngredientsLocally` | WeeklyChef/Models/DataManager.swift:170-178 | the ingredients become the saved list, or the sample ingredients when none is saved |
| `Store.DataManager.LoadLocalData` | WeeklyChef/Models/DataManager.swift:60-63 | local ingredients and the bundled catalogue |
| `Store.DataManager.LoadDataFromFirebase` | WeeklyChef/Models/DataManager.swift:42-58 | lists and slot are `RemoteLoad` of the two answers; the error is set to the load failure exactly when a load failed |
| `Store.DataManager.Initialize` | WeeklyChef/Models/DataManager.swift:23-38 | not loading afterwards; online iff sign-in succeeded; then the remote load, or else local ingredients, bundled recipes and no change to the error; no remote write; the recipe list is never empty |
| `Store.DataManager.RetryConnection` | WeeklyChef/Models/DataManager.swift:202-204 | the same final state as the bootstrap |
| `Store.DataManager.SaveIngredient` | WeeklyChef/Models/DataManager.swift:84-98 | the list is saved locally; online, one save request is issued and a failure only sets the error |
| `Store.DataManager.DeleteIngredient` | WeeklyChef/Models/DataManager.swift:100-114 | the list is saved locally; online, one delete request is issued and a failure only sets the error |
| `Store.DataManager.AddIngredient` | WeeklyChef/Models/DataManager.swift:67-70 | the ingredient is appended at the end, then saved |
| `Store.DataManager.RemoveIngredient` | WeeklyChef/Models/DataManager.swift:72-75 | every entry with the id is removed, then the deletion is saved and sent |
| `Store.DataManager.UpdateIngredient` | WeeklyChef/Models/DataManager.swift:77-82 | the first entry with the id is replaced and saved; without one, nothing at all changes |
| `Store.DataManager.LikeRecipe` | WeeklyChef/Models/DataManager.swift:146-160 | one more like on the first recipe with the id; online, the updated recipe is sent and a failure only sets the error; without the id nothing changes |
| `Store.DataManager.UploadIngredients` | WeeklyChef/Models/DataManager.swift:188-190 | uploads in order up to and including the first failure; the result is that failure's index, or the list length |
| `Store.DataManager.SyncWithFirebase` | WeeklyChef/Models/DataManager.swift:182-200 | offline nothing changes; online, the uploads up to the first failure are sent; a failure sets the sync error and keeps the data; otherwise the data is reloaded and the error cleared |
| `Recommendations.RecommendedRecipes` | WeeklyChef/Views/RecommendationsView.swift:14-59 | "all" is the recommendation list unchanged; every tab keeps exactly the recommended recipes of its tier, as a subsequence of the "all" list; every copy of a recipe in the tab is kept |
| `Recommendations.MissingCount` | WeeklyChef/Views/RecommendationsView.swift:42 | definition: required count minus matched count |
| `Recommendations.CanMakeNow` | WeeklyChef/Views/RecommendationsView.swift:30 | definition: at least 90% of the required ingredients matched, by `RatioAtLeast` |
| `Recommendations.NeedsFew` | WeeklyChef/Views/RecommendationsView.swift:42-43 | definition: one or two required ingredients missing |
| `Recommendations.NeedsMore` | WeeklyChef/Views/RecommendationsView.swift:55-56 | definition: more than two required ingredients missing |
| `Recommendations.InTier` | WeeklyChef/Views/RecommendationsView.swift:17-58 | definition: the test of each tab; "all" admits every recipe |
| `Recommendations.CanMakeIffFewMissing` | WeeklyChef/Views/RecommendationsView.swift:30 | "can make" iff something is required and at most a tenth of it is missing |
| `Recommendations.NeedFewAndNeedMoreDisjoint` | WeeklyChef/Views/RecommendationsView.swift:43-56 | no recipe is in both "need 1–2" and "need more" |
| `Recommendations.TiersCoverRecommendations` | WeeklyChef/Views/RecommendationsView.swift:30-56 | every recommended recipe is in at least one of the three narrower tabs |
| `Recommendations.CanMakeAndNeedFewOverlap` | WeeklyChef/Views/RecommendationsView.swift:30-43 | a recipe is both "can make" and "need 1–2" iff one is missing of at least 10, or two of at least 20 |
| `Recommendations.CanMakeIsRecommended` | WeeklyChef/Views/RecommendationsView.swift:30 | every "can make" recipe passes the 70% gate |
| `Recommendations.MatchingPercentage` | WeeklyChef/Views/RecommendationsView.swift:147-159 | defined iff something is required; then in [0, 1] and equal to matched over required |
| `Recommendations.PercentageAgreesWithTiers` | WeeklyChef/Views/RecommendationsView.swift:147-159 | recommended iff the percentage is at least 0.7; "can make" iff it is at least 0.9 |
| `Recommendations.MissingIngredients` | WeeklyChef/Views/RecommendationsView.swift:161-171 | exactly the required ingredients without a match, in recipe order; there are required-minus-matched of them |
| `Catalog.NarrowByCategory` | WeeklyChef/Views/RecipeView.swift:11-13 | with a category selected, a recipe is kept iff it has that category, every copy kept, in order; with none, the list is unchanged |
| `Catalog.NarrowBySearch` | WeeklyChef/Views/RecipeView.swift:15-21 | with search text, a recipe is kept iff it matches, every copy kept, in order; with empty text, the list is unchanged |
| `Catalog.FilteredRecipes` | WeeklyChef/Views/RecipeView.swift:8-24 | a recipe is listed iff it has the selected category (if any) and matches the typed text (if any), in catalogue order; with no filter active the list is the catalogue; every copy of a listed recipe is kept |
| `Catalog.FiltersCommute` | WeeklyChef/Views/RecipeView.swift:11-20 | searching first and then narrowing by category lists the same recipes in the same order |
| `Catalog.MatchesSearch` | WeeklyChef/Views/RecipeView.swift:16-20 | definition: the search text occurs, ignoring case, in the name, the description or some tag |
| `Settings.RemoveAll` | WeeklyChef/Views/SettingsView.swift:165 | no occurrence of the value is left; every other value keeps its count; the rest stays in order |
| `Settings.RemoveAllAbsent` | WeeklyChef/Views/SettingsView.swift:165 | removing an absent value changes nothing |
| `Settings.RemoveAllAppend` | WeeklyChef/Views/SettingsView.swift:165 | removing from a joined list removes from each part |
| `Settings.Toggle` | WeeklyChef/Views/SettingsView.swift:163-169 | the toggled value's membership flips and no other value's changes; an absent value is appended at the end; a present one is removed, keeping the others in order and with their counts |
| `Settings.ToggleTwiceRestores` | WeeklyChef/Views/SettingsView.swift:164-167 | toggling an absent value twice restores the list |
| `Settings.ToggleTwiceMovesToEnd` | WeeklyChef/Views/SettingsView.swift:164-167 | toggling a present value twice removes its copies and puts one at the end |
| `Settings.RemoveAt` | WeeklyChef/Views/SettingsView.swift:127 | one element shorter; earlier elements stay, later ones shift down by one |
| `Settings.RemoveAtMultiset` | WeeklyChef/Views/SettingsView.swift:127 | exactly one copy of the element at the index is removed |
| `Settings.AddThenDeleteRestores` | WeeklyChef/Views/SettingsView.swift:127-134 | deleting the row just added restores the allergy list |
| `Settings.SettingsView.constructor` | WeeklyChef/Views/SettingsView.swift:5 | the screen opens on the default preferences |
| `Settings.SettingsView.ToggleCuisine` | WeeklyChef/Views/SettingsView.swift:163-169 | the preferred cuisines are toggled; nothing else changes |
| `Settings.SettingsView.ToggleRestriction` | WeeklyChef/Views/SettingsView.swift:171-177 | the dietary restrictions are toggled; nothing else changes |
| `Settings.SettingsView.AddAllergy` | WeeklyChef/Views/SettingsView.swift:134 | one empty allergy row is appended; nothing else changes |
| `Settings.SettingsView.DeleteAllergy` | WeeklyChef/Views/SettingsView.swift:127 | exactly that allergy row is removed; nothing else changes |
| `Scenarios.EggplantMatchesEgg` | WeeklyChef/Views/RecipeDetailView.swift:117-118 | "EGGPLANT" in the fridge covers "Egg": the rule over-matches |
| `Scenarios.CannedTomatoMatchesTomato` | WeeklyChef/Views/RecipeDetailView.swift:117 | 新鲜番茄罐头 (fresh canned tomato) in the fridge covers 番茄 (tomato) |
| `Scenarios.SaltDoesNotMatchSugar` | WeeklyChef/Views/RecipeDetailView.swift:117-118 | salt and sugar do not match |
| `Scenarios.TomatoEggsRequiresFour` | WeeklyChef/Models/ExtendedRecipeData.swift:10-16 | the tomato-and-egg stir-fry requires four of its five ingredients: sugar is optional |
| `Scenarios.ThreeOfFour` | WeeklyChef/Models/DataManager.swift:134-139 | a fridge of tomatoes, eggs and salt matches three of the four |
| `Scenarios.ThreeOfFourIsNeedFew` | WeeklyChef/Views/RecommendationsView.swift:30-43 | three of four is 75%: recommended, not "can make", one short, and shown as 0.75 |
| `Scenarios.HalfIsNotRecommended` | WeeklyChef/Models/DataManager.swift:142 | tomatoes and eggs alone are not enough for a recommendation |

## Left out

- SwiftUI view bodies, layouts, colours, labels and navigation are presentation
  only and not modelled. This includes `matchingPercentageColor`, the fridge
  expiry labels, and the pickers and slider that set skill, budget and cooking
  time directly.
- `FirebaseService.swift` is not part of this model. Each remote call is an
  outcome passed in, and a remote write is a `RemoteRequest` appended to
  `remoteRequests`.
- Detached `Task { … }` writes, `async` suspension and `@MainActor` scheduling
  are not modelled. This is concurrency: a remote write completes at once, in
  program order, and a failure only sets `errorMessage`, never undoing the
  local change.
- JSON encoding and decoding, `UserDefaults`, `toDictionary` and
  `fromDictionary` are foreign serialisation. The saved slot is an optional
  list, and an encoding failure, which would leave the slot stale, is not
  modelled.
- `savePreferences`, `loadPreferences` and `syncData` in the settings screen
  are not modelled. They are the same serialisation, plus a call to
  `syncWithFirebase` and a message shown to the user.
- `errorMessage` holds a `StoreError` case instead of the localized text with
  `error.localizedDescription` appended.
- `ExtendedRecipeData.allRecipes` and `TestData.sampleIngredients` are static
  data. They are constructor arguments. `Scenarios` uses an abridged copy of one
  recipe: names and optionality only.
- Ingredients.DaysBetween: days are fixed 86,400-second spans. Time zones,
  daylight-saving changes and the calendar's own day boundaries are not
  modelled.
- Text.Lower: only ASCII letters are lower-cased. Swift's `lowercased()` also
  folds other scripts, and `localizedCaseInsensitiveContains` compares by
  locale. Chinese names, the app's usual case, are unaffected.
- Text.Contains: an empty needle is contained in every string. With Foundation
  imported, `contains(_:)` on two `String`s returns false for an empty needle.
  So in the model a fridge ingredient with an empty name matches every recipe
  ingredient, while in the app it matches none. Such an ingredient cannot be
  entered from the add screen, whose save button is disabled for an empty
  name. The search box is unaffected, because the source skips an empty search
  text.
- Store.GetRecipesForIngredients: the 0.7 and 0.9 thresholds are compared
  exactly, by integer cross-multiplication. The source divides `Double`s, where
  `7/10` and `9/10` are not exact. A ratio exactly at the threshold rounds to
  the same `Double` as the literal, so the two agree there. They can differ only
  for a ratio within one rounding step of the threshold. That needs more than
  10^15 required ingredients.
- Recipes.NewRecipe: both timestamps take one `now`; the source calls `Date()`
  once per defaulted argument.
- Recipes.SumCosts: it adds exact reals, not `Double`s with rounding.
- Store.LikeFirst: `likes` is an unbounded integer. In Swift, `likes += 1`
  traps at `Int.max`; the model always adds one.
- Raw enum values (the Chinese display names) and `Codable` conformance are
  not modelled.
