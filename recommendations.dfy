/** The recommendations screen (RecommendationsView.swift): the four tabs over the
    recommended recipes, and the per-row match percentage and missing list.

    Every tab starts from `GetRecipesForIngredients(recipes, fridge)`. "Can make"
    keeps the recipes with at least 90% of the required ingredients matched;
    "need few" and "need more" count the missing required ingredients instead. */
module Recommendations {
  import opened Foundation
  import opened Seqs
  import opened Ingredients
  import opened Recipes
  import opened Matching
  import opened Store

  datatype RecommendationFilter = All | CanMake | NeedFew | NeedMore

  /** `requiredIngredients.count - matchingIngredients.count`. */
  function MissingCount(recipe: Recipe, fridge: seq<Ingredient>): nat
  {
    RequiredCount(recipe) - MatchedCount(recipe, fridge)
  }

  predicate CanMakeNow(recipe: Recipe, fridge: seq<Ingredient>)
  {
    RatioAtLeast(MatchedCount(recipe, fridge), RequiredCount(recipe), 9)
  }

  predicate NeedsFew(recipe: Recipe, fridge: seq<Ingredient>)
  {
    1 <= MissingCount(recipe, fridge) <= 2
  }

  predicate NeedsMore(recipe: Recipe, fridge: seq<Ingredient>)
  {
    MissingCount(recipe, fridge) > 2
  }

  predicate InTier(recipe: Recipe, fridge: seq<Ingredient>, filter: RecommendationFilter)
  {
    match filter
    case All => true
    case CanMake => CanMakeNow(recipe, fridge)
    case NeedFew => NeedsFew(recipe, fridge)
    case NeedMore => NeedsMore(recipe, fridge)
  }

  function Tier(fridge: seq<Ingredient>, filter: RecommendationFilter): Recipe -> bool
  {
    (recipe: Recipe) => InTier(recipe, fridge, filter)
  }

  /** `recommendedRecipes`: the recommended recipes of the selected tab, in catalogue order. */
  function RecommendedRecipes(recipes: seq<Recipe>, fridge: seq<Ingredient>, filter: RecommendationFilter)
    : (r: seq<Recipe>)
    ensures filter == All ==> r == GetRecipesForIngredients(recipes, fridge)
    ensures forall x | x in r :: x in GetRecipesForIngredients(recipes, fridge) && InTier(x, fridge, filter)
    ensures forall x {:trigger x in r} | x in GetRecipesForIngredients(recipes, fridge) && InTier(x, fridge, filter) :: x in r
    ensures forall y ::
              multiset(r)[y] == if InTier(y, fridge, filter) then multiset(GetRecipesForIngredients(recipes, fridge))[y] else 0
    ensures IsSubsequence(r, GetRecipesForIngredients(recipes, fridge))
  {
    var all := GetRecipesForIngredients(recipes, fridge);
    match filter
    case All => SubsequenceReflexive(all); all
    case _ =>
      FilterIsSubsequence(all, Tier(fridge, filter));
      FilterSound(all, Tier(fridge, filter));
      FilterMultiset(all, Tier(fridge, filter));
      Filter(all, Tier(fridge, filter))
  }

  /** "Can make" means at most a tenth of the required ingredients is missing. */
  lemma CanMakeIffFewMissing(recipe: Recipe, fridge: seq<Ingredient>)
    ensures CanMakeNow(recipe, fridge) <==> RequiredCount(recipe) > 0 && 10 * MissingCount(recipe, fridge) <= RequiredCount(recipe)
  {
  }

  /** No recipe is in both "need few" and "need more". */
  lemma NeedFewAndNeedMoreDisjoint(recipes: seq<Recipe>, fridge: seq<Ingredient>)
    ensures forall x | x in RecommendedRecipes(recipes, fridge, NeedFew) :: x !in RecommendedRecipes(recipes, fridge, NeedMore)
  {
  }

  /** Every recommended recipe is in at least one of the three narrower tabs: with
      nothing missing it can be made, otherwise it misses one or two, or more. */
  lemma TiersCoverRecommendations(recipes: seq<Recipe>, fridge: seq<Ingredient>)
    ensures forall x | x in GetRecipesForIngredients(recipes, fridge) ::
              || x in RecommendedRecipes(recipes, fridge, CanMake)
              || x in RecommendedRecipes(recipes, fridge, NeedFew)
              || x in RecommendedRecipes(recipes, fridge, NeedMore)
  {
    forall x | x in GetRecipesForIngredients(recipes, fridge)
      ensures CanMakeNow(x, fridge) || NeedsFew(x, fridge) || NeedsMore(x, fridge)
    {
      assert RequiredCount(x) > 0;
    }
  }

  /** The tabs overlap: a recipe can be made yet miss one ingredient exactly when
      at least ten are required, and miss two when at least twenty are. */
  lemma CanMakeAndNeedFewOverlap(recipe: Recipe, fridge: seq<Ingredient>)
    ensures CanMakeNow(recipe, fridge) && NeedsFew(recipe, fridge) <==>
              || (MissingCount(recipe, fridge) == 1 && RequiredCount(recipe) >= 10)
              || (MissingCount(recipe, fridge) == 2 && RequiredCount(recipe) >= 20)
  {
  }

  /** Whatever can be made passes the 70% gate too. */
  lemma CanMakeIsRecommended(recipe: Recipe, fridge: seq<Ingredient>)
    ensures CanMakeNow(recipe, fridge) ==> IsRecommended(recipe, fridge)
  {
  }

  /** `matchingPercentage`: matched over required. `None` stands for the NaN the
      source computes when nothing is required. */
  function MatchingPercentage(recipe: Recipe, fridge: seq<Ingredient>): (p: Option<real>)
    ensures p.Some? <==> RequiredCount(recipe) > 0
    ensures p.Some? ==> 0.0 <= p.value <= 1.0
    ensures p.Some? ==> p.value * (RequiredCount(recipe) as real) == MatchedCount(recipe, fridge) as real
  {
    var required := RequiredCount(recipe);
    var matched := MatchedCount(recipe, fridge);
    if required == 0 then None
    else Some(Share(matched, required))
  }

  /** The percentage shown on a row agrees with the 70% gate and the 90% tab. */
  lemma PercentageAgreesWithTiers(recipe: Recipe, fridge: seq<Ingredient>)
    ensures IsRecommended(recipe, fridge)
            <==> MatchingPercentage(recipe, fridge).Some? && MatchingPercentage(recipe, fridge).value >= 0.7
    ensures CanMakeNow(recipe, fridge)
            <==> MatchingPercentage(recipe, fridge).Some? && MatchingPercentage(recipe, fridge).value >= 0.9
  {
    if RequiredCount(recipe) > 0 {
      RatioAtLeastIsQuotient(MatchedCount(recipe, fridge), RequiredCount(recipe), 7);
      RatioAtLeastIsQuotient(MatchedCount(recipe, fridge), RequiredCount(recipe), 9);
    }
  }

  /** `missingIngredients`: the required ingredients the fridge does not cover, in
      recipe order; there are exactly required-minus-matched of them. */
  function MissingIngredients(recipe: Recipe, fridge: seq<Ingredient>): (r: seq<RecipeIngredient>)
    ensures forall x | x in r :: x in recipe.ingredients && !x.isOptional && !IsIngredientAvailable(x, fridge)
    ensures forall x {:trigger x in r} | x in recipe.ingredients && !x.isOptional && !IsIngredientAvailable(x, fridge) :: x in r
    ensures |r| == MissingCount(recipe, fridge)
    ensures IsSubsequence(r, recipe.ingredients)
  {
    FilterComplement(Required(recipe), AvailableIn(fridge), MissingFrom(fridge));
    FilterIsSubsequence(Required(recipe), MissingFrom(fridge));
    FilterSound(Required(recipe), MissingFrom(fridge));
    FilterSound(recipe.ingredients, IsRequired);
    FilterIsSubsequence(recipe.ingredients, IsRequired);
    SubsequenceTransitive(Filter(Required(recipe), MissingFrom(fridge)), Required(recipe), recipe.ingredients);
    Filter(Required(recipe), MissingFrom(fridge))
  }
}
