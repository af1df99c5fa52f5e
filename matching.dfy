/** The matching rule shared by the recommendation engine and the recipe detail
    screen. The source writes the same expression out seven times
    (`getRecipesForIngredients`, the three tier filters, `matchingPercentage`,
    `missingIngredients` and `isIngredientAvailable`); the model states it once.

    A recipe ingredient is in the fridge when, after lower-casing both names,
    some fridge ingredient's name contains the recipe ingredient's name or the
    other way round. Only names take part. */
module Matching {
  import opened Seqs
  import opened Text
  import opened Ingredients
  import opened Recipes

  /** Either lower-cased name contains the other. */
  predicate NamesMatch(fridgeName: string, recipeName: string)
  {
    var f, r := Lower(fridgeName), Lower(recipeName);
    Contains(f, r) || Contains(r, f)
  }

  /** `isIngredientAvailable`: some fridge ingredient's name matches. */
  predicate IsIngredientAvailable(ingredient: RecipeIngredient, fridge: seq<Ingredient>)
  {
    exists i | 0 <= i < |fridge| :: NamesMatch(fridge[i].name, ingredient.name)
  }

  lemma NamesMatchSymmetric(a: string, b: string)
    ensures NamesMatch(a, b) <==> NamesMatch(b, a)
  {
  }

  /** Nothing is available in an empty fridge. */
  lemma NothingAvailableInEmptyFridge(ingredient: RecipeIngredient)
    ensures !IsIngredientAvailable(ingredient, [])
  {
  }

  /** Quantity, unit, cost and `isOptional` play no part: only the name does. */
  lemma AvailabilityDependsOnlyOnName(a: RecipeIngredient, b: RecipeIngredient, fridge: seq<Ingredient>)
    requires a.name == b.name
    ensures IsIngredientAvailable(a, fridge) <==> IsIngredientAvailable(b, fridge)
  {
  }

  /** A fridge ingredient with the same name, ignoring case, always counts. */
  lemma SameNameIsAvailable(ingredient: RecipeIngredient, fridge: seq<Ingredient>, k: nat)
    requires k < |fridge| && Lower(fridge[k].name) == Lower(ingredient.name)
    ensures IsIngredientAvailable(ingredient, fridge)
  {
    assert Contains(Lower(fridge[k].name), Lower(ingredient.name));
  }

  /** Every ingredient of a smaller fridge is in the bigger one: anything available
      in the smaller is available in the bigger. */
  lemma AvailabilityMonotone(ingredient: RecipeIngredient, fridge: seq<Ingredient>, bigger: seq<Ingredient>)
    requires forall x | x in fridge :: x in bigger
    requires IsIngredientAvailable(ingredient, fridge)
    ensures IsIngredientAvailable(ingredient, bigger)
  {
    var i :| 0 <= i < |fridge| && NamesMatch(fridge[i].name, ingredient.name);
    assert fridge[i] in bigger;
    var j :| 0 <= j < |bigger| && bigger[j] == fridge[i];
  }

  predicate IsRequired(ingredient: RecipeIngredient)
  {
    !ingredient.isOptional
  }

  predicate IsOptional(ingredient: RecipeIngredient)
  {
    ingredient.isOptional
  }

  /** `recipe.ingredients.filter { !$0.isOptional }`. */
  function Required(recipe: Recipe): seq<RecipeIngredient>
  {
    Filter(recipe.ingredients, IsRequired)
  }

  function AvailableIn(fridge: seq<Ingredient>): RecipeIngredient -> bool
  {
    ingredient => IsIngredientAvailable(ingredient, fridge)
  }

  function MissingFrom(fridge: seq<Ingredient>): RecipeIngredient -> bool
  {
    ingredient => !IsIngredientAvailable(ingredient, fridge)
  }

  /** The required ingredients that the fridge covers (`matchingIngredients`). */
  function Matched(recipe: Recipe, fridge: seq<Ingredient>): seq<RecipeIngredient>
  {
    Filter(Required(recipe), AvailableIn(fridge))
  }

  function RequiredCount(recipe: Recipe): nat
  {
    |Required(recipe)|
  }

  /** The number of matched required ingredients never exceeds the number required. */
  function MatchedCount(recipe: Recipe, fridge: seq<Ingredient>): (n: nat)
    ensures n <= RequiredCount(recipe)
  {
    |Matched(recipe, fridge)|
  }

  /** `totalIngredients` is the required ingredients plus the optional ones. */
  lemma TotalIsRequiredPlusOptional(recipe: Recipe)
    ensures TotalIngredients(recipe) == RequiredCount(recipe) + |Filter(recipe.ingredients, IsOptional)|
  {
    FilterComplement(recipe.ingredients, IsRequired, IsOptional);
  }

  /** `Double(matched) / Double(required) >= tenths / 10`, by cross-multiplication.
      With nothing required the source divides 0 by 0; NaN compares false. */
  predicate RatioAtLeast(matched: nat, required: nat, tenths: nat)
  {
    required > 0 && 10 * matched >= tenths * required
  }

  /** The cross-multiplied test is the quotient test on exact reals. */
  lemma RatioAtLeastIsQuotient(matched: nat, required: nat, tenths: nat)
    requires required > 0
    ensures RatioAtLeast(matched, required, tenths)
            <==> (matched as real) / (required as real) >= (tenths as real) / 10.0
  {
    var q := (matched as real) / (required as real);
    assert q * (required as real) == matched as real;
    if 10 * matched >= tenths * required {
      assert q * (required as real) * 10.0 >= (tenths as real) * (required as real);
    } else {
      assert q * (required as real) * 10.0 < (tenths as real) * (required as real);
    }
  }

  /** Matched over required as a fraction; multiplying back gives the count. */
  function Share(matched: nat, required: nat): (q: real)
    requires required > 0 && matched <= required
    ensures 0.0 <= q <= 1.0
    ensures q * (required as real) == matched as real
  {
    (matched as real) / (required as real)
  }

  /** A bigger fridge never matches fewer of a recipe's required ingredients. */
  lemma MatchedCountMonotone(recipe: Recipe, fridge: seq<Ingredient>, bigger: seq<Ingredient>)
    requires forall x | x in fridge :: x in bigger
    ensures MatchedCount(recipe, fridge) <= MatchedCount(recipe, bigger)
  {
    forall ingredient | ingredient in Required(recipe) && AvailableIn(fridge)(ingredient)
      ensures AvailableIn(bigger)(ingredient)
    {
      AvailabilityMonotone(ingredient, fridge, bigger);
    }
    FilterMonotone(Required(recipe), AvailableIn(fridge), AvailableIn(bigger));
  }
}
