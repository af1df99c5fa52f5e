/** A recipe (Recipe.swift): its record, its ingredients, the derived counts and
    costs, the initialisers' defaults and the enumerations' display mappings.
    Costs and nutrition values, `Double` in the source, are `real` here. */
module Recipes {
  import opened Foundation

  datatype Difficulty = Easy | Medium | Hard

  datatype RecipeCategory = Chinese | Western | Quick | Healthy | Breakfast | Lunch | Dinner | Snack

  datatype NutritionInfo = NutritionInfo(
    calories: real,
    protein: real,
    carbohydrates: real,
    fat: real,
    fiber: real,
    sugar: real,
    sodium: real)

  datatype RecipeIngredient = RecipeIngredient(
    id: Uuid,
    name: string,
    quantity: real,
    unit: string,
    estimatedCost: real,
    isOptional: bool)

  datatype Recipe = Recipe(
    id: Uuid,
    name: string,
    description: string,
    ingredients: seq<RecipeIngredient>,
    instructions: seq<string>,
    cookingTime: int,
    difficulty: Difficulty,
    category: RecipeCategory,
    imageURL: Option<string>,
    tags: seq<string>,
    authorId: Option<string>,
    createdAt: Date,
    updatedAt: Date,
    likes: int,
    nutritionInfo: Option<NutritionInfo>)

  /** `totalIngredients`: optional ingredients are counted too. */
  function TotalIngredients(recipe: Recipe): nat
  {
    |recipe.ingredients|
  }

  /** `ingredients.reduce(0) { $0 + $1.estimatedCost }`, folded from the left. */
  function SumCosts(ingredients: seq<RecipeIngredient>): (total: real)
    ensures ingredients == [] ==> total == 0.0
    ensures (forall i :: 0 <= i < |ingredients| ==> ingredients[i].estimatedCost >= 0.0) ==> total >= 0.0
  {
    if ingredients == [] then 0.0
    else SumCosts(ingredients[..|ingredients| - 1]) + ingredients[|ingredients| - 1].estimatedCost
  }

  /** The cost of two lists joined is the sum of their costs. */
  lemma {:induction false} SumCostsAppend(a: seq<RecipeIngredient>, b: seq<RecipeIngredient>)
    ensures SumCosts(a + b) == SumCosts(a) + SumCosts(b)
    decreases |b|
  {
    if b != [] {
      assert (a + b)[..|a + b| - 1] == a + b[..|b| - 1];
      SumCostsAppend(a, b[..|b| - 1]);
    } else {
      assert a + b == a;
    }
  }

  /** `estimatedCost`: the sum of the ingredients' estimated costs. */
  function EstimatedCost(recipe: Recipe): (cost: real)
    ensures recipe.ingredients == [] ==> cost == 0.0
    ensures (forall i :: 0 <= i < |recipe.ingredients| ==> recipe.ingredients[i].estimatedCost >= 0.0) ==> cost >= 0.0
  {
    SumCosts(recipe.ingredients)
  }

  /** `Recipe.init` with its defaulted arguments left out: no image, no author,
      no nutrition block, no likes, and both timestamps at the moment of creation. */
  function NewRecipe(
    id: Uuid, name: string, description: string, ingredients: seq<RecipeIngredient>,
    instructions: seq<string>, cookingTime: int, difficulty: Difficulty,
    category: RecipeCategory, tags: seq<string>, now: Date): (r: Recipe)
    ensures r.likes == 0
    ensures r.imageURL.None? && r.authorId.None? && r.nutritionInfo.None?
    ensures r.createdAt == now && r.updatedAt == now
    ensures r.id == id && r.name == name && r.description == description && r.ingredients == ingredients
    ensures r.instructions == instructions && r.cookingTime == cookingTime && r.difficulty == difficulty
    ensures r.category == category && r.tags == tags
  {
    Recipe(id, name, description, ingredients, instructions, cookingTime, difficulty, category,
           None, tags, None, now, now, 0, None)
  }

  /** The memberwise `RecipeIngredient` initialiser with `isOptional` left at its default. */
  function NewRecipeIngredient(id: Uuid, name: string, quantity: real, unit: string, estimatedCost: real): (ri: RecipeIngredient)
    ensures !ri.isOptional
    ensures ri.id == id && ri.name == name && ri.quantity == quantity && ri.unit == unit
    ensures ri.estimatedCost == estimatedCost
  {
    RecipeIngredient(id, name, quantity, unit, estimatedCost, false)
  }

  /** `NutritionInfo()` with every argument defaulted. */
  function DefaultNutritionInfo(): (n: NutritionInfo)
    ensures n.calories == 0.0 && n.protein == 0.0 && n.carbohydrates == 0.0 && n.fat == 0.0
    ensures n.fiber == 0.0 && n.sugar == 0.0 && n.sodium == 0.0
  {
    NutritionInfo(0.0, 0.0, 0.0, 0.0, 0.0, 0.0, 0.0)
  }

  /** `Difficulty.color`. */
  function DifficultyColor(difficulty: Difficulty): string
  {
    match difficulty
    case Easy => "green"
    case Medium => "orange"
    case Hard => "red"
  }

  lemma DifficultyColors()
    ensures DifficultyColor(Easy) == "green"
    ensures DifficultyColor(Medium) == "orange"
    ensures DifficultyColor(Hard) == "red"
  {
  }

  /** The position of a difficulty in `Difficulty.allCases`. */
  function DifficultyRank(difficulty: Difficulty): nat
  {
    match difficulty
    case Easy => 0
    case Medium => 1
    case Hard => 2
  }

  /** `RecipeCategory.icon`. */
  function RecipeCategoryIcon(category: RecipeCategory): string
  {
    match category
    case Chinese => "fork.knife"
    case Western => "birthday.cake"
    case Quick => "bolt.fill"
    case Healthy => "heart.fill"
    case Breakfast => "sunrise.fill"
    case Lunch => "sun.max.fill"
    case Dinner => "moon.fill"
    case Snack => "star.fill"
  }

  /** Every recipe category has an icon of its own. */
  lemma RecipeCategoryIconInjective(a: RecipeCategory, b: RecipeCategory)
    ensures RecipeCategoryIcon(a) == RecipeCategoryIcon(b) ==> a == b
  {
  }
}
