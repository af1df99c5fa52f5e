/** The user's cooking preferences (UserPreferences.swift): the record, its
    default, and the limits a skill level and a budget imply. */
module Preferences {
  import opened Recipes

  datatype DietaryRestriction =
    | Vegetarian | Vegan | GlutenFree | LactoseFree | LowSodium
    | LowFat | Diabetic | Halal | Kosher

  datatype CookingSkillLevel = Beginner | Intermediate | Advanced

  datatype BudgetRange = Low | Medium | High

  datatype UserPreferences = UserPreferences(
    dietaryRestrictions: seq<DietaryRestriction>,
    preferredCuisines: seq<RecipeCategory>,
    skillLevel: CookingSkillLevel,
    maxCookingTime: int,
    budgetRange: BudgetRange,
    allergies: seq<string>,
    favoriteIngredients: seq<string>,
    dislikedIngredients: seq<string>)

  /** `UserPreferences.init()`. */
  function DefaultPreferences(): (p: UserPreferences)
    ensures p.dietaryRestrictions == []
    ensures p.preferredCuisines == [Chinese, Quick]
    ensures p.skillLevel == Beginner
    ensures p.maxCookingTime == 30
    ensures p.budgetRange == BudgetRange.Medium
    ensures p.allergies == [] && p.favoriteIngredients == [] && p.dislikedIngredients == []
  {
    UserPreferences([], [Chinese, Quick], Beginner, 30, BudgetRange.Medium, [], [], [])
  }

  /** `CookingSkillLevel.maxDifficulty`. */
  function MaxDifficulty(level: CookingSkillLevel): Difficulty
  {
    match level
    case Beginner => Easy
    case Intermediate => Difficulty.Medium
    case Advanced => Hard
  }

  /** The position of a skill level in `CookingSkillLevel.allCases`. */
  function SkillRank(level: CookingSkillLevel): nat
  {
    match level
    case Beginner => 0
    case Intermediate => 1
    case Advanced => 2
  }

  /** A more skilled cook may attempt harder recipes, and each level allows a different difficulty. */
  lemma MaxDifficultyMonotone(a: CookingSkillLevel, b: CookingSkillLevel)
    ensures SkillRank(a) <= SkillRank(b) <==> DifficultyRank(MaxDifficulty(a)) <= DifficultyRank(MaxDifficulty(b))
    ensures MaxDifficulty(Beginner) == Easy && MaxDifficulty(Intermediate) == Difficulty.Medium && MaxDifficulty(Advanced) == Hard
  {
  }

  /** `BudgetRange.maxCost`, in dollars per meal. */
  function MaxCost(budget: BudgetRange): real
  {
    match budget
    case Low => 10.0
    case Medium => 20.0
    case High => 50.0
  }

  /** The budget ceilings are 10, 20 and 50 and grow strictly with the range. */
  lemma MaxCostIncreasing()
    ensures MaxCost(Low) == 10.0 && MaxCost(BudgetRange.Medium) == 20.0 && MaxCost(High) == 50.0
    ensures MaxCost(Low) < MaxCost(BudgetRange.Medium) < MaxCost(High)
  {
  }

  /** The default cook is a beginner on a medium budget: easy recipes, at most 20 per meal. */
  lemma DefaultLimits()
    ensures MaxDifficulty(DefaultPreferences().skillLevel) == Easy
    ensures MaxCost(DefaultPreferences().budgetRange) == 20.0
  {
  }
}
