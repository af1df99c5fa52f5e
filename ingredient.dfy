/** A fridge ingredient (Ingredient.swift): its record, its ten categories
    with their icons, and the two properties derived from the expiration date.
    The clock is an input: `now` is the instant the property is read at. */
module Ingredients {
  import opened Foundation

  datatype IngredientCategory =
    | Vegetables | Fruits | Meat | Seafood | Dairy
    | Grains | Condiments | Snacks | Beverages | Other

  datatype Ingredient = Ingredient(
    id: Uuid,
    name: string,
    quantity: real,
    unit: string,
    category: IngredientCategory,
    purchaseDate: Date,
    expirationDate: Option<Date>)

  /** `Calendar.dateComponents([.day], from:to:).day`: the number of whole days
      from `from` to `to`, rounded toward zero (negative when `to` is earlier). */
  function DaysBetween(from: Date, to: Date): (days: int)
    ensures to >= from ==> days >= 0 && days * SecondsPerDay <= to - from < (days + 1) * SecondsPerDay
    ensures to < from ==> days <= 0 && (days - 1) * SecondsPerDay < to - from <= days * SecondsPerDay
  {
    var d := to - from;
    if d >= 0 then d / SecondsPerDay else -((-d) / SecondsPerDay)
  }

  /** `isExpired`: only a dated ingredient can be expired, and it is once `now` is past the date. */
  predicate IsExpired(ingredient: Ingredient, now: Date)
  {
    match ingredient.expirationDate
    case None => false
    case Some(expiration) => now > expiration
  }

  /** `daysUntilExpiration`: undefined without an expiration date. */
  function DaysUntilExpiration(ingredient: Ingredient, now: Date): (days: Option<int>)
    ensures days.None? <==> ingredient.expirationDate.None?
  {
    match ingredient.expirationDate
    case None => None
    case Some(expiration) => Some(DaysBetween(now, expiration))
  }

  /** An expired ingredient has no whole day left, and a negative day count means expired. */
  lemma ExpiryAgreesWithDayCount(ingredient: Ingredient, now: Date)
    ensures IsExpired(ingredient, now) ==> DaysUntilExpiration(ingredient, now).value <= 0
    ensures DaysUntilExpiration(ingredient, now).Some? && DaysUntilExpiration(ingredient, now).value < 0
            ==> IsExpired(ingredient, now)
    ensures DaysUntilExpiration(ingredient, now).Some? && DaysUntilExpiration(ingredient, now).value > 0
            ==> !IsExpired(ingredient, now)
  {
  }

  /** Because the day count rounds toward zero, an ingredient that expired less than
      a day ago is expired and still has zero days left. */
  lemma ExpiredToday(ingredient: Ingredient, now: Date)
    requires ingredient.expirationDate.Some?
    requires ingredient.expirationDate.value < now < ingredient.expirationDate.value + SecondsPerDay
    ensures IsExpired(ingredient, now)
    ensures DaysUntilExpiration(ingredient, now) == Some(0)
  {
  }

  /** `IngredientCategory.icon`. */
  function IngredientCategoryIcon(category: IngredientCategory): string
  {
    match category
    case Vegetables => "leaf.fill"
    case Fruits => "applelogo"
    case Meat => "flame.fill"
    case Seafood => "fish.fill"
    case Dairy => "drop.fill"
    case Grains => "circle.fill"
    case Condiments => "sparkles"
    case Snacks => "star.fill"
    case Beverages => "cup.and.saucer.fill"
    case Other => "questionmark.circle.fill"
  }

  /** Every category has an icon of its own. */
  lemma IngredientCategoryIconInjective(a: IngredientCategory, b: IngredientCategory)
    ensures IngredientCategoryIcon(a) == IngredientCategoryIcon(b) ==> a == b
  {
  }
}
