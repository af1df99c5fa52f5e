/** Worked cases from the bundled data (TestData.swift, ExtendedRecipeData.swift):
    the tomato-and-egg stir-fry against a few fridges. */
module Scenarios {
  import opened Foundation
  import opened Seqs
  import opened Text
  import opened Ingredients
  import opened Recipes
  import opened Matching
  import opened Store
  import opened Recommendations

  function Item(id: Uuid, name: string, optional: bool): RecipeIngredient
  {
    RecipeIngredient(id, name, 1.0, "个", 0.5, optional)
  }

  function Stocked(id: Uuid, name: string): Ingredient
  {
    Ingredient(id, name, 1.0, "个", Vegetables, 0, None)
  }

  /** 番茄炒蛋, abridged to its ingredient names and optionality: tomato, egg, salt
      and oil required, sugar optional. */
  function TomatoEggs(): Recipe
  {
    NewRecipe(1, "番茄炒蛋", "经典的家常菜",
      [Item(11, "番茄", false), Item(12, "鸡蛋", false), Item(13, "盐", false),
       Item(14, "油", false), Item(15, "糖", true)],
      [], 10, Easy, Chinese, ["家常菜"], 0)
  }

  /** Case is ignored, and a longer fridge name covers a shorter recipe name. */
  lemma EggplantMatchesEgg()
    ensures NamesMatch("EGGPLANT", "Egg")
  {
    assert Lower("EGGPLANT") == "eggplant";
    assert Lower("Egg") == "egg";
    assert "egg" <= "eggplant";
  }

  /** A canned tomato in the fridge covers the recipe's tomato. */
  lemma CannedTomatoMatchesTomato()
    ensures NamesMatch("新鲜番茄罐头", "番茄")
  {
    assert Lower("新鲜番茄罐头") == "新鲜番茄罐头";
    assert Lower("番茄") == "番茄";
    assert Contains("番茄罐头", "番茄");
    assert "新鲜番茄罐头"[1..] == "鲜番茄罐头";
    assert "鲜番茄罐头"[1..] == "番茄罐头";
  }

  /** Unrelated names do not match. */
  lemma SaltDoesNotMatchSugar()
    ensures !NamesMatch("盐", "糖")
  {
    assert Lower("盐") == "盐";
    assert Lower("糖") == "糖";
  }

  /** The optional sugar is not required: four ingredients count. */
  lemma TomatoEggsRequiresFour()
    ensures Required(TomatoEggs()) == TomatoEggs().ingredients[..4]
    ensures RequiredCount(TomatoEggs()) == 4
  {
    var a, b, c, d, e := Item(11, "番茄", false), Item(12, "鸡蛋", false), Item(13, "盐", false),
                         Item(14, "油", false), Item(15, "糖", true);
    assert TomatoEggs().ingredients == [a, b, c, d, e];
    FilterDropsLast(a, b, c, d, e, IsRequired);
    assert [a, b, c, d, e][..4] == [a, b, c, d];
  }

  /** Oil matches none of tomato, egg and salt; salt matches neither tomato nor egg. */
  lemma OilAndSaltMatchNothingElse()
    ensures !NamesMatch("番茄", "油") && !NamesMatch("鸡蛋", "油") && !NamesMatch("盐", "油")
    ensures !NamesMatch("番茄", "盐") && !NamesMatch("鸡蛋", "盐")
  {
    assert Lower("油") == "油" && Lower("番茄") == "番茄" && Lower("鸡蛋") == "鸡蛋" && Lower("盐") == "盐";
    ContainsCharIff("番茄", '油');
    ContainsCharIff("鸡蛋", '油');
    ContainsCharIff("盐", '油');
    ContainsCharIff("油", '盐');
    ContainsCharIff("番茄", '盐');
    ContainsCharIff("鸡蛋", '盐');
    ContainsLength("油", "番茄");
    ContainsLength("油", "鸡蛋");
    ContainsLength("盐", "番茄");
    ContainsLength("盐", "鸡蛋");
  }

  /** In a fridge of tomatoes, eggs and salt, the first three are there... */
  lemma ThreeStocked()
    ensures IsIngredientAvailable(Item(11, "番茄", false), [Stocked(1, "番茄"), Stocked(2, "鸡蛋"), Stocked(3, "盐")])
    ensures IsIngredientAvailable(Item(12, "鸡蛋", false), [Stocked(1, "番茄"), Stocked(2, "鸡蛋"), Stocked(3, "盐")])
    ensures IsIngredientAvailable(Item(13, "盐", false), [Stocked(1, "番茄"), Stocked(2, "鸡蛋"), Stocked(3, "盐")])
  {
    var fridge := [Stocked(1, "番茄"), Stocked(2, "鸡蛋"), Stocked(3, "盐")];
    SameNameIsAvailable(Item(11, "番茄", false), fridge, 0);
    SameNameIsAvailable(Item(12, "鸡蛋", false), fridge, 1);
    SameNameIsAvailable(Item(13, "盐", false), fridge, 2);
  }

  /** ...and the oil is not. */
  lemma OilNotStocked()
    ensures !IsIngredientAvailable(Item(14, "油", false), [Stocked(1, "番茄"), Stocked(2, "鸡蛋"), Stocked(3, "盐")])
  {
    OilAndSaltMatchNothingElse();
  }

  /** Three of the four required ingredients are matched. */
  lemma ThreeOfFour()
    ensures MatchedCount(TomatoEggs(), [Stocked(1, "番茄"), Stocked(2, "鸡蛋"), Stocked(3, "盐")]) == 3
  {
    TomatoEggsRequiresFour();
    ThreeStocked();
    OilNotStocked();
    var a, b, c, d := Item(11, "番茄", false), Item(12, "鸡蛋", false), Item(13, "盐", false), Item(14, "油", false);
    assert Required(TomatoEggs()) == [a, b, c, d];
    FilterFourCount(a, b, c, d, AvailableIn([Stocked(1, "番茄"), Stocked(2, "鸡蛋"), Stocked(3, "盐")]));
  }

  /** Three of four is 75%: recommended, not yet "can make", one ingredient short. */
  lemma ThreeOfFourIsNeedFew()
    ensures IsRecommended(TomatoEggs(), [Stocked(1, "番茄"), Stocked(2, "鸡蛋"), Stocked(3, "盐")])
    ensures !CanMakeNow(TomatoEggs(), [Stocked(1, "番茄"), Stocked(2, "鸡蛋"), Stocked(3, "盐")])
    ensures NeedsFew(TomatoEggs(), [Stocked(1, "番茄"), Stocked(2, "鸡蛋"), Stocked(3, "盐")])
    ensures MatchingPercentage(TomatoEggs(), [Stocked(1, "番茄"), Stocked(2, "鸡蛋"), Stocked(3, "盐")]) == Some(0.75)
  {
    ThreeOfFour();
    TomatoEggsRequiresFour();
  }

  /** In a fridge of tomatoes and eggs, salt and oil are missing. */
  lemma TwoStocked()
    ensures !IsIngredientAvailable(Item(13, "盐", false), [Stocked(1, "番茄"), Stocked(2, "鸡蛋")])
    ensures !IsIngredientAvailable(Item(14, "油", false), [Stocked(1, "番茄"), Stocked(2, "鸡蛋")])
  {
    OilAndSaltMatchNothingElse();
  }

  /** Tomatoes and eggs alone cover at most half of what is required: not recommended. */
  lemma HalfIsNotRecommended()
    ensures !IsRecommended(TomatoEggs(), [Stocked(1, "番茄"), Stocked(2, "鸡蛋")])
  {
    TomatoEggsRequiresFour();
    TwoStocked();
    var a, b, c, d := Item(11, "番茄", false), Item(12, "鸡蛋", false), Item(13, "盐", false), Item(14, "油", false);
    assert Required(TomatoEggs()) == [a, b, c, d];
    FilterFourCount(a, b, c, d, AvailableIn([Stocked(1, "番茄"), Stocked(2, "鸡蛋")]));
  }
}
