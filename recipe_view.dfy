/** The recipe list (RecipeView.swift): the catalogue narrowed first by the
    selected category chip, then by the search field. */
module Catalog {
  import opened Foundation
  import opened Seqs
  import opened Text
  import opened Recipes

  /** The search text occurs, ignoring case, in the name, the description or some tag. */
  predicate MatchesSearch(recipe: Recipe, searchText: string)
  {
    || CaseInsensitiveContains(recipe.name, searchText)
    || CaseInsensitiveContains(recipe.description, searchText)
    || exists i | 0 <= i < |recipe.tags| :: CaseInsensitiveContains(recipe.tags[i], searchText)
  }

  function OfCategory(category: RecipeCategory): Recipe -> bool
  {
    (recipe: Recipe) => recipe.category == category
  }

  function Searched(searchText: string): Recipe -> bool
  {
    (recipe: Recipe) => MatchesSearch(recipe, searchText)
  }

  /** The category chip: with a category selected, exactly the recipes of that
      category, every copy kept, in order; with none, the list unchanged. */
  function NarrowByCategory(recipes: seq<Recipe>, selectedCategory: Option<RecipeCategory>): (r: seq<Recipe>)
    ensures forall x | x in r :: x in recipes && (selectedCategory.Some? ==> x.category == selectedCategory.value)
    ensures forall x {:trigger x in r} | x in recipes && (selectedCategory.Some? ==> x.category == selectedCategory.value)
              :: x in r
    ensures forall y ::
              multiset(r)[y] == if selectedCategory.Some? ==> y.category == selectedCategory.value then multiset(recipes)[y] else 0
    ensures IsSubsequence(r, recipes)
    ensures selectedCategory.None? ==> r == recipes
  {
    if selectedCategory.Some? then
      FilterIsSubsequence(recipes, OfCategory(selectedCategory.value));
      FilterSound(recipes, OfCategory(selectedCategory.value));
      FilterMultiset(recipes, OfCategory(selectedCategory.value));
      Filter(recipes, OfCategory(selectedCategory.value))
    else
      SubsequenceReflexive(recipes);
      recipes
  }

  /** The search field: with text typed, exactly the recipes matching it, every copy
      kept, in order; with an empty field, the list unchanged. */
  function NarrowBySearch(recipes: seq<Recipe>, searchText: string): (r: seq<Recipe>)
    ensures forall x | x in r :: x in recipes && (searchText != [] ==> MatchesSearch(x, searchText))
    ensures forall x {:trigger x in r} | x in recipes && (searchText != [] ==> MatchesSearch(x, searchText)) :: x in r
    ensures forall y ::
              multiset(r)[y] == if searchText != [] ==> MatchesSearch(y, searchText) then multiset(recipes)[y] else 0
    ensures IsSubsequence(r, recipes)
    ensures searchText == [] ==> r == recipes
  {
    if searchText != [] then
      FilterIsSubsequence(recipes, Searched(searchText));
      FilterSound(recipes, Searched(searchText));
      FilterMultiset(recipes, Searched(searchText));
      Filter(recipes, Searched(searchText))
    else
      SubsequenceReflexive(recipes);
      recipes
  }

  /** `filteredRecipes`: a recipe is listed exactly when it is of the selected
      category (if one is selected) and matches the search text (if any was typed);
      every copy of a listed recipe is kept, the list keeps catalogue order, and
      everything is shown with no filter active. */
  function FilteredRecipes(recipes: seq<Recipe>, selectedCategory: Option<RecipeCategory>, searchText: string)
    : (r: seq<Recipe>)
    ensures forall x | x in r ::
              && x in recipes
              && (selectedCategory.Some? ==> x.category == selectedCategory.value)
              && (searchText != [] ==> MatchesSearch(x, searchText))
    ensures forall x {:trigger x in r} | x in recipes
                       && (selectedCategory.Some? ==> x.category == selectedCategory.value)
                       && (searchText != [] ==> MatchesSearch(x, searchText)) :: x in r
    ensures forall y ::
              multiset(r)[y] ==
                if && (selectedCategory.Some? ==> y.category == selectedCategory.value)
                   && (searchText != [] ==> MatchesSearch(y, searchText))
                then multiset(recipes)[y] else 0
    ensures IsSubsequence(r, recipes)
    ensures selectedCategory.None? && searchText == [] ==> r == recipes
  {
    var byCategory := NarrowByCategory(recipes, selectedCategory);
    SubsequenceTransitive(NarrowBySearch(byCategory, searchText), byCategory, recipes);
    NarrowBySearch(byCategory, searchText)
  }

  /** Applying the search before the category chip lists the same recipes in the same order. */
  lemma FiltersCommute(recipes: seq<Recipe>, category: RecipeCategory, searchText: string)
    requires searchText != []
    ensures FilteredRecipes(recipes, Some(category), searchText)
            == Filter(Filter(recipes, Searched(searchText)), OfCategory(category))
  {
    FilterCommutes(recipes, OfCategory(category), Searched(searchText));
  }
}
