/** The settings screen (SettingsView.swift): the cuisine and restriction chips
    that toggle a value in or out of a preference list, and the allergy list's
    add and delete buttons. The screen owns one `UserPreferences` value and edits
    its lists in place. */
module Settings {
  import opened Seqs
  import opened Recipes
  import opened Preferences

  /** `removeAll { $0 == x }`: drops every occurrence of `x`, keeps the rest in order. */
  function RemoveAll<T(==,!new)>(s: seq<T>, x: T): (r: seq<T>)
    ensures x !in r
    ensures forall y | y in r :: y in s
    ensures forall y {:trigger y in r} | y in s && y != x :: y in r
    ensures forall y | y != x :: multiset(r)[y] == multiset(s)[y]
    ensures IsSubsequence(r, s)
  {
    if s == [] then []
    else
      var rest := RemoveAll(s[1..], x);
      assert s == [s[0]] + s[1..];
      if s[0] == x then
        assert IsSubsequence(rest, s[1..]);
        rest
      else
        assert ([s[0]] + rest)[1..] == rest;
        [s[0]] + rest
  }

  /** Nothing to remove leaves the list as it was. */
  lemma {:induction false} RemoveAllAbsent<T(!new)>(s: seq<T>, x: T)
    requires x !in s
    ensures RemoveAll(s, x) == s
    decreases |s|
  {
    if s != [] {
      RemoveAllAbsent(s[1..], x);
    }
  }

  /** Removing from a joined list removes from each part. */
  lemma {:induction false} RemoveAllAppend<T(!new)>(a: seq<T>, b: seq<T>, x: T)
    ensures RemoveAll(a + b, x) == RemoveAll(a, x) + RemoveAll(b, x)
    decreases |a|
  {
    if a == [] {
      assert a + b == b;
    } else {
      assert (a + b)[0] == a[0];
      assert (a + b)[1..] == a[1..] + b;
      RemoveAllAppend(a[1..], b, x);
    }
  }

  /** `toggleCuisine` / `toggleRestriction`: a chip that is on is switched off by
      removing every occurrence; a chip that is off is appended at the end. */
  function Toggle<T(==,!new)>(s: seq<T>, x: T): (r: seq<T>)
    ensures x in r <==> x !in s
    ensures forall y | y != x :: (y in r <==> y in s)
    ensures x !in s ==> r == s + [x]
    ensures x in s ==> IsSubsequence(r, s) && forall y | y != x :: multiset(r)[y] == multiset(s)[y]
  {
    if x in s then RemoveAll(s, x) else s + [x]
  }

  /** Switching a chip on and off again restores the list. */
  lemma ToggleTwiceRestores<T(!new)>(s: seq<T>, x: T)
    requires x !in s
    ensures Toggle(Toggle(s, x), x) == s
  {
    RemoveAllAppend(s, [x], x);
    RemoveAllAbsent(s, x);
    assert RemoveAll([x], x) == [];
  }

  /** Switching a chip off and on again keeps it, but moves it to the end. */
  lemma ToggleTwiceMovesToEnd<T(!new)>(s: seq<T>, x: T)
    requires x in s
    ensures Toggle(Toggle(s, x), x) == RemoveAll(s, x) + [x]
  {
  }

  /** `remove(at:)`: the element at `i` goes and those after it shift down by one. */
  function RemoveAt<T>(s: seq<T>, i: nat): (r: seq<T>)
    requires i < |s|
    ensures |r| == |s| - 1
    ensures forall j | 0 <= j < i :: r[j] == s[j]
    ensures forall j | i <= j < |r| :: r[j] == s[j + 1]
  {
    s[..i] + s[i + 1..]
  }

  /** Deleting removes exactly one copy of the element at the index. */
  lemma RemoveAtMultiset<T>(s: seq<T>, i: nat)
    requires i < |s|
    ensures multiset(RemoveAt(s, i)) + multiset{s[i]} == multiset(s)
  {
    assert s == s[..i] + [s[i]] + s[i + 1..];
  }

  /** Deleting the row just added restores the list. */
  lemma AddThenDeleteRestores(s: seq<string>)
    ensures RemoveAt(s + [""], |s|) == s
  {
  }

  /** The screen's `@State` preferences, edited in place by the buttons. */
  class SettingsView {
    var preferences: UserPreferences

    /** The screen opens on `UserPreferences()`. */
    constructor()
      ensures preferences == DefaultPreferences()
    {
      preferences := DefaultPreferences();
    }

    method ToggleCuisine(category: RecipeCategory)
      modifies this
      ensures preferences == old(preferences).(preferredCuisines := Toggle(old(preferences.preferredCuisines), category))
    {
      if category in preferences.preferredCuisines {
        preferences := preferences.(preferredCuisines := RemoveAll(preferences.preferredCuisines, category));
      } else {
        preferences := preferences.(preferredCuisines := preferences.preferredCuisines + [category]);
      }
    }

    method ToggleRestriction(restriction: DietaryRestriction)
      modifies this
      ensures preferences == old(preferences).(dietaryRestrictions := Toggle(old(preferences.dietaryRestrictions), restriction))
    {
      if restriction in preferences.dietaryRestrictions {
        preferences := preferences.(dietaryRestrictions := RemoveAll(preferences.dietaryRestrictions, restriction));
      } else {
        preferences := preferences.(dietaryRestrictions := preferences.dietaryRestrictions + [restriction]);
      }
    }

    /** "Add allergy" appends an empty row for the user to type into. */
    method AddAllergy()
      modifies this
      ensures preferences == old(preferences).(allergies := old(preferences.allergies) + [""])
    {
      preferences := preferences.(allergies := preferences.allergies + [""]);
    }

    /** A row's delete button removes that row. */
    method DeleteAllergy(index: nat)
      requires index < |preferences.allergies|
      modifies this
      ensures preferences == old(preferences).(allergies := RemoveAt(old(preferences.allergies), index))
    {
      preferences := preferences.(allergies := preferences.allergies[..index] + preferences.allergies[index + 1..]);
    }
  }
}
