/**
 * The recipe list's filter (src/screens/Recipes/index.tsx): a category tab
 * restricts recipes by equipment type, then a non-empty search text keeps the
 * recipes whose lower-cased name contains the lower-cased text.
 */
module Recipes {
  import opened Types
  import opened Seqs

  /** The `switch` on the selected category: pour-over, espresso, "specials" (neither
      of the two), and no restriction for any other tab. */
  function MatchesCategory(category: string, r: BrewingMethod): (matches: bool)
    ensures category != "手冲" && category != "意式" && category != "特调" ==> matches
  {
    if category == "手冲" then r.equipment.kind == "Pour Over"
    else if category == "意式" then r.equipment.kind == "Espresso"
    else if category == "特调" then r.equipment.kind != "Pour Over" && r.equipment.kind != "Espresso"
    else true
  }

  function LowerChar(c: char): char {
    if 'A' <= c <= 'Z' then (c as int + 32) as char else c
  }

  predicate HasNoUpper(s: string) {
    forall i :: 0 <= i < |s| ==> !('A' <= s[i] <= 'Z')
  }

  /** `toLowerCase()`, for the ASCII letters: the result has no upper-case ASCII letter,
      each upper-case letter becomes its lower-case partner, every other character is
      kept, and a string that is already lower case comes back unchanged. */
  function ToLower(s: string): (r: string)
    ensures |r| == |s|
    ensures forall i :: 0 <= i < |s| ==> r[i] == LowerChar(s[i])
    ensures HasNoUpper(r)
    ensures forall i :: 0 <= i < |s| && 'A' <= s[i] <= 'Z' ==> r[i] as int == s[i] as int + 32
    ensures forall i :: 0 <= i < |s| && !('A' <= s[i] <= 'Z') ==> r[i] == s[i]
    ensures HasNoUpper(s) ==> r == s
  {
    seq(|s|, i requires 0 <= i < |s| => LowerChar(s[i]))
  }

  /** `hay.includes(needle)`. */
  predicate Contains(hay: string, needle: string)
    decreases |hay|
  {
    needle <= hay || (hay != [] && Contains(hay[1..], needle))
  }

  function NameMatches(searchText: string, r: BrewingMethod): bool {
    Contains(ToLower(r.name), ToLower(searchText))
  }

  function CategoryTest(category: string): BrewingMethod -> bool {
    r => MatchesCategory(category, r)
  }

  function SearchTest(searchText: string): BrewingMethod -> bool {
    r => NameMatches(searchText, r)
  }

  /** The filtering effect: the category filter unless the tab is '全部', then the name
      search unless the text is empty. Nothing is added: the list only shrinks, every
      listed recipe comes from the input and passes the tab's test, and with neither
      restriction the whole list is shown. */
  function FilterRecipes(recipes: seq<BrewingMethod>, category: string, searchText: string)
    : (shown: seq<BrewingMethod>)
    ensures |shown| <= |recipes|
    ensures forall r :: r in shown ==> r in recipes && MatchesCategory(category, r)
    ensures category == "全部" && searchText == "" ==> shown == recipes
  {
    var byCategory := if category != "全部" then Filter(recipes, CategoryTest(category)) else recipes;
    if searchText != "" then Filter(byCategory, SearchTest(searchText)) else byCategory
  }

  /** Lower-casing twice is lower-casing once, so the search ignores the case of both the
      name and the text. */
  lemma ToLowerIdempotent(s: string)
    ensures ToLower(ToLower(s)) == ToLower(s)
  {
  }

  /** Every recipe falls under exactly one of the three restricting tabs. */
  lemma TabsPartitionRecipes(r: BrewingMethod)
    ensures MatchesCategory("手冲", r) || MatchesCategory("意式", r) || MatchesCategory("特调", r)
    ensures !(MatchesCategory("手冲", r) && MatchesCategory("意式", r))
    ensures !(MatchesCategory("手冲", r) && MatchesCategory("特调", r))
    ensures !(MatchesCategory("意式", r) && MatchesCategory("特调", r))
  {
  }

  /** Whether one recipe survives both filters. */
  predicate Keeps(category: string, searchText: string, r: BrewingMethod) {
    (category == "全部" || MatchesCategory(category, r)) &&
    (searchText == "" || NameMatches(searchText, r))
  }

  function KeepTest(category: string, searchText: string): BrewingMethod -> bool {
    r => Keeps(category, searchText, r)
  }

  /** The two chained filters are one filter by the combined condition. */
  lemma {:induction false} FilterRecipesIsOneFilter(recipes: seq<BrewingMethod>, category: string,
                                                    searchText: string)
    ensures FilterRecipes(recipes, category, searchText) ==
            Filter(recipes, KeepTest(category, searchText))
  {
    if recipes != [] {
      FilterRecipesIsOneFilter(recipes[1..], category, searchText);
      var r := recipes[0];
      var head := if category != "全部" && !MatchesCategory(category, r) then [] else [r];
      var byCategory := if category != "全部" then Filter(recipes, CategoryTest(category)) else recipes;
      var tail := if category != "全部" then Filter(recipes[1..], CategoryTest(category))
                  else recipes[1..];
      assert byCategory == head + tail by {
        if category == "全部" {
          assert recipes == [r] + recipes[1..];
        }
      }
      if searchText != "" {
        FilterConcat(head, tail, SearchTest(searchText));
      }
    }
  }

  /** The result is the input with some recipes deleted and the rest in order. */
  lemma FilteredIsSubsequence(recipes: seq<BrewingMethod>, category: string, searchText: string)
    ensures IsSubsequence(FilterRecipes(recipes, category, searchText), recipes)
  {
    FilterRecipesIsOneFilter(recipes, category, searchText);
    FilterIsSubsequence(recipes, KeepTest(category, searchText));
  }

  /** A recipe is listed exactly when it is in the input and passes both filters. */
  lemma FilteredMembership(recipes: seq<BrewingMethod>, category: string, searchText: string,
                           r: BrewingMethod)
    ensures r in FilterRecipes(recipes, category, searchText) <==>
            r in recipes && Keeps(category, searchText, r)
  {
    FilterRecipesIsOneFilter(recipes, category, searchText);
    FilterMembership(recipes, KeepTest(category, searchText), r);
  }

  /** With no search text, '手冲' lists exactly the pour-over recipes, '意式' exactly the
      espresso ones and '特调' exactly those of any other equipment type. */
  lemma CategoryTabs(recipes: seq<BrewingMethod>, r: BrewingMethod)
    ensures r in FilterRecipes(recipes, "手冲", "") <==>
            r in recipes && r.equipment.kind == "Pour Over"
    ensures r in FilterRecipes(recipes, "意式", "") <==>
            r in recipes && r.equipment.kind == "Espresso"
    ensures r in FilterRecipes(recipes, "特调", "") <==>
            r in recipes && r.equipment.kind != "Pour Over" && r.equipment.kind != "Espresso"
  {
    FilteredMembership(recipes, "手冲", "", r);
    FilteredMembership(recipes, "意式", "", r);
    FilteredMembership(recipes, "特调", "", r);
  }

  /** '全部', '冰饮' and any other unknown tab apply no category restriction: with no
      search text they list every recipe, in order. */
  lemma UnrestrictedTabs(recipes: seq<BrewingMethod>, category: string)
    requires category !in ["手冲", "意式", "特调"]
    ensures FilterRecipes(recipes, category, "") == recipes
  {
    if category != "全部" {
      FilterAllPass(recipes, CategoryTest(category));
    }
  }

  /** On the '全部' tab a search lists exactly the recipes whose lower-cased name
      contains the lower-cased text. */
  lemma SearchOnly(recipes: seq<BrewingMethod>, searchText: string, r: BrewingMethod)
    requires searchText != ""
    ensures r in FilterRecipes(recipes, "全部", searchText) <==>
            r in recipes && Contains(ToLower(r.name), ToLower(searchText))
  {
    FilteredMembership(recipes, "全部", searchText, r);
  }

  /** Searching for a recipe's own name lists it, on any tab that the recipe passes. */
  lemma SearchFindsOwnName(recipes: seq<BrewingMethod>, category: string, r: BrewingMethod)
    requires r in recipes && MatchesCategory(category, r)
    ensures r in FilterRecipes(recipes, category, r.name)
  {
    assert Contains(ToLower(r.name), ToLower(r.name));
    FilteredMembership(recipes, category, r.name, r);
  }

  /** Filtering the filtered list again with the same tab and text changes nothing. */
  lemma FilterIsIdempotent(recipes: seq<BrewingMethod>, category: string, searchText: string)
    ensures FilterRecipes(FilterRecipes(recipes, category, searchText), category, searchText) ==
            FilterRecipes(recipes, category, searchText)
  {
    FilterRecipesIsOneFilter(recipes, category, searchText);
    FilterRecipesIsOneFilter(FilterRecipes(recipes, category, searchText), category, searchText);
    FilterIdempotent(recipes, KeepTest(category, searchText));
  }
}
