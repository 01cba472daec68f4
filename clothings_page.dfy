/**
 * The inventory page: `filterClothings` (category, season and free-text
 * search over the loaded items) and the page state it keeps in step.
 */
module ClothingsPage {
  import opened Wrappers
  import opened Text
  import opened Domain
  import Seqs

  /** `value && value.toLowerCase().includes(term)`: a missing or empty value never matches. */
  predicate OptionalMatches(value: Option<string>, term: string)
  {
    Truthy(value) && Contains(Lower(value.value), term)
  }

  /** The search test: the lower-cased term occurs in the lower-cased name, color, brand or tags. */
  predicate MatchesSearch(item: Clothing, term: string)
  {
    Contains(Lower(item.name), term)
    || Contains(Lower(item.color), term)
    || OptionalMatches(item.brand, term)
    || OptionalMatches(item.tags, term)
  }

  function ClothingId(c: Clothing): string { c.id }

  /** An item passes when each active selection holds: `'all'` and a blank term select everything. */
  predicate Selected(item: Clothing, category: string, season: string, searchTerm: string)
  {
    (category != "all" ==> HasCategoryName(item, category))
    && (season != "all" ==> HasSeasonName(item, season))
    && (!IsBlank(searchTerm) ==> MatchesSearch(item, Lower(searchTerm)))
  }

  function ByCategory(s: seq<Clothing>, category: string): seq<Clothing>
  {
    if category != "all" then Seqs.Filter(s, (item: Clothing) => HasCategoryName(item, category)) else s
  }

  function BySeason(s: seq<Clothing>, season: string): seq<Clothing>
  {
    if season != "all" then Seqs.Filter(s, (item: Clothing) => HasSeasonName(item, season)) else s
  }

  /**
   * The search step. `searchTerm.trim()` is empty exactly when the term is
   * blank (the contract of `Text.Trim`), so the step tests blankness.
   */
  function BySearch(s: seq<Clothing>, searchTerm: string): seq<Clothing>
  {
    if !IsBlank(searchTerm) then
      var term := Lower(searchTerm);
      Seqs.Filter(s, (item: Clothing) => MatchesSearch(item, term))
    else s
  }

  /**
   * `filterClothings`: the category filter, the season filter, then the
   * search on the untrimmed lower-cased term, skipped when the trimmed term
   * is empty.
   */
  function FilterClothings(clothings: seq<Clothing>, category: string, season: string, searchTerm: string): seq<Clothing>
  {
    BySearch(BySeason(ByCategory(clothings, category), season), searchTerm)
  }

  /** The shown list is exactly the selected items, in stored order. */
  lemma FilterClothingsSelects(clothings: seq<Clothing>, category: string, season: string, searchTerm: string)
    ensures var r := FilterClothings(clothings, category, season, searchTerm);
      && Seqs.IsSubsequence(r, clothings)
      && (forall x :: x in r ==> Selected(x, category, season, searchTerm))
      && (forall i :: 0 <= i < |clothings| && Selected(clothings[i], category, season, searchTerm) ==> clothings[i] in r)
    ensures FilterClothings(clothings, category, season, searchTerm) == Seqs.Filter(clothings, x => Selected(x, category, season, searchTerm))
  {
    FilterClothingsIsFilter(clothings, category, season, searchTerm);
    FilterClothingsSubsequence(clothings, category, season, searchTerm);
    var a := ByCategory(clothings, category);
    var b := BySeason(a, season);
    var r := BySearch(b, searchTerm);
    var term := Lower(searchTerm);
    forall x | x in r
      ensures Selected(x, category, season, searchTerm)
    {
      if !IsBlank(searchTerm) {
        Seqs.FilterMember(b, (item: Clothing) => MatchesSearch(item, term), x);
      }
      assert x in b;
      if season != "all" {
        Seqs.FilterMember(a, (item: Clothing) => HasSeasonName(item, season), x);
      }
      assert x in a;
      if category != "all" {
        Seqs.FilterMember(clothings, (item: Clothing) => HasCategoryName(item, category), x);
      }
    }
    if category != "all" {
      Seqs.FilterMembership(clothings, (item: Clothing) => HasCategoryName(item, category));
    }
    if season != "all" {
      Seqs.FilterMembership(a, (item: Clothing) => HasSeasonName(item, season));
    }
    if !IsBlank(searchTerm) {
      Seqs.FilterMembership(b, (item: Clothing) => MatchesSearch(item, term));
    }
    forall i | 0 <= i < |clothings| && Selected(clothings[i], category, season, searchTerm)
      ensures clothings[i] in r
    {
      var x := clothings[i];
      assert x in a;
      var j :| 0 <= j < |a| && a[j] == x;
      assert x in b;
      var k :| 0 <= k < |b| && b[k] == x;
    }
  }

  /** The three steps together are one filter by `Selected`, so repeated items are kept as often as they occur. */
  lemma FilterClothingsIsFilter(clothings: seq<Clothing>, category: string, season: string, searchTerm: string)
    ensures FilterClothings(clothings, category, season, searchTerm) == Seqs.Filter(clothings, x => Selected(x, category, season, searchTerm))
  {
    var a := ByCategory(clothings, category);
    ByCategoryIsFilter(clothings, category);
    BySeasonIsFilter(a, season);
    BySearchIsFilter(BySeason(a, season), searchTerm);
    var p1 := (item: Clothing) => CategoryStep(item, category);
    var p2 := (item: Clothing) => SeasonStep(item, season);
    var p12 := (item: Clothing) => CategoryStep(item, category) && SeasonStep(item, season);
    Seqs.FilterThenFilter(clothings, p1, p2, p12);
    Seqs.FilterThenFilter(clothings, p12, (item: Clothing) => SearchStep(item, searchTerm), x => Selected(x, category, season, searchTerm));
  }

  predicate CategoryStep(item: Clothing, category: string)
  {
    category != "all" ==> HasCategoryName(item, category)
  }

  predicate SeasonStep(item: Clothing, season: string)
  {
    season != "all" ==> HasSeasonName(item, season)
  }

  predicate SearchStep(item: Clothing, searchTerm: string)
  {
    !IsBlank(searchTerm) ==> MatchesSearch(item, Lower(searchTerm))
  }

  lemma ByCategoryIsFilter(s: seq<Clothing>, category: string)
    ensures ByCategory(s, category) == Seqs.Filter(s, (item: Clothing) => CategoryStep(item, category))
  {
    Seqs.FilterWhen(s, category != "all", (item: Clothing) => HasCategoryName(item, category), (item: Clothing) => CategoryStep(item, category));
  }

  lemma BySeasonIsFilter(s: seq<Clothing>, season: string)
    ensures BySeason(s, season) == Seqs.Filter(s, (item: Clothing) => SeasonStep(item, season))
  {
    Seqs.FilterWhen(s, season != "all", (item: Clothing) => HasSeasonName(item, season), (item: Clothing) => SeasonStep(item, season));
  }

  lemma BySearchIsFilter(s: seq<Clothing>, searchTerm: string)
    ensures BySearch(s, searchTerm) == Seqs.Filter(s, (item: Clothing) => SearchStep(item, searchTerm))
  {
    var term := Lower(searchTerm);
    Seqs.FilterWhen(s, !IsBlank(searchTerm), (item: Clothing) => MatchesSearch(item, term), (item: Clothing) => SearchStep(item, searchTerm));
  }

  lemma StepIsSubsequence<T>(s: seq<T>, active: bool, p: T -> bool)
    ensures Seqs.IsSubsequence(if active then Seqs.Filter(s, p) else s, s)
  {
    if active {
      Seqs.FilterIsSubsequence(s, p);
    } else {
      Seqs.SubsequenceReflexive(s);
    }
  }

  lemma FilterClothingsSubsequence(clothings: seq<Clothing>, category: string, season: string, searchTerm: string)
    ensures Seqs.IsSubsequence(FilterClothings(clothings, category, season, searchTerm), clothings)
  {
    var a := ByCategory(clothings, category);
    var b := BySeason(a, season);
    var c := BySearch(b, searchTerm);
    StepIsSubsequence(clothings, category != "all", (item: Clothing) => HasCategoryName(item, category));
    StepIsSubsequence(a, season != "all", (item: Clothing) => HasSeasonName(item, season));
    var term := Lower(searchTerm);
    StepIsSubsequence(b, !IsBlank(searchTerm), (item: Clothing) => MatchesSearch(item, term));
    Seqs.SubsequenceTransitive(c, b, a);
    Seqs.SubsequenceTransitive(c, a, clothings);
  }

  /** With both selections on `'all'` and a blank term the whole list is shown. */
  lemma NothingSelectedShowsAll(clothings: seq<Clothing>, searchTerm: string)
    requires IsBlank(searchTerm)
    ensures FilterClothings(clothings, "all", "all", searchTerm) == clothings
  {
  }

  /** Filtering the filtered list again changes nothing. */
  lemma FilterClothingsIdempotent(clothings: seq<Clothing>, category: string, season: string, searchTerm: string)
    ensures var once := FilterClothings(clothings, category, season, searchTerm);
      FilterClothings(once, category, season, searchTerm) == once
  {
    var once := FilterClothings(clothings, category, season, searchTerm);
    FilterClothingsSelects(clothings, category, season, searchTerm);
    var term := Lower(searchTerm);
    forall i | 0 <= i < |once|
      ensures (category != "all" ==> HasCategoryName(once[i], category))
      ensures (season != "all" ==> HasSeasonName(once[i], season))
      ensures (!IsBlank(searchTerm) ==> MatchesSearch(once[i], term))
    {
      assert once[i] in once;
    }
    StepKeepsPassing(once, category != "all", (item: Clothing) => HasCategoryName(item, category));
    StepKeepsPassing(once, season != "all", (item: Clothing) => HasSeasonName(item, season));
    StepKeepsPassing(once, !IsBlank(searchTerm), (item: Clothing) => MatchesSearch(item, term));
  }

  lemma StepKeepsPassing<T>(s: seq<T>, active: bool, p: T -> bool)
    requires active ==> forall i :: 0 <= i < |s| ==> p(s[i])
    ensures (if active then Seqs.Filter(s, p) else s) == s
  {
    if active {
      Seqs.FilterAllPass(s, p);
    }
  }

  /**
   * The page's state. `Valid` is what the filtering effect keeps true: the
   * shown list is always the filter of the loaded list under the current
   * selections.
   */
  class ClothingsView {
    var clothings: seq<Clothing>
    var filteredClothings: seq<Clothing>
    var isLoading: bool
    var error: string
    var selectedCategory: string
    var selectedSeason: string
    var searchTerm: string

    ghost predicate Valid()
      reads this
    {
      filteredClothings == FilterClothings(clothings, selectedCategory, selectedSeason, searchTerm)
    }

    /** The initial state: nothing loaded, both selections `'all'`, an empty term. */
    constructor ()
      ensures Valid()
      ensures clothings == [] && filteredClothings == [] && isLoading && error == ""
      ensures selectedCategory == "all" && selectedSeason == "all" && searchTerm == ""
    {
      clothings := [];
      filteredClothings := [];
      isLoading := true;
      error := "";
      selectedCategory := "all";
      selectedSeason := "all";
      searchTerm := "";
    }

    /** The filtering effect, run after any of its inputs changed. */
    method Refilter()
      modifies this
      ensures Valid()
      ensures filteredClothings == FilterClothings(clothings, selectedCategory, selectedSeason, searchTerm)
      ensures clothings == old(clothings) && isLoading == old(isLoading) && error == old(error)
      ensures selectedCategory == old(selectedCategory) && selectedSeason == old(selectedSeason) && searchTerm == old(searchTerm)
    {
      var shown := FilterClothings(clothings, selectedCategory, selectedSeason, searchTerm);
      filteredClothings := shown;
    }

    /**
     * `fetchClothings`: after an ok answer, the list `data` read from it is
     * loaded and re-filtered; otherwise the caught message is recorded, where
     * a non-ok answer throws `new Error('获取衣物列表失败')`. Loading ends
     * either way.
     */
    method FetchClothings(outcome: RequestOutcome, data: seq<Clothing>)
      modifies this
      ensures !isLoading
      ensures outcome.OkResponse? ==> Valid() && clothings == data && error == old(error)
      ensures !outcome.OkResponse? ==>
        clothings == old(clothings) && filteredClothings == old(filteredClothings) && error == CaughtMessage(outcome, "获取衣物列表失败")
      ensures selectedCategory == old(selectedCategory) && selectedSeason == old(selectedSeason) && searchTerm == old(searchTerm)
    {
      if outcome.OkResponse? {
        clothings := data;
        Refilter();
      } else {
        error := CaughtMessage(outcome, "获取衣物列表失败");
      }
      isLoading := false;
    }

    /** `setSelectedCategory` from the category select, followed by the filtering effect. */
    method SelectCategory(category: string)
      modifies this
      ensures Valid() && selectedCategory == category
      ensures clothings == old(clothings) && selectedSeason == old(selectedSeason) && searchTerm == old(searchTerm)
      ensures error == old(error) && isLoading == old(isLoading)
    {
      selectedCategory := category;
      Refilter();
    }

    /** `setSelectedSeason` from the season select, followed by the filtering effect. */
    method SelectSeason(season: string)
      modifies this
      ensures Valid() && selectedSeason == season
      ensures clothings == old(clothings) && selectedCategory == old(selectedCategory) && searchTerm == old(searchTerm)
      ensures error == old(error) && isLoading == old(isLoading)
    {
      selectedSeason := season;
      Refilter();
    }

    /** `setSearchTerm` from the search box, followed by the filtering effect. */
    method SetSearchTerm(term: string)
      modifies this
      ensures Valid() && searchTerm == term
      ensures clothings == old(clothings) && selectedCategory == old(selectedCategory) && selectedSeason == old(selectedSeason)
      ensures error == old(error) && isLoading == old(isLoading)
    {
      searchTerm := term;
      Refilter();
    }

    /** `setClothings(prev => prev.filter(item => item.id !== id))`, followed by the filtering effect. */
    method RemoveClothing(id: string)
      modifies this
      ensures Valid()
      ensures clothings == Seqs.RemoveById(old(clothings), ClothingId, id) && error == old(error) && isLoading == old(isLoading)
      ensures selectedCategory == old(selectedCategory) && selectedSeason == old(selectedSeason) && searchTerm == old(searchTerm)
    {
      clothings := Seqs.RemoveById(clothings, ClothingId, id);
      Refilter();
    }

    /**
     * `handleDelete`: nothing happens unless the user confirms; an ok answer
     * drops every item with that id from the loaded list, keeping the others
     * in order; otherwise the caught message (`删除失败` for a non-ok answer)
     * is recorded.
     */
    method HandleDelete(id: string, confirmed: bool, outcome: RequestOutcome)
      modifies this
      ensures confirmed && outcome.OkResponse? ==> Valid() && clothings == Seqs.RemoveById(old(clothings), ClothingId, id) && error == old(error)
      ensures confirmed && !outcome.OkResponse? ==>
        clothings == old(clothings) && filteredClothings == old(filteredClothings) && error == CaughtMessage(outcome, "删除失败")
      ensures !confirmed ==> clothings == old(clothings) && filteredClothings == old(filteredClothings) && error == old(error)
      ensures selectedCategory == old(selectedCategory) && selectedSeason == old(selectedSeason) && searchTerm == old(searchTerm)
      ensures isLoading == old(isLoading)
    {
      if !confirmed {
        return;
      }
      if outcome.OkResponse? {
        RemoveClothing(id);
      } else {
        error := CaughtMessage(outcome, "删除失败");
      }
    }
  }
}
