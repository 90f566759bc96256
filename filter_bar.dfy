/**
 * `components/features/FilterBar.tsx` as mounted by the home page: two
 * selects bound to the hook's category and difficulty, a search box whose
 * draft is committed to the hook only on submit, and a clear button.
 */
module FilterBar {
  import opened Wrappers
  import opened TipModel
  import opened UseTips

  /** An `<option>`: the value the select reports and the text it shows. */
  datatype SelectOption = SelectOption(value: string, text: string)

  const AllValue: string := "all"

  /** The category select: "all" first, then one option per category named as itself. */
  function CategoryOptions(categories: seq<Category>): (r: seq<SelectOption>)
    ensures |r| == |categories| + 1
    ensures r[0] == SelectOption(AllValue, "Todas as categorias")
    ensures forall i :: 0 <= i < |categories| ==>
      r[i + 1] == SelectOption(CategoryName(categories[i]), CategoryName(categories[i]))
  {
    [SelectOption(AllValue, "Todas as categorias")] +
    seq(|categories|, i requires 0 <= i < |categories| =>
      SelectOption(CategoryName(categories[i]), CategoryName(categories[i])))
  }

  /** The difficulty select: "all" first, then one option per difficulty showing its Portuguese label. */
  function DifficultyOptions(difficulties: seq<Difficulty>): (r: seq<SelectOption>)
    ensures |r| == |difficulties| + 1
    ensures r[0] == SelectOption(AllValue, "Todos os níveis")
    ensures forall i :: 0 <= i < |difficulties| ==>
      r[i + 1] == SelectOption(DifficultyName(difficulties[i]), DifficultyLabel(difficulties[i]))
  {
    [SelectOption(AllValue, "Todos os níveis")] +
    seq(|difficulties|, i requires 0 <= i < |difficulties| =>
      SelectOption(DifficultyName(difficulties[i]), DifficultyLabel(difficulties[i])))
  }

  /** The select's `value` for a filter. */
  function CategoryValue(f: CategoryFilter): string {
    match f
    case AllCategories => AllValue
    case OnlyCategory(c) => CategoryName(c)
  }

  function DifficultyValue(f: DifficultyFilter): string {
    match f
    case AllDifficulties => AllValue
    case OnlyDifficulty(d) => DifficultyName(d)
  }

  /** `e.target.value as Category | 'all'`: the filter an option value stands for. */
  function ParseCategoryValue(v: string): (r: Option<CategoryFilter>)
    ensures r.Some? ==> CategoryValue(r.value) == v
  {
    if v == AllValue then Some(AllCategories)
    else match ParseCategory(v)
      case Some(c) => Some(OnlyCategory(c))
      case None => None
  }

  function ParseDifficultyValue(v: string): (r: Option<DifficultyFilter>)
    ensures r.Some? ==> DifficultyValue(r.value) == v
  {
    if v == AllValue then Some(AllDifficulties)
    else match ParseDifficulty(v)
      case Some(d) => Some(OnlyDifficulty(d))
      case None => None
  }

  /** Every filter's select value reads back as that filter: "all" never collides with a category. */
  lemma CategoryValueRoundTrip(f: CategoryFilter)
    ensures ParseCategoryValue(CategoryValue(f)) == Some(f)
  {
    if f.OnlyCategory? {
      CategoryNameRoundTrip(f.category);
    }
  }

  lemma DifficultyValueRoundTrip(f: DifficultyFilter)
    ensures ParseDifficultyValue(DifficultyValue(f)) == Some(f)
  {
    if f.OnlyDifficulty? {
      DifficultyNameRoundTrip(f.difficulty);
    }
  }

  /** Every option the category select offers parses, to "all" or to the listed category. */
  lemma CategoryOptionsParse(categories: seq<Category>, i: nat)
    requires i < |CategoryOptions(categories)|
    ensures ParseCategoryValue(CategoryOptions(categories)[i].value) ==
      Some(if i == 0 then AllCategories else OnlyCategory(categories[i - 1]))
  {
    if i == 0 {
      CategoryValueRoundTrip(AllCategories);
    } else {
      CategoryValueRoundTrip(OnlyCategory(categories[i - 1]));
    }
  }

  lemma DifficultyOptionsParse(difficulties: seq<Difficulty>, i: nat)
    requires i < |DifficultyOptions(difficulties)|
    ensures ParseDifficultyValue(DifficultyOptions(difficulties)[i].value) ==
      Some(if i == 0 then AllDifficulties else OnlyDifficulty(difficulties[i - 1]))
  {
    if i == 0 {
      DifficultyValueRoundTrip(AllDifficulties);
    } else {
      DifficultyValueRoundTrip(OnlyDifficulty(difficulties[i - 1]));
    }
  }

  /** The bar wired to the hook as the home page does: its callbacks are the hook's setters. */
  class Bar {
    const hook: TipsHook
    /** `searchValue`: the draft in the search box. */
    var searchValue: string

    /** `useState(searchTerm)`: the draft starts as the committed term and is not re-synced later. */
    constructor (hook: TipsHook)
      ensures this.hook == hook && searchValue == hook.searchTerm
    {
      this.hook := hook;
      searchValue := hook.searchTerm;
    }

    /** Typing only edits the draft; the list does not change until submit. */
    method Type(text: string)
      modifies this
      ensures searchValue == text
    {
      searchValue := text;
    }

    /** `handleSearchSubmit`: suppress the page reload and commit the draft. */
    method SubmitSearch() returns (defaultPrevented: bool)
      modifies hook
      ensures defaultPrevented
      ensures hook.searchTerm == searchValue
      ensures hook.tips == old(hook.tips) && hook.loading == old(hook.loading) && hook.error == old(hook.error)
      ensures hook.selectedCategory == old(hook.selectedCategory)
      ensures hook.selectedDifficulty == old(hook.selectedDifficulty)
    {
      defaultPrevented := true;
      hook.SetSearchTerm(searchValue);
    }

    /** `clearFilters`: both selects back to "all", and the draft and the committed term emptied. */
    method ClearFilters()
      modifies this, hook
      ensures searchValue == "" && hook.searchTerm == ""
      ensures hook.selectedCategory == AllCategories && hook.selectedDifficulty == AllDifficulties
      ensures hook.tips == old(hook.tips) && hook.loading == old(hook.loading) && hook.error == old(hook.error)
      ensures hook.FilteredTips() == hook.tips
    {
      hook.SetSelectedCategory(AllCategories);
      hook.SetSelectedDifficulty(AllDifficulties);
      searchValue := "";
      hook.SetSearchTerm("");
      DefaultsKeepAll(hook.tips);
    }

    /** The category select's `onChange` with the chosen option's value. */
    method SelectCategory(value: string)
      requires ParseCategoryValue(value).Some?
      modifies hook
      ensures hook.selectedCategory == ParseCategoryValue(value).value
      ensures CategoryValue(hook.selectedCategory) == value
      ensures hook.tips == old(hook.tips) && hook.searchTerm == old(hook.searchTerm)
      ensures hook.loading == old(hook.loading) && hook.error == old(hook.error)
      ensures hook.selectedDifficulty == old(hook.selectedDifficulty)
    {
      hook.SetSelectedCategory(ParseCategoryValue(value).value);
    }

    /** The difficulty select's `onChange` with the chosen option's value. */
    method SelectDifficulty(value: string)
      requires ParseDifficultyValue(value).Some?
      modifies hook
      ensures hook.selectedDifficulty == ParseDifficultyValue(value).value
      ensures DifficultyValue(hook.selectedDifficulty) == value
      ensures hook.tips == old(hook.tips) && hook.searchTerm == old(hook.searchTerm)
      ensures hook.loading == old(hook.loading) && hook.error == old(hook.error)
      ensures hook.selectedCategory == old(hook.selectedCategory)
    {
      hook.SetSelectedDifficulty(ParseDifficultyValue(value).value);
    }
  }

  /** Clearing is idempotent: on a bar that is already cleared, clearing again changes nothing. */
  method ClearIsIdempotent(bar: Bar)
    requires bar.searchValue == "" && bar.hook.searchTerm == ""
    requires bar.hook.selectedCategory == AllCategories && bar.hook.selectedDifficulty == AllDifficulties
    modifies bar, bar.hook
    ensures bar.searchValue == old(bar.searchValue)
    ensures bar.hook.searchTerm == old(bar.hook.searchTerm)
    ensures bar.hook.selectedCategory == old(bar.hook.selectedCategory)
    ensures bar.hook.selectedDifficulty == old(bar.hook.selectedDifficulty)
    ensures bar.hook.tips == old(bar.hook.tips) && bar.hook.loading == old(bar.hook.loading)
    ensures bar.hook.error == old(bar.hook.error)
  {
    bar.ClearFilters();
  }
}
