/**
 * The tip catalogue hook (`controllers/hooks/useTips.ts`): the selection state
 * cells, the three-predicate filter, first-occurrence de-duplication of
 * categories and difficulties, and lookup by id.
 */
module UseTips {
  import opened Wrappers
  import opened Text
  import opened TipModel
  import opened Seqs
  import TipsData

  /** `Category | 'all'` */
  datatype CategoryFilter = AllCategories | OnlyCategory(category: Category)

  /** `Difficulty | 'all'` */
  datatype DifficultyFilter = AllDifficulties | OnlyDifficulty(difficulty: Difficulty)

  const DefaultCategory: CategoryFilter := AllCategories
  const DefaultDifficulty: DifficultyFilter := AllDifficulties
  const DefaultSearchTerm: string := ""

  const LoadErrorMessage: string := "Erro ao carregar os macetes"

  // ---------------------------------------------------------------- filter

  predicate CategoryMatch(t: Tip, c: CategoryFilter) {
    c == AllCategories || t.category == c.category
  }

  predicate DifficultyMatch(t: Tip, d: DifficultyFilter) {
    d == AllDifficulties || t.difficulty == d.difficulty
  }

  /** `tags.some(tag => tag.toLowerCase().includes(needle))` */
  function SomeTagContains(tags: seq<string>, needle: string): (r: bool)
    ensures r <==> exists i :: 0 <= i < |tags| && Contains(ToLower(tags[i]), needle)
  {
    if tags == [] then false
    else Contains(ToLower(tags[0]), needle) || SomeTagContains(tags[1..], needle)
  }

  /** The search criterion: an empty term, or the lower-cased term inside the title, the description or a tag. */
  predicate SearchMatch(t: Tip, term: string) {
    var needle := ToLower(term);
    term == "" ||
    Contains(ToLower(t.title), needle) ||
    Contains(ToLower(t.description), needle) ||
    SomeTagContains(t.tags, needle)
  }

  predicate Matches(t: Tip, c: CategoryFilter, d: DifficultyFilter, term: string) {
    CategoryMatch(t, c) && DifficultyMatch(t, d) && SearchMatch(t, term)
  }

  /** The callback handed to `tips.filter`. */
  function Matcher(c: CategoryFilter, d: DifficultyFilter, term: string): Tip -> bool {
    t => Matches(t, c, d, term)
  }

  /** `filteredTips`: `tips.filter(...)` with the three criteria. */
  function FilterTips(tips: seq<Tip>, c: CategoryFilter, d: DifficultyFilter, term: string): seq<Tip> {
    Filter(tips, Matcher(c, d, term))
  }

  /** A tip is in the filtered list iff it is in the catalogue and meets all three criteria. */
  lemma FilterTipsMembership(tips: seq<Tip>, c: CategoryFilter, d: DifficultyFilter, term: string, t: Tip)
    ensures t in FilterTips(tips, c, d, term) <==> t in tips && Matches(t, c, d, term)
  {
    FilterMembership(tips, Matcher(c, d, term), t);
  }

  /** The filtered list is an order-preserving subsequence of the catalogue. */
  lemma FilterTipsIsSubsequence(tips: seq<Tip>, c: CategoryFilter, d: DifficultyFilter, term: string)
    returns (idx: seq<nat>)
    ensures IsEmbedding(FilterTips(tips, c, d, term), tips, idx)
  {
    idx := FilterIsSubsequence(tips, Matcher(c, d, term));
  }

  /** The default selections (`'all'`, `'all'`, `''`) keep the whole catalogue. */
  lemma DefaultsKeepAll(tips: seq<Tip>)
    ensures FilterTips(tips, DefaultCategory, DefaultDifficulty, DefaultSearchTerm) == tips
  {
    FilterAll(tips, Matcher(DefaultCategory, DefaultDifficulty, DefaultSearchTerm));
  }

  /** Choosing one category keeps a subset of what `'all'` keeps, the other criteria unchanged. */
  lemma NarrowCategory(tips: seq<Tip>, c: Category, d: DifficultyFilter, term: string)
    ensures forall t :: t in FilterTips(tips, OnlyCategory(c), d, term) ==>
              t in FilterTips(tips, AllCategories, d, term) && t.category == c
  {
    forall t | t in FilterTips(tips, OnlyCategory(c), d, term)
      ensures t in FilterTips(tips, AllCategories, d, term) && t.category == c
    {
      FilterTipsMembership(tips, OnlyCategory(c), d, term, t);
      FilterTipsMembership(tips, AllCategories, d, term, t);
    }
  }

  /** Choosing one difficulty keeps a subset of what `'all'` keeps, the other criteria unchanged. */
  lemma NarrowDifficulty(tips: seq<Tip>, c: CategoryFilter, d: Difficulty, term: string)
    ensures forall t :: t in FilterTips(tips, c, OnlyDifficulty(d), term) ==>
              t in FilterTips(tips, c, AllDifficulties, term) && t.difficulty == d
  {
    forall t | t in FilterTips(tips, c, OnlyDifficulty(d), term)
      ensures t in FilterTips(tips, c, AllDifficulties, term) && t.difficulty == d
    {
      FilterTipsMembership(tips, c, OnlyDifficulty(d), term, t);
      FilterTipsMembership(tips, c, AllDifficulties, term, t);
    }
  }

  /** The search ignores ASCII case: a term and its lower-cased form select the same tips. */
  lemma SearchIgnoresCase(tips: seq<Tip>, c: CategoryFilter, d: DifficultyFilter, term: string)
    ensures FilterTips(tips, c, d, term) == FilterTips(tips, c, d, ToLower(term))
  {
    ToLowerIdempotent(term);
    FilterCongruence(tips, Matcher(c, d, term), Matcher(c, d, ToLower(term)));
  }

  /** A non-empty term selects exactly the tips whose title, description or some tag contains it, ignoring case. */
  lemma SearchIsSubstringMatch(t: Tip, term: string)
    requires term != ""
    ensures SearchMatch(t, term) <==>
      Occurs(ToLower(t.title), ToLower(term)) ||
      Occurs(ToLower(t.description), ToLower(term)) ||
      exists k :: 0 <= k < |t.tags| && Occurs(ToLower(t.tags[k]), ToLower(term))
  {
    ContainsIff(ToLower(t.title), ToLower(term));
    ContainsIff(ToLower(t.description), ToLower(term));
    forall k | 0 <= k < |t.tags| {
      ContainsIff(ToLower(t.tags[k]), ToLower(term));
    }
  }

  // ------------------------------------------------------ de-duplication

  function CategoryOf(tips: seq<Tip>): (r: seq<Category>)
    ensures |r| == |tips| && forall i :: 0 <= i < |tips| ==> r[i] == tips[i].category
  {
    seq(|tips|, i requires 0 <= i < |tips| => tips[i].category)
  }

  function DifficultyOf(tips: seq<Tip>): (r: seq<Difficulty>)
    ensures |r| == |tips| && forall i :: 0 <= i < |tips| ==> r[i] == tips[i].difficulty
  {
    seq(|tips|, i requires 0 <= i < |tips| => tips[i].difficulty)
  }

  /** `categories`: the distinct categories of the catalogue in first-occurrence order. */
  function Categories(tips: seq<Tip>): seq<Category> {
    Dedupe(CategoryOf(tips))
  }

  /** `difficulties`: the distinct difficulties of the catalogue in first-occurrence order. */
  function Difficulties(tips: seq<Tip>): seq<Difficulty> {
    Dedupe(DifficultyOf(tips))
  }

  /** `categories` holds each category present in the catalogue exactly once, and no other. */
  lemma CategoriesExact(tips: seq<Tip>)
    ensures NoDuplicates(Categories(tips))
    ensures forall c :: c in Categories(tips) <==> exists t :: t in tips && t.category == c
  {
    DedupeElements(CategoryOf(tips));
    forall c | c in CategoryOf(tips) ensures exists t :: t in tips && t.category == c {
      var i :| 0 <= i < |tips| && CategoryOf(tips)[i] == c;
      assert tips[i] in tips;
    }
    forall c, t | t in tips && t.category == c ensures c in CategoryOf(tips) {
      var i :| 0 <= i < |tips| && tips[i] == t;
      assert CategoryOf(tips)[i] == c;
    }
  }

  /** `difficulties` holds each difficulty present in the catalogue exactly once, and no other. */
  lemma DifficultiesExact(tips: seq<Tip>)
    ensures NoDuplicates(Difficulties(tips))
    ensures forall d :: d in Difficulties(tips) <==> exists t :: t in tips && t.difficulty == d
  {
    DedupeElements(DifficultyOf(tips));
    forall d | d in DifficultyOf(tips) ensures exists t :: t in tips && t.difficulty == d {
      var i :| 0 <= i < |tips| && DifficultyOf(tips)[i] == d;
      assert tips[i] in tips;
    }
    forall d, t | t in tips && t.difficulty == d ensures d in DifficultyOf(tips) {
      var i :| 0 <= i < |tips| && tips[i] == t;
      assert DifficultyOf(tips)[i] == d;
    }
  }

  /** Three categories in order, all distinct, de-duplicate to themselves. */
  lemma DedupeThreeDistinct(a: Category, b: Category, c: Category)
    requires a != b && b != c && a != c
    ensures Dedupe([a, b, c]) == [a, b, c]
  {
    DedupeAppend([], a);
    assert [] + [a] == [a];
    DedupeAppend([a], b);
    assert [a] + [b] == [a, b];
    DedupeAppend([a, b], c);
    assert [a, b] + [c] == [a, b, c];
  }

  /** Three equal difficulties de-duplicate to one. */
  lemma DedupeThreeEqual(d: Difficulty)
    ensures Dedupe([d, d, d]) == [d]
  {
    DedupeAppend([], d);
    assert [] + [d] == [d];
    DedupeAppend([d], d);
    assert [d] + [d] == [d, d];
    DedupeAppend([d, d], d);
    assert [d, d] + [d] == [d, d, d];
  }

  /** Over the shipped catalogue the option lists are `[HTML, Images, Forms]` and `[Beginner]`. */
  lemma FixtureOptions()
    ensures Categories(TipsData.Tips) == [HTML, Images, Forms]
    ensures Difficulties(TipsData.Tips) == [Beginner]
  {
    assert CategoryOf(TipsData.Tips) == [HTML, Images, Forms];
    assert DifficultyOf(TipsData.Tips) == [Beginner, Beginner, Beginner];
    DedupeThreeDistinct(HTML, Images, Forms);
    DedupeThreeEqual(Beginner);
  }

  // ---------------------------------------------------------------- lookup

  /** `tips.find(tip => tip.id === id)`: the first tip with that id, or `undefined`. */
  function FindById(tips: seq<Tip>, id: string): (r: Option<Tip>)
    ensures r.None? <==> forall i :: 0 <= i < |tips| ==> tips[i].id != id
    ensures r.Some? ==> exists i :: 0 <= i < |tips| && tips[i] == r.value && r.value.id == id &&
                          forall j :: 0 <= j < i ==> tips[j].id != id
  {
    if tips == [] then None
    else if tips[0].id == id then Some(tips[0])
    else
      var r := FindById(tips[1..], id);
      assert r.Some? ==> exists i :: 0 <= i < |tips| - 1 && tips[1..][i] == r.value && r.value.id == id &&
                            forall j :: 0 <= j < i ==> tips[1..][j].id != id;
      r
  }

  /** Ids that are distinct make the lookup return the one tip with that id. */
  lemma {:induction false} FindByIdUnique(tips: seq<Tip>, i: nat)
    requires i < |tips|
    requires forall a, b :: 0 <= a < b < |tips| ==> tips[a].id != tips[b].id
    ensures FindById(tips, tips[i].id) == Some(tips[i])
  {
    if i > 0 {
      FindByIdUnique(tips[1..], i - 1);
    }
  }

  // ------------------------------------------------------------ hook state

  /** The hook's state cells and the values it derives from them. */
  class TipsHook {
    var tips: seq<Tip>
    var loading: bool
    var error: Option<string>
    var selectedCategory: CategoryFilter
    var selectedDifficulty: DifficultyFilter
    var searchTerm: string

    /** `useTips({initialCategory, initialDifficulty, initialSearchTerm})` before its load effect runs. */
    constructor (initialCategory: CategoryFilter, initialDifficulty: DifficultyFilter, initialSearchTerm: string)
      ensures tips == TipsData.Tips && !loading && error == None
      ensures selectedCategory == initialCategory && selectedDifficulty == initialDifficulty
      ensures searchTerm == initialSearchTerm
    {
      tips := TipsData.Tips;
      loading := false;
      error := None;
      selectedCategory := initialCategory;
      selectedDifficulty := initialDifficulty;
      searchTerm := initialSearchTerm;
    }

    function FilteredTips(): seq<Tip>
      reads this
    {
      FilterTips(tips, selectedCategory, selectedDifficulty, searchTerm)
    }

    function GetTipById(id: string): Option<Tip>
      reads this
    {
      FindById(tips, id)
    }

    /** The mount effect: the load starts. */
    method StartLoading()
      modifies this`loading
      ensures loading
    {
      loading := true;
    }

    /** The simulated load completes: the catalogue is (re)installed and loading ends. */
    method FinishLoading()
      modifies this`tips, this`loading
      ensures tips == TipsData.Tips && !loading
    {
      tips := TipsData.Tips;
      loading := false;
    }

    /** The load's `catch` branch: the fixed message is recorded and loading ends; the list is kept. */
    method FailLoading()
      modifies this`error, this`loading
      ensures error == Some(LoadErrorMessage) && !loading
    {
      error := Some(LoadErrorMessage);
      loading := false;
    }

    method SetSelectedCategory(c: CategoryFilter)
      modifies this`selectedCategory
      ensures selectedCategory == c
    {
      selectedCategory := c;
    }

    method SetSelectedDifficulty(d: DifficultyFilter)
      modifies this`selectedDifficulty
      ensures selectedDifficulty == d
    {
      selectedDifficulty := d;
    }

    method SetSearchTerm(term: string)
      modifies this`searchTerm
      ensures searchTerm == term
    {
      searchTerm := term;
    }
  }

  /** With default selections, the freshly built hook lists the whole catalogue. */
  method DefaultHookListsAll() returns (h: TipsHook)
    ensures fresh(h) && h.FilteredTips() == TipsData.Tips
  {
    h := new TipsHook(DefaultCategory, DefaultDifficulty, DefaultSearchTerm);
    DefaultsKeepAll(h.tips);
  }
}
