/**
 * `pages/HomePage.tsx`: what the home page shows below the filter bar,
 * chosen from the hook's loading flag, error and filtered list.
 */
module HomePage {
  import opened Wrappers
  import opened Text
  import opened TipModel
  import opened UseTips
  import CategoriesPage

  datatype Results = NoResults | TipCards(tips: seq<Tip>)

  datatype View =
    | Loading
    | Failed(message: string)
    | Listing(count: string, results: Results)

  /** The results line: a fixed sentence for zero, otherwise the count with both words pluralised alike. */
  function ResultsCount(n: nat): string {
    if n == 0 then "Nenhum macete encontrado"
    else
      var suffix := if n != 1 then "s" else "";
      NatToString(n) + " macete" + suffix + " encontrado" + suffix
  }

  /** A non-zero count reads back from the first word, and one is the only singular. */
  lemma ResultsCountReadsBack(n: nat)
    requires n > 0
    ensures FirstToken(ResultsCount(n)) == NatToString(n)
    ensures DigitsValue(FirstToken(ResultsCount(n))) == n
    ensures ResultsCount(n)[|ResultsCount(n)| - 1] == 's' <==> n != 1
  {
    var s := ResultsCount(n);
    var k := |NatToString(n)|;
    FirstTokenAt(s, k);
    assert s[..k] == NatToString(n);
    NatToStringRoundTrip(n);
  }

  /** Zero has its own sentence, which no other count produces. */
  lemma ResultsCountZeroOnly(n: nat)
    ensures ResultsCount(n) == "Nenhum macete encontrado" <==> n == 0
  {
    if n > 0 {
      var s := ResultsCount(n);
      assert '0' <= s[0] <= '9';
    }
  }

  /** The page: loading first, then a non-empty error, then the count and the cards or the empty notice. */
  function HomeView(loading: bool, error: Option<string>, filtered: seq<Tip>): (v: View)
    ensures v.Loading? <==> loading
    ensures v.Failed? <==> !loading && TruthyString(error)
    ensures v.Failed? ==> v.message == error.value
    ensures v.Listing? ==> v.count == ResultsCount(|filtered|)
    ensures v.Listing? ==> (v.results == NoResults <==> filtered == [])
    ensures v.Listing? && filtered != [] ==> v.results == TipCards(filtered)
  {
    if loading then Loading
    else if TruthyString(error) then Failed(error.value)
    else Listing(ResultsCount(|filtered|), if |filtered| == 0 then NoResults else TipCards(filtered))
  }

  /** The view of a mounted hook. */
  function ViewOf(hook: TipsHook): View
    reads hook
  {
    HomeView(hook.loading, hook.error, hook.FilteredTips())
  }

  /** With the default filters, once loading has finished, the page lists every tip of the catalogue. */
  method LoadedDefaultPage() returns (hook: TipsHook)
    ensures fresh(hook)
    ensures ViewOf(hook) == Listing(ResultsCount(3), TipCards(TipsData.Tips))
  {
    hook := new TipsHook(DefaultCategory, DefaultDifficulty, DefaultSearchTerm);
    hook.StartLoading();
    assert ViewOf(hook) == Loading;
    hook.FinishLoading();
    DefaultsKeepAll(hook.tips);
  }

  /** A failed load shows the error message in place of the list, whatever the filters. */
  method FailedLoadShowsError(hook: TipsHook)
    modifies hook
    ensures ViewOf(hook) == Failed(LoadErrorMessage)
  {
    hook.StartLoading();
    hook.FailLoading();
  }
  // ------------------------------------------------ the `?category=` parameter

  /** The query string a category card links to. */
  const CategoryQueryPrefix: string := "/?category="

  /**
   * The category filter the page mounts with, as written: `useTips()` is
   * called without arguments, so whatever URL the page is reached by, the
   * category selection starts at `'all'`.
   */
  function MountedCategory(url: string): CategoryFilter {
    DefaultCategory
  }

  /** As written, following the Forms card of the categories page lists an HTML tip too. */
  lemma CategoryLinkIgnored()
    ensures var shown := FilterTips(TipsData.Tips, MountedCategory(CategoriesPage.CardLink(Forms)),
                                    DefaultDifficulty, DefaultSearchTerm);
            TipsData.Tip1 in shown && TipsData.Tip1.category != Forms
  {
    DefaultsKeepAll(TipsData.Tips);
    assert TipsData.Tips[0] == TipsData.Tip1;
  }

  /** The intended reading of the URL: a `?category=` naming a category preselects it; anything else leaves `'all'`. */
  function CategoryFromUrl(url: string): (f: CategoryFilter)
    ensures f.OnlyCategory? <==>
              |CategoryQueryPrefix| <= |url| && url[..|CategoryQueryPrefix|] == CategoryQueryPrefix &&
              ParseCategory(url[|CategoryQueryPrefix|..]).Some?
    ensures f.OnlyCategory? ==> CategoriesPage.CardLink(f.category) == url
  {
    var n := |CategoryQueryPrefix|;
    if n <= |url| && url[..n] == CategoryQueryPrefix then
      match ParseCategory(url[n..])
      case Some(c) =>
        assert url == url[..n] + url[n..];
        OnlyCategory(c)
      case None => AllCategories
    else AllCategories
  }

  /** Read that way, each category card opens the home page listing exactly that category's tips. */
  lemma CategoryLinkPreselects(tips: seq<Tip>, c: Category)
    ensures CategoryFromUrl(CategoriesPage.CardLink(c)) == OnlyCategory(c)
    ensures forall t :: t in FilterTips(tips, CategoryFromUrl(CategoriesPage.CardLink(c)), DefaultDifficulty, DefaultSearchTerm)
                        <==> t in tips && t.category == c
  {
    var f := CategoryFromUrl(CategoriesPage.CardLink(c));
    assert f == OnlyCategory(c);
    forall t ensures t in FilterTips(tips, f, DefaultDifficulty, DefaultSearchTerm) <==> t in tips && t.category == c {
      FilterTipsMembership(tips, f, DefaultDifficulty, DefaultSearchTerm, t);
    }
  }
}
