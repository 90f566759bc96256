/**
 * `pages/TipDetailPage.tsx`: the tip named by the route parameter, the
 * redirect home when it does not exist, and the sections of the detail view.
 */
module TipDetailPage {
  import opened Wrappers
  import opened Text
  import opened TipModel
  import opened UseTips
  import CodeBlock
  import TipCard
  import TipsData

  /** `id ? getTipById(id) : undefined`: an absent or empty parameter looks nothing up. */
  function LookupTip(tips: seq<Tip>, id: Option<string>): (r: Option<Tip>)
    ensures !TruthyString(id) ==> r.None?
    ensures TruthyString(id) ==> r == FindById(tips, id.value)
    ensures r.Some? ==> r.value in tips && r.value.id == id.value
  {
    if TruthyString(id) then FindById(tips, id.value) else None
  }

  /** The redirect effect's condition: loaded, no error, and no tip. */
  predicate ShouldRedirect(loading: bool, error: Option<string>, tip: Option<Tip>) {
    !loading && tip.None? && !TruthyString(error)
  }

  const WcagQuickRef: string := "https://www.w3.org/WAI/WCAG21/quickref/#"

  /** The fragment of a criterion's link: its first word, lower-cased. */
  function WcagAnchor(criterion: string): string {
    FirstToken(ToLower(criterion))
  }

  /** Lower-casing keeps spaces where they are, so it commutes with taking the first word. */
  lemma {:induction false} FirstTokenOfLower(s: string)
    ensures FirstToken(ToLower(s)) == ToLower(FirstToken(s))
  {
    if s != [] && s[0] != ' ' {
      FirstTokenOfLower(s[1..]);
      assert ToLower(s)[1..] == ToLower(s[1..]);
      assert ToLower([s[0]] + FirstToken(s[1..])) == [LowerChar(s[0])] + ToLower(FirstToken(s[1..]));
    }
  }

  /** A criterion whose number has only digits and dots links to that number unchanged. */
  lemma WcagAnchorOfNumber(criterion: string)
    requires forall i :: 0 <= i < |FirstToken(criterion)| ==>
      ('0' <= FirstToken(criterion)[i] <= '9' || FirstToken(criterion)[i] == '.')
    ensures WcagAnchor(criterion) == FirstToken(criterion)
  {
    FirstTokenOfLower(criterion);
  }

  datatype Link = Link(text: string, href: string)

  function WcagLink(criterion: string): (l: Link)
    ensures l.text == criterion
    ensures |l.href| == |WcagQuickRef| + |WcagAnchor(criterion)|
    ensures l.href[..|WcagQuickRef|] == WcagQuickRef && l.href[|WcagQuickRef|..] == WcagAnchor(criterion)
  {
    Link(criterion, WcagQuickRef + WcagAnchor(criterion))
  }

  /** `list && list.length > 0 && ...`: an optional list shown only when present and non-empty. */
  function ShownList<T>(list: Option<seq<T>>): (r: seq<T>)
    ensures list.None? ==> r == []
    ensures list.Some? ==> r == list.value
  {
    if list.Some? && |list.value| > 0 then list.value else []
  }

  /** The two examples: the discouraged code first, then the recommended one, both HTML. */
  function CodeExamples(t: Tip): seq<CodeBlock.Props> {
    [CodeBlock.Props(t.badCode, "html", Some("Código Não Recomendado"), false, true),
     CodeBlock.Props(t.goodCode, "html", Some("Código Recomendado"), true, false)]
  }

  /** The first example is styled as discouraged and the second as recommended, and each is titled accordingly. */
  lemma CodeExamplesStyled(t: Tip)
    ensures CodeBlock.KindOf(CodeExamples(t)[0]) == CodeBlock.Bad
    ensures CodeBlock.KindOf(CodeExamples(t)[1]) == CodeBlock.Good
    ensures CodeBlock.DisplayTitle(CodeExamples(t)[0]) == "Código Não Recomendado"
    ensures CodeBlock.DisplayTitle(CodeExamples(t)[1]) == "Código Recomendado"
    ensures CodeExamples(t)[0].code == t.badCode && CodeExamples(t)[1].code == t.goodCode
  {
  }

  datatype Detail = Detail(
    title: string,
    category: string,
    difficulty: string,
    tags: seq<string>,
    description: string,
    examples: seq<CodeBlock.Props>,
    explanation: string,
    wcag: seq<Link>,
    resources: seq<Link>)

  datatype DetailView = LoadingTip | LoadError(message: string) | NotFound | Showing(detail: Detail)

  function DetailOf(t: Tip): (d: Detail)
    ensures |d.wcag| == |ShownList(t.wcagCriteria)|
    ensures forall i :: 0 <= i < |d.wcag| ==> d.wcag[i] == WcagLink(ShownList(t.wcagCriteria)[i])
    ensures |d.resources| == |ShownList(t.resources)|
    ensures forall i :: 0 <= i < |d.resources| ==>
      d.resources[i] == Link(ShownList(t.resources)[i].title, ShownList(t.resources)[i].url)
  {
    var criteria := ShownList(t.wcagCriteria);
    var resources := ShownList(t.resources);
    Detail(t.title, CategoryName(t.category), DifficultyLabel(t.difficulty), t.tags, t.description,
           CodeExamples(t), t.explanation,
           seq(|criteria|, i requires 0 <= i < |criteria| => WcagLink(criteria[i])),
           seq(|resources|, i requires 0 <= i < |resources| => Link(resources[i].title, resources[i].url)))
  }

  /** The page: loading first, then a non-empty error, then "not found", then the tip. */
  function View(loading: bool, error: Option<string>, tip: Option<Tip>): (v: DetailView)
    ensures v.LoadingTip? <==> loading
    ensures v.LoadError? <==> !loading && TruthyString(error)
    ensures v.LoadError? ==> v.message == error.value
    ensures v.Showing? <==> !loading && !TruthyString(error) && tip.Some?
    ensures v.Showing? ==> v.detail == DetailOf(tip.value)
  {
    if loading then LoadingTip
    else if TruthyString(error) then LoadError(error.value)
    else if tip.None? then NotFound
    else Showing(DetailOf(tip.value))
  }

  /** The page navigates home exactly when it is showing "not found". */
  lemma RedirectIffNotFound(loading: bool, error: Option<string>, tip: Option<Tip>)
    ensures ShouldRedirect(loading, error, tip) <==> View(loading, error, tip) == NotFound
  {
  }

  /** Every card of the shipped catalogue links to a detail page that shows that very tip. */
  lemma CardLinksResolve(i: nat)
    requires i < |TipsData.Tips|
    ensures var t := TipsData.Tips[i];
      LookupTip(TipsData.Tips, Some(TipCard.CardLink(t)[|TipCard.DetailPrefix|..])) == Some(t)
  {
    TipsData.IdsDistinct();
    FindByIdUnique(TipsData.Tips, i);
  }

  /** Every WCAG link of the shipped catalogue points at the criterion's number. */
  lemma FixtureWcagAnchors(i: nat, k: nat)
    requires i < |TipsData.Tips| && TipsData.Tips[i].wcagCriteria.Some?
    requires k < |TipsData.Tips[i].wcagCriteria.value|
    ensures var c := TipsData.Tips[i].wcagCriteria.value[k];
      WcagAnchor(c) == FirstToken(c) && TipsData.WellFormedCriterion(c)
  {
    TipsData.CriteriaWellFormed();
    WcagAnchorOfNumber(TipsData.Tips[i].wcagCriteria.value[k]);
  }
}
