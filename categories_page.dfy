/**
 * `pages/CategoriesPage.tsx`: the catalogue grouped by category in
 * first-seen order, a case-insensitive search over the category names, and
 * one card per remaining category with its colour, icon, link and count.
 */
module CategoriesPage {
  import opened Wrappers
  import opened Text
  import opened Seqs
  import opened TipModel
  import opened UseTips

  /** The predicate that selects one category's tips. */
  function InCategory(c: Category): Tip -> bool {
    (t: Tip) => t.category == c
  }

  /** The group the reduce builds for `c`: its tips, in catalogue order. */
  function TipsOfCategory(tips: seq<Tip>, c: Category): seq<Tip> {
    Filter(tips, InCategory(c))
  }

  lemma CategoryOfAppend(tips: seq<Tip>, t: Tip)
    ensures CategoryOf(tips + [t]) == CategoryOf(tips) + [t.category]
  {
  }

  /** A category no tip has has an empty group. */
  lemma AbsentCategoryEmpty(tips: seq<Tip>, c: Category)
    requires c !in Categories(tips)
    ensures TipsOfCategory(tips, c) == []
  {
    CategoriesExact(tips);
    if TipsOfCategory(tips, c) != [] {
      var t := TipsOfCategory(tips, c)[0];
      FilterMembership(tips, InCategory(c), t);
    }
  }

  /** `keys` and `groups` are the reduce's result over `tips`. */
  ghost predicate GroupedBy(tips: seq<Tip>, keys: seq<Category>, groups: map<Category, seq<Tip>>) {
    keys == Categories(tips) &&
    (forall c :: c in groups <==> c in keys) &&
    (forall c :: c in groups ==> groups[c] == TipsOfCategory(tips, c))
  }

  /** One step of the reduce: pushing `t`, after creating its key if it is new, extends the grouping by `t`. */
  lemma GroupStep(prefix: seq<Tip>, t: Tip, keys: seq<Category>, groups: map<Category, seq<Tip>>,
                  keys': seq<Category>, groups': map<Category, seq<Tip>>)
    requires GroupedBy(prefix, keys, groups)
    requires keys' == if t.category in groups then keys else keys + [t.category]
    requires groups' == groups[t.category := (if t.category in groups then groups[t.category] else []) + [t]]
    ensures GroupedBy(prefix + [t], keys', groups')
  {
    CategoryOfAppend(prefix, t);
    DedupeAppend(CategoryOf(prefix), t.category);
    if t.category !in groups {
      AbsentCategoryEmpty(prefix, t.category);
    }
    forall c | c in groups'
      ensures groups'[c] == TipsOfCategory(prefix + [t], c)
    {
      FilterAppend(prefix, InCategory(c), t);
    }
  }

  /**
   * The `tips.reduce` into `categoriesMap`: a key is created the first time
   * its category is seen and every tip is pushed onto its category's list.
   * `keys` is the key order `Object.keys` reports, which for these
   * non-numeric keys is insertion order.
   */
  method GroupByCategory(tips: seq<Tip>) returns (keys: seq<Category>, groups: map<Category, seq<Tip>>)
    ensures keys == Categories(tips)
    ensures forall c :: c in groups <==> c in keys
    ensures forall c :: c in groups ==> groups[c] == TipsOfCategory(tips, c)
  {
    keys := [];
    groups := map[];
    var i := 0;
    while i < |tips|
      invariant 0 <= i <= |tips|
      invariant GroupedBy(tips[..i], keys, groups)
    {
      var t := tips[i];
      var keys', groups' := keys, groups;
      if t.category !in groups' {
        keys' := keys' + [t.category];
        groups' := groups'[t.category := []];
      }
      groups' := groups'[t.category := groups'[t.category] + [t]];
      GroupStep(tips[..i], t, keys, groups, keys', groups');
      assert tips[..i + 1] == tips[..i] + [t];
      keys, groups := keys', groups';
      i := i + 1;
    }
    assert tips[..i] == tips;
  }

  /** A group keeps its tips in catalogue order. */
  lemma GroupKeepsOrder(tips: seq<Tip>, c: Category) returns (idx: seq<nat>)
    ensures IsEmbedding(TipsOfCategory(tips, c), tips, idx)
  {
    idx := FilterIsSubsequence(tips, InCategory(c));
  }

  /** The keys come out in the order in which their categories first occur in the catalogue. */
  lemma KeysInFirstOccurrenceOrder(tips: seq<Tip>)
    ensures InFirstOccurrenceOrder(Categories(tips), CategoryOf(tips))
  {
    DedupeFirstOccurrenceOrder(CategoryOf(tips));
  }

  /** A tip belongs to its own category's group and to no other. */
  lemma GroupsPartitionTips(tips: seq<Tip>, t: Tip, c: Category)
    requires t in tips
    ensures t in TipsOfCategory(tips, c) <==> c == t.category
  {
    FilterMembership(tips, InCategory(c), t);
  }

  /** Every key's group is non-empty: a card never counts zero tips. */
  lemma GroupsNonEmpty(tips: seq<Tip>, c: Category)
    requires c in Categories(tips)
    ensures |TipsOfCategory(tips, c)| >= 1
  {
    CategoriesExact(tips);
    var t :| t in tips && t.category == c;
    FilterMembership(tips, InCategory(c), t);
  }

  /** The sum of the group sizes of the categories `ks`. */
  function GroupSizeTotal(tips: seq<Tip>, ks: seq<Category>): nat {
    if ks == [] then 0
    else GroupSizeTotal(tips, ks[..|ks| - 1]) + |TipsOfCategory(tips, ks[|ks| - 1])|
  }

  /** One more tip adds one to the total exactly when its category is among the (distinct) keys. */
  lemma {:induction false} GroupSizeTotalAppend(tips: seq<Tip>, t: Tip, ks: seq<Category>)
    requires NoDuplicates(ks)
    ensures GroupSizeTotal(tips + [t], ks) == GroupSizeTotal(tips, ks) + (if t.category in ks then 1 else 0)
  {
    if ks != [] {
      var init := ks[..|ks| - 1];
      var last := ks[|ks| - 1];
      assert ks == init + [last];
      GroupSizeTotalAppend(tips, t, init);
      FilterAppend(tips, InCategory(last), t);
      assert t.category in ks <==> t.category in init || t.category == last;
      assert t.category in init ==> t.category != last;
    }
  }

  /** The cards' counts add up to the size of the catalogue: every tip is counted exactly once. */
  lemma {:induction false} GroupSizesSumToTotal(tips: seq<Tip>)
    ensures GroupSizeTotal(tips, Categories(tips)) == |tips|
  {
    if tips != [] {
      var init := tips[..|tips| - 1];
      var t := tips[|tips| - 1];
      assert tips == init + [t];
      GroupSizesSumToTotal(init);
      CategoryOfAppend(init, t);
      DedupeAppend(CategoryOf(init), t.category);
      CategoriesExact(init);
      GroupSizeTotalAppend(init, t, Categories(init));
      if t.category !in Categories(init) {
        AbsentCategoryEmpty(init, t.category);
        FilterAppend(init, InCategory(t.category), t);
        assert Categories(tips) == Categories(init) + [t.category];
        assert Categories(tips)[..|Categories(tips)| - 1] == Categories(init);
      }
    }
  }

  /** The predicate of the category search: the lower-cased name contains the lower-cased term. */
  function NameMatches(term: string): Category -> bool {
    (c: Category) => Contains(ToLower(CategoryName(c)), ToLower(term))
  }

  /** `filteredCategories`: the keys whose names contain the search term, ignoring case. */
  function FilteredCategories(keys: seq<Category>, term: string): seq<Category> {
    Filter(keys, NameMatches(term))
  }

  /** A key is listed iff its lower-cased name contains the lower-cased term as a substring. */
  lemma FilteredCategoriesMembership(keys: seq<Category>, term: string, c: Category)
    ensures c in FilteredCategories(keys, term) <==> c in keys && Occurs(ToLower(CategoryName(c)), ToLower(term))
  {
    FilterMembership(keys, NameMatches(term), c);
    ContainsIff(ToLower(CategoryName(c)), ToLower(term));
  }

  /** The initial empty search lists every category. */
  lemma EmptySearchListsAll(keys: seq<Category>)
    ensures FilteredCategories(keys, "") == keys
  {
    forall i | 0 <= i < |keys| ensures NameMatches("")(keys[i]) {
      ContainsEmpty(ToLower(CategoryName(keys[i])));
    }
    FilterAll(keys, NameMatches(""));
  }

  /** `categoryColors` keyed by category name. */
  const CategoryColors: map<string, string> := map[
    "HTML" := "rgba(229, 77, 38, 0.2)",
    "CSS" := "rgba(38, 77, 228, 0.2)",
    "JavaScript" := "rgba(240, 219, 79, 0.2)",
    "ARIA" := "rgba(0, 121, 107, 0.2)",
    "Forms" := "rgba(156, 39, 176, 0.2)",
    "Images" := "rgba(121, 85, 72, 0.2)",
    "Navigation" := "rgba(33, 150, 243, 0.2)",
    "Semantic" := "rgba(76, 175, 80, 0.2)",
    "Color" := "rgba(244, 67, 54, 0.2)",
    "Keyboard" := "rgba(255, 152, 0, 0.2)"]

  /** `categoryIcons` keyed by category name. */
  const CategoryIcons: map<string, string> := map[
    "HTML" := "🏗️", "CSS" := "🎨", "JavaScript" := "⚙️", "ARIA" := "🔊", "Forms" := "📝",
    "Images" := "🖼️", "Navigation" := "🧭", "Semantic" := "🧩", "Color" := "🌈", "Keyboard" := "⌨️"]

  const FallbackColor: string := "var(--color-background-alt)"
  const FallbackIcon: string := "📚"

  /** `record[key] || fallback`: a missing key or an empty value gives the fallback. */
  function LookupOr(m: map<string, string>, key: string, fallback: string): string {
    if key in m && m[key] != "" then m[key] else fallback
  }

  function CardColor(name: string): string {
    LookupOr(CategoryColors, name, FallbackColor)
  }

  function CardIcon(name: string): string {
    LookupOr(CategoryIcons, name, FallbackIcon)
  }

  /** The fallbacks are used exactly for names that are not categories. */
  lemma FallbackIffUnknown(name: string)
    ensures CardColor(name) == FallbackColor <==> ParseCategory(name).None?
    ensures CardIcon(name) == FallbackIcon <==> ParseCategory(name).None?
  {
  }

  /** The card link `/?category=<name>`. */
  function CardLink(c: Category): (r: string)
    ensures r == "/?category=" + CategoryName(c)
    ensures r[..11] == "/?category=" && ParseCategory(r[11..]) == Some(c)
  {
    CategoryNameRoundTrip(c);
    "/?category=" + CategoryName(c)
  }

  /** `{n} macete{n !== 1 ? 's' : ''}`. */
  function CountLabel(n: nat): string {
    NatToString(n) + " macete" + (if n != 1 then "s" else "")
  }

  /** The label starts with the decimal count and takes the plural ending iff the count is not one. */
  lemma CountLabelReadsBack(n: nat)
    ensures FirstToken(CountLabel(n)) == NatToString(n)
    ensures DigitsValue(FirstToken(CountLabel(n))) == n
    ensures CountLabel(n)[|CountLabel(n)| - 1] == 's' <==> n != 1
  {
    var s := CountLabel(n);
    var k := |NatToString(n)|;
    FirstTokenAt(s, k);
    assert s[..k] == NatToString(n);
    NatToStringRoundTrip(n);
  }

  datatype Card = Card(name: string, link: string, color: string, icon: string, count: string)

  function CardFor(tips: seq<Tip>, c: Category): Card {
    var name := CategoryName(c);
    Card(name, CardLink(c), CardColor(name), CardIcon(name), CountLabel(|TipsOfCategory(tips, c)|))
  }

  /** `shown.map(category => <CategoryCard …>)`: one card per listed category, in order. */
  function CardGrid(tips: seq<Tip>, shown: seq<Category>): (r: seq<Card>)
    ensures |r| == |shown| && forall i :: 0 <= i < |r| ==> r[i] == CardFor(tips, shown[i])
  {
    seq(|shown|, i requires 0 <= i < |shown| => CardFor(tips, shown[i]))
  }

  /** The page state: the catalogue from the hook and the search box's text. */
  class Page {
    const tips: seq<Tip>
    var searchTerm: string

    constructor (tips: seq<Tip>)
      ensures this.tips == tips && searchTerm == ""
    {
      this.tips := tips;
      searchTerm := "";
    }

    /** The rendered grid: one card per key that passes the search, in key order. */
    function Cards(): (r: seq<Card>)
      reads this
      ensures |r| == |FilteredCategories(Categories(tips), searchTerm)|
      ensures forall i :: 0 <= i < |r| ==>
        r[i] == CardFor(tips, FilteredCategories(Categories(tips), searchTerm)[i])
    {
      CardGrid(tips, FilteredCategories(Categories(tips), searchTerm))
    }

    method SetSearchTerm(term: string)
      modifies this
      ensures searchTerm == term
    {
      searchTerm := term;
    }
  }

  /** A fresh page shows a card for every category of the catalogue, and no card has the fallback colour. */
  method FreshPageShowsAllCategories(tips: seq<Tip>) returns (p: Page)
    ensures fresh(p) && |p.Cards()| == |Categories(tips)|
    ensures forall i :: 0 <= i < |p.Cards()| ==> p.Cards()[i].color != FallbackColor
  {
    p := new Page(tips);
    EmptySearchListsAll(Categories(tips));
    forall i | 0 <= i < |p.Cards()| ensures p.Cards()[i].color != FallbackColor {
      CategoryNameRoundTrip(Categories(tips)[i]);
      FallbackIffUnknown(CategoryName(Categories(tips)[i]));
    }
  }
}
