/** The tip record and its closed enumerations (`models/interfaces/Tip.ts`). */
module TipModel {
  import opened Wrappers

  datatype Category =
    | HTML | CSS | JavaScript | ARIA | Forms | Images | Navigation | Semantic | Color | Keyboard

  datatype Difficulty = Beginner | Intermediate | Advanced

  datatype ResourceKind = Article | Video | Tool | Documentation

  datatype Resource = Resource(title: string, url: string, kind: ResourceKind)

  /** Dates are kept as the ISO strings the records are built from. */
  datatype Tip = Tip(
    id: string,
    title: string,
    category: Category,
    difficulty: Difficulty,
    description: string,
    badCode: string,
    goodCode: string,
    explanation: string,
    wcagCriteria: Option<seq<string>>,
    tags: seq<string>,
    resources: Option<seq<Resource>>,
    createdAt: string,
    updatedAt: string)

  /** The string literal of each category, as it appears in the records and in URLs. */
  function CategoryName(c: Category): string {
    match c
    case HTML => "HTML"
    case CSS => "CSS"
    case JavaScript => "JavaScript"
    case ARIA => "ARIA"
    case Forms => "Forms"
    case Images => "Images"
    case Navigation => "Navigation"
    case Semantic => "Semantic"
    case Color => "Color"
    case Keyboard => "Keyboard"
  }

  /** The category a string names, if any: the inverse of CategoryName. */
  function ParseCategory(s: string): (r: Option<Category>)
    ensures r.Some? ==> CategoryName(r.value) == s
  {
    if s == "HTML" then Some(HTML)
    else if s == "CSS" then Some(CSS)
    else if s == "JavaScript" then Some(JavaScript)
    else if s == "ARIA" then Some(ARIA)
    else if s == "Forms" then Some(Forms)
    else if s == "Images" then Some(Images)
    else if s == "Navigation" then Some(Navigation)
    else if s == "Semantic" then Some(Semantic)
    else if s == "Color" then Some(Color)
    else if s == "Keyboard" then Some(Keyboard)
    else None
  }

  /** Every category name parses back to its category, so names are pairwise distinct. */
  lemma CategoryNameRoundTrip(c: Category)
    ensures ParseCategory(CategoryName(c)) == Some(c)
  {
  }

  lemma CategoryNameInjective(a: Category, b: Category)
    ensures CategoryName(a) == CategoryName(b) ==> a == b
  {
    CategoryNameRoundTrip(a);
    CategoryNameRoundTrip(b);
  }

  function DifficultyName(d: Difficulty): string {
    match d
    case Beginner => "Beginner"
    case Intermediate => "Intermediate"
    case Advanced => "Advanced"
  }

  /** The difficulty a string names, if any: the inverse of DifficultyName. */
  function ParseDifficulty(s: string): (r: Option<Difficulty>)
    ensures r.Some? ==> DifficultyName(r.value) == s
  {
    if s == "Beginner" then Some(Beginner)
    else if s == "Intermediate" then Some(Intermediate)
    else if s == "Advanced" then Some(Advanced)
    else None
  }

  lemma DifficultyNameRoundTrip(d: Difficulty)
    ensures ParseDifficulty(DifficultyName(d)) == Some(d)
  {
  }

  /**
   * The Portuguese label of a difficulty. The filter bar, the tip card and the
   * detail page each carry the same three-entry table.
   */
  function DifficultyLabel(d: Difficulty): (r: string)
    ensures d == Beginner <==> r == "Iniciante"
    ensures d == Intermediate <==> r == "Intermediário"
    ensures d == Advanced <==> r == "Avançado"
  {
    match d
    case Beginner => "Iniciante"
    case Intermediate => "Intermediário"
    case Advanced => "Avançado"
  }
}
