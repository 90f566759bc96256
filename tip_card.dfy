/**
 * `components/features/TipCard.tsx`: the card a tip gets in the home page
 * list, with a link to its detail page, at most three tags plus an
 * overflow chip, and a difficulty badge.
 */
module TipCard {
  import opened Wrappers
  import opened Text
  import opened TipModel

  const DetailPrefix: string := "/dica/"

  /** The card's link to the tip's detail route; the id is recovered by dropping the prefix. */
  function CardLink(t: Tip): (r: string)
    ensures |r| == |DetailPrefix| + |t.id|
    ensures r[..|DetailPrefix|] == DetailPrefix && r[|DetailPrefix|..] == t.id
  {
    DetailPrefix + t.id
  }

  /** `tags.slice(0, 3)`. */
  function ShownTags(tags: seq<string>): (r: seq<string>)
    ensures |r| <= 3 && |r| <= |tags|
    ensures |tags| <= 3 ==> r == tags
    ensures |tags| > 3 ==> |r| == 3
    ensures r == tags[..|r|]
  {
    if |tags| <= 3 then tags else tags[..3]
  }

  /** The `+k` chip, present only when some tags are hidden. */
  function OverflowChip(tags: seq<string>): (r: Option<string>)
    ensures r.Some? <==> |tags| > 3
  {
    if |tags| > 3 then Some("+" + NatToString(|tags| - 3)) else None
  }

  /** No tag is lost: the shown tags plus the chip's number account for every tag. */
  lemma TagsAccountedFor(tags: seq<string>)
    ensures OverflowChip(tags).None? ==> ShownTags(tags) == tags
    ensures OverflowChip(tags).Some? ==>
      OverflowChip(tags).value[0] == '+' &&
      |ShownTags(tags)| + DigitsValue(OverflowChip(tags).value[1..]) == |tags|
  {
    if |tags| > 3 {
      var chip := OverflowChip(tags).value;
      assert chip[1..] == NatToString(|tags| - 3);
      NatToStringRoundTrip(|tags| - 3);
    }
  }

  /** The badge background, switched on the difficulty's string with a default for anything else. */
  function DifficultyBackground(difficulty: string): string {
    if difficulty == "Beginner" then "var(--color-success-bg)"
    else if difficulty == "Intermediate" then "var(--color-warning-bg)"
    else if difficulty == "Advanced" then "var(--color-error-bg)"
    else "var(--color-background-alt)"
  }

  /** The badge text colour, switched the same way. */
  function DifficultyColor(difficulty: string): string {
    if difficulty == "Beginner" then "var(--color-success)"
    else if difficulty == "Intermediate" then "var(--color-warning)"
    else if difficulty == "Advanced" then "var(--color-error)"
    else "var(--color-text)"
  }

  /** The switches' defaults apply exactly to strings that are not difficulties, so no tip ever gets them. */
  lemma DefaultsOnlyForUnknown(s: string)
    ensures DifficultyBackground(s) == "var(--color-background-alt)" <==> ParseDifficulty(s).None?
    ensures DifficultyColor(s) == "var(--color-text)" <==> ParseDifficulty(s).None?
  {
  }

  datatype CardView = CardView(
    link: string,
    category: string,
    title: string,
    description: string,
    tags: seq<string>,
    overflow: Option<string>,
    difficultyLabel: string,
    badgeBackground: string,
    badgeColor: string)

  function Render(t: Tip): (v: CardView)
    ensures v.link == CardLink(t) && v.category == CategoryName(t.category)
    ensures v.tags == ShownTags(t.tags) && v.overflow == OverflowChip(t.tags)
    ensures v.difficultyLabel == DifficultyLabel(t.difficulty)
  {
    var d := DifficultyName(t.difficulty);
    CardView(CardLink(t), CategoryName(t.category), t.title, t.description,
             ShownTags(t.tags), OverflowChip(t.tags), DifficultyLabel(t.difficulty),
             DifficultyBackground(d), DifficultyColor(d))
  }

  /** The badge colours of a rendered card are never the fallbacks, and they tell the three difficulties apart. */
  lemma BadgeNeverFallsBack(t: Tip, u: Tip)
    ensures Render(t).badgeBackground != "var(--color-background-alt)"
    ensures Render(t).badgeColor != "var(--color-text)"
    ensures Render(t).badgeBackground == Render(u).badgeBackground <==> t.difficulty == u.difficulty
  {
    DifficultyNameRoundTrip(t.difficulty);
    DefaultsOnlyForUnknown(DifficultyName(t.difficulty));
  }
}
