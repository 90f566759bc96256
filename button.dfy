/**
 * The design-system button (`design-system/components/Button/Button.tsx`):
 * prop defaults, the size and width styles, and the loading state that
 * disables the button, swaps the icons for a spinner and may swap the label.
 */
module Button {
  import opened Wrappers

  datatype Variant = Primary | Secondary | Tertiary | Danger | Success | Ghost
  datatype Size = Small | Medium | Large

  /** The props a caller may omit are `Option`s; icons are text nodes, `None` when absent. */
  datatype Props = Props(
    variant: Option<Variant>,
    size: Option<Size>,
    fullWidth: Option<bool>,
    leftIcon: Option<string>,
    rightIcon: Option<string>,
    isLoading: Option<bool>,
    loadingText: Option<string>,
    disabled: Option<bool>,
    children: string)

  /** The children of the `<button>` element, in document order. */
  datatype Part = Spinner | Icon(glyph: string) | Label(text: string)

  datatype Rendered = Rendered(
    variant: Variant,
    size: Size,
    width: string,
    disabled: bool,
    waitCursor: bool,
    parts: seq<Part>)

  /** `sizeStyles`: the fixed height of each size, in pixels. */
  function HeightPx(s: Size): (h: nat)
    ensures s == Small <==> h == 32
    ensures s == Medium <==> h == 40
    ensures s == Large <==> h == 48
  {
    match s
    case Small => 32
    case Medium => 40
    case Large => 48
  }

  /** A JSX child `{cond && node}`: absent when the condition fails or the node is empty. */
  function IconPart(shown: bool, icon: Option<string>): seq<Part> {
    if shown && TruthyString(icon) then [Icon(icon.value)] else []
  }

  /** `Button(props)`: the element it renders. */
  function Render(p: Props): (r: Rendered)
    ensures r.variant == p.variant.GetOr(Primary) && r.size == p.size.GetOr(Medium)
    ensures r.width == (if p.fullWidth == Some(true) then "100%" else "auto")
    ensures r.disabled <==> p.disabled == Some(true) || p.isLoading == Some(true)
  {
    var loading := p.isLoading.GetOr(false);
    var caption := if loading && TruthyString(p.loadingText) then p.loadingText.value else p.children;
    Rendered(
      p.variant.GetOr(Primary),
      p.size.GetOr(Medium),
      if p.fullWidth.GetOr(false) then "100%" else "auto",
      p.disabled.GetOr(false) || loading,
      loading,
      (if loading then [Spinner] else []) + IconPart(!loading, p.leftIcon) + [Label(caption)] + IconPart(!loading, p.rightIcon))
  }

  /**
   * A loading button cannot be clicked, shows the spinner first and no icon,
   * and reads the loading text when one is given.
   */
  lemma LoadingButtonIsInert(p: Props)
    requires p.isLoading == Some(true)
    ensures Render(p).disabled && Render(p).waitCursor
    ensures Render(p).parts[0] == Spinner
    ensures forall i :: 0 <= i < |Render(p).parts| ==> !Render(p).parts[i].Icon?
    ensures TruthyString(p.loadingText) ==> Render(p).parts == [Spinner, Label(p.loadingText.value)]
    ensures !TruthyString(p.loadingText) ==> Render(p).parts == [Spinner, Label(p.children)]
  {
  }

  /** An idle button has no spinner, shows each given icon on its side, and always the children as label. */
  lemma IdleButtonShowsIcons(p: Props)
    requires p.isLoading != Some(true)
    ensures Render(p).disabled <==> p.disabled == Some(true)
    ensures Render(p).parts == IconPart(true, p.leftIcon) + [Label(p.children)] + IconPart(true, p.rightIcon)
    ensures forall i :: 0 <= i < |Render(p).parts| ==> Render(p).parts[i] != Spinner
  {
  }

  /** Every rendering has exactly one label. */
  lemma {:induction false} ExactlyOneLabel(p: Props)
    ensures exists i :: 0 <= i < |Render(p).parts| && Render(p).parts[i].Label?
    ensures forall i, j :: 0 <= i < j < |Render(p).parts| ==> !(Render(p).parts[i].Label? && Render(p).parts[j].Label?)
  {
    var parts := Render(p).parts;
    var k := if p.isLoading.GetOr(false) then 1 else |IconPart(true, p.leftIcon)|;
    assert parts[k].Label?;
  }
}
