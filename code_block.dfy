/**
 * `components/common/CodeBlock.tsx`: a titled code sample whose header is
 * coloured by whether the sample is the recommended or the discouraged
 * one, with a copy button and a transient confirmation.
 */
module CodeBlock {
  import opened Wrappers
  import opened Text
  import opened Dom

  /** The props after their defaults: `language = 'html'`, `isGood = isBad = false`. */
  datatype Props = Props(code: string, language: string, title: Option<string>, isGood: bool, isBad: bool)

  function WithDefaults(code: string, language: Option<string>, title: Option<string>,
                        isGood: Option<bool>, isBad: Option<bool>): (p: Props)
    ensures p.code == code && p.title == title
    ensures p.language == language.GetOr("html")
    ensures p.isGood == (isGood == Some(true)) && p.isBad == (isBad == Some(true))
  {
    Props(code, language.GetOr("html"), title, isGood.GetOr(false), isBad.GetOr(false))
  }

  /** Which of the three header styles applies; `isGood` is tested first. */
  datatype Kind = Good | Bad | Neutral

  function KindOf(p: Props): (k: Kind)
    ensures k == Good <==> p.isGood
    ensures k == Bad <==> !p.isGood && p.isBad
  {
    if p.isGood then Good else if p.isBad then Bad else Neutral
  }

  function HeaderBackground(k: Kind): string {
    match k
    case Good => "var(--color-success-bg)"
    case Bad => "var(--color-error-bg)"
    case Neutral => "var(--color-code-header-bg)"
  }

  function TitleColor(k: Kind): string {
    match k
    case Good => "var(--color-success)"
    case Bad => "var(--color-error)"
    case Neutral => "var(--color-text)"
  }

  /** The `::before` content: a tick, a cross, or nothing. */
  function TitleMarker(k: Kind): string {
    match k
    case Good => "✓"
    case Bad => "✗"
    case Neutral => ""
  }

  /** The three styles are chosen by the same test: the three kinds are told apart by each of them. */
  lemma StylesAgree(a: Kind, b: Kind)
    ensures HeaderBackground(a) == HeaderBackground(b) <==> a == b
    ensures TitleColor(a) == TitleColor(b) <==> a == b
    ensures TitleMarker(a) == TitleMarker(b) <==> a == b
  {
  }

  /** `displayTitle`: a non-empty `title` wins; otherwise a title from the kind or the upper-cased language. */
  function DisplayTitle(p: Props): (r: string)
    ensures TruthyString(p.title) ==> r == p.title.value
    ensures !TruthyString(p.title) && p.isGood ==> r == "Código Recomendado"
    ensures !TruthyString(p.title) && !p.isGood && p.isBad ==> r == "Código Não Recomendado"
    ensures !TruthyString(p.title) && !p.isGood && !p.isBad ==>
      r == "Código " + ToUpper(p.language) && |r| == 7 + |p.language|
  {
    if TruthyString(p.title) then p.title.value
    else match KindOf(p)
      case Good => "Código Recomendado"
      case Bad => "Código Não Recomendado"
      case Neutral => "Código " + ToUpper(p.language)
  }

  /** With every prop omitted but the code, the title is "Código HTML". */
  lemma DefaultTitle(code: string)
    ensures DisplayTitle(WithDefaults(code, None, None, None, None)) == "Código HTML"
  {
    assert ToUpper("html") == "HTML";
  }

  const CopiedMessage: string := "Copiado!"

  class Block {
    const props: Props
    var copied: bool

    constructor (props: Props)
      ensures this.props == props && !copied
    {
      this.props := props;
      copied := false;
    }

    /** The live region's text: the confirmation only while `copied`. */
    function Feedback(): (r: string)
      reads this
      ensures r != "" <==> copied
      ensures copied ==> r == CopiedMessage
    {
      if copied then CopiedMessage else ""
    }

    /**
     * `handleCopy`: write the code to the clipboard; on success show the
     * confirmation. A rejected write is logged and changes nothing visible.
     */
    method HandleCopy(clipboard: Clipboard, writeSucceeds: bool)
      modifies this, clipboard
      ensures writeSucceeds ==> clipboard.text == props.code && copied
      ensures !writeSucceeds ==> clipboard.text == old(clipboard.text) && copied == old(copied)
    {
      if writeSucceeds {
        clipboard.text := props.code;
        copied := true;
      }
    }

    /** The two-second timer set by a successful copy. */
    method CopyTimerElapsed()
      modifies this
      ensures !copied && Feedback() == ""
    {
      copied := false;
    }
  }
}
