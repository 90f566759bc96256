/**
 * `components/common/SkipLink.tsx`: an in-page link to the main content
 * that becomes visible while it has keyboard focus.
 */
module SkipLink {
  import opened Wrappers

  const DefaultText: string := "Pular para o conteúdo principal"

  /** `href`: a fragment naming the target id. */
  function Href(targetId: string): (r: string)
    ensures |r| == |targetId| + 1 && r[0] == '#' && r[1..] == targetId
  {
    "#" + targetId
  }

  /** Two targets give the same link only if they are the same id. */
  lemma HrefInjective(a: string, b: string)
    ensures Href(a) == Href(b) ==> a == b
  {
    if Href(a) == Href(b) {
      assert a == Href(a)[1..];
    }
  }

  class Link {
    const targetId: string
    /** The `text` prop, defaulted when omitted. */
    const text: string
    var isFocused: bool

    constructor (targetId: string, text: Option<string>)
      ensures this.targetId == targetId && this.text == text.GetOr(DefaultText) && !isFocused
    {
      this.targetId := targetId;
      this.text := text.GetOr(DefaultText);
      isFocused := false;
    }

    /** The `className`: `focused` exactly while focus is on the link. */
    function ClassName(): (r: string)
      reads this
      ensures r == "focused" <==> isFocused
      ensures r == "" <==> !isFocused
    {
      if isFocused then "focused" else ""
    }

    method Focus()
      modifies this
      ensures isFocused && ClassName() == "focused"
    {
      isFocused := true;
    }

    method Blur()
      modifies this
      ensures !isFocused && ClassName() == ""
    {
      isFocused := false;
    }
  }
}
