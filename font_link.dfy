/** The font step shared by both styling scripts: unless the page already
    mentions `Fira+Code`, a stylesheet link for the Fira Code font is put
    after every Titillium Web font link. */
module FontLink {
  import opened Text

  /** The text whose presence means the font is already linked. */
  const FontMarker: string := "Fira+Code"

  /** The tail of the Titillium Web stylesheet link the new link follows. */
  const TitilliumAnchor: string :=
    "family=Titillium+Web:wght@300;400;600;700&display=swap\" rel=\"stylesheet\">"

  /** The inserted line: a Google Fonts stylesheet link for Fira Code. */
  const FiraLink: string := FiraLinkLead + FontMarker + FiraLinkTail
  const FiraLinkLead: string := "\n    <link href=\"https://fonts.googleapis.com/css2?family="
  const FiraLinkTail: string := ":wght@300;400;500;600;700&display=swap\" rel=\"stylesheet\">"

  /** What replaces each anchor: the anchor, then the new link. */
  const AnchorWithLink: string := TitilliumAnchor + FiraLink

  /** The font step. */
  function AddFiraCode(content: string): (r: string)
    ensures Contains(content, FontMarker) ==> r == content
    ensures !Contains(content, TitilliumAnchor) ==> r == content
    ensures !Contains(content, FontMarker) && Contains(content, TitilliumAnchor) ==> Contains(r, FontMarker)
  {
    if Contains(content, FontMarker) then content
    else
      var r := Replace(content, TitilliumAnchor, AnchorWithLink);
      assert Contains(content, TitilliumAnchor) ==> Contains(r, FontMarker) by {
        if Contains(content, TitilliumAnchor) {
          FiraLinkHasMarker();
          ReplaceInserts(content, TitilliumAnchor, AnchorWithLink, FontMarker);
        }
      }
      r
  }

  /** The anchor with the link after it mentions the font. */
  lemma FiraLinkHasMarker()
    ensures Contains(AnchorWithLink, FontMarker)
  {
    ContainsMiddle(TitilliumAnchor + FiraLinkLead, FontMarker, FiraLinkTail);
    Assoc(TitilliumAnchor, FiraLinkLead + FontMarker, FiraLinkTail);
    Assoc(TitilliumAnchor, FiraLinkLead, FontMarker);
  }

  /** When the step changes the page, the page is its pieces between
      Titillium anchors, and the result is the same pieces with the Fira
      Code link after each anchor. */
  lemma AddFiraCodeInsertsAfterAnchors(content: string)
    requires !Contains(content, FontMarker)
    ensures var parts := Split(content, TitilliumAnchor);
      && content == Join(parts, TitilliumAnchor)
      && AddFiraCode(content) == Join(parts, AnchorWithLink)
      && forall k :: 0 <= k < |parts| ==> !Contains(parts[k], TitilliumAnchor)
  {
    ReplacePieces(content, TitilliumAnchor, AnchorWithLink);
  }

  /** Running the font step a second time changes nothing. */
  lemma AddFiraCodeIdempotent(content: string)
    ensures AddFiraCode(AddFiraCode(content)) == AddFiraCode(content)
  {
  }
}
