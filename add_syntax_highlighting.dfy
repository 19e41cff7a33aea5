/** `add_syntax_highlighting` (add_syntax_highlighting.py): the font step,
    then replacement of every black `.code-block { … }` rule by a dark theme
    with token colours, then the highlighter script before `</body>`. */
module AddSyntaxHighlighting {
  import opened Text
  import opened Patterns
  import opened FontLink
  import opened HighlighterJs
  import opened HighlightSheet

  /** The old rule, `\.code-block \{[^}]*background: #000;[^}]*\}`. */
  const OldCssRule: Pattern := Rule(OldCssHead, OldCssNeed)

  /** The tag the script is put before. */
  const BodyClose: string := "</body>"

  /** The highlighter script: a line break and an indent, `<script>`, the
      header comment, the name `highlightSyntax` of its function, the
      function and its registration, and `</script>`. */
  const JsCode: string := JsLead + ScriptKey + JsRest
  const JsLead: string := "\n    " + ScriptOpen + JsHeader
  const JsRest: string := JsBody + ScriptClose

  /** What replaces each `</body>`: the script, a line break and the tag. */
  const ScriptInsert: string := JsCode + ScriptEnd
  const ScriptEnd: string := "\n" + BodyClose

  /** The CSS step: if the old rule is found, every match becomes `css`;
      the script passes `HighlightCss`. With an inert replacement no old
      rule is left afterwards. */
  function UpdateCss(content: string, css: string): (r: string)
    ensures !Contains(content, OldCssHead) ==> r == content
    ensures !Found(Matcher(OldCssRule), content) ==> r == content
    ensures Found(Matcher(OldCssRule), content) ==> Contains(r, css)
  {
    RuleNeedsHead(OldCssHead, OldCssNeed, content);
    SubIfFound(OldCssRule, content, css)
  }

  /** With an inert replacement no old rule is left after the CSS step. */
  lemma UpdateCssClears(content: string, css: string)
    requires Inert(OldCssHead, OldCssNeed, css)
    ensures !Found(Matcher(OldCssRule), UpdateCss(content, css))
  {
    assert '}' !in OldCssHead;
    SubIfFoundClears(OldCssHead, OldCssNeed, content, css);
  }

  /** After the CSS step with the new style sheet no black rule is left. */
  lemma UpdateCssLeavesNoBlackRule(content: string)
    ensures !Found(Matcher(OldCssRule), UpdateCss(content, HighlightCss))
  {
    HighlightCssInert();
    UpdateCssClears(content, HighlightCss);
  }

  /** A black rule at the front is replaced whole by the new style sheet,
      and substitution goes on after its closing brace. */
  lemma UpdateCssReplacesBlackRule(body: string, x: string, css: string)
    requires '}' !in body && Contains(body, OldCssNeed)
    ensures UpdateCss(OldCssHead + body + "}" + x, css)
         == css + SubAll(Matcher(OldCssRule), x, css)
  {
    var t := OldCssHead + body + "}" + x;
    var n := |OldCssHead| + |body| + 1;
    RuleShape(OldCssHead, OldCssNeed, body, x);
    MatcherRule(OldCssHead, OldCssNeed, t);
    SubIfFoundIsSubAll(OldCssRule, t, css);
    assert t[n..] == x;
  }

  /** A `.code-block` rule without the black background is no match: its
      first character is kept and the search goes on from the next one. */
  lemma UpdateCssKeepsOtherRule(body: string, x: string, css: string)
    requires '}' !in body && !Contains(body, OldCssNeed)
    ensures var t := OldCssHead + body + "}" + x;
      UpdateCss(t, css) == "." + SubAll(Matcher(OldCssRule), t[1..], css)
  {
    var t := OldCssHead + body + "}" + x;
    RuleShape(OldCssHead, OldCssNeed, body, x);
    MatcherRule(OldCssHead, OldCssNeed, t);
    SubIfFoundIsSubAll(OldCssRule, t, css);
    assert t[0] == '.';
  }

  /** A sheet laid out as the new one is, with a first rule body free of
      `}` and of the black background and no further `.code-block {`,
      is inert for the old rule. */
  lemma SheetInert(body: string, rest: string)
    requires '}' !in body && !Contains(body, OldCssNeed)
    requires NoStartBefore(body + ("}" + rest + "}"), OldCssHead, |body|)
    requires NoStartBefore(rest + "}", OldCssHead, |rest|)
    ensures Inert(OldCssHead, OldCssNeed, SheetLead + OldCssHead + body + "}" + rest + "}")
  {
    HeadShape();
    InertSheet(SheetLead, OldCssHead, OldCssNeed, body, rest);
  }

  /** The facts about the old rule's head and the sheet's lead that make
      the layout above inert. */
  lemma HeadShape()
    ensures |OldCssHead| > 1 && '}' !in OldCssHead
    ensures OldCssHead[0] !in SheetLead && OldCssHead[0] !in OldCssHead[1..]
    ensures forall j :: 0 < j < |OldCssHead| ==> !IsPrefix(OldCssHead[j..], SheetLead + OldCssHead)
  {
    assert (SheetLead + OldCssHead)[..2] == "  ";
    NoHeadTail(SheetLead + OldCssHead);
  }

  /** The first rule of the new sheet has no `}` and no black background. */
  lemma FirstRuleBodyClean()
    ensures '}' !in FirstRuleBody && !Contains(FirstRuleBody, OldCssNeed)
  {
    FirstRuleBodyNoBrace("");
    assert FirstRuleBody + "" == FirstRuleBody;
    NoStartNoChar(FirstRuleBody, '}');
    FirstRuleBodyNoNeed("");
    NoStartNotContains(FirstRuleBody, OldCssNeed);
  }

  /** The new style sheet can take no part in a match of the old rule: it
      ends with `}`, its only `.code-block {` rule lacks the black
      background, no other `.code-block {` starts in it, and it starts with
      spaces, so no match runs into it from the text before it. */
  lemma HighlightCssInert()
    ensures Inert(OldCssHead, OldCssNeed, HighlightCss)
  {
    FirstRuleBodyClean();
    FirstRuleBodyNoHead("}" + SheetRest + "}");
    SheetRestNoHead("}");
    SheetInert(FirstRuleBody, SheetRest);
  }

  /** No tail of the old rule's head starts with two spaces. */
  lemma NoHeadTail(css: string)
    requires |css| >= 2 && css[..2] == "  "
    ensures forall j :: 0 < j < |OldCssHead| ==> !IsPrefix(OldCssHead[j..], css)
  {
    forall j | 0 < j < |OldCssHead|
      ensures !IsPrefix(OldCssHead[j..], css)
    {
      if j < 11 {
        assert OldCssHead[j..][0] != css[..2][0];
      } else {
        assert OldCssHead[j..][|OldCssHead[j..]| - 1] == '{';
      }
    }
  }

  /** A text made of a lead, the key and more holds the key. */
  lemma KeyBetween(lead: string, rest: string, tail: string)
    ensures Contains(lead + ScriptKey + rest + tail, ScriptKey)
  {
    ContainsMiddle(lead, ScriptKey, rest + tail);
    Assoc(lead + ScriptKey, rest, tail);
  }

  /** The script step: unless the page already mentions `highlightSyntax`,
      the script and a line break go before every `</body>`. */
  function AddHighlightScript(content: string): (r: string)
    ensures Contains(content, ScriptKey) ==> r == content
    ensures !Contains(content, BodyClose) ==> r == content
    ensures Contains(content, BodyClose) ==> Contains(r, ScriptKey)
  {
    if Contains(content, ScriptKey) then content
    else
      var r := Replace(content, BodyClose, ScriptInsert);
      assert Contains(content, BodyClose) ==> Contains(r, ScriptKey) by {
        if Contains(content, BodyClose) {
          KeyBetween(JsLead, JsRest, ScriptEnd);
          ReplaceInserts(content, BodyClose, ScriptInsert, ScriptKey);
        }
      }
      r
  }

  /** When the script step changes the page, the page is its pieces
      between `</body>` tags and the result is the same pieces with the
      script before each tag. */
  lemma AddHighlightScriptBeforeBodyClose(content: string)
    requires !Contains(content, ScriptKey)
    ensures var parts := Split(content, BodyClose);
      && content == Join(parts, BodyClose)
      && AddHighlightScript(content) == Join(parts, ScriptInsert)
      && forall k :: 0 <= k < |parts| ==> !Contains(parts[k], BodyClose)
  {
    ReplacePieces(content, BodyClose, ScriptInsert);
  }

  /** A page with one `</body>` and no highlighter gets the script once,
      just before that tag; the text after the tag does not name the
      highlighter either. */
  lemma AddHighlightScriptOnce(content: string, pre: string, post: string)
    requires Split(content, BodyClose) == [pre, post] && !Contains(content, ScriptKey)
    ensures content == pre + BodyClose + post
    ensures AddHighlightScript(content) == pre + ScriptInsert + post
    ensures !Contains(post, ScriptKey)
  {
    ReplaceOnce(content, BodyClose, ScriptInsert, pre, post, ScriptKey);
    AddHighlightScriptReplaces(content);
  }

  /** Without the highlighter, the script step is the replacement. */
  lemma AddHighlightScriptReplaces(content: string)
    ensures !Contains(content, ScriptKey) ==> AddHighlightScript(content) == Replace(content, BodyClose, ScriptInsert)
  {
  }

  /** Running the script step a second time changes nothing. */
  lemma AddHighlightScriptIdempotent(content: string)
    ensures AddHighlightScript(AddHighlightScript(content)) == AddHighlightScript(content)
  {
  }

  /** The whole rewrite of one page: font, style sheet, script. A page
      that already links the font, has the script and no black rule is
      left exactly as it was. */
  function AddSyntaxHighlighting(content: string): (r: string)
    ensures (Contains(content, FontMarker) && Contains(content, ScriptKey)
             && !Found(Matcher(OldCssRule), content)) ==> r == content
  {
    AddHighlightScript(UpdateCss(AddFiraCode(content), HighlightCss))
  }
}
