/** `update_code_block_styling` (update_code_styling.py): the font step,
    removal of the highlighter script, replacement of every
    `.code-block { … }` rule by a dark theme, removal of the per-token
    colour rules and of a leftover HTML comment. */
module UpdateCodeStyling {
  import opened Text
  import opened Patterns
  import opened FontLink
  import AddSyntaxHighlighting
  import HighlighterJs
  import opened CodeBlockCss

  /** The script step: every `<script>.*?highlightSyntax.*?</script>`
      match is deleted. */
  function RemoveHighlightScript(content: string): (r: string)
    ensures !Contains(content, ScriptKey) ==> r == content
    ensures |r| <= |content|
  {
    ScriptNeedsKey(content);
    SubAllShrinks(Matcher(HighlightScript), content);
    SubAllNoMatch(Matcher(HighlightScript), content, "");
    SubAll(Matcher(HighlightScript), content, "")
  }

  /** A script block whose first `highlightSyntax` comes after `a` and whose
      first `</script>` after the key comes after `b` is deleted together
      with both; `a` may hold other scripts and markup, which go too. */
  lemma RemoveHighlightScriptBlock(a: string, b: string, x: string)
    requires NoStartBefore(a + (ScriptKey + b + ScriptClose + x), ScriptKey, |a|)
    requires NoStartBefore(b + (ScriptClose + x), ScriptClose, |b|)
    ensures RemoveHighlightScript(ScriptOpen + a + ScriptKey + b + ScriptClose + x)
         == RemoveHighlightScript(x)
  {
    var block := ScriptOpen + a + ScriptKey + b + ScriptClose;
    ScriptMatchShape(a, b, x);
    MatcherScript(block + x);
    SubAllDeletesFront(Matcher(HighlightScript), block, x);
  }

  /** A page with an ordinary script before the highlighter's. */
  const TwoScriptPage: string :=
    ScriptOpen + "a()</script><p>kept</p><script>" + ScriptKey + "()" + ScriptClose

  /** The lazy match starts at the first `<script>`, so the ordinary
      script and the markup after it are deleted as well. */
  lemma RemoveHighlightScriptTakesEarlierScript()
    ensures RemoveHighlightScript(TwoScriptPage) == ""
  {
    var a := "a()</script><p>kept</p><script>";
    var b := "()";
    NoStartPlain(a, "", ScriptKey + b + ScriptClose, ScriptKey, 0);
    assert a + "" + (ScriptKey + b + ScriptClose) == a + (ScriptKey + b + ScriptClose + "");
    NoStartPlain(b, "", ScriptClose, ScriptClose, 0);
    assert b + "" + ScriptClose == b + (ScriptClose + "");
    RemoveHighlightScriptBlock(a, b, "");
    assert TwoScriptPage + "" == TwoScriptPage;
  }

  /** Where no `<script>` starts, no script match starts. */
  lemma NoScriptMatchBefore(t: string, i: nat)
    requires NoStartBefore(t, ScriptOpen, i)
    ensures forall j :: 0 <= j < i ==> Matcher(HighlightScript)(t[j..]) == 0
  {
    forall j | 0 <= j < i
      ensures Matcher(HighlightScript)(t[j..]) == 0
    {
      MatcherScript(t[j..]);
    }
  }

  /** The line break and `</body>` after the inserted script start no
      `<script>`. */
  lemma ScriptEndNoOpen(post: string)
    ensures NoStartBefore(AddSyntaxHighlighting.ScriptEnd + post, ScriptOpen, |AddSyntaxHighlighting.ScriptEnd|)
  {
    var e := AddSyntaxHighlighting.ScriptEnd;
    var s := e + post;
    assert e == "\n</body>";
    forall j | 0 <= j < |e|
      ensures !IsPrefix(ScriptOpen, s[j..])
    {
      assert s[j..][0] == e[j];
      if j == 1 {
        assert s[j..][1] == '/';
      }
    }
  }

  /** The script that add_syntax_highlighting.py puts before `</body>` is
      deleted whole when no `<script>` comes before it; its leading line
      break and indent and the line break before the tag stay. */
  lemma RemovesInsertedScript(pre: string, post: string)
    requires !Contains(pre, ScriptOpen)
    ensures RemoveHighlightScript(pre + AddSyntaxHighlighting.ScriptInsert + post)
         == pre + Indent + AddSyntaxHighlighting.ScriptEnd + RemoveHighlightScript(post)
  {
    var x := AddSyntaxHighlighting.ScriptEnd + post;
    HighlighterJs.JsHeaderNoStart(ScriptKey + HighlighterJs.JsBody + ScriptClose + x);
    HighlighterJs.JsBodyNoStart(ScriptClose + x);
    RemovesScriptBlock(pre, HighlighterJs.JsHeader, HighlighterJs.JsBody, post);
  }

  /** Removing the highlighter undoes inserting it: on a page with one
      `</body>`, no highlighter and no `<script>` before the tag, the script
      step of add_syntax_highlighting.py followed by that of this script
      gives back the page with only a line break and an indent more before
      the line break and tag the insertion added. */
  lemma RemoveUndoesAdd(content: string, pre: string, post: string)
    requires Split(content, AddSyntaxHighlighting.BodyClose) == [pre, post]
    requires !Contains(content, ScriptKey) && !Contains(pre, ScriptOpen)
    ensures content == pre + AddSyntaxHighlighting.BodyClose + post
    ensures RemoveHighlightScript(AddSyntaxHighlighting.AddHighlightScript(content))
         == pre + Indent + AddSyntaxHighlighting.ScriptEnd + post
  {
    AddSyntaxHighlighting.AddHighlightScriptOnce(content, pre, post);
    RemovesInsertedScript(pre, post);
  }

  /** The same for any script text of that shape: `a` up to the first
      `highlightSyntax`, `b` up to the first `</script>` after it. */
  lemma RemovesScriptBlock(pre: string, a: string, b: string, post: string)
    requires !Contains(pre, ScriptOpen)
    requires NoStartBefore(a + (ScriptKey + b + ScriptClose + (AddSyntaxHighlighting.ScriptEnd + post)), ScriptKey, |a|)
    requires NoStartBefore(b + (ScriptClose + (AddSyntaxHighlighting.ScriptEnd + post)), ScriptClose, |b|)
    ensures RemoveHighlightScript(pre + (Indent + ScriptOpen + a + ScriptKey + (b + ScriptClose) + AddSyntaxHighlighting.ScriptEnd) + post)
         == pre + Indent + AddSyntaxHighlighting.ScriptEnd + RemoveHighlightScript(post)
  {
    var m := Matcher(HighlightScript);
    var e := AddSyntaxHighlighting.ScriptEnd;
    var block := ScriptOpen + a + ScriptKey + b + ScriptClose;
    Regroup(pre, Indent, ScriptOpen, a, ScriptKey, b, ScriptClose, e, post);
    NoScriptMatchInFront(pre, block + (e + post));
    ScriptMatchShape(a, b, e + post);
    MatcherScript(block + (e + post));
    ScriptEndNoOpen(post);
    NoScriptMatchBefore(e + post, |e|);
    SubAllDeletesOne(m, pre + Indent, block, e, post);
    Regroup3(pre + Indent, e, SubAll(m, post, ""));
  }

  /** No script match starts in a text without `<script>` or in the indent
      after it. */
  lemma NoScriptMatchInFront(pre: string, y: string)
    requires !Contains(pre, ScriptOpen)
    ensures forall j :: 0 <= j < |pre + Indent| ==> Matcher(HighlightScript)(((pre + Indent) + y)[j..]) == 0
  {
    IndentNoOpen(y);
    NoStartAfterFree(pre, Indent + y, ScriptOpen, |Indent|);
    assert pre + (Indent + y) == (pre + Indent) + y;
    NoScriptMatchBefore((pre + Indent) + y, |pre + Indent|);
  }

  /** The kept text and the rest. */
  lemma Regroup3(p: string, e: string, s: string)
    ensures p + (e + s) == p + e + s
  {
  }

  /** The line break and indent before the inserted `<script>`. */
  const Indent: string := "\n    "

  /** The indent starts no `<script>`, and its first character is none of
      that tag's. */
  lemma IndentNoOpen(y: string)
    ensures NoStartBefore(Indent + y, ScriptOpen, |Indent|)
    ensures |Indent + y| > 0 && (Indent + y)[0] !in ScriptOpen
  {
    forall j | 0 <= j < |Indent|
      ensures !IsPrefix(ScriptOpen, (Indent + y)[j..])
    {
      assert (Indent + y)[j..][0] == Indent[j];
    }
  }

  /** The inserted text regrouped around the script block. */
  lemma Regroup(pre: string, i: string, o: string, a: string, k: string, b: string, c: string, e: string, post: string)
    ensures var t := pre + (i + o + a + k + (b + c) + e) + post;
      && t == (pre + i) + ((o + a + k + b + c) + (e + post))
      && t == pre + (i + ((o + a + k + b + c) + (e + post)))
  {
  }

  /** `.code-block \{[^}]*?\}`: a `.code-block` rule up to its first `}`. */
  const BlockHead: string := ".code-block {"
  const BlockRule: Pattern := Rule(BlockHead, "")

  /** The CSS step: if a `.code-block` rule is found, every such rule
      becomes `css`; the script passes `NewCss`. */
  function UpdateBlockCss(content: string, css: string): (r: string)
    ensures !Contains(content, BlockHead) ==> r == content
    ensures !Found(Matcher(BlockRule), content) ==> r == content
    ensures Found(Matcher(BlockRule), content) ==> Contains(r, css)
  {
    RuleNeedsHead(BlockHead, "", content);
    SubIfFound(BlockRule, content, css)
  }

  /** A `.code-block` rule at the front, whatever its body, is replaced
      whole, and substitution goes on after its closing brace. */
  lemma UpdateBlockCssReplacesRule(body: string, x: string, css: string)
    requires '}' !in body
    ensures UpdateBlockCss(BlockHead + body + "}" + x, css)
         == css + SubAll(Matcher(BlockRule), x, css)
  {
    var t := BlockHead + body + "}" + x;
    var n := |BlockHead| + |body| + 1;
    RuleShape(BlockHead, "", body, x);
    MatcherRule(BlockHead, "", t);
    SubIfFoundIsSubAll(BlockRule, t, css);
    assert t[n..] == x;
  }

  /** A rule for something inside a code block (`.code-block pre {`,
      `.code-block .keyword {`) is not a `.code-block` rule: its first
      character is kept and the search goes on from the next one. */
  lemma UpdateBlockCssKeepsNestedRule(sel: string, x: string, css: string)
    requires |sel| > 0 && sel[0] != '{'
    ensures var t := ".code-block " + sel + x;
      UpdateBlockCss(t, css) == "." + SubAll(Matcher(BlockRule), t[1..], css)
  {
    var t := ".code-block " + sel + x;
    NestedNotBlockRule(sel, x);
    SubIfFoundIsSubAll(BlockRule, t, css);
  }

  /** No `.code-block` rule starts where a nested selector does. */
  lemma NestedNotBlockRule(sel: string, x: string)
    requires |sel| > 0 && sel[0] != '{'
    ensures var t := ".code-block " + sel + x;
      Matcher(BlockRule)(t) == 0 && t[0] == '.'
  {
    var t := ".code-block " + sel + x;
    assert !IsPrefix(BlockHead, t) by {
      assert |BlockHead| == 13 && BlockHead[12] == '{';
      assert |t| >= 13 ==> t[..13][12] == sel[0];
    }
    MatcherRule(BlockHead, "", t);
  }

  /** The token classes whose `.code-block <class> { … }` rules are removed,
      in the order they are removed. */
  const SyntaxClasses: seq<string> :=
    [".keyword", ".string", ".comment", ".number", ".function", ".variable",
     ".type", ".operator", ".punctuation"]

  /** The head of the rule for one token class. */
  function ClassHead(cls: string): string {
    ".code-block " + cls + " {"
  }

  /** Delete every rule for token class `cls`: its head, then the shortest
      run of non-`}` characters up to the closing `}`. */
  function RemoveClassRules(content: string, cls: string): (r: string)
    ensures !Contains(content, ClassHead(cls)) ==> r == content
    ensures |r| <= |content|
  {
    var m := Matcher(Rule(ClassHead(cls), ""));
    RuleNeedsHead(ClassHead(cls), "", content);
    SubAllShrinks(m, content);
    SubAllNoMatch(m, content, "");
    SubAll(m, content, "")
  }

  /** A rule for the class at the front is deleted whole. */
  lemma RemoveClassRuleAt(cls: string, body: string, x: string)
    requires '}' !in cls && '}' !in body
    ensures RemoveClassRules(ClassHead(cls) + body + "}" + x, cls) == RemoveClassRules(x, cls)
  {
    var head := ClassHead(cls);
    assert '}' !in head;
    var t := head + body + "}" + x;
    var n := |head| + |body| + 1;
    RuleShape(head, "", body, x);
    MatcherRule(head, "", t);
    assert t[n..] == x;
  }

  /** Class names without spaces have rule heads that are not prefixes of
      one another, so removing one class's rules never matches the head of
      another class's rule. */
  lemma ClassHeadsDistinct(c: string, d: string, rest: string)
    ensures IsPrefix(ClassHead(c), ClassHead(d) + rest) ==> c == d || ' ' in c || ' ' in d
  {
    var u := ClassHead(c);
    var v := ClassHead(d) + rest;
    if IsPrefix(u, v) && ' ' !in c && ' ' !in d {
      assert forall i :: 0 <= i < |u| ==> u[i] == v[i];
      assert forall i :: 0 <= i < |c| ==> u[12 + i] == c[i] && c[i] != ' ';
      assert forall i :: 0 <= i < |d| ==> v[12 + i] == d[i] && d[i] != ' ';
      assert u[12 + |c|] == ' ' && v[12 + |d|] == ' ';
      assert |c| == |d|;
      assert c == d;
    }
  }

  /** A rule for another class is no match for the class being removed. */
  lemma OtherClassRuleKept(c: string, d: string, rest: string)
    requires c != d && ' ' !in c && ' ' !in d
    ensures Matcher(Rule(ClassHead(c), ""))(ClassHead(d) + rest) == 0
  {
    ClassHeadsDistinct(c, d, rest);
    MatcherRule(ClassHead(c), "", ClassHead(d) + rest);
  }

  /** The classes' rules removed one class after another. */
  function RemoveClasses(content: string, classes: seq<string>): string
    decreases |classes|
  {
    if |classes| == 0 then content
    else RemoveClassRules(RemoveClasses(content, classes[..|classes| - 1]), classes[|classes| - 1])
  }

  /** The loop over the token classes. */
  method RemoveOrphanClasses(content: string, classes: seq<string>) returns (r: string)
    ensures r == RemoveClasses(content, classes)
  {
    r := content;
    for i := 0 to |classes|
      invariant r == RemoveClasses(content, classes[..i])
    {
      assert classes[..i + 1][..i] == classes[..i];
      r := RemoveClassRules(r, classes[i]);
    }
    assert classes[..|classes|] == classes;
  }

  /** A page with no rule for any of the classes is left as it was. */
  lemma {:induction false} RemoveClassesUnchanged(content: string, classes: seq<string>)
    requires forall k :: 0 <= k < |classes| ==> !Contains(content, ClassHead(classes[k]))
    ensures RemoveClasses(content, classes) == content
    decreases |classes|
  {
    if |classes| > 0 {
      RemoveClassesUnchanged(content, classes[..|classes| - 1]);
    }
  }

  /** Removing the classes' rules never lengthens the page. */
  lemma {:induction false} RemoveClassesShrinks(content: string, classes: seq<string>)
    ensures |RemoveClasses(content, classes)| <= |content|
    decreases |classes|
  {
    if |classes| > 0 {
      RemoveClassesShrinks(content, classes[..|classes| - 1]);
    }
  }

  /** The leftover comment that is deleted. */
  const JsComment: string := "    <!-- No JavaScript needed for now -->"

  /** The comment step: `content.replace(JsComment, '')`. */
  function RemoveJsComment(content: string): (r: string)
    ensures !Contains(content, JsComment) ==> r == content
  {
    Replace(content, JsComment, "")
  }

  /** The result is the pieces between the comments, run together. */
  lemma RemoveJsCommentPieces(content: string)
    ensures var parts := Split(content, JsComment);
      && content == Join(parts, JsComment)
      && RemoveJsComment(content) == Join(parts, "")
      && forall k :: 0 <= k < |parts| ==> !Contains(parts[k], JsComment)
  {
    ReplacePieces(content, JsComment, "");
  }

  /** What the script makes of one page, `css` standing for `NewCss`: a
      page that already links the font and has no highlighter, no
      `.code-block ` rule and no leftover comment comes back unchanged. */
  function StyledDocument(content: string, css: string): (r: string)
    ensures Settled(content) ==> r == content
  {
    var fonts := AddFiraCode(content);
    var scriptless := RemoveHighlightScript(fonts);
    var styled := UpdateBlockCss(scriptless, css);
    SettledPassesRules(content);
    RemoveJsComment(RemoveClasses(styled, SyntaxClasses))
  }

  /** A settled page holds no `.code-block` rule and no class rule. */
  lemma SettledPassesRules(content: string)
    ensures Settled(content) ==> !Contains(content, BlockHead)
    ensures Settled(content) ==> RemoveClasses(content, SyntaxClasses) == content
  {
    if Settled(content) {
      NoBlockRules(content, SyntaxClasses);
      RemoveClassesUnchanged(content, SyntaxClasses);
    }
  }

  /** `update_code_block_styling` on the text of one page. */
  method UpdateCodeBlockStyling(content: string) returns (r: string)
    ensures r == StyledDocument(content, NewCss)
  {
    r := AddFiraCode(content);
    r := RemoveHighlightScript(r);
    r := UpdateBlockCss(r, NewCss);
    r := RemoveOrphanClasses(r, SyntaxClasses);
    r := RemoveJsComment(r);
  }

  /** A page that links the font and has no highlighter, no `.code-block `
      rule and no leftover comment. */
  predicate Settled(content: string) {
    && Contains(content, FontMarker) && !Contains(content, ScriptKey)
    && !Contains(content, ".code-block ") && !Contains(content, JsComment)
  }

  /** A page without `.code-block ` holds no `.code-block` rule head and
      no class rule head. */
  lemma NoBlockRules(content: string, classes: seq<string>)
    requires !Contains(content, ".code-block ")
    ensures !Contains(content, BlockHead)
    ensures forall k :: 0 <= k < |classes| ==> !Contains(content, ClassHead(classes[k]))
  {
    if Contains(content, BlockHead) {
      ContainsPrefixOf(content, ".code-block ", "{");
    }
    forall k | 0 <= k < |classes|
      ensures !Contains(content, ClassHead(classes[k]))
    {
      if Contains(content, ClassHead(classes[k])) {
        ContainsPrefixOf(content, ".code-block ", classes[k] + " {");
      }
    }
  }
}
