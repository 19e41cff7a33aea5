# Documentation rewriting scripts, modelled in Dafny

This project models three one-shot scripts. Each one rewrites the static HTML
pages of a developer documentation site. The model works on a page's text only.

- `fix_code_blocks.py` normalises code samples. It splits a page into lines
  and walks them once with a two-state scanner. The scanner is either outside
  a region or inside a `<div class="code-block">` region, whose body lines it
  buffers. At the region's `</div>` it emits either one synthesised
  `<pre><code>…</code></pre>` line or the buffered lines unchanged. The
  lines are then joined again. The model is the loop itself (method
  `FixCodeBlocks.FixCodeBlocks`), proved equal to a specification function
  (`FixCodeBlocks.FixedDocument`). The properties are proved as lemmas about
  that function.
- `add_syntax_highlighting.py` makes three guarded rewrites of a page:
  - it adds a Fira Code font link after the Titillium Web link, unless the
    page already mentions `Fira+Code`;
  - it replaces every black `.code-block { … }` rule with a dark theme;
  - it puts the highlighter script before `</body>`, unless the page already
    mentions `highlightSyntax`.
- `update_code_styling.py` changes a page in five steps:
  - the same font step;
  - it deletes the highlighter script;
  - it replaces every `.code-block { … }` rule;
  - it deletes the rules of nine token classes, one class after another;
  - it deletes a leftover HTML comment.

Python's `x in s`, `str.replace`, `str.split`, `str.join` and `str.strip`
are written out in module `Text`. The scripts' four regular expressions are
hand-written scanners in module `Patterns`. `re.sub` is modelled as
left-to-right, non-overlapping replacement: where no match starts, one
character is copied. A pattern `head[^}]*need[^}]*\}` has a match at some
offset exactly when the text at that offset starts with `head` and the text
up to the next `}` holds `need`. The lazy `head[^}]*?\}` is the same pattern
with an empty `need`. The lazy `<script>.*?highlightSyntax.*?</script>` runs
from a `<script>` through the first `highlightSyntax` after it, and then to
the first `</script>` after that.

The scripts' own comments promise more than their code does. The model
follows the code:

- fix_code_blocks.py:7 says the script gives code blocks "proper pre/code
  tags". The start-marker test comes first, though, and ignores whether a
  region is already open. A second start marker therefore resets the indent
  and keeps the lines buffered so far (`FixCodeBlocks.ReopenedRegion`). A
  line that holds both the start marker and `</div>` opens a region.
- The comment at fix_code_blocks.py:28 speaks of a body that already has
  "pre/code tags". The test at line 30 counts a body as formatted when it
  holds *either* `<pre>` or `<code>`, not both.
- The comment at fix_code_blocks.py:34 says a formatted or empty body is kept
  as it is. That holds only for a region that is closed. If a page ends
  inside an open region, the buffered body lines are *dropped*. Nothing
  flushes the buffer after the loop (`FixCodeBlocks.UnterminatedRegionDropped`).
- The comment at update_code_styling.py:20 speaks of removing the
  highlighting script. The lazy pattern begins at the *first* `<script>`,
  though. So an ordinary script before the highlighter's is deleted together
  with it, and so is the markup between the two
  (`UpdateCodeStyling.RemoveHighlightScriptTakesEarlierScript`).

Some functions only compute and carry no contract of their own. Their
properties are stated by the lemmas and methods in the table:

- `FixCodeBlocks.Step` is one pass of the loop body (fix_code_blocks.py:21-43).
- `FixCodeBlocks.RunFrom` is the loop (fix_code_blocks.py:20-43).
- `FixCodeBlocks.Normalise` is the list `new_lines` (fix_code_blocks.py:15-43).
- `FixCodeBlocks.FixedDocument` is split, loop and join (fix_code_blocks.py:14-47).
- `Text.Join` is `str.join`, and `Text.Strip` is `str.strip`.
- `Patterns.Found` is `re.search`, and `Patterns.SubAll` is `re.sub`.
- `UpdateCodeStyling.RemoveClasses` is the loop over the token classes
  (update_code_styling.py:71-74).

## Model

| member | source | states |
|---|---|---|
| FixCodeBlocks.FixCodeBlocks | fix_code_blocks.py:14-47 | The loop's result is the specification `FixedDocument` of the page, a page without the start marker is returned unchanged, and the result is a fixed point of the transform |
| FixCodeBlocks.FixedDocumentIdempotent | fix_code_blocks.py:14-47 | Running the transform on its own output changes nothing |
| FixCodeBlocks.IndentOf | fix_code_blocks.py:23 | The indent is a prefix of the line, is followed on the line by `<div`, and holds no earlier `<div` |
| FixCodeBlocks.StartMarkerHasDiv | fix_code_blocks.py:21-23 | A start-marker line holds `<div`, so `line.index('<div')` cannot fail |
| FixCodeBlocks.Flush | fix_code_blocks.py:29-35 | Closing a region emits the body verbatim or exactly one line, and never more lines than the body had |
| FixCodeBlocks.RunFromAppend | fix_code_blocks.py:20 | Walking two runs of lines one after the other is walking their concatenation |
| FixCodeBlocks.RunRelated | fix_code_blocks.py:20-43 | Two scanners that differ only in what they have already emitted go on to emit the same lines |
| FixCodeBlocks.RunFromBounds | fix_code_blocks.py:20-43 | The buffer is empty whenever the scanner is outside a region, and emitted plus buffered lines never outnumber the lines read |
| FixCodeBlocks.RunOutsideText | fix_code_blocks.py:42-43 | Outside a region, lines without a start marker are emitted unchanged and in order |
| FixCodeBlocks.RunInsideBody | fix_code_blocks.py:39-40 | Inside a region, lines that are neither start nor end lines are only buffered |
| FixCodeBlocks.RunAfterClosed | fix_code_blocks.py:20-43 | After a prefix that leaves the scanner outside, the rest is transformed on its own, and its output follows the prefix's output |
| FixCodeBlocks.NormaliseNoMarker | fix_code_blocks.py:21-43 | Lines without the start marker come out unchanged, and the scanner ends outside |
| FixCodeBlocks.OutsidePassthrough | fix_code_blocks.py:26-43 | Outside a region every non-start line is emitted unchanged and in order, a `</div>` line included |
| FixCodeBlocks.OpenRegion | fix_code_blocks.py:21-25 | From any state, a start line is emitted verbatim, opens a region, sets the indent from the line and keeps the buffer |
| FixCodeBlocks.CloseRegion | fix_code_blocks.py:26-37 | The `</div>` after an open region flushes the whole buffer before the end line, and leaves the scanner outside with an empty buffer |
| FixCodeBlocks.ClosedRegion | fix_code_blocks.py:21-37 | A closed region becomes its start line, the flushed body and its end line, the scanner is outside afterwards, and the rest is transformed independently |
| FixCodeBlocks.ReopenedRegion | fix_code_blocks.py:21-25 | A second start marker inside a region keeps the earlier body, and both bodies are flushed together under the second marker's indent |
| FixCodeBlocks.ReopenedRun | fix_code_blocks.py:21-37 | The exact scanner state after a region that was opened twice and then closed |
| FixCodeBlocks.UnterminatedRegionDropped | fix_code_blocks.py:20-47 | Body lines after the last start marker with no later `</div>` do not reach the output, and the scanner ends inside a region |
| FixCodeBlocks.NormaliseLength | fix_code_blocks.py:20-43 | `new_lines` never has more elements than the page has lines |
| FixCodeBlocks.FixedDocumentNoMarker | fix_code_blocks.py:14-47 | A page without the start marker is returned exactly as it was |
| FixCodeBlocks.FixedDocumentFormatted | fix_code_blocks.py:28-35 | A page made of prose and closed regions whose bodies are already formatted or blank is returned exactly as it was |
| FixCodeBlocks.NormaliseFormatted | fix_code_blocks.py:20-43 | Lines made of such blocks come out unchanged, and every region in them is closed |
| FixCodeBlocks.FormattedBlockKept | fix_code_blocks.py:21-43 | After closed lines that came out unchanged, one more formatted block comes out unchanged and leaves every region closed |
| FixCodeBlocks.MirrorRun | fix_code_blocks.py:14-43 | A second run over the first run's re-split output is, line for line, in the same region state, and has emitted the re-split of what the first run emitted |
| FixCodeBlocks.MirrorStep | fix_code_blocks.py:21-43 | One line read by the first run keeps the second run in step with it |
| FixCodeBlocks.Wrapped | fix_code_blocks.py:32 | The synthesised line holds `<pre>`, so a second run keeps it verbatim |
| FixCodeBlocks.WrappedSplit | fix_code_blocks.py:32 | Split on line breaks, a synthesised line gives back the body's lines, the first after the indent and the opening tags, the last before the closing tags |
| FixCodeBlocks.WrappedPieces | fix_code_blocks.py:21-32 | No piece of a synthesised line holds the start marker, and only the first piece, through the indent, can hold `</div>` |
| FixCodeBlocks.WrappedCloses | fix_code_blocks.py:26-43 | When the indent holds `</div>`, a second run closes the region at the first piece and passes the other pieces through |
| FixCodeBlocks.CloseVerbatim | fix_code_blocks.py:29-37 | A body kept verbatim is buffered again and kept again by a second run |
| Text.Split | fix_code_blocks.py:14 | Split gives at least one piece, exactly one when the separator is absent, and no piece holds the separator |
| Text.JoinSplit | fix_code_blocks.py:14-47 | Joining the pieces of a split with the same separator gives back the text |
| Text.SplitJoin | fix_code_blocks.py:14-47 | Splitting a join of line break-free lines on the line break gives the lines back |
| Text.SplitAround | fix_code_blocks.py:14 | The split of `a + sep + b` on a one-character separator is the split of `a` followed by the split of `b` |
| Text.SplitEach | fix_code_blocks.py:14 | Splitting every line again changes nothing when no line holds the separator |
| Text.SplitEachAppend | fix_code_blocks.py:14 | Splitting the lines of two lists in turn is splitting the lines of their concatenation |
| Text.ContainsIff | fix_code_blocks.py:21 | Python's `p in s` holds exactly when `p` starts at some offset of `s` |
| Text.IndexOf | fix_code_blocks.py:23 | `s.index(p)` is an offset where `p` starts, and no earlier offset has `p` |
| Text.StripEmpty | fix_code_blocks.py:30 | `s.strip()` is empty exactly when every character of `s` is white space |
| Text.TrimEndEmpty | fix_code_blocks.py:30 | Trimming the end leaves nothing exactly when all characters are white space |
| Text.TrimStartSpaces | fix_code_blocks.py:30 | After trimming the start, only white space is left exactly when only white space was there |
| Text.Replace | add_syntax_highlighting.py:15-18 | `str.replace` leaves a text without the pattern unchanged |
| Text.ReplacePieces | add_syntax_highlighting.py:135 | The text is its pattern-free pieces joined with the pattern, and the result is the same pieces joined with the replacement |
| Text.ReplaceInserts | add_syntax_highlighting.py:135 | When the pattern occurs, whatever the replacement holds occurs in the result |
| FontLink.AddFiraCode | add_syntax_highlighting.py:14-18 | A page mentioning `Fira+Code` is unchanged, a page without the anchor is unchanged, and otherwise the result mentions `Fira+Code` |
| FontLink.FiraLinkHasMarker | add_syntax_highlighting.py:17 | The anchor followed by the new link mentions `Fira+Code` |
| FontLink.AddFiraCodeInsertsAfterAnchors | update_code_styling.py:14-18 | The page is its pieces between Titillium anchors, and the result is those pieces with the Fira Code link after every anchor |
| FontLink.AddFiraCodeIdempotent | add_syntax_highlighting.py:14-18 | Running the font step a second time changes nothing |
| Patterns.RuleMatchLen | add_syntax_highlighting.py:21 | The scanner's match is a real match, head, brace-free body holding the needed text, then `}`, and it is the only one at that offset |
| Patterns.LazyMatchLen | update_code_styling.py:21 | The lazy `o.*?key.*?c` scanner returns a length exactly when there is a match that takes the first key after `o` and the first `c` after that key, and the length ends at that `c` |
| Patterns.LazyMatchNoClose | update_code_styling.py:21 | Without a `c` after the first key there is no lazy match at all, not even with a later key |
| Patterns.LazyMatchUnique | update_code_styling.py:21 | A lazy match fixes its key and its closing `c` |
| Patterns.MatchLen | update_code_styling.py:21-73 | A match never claims more text than it is given |
| Patterns.BraceIndex | add_syntax_highlighting.py:21 | The offset found holds `}` and no earlier offset does |
| Patterns.ScriptMatchLen | update_code_styling.py:21 | There is a script match exactly when, after a leading `<script>`, there is a `highlightSyntax` and a `</script>` after its first one; the match ends at the first `</script>` after the first key |
| Patterns.FoundIff | add_syntax_highlighting.py:22 | `re.search` succeeds exactly when a match starts at some offset |
| Patterns.FirstMatch | add_syntax_highlighting.py:88 | The first replacement is at a match, and no match starts before it |
| Patterns.SubAllNoMatch | update_code_styling.py:67-68 | Without a match, substitution changes nothing |
| Patterns.SubAllFirst | add_syntax_highlighting.py:88 | The text before the leftmost match is kept, the match is replaced, and substitution goes on after the match |
| Patterns.SubAllInserts | add_syntax_highlighting.py:88 | Once there is a match, the replacement occurs in the result |
| Patterns.SubAllClears | add_syntax_highlighting.py:88 | After every rule match is replaced by an inert replacement, no match is left anywhere |
| Patterns.SubAllDeletesFirst | update_code_styling.py:21 | Text before the first match is kept, the match goes, and deletion goes on after it |
| Patterns.SubAllKeepsPrefix | add_syntax_highlighting.py:88 | A prefix where no match starts is kept as it is, and substitution goes on after it |
| Patterns.SubIfFound | update_code_styling.py:67-68 | The guarded substitution leaves a text without a match unchanged, and otherwise the result holds the replacement |
| Patterns.SubIfFoundIsSubAll | update_code_styling.py:67-68 | The `re.search` guard changes nothing: the guarded substitution equals plain substitution |
| Patterns.SubIfFoundClears | add_syntax_highlighting.py:88 | The guarded substitution with an inert replacement leaves no match |
| Patterns.RuleNeedsHead | add_syntax_highlighting.py:21-22 | A rule is found only in a text that holds its head |
| Patterns.RuleShape | add_syntax_highlighting.py:21 | On head, brace-free body, `}`, rest: the match covers everything up to that brace when the body holds the needed text, and is absent otherwise |
| Patterns.RuleMatchLenExtend | add_syntax_highlighting.py:21 | A rule match cannot see past the first `}` after its head |
| Patterns.ScriptMatchShape | update_code_styling.py:21 | The match runs from `<script>` through the first key to the first `</script>` after the key |
| Patterns.ScriptMatchHasKey | update_code_styling.py:21 | Every script match holds `highlightSyntax` |
| Patterns.ScriptNeedsKey | update_code_styling.py:21 | A script match is found only in a text that mentions `highlightSyntax` |
| Patterns.SubAllShrinks | update_code_styling.py:21 | Deleting matches never lengthens the text |
| AddSyntaxHighlighting.UpdateCss | add_syntax_highlighting.py:21-88 | Without `.code-block {`, or without a black rule, the page is unchanged; when a black rule is found, the new style sheet is in the result |
| AddSyntaxHighlighting.UpdateCssReplacesBlackRule | add_syntax_highlighting.py:88 | A black `.code-block { … }` rule is replaced whole by the new style sheet, and substitution goes on after its `}` |
| AddSyntaxHighlighting.UpdateCssKeepsOtherRule | add_syntax_highlighting.py:21 | A `.code-block { … }` rule without `background: #000;` is not replaced: its first character is kept and the search goes on |
| AddSyntaxHighlighting.UpdateCssClears | add_syntax_highlighting.py:21-88 | With a replacement that can take no part in a match, no black rule is left after the CSS step |
| AddSyntaxHighlighting.UpdateCssLeavesNoBlackRule | add_syntax_highlighting.py:21-88 | After the CSS step with the new style sheet, no black `.code-block { … }` rule is left anywhere on the page |
| AddSyntaxHighlighting.HighlightCssInert | add_syntax_highlighting.py:23-86 | The new style sheet ends with `}`, no match starts in it, and no tail of `.code-block {` begins it |
| AddSyntaxHighlighting.SheetInert | add_syntax_highlighting.py:23-86 | A sheet laid out as the new one, whose only `.code-block {` rule lacks the black background, can take no part in a match |
| AddSyntaxHighlighting.FirstRuleBodyClean | add_syntax_highlighting.py:23-33 | The first rule of the new sheet has no `}` and no black background |
| AddSyntaxHighlighting.AddHighlightScript | add_syntax_highlighting.py:91-135 | A page mentioning `highlightSyntax` is unchanged, a page without `</body>` is unchanged, and otherwise the result mentions `highlightSyntax` |
| AddSyntaxHighlighting.AddHighlightScriptBeforeBodyClose | add_syntax_highlighting.py:135 | The page is its pieces between `</body>` tags, and the result is those pieces with the script and a line break before every tag |
| AddSyntaxHighlighting.AddHighlightScriptOnce | add_syntax_highlighting.py:91-135 | On a page with one `</body>` and no highlighter, the script goes in once, just before that tag |
| AddSyntaxHighlighting.AddHighlightScriptIdempotent | add_syntax_highlighting.py:91-135 | Running the script step a second time changes nothing |
| AddSyntaxHighlighting.AddSyntaxHighlighting | add_syntax_highlighting.py:13-135 | A page that already has `Fira+Code` and `highlightSyntax`, and no black rule, is returned unchanged |
| UpdateCodeStyling.RemoveHighlightScript | update_code_styling.py:21 | A page without `highlightSyntax` is unchanged, and the result is never longer than the page |
| UpdateCodeStyling.RemoveHighlightScriptBlock | update_code_styling.py:21 | A `<script>` block through the first key and the first `</script>` after it is deleted whole, and deletion goes on after it |
| UpdateCodeStyling.RemoveHighlightScriptTakesEarlierScript | update_code_styling.py:21 | On a page with an ordinary script before the highlighter's, both scripts and the markup between them are deleted |
| UpdateCodeStyling.RemovesInsertedScript | update_code_styling.py:21 | The script inserted by add_syntax_highlighting.py is deleted whole when no `<script>` comes before it; the line breaks and the indent around it stay |
| UpdateCodeStyling.RemoveUndoesAdd | add_syntax_highlighting.py:91-135 | On a page with one `</body>`, no highlighter and no earlier `<script>`, the other script's insertion followed by this deletion gives back the page with a line break, an indent and a second line break before `</body>` |
| UpdateCodeStyling.UpdateBlockCss | update_code_styling.py:24-68 | Without `.code-block {`, or with no `.code-block` rule found, the page is unchanged; when a rule is found the new style sheet is in the result |
| UpdateCodeStyling.UpdateBlockCssReplacesRule | update_code_styling.py:67-68 | A `.code-block { … }` rule is replaced whole up to its first `}`, whatever its body holds |
| UpdateCodeStyling.UpdateBlockCssKeepsNestedRule | update_code_styling.py:24 | A rule such as `.code-block pre {` is not matched: its first character is kept and the search goes on |
| UpdateCodeStyling.NestedNotBlockRule | update_code_styling.py:24 | No `.code-block {` match starts at a nested selector |
| UpdateCodeStyling.RemoveClassRules | update_code_styling.py:73-74 | A page without the class's rule head is unchanged, and deleting the class's rules never lengthens it |
| UpdateCodeStyling.RemoveClassRuleAt | update_code_styling.py:73-74 | A rule for the class is deleted whole up to its first `}`, and deletion goes on after it |
| UpdateCodeStyling.ClassHeadsDistinct | update_code_styling.py:71-73 | Class names without spaces have rule heads that are not prefixes of one another |
| UpdateCodeStyling.OtherClassRuleKept | update_code_styling.py:73-74 | A rule for another class is no match for the class being deleted |
| UpdateCodeStyling.RemoveOrphanClasses | update_code_styling.py:71-74 | The loop deletes the classes' rules one class after another, in list order |
| UpdateCodeStyling.RemoveClassesUnchanged | update_code_styling.py:71-74 | A page with no rule head for any listed class is unchanged |
| UpdateCodeStyling.RemoveClassesShrinks | update_code_styling.py:71-74 | Deleting the classes' rules never lengthens the page |
| UpdateCodeStyling.RemoveJsComment | update_code_styling.py:77 | A page without the leftover comment is unchanged |
| UpdateCodeStyling.RemoveJsCommentPieces | update_code_styling.py:77 | The page is its comment-free pieces joined with the comment, and the result is those pieces run together |
| UpdateCodeStyling.UpdateCodeBlockStyling | update_code_styling.py:13-77 | The steps run in the script's order: font, script deletion, rule replacement, class deletion, comment deletion |
| UpdateCodeStyling.StyledDocument | update_code_styling.py:13-77 | A page with the font link and no highlighter, no `.code-block ` rule and no leftover comment is unchanged |
| UpdateCodeStyling.SettledPassesRules | update_code_styling.py:24-74 | Such a page holds no `.code-block {` rule, and deleting the class rules leaves it as it was |
| UpdateCodeStyling.NoBlockRules | update_code_styling.py:73 | A page without `.code-block ` has no block rule head and no class rule head |
| Drivers.SelectDocs | add_syntax_highlighting.py:145 | A path is selected exactly when it is listed and does not mention `backup`, and there are never more selected paths than listed ones |
| Drivers.SelectDocsAppend | update_code_styling.py:87 | Selection keeps the listing's order: selecting from two listings in turn is selecting from their concatenation |

## Left out

- Reading and writing the page files, and the console messages, are not modelled (fix_code_blocks.py:10-11, 46-49 and the matching lines of the other two scripts). Every transform is modelled as a function from text to text.
- The `glob.glob` directory listing is not modelled, because it depends on the file system. The `backup` filter is modelled over a given sequence of paths. fix_code_blocks.py's own `__main__` block has no filter, so there is nothing of it to model.
- The CSS style sheets and the JavaScript highlighter are browser payloads and are never run. They are kept as constant strings, copied from the scripts. Only the facts the properties need are proved about them: which marker each holds, where it ends, and how it begins.
- A general Python `re` engine is not modelled. Only the four patterns the scripts use are modelled, as scanners. `re.sub` does not expand templates in the replacement, because the CSS replacements hold no backslash.
- UpdateCodeStyling.RemoveClassRules: rules of other classes are proved not to match at their own head (`OtherClassRuleKept`). The model does not prove that no match of the deleted class can arise elsewhere after deletion: deleting a rule can join the text around it into a new match, which the single `re.sub` pass does not revisit.
- AddSyntaxHighlighting.AddSyntaxHighlighting: the whole transform is not idempotent, and the model does not claim it. On the page `.code-block { background: #000;</body>` the first run finds no black rule, since no `}` follows, and puts the script before `</body>`. On a second run the black rule's `[^}]*` runs into the script, up to the first `}` in it (the one in `${keyword}`, add_syntax_highlighting.py:111), and that whole stretch is replaced by the style sheet. This example is not proved in the model. What is proved: the font step and the script step are each idempotent, and no black rule is left right after the CSS step (`UpdateCssLeavesNoBlackRule`).
- UpdateCodeStyling.UpdateCodeBlockStyling: the method's contract is equality with the specification function `StyledDocument`. The unchanged-page property is stated once, on that function. The steps' properties are proved as lemmas about each step.
