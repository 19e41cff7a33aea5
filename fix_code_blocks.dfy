/** The code-block normaliser of fix_code_blocks.py: the document is split on
    '\n', the lines are walked once by a two-state scanner (outside / inside a
    `<div class="code-block">` region) that buffers a region's body, and at the
    region's `</div>` either one synthesised `<pre><code>…</code></pre>` line or
    the buffered lines are emitted; the lines are then joined with '\n'. */
module FixCodeBlocks {
  import opened Text

  const StartMarker: string := "<div class=\"code-block\">"
  const EndMarker: string := "</div>"
  const DivTag: string := "<div"
  /** The fixed run of 24 spaces put between the region's indent and the tags. */
  const WrapIndent: string := "                        "
  const OpenTags: string := "<pre><code>"
  const CloseTags: string := "</code></pre>"

  /** The loop's variables: `in_code_block`, `indent`, `code_content`, `new_lines`. */
  datatype Scanner = Scanner(inCodeBlock: bool, indent: string, codeContent: seq<string>, newLines: seq<string>)

  const Initial: Scanner := Scanner(false, "", [], [])

  /** Outside every region, with nothing buffered. */
  predicate Outside(st: Scanner) {
    !st.inCodeBlock && st.codeContent == []
  }

  lemma StartMarkerHasDiv(line: string)
    requires Contains(line, StartMarker)
    ensures Contains(line, DivTag)
  {
    assert IsPrefix(DivTag, StartMarker);
    ContainsTrans(line, StartMarker, DivTag);
  }

  /** `line[:line.index('<div')]`: everything before the first `<div` on a start-marker line. */
  function IndentOf(line: string): (indent: string)
    requires Contains(line, StartMarker)
    ensures IsPrefix(indent, line) && IsPrefix(DivTag, line[|indent|..])
    ensures !Contains(indent, DivTag)
  {
    StartMarkerHasDiv(line);
    var i := IndexOf(line, DivTag);
    NoEarlyOccurrence(line, DivTag, i);
    line[..i]
  }

  /** The body still needs its tags: neither `<pre>` nor `<code>` occurs in it and
      it has a character that is not white space. */
  predicate NeedsWrap(codeText: string) {
    !Contains(codeText, "<pre>") && !Contains(codeText, "<code>") && Strip(codeText) != ""
  }

  /** What a closed region's body becomes: one synthesised line, or the body verbatim. */
  function Flush(indent: string, body: seq<string>): (emitted: seq<string>)
    ensures |emitted| <= |body|
    ensures emitted == body || |emitted| == 1
  {
    var codeText := Join(body, "\n");
    if NeedsWrap(codeText) then
      assert body != [] by {
        if body == [] { StripEmpty(codeText); }
      }
      [Wrapped(indent, body)]
    else
      body
  }

  /** One iteration of the loop over the lines. The start test comes first and
      does not look at `inCodeBlock`; the end test needs both `</div>` and an open region. */
  function Step(st: Scanner, line: string): Scanner {
    if Contains(line, StartMarker) then
      Scanner(true, IndentOf(line), st.codeContent, st.newLines + [line])
    else if Contains(line, EndMarker) && st.inCodeBlock then
      Scanner(false, st.indent, [], st.newLines + Flush(st.indent, st.codeContent) + [line])
    else if st.inCodeBlock then
      st.(codeContent := st.codeContent + [line])
    else
      st.(newLines := st.newLines + [line])
  }

  /** The scanner after walking `lines` from `st`. */
  function RunFrom(st: Scanner, lines: seq<string>): Scanner
    decreases |lines|
  {
    if lines == [] then st
    else Step(RunFrom(st, lines[..|lines| - 1]), lines[|lines| - 1])
  }

  /** `new_lines` at the end of the loop. Nothing flushes a region still open at the end. */
  function Normalise(lines: seq<string>): seq<string> {
    RunFrom(Initial, lines).newLines
  }

  /** The document after the transform: split, normalise, join. */
  function FixedDocument(content: string): string {
    Join(Normalise(Split(content, "\n")), "\n")
  }

  /** The lines leave the scanner outside every region. */
  predicate Closed(lines: seq<string>) {
    Outside(RunFrom(Initial, lines))
  }

  /** A line that is neither a start marker nor a `</div>` line. */
  predicate Plain(line: string) {
    !Contains(line, StartMarker) && !Contains(line, EndMarker)
  }

  lemma {:induction false} RunFromAppend(st: Scanner, a: seq<string>, b: seq<string>)
    ensures RunFrom(st, a + b) == RunFrom(RunFrom(st, a), b)
    decreases |b|
  {
    if b == [] {
      assert a + b == a;
    } else {
      var b' := b[..|b| - 1];
      assert (a + b)[..|a + b| - 1] == a + b';
      assert (a + b)[|a + b| - 1] == b[|b| - 1];
      RunFromAppend(st, a, b');
    }
  }

  /** `a` is `b` with `out` emitted in front, in the same region state; the indent
      only has to agree inside a region, since a start marker always resets it. */
  predicate Related(a: Scanner, b: Scanner, out: seq<string>) {
    && a.newLines == out + b.newLines
    && a.inCodeBlock == b.inCodeBlock
    && a.codeContent == b.codeContent
    && (a.inCodeBlock ==> a.indent == b.indent)
  }

  lemma {:induction false} RunRelated(a: Scanner, b: Scanner, out: seq<string>, lines: seq<string>)
    requires Related(a, b, out)
    ensures Related(RunFrom(a, lines), RunFrom(b, lines), out)
    decreases |lines|
  {
    if lines != [] {
      RunRelated(a, b, out, lines[..|lines| - 1]);
    }
  }

  /** Every state reached keeps the buffer empty while outside a region, and
      leaves at most as many lines as it has read. */
  lemma {:induction false} RunFromBounds(st: Scanner, lines: seq<string>)
    requires !st.inCodeBlock ==> st.codeContent == []
    ensures var r := RunFrom(st, lines);
      && (!r.inCodeBlock ==> r.codeContent == [])
      && |r.newLines| + |r.codeContent| <= |st.newLines| + |st.codeContent| + |lines|
    decreases |lines|
  {
    if lines != [] {
      RunFromBounds(st, lines[..|lines| - 1]);
    }
  }

  /** Lines without a start marker, read outside a region, are emitted verbatim. */
  lemma {:induction false} RunOutsideText(st: Scanner, xs: seq<string>)
    requires !st.inCodeBlock
    requires forall l | l in xs :: !Contains(l, StartMarker)
    ensures RunFrom(st, xs) == st.(newLines := st.newLines + xs)
    decreases |xs|
  {
    if xs != [] {
      var xs' := xs[..|xs| - 1];
      assert forall l | l in xs' :: l in xs;
      RunOutsideText(st, xs');
      assert xs' + [xs[|xs| - 1]] == xs;
    }
  }

  /** Plain lines read inside a region are only buffered. */
  lemma {:induction false} RunInsideBody(st: Scanner, body: seq<string>)
    requires st.inCodeBlock
    requires forall l | l in body :: Plain(l)
    ensures RunFrom(st, body) == st.(codeContent := st.codeContent + body)
    decreases |body|
  {
    if body != [] {
      var b' := body[..|body| - 1];
      assert forall l | l in b' :: l in body;
      assert body[|body| - 1] in body;
      RunInsideBody(st, b');
      assert b' + [body[|body| - 1]] == body;
    }
  }

  /** A closed prefix fixes nothing about the rest: its output is followed by
      exactly what the rest alone would give. */
  lemma RunAfterClosed(pre: seq<string>, rest: seq<string>)
    requires Closed(pre)
    ensures Normalise(pre + rest) == Normalise(pre) + Normalise(rest)
    ensures Closed(pre + rest) == Closed(rest)
  {
    RunFromAppend(Initial, pre, rest);
    var st := RunFrom(Initial, pre);
    RunRelated(st, Initial, st.newLines, rest);
  }

  /** If no line holds the start marker, the lines come out unchanged. */
  lemma NormaliseNoMarker(lines: seq<string>)
    requires forall l | l in lines :: !Contains(l, StartMarker)
    ensures Normalise(lines) == lines
    ensures Closed(lines)
  {
    RunOutsideText(Initial, lines);
  }

  /** Outside a region every line without a start marker, a `</div>` line
      included, is emitted unchanged and in order. */
  lemma OutsidePassthrough(pre: seq<string>, xs: seq<string>)
    requires Closed(pre)
    requires forall l | l in xs :: !Contains(l, StartMarker)
    ensures Normalise(pre + xs) == Normalise(pre) + xs
    ensures Closed(pre + xs)
  {
    RunAfterClosed(pre, xs);
    NormaliseNoMarker(xs);
  }

  /** From any state, a start marker followed by plain lines opens a region with
      the start line's indent, emits the start line and keeps what was buffered. */
  lemma OpenRegion(st: Scanner, start: string, body: seq<string>)
    requires Contains(start, StartMarker)
    requires forall l | l in body :: Plain(l)
    ensures RunFrom(st, [start] + body)
         == Scanner(true, IndentOf(start), st.codeContent + body, st.newLines + [start])
  {
    RunFromAppend(st, [start], body);
    assert RunFrom(st, [start]) == Step(st, start) by {
      assert [start][..0] == [];
    }
    RunInsideBody(Step(st, start), body);
  }

  /** ... and the `</div>` line that follows flushes the whole buffer. */
  lemma CloseRegion(st: Scanner, start: string, body: seq<string>, end: string)
    requires Contains(start, StartMarker)
    requires forall l | l in body :: Plain(l)
    requires Contains(end, EndMarker) && !Contains(end, StartMarker)
    ensures RunFrom(st, [start] + body + [end])
         == Scanner(false, IndentOf(start), [],
                    st.newLines + [start] + Flush(IndentOf(start), st.codeContent + body) + [end])
  {
    OpenRegion(st, start, body);
    RunFromAppend(st, [start] + body, [end]);
    var st1 := RunFrom(st, [start] + body);
    assert RunFrom(st1, [end]) == Step(st1, end) by {
      assert [end][..0] == [];
    }
  }

  /** A region opened by `start`, holding the plain lines `body` and closed by
      `end`, becomes: the start line, the flushed body (one wrapped line or the
      body verbatim), the end line; the scanner is then outside with an empty
      buffer and the rest is transformed on its own. A `start` line that also
      holds `</div>` still opens the region. */
  lemma ClosedRegion(pre: seq<string>, start: string, body: seq<string>, end: string, rest: seq<string>)
    requires Closed(pre)
    requires Contains(start, StartMarker)
    requires forall l | l in body :: Plain(l)
    requires Contains(end, EndMarker) && !Contains(end, StartMarker)
    ensures Normalise(pre + [start] + body + [end] + rest)
         == Normalise(pre) + [start] + Flush(IndentOf(start), body) + [end] + Normalise(rest)
    ensures Closed(pre + [start] + body + [end])
  {
    var st0 := RunFrom(Initial, pre);
    var region := [start] + body + [end];
    var closed := pre + [start] + body + [end];
    assert closed == pre + region;
    RunFromAppend(Initial, pre, region);
    CloseRegion(st0, start, body, end);
    assert st0.codeContent + body == body;
    assert RunFrom(Initial, closed)
        == Scanner(false, IndentOf(start), [], st0.newLines + [start] + Flush(IndentOf(start), body) + [end]);
    RunAfterClosed(closed, rest);
  }

  /** A second start marker inside an open region keeps the lines buffered so
      far, is emitted itself, and resets the indent: the closing `</div>` then
      flushes both bodies together under the second marker's indent. */
  lemma ReopenedRegion(pre: seq<string>, start1: string, body1: seq<string>,
                       start2: string, body2: seq<string>, end: string, rest: seq<string>)
    requires Closed(pre)
    requires Contains(start1, StartMarker) && Contains(start2, StartMarker)
    requires forall l | l in body1 :: Plain(l)
    requires forall l | l in body2 :: Plain(l)
    requires Contains(end, EndMarker) && !Contains(end, StartMarker)
    ensures Normalise(pre + [start1] + body1 + [start2] + body2 + [end] + rest)
         == Normalise(pre) + [start1, start2] + Flush(IndentOf(start2), body1 + body2) + [end] + Normalise(rest)
  {
    var whole := pre + [start1] + body1 + [start2] + body2 + [end];
    ReopenedRun(pre, start1, body1, start2, body2, end);
    RunAfterClosed(whole, rest);
  }

  /** The scanner state after a region that was opened twice and closed. */
  lemma ReopenedRun(pre: seq<string>, start1: string, body1: seq<string>,
                    start2: string, body2: seq<string>, end: string)
    requires Closed(pre)
    requires Contains(start1, StartMarker) && Contains(start2, StartMarker)
    requires forall l | l in body1 :: Plain(l)
    requires forall l | l in body2 :: Plain(l)
    requires Contains(end, EndMarker) && !Contains(end, StartMarker)
    ensures var whole := pre + [start1] + body1 + [start2] + body2 + [end];
      RunFrom(Initial, whole)
        == Scanner(false, IndentOf(start2), [],
                   Normalise(pre) + [start1, start2] + Flush(IndentOf(start2), body1 + body2) + [end])
  {
    var st0 := RunFrom(Initial, pre);
    var open := [start1] + body1;
    var region := [start2] + body2 + [end];
    RunFromAppend(Initial, pre, open);
    OpenRegion(st0, start1, body1);
    assert st0.codeContent + body1 == body1;
    var st1 := RunFrom(Initial, pre + open);
    assert st1 == Scanner(true, IndentOf(start1), body1, st0.newLines + [start1]);
    RunFromAppend(Initial, pre + open, region);
    CloseRegion(st1, start2, body2, end);
    RegionRegroup(pre, start1, body1, start2, body2, end);
    PairRegroup(st0.newLines, start1, start2);
  }

  /** The lines of `ReopenedRun` grouped as scanned: before, the open
      region and the region that closes. */
  lemma RegionRegroup(pre: seq<string>, start1: string, body1: seq<string>,
                      start2: string, body2: seq<string>, end: string)
    ensures pre + ([start1] + body1) + ([start2] + body2 + [end])
         == pre + [start1] + body1 + [start2] + body2 + [end]
  {
  }

  /** Two lines appended one by one are the pair appended. */
  lemma PairRegroup(s: seq<string>, x: string, y: string)
    ensures s + [x] + [y] == s + [x, y]
  {
  }

  /** The body lines after the last start marker with no `</div>` after them do
      not reach the output: the loop ends without flushing the buffer. */
  lemma UnterminatedRegionDropped(pre: seq<string>, start: string, tail: seq<string>)
    requires Contains(start, StartMarker)
    requires forall l | l in tail :: Plain(l)
    ensures Normalise(pre + [start] + tail) == Normalise(pre) + [start]
    ensures RunFrom(Initial, pre + [start] + tail).inCodeBlock
  {
    RunFromAppend(Initial, pre, [start] + tail);
    OpenRegion(RunFrom(Initial, pre), start, tail);
    assert pre + ([start] + tail) == pre + [start] + tail;
  }

  /** `new_lines` never has more elements than the document has lines. */
  lemma NormaliseLength(lines: seq<string>)
    ensures |Normalise(lines)| <= |lines|
  {
    RunFromBounds(Initial, lines);
  }

  /** A document without the start marker is returned exactly as it was. */
  lemma FixedDocumentNoMarker(content: string)
    requires !Contains(content, StartMarker)
    ensures FixedDocument(content) == content
  {
    var lines := Split(content, "\n");
    JoinSplit(content, "\n");
    forall l | l in lines
      ensures !Contains(l, StartMarker)
    {
      var k :| 0 <= k < |lines| && lines[k] == l;
      if Contains(l, StartMarker) {
        ContainsJoinPart(lines, "\n", k, StartMarker);
      }
    }
    NormaliseNoMarker(lines);
  }

  /** A page read as the scanner sees it: runs of lines outside every region,
      and regions made of a start line, a body and an end line. */
  datatype Block = Prose(lines: seq<string>) | Region(start: string, body: seq<string>, end: string)

  function BlockLines(b: Block): seq<string> {
    match b
    case Prose(ls) => ls
    case Region(start, body, end) => [start] + body + [end]
  }

  /** The page's lines, block after block. */
  function Lines(bs: seq<Block>): seq<string>
    decreases |bs|
  {
    if bs == [] then [] else Lines(bs[..|bs| - 1]) + BlockLines(bs[|bs| - 1])
  }

  /** A block with nothing to fix: prose without a start marker, or a closed
      region of plain lines whose body already holds `<pre>` or `<code>`, or is
      blank. */
  predicate Formatted(b: Block) {
    match b
    case Prose(ls) => forall l | l in ls :: !Contains(l, StartMarker)
    case Region(start, body, end) =>
      && Contains(start, StartMarker)
      && (forall l | l in body :: Plain(l))
      && Contains(end, EndMarker) && !Contains(end, StartMarker)
      && !NeedsWrap(Join(body, "\n"))
  }

  /** Lines made only of formatted blocks come out unchanged, and every region
      in them is closed. */
  lemma {:induction false} NormaliseFormatted(bs: seq<Block>)
    requires forall b | b in bs :: Formatted(b)
    ensures Normalise(Lines(bs)) == Lines(bs)
    ensures Closed(Lines(bs))
    decreases |bs|
  {
    if bs != [] {
      var front := bs[..|bs| - 1];
      assert forall b | b in front :: b in bs;
      assert bs[|bs| - 1] in bs;
      NormaliseFormatted(front);
      assert Lines(bs) == Lines(front) + BlockLines(bs[|bs| - 1]);
      FormattedBlockKept(Lines(front), bs[|bs| - 1]);
    }
  }

  /** After closed lines that came out unchanged, a formatted block comes out
      unchanged too and leaves every region closed. */
  lemma FormattedBlockKept(pre: seq<string>, b: Block)
    requires Closed(pre) && Normalise(pre) == pre
    requires Formatted(b)
    ensures Normalise(pre + BlockLines(b)) == pre + BlockLines(b)
    ensures Closed(pre + BlockLines(b))
  {
    match b
    case Prose(ls) =>
      OutsidePassthrough(pre, ls);
    case Region(start, body, end) =>
      FormattedRegionKept(pre, start, body, end);
      assert pre + BlockLines(b) == pre + [start] + body + [end];
  }

  lemma FormattedRegionKept(pre: seq<string>, start: string, body: seq<string>, end: string)
    requires Closed(pre) && Normalise(pre) == pre
    requires Formatted(Region(start, body, end))
    ensures Normalise(pre + [start] + body + [end]) == pre + [start] + body + [end]
    ensures Closed(pre + [start] + body + [end])
  {
    var whole := pre + [start] + body + [end];
    ClosedRegion(pre, start, body, end, []);
    assert Flush(IndentOf(start), body) == body;
    assert Normalise([]) == [];
    assert whole + [] == whole;
  }

  /** A page whose regions are all closed and already formatted (or blank) is
      returned exactly as it was. */
  lemma FixedDocumentFormatted(content: string, bs: seq<Block>)
    requires Split(content, "\n") == Lines(bs)
    requires forall b | b in bs :: Formatted(b)
    ensures FixedDocument(content) == content
  {
    NormaliseFormatted(bs);
    JoinSplit(content, "\n");
  }

  // Idempotence: a second run over the output changes nothing. The second
  // run reads the output re-split on '\n', so a synthesised line falls apart
  // again into its pieces; those pieces carry `<pre>` and are kept verbatim.

  /** Where the tags come after a piece, `p` occurs only where it already did
      in the piece, for a `p` that has its one `<` at the head and a character
      the tags lack. */
  lemma CloseTagsClear(x: string, p: string, k: nat)
    requires 0 < k < |p| && p[k] !in CloseTags && CloseTags[0] !in p[1..]
    requires !Contains(x, p)
    ensures !Contains(x + CloseTags, p)
  {
    NoStartBeforeHead(x, CloseTags, p);
    LacksChar(CloseTags, p, k);
    NotContainsAfterClear(x, CloseTags, p);
  }

  /** The markers have their one `<` at the head, and a character the closing
      tags lack. */
  lemma StartMarkerChars()
    ensures StartMarker[3] !in CloseTags && CloseTags[0] !in StartMarker[1..]
  {
  }

  lemma EndMarkerChars()
    ensures EndMarker[3] !in CloseTags && CloseTags[0] !in EndMarker[1..]
  {
  }

  /** A plain line stays plain with the closing tags after it. */
  lemma CloseTagsPlain(x: string)
    requires Plain(x)
    ensures Plain(x + CloseTags)
  {
    StartMarkerChars();
    CloseTagsClear(x, StartMarker, 3);
    EndMarkerChars();
    CloseTagsClear(x, EndMarker, 3);
  }

  /** No start marker begins inside the opening tags, whatever follows them. */
  lemma OpenTagsNoStart(t: string)
    ensures NoStartBefore(OpenTags + t, StartMarker, |OpenTags|)
  {
    var s := OpenTags + t;
    assert 'v' !in OpenTags;
    forall j | 0 <= j < |OpenTags|
      ensures !IsPrefix(StartMarker, s[j..])
    {
      if j + |StartMarker| <= |s| {
        if j < 8 {
          assert s[j..][..|StartMarker|][3] == OpenTags[j + 3];
          assert OpenTags[j + 3] in OpenTags;
        } else {
          assert s[j..][..|StartMarker|][0] == OpenTags[j];
          assert j == 8 || j == 9 || j == 10;
        }
      }
    }
  }

  /** The run of spaces, the opening tags and a piece without the start
      marker, followed by the closing tags, hold no start marker. */
  lemma WrappedTailClear(b0: string)
    requires !Contains(b0, StartMarker)
    ensures !Contains(WrapIndent + (OpenTags + (b0 + CloseTags)), StartMarker)
  {
    var t := b0 + CloseTags;
    StartMarkerChars();
    CloseTagsClear(b0, StartMarker, 3);
    OpenTagsNoStart(t);
    NotContainsAfterClear(OpenTags, t, StartMarker);
    assert '<' !in WrapIndent;
    NotContainsAfterHeadless(WrapIndent, OpenTags + t, StartMarker);
  }

  /** The first piece of a synthesised line holds no start marker: the indent
      has no `<div`, and a start marker cannot run from it into the spaces. */
  lemma WrappedHeadClear(indent: string, b0: string)
    requires !Contains(indent, DivTag) && !Contains(b0, StartMarker)
    ensures !Contains(indent + WrapIndent + OpenTags + b0 + CloseTags, StartMarker)
  {
    var v := WrapIndent + (OpenTags + (b0 + CloseTags));
    WrappedTailClear(b0);
    assert v[0] == ' ';
    NotContainsAfterFree(indent, v, DivTag, StartMarker);
    assert indent + v == indent + WrapIndent + OpenTags + b0 + CloseTags;
  }

  /** The pieces after the first: plain lines, the last with the closing tags. */
  lemma {:induction false} FramedPlain(xs: seq<string>)
    requires |xs| >= 1
    requires forall l | l in xs :: Plain(l)
    ensures forall l | l in Framed("", xs, CloseTags) :: Plain(l)
    decreases |xs|
  {
    assert xs[0] in xs;
    assert "" + xs[0] == xs[0];
    if |xs| == 1 {
      CloseTagsPlain(xs[0]);
    } else {
      assert forall l | l in xs[1..] :: l in xs;
      FramedPlain(xs[1..]);
    }
  }

  /** The synthesised line for `body` under `indent`. */
  function Wrapped(indent: string, body: seq<string>): (w: string)
    ensures Contains(w, "<pre>")
  {
    var w := indent + WrapIndent + OpenTags + Join(body, "\n") + CloseTags;
    assert IsPrefix("<pre>", OpenTags);
    ContainsSub(indent + WrapIndent, OpenTags, Join(body, "\n") + CloseTags, "<pre>");
    assert indent + WrapIndent + OpenTags + (Join(body, "\n") + CloseTags) == w;
    w
  }

  /** A line break-free indent, run of spaces and tags around a join of
      line break-free lines split back into the framed lines. */
  lemma FramedSplit(indent: string, spaces: string, open: string, body: seq<string>, close: string)
    requires |body| >= 1 && !Contains(indent, "\n")
    requires '\n' !in spaces && '\n' !in open && '\n' !in close
    requires forall l | l in body :: !Contains(l, "\n")
    ensures Split(indent + spaces + open + Join(body, "\n") + close, "\n")
         == Framed(indent + spaces + open, body, close)
  {
    LacksChar(spaces, "\n", 0);
    LacksChar(open, "\n", 0);
    LacksChar(close, "\n", 0);
    NoSepConcat(indent, spaces, "\n");
    NoSepConcat(indent + spaces, open, "\n");
    assert forall k | 0 <= k < |body| :: body[k] in body;
    SplitFramed(indent + spaces + open, body, close, "\n");
  }

  /** Re-split on '\n', a synthesised line gives back the body's lines, the
      first after the indent, the spaces and the opening tags, the last before
      the closing tags. */
  lemma WrappedSplit(indent: string, body: seq<string>)
    requires |body| >= 1 && !Contains(indent, "\n")
    requires forall l | l in body :: !Contains(l, "\n")
    ensures Split(Wrapped(indent, body), "\n") == Framed(indent + WrapIndent + OpenTags, body, CloseTags)
  {
    FramedSplit(indent, WrapIndent, OpenTags, body, CloseTags);
  }

  /** Framed with the closing tags, plain lines give a first piece without the
      start marker (when the first line with the tags has none) and plain pieces
      after it. */
  lemma FramedClear(pre: string, body: seq<string>)
    requires |body| >= 1
    requires forall l | l in body :: Plain(l)
    requires !Contains(pre + body[0] + CloseTags, StartMarker)
    ensures var ps := Framed(pre, body, CloseTags);
      && !Contains(ps[0], StartMarker)
      && forall l | l in ps[1..] :: Plain(l)
  {
    var ps := Framed(pre, body, CloseTags);
    if |body| == 1 {
      assert ps[1..] == [];
    } else {
      assert ps[0] == pre + body[0];
      NotContainsPrefix(pre + body[0], pre + body[0] + CloseTags, StartMarker);
      assert forall l | l in body[1..] :: l in body;
      FramedPlain(body[1..]);
      assert ps[1..] == Framed("", body[1..], CloseTags);
    }
  }

  /** Re-split on '\n', a synthesised line holds no start marker, and only its
      first piece (through the indent) can hold `</div>`. */
  lemma WrappedPieces(indent: string, body: seq<string>)
    requires |body| >= 1
    requires !Contains(indent, DivTag) && !Contains(indent, "\n")
    requires forall l | l in body :: Plain(l) && !Contains(l, "\n")
    ensures var ps := Split(Wrapped(indent, body), "\n");
      && !Contains(ps[0], StartMarker)
      && forall l | l in ps[1..] :: Plain(l)
  {
    WrappedSplit(indent, body);
    assert body[0] in body;
    WrappedHeadClear(indent, body[0]);
    FramedClear(indent + WrapIndent + OpenTags, body);
  }

  /** `b` is the scanner of a second run over the output of the first, whose
      scanner is `a`, re-split on '\n': it has emitted the pieces of what `a`
      has emitted, it is in the same region state with nothing buffered, and
      inside a region it has the same indent. */
  predicate Mirrors(a: Scanner, b: Scanner) {
    && b.newLines == SplitEach(a.newLines, "\n")
    && b.inCodeBlock == a.inCodeBlock
    && b.codeContent == []
    && (a.inCodeBlock ==> b.indent == a.indent && !Contains(a.indent, DivTag) && !Contains(a.indent, "\n"))
    && (!a.inCodeBlock ==> a.codeContent == [])
    && (forall l | l in a.codeContent :: Plain(l) && !Contains(l, "\n"))
  }

  /** The walk over `xs + [l]` is one more step after the walk over `xs`. */
  lemma RunFromLast(st: Scanner, xs: seq<string>, l: string)
    ensures RunFrom(st, xs + [l]) == Step(RunFrom(st, xs), l)
  {
    assert (xs + [l])[..|xs|] == xs;
  }

  /** A `</div>` line without a start marker closes an open region. */
  lemma StepClose(st: Scanner, line: string)
    requires st.inCodeBlock && Contains(line, EndMarker) && !Contains(line, StartMarker)
    ensures Step(st, line) == Scanner(false, st.indent, [], st.newLines + Flush(st.indent, st.codeContent) + [line])
  {
  }

  lemma SplitEachFree(xs: seq<string>)
    requires forall l | l in xs :: !Contains(l, "\n")
    ensures SplitEach(xs, "\n") == xs
  {
    assert forall k | 0 <= k < |xs| :: xs[k] in xs;
  }

  /** A body kept verbatim is buffered again and kept again. */
  lemma CloseVerbatim(b: Scanner, body: seq<string>, line: string)
    requires b.inCodeBlock && b.codeContent == []
    requires forall l | l in body :: Plain(l)
    requires Contains(line, EndMarker) && !Contains(line, StartMarker)
    requires !NeedsWrap(Join(body, "\n"))
    ensures var r := RunFrom(b, body + [line]);
      !r.inCodeBlock && r.codeContent == [] && r.newLines == b.newLines + (body + [line])
  {
    RunInsideBody(b, body);
    var b1 := b.(codeContent := body);
    assert b.codeContent + body == body;
    RunFromLast(b, body, line);
    StepClose(b1, line);
    assert Flush(b.indent, body) == body;
  }

  /** A `</div>` line closes a region with an empty buffer and adds nothing
      but itself. */
  lemma CloseEmpty(b: Scanner, line: string)
    requires b.inCodeBlock && b.codeContent == []
    requires Contains(line, EndMarker) && !Contains(line, StartMarker)
    ensures RunFrom(b, [line]) == Scanner(false, b.indent, [], b.newLines + [line])
  {
    RunFromLast(b, [], line);
    assert [] + [line] == [line];
    StepClose(b, line);
    assert Flush(b.indent, []) == [] by {
      assert Join([], "\n") == "" && Strip("") == "";
    }
    assert b.newLines + [] + [line] == b.newLines + [line];
  }

  /** With `</div>` in the indent, the first piece of a synthesised line closes
      the region on an empty buffer; the other pieces and the end line then
      pass through outside it. */
  lemma WrappedCloses(b: Scanner, ps: seq<string>, line: string)
    requires b.inCodeBlock && b.codeContent == [] && |ps| >= 1
    requires Contains(ps[0], EndMarker) && !Contains(ps[0], StartMarker)
    requires forall l | l in ps[1..] :: !Contains(l, StartMarker)
    requires !Contains(line, StartMarker)
    ensures var r := RunFrom(b, ps + [line]);
      !r.inCodeBlock && r.codeContent == [] && r.newLines == b.newLines + (ps + [line])
  {
    var rest := ps[1..] + [line];
    assert ps + [line] == [ps[0]] + rest;
    RunFromAppend(b, [ps[0]], rest);
    CloseEmpty(b, ps[0]);
    var b1 := Scanner(false, b.indent, [], b.newLines + [ps[0]]);
    assert forall l | l in rest :: l in ps[1..] || l == line;
    RunOutsideText(b1, rest);
    assert b1.newLines + rest == b.newLines + (ps + [line]);
  }

  /** Otherwise the pieces are buffered, and kept verbatim at the end line
      because together they hold `<pre>`. */
  lemma WrappedKept(b: Scanner, ps: seq<string>, line: string)
    requires b.inCodeBlock && b.codeContent == []
    requires forall l | l in ps :: Plain(l)
    requires !NeedsWrap(Join(ps, "\n"))
    requires Contains(line, EndMarker) && !Contains(line, StartMarker)
    ensures var r := RunFrom(b, ps + [line]);
      !r.inCodeBlock && r.codeContent == [] && r.newLines == b.newLines + (ps + [line])
  {
    RunInsideBody(b, ps);
    assert b.codeContent + ps == ps;
    var b1 := b.(codeContent := ps);
    RunFromLast(b, ps, line);
    StepClose(b1, line);
    assert Flush(b.indent, ps) == ps;
  }

  /** A synthesised line, re-split, ends up as its pieces again. */
  lemma CloseWrapped(b: Scanner, body: seq<string>, line: string)
    requires b.inCodeBlock && b.codeContent == []
    requires !Contains(b.indent, DivTag) && !Contains(b.indent, "\n")
    requires forall l | l in body :: Plain(l) && !Contains(l, "\n")
    requires Contains(line, EndMarker) && !Contains(line, StartMarker) && !Contains(line, "\n")
    requires |body| >= 1
    ensures var e := Split(Wrapped(b.indent, body), "\n") + [line];
      var r := RunFrom(b, e);
      !r.inCodeBlock && r.codeContent == [] && r.newLines == b.newLines + e
  {
    var w := Wrapped(b.indent, body);
    var ps := Split(w, "\n");
    WrappedPieces(b.indent, body);
    if Contains(ps[0], EndMarker) {
      WrappedCloses(b, ps, line);
    } else {
      assert forall l | l in ps :: l == ps[0] || l in ps[1..] by {
        assert ps == [ps[0]] + ps[1..];
      }
      JoinSplit(w, "\n");
      WrappedKept(b, ps, line);
    }
  }

  /** Only a non-empty body can need its tags. */
  lemma EmptyBodyKept(body: seq<string>)
    ensures |body| == 0 ==> !NeedsWrap(Join(body, "\n"))
  {
    if |body| == 0 {
      assert Join(body, "\n") == "" && Strip("") == "";
    }
  }

  /** Whatever the first run makes of a closed region's body, the second run,
      inside the same region and with nothing buffered, ends up outside it
      with the pieces of it emitted. */
  lemma CloseAny(b: Scanner, body: seq<string>, line: string)
    requires b.inCodeBlock && b.codeContent == []
    requires !Contains(b.indent, DivTag) && !Contains(b.indent, "\n")
    requires forall l | l in body :: Plain(l) && !Contains(l, "\n")
    requires Contains(line, EndMarker) && !Contains(line, StartMarker) && !Contains(line, "\n")
    ensures var e := SplitEach(Flush(b.indent, body) + [line], "\n");
      var r := RunFrom(b, e);
      !r.inCodeBlock && r.codeContent == [] && r.newLines == b.newLines + e
  {
    EmptyBodyKept(body);
    if NeedsWrap(Join(body, "\n")) {
      var w := Wrapped(b.indent, body);
      assert Flush(b.indent, body) == [w];
      SplitEachAppend([w], [line], "\n");
      SplitEachFree([line]);
      assert SplitEach([w], "\n") == Split(w, "\n") + SplitEach([], "\n");
      CloseWrapped(b, body, line);
    } else {
      assert Flush(b.indent, body) == body;
      assert forall l | l in body + [line] :: l in body || l == line;
      SplitEachFree(body + [line]);
      CloseVerbatim(b, body, line);
    }
  }

  lemma {:induction false} MirrorOpen(a: Scanner, b: Scanner, line: string)
    requires Mirrors(a, b) && Contains(line, StartMarker) && !Contains(line, "\n")
    ensures Mirrors(Step(a, line), RunFrom(b, SplitEach([line], "\n")))
  {
    SplitEachFree([line]);
    RunFromLast(b, [], line);
    assert [] + [line] == [line];
    SplitEachAppend(a.newLines, [line], "\n");
    NotContainsPrefix(IndentOf(line), line, "\n");
  }

  lemma {:induction false} MirrorClose(a: Scanner, b: Scanner, line: string)
    requires Mirrors(a, b) && a.inCodeBlock
    requires Contains(line, EndMarker) && !Contains(line, StartMarker) && !Contains(line, "\n")
    ensures Mirrors(Step(a, line), RunFrom(b, SplitEach(Flush(a.indent, a.codeContent) + [line], "\n")))
  {
    var e := Flush(a.indent, a.codeContent) + [line];
    StepClose(a, line);
    CloseAny(b, a.codeContent, line);
    SplitEachAppend(a.newLines, e, "\n");
    assert a.newLines + Flush(a.indent, a.codeContent) + [line] == a.newLines + e;
  }

  lemma {:induction false} MirrorBuffer(a: Scanner, b: Scanner, line: string)
    requires Mirrors(a, b) && a.inCodeBlock && Plain(line) && !Contains(line, "\n")
    ensures Mirrors(Step(a, line), RunFrom(b, SplitEach([], "\n")))
  {
    assert Step(a, line) == a.(codeContent := a.codeContent + [line]);
    assert forall l | l in a.codeContent + [line] :: l in a.codeContent || l == line;
  }

  lemma {:induction false} MirrorOutside(a: Scanner, b: Scanner, line: string)
    requires Mirrors(a, b) && !a.inCodeBlock && !Contains(line, StartMarker) && !Contains(line, "\n")
    ensures Mirrors(Step(a, line), RunFrom(b, SplitEach([line], "\n")))
  {
    SplitEachFree([line]);
    RunFromLast(b, [], line);
    assert [] + [line] == [line];
    SplitEachAppend(a.newLines, [line], "\n");
  }

  /** One line read by the first run: what it emits, and the second run's
      state once it has read the pieces of that. */
  lemma MirrorStep(a: Scanner, b: Scanner, line: string) returns (e: seq<string>)
    requires Mirrors(a, b) && !Contains(line, "\n")
    ensures Step(a, line).newLines == a.newLines + e
    ensures Mirrors(Step(a, line), RunFrom(b, SplitEach(e, "\n")))
  {
    if Contains(line, StartMarker) {
      e := [line];
      MirrorOpen(a, b, line);
    } else if Contains(line, EndMarker) && a.inCodeBlock {
      e := Flush(a.indent, a.codeContent) + [line];
      MirrorClose(a, b, line);
    } else if a.inCodeBlock {
      e := [];
      MirrorBuffer(a, b, line);
    } else {
      e := [line];
      MirrorOutside(a, b, line);
    }
  }

  /** The second run over the re-split output mirrors the first run. */
  lemma {:induction false} MirrorRun(lines: seq<string>)
    requires forall l | l in lines :: !Contains(l, "\n")
    ensures Mirrors(RunFrom(Initial, lines), RunFrom(Initial, SplitEach(Normalise(lines), "\n")))
    decreases |lines|
  {
    if lines == [] {
      assert SplitEach([], "\n") == [];
    } else {
      var front, l := lines[..|lines| - 1], lines[|lines| - 1];
      assert forall x | x in front :: x in lines;
      assert l in lines;
      MirrorRun(front);
      var a := RunFrom(Initial, front);
      var b := RunFrom(Initial, SplitEach(a.newLines, "\n"));
      var e := MirrorStep(a, b, l);
      assert front + [l] == lines;
      RunFromLast(Initial, front, l);
      SplitEachAppend(a.newLines, e, "\n");
      RunFromAppend(Initial, SplitEach(a.newLines, "\n"), SplitEach(e, "\n"));
    }
  }

  /** A second run of the transform changes nothing. */
  lemma FixedDocumentIdempotent(content: string)
    ensures FixedDocument(FixedDocument(content)) == FixedDocument(content)
  {
    var lines := Split(content, "\n");
    var out := Normalise(lines);
    forall l | l in lines
      ensures !Contains(l, "\n")
    {
      var k :| 0 <= k < |lines| && lines[k] == l;
    }
    MirrorRun(lines);
    if out == [] {
      FixedDocumentNoMarker("");
    } else {
      SplitJoin(out, "\n");
      JoinSplit(Join(out, "\n"), "\n");
    }
  }

  /** fix_code_blocks' transform of the file's text (the file is read before and
      written after; that I/O is not modelled). */
  method FixCodeBlocks(content: string) returns (fixed: string)
    ensures fixed == FixedDocument(content)
    ensures !Contains(content, StartMarker) ==> fixed == content
    ensures FixedDocument(fixed) == fixed
  {
    var lines := Split(content, "\n");
    var newLines: seq<string> := [];
    var inCodeBlock := false;
    var codeContent: seq<string> := [];
    var indent := "";
    for i := 0 to |lines|
      invariant RunFrom(Initial, lines[..i]) == Scanner(inCodeBlock, indent, codeContent, newLines)
    {
      var line := lines[i];
      assert lines[..i + 1][..i] == lines[..i];
      if Contains(line, StartMarker) {
        inCodeBlock := true;
        StartMarkerHasDiv(line);
        indent := line[..IndexOf(line, DivTag)];
        newLines := newLines + [line];
      } else if Contains(line, EndMarker) && inCodeBlock {
        inCodeBlock := false;
        var codeText := Join(codeContent, "\n");
        if !Contains(codeText, "<pre>") && !Contains(codeText, "<code>") && Strip(codeText) != "" {
          newLines := newLines + [Wrapped(indent, codeContent)];
        } else {
          newLines := newLines + codeContent;
        }
        newLines := newLines + [line];
        codeContent := [];
      } else if inCodeBlock {
        codeContent := codeContent + [line];
      } else {
        newLines := newLines + [line];
      }
    }
    assert lines[..|lines|] == lines;
    fixed := Join(newLines, "\n");
    if !Contains(content, StartMarker) {
      FixedDocumentNoMarker(content);
    }
    FixedDocumentIdempotent(content);
  }
}
