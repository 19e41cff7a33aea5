/** The regular expressions of the styling scripts, each as a hand-written
    scanner, and `re.sub` over them: matches are found left to right, a match
    is replaced and scanning resumes after it, and where nothing matches one
    character is copied. */
module Patterns {
  import opened Text

  const ScriptOpen: string := "<script>"
  const ScriptKey: string := "highlightSyntax"
  const ScriptClose: string := "</script>"

  /** The two shapes of pattern the scripts use.
      `Rule(head, need)` is `re.escape(head)` followed by `[^}]*`, `need`, `[^}]*` and `\}`
      (with `need == ""` it is the lazy `head[^}]*?\}`).
      `HighlightScript` is `<script>.*?highlightSyntax.*?</script>` under `re.DOTALL`. */
  datatype Pattern =
    | Rule(head: string, need: string)
    | HighlightScript

  /** `t[..n]` is `head`, a body without `}` that holds `need`, and a `}`. */
  predicate RuleMatch(head: string, need: string, t: string, n: nat) {
    && |head| < n <= |t|
    && IsPrefix(head, t)
    && t[n - 1] == '}'
    && (forall i :: |head| <= i < n - 1 ==> t[i] != '}')
    && Contains(t[|head|..n - 1], need)
  }

  /** Offset of the first `}` in `s`. */
  function BraceIndex(s: string): (k: nat)
    requires '}' in s
    ensures k < |s| && s[k] == '}'
    ensures forall i :: 0 <= i < k ==> s[i] != '}'
    decreases |s|
  {
    if s[0] == '}' then 0 else BraceIndex(s[1..]) + 1
  }

  /** Length of the `Rule(head, need)` match at the front of `t`, or 0 when
      there is none. A `[^}]*` run cannot pass a `}`, so the only candidate
      ends at the first `}` after `head`. */
  function RuleMatchLen(head: string, need: string, t: string): (n: nat)
    ensures n <= |t|
    ensures n > 0 ==> RuleMatch(head, need, t, n)
    ensures forall m: nat :: RuleMatch(head, need, t, m) ==> n == m
  {
    if IsPrefix(head, t) && '}' in t[|head|..] then
      var rest := t[|head|..];
      var k := BraceIndex(rest);
      assert forall i :: 0 <= i < |rest| ==> rest[i] == t[|head| + i];
      if Contains(t[|head|..|head| + k], need) then |head| + k + 1 else 0
    else
      0
  }

  /** `t` starts with the lazy match of `o.*?key.*?c` (under `re.DOTALL`)
      with its key at `k` and its closing `c` at `e`: the key is the first
      one after `o`, and that `c` is the first one after the key. */
  predicate LazyMatchAt(o: string, key: string, c: string, t: string, k: nat, e: nat) {
    && IsPrefix(o, t)
    && |o| <= k && k + |key| <= e && e + |c| <= |t|
    && IsPrefix(key, t[k..])
    && (forall j :: |o| <= j < k ==> !IsPrefix(key, t[j..]))
    && IsPrefix(c, t[e..])
    && (forall j :: k + |key| <= j < e ==> !IsPrefix(c, t[j..]))
  }

  /** Length of the lazy `o.*?key.*?c` match at the front of `t`, or 0 when
      there is none: the first key after `o`, then the first `c` after it. */
  function LazyMatchLen(o: string, key: string, c: string, t: string): (n: nat)
    ensures n <= |t|
    ensures n > 0 ==> exists k: nat, e: nat :: LazyMatchAt(o, key, c, t, k, e) && n == e + |c|
    ensures forall k: nat, e: nat :: LazyMatchAt(o, key, c, t, k, e) ==> n == e + |c|
  {
    if IsPrefix(o, t) && Contains(t[|o|..], key) then
      var j := |o| + IndexOf(t[|o|..], key);
      if Contains(t[j + |key|..], c) then
        var e := j + |key| + IndexOf(t[j + |key|..], c);
        LazyMatchComputed(o, key, c, t, j, e);
        LazyMatchUnique(o, key, c, t, j, e);
        e + |c|
      else
        LazyMatchNoClose(o, key, c, t, j);
        0
    else if IsPrefix(o, t) then
      LazyMatchNoKey(o, key, c, t);
      0
    else
      0
  }

  /** A lazy match has a key after `o` and a `c` after its key. */
  lemma LazyMatchParts(o: string, key: string, c: string, t: string, k: nat, e: nat)
    requires LazyMatchAt(o, key, c, t, k, e)
    ensures Contains(t[|o|..], key) && Contains(t[k + |key|..], c)
  {
    var s, p := t[|o|..], k - |o|;
    assert s[p..p + |key|] == t[k..][..|key|];
    ContainsAt(s, key, p);
    var s', p' := t[k + |key|..], e - k - |key|;
    assert s'[p'..p' + |c|] == t[e..][..|c|];
    ContainsAt(s', c, p');
  }

  /** Without a key after `o` there is no lazy match. */
  lemma LazyMatchNoKey(o: string, key: string, c: string, t: string)
    requires |o| <= |t| && !Contains(t[|o|..], key)
    ensures forall k: nat, e: nat :: !LazyMatchAt(o, key, c, t, k, e)
  {
    forall k: nat, e: nat | LazyMatchAt(o, key, c, t, k, e)
      ensures false
    {
      LazyMatchParts(o, key, c, t, k, e);
    }
  }

  /** Without a `c` after the first key after `o` there is no lazy match. */
  lemma LazyMatchNoClose(o: string, key: string, c: string, t: string, j: nat)
    requires |o| <= |t| && Contains(t[|o|..], key) && j == |o| + IndexOf(t[|o|..], key)
    requires !Contains(t[j + |key|..], c)
    ensures forall k: nat, e: nat :: !LazyMatchAt(o, key, c, t, k, e)
  {
    forall k: nat, e: nat | LazyMatchAt(o, key, c, t, k, e)
      ensures false
    {
      FirstFrom(t, key, |o|, k);
      LazyMatchParts(o, key, c, t, k, e);
    }
  }

  /** A lazy match is the only one. */
  lemma LazyMatchUnique(o: string, key: string, c: string, t: string, j: nat, m: nat)
    requires LazyMatchAt(o, key, c, t, j, m)
    ensures forall k: nat, e: nat :: LazyMatchAt(o, key, c, t, k, e) ==> k == j && e == m
  {
    forall k: nat, e: nat | LazyMatchAt(o, key, c, t, k, e)
      ensures k == j && e == m
    {
      FirstFrom(t, key, |o|, k);
      FirstFrom(t, key, |o|, j);
      FirstFrom(t, c, k + |key|, e);
      FirstFrom(t, c, j + |key|, m);
    }
  }

  /** The first key after `o` and the first `c` after it make a lazy match. */
  lemma LazyMatchComputed(o: string, key: string, c: string, t: string, j: nat, m: nat)
    requires IsPrefix(o, t) && Contains(t[|o|..], key) && j == |o| + IndexOf(t[|o|..], key)
    requires Contains(t[j + |key|..], c) && m == j + |key| + IndexOf(t[j + |key|..], c)
    ensures LazyMatchAt(o, key, c, t, j, m)
  {
    FirstInSuffix(t, |o|, key, j);
    FirstInSuffix(t, j + |key|, c, m);
  }

  /** A text with a lazy match holds the key. */
  lemma LazyMatchHasKey(o: string, key: string, c: string, t: string)
    ensures LazyMatchLen(o, key, c, t) > 0 ==> Contains(t, key)
  {
    if LazyMatchLen(o, key, c, t) > 0 {
      var k: nat, e: nat :| LazyMatchAt(o, key, c, t, k, e);
      LazyMatchParts(o, key, c, t, k, e);
      ContainsSuffix(t, |o|, key);
    }
  }

  /** A text `o`, `a`, the key, `b`, `c`, where no key starts in `a` and no
      `c` starts in `b`: the lazy match runs exactly through that `c`. */
  lemma LazyMatchShape(o: string, key: string, c: string, a: string, b: string, x: string)
    requires NoStartBefore(a + (key + b + c + x), key, |a|)
    requires NoStartBefore(b + (c + x), c, |b|)
    ensures LazyMatchLen(o, key, c, o + a + key + b + c + x) == |o| + |a| + |key| + |b| + |c|
  {
    var k := |o| + |a|;
    LazyMatchShapeAt(o, key, c, a, b, x);
    assert LazyMatchAt(o, key, c, o + a + key + b + c + x, k, k + |key| + |b|);
  }

  /** The lazy match of `LazyMatchShape`, with its key and its `c` located. */
  lemma LazyMatchShapeAt(o: string, key: string, c: string, a: string, b: string, x: string)
    requires NoStartBefore(a + (key + b + c + x), key, |a|)
    requires NoStartBefore(b + (c + x), c, |b|)
    ensures LazyMatchAt(o, key, c, o + a + key + b + c + x, |o| + |a|, |o| + |a| + |key| + |b|)
  {
    var t := o + a + key + b + c + x;
    var k := |o| + |a|;
    var e := k + |key| + |b|;
    ShapeRegroup(o, a, key, b, c, x);
    assert t[..|o|] == o;
    assert t[k..][..|key|] == key;
    assert t[e..][..|c|] == c;
    NoStartShift(o, a + (key + b + c + x), key, |a|);
    NoStartShift(o + a + key, b + (c + x), c, |b|);
  }

  /** The text of `LazyMatchShapeAt` grouped after `o` and after the key. */
  lemma ShapeRegroup(o: string, a: string, key: string, b: string, c: string, x: string)
    ensures o + a + key + b + c + x == o + (a + (key + b + c + x))
    ensures o + a + key + b + c + x == (o + a + key) + (b + (c + x))
  {
  }

  /** No `p` starts in the first `n` places of `s`, so none starts in the
      `n` places after `pre` in `pre + s`. */
  lemma NoStartShift(pre: string, s: string, p: string, n: nat)
    requires NoStartBefore(s, p, n)
    ensures forall j :: |pre| <= j < |pre| + n ==> !IsPrefix(p, (pre + s)[j..])
  {
    forall j | |pre| <= j < |pre| + n
      ensures !IsPrefix(p, (pre + s)[j..])
    {
      assert (pre + s)[j..] == s[j - |pre|..];
    }
  }

  /** Length of the `<script>.*?highlightSyntax.*?</script>` match at the
      front of `t`, or 0 when there is none. */
  function ScriptMatchLen(t: string): (n: nat)
    ensures n <= |t|
    ensures n > 0 ==> exists k: nat, e: nat ::
      LazyMatchAt(ScriptOpen, ScriptKey, ScriptClose, t, k, e) && n == e + |ScriptClose|
    ensures forall k: nat, e: nat ::
      LazyMatchAt(ScriptOpen, ScriptKey, ScriptClose, t, k, e) ==> n == e + |ScriptClose|
  {
    LazyMatchLen(ScriptOpen, ScriptKey, ScriptClose, t)
  }

  /** Length of the match of `p` at the front of `t`, or 0 when there is none. */
  function MatchLen(p: Pattern, t: string): (n: nat)
    ensures n <= |t|
  {
    match p
    case Rule(head, need) => RuleMatchLen(head, need, t)
    case HighlightScript => ScriptMatchLen(t)
  }

  /** `MatchLen(p, _)` as a value, for the search and substitution below. */
  function Matcher(p: Pattern): (m: string -> nat)
    ensures Sane(m)
  {
    t => MatchLen(p, t)
  }

  /** Applying the matcher of a rule is scanning for that rule. */
  lemma MatcherRule(head: string, need: string, x: string)
    ensures Matcher(Rule(head, need))(x) == RuleMatchLen(head, need, x)
  {
  }

  /** A matcher never claims more text than it is given. */
  ghost predicate Sane(m: string -> nat) {
    forall t :: m(t) <= |t|
  }

  /** `re.search` succeeds: a match starts somewhere in `t`. */
  predicate Found(m: string -> nat, t: string)
    decreases |t|
  {
    m(t) > 0 || (|t| > 0 && Found(m, t[1..]))
  }

  /** The recursive search agrees with "a match starts at some offset". */
  lemma {:induction false} FoundIff(m: string -> nat, t: string)
    ensures Found(m, t) <==> exists q :: 0 <= q <= |t| && m(t[q..]) > 0
    decreases |t|
  {
    if |t| > 0 {
      FoundIff(m, t[1..]);
      if Found(m, t[1..]) {
        var q :| 0 <= q <= |t[1..]| && m(t[1..][q..]) > 0;
        assert t[1..][q..] == t[q + 1..];
      }
      if exists q :: 0 <= q <= |t| && m(t[q..]) > 0 {
        var q :| 0 <= q <= |t| && m(t[q..]) > 0;
        if q > 0 {
          assert t[1..][q - 1..] == t[q..];
        }
      }
    }
    assert t[0..] == t;
  }

  /** The offset of the leftmost match, where `re.sub` makes its first replacement. */
  function FirstMatch(m: string -> nat, t: string): (i: nat)
    requires Found(m, t)
    ensures i <= |t| && m(t[i..]) > 0
    ensures forall j :: 0 <= j < i ==> m(t[j..]) == 0
    decreases |t|
  {
    if m(t) > 0 then 0
    else
      var k := FirstMatch(m, t[1..]);
      assert forall j :: 1 <= j <= |t| ==> t[j..] == t[1..][j - 1..];
      k + 1
  }

  /** `re.sub`: replace every left-to-right, non-overlapping match by `repl`. */
  function SubAll(m: string -> nat, t: string, repl: string): string
    requires Sane(m)
    decreases |t|
  {
    if |t| == 0 then ""
    else
      var n := m(t);
      if n > 0 then repl + SubAll(m, t[n..], repl)
      else [t[0]] + SubAll(m, t[1..], repl)
  }

  /** Without a match, substitution changes nothing (so a `re.search` guard
      before `re.sub` makes no difference). */
  lemma {:induction false} SubAllNoMatch(m: string -> nat, t: string, repl: string)
    requires Sane(m)
    ensures !Found(m, t) ==> SubAll(m, t, repl) == t
    decreases |t|
  {
    if |t| > 0 && !Found(m, t) {
      SubAllNoMatch(m, t[1..], repl);
    }
  }

  /** The text before the leftmost match (at offset `i`, of length `n`) is
      kept, the match is replaced, and substitution continues after the match. */
  lemma {:induction false} SubAllFirst(m: string -> nat, t: string, repl: string, i: nat, n: nat)
    requires Sane(m)
    requires i <= |t| && n == m(t[i..]) && n > 0
    requires forall j :: 0 <= j < i ==> m(t[j..]) == 0
    ensures SubAll(m, t, repl) == t[..i] + repl + SubAll(m, t[i + n..], repl)
    decreases i
  {
    assert t[0..] == t;
    if i > 0 {
      var t1 := t[1..];
      assert t1[i - 1..] == t[i..];
      assert t1[i - 1 + n..] == t[i + n..];
      forall j | 0 <= j < i - 1
        ensures m(t1[j..]) == 0
      {
        assert t1[j..] == t[j + 1..];
      }
      var rest := SubAll(m, t[i + n..], repl);
      assert SubAll(m, t, repl) == [t[0]] + SubAll(m, t1, repl);
      SubAllFirst(m, t1, repl, i - 1, n);
      assert SubAll(m, t1, repl) == t1[..i - 1] + repl + rest;
      FirstAndRest(t, i, repl, rest);
    } else {
      assert m(t) == n && n <= |t|;
      assert SubAll(m, t, repl) == repl + SubAll(m, t[n..], repl);
      assert t[..0] + repl == repl;
    }
  }

  /** A prefix where no match starts is kept as it is, and substitution
      goes on in the rest. */
  lemma {:induction false} SubAllKeepsPrefix(m: string -> nat, u: string, v: string, repl: string)
    requires Sane(m) && forall j :: 0 <= j < |u| ==> m((u + v)[j..]) == 0
    ensures SubAll(m, u + v, repl) == u + SubAll(m, v, repl)
    decreases |u|
  {
    var t := u + v;
    if |u| > 0 {
      assert t[0..] == t;
      assert t[1..] == u[1..] + v;
      forall j | 0 <= j < |u| - 1
        ensures m((u[1..] + v)[j..]) == 0
      {
        assert (u[1..] + v)[j..] == t[j + 1..];
      }
      assert SubAll(m, t, repl) == [u[0]] + SubAll(m, u[1..] + v, repl);
      SubAllKeepsPrefix(m, u[1..], v, repl);
      Assoc([u[0]], u[1..], SubAll(m, v, repl));
      assert [u[0]] + u[1..] == u;
    } else {
      assert t == v;
    }
  }

  /** A text `u`, a match `w` and a text `e` where no match starts: under
      deletion `u` and `e` are kept, `w` goes, and substitution goes on
      after `e`. */
  lemma SubAllDeletesOne(m: string -> nat, u: string, w: string, e: string, v: string)
    requires Sane(m) && |w| > 0 && m(w + (e + v)) == |w|
    requires forall j :: 0 <= j < |u| ==> m((u + (w + (e + v)))[j..]) == 0
    requires forall j :: 0 <= j < |e| ==> m((e + v)[j..]) == 0
    ensures SubAll(m, u + (w + (e + v)), "") == u + (e + SubAll(m, v, ""))
  {
    SubAllDeletesFirst(m, u, w, e + v);
    SubAllKeepsPrefix(m, e, v, "");
  }

  /** A text `u` where no match starts, then a match `w`: under deletion
      `u` is kept, `w` goes, and substitution goes on after `w`. */
  lemma SubAllDeletesFirst(m: string -> nat, u: string, w: string, r: string)
    requires Sane(m) && |w| > 0 && m(w + r) == |w|
    requires forall j :: 0 <= j < |u| ==> m((u + (w + r))[j..]) == 0
    ensures SubAll(m, u + (w + r), "") == u + SubAll(m, r, "")
  {
    SubAllKeepsPrefix(m, u, w + r, "");
    SubAllDeletesFront(m, w, r);
  }

  /** A match at the front is deleted and substitution goes on after it. */
  lemma SubAllDeletesFront(m: string -> nat, w: string, r: string)
    requires Sane(m) && |w| > 0 && m(w + r) == |w|
    ensures SubAll(m, w + r, "") == SubAll(m, r, "")
  {
    assert (w + r)[|w|..] == r;
    assert SubAll(m, w + r, "") == "" + SubAll(m, r, "");
  }

  /** Moving the first character of `t` out of a prefix. */
  lemma FirstAndRest(t: string, i: nat, r: string, a: string)
    requires 0 < i <= |t|
    ensures [t[0]] + (t[1..][..i - 1] + r + a) == t[..i] + r + a
  {
    assert t[..i] == [t[0]] + t[1..][..i - 1];
  }

  /** A rule pattern whose head has no `}` cannot see past the first `}`:
      once `u` holds a `}`, what follows `u` does not change the match at its front. */
  lemma RuleMatchLenExtend(head: string, need: string, u: string, x: string)
    requires '}' !in head && '}' in u
    ensures RuleMatchLen(head, need, u + x) == RuleMatchLen(head, need, u)
  {
    var c :| 0 <= c < |u| && u[c] == '}';
    var n := RuleMatchLen(head, need, u + x);
    if n > 0 {
      assert (u + x)[c] == '}';
      MatchStopsAtBrace(head, need, u + x, n, c);
      RuleMatchPrefix(head, need, u, x, n);
    }
    var n' := RuleMatchLen(head, need, u);
    if n' > 0 {
      RuleMatchPrefix(head, need, u, x, n');
    }
  }

  /** A match that ends inside `u` is a match of `u` and of `u + x` alike. */
  lemma RuleMatchPrefix(head: string, need: string, u: string, x: string, n: nat)
    requires n <= |u|
    ensures RuleMatch(head, need, u + x, n) <==> RuleMatch(head, need, u, n)
  {
    var t := u + x;
    if |head| < n {
      assert t[..|head|] == u[..|head|];
      assert t[|head|..n - 1] == u[|head|..n - 1];
      assert forall i :: 0 <= i < |u| ==> t[i] == u[i];
    }
  }

  /** With no `}` in `head`, a match ends at or before any `}` of `t`. */
  lemma MatchStopsAtBrace(head: string, need: string, t: string, n: nat, c: nat)
    requires '}' !in head && RuleMatch(head, need, t, n) && c < |t| && t[c] == '}'
    ensures n <= c + 1
  {
  }

  /** `repl` cannot take part in a `Rule(head, need)` match once it is
      substituted: it ends with `}`, no match starts inside it, and it does
      not begin with the tail of `head`. */
  predicate Inert(head: string, need: string, repl: string) {
    && |repl| > 0 && repl[|repl| - 1] == '}'
    && (forall q :: 0 <= q < |repl| ==> RuleMatchLen(head, need, repl[q..]) == 0)
    && (forall j :: 0 < j < |head| ==> !IsPrefix(head[j..], repl))
  }

  /** No match starts in `a` or in `b`, so none starts in `a + b`. */
  lemma {:induction false} NotFoundAppend(m: string -> nat, a: string, b: string)
    requires forall q :: 0 <= q < |a| ==> m((a + b)[q..]) == 0
    requires !Found(m, b)
    ensures !Found(m, a + b)
    decreases |a|
  {
    if |a| == 0 {
      assert a + b == b;
    } else {
      assert (a + b)[0..] == a + b;
      assert (a + b)[1..] == a[1..] + b;
      forall q | 0 <= q < |a[1..]|
        ensures m((a[1..] + b)[q..]) == 0
      {
        assert (a[1..] + b)[q..] == (a + b)[q + 1..];
      }
      NotFoundAppend(m, a[1..], b);
    }
  }

  /** A match cannot start inside an inert replacement, whatever follows it. */
  lemma InertPrefix(head: string, need: string, repl: string, x: string, q: nat)
    requires '}' !in head && Inert(head, need, repl) && q < |repl|
    ensures RuleMatchLen(head, need, (repl + x)[q..]) == 0
  {
    assert (repl + x)[q..] == repl[q..] + x;
    assert repl[q..][|repl| - 1 - q] == '}';
    RuleMatchLenExtend(head, need, repl[q..], x);
  }

  /** If `u` (no `}`, at least as long as `head`) starts with `head` and a
      match follows `u`, then the match at the front of `u + rest` runs over
      `u` into that match. */
  lemma ShiftMatch(head: string, need: string, u: string, rest: string, n: nat)
    ensures ('}' !in head && '}' !in u && |head| <= |u| && IsPrefix(head, u)
             && RuleMatch(head, need, rest, n))
        ==> RuleMatch(head, need, u + rest, |u| + n)
  {
    if '}' !in head && '}' !in u && |head| <= |u| && IsPrefix(head, u) && RuleMatch(head, need, rest, n) {
      var t := u + rest;
      assert t[..|head|] == u[..|head|];
      assert forall i :: 0 <= i < |u| ==> t[i] == u[i];
      assert forall i :: 0 <= i < |rest| ==> t[|u| + i] == rest[i];
      assert t[|head|..|u| + n - 1] == u[|head|..] + rest[..|head|] + rest[|head|..n - 1];
      ContainsSub(u[|head|..] + rest[..|head|], rest[|head|..n - 1], [], need);
      assert u[|head|..] + rest[..|head|] + rest[|head|..n - 1] + [] == t[|head|..|u| + n - 1];
    }
  }

  /** If `head` starts in a short `u` and runs on into `repl`, then `repl`
      begins with the tail of `head`, or `repl` ends inside `head`. */
  lemma HeadStraddle(head: string, u: string, repl: string, r: string)
    ensures (0 < |u| < |head| && |repl| > 0 && IsPrefix(head, u + repl + r))
        ==> IsPrefix(head[|u|..], repl) || repl[|repl| - 1] in head
  {
    if 0 < |u| < |head| && |repl| > 0 && IsPrefix(head, u + repl + r) {
      var s := u + repl + r;
      if |head| - |u| <= |repl| {
        assert repl[..|head| - |u|] == s[|u|..|head|] == head[|u|..];
      } else {
        assert repl[|repl| - 1] == s[|u| + |repl| - 1] == head[|u| + |repl| - 1];
      }
    }
  }

  /** Where a kept prefix `u` of a text without a front match is followed by
      an inert replacement, no match starts at the front either. */
  lemma FrontStaysClear(head: string, need: string, u: string, repl: string, r: string, rest: string)
    requires '}' !in head && Inert(head, need, repl) && |u| > 0
    requires RuleMatchLen(head, need, u + rest) == 0 && RuleMatchLen(head, need, rest) > 0
    ensures RuleMatchLen(head, need, u + repl + r) == 0
  {
    if '}' in u {
      RuleMatchLenExtend(head, need, u, repl + r);
      RuleMatchLenExtend(head, need, u, rest);
      Assoc(u, repl, r);
    } else if |head| <= |u| {
      ShiftMatch(head, need, u, rest, RuleMatchLen(head, need, rest));
      assert (u + repl + r)[..|head|] == u[..|head|];
    } else {
      HeadStraddle(head, u, repl, r);
    }
  }

  /** An inert replacement in front of a text without matches adds none. */
  lemma ClearAfterReplaced(head: string, need: string, repl: string, rest: string)
    requires '}' !in head && Inert(head, need, repl)
    requires !Found(Matcher(Rule(head, need)), rest)
    ensures !Found(Matcher(Rule(head, need)), repl + rest)
  {
    var m := Matcher(Rule(head, need));
    forall q | 0 <= q < |repl|
      ensures m((repl + rest)[q..]) == 0
    {
      MatcherRule(head, need, (repl + rest)[q..]);
      InertPrefix(head, need, repl, rest, q);
    }
    NotFoundAppend(m, repl, rest);
  }

  /** The leftmost match after the first character of `t` is at offset `j`
      and has length `n`; the kept character and the replacement that follows
      do not start a match. */
  lemma KeptBeforeMatch(head: string, need: string, t: string, repl: string, j: nat, n: nat)
    requires '}' !in head && Inert(head, need, repl)
    requires |t| > 0 && RuleMatchLen(head, need, t) == 0
    requires j < |t[1..]| && n == RuleMatchLen(head, need, t[1..][j..]) && n > 0
    requires forall i :: 0 <= i < j ==> Matcher(Rule(head, need))(t[1..][i..]) == 0
    ensures RuleMatchLen(head, need, [t[0]] + SubAll(Matcher(Rule(head, need)), t[1..], repl)) == 0
  {
    var m := Matcher(Rule(head, need));
    MatcherRule(head, need, t[1..][j..]);
    KeptShape(m, t, repl, j, n);
    var u, rest, r := t[..j + 1], t[j + 1..], SubAll(m, t[1..][j + n..], repl);
    assert RuleMatchLen(head, need, u + rest) == 0;
    assert RuleMatchLen(head, need, rest) > 0;
    FrontStaysClear(head, need, u, repl, r, rest);
  }

  /** The first character kept, then the text up to the next match, the
      replacement and the rest. */
  lemma KeptShape(m: string -> nat, t: string, repl: string, j: nat, n: nat)
    requires Sane(m) && |t| > 0
    requires j < |t[1..]| && n == m(t[1..][j..]) && n > 0
    requires forall i :: 0 <= i < j ==> m(t[1..][i..]) == 0
    ensures [t[0]] + SubAll(m, t[1..], repl)
         == t[..j + 1] + repl + SubAll(m, t[1..][j + n..], repl)
    ensures t == t[..j + 1] + t[j + 1..] && t[1..][j..] == t[j + 1..]
  {
    SubAllFirst(m, t[1..], repl, j, n);
    FirstAndRest(t, j + 1, repl, SubAll(m, t[1..][j + n..], repl));
  }

  /** A character kept because no match starts at it does not start one in
      the result either. */
  lemma KeptFront(head: string, need: string, t: string, repl: string)
    requires '}' !in head && Inert(head, need, repl)
    requires |t| > 0 && RuleMatchLen(head, need, t) == 0
    ensures RuleMatchLen(head, need, [t[0]] + SubAll(Matcher(Rule(head, need)), t[1..], repl)) == 0
  {
    var m := Matcher(Rule(head, need));
    if Found(m, t[1..]) {
      KeptBeforeFirst(head, need, t, repl);
    } else {
      SubAllNoMatch(m, t[1..], repl);
      FirstAndTail(t);
    }
  }

  /** A non-empty text is its first character and the rest. */
  lemma FirstAndTail(t: string)
    requires |t| > 0
    ensures [t[0]] + t[1..] == t
  {
  }

  /** `KeptBeforeMatch` for the leftmost match of the rest of the text. */
  lemma KeptBeforeFirst(head: string, need: string, t: string, repl: string)
    requires '}' !in head && Inert(head, need, repl)
    requires |t| > 0 && RuleMatchLen(head, need, t) == 0
    requires Found(Matcher(Rule(head, need)), t[1..])
    ensures RuleMatchLen(head, need, [t[0]] + SubAll(Matcher(Rule(head, need)), t[1..], repl)) == 0
  {
    var m := Matcher(Rule(head, need));
    var j := FirstMatch(m, t[1..]);
    MatcherRule(head, need, t[1..][j..]);
    KeptBeforeMatch(head, need, t, repl, j, m(t[1..][j..]));
  }

  /** Hence nothing kept in front of a clear result starts a match. */
  lemma ClearAfterKept(head: string, need: string, t: string, repl: string)
    requires '}' !in head && Inert(head, need, repl)
    requires |t| > 0 && RuleMatchLen(head, need, t) == 0
    requires !Found(Matcher(Rule(head, need)), SubAll(Matcher(Rule(head, need)), t[1..], repl))
    ensures !Found(Matcher(Rule(head, need)), [t[0]] + SubAll(Matcher(Rule(head, need)), t[1..], repl))
  {
    var s1 := SubAll(Matcher(Rule(head, need)), t[1..], repl);
    KeptFront(head, need, t, repl);
    MatcherRule(head, need, [t[0]] + s1);
    assert ([t[0]] + s1)[1..] == s1;
  }

  /** After substituting an inert replacement for every `Rule(head, need)`
      match, no match is left. */
  lemma {:induction false} SubAllClears(head: string, need: string, t: string, repl: string)
    requires '}' !in head && Inert(head, need, repl)
    ensures !Found(Matcher(Rule(head, need)), SubAll(Matcher(Rule(head, need)), t, repl))
    decreases |t|
  {
    var m := Matcher(Rule(head, need));
    if |t| > 0 {
      var n := m(t);
      if n > 0 {
        SubAllClears(head, need, t[n..], repl);
        ClearAfterReplaced(head, need, repl, SubAll(m, t[n..], repl));
      } else {
        SubAllClears(head, need, t[1..], repl);
        ClearAfterKept(head, need, t, repl);
      }
    }
  }

  /** One `re.sub` inserts the replacement as soon as there is a match. */
  lemma SubAllInserts(m: string -> nat, t: string, repl: string)
    requires Sane(m) && Found(m, t)
    ensures Contains(SubAll(m, t, repl), repl)
  {
    var i := FirstMatch(m, t);
    var n := m(t[i..]);
    SubAllFirst(m, t, repl, i, n);
    ContainsIff(repl, repl);
    assert IsPrefix(repl, repl[0..]);
    ContainsSub(t[..i], repl, SubAll(m, t[i + n..], repl), repl);
  }

  /** Substitute only when a search for `p` in `t` succeeds. */
  function SubIfFound(p: Pattern, t: string, repl: string): (r: string)
    ensures !Found(Matcher(p), t) ==> r == t
    ensures Found(Matcher(p), t) ==> Contains(r, repl)
  {
    if Found(Matcher(p), t) then
      SubAllInserts(Matcher(p), t, repl);
      SubAll(Matcher(p), t, repl)
    else
      t
  }

  /** The `re.search` guard is redundant: the guarded substitution is the
      plain one. */
  lemma SubIfFoundIsSubAll(p: Pattern, t: string, repl: string)
    ensures SubIfFound(p, t, repl) == SubAll(Matcher(p), t, repl)
  {
    SubAllNoMatch(Matcher(p), t, repl);
  }

  /** A rule is only found in a text that holds its head. */
  lemma RuleNeedsHead(head: string, need: string, t: string)
    ensures Found(Matcher(Rule(head, need)), t) ==> Contains(t, head)
  {
    var m := Matcher(Rule(head, need));
    FoundIff(m, t);
    if Found(m, t) {
      var q :| 0 <= q <= |t| && m(t[q..]) > 0;
      MatcherRule(head, need, t[q..]);
      ContainsIff(t, head);
    }
  }

  /** On a text that is `head`, a body without `}`, a `}` and anything
      else, the rule matches the head, body and brace exactly when the body
      holds `need`. */
  lemma RuleShape(head: string, need: string, body: string, x: string)
    requires '}' !in head && '}' !in body
    ensures RuleMatchLen(head, need, head + body + "}" + x)
         == if Contains(body, need) then |head| + |body| + 1 else 0
  {
    var t := head + body + "}" + x;
    var n0 := |head| + |body| + 1;
    assert t[..|head|] == head;
    assert t[|head|..n0 - 1] == body;
    assert forall i :: |head| <= i < n0 - 1 ==> t[i] == body[i - |head|];
    if Contains(body, need) {
      assert RuleMatch(head, need, t, n0);
    } else {
      RuleShapeEnd(head, need, body, x, RuleMatchLen(head, need, t));
    }
  }

  /** On such a text any match ends at the brace after the body. */
  lemma RuleShapeEnd(head: string, need: string, body: string, x: string, n: nat)
    requires '}' !in body
    ensures RuleMatch(head, need, head + body + "}" + x, n) ==> n == |head| + |body| + 1
  {
    var t := head + body + "}" + x;
    var n0 := |head| + |body| + 1;
    if RuleMatch(head, need, t, n) {
      assert t[n0 - 1] == '}';
      assert forall i :: |head| <= i < n0 - 1 ==> t[i] == body[i - |head|];
    }
  }

  /** Substituting for a rule with an inert replacement, guarded or not,
      leaves no match of the rule. */
  lemma SubIfFoundClears(head: string, need: string, t: string, repl: string)
    requires '}' !in head && Inert(head, need, repl)
    ensures !Found(Matcher(Rule(head, need)), SubIfFound(Rule(head, need), t, repl))
  {
    SubIfFoundIsSubAll(Rule(head, need), t, repl);
    SubAllClears(head, need, t, repl);
  }

  /** A replacement laid out as `lead`, `head`, a first body, `}`, more
      rules and a final `}` is inert for `Rule(head, need)` when the first
      body has no `}` and lacks `need`, no `head` starts after the one at
      the front, and no tail of `head` starts `lead + head`. */
  lemma InertSheet(lead: string, head: string, need: string, body: string, rest: string)
    requires |head| > 1 && '}' !in head && head[0] !in lead && head[0] !in head[1..]
    requires '}' !in body && !Contains(body, need)
    requires NoStartBefore(body + ("}" + rest + "}"), head, |body|)
    requires NoStartBefore(rest + "}", head, |rest|)
    requires forall j :: 0 < j < |head| ==> !IsPrefix(head[j..], lead + head)
    ensures Inert(head, need, lead + head + body + "}" + rest + "}")
  {
    RuleFreeSheet(lead, head, need, body, rest);
    var repl := lead + head + body + "}" + rest + "}";
    forall j | 0 < j < |head|
      ensures !IsPrefix(head[j..], repl)
    {
      assert !IsPrefix(head[j..], lead + head);
      assert repl[..|lead + head|] == lead + head;
    }
  }

  /** In such a sheet no match of `Rule(head, need)` starts anywhere. */
  lemma RuleFreeSheet(lead: string, head: string, need: string, body: string, rest: string)
    requires |head| > 1 && '}' !in head && head[0] !in lead && head[0] !in head[1..]
    requires '}' !in body && !Contains(body, need)
    requires NoStartBefore(body + ("}" + rest + "}"), head, |body|)
    requires NoStartBefore(rest + "}", head, |rest|)
    ensures var repl := lead + head + body + "}" + rest + "}";
      forall q :: 0 <= q < |repl| ==> RuleMatchLen(head, need, repl[q..]) == 0
  {
    var s1 := head[1..] + (body + ("}" + rest + "}"));
    NoStartAfterHead(head, body, rest);
    var repl := lead + head + body + "}" + rest + "}";
    assert repl == lead + ([head[0]] + s1) by {
      assert head == [head[0]] + head[1..];
    }
    forall q | 0 <= q < |repl|
      ensures RuleMatchLen(head, need, repl[q..]) == 0
    {
      if q < |lead| {
        assert repl[q..][0] == lead[q];
      } else if q == |lead| {
        assert repl[q..] == head + body + "}" + (rest + "}");
        RuleShape(head, need, body, rest + "}");
      } else {
        assert repl[q..] == s1[q - |lead| - 1..];
      }
    }
  }

  /** After the first character of `head`, no further `head` starts in the
      sheet. */
  lemma NoStartAfterHead(head: string, body: string, rest: string)
    requires |head| > 1 && head[0] != '}' && head[0] !in head[1..]
    requires NoStartBefore(body + ("}" + rest + "}"), head, |body|)
    requires NoStartBefore(rest + "}", head, |rest|)
    ensures var s := head[1..] + (body + ("}" + rest + "}")); NoStartBefore(s, head, |s|)
  {
    var s4 := rest + "}";
    forall j | |rest| <= j < |s4|
      ensures !IsPrefix(head, s4[j..])
    {
      assert |s4[j..]| == 1;
    }
    assert s4 + "" == s4;
    assert NoStartBefore(s4 + "", head, |s4|);
    var tl := "}" + rest + "}";
    NoStartPlain("}", s4, "", head, |s4|);
    assert "}" + s4 + "" == tl;
    NoStartJoin(body, tl, head);
    assert body + tl + "" == body + tl;
    NoStartPlain(head[1..], body + tl, "", head, |body + tl|);
    assert head[1..] + (body + tl) + "" == head[1..] + (body + tl);
  }

  /** The script matcher is the script match length. */
  lemma MatcherScript(x: string)
    ensures Matcher(HighlightScript)(x) == ScriptMatchLen(x)
  {
  }

  /** A script block `<script>`, `a`, the key, `b`, `</script>`, where no
      key starts in `a` and no closing tag starts in `b`: the lazy match
      runs exactly through that closing tag. */
  lemma ScriptMatchShape(a: string, b: string, x: string)
    requires NoStartBefore(a + (ScriptKey + b + ScriptClose + x), ScriptKey, |a|)
    requires NoStartBefore(b + (ScriptClose + x), ScriptClose, |b|)
    ensures ScriptMatchLen(ScriptOpen + a + ScriptKey + b + ScriptClose + x)
         == |ScriptOpen| + |a| + |ScriptKey| + |b| + |ScriptClose|
  {
    LazyMatchShape(ScriptOpen, ScriptKey, ScriptClose, a, b, x);
  }

  /** A script match holds the key. */
  lemma ScriptMatchHasKey(u: string)
    ensures ScriptMatchLen(u) > 0 ==> Contains(u, ScriptKey)
  {
    LazyMatchHasKey(ScriptOpen, ScriptKey, ScriptClose, u);
  }

  /** A script match is only found in a text that names the highlighter. */
  lemma ScriptNeedsKey(t: string)
    ensures Found(Matcher(HighlightScript), t) ==> Contains(t, ScriptKey)
  {
    var m := Matcher(HighlightScript);
    FoundIff(m, t);
    if Found(m, t) {
      var q :| 0 <= q <= |t| && m(t[q..]) > 0;
      var u := t[q..];
      MatcherScript(u);
      ScriptMatchHasKey(u);
      ContainsSuffix(t, q, ScriptKey);
    }
  }

  /** Deleting matches never lengthens the text. */
  lemma {:induction false} SubAllShrinks(m: string -> nat, t: string)
    requires Sane(m)
    ensures |SubAll(m, t, "")| <= |t|
    decreases |t|
  {
    if |t| > 0 {
      var n := m(t);
      if n > 0 {
        SubAllShrinks(m, t[n..]);
      } else {
        SubAllShrinks(m, t[1..]);
      }
    }
  }
}
