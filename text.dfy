/** Python string operations used by the three scripts, on `string` (= seq<char>):
    `p in s`, `s.index(p)`, `s.split(sep)`, `sep.join(parts)`, `s.replace(old, new)`
    and `s.strip()`. */
module Text {

  /** `s` starts with `p`. */
  predicate IsPrefix(p: string, s: string) {
    |p| <= |s| && s[..|p|] == p
  }

  /** Python's `p in s`: `p` occurs in `s` at some offset. */
  predicate Contains(s: string, p: string)
    decreases |s|
  {
    IsPrefix(p, s) || (|s| > 0 && Contains(s[1..], p))
  }

  /** The recursive definition agrees with "there is an offset where `p` starts". */
  lemma {:induction false} ContainsIff(s: string, p: string)
    ensures Contains(s, p) <==> exists i :: 0 <= i <= |s| && IsPrefix(p, s[i..])
    decreases |s|
  {
    if |s| > 0 {
      ContainsIff(s[1..], p);
      if Contains(s[1..], p) {
        var i :| 0 <= i <= |s[1..]| && IsPrefix(p, s[1..][i..]);
        assert s[1..][i..] == s[i + 1..];
      }
      if exists i :: 0 <= i <= |s| && IsPrefix(p, s[i..]) {
        var i :| 0 <= i <= |s| && IsPrefix(p, s[i..]);
        if i > 0 {
          assert s[1..][i - 1..] == s[i..];
        }
      }
    }
    assert s[0..] == s;
  }

  /** An occurrence at a known offset. */
  lemma ContainsAt(s: string, p: string, i: nat)
    requires i + |p| <= |s| && s[i..i + |p|] == p
    ensures Contains(s, p)
  {
    assert s[i..][..|p|] == s[i..i + |p|];
    ContainsIff(s, p);
  }

  /** An occurrence inside a middle piece is an occurrence of the whole. */
  lemma ContainsSub(a: string, m: string, b: string, q: string)
    requires Contains(m, q)
    ensures Contains(a + m + b, q)
  {
    ContainsIff(m, q);
    var i :| 0 <= i <= |m| && IsPrefix(q, m[i..]);
    var s := a + m + b;
    assert s[|a| + i..][..|q|] == m[i..][..|q|];
    ContainsIff(s, q);
  }

  /** A text holds each of its middle pieces. */
  lemma ContainsMiddle(a: string, q: string, b: string)
    ensures Contains(a + q + b, q)
  {
    ContainsIff(q, q);
    assert IsPrefix(q, q[0..]);
    ContainsSub(a, q, b, q);
  }

  /** A text that holds `p + q` holds `p`. */
  lemma ContainsPrefixOf(s: string, p: string, q: string)
    requires Contains(s, p + q)
    ensures Contains(s, p)
  {
    ContainsIff(s, p + q);
    var i :| 0 <= i <= |s| && IsPrefix(p + q, s[i..]);
    assert s[i..][..|p|] == (p + q)[..|p|];
    ContainsIff(s, p);
  }

  /** Being a substring is transitive. */
  lemma ContainsTrans(s: string, m: string, q: string)
    requires Contains(s, m) && Contains(m, q)
    ensures Contains(s, q)
  {
    ContainsIff(s, m);
    var i :| 0 <= i <= |s| && IsPrefix(m, s[i..]);
    assert s == s[..i] + m + s[i + |m|..];
    ContainsSub(s[..i], m, s[i + |m|..], q);
  }

  /** `p` has no occurrence in `s` that ends at or before offset `n`. */
  lemma {:induction false} NoEarlyOccurrence(s: string, p: string, n: nat)
    requires n <= |s|
    requires forall j :: 0 <= j < n ==> !IsPrefix(p, s[j..])
    requires |p| > 0
    ensures !Contains(s[..n], p)
  {
    ContainsIff(s[..n], p);
    forall j | 0 <= j <= n
      ensures !IsPrefix(p, s[..n][j..])
    {
      if j < n {
        assert !IsPrefix(p, s[j..]);
        if |p| <= n - j {
          assert s[..n][j..][..|p|] == s[j..][..|p|];
        }
      }
    }
  }

  /** `s.index(p)`: the offset of the first occurrence of `p` in `s`. */
  function IndexOf(s: string, p: string): (i: nat)
    requires Contains(s, p)
    ensures i + |p| <= |s| && IsPrefix(p, s[i..])
    ensures forall j :: 0 <= j < i ==> !IsPrefix(p, s[j..])
    decreases |s|
  {
    if IsPrefix(p, s) then 0
    else
      var k := IndexOf(s[1..], p);
      assert forall j :: 1 <= j <= |s| ==> s[j..] == s[1..][j - 1..];
      k + 1
  }

  /** An occurrence in a suffix is an occurrence in the text. */
  lemma ContainsSuffix(s: string, i: nat, p: string)
    requires i <= |s| && Contains(s[i..], p)
    ensures Contains(s, p)
  {
    ContainsIff(s[i..], p);
    var k :| 0 <= k <= |s[i..]| && IsPrefix(p, s[i..][k..]);
    assert s[i..][k..] == s[i + k..];
    ContainsIff(s, p);
  }

  /** No occurrence of `p` starts in `s` before offset `n`. */
  predicate NoStartBefore(s: string, p: string, n: nat) {
    n <= |s| && forall j :: 0 <= j < n ==> !IsPrefix(p, s[j..])
  }

  /** The first occurrence of `p` in `s[lo..]`, as an offset into `s`:
      `p` starts there and nowhere from `lo` up to it. */
  lemma FirstInSuffix(s: string, lo: nat, p: string, i: nat)
    requires lo <= |s| && Contains(s[lo..], p) && i == lo + IndexOf(s[lo..], p)
    ensures i + |p| <= |s| && IsPrefix(p, s[i..])
    ensures forall j :: lo <= j < i ==> !IsPrefix(p, s[j..])
  {
    assert s[lo..][i - lo..] == s[i..];
    forall j | lo <= j < i
      ensures !IsPrefix(p, s[j..])
    {
      assert s[lo..][j - lo..] == s[j..];
    }
  }

  /** An occurrence at `k` with none from `lo` up to `k` is the first one
      in `s[lo..]`. */
  lemma FirstFrom(s: string, p: string, lo: nat, k: nat)
    requires lo <= k <= |s| && IsPrefix(p, s[k..])
    requires forall j :: lo <= j < k ==> !IsPrefix(p, s[j..])
    ensures Contains(s[lo..], p) && lo + IndexOf(s[lo..], p) == k
  {
    assert s[lo..][k - lo..] == s[k..];
    ContainsIff(s[lo..], p);
    var i := IndexOf(s[lo..], p);
    assert s[lo..][i..] == s[lo + i..];
  }

  /** Before a text `w` that starts with a character foreign to `p`, a text
      `u` without `p` starts no occurrence either, not even one running
      into `w`. */
  lemma NoStartAfterFree(u: string, w: string, p: string, k: nat)
    requires !Contains(u, p) && |w| > 0 && w[0] !in p && NoStartBefore(w, p, k)
    ensures NoStartBefore(u + w, p, |u| + k)
  {
    var s := u + w;
    ContainsIff(u, p);
    forall j | 0 <= j < |u| + k
      ensures !IsPrefix(p, s[j..])
    {
      if j + |p| <= |u| {
        assert !IsPrefix(p, u[j..]);
        assert s[j..][..|p|] == u[j..][..|p|];
      } else if j < |u| {
        assert s[j..][|u| - j] == w[0];
      } else {
        assert s[j..] == w[j - |u|..];
      }
    }
  }

  /** A piece without the first character of `p` starts no occurrence. */
  lemma NoStartPlain(c: string, r: string, x: string, p: string, n: nat)
    requires |p| > 0 && p[0] !in c && NoStartBefore(r + x, p, n)
    ensures NoStartBefore(c + r + x, p, |c| + n)
  {
    var s := c + r + x;
    assert s == c + (r + x);
    forall j | 0 <= j < |c| + n
      ensures !IsPrefix(p, s[j..])
    {
      if j < |c| {
        assert s[j] == c[j] && c[j] in c;
        assert |s[j..]| > 0 && s[j..][0] == s[j];
      } else {
        assert s[j..] == (r + x)[j - |c|..];
      }
    }
  }

  /** A one-character piece starts no occurrence when the character `k`
      places further on differs from `p[k]`. */
  lemma NoStartProbe(c: string, r: string, x: string, p: string, n: nat, k: nat)
    requires |c| == 1 && 0 < k < |p| && k <= |r| && r[k - 1] != p[k]
    requires NoStartBefore(r + x, p, n)
    ensures NoStartBefore(c + r + x, p, 1 + n)
  {
    var s := c + r + x;
    assert s == c + (r + x);
    forall j | 0 <= j < 1 + n
      ensures !IsPrefix(p, s[j..])
    {
      if j == 0 {
        assert s[k] == r[k - 1];
        assert s[0..] == s;
      } else {
        assert s[j..] == (r + x)[j - 1..];
      }
    }
  }

  /** A piece starts no occurrence when the piece of the same length after
      it lacks the character of `p` that many places on. */
  lemma NoStartAhead(c: string, d: string, r: string, x: string, p: string, n: nat)
    requires |c| == |d| < |p| && p[|c|] !in d
    requires NoStartBefore(d + r + x, p, n)
    ensures NoStartBefore(c + (d + r) + x, p, |c| + n)
  {
    var s := c + (d + r) + x;
    assert s == c + (d + r + x);
    forall j | 0 <= j < |c| + n
      ensures !IsPrefix(p, s[j..])
    {
      if j < |c| {
        assert s[j + |c|] == d[j] && d[j] in d;
        assert |s[j..]| > |c| ==> s[j..][|c|] == s[j + |c|];
      } else {
        assert s[j..] == (d + r + x)[j - |c|..];
      }
    }
  }

  /** Two texts without a start of `p` in front of whatever follows them
      make one. */
  lemma NoStartJoin(u: string, w: string, p: string)
    requires NoStartBefore(u + w, p, |u|) && NoStartBefore(w, p, |w|)
    ensures NoStartBefore(u + w, p, |u| + |w|)
  {
    var s := u + w;
    forall j | |u| <= j < |u| + |w|
      ensures !IsPrefix(p, s[j..])
    {
      assert s[j..] == w[j - |u|..];
    }
  }

  /** A text in which no `p` starts does not contain `p`. */
  lemma NoStartNotContains(s: string, p: string)
    requires |p| > 0 && NoStartBefore(s, p, |s|)
    ensures !Contains(s, p)
  {
    ContainsIff(s, p);
  }

  /** A text in which no one-character `p` starts lacks that character. */
  lemma NoStartNoChar(s: string, c: char)
    requires NoStartBefore(s, [c], |s|)
    ensures c !in s
  {
    forall i | 0 <= i < |s|
      ensures s[i] != c
    {
      assert s[i..][..1] == [s[i]];
    }
  }

  /** `s.split(sep)` for a non-empty separator: the pieces between the
      left-to-right, non-overlapping occurrences of `sep`. */
  function Split(s: string, sep: string): (parts: seq<string>)
    requires |sep| > 0
    ensures |parts| >= 1
    ensures |parts| == 1 <==> !Contains(s, sep)
    ensures forall k :: 0 <= k < |parts| ==> !Contains(parts[k], sep)
    decreases |s|
  {
    if !Contains(s, sep) then [s]
    else
      var i := IndexOf(s, sep);
      NoEarlyOccurrence(s, sep, i);
      [s[..i]] + Split(s[i + |sep|..], sep)
  }

  /** `sep.join(parts)`. */
  function Join(parts: seq<string>, sep: string): string
    decreases |parts|
  {
    if |parts| == 0 then ""
    else if |parts| == 1 then parts[0]
    else parts[0] + sep + Join(parts[1..], sep)
  }

  /** Joining the pieces of a split with the separator gives back the text. */
  lemma {:induction false} JoinSplit(s: string, sep: string)
    requires |sep| > 0
    ensures Join(Split(s, sep), sep) == s
    decreases |s|
  {
    if Contains(s, sep) {
      var i := IndexOf(s, sep);
      var rest := s[i + |sep|..];
      assert Split(s, sep) == [s[..i]] + Split(rest, sep);
      JoinSplit(rest, sep);
      JoinCons(s[..i], Split(rest, sep), sep);
      ThreeWay(s, i, |sep|);
      assert s[i..i + |sep|] == s[i..][..|sep|];
    }
  }

  /** A text is its prefix, a middle slice and the rest. */
  lemma ThreeWay(s: string, i: nat, n: nat)
    requires i + n <= |s|
    ensures s == s[..i] + s[i..i + n] + s[i + n..]
  {
  }

  /** Concatenation regrouped. */
  lemma Assoc<T>(a: seq<T>, b: seq<T>, c: seq<T>)
    ensures a + (b + c) == a + b + c
  {
  }

  /** Joining a non-empty tail after a first piece. */
  lemma JoinCons(a: string, rest: seq<string>, sep: string)
    requires |rest| >= 1
    ensures Join([a] + rest, sep) == a + sep + Join(rest, sep)
  {
    assert ([a] + rest)[1..] == rest;
  }

  /** Two pieces joined. */
  lemma JoinTwo(a: string, b: string, sep: string)
    ensures Join([a, b], sep) == a + sep + b
  {
    assert [a, b][1..] == [b];
  }

  /** Two texts without a one-character separator do not make one. */
  lemma NoSepConcat(x: string, y: string, sep: string)
    requires |sep| == 1 && !Contains(x, sep) && !Contains(y, sep)
    ensures !Contains(x + y, sep)
  {
    ContainsIff(x, sep);
    ContainsIff(y, sep);
    ContainsIff(x + y, sep);
    forall i | 0 <= i <= |x + y|
      ensures !IsPrefix(sep, (x + y)[i..])
    {
      if i < |x| {
        assert (x + y)[i..][..1] == x[i..][..1];
      } else {
        assert (x + y)[i..] == y[i - |x|..];
      }
    }
  }

  /** With a one-character separator, the split of `a + sep + b` is the split
      of `a` followed by the split of `b`. */
  lemma {:induction false} SplitAround(a: string, sep: string, b: string)
    requires |sep| == 1
    ensures Split(a + sep + b, sep) == Split(a, sep) + Split(b, sep)
    decreases |a|
  {
    if Contains(a, sep) {
      var i := IndexOf(a, sep);
      var rest := a[i + 1..];
      SplitAroundFirst(a, sep, b);
      SplitAround(rest, sep, b);
      Assoc([a[..i]], Split(rest, sep), Split(b, sep));
    } else {
      SplitAroundLast(a, sep, b);
    }
  }

  /** The split at the first separator, when there is one. */
  lemma {:induction false} SplitAt(s: string, sep: string)
    requires |sep| > 0
    ensures Contains(s, sep) ==> Split(s, sep) == [s[..IndexOf(s, sep)]] + Split(s[IndexOf(s, sep) + |sep|..], sep)
  {
    if Contains(s, sep) {
      var i := IndexOf(s, sep);
      var rest := s[i + |sep|..];
      assert Split(s, sep) == [s[..i]] + Split(rest, sep);
    }
  }

  /** The first separator of `a + sep + b` is the first one in `a`, if any. */
  lemma {:induction false} SplitAroundFirst(a: string, sep: string, b: string)
    requires |sep| == 1
    ensures Contains(a, sep) ==>
      var i := IndexOf(a, sep);
      && Split(a + sep + b, sep) == [a[..i]] + Split(a[i + 1..] + sep + b, sep)
      && Split(a, sep) == [a[..i]] + Split(a[i + 1..], sep)
  {
    if Contains(a, sep) {
      var i := IndexOf(a, sep);
      var s := a + sep + b;
      FirstSepInFront(a, sep, b, i);
      assert s[..i] == a[..i];
      assert s[i + 1..] == a[i + 1..] + sep + b;
      SplitAt(s, sep);
      SplitAt(a, sep);
      assert i + |sep| == i + 1;
    }
  }

  /** A one-character separator starts a text exactly when its first
      character does. */
  lemma PrefixOne(sep: string, x: string)
    requires |sep| == 1
    ensures IsPrefix(sep, x) <==> |x| > 0 && x[0] == sep[0]
  {
    if |x| > 0 && x[0] == sep[0] {
      assert x[..1] == sep;
    }
  }

  lemma FirstSepInFront(a: string, sep: string, b: string, i: nat)
    requires |sep| == 1 && Contains(a, sep) && i == IndexOf(a, sep)
    ensures Contains(a + sep + b, sep) && IndexOf(a + sep + b, sep) == i
  {
    var s := a + sep + b;
    assert i < |a|;
    forall j | 0 <= j < i
      ensures !IsPrefix(sep, s[j..])
    {
      PrefixOne(sep, a[j..]);
      PrefixOne(sep, s[j..]);
      assert s[j..][0] == a[j..][0];
    }
    PrefixOne(sep, a[i..]);
    PrefixOne(sep, s[i..]);
    assert s[i..][0] == a[i..][0];
    FirstFrom(s, sep, 0, i);
    assert s[0..] == s;
  }

  /** Otherwise it is the one after `a`. */
  lemma SplitAroundLast(a: string, sep: string, b: string)
    requires |sep| == 1 && !Contains(a, sep)
    ensures Split(a + sep + b, sep) == [a] + Split(b, sep)
  {
    var s := a + sep + b;
    ContainsIff(a, sep);
    forall j | 0 <= j < |a|
      ensures !IsPrefix(sep, s[j..])
    {
      assert !IsPrefix(sep, a[j..]);
      PrefixOne(sep, a[j..]);
      PrefixOne(sep, s[j..]);
      assert s[j..][0] == a[j..][0];
    }
    PrefixOne(sep, s[|a|..]);
    assert s[|a|..][0] == sep[0];
    FirstFrom(s, sep, 0, |a|);
    assert s[0..] == s;
    SplitAt(s, sep);
    assert s[..|a|] == a;
    assert s[|a| + 1..] == b;
  }

  /** The pieces of every part, part after part. */
  function SplitEach(parts: seq<string>, sep: string): (r: seq<string>)
    requires |sep| > 0
    ensures (forall k :: 0 <= k < |parts| ==> !Contains(parts[k], sep)) ==> r == parts
    decreases |parts|
  {
    if parts == [] then []
    else Split(parts[0], sep) + SplitEach(parts[1..], sep)
  }

  lemma {:induction false} SplitEachAppend(a: seq<string>, b: seq<string>, sep: string)
    requires |sep| > 0
    ensures SplitEach(a + b, sep) == SplitEach(a, sep) + SplitEach(b, sep)
    decreases |a|
  {
    if a == [] {
      assert a + b == b;
    } else {
      assert (a + b)[1..] == a[1..] + b;
      SplitEachAppend(a[1..], b, sep);
    }
  }

  /** With a one-character separator, splitting a join gives the pieces of
      each part in turn (a part holding the separator falls apart). */
  lemma {:induction false} SplitJoin(parts: seq<string>, sep: string)
    requires |sep| == 1 && |parts| >= 1
    ensures Split(Join(parts, sep), sep) == SplitEach(parts, sep)
    decreases |parts|
  {
    if |parts| == 1 {
      assert parts[1..] == [];
    } else {
      SplitAround(parts[0], sep, Join(parts[1..], sep));
      SplitJoin(parts[1..], sep);
    }
  }

  /** The parts with `pre` put before the first and `post` after the last. */
  function Framed(pre: string, parts: seq<string>, post: string): (r: seq<string>)
    requires |parts| >= 1
    ensures |r| == |parts|
    decreases |parts|
  {
    if |parts| == 1 then [pre + parts[0] + post]
    else [pre + parts[0]] + Framed("", parts[1..], post)
  }

  /** Splitting a framed join of parts free of a one-character separator
      gives back the framed parts. */
  lemma {:induction false} SplitFramed(pre: string, parts: seq<string>, post: string, sep: string)
    requires |sep| == 1 && |parts| >= 1
    requires !Contains(pre, sep) && !Contains(post, sep)
    requires forall k :: 0 <= k < |parts| ==> !Contains(parts[k], sep)
    ensures Split(pre + Join(parts, sep) + post, sep) == Framed(pre, parts, post)
    decreases |parts|
  {
    if |parts| == 1 {
      NoSepConcat(pre, parts[0], sep);
      NoSepConcat(pre + parts[0], post, sep);
    } else {
      var rest := parts[1..];
      assert pre + Join(parts, sep) + post == (pre + parts[0]) + sep + ("" + Join(rest, sep) + post);
      SplitAround(pre + parts[0], sep, "" + Join(rest, sep) + post);
      NoSepConcat(pre, parts[0], sep);
      SplitFramed("", rest, post, sep);
    }
  }

  /** A prefix of a text without `p` is without `p`. */
  lemma NotContainsPrefix(x: string, s: string, p: string)
    requires IsPrefix(x, s) && !Contains(s, p)
    ensures !Contains(x, p)
  {
    ContainsIff(s, p);
    ContainsIff(x, p);
    forall i | 0 <= i <= |x|
      ensures !IsPrefix(p, x[i..])
    {
      if i + |p| <= |x| {
        assert x[i..][..|p|] == s[i..][..|p|];
      }
    }
  }

  /** A text lacking one of the characters of `p` does not contain `p`. */
  lemma LacksChar(s: string, p: string, k: nat)
    requires k < |p| && p[k] !in s
    ensures !Contains(s, p)
  {
    ContainsIff(s, p);
    forall i | 0 <= i <= |s|
      ensures !IsPrefix(p, s[i..])
    {
      if i + |p| <= |s| {
        assert s[i..][..|p|][k] == s[i + k] && s[i + k] in s;
      }
    }
  }

  /** A text without `p` starts no occurrence in front of a text whose first
      character does not occur in `p` past its head. */
  lemma NoStartBeforeHead(u: string, w: string, p: string)
    requires |p| > 0 && !Contains(u, p) && |w| > 0 && w[0] !in p[1..]
    ensures NoStartBefore(u + w, p, |u|)
  {
    var s := u + w;
    ContainsIff(u, p);
    forall j | 0 <= j < |u|
      ensures !IsPrefix(p, s[j..])
    {
      if j + |p| <= |u| {
        assert !IsPrefix(p, u[j..]);
        assert s[j..][..|p|] == u[j..][..|p|];
      } else if j + |p| <= |s| {
        var o := |u| - j;
        assert s[j..][..|p|][o] == w[0];
        assert p[o] == p[1..][o - 1] && p[1..][o - 1] in p[1..];
      }
    }
  }

  /** Where no `q` starts, no text beginning with `q` starts either. */
  lemma NoStartLonger(s: string, q: string, p: string, n: nat)
    requires IsPrefix(q, p) && NoStartBefore(s, q, n)
    ensures NoStartBefore(s, p, n)
  {
  }

  /** A text without `p` starts no occurrence of it. */
  lemma NotContainsNoStart(s: string, p: string)
    requires !Contains(s, p)
    ensures NoStartBefore(s, p, |s|)
  {
    ContainsIff(s, p);
  }

  /** No `p` in `u + w` when there is none in `w` and none starts in `u`. */
  lemma NotContainsAfterClear(u: string, w: string, p: string)
    requires |p| > 0 && NoStartBefore(u + w, p, |u|) && !Contains(w, p)
    ensures !Contains(u + w, p)
  {
    NotContainsNoStart(w, p);
    NoStartJoin(u, w, p);
    NoStartNotContains(u + w, p);
  }

  /** No `p` in `c + r` when `c` lacks the head of `p` and `r` lacks `p`. */
  lemma NotContainsAfterHeadless(c: string, r: string, p: string)
    requires |p| > 0 && p[0] !in c && !Contains(r, p)
    ensures !Contains(c + r, p)
  {
    NotContainsNoStart(r, p);
    assert r + "" == r;
    NoStartPlain(c, r, "", p, |r|);
    assert c + r + "" == c + r;
    NoStartNotContains(c + r, p);
  }

  /** No `p` in `u + w` when `u` lacks a head `q` of `p`, `w` lacks `p` and
      starts with a character foreign to `q`. */
  lemma NotContainsAfterFree(u: string, w: string, q: string, p: string)
    requires |q| > 0 && IsPrefix(q, p) && !Contains(u, q)
    requires |w| > 0 && w[0] !in q && !Contains(w, p)
    ensures !Contains(u + w, p)
  {
    NoStartAfterFree(u, w, q, 0);
    NoStartLonger(u + w, q, p, |u|);
    NotContainsAfterClear(u, w, p);
  }

  /** A piece of a join is a substring of the join. */
  lemma {:induction false} ContainsJoinPart(parts: seq<string>, sep: string, k: nat, q: string)
    requires k < |parts| && Contains(parts[k], q)
    ensures Contains(Join(parts, sep), q)
    decreases |parts|
  {
    if |parts| > 1 {
      if k == 0 {
        ContainsSub([], parts[0], sep + Join(parts[1..], sep), q);
        assert [] + parts[0] + (sep + Join(parts[1..], sep)) == Join(parts, sep);
      } else {
        ContainsJoinPart(parts[1..], sep, k - 1, q);
        ContainsSub(parts[0] + sep, Join(parts[1..], sep), [], q);
        assert parts[0] + sep + Join(parts[1..], sep) + [] == Join(parts, sep);
      }
    }
  }

  /** With two or more pieces the separator itself occurs in the join. */
  lemma JoinContainsSep(parts: seq<string>, sep: string)
    requires |parts| >= 2
    ensures Contains(Join(parts, sep), sep)
  {
    ContainsIff(sep, sep);
    assert IsPrefix(sep, sep[0..]);
    ContainsSub(parts[0], sep, Join(parts[1..], sep), sep);
  }

  /** `s.replace(pat, repl)` for non-empty `pat`: every left-to-right,
      non-overlapping occurrence of `pat` is replaced by `repl`. */
  function Replace(s: string, pat: string, repl: string): (r: string)
    requires |pat| > 0
    ensures !Contains(s, pat) ==> r == s
  {
    Join(Split(s, pat), repl)
  }

  /** The text is the pieces joined with `pat`, the result the same pieces
      joined with `repl`, and no piece holds `pat`. */
  lemma ReplacePieces(s: string, pat: string, repl: string)
    requires |pat| > 0
    ensures var parts := Split(s, pat);
      && s == Join(parts, pat)
      && Replace(s, pat, repl) == Join(parts, repl)
      && forall k :: 0 <= k < |parts| ==> !Contains(parts[k], pat)
  {
    JoinSplit(s, pat);
  }

  /** With a single occurrence of `pat`, `s` is the text around it and the
      result has `repl` in its place; what follows it holds nothing `s`
      does not. */
  lemma ReplaceOnce(s: string, pat: string, repl: string, pre: string, post: string, q: string)
    requires |pat| > 0 && Split(s, pat) == [pre, post]
    ensures s == pre + pat + post
    ensures Replace(s, pat, repl) == pre + repl + post
    ensures Contains(post, q) ==> Contains(s, q)
  {
    JoinSplit(s, pat);
    JoinTwo(pre, post, pat);
    JoinTwo(pre, post, repl);
    if Contains(post, q) {
      ContainsSub(pre + pat, post, "", q);
      assert pre + pat + post + "" == s;
    }
  }

  /** When `pat` occurs, everything contained in `repl` occurs in the result. */
  lemma ReplaceInserts(s: string, pat: string, repl: string, q: string)
    requires |pat| > 0 && Contains(s, pat) && Contains(repl, q)
    ensures Contains(Replace(s, pat, repl), q)
  {
    JoinContainsSep(Split(s, pat), repl);
    ContainsTrans(Replace(s, pat, repl), repl, q);
  }

  /** Python's `str.isspace` for one character. */
  predicate IsSpace(c: char) {
    c in {'\t', '\n', '\U{B}', '\U{C}', '\r', '\U{1C}', '\U{1D}', '\U{1E}', '\U{1F}', ' ',
          '\U{85}', '\U{A0}', '\U{1680}', '\U{2000}', '\U{2001}', '\U{2002}', '\U{2003}',
          '\U{2004}', '\U{2005}', '\U{2006}', '\U{2007}', '\U{2008}', '\U{2009}', '\U{200A}',
          '\U{2028}', '\U{2029}', '\U{202F}', '\U{205F}', '\U{3000}'}
  }

  /** Every character is white space. */
  predicate AllSpace(s: string) {
    forall i :: 0 <= i < |s| ==> IsSpace(s[i])
  }

  /** Drops leading white space. */
  function TrimStart(s: string): string
    decreases |s|
  {
    if |s| > 0 && IsSpace(s[0]) then TrimStart(s[1..]) else s
  }

  /** Drops trailing white space. */
  function TrimEnd(s: string): string
    decreases |s|
  {
    if |s| > 0 && IsSpace(s[|s| - 1]) then TrimEnd(s[..|s| - 1]) else s
  }

  /** `s.strip()`. */
  function Strip(s: string): string {
    TrimEnd(TrimStart(s))
  }

  /** Trimming at the end leaves nothing exactly when every character is white space. */
  lemma {:induction false} TrimEndEmpty(s: string)
    ensures TrimEnd(s) == "" <==> AllSpace(s)
    decreases |s|
  {
    if |s| > 0 && IsSpace(s[|s| - 1]) {
      var t := s[..|s| - 1];
      TrimEndEmpty(t);
      assert forall i :: 0 <= i < |t| ==> t[i] == s[i];
    }
  }

  /** Trimming at the start leaves only white space iff everything was white space. */
  lemma {:induction false} TrimStartSpaces(s: string)
    ensures AllSpace(TrimStart(s)) <==> AllSpace(s)
    decreases |s|
  {
    if |s| > 0 && IsSpace(s[0]) {
      var t := s[1..];
      TrimStartSpaces(t);
      assert TrimStart(s) == TrimStart(t);
      if forall i :: 0 <= i < |t| ==> IsSpace(t[i]) {
        forall i | 0 <= i < |s| ensures IsSpace(s[i]) {
          if i > 0 { assert s[i] == t[i - 1]; }
        }
      }
      if forall i :: 0 <= i < |s| ==> IsSpace(s[i]) {
        forall i | 0 <= i < |t| ensures IsSpace(t[i]) {
          assert t[i] == s[i + 1];
        }
      }
    } else {
      assert TrimStart(s) == s;
    }
  }

  /** `s.strip()` is empty (falsy) exactly when `s` holds only white space. */
  lemma StripEmpty(s: string)
    ensures Strip(s) == "" <==> AllSpace(s)
  {
    TrimEndEmpty(TrimStart(s));
    TrimStartSpaces(s);
  }
}
