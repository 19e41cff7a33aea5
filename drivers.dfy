/** The file selection in the `__main__` blocks of add_syntax_highlighting.py
    and update_code_styling.py: of the paths the directory listing yields,
    those that mention `backup` are skipped. */
module Drivers {
  import opened Text

  const BackupMarker: string := "backup"

  /** The list comprehension's test. */
  predicate Selected(path: string) {
    !Contains(path, BackupMarker)
  }

  /** `[f for f in paths if 'backup' not in f]`. */
  function SelectDocs(paths: seq<string>): (r: seq<string>)
    ensures |r| <= |paths|
    ensures forall p :: p in r <==> p in paths && Selected(p)
    decreases |paths|
  {
    if |paths| == 0 then []
    else
      var rest := SelectDocs(paths[1..]);
      assert forall p :: p in paths <==> p == paths[0] || p in paths[1..];
      if Selected(paths[0]) then [paths[0]] + rest else rest
  }

  /** Selection keeps the listing's order: selecting from two listings
      one after the other is selecting from their concatenation. */
  lemma {:induction false} SelectDocsAppend(a: seq<string>, b: seq<string>)
    ensures SelectDocs(a + b) == SelectDocs(a) + SelectDocs(b)
    decreases |a|
  {
    if |a| > 0 {
      assert (a + b)[1..] == a[1..] + b;
      SelectDocsAppend(a[1..], b);
    } else {
      assert a + b == b;
    }
  }
}
