/** The text of the highlighter script that add_syntax_highlighting.py puts
    before `</body>`, cut into pieces of a few characters so that facts
    about the whole text follow from facts about each piece. `JsHeader`
    runs from after `<script>` up to the name `highlightSyntax`, `JsBody`
    from after the name up to the final `</script>`. The `\1` in the
    source's string literal is the character U+0001. */
module HighlighterJs {
  import opened Text
  import opened Patterns

  const JsHeaderPiece0: string := "\n        // Simple"
  const JsHeaderPiece1: string := " syntax "
  const JsHeaderPiece2: string := "highlight"
  const JsHeaderPiece3: string := "ing for T"
  const JsHeaderPiece4: string := "ypeScript/JavaScri"
  const JsHeaderPiece5: string := "pt\n        functio"
  const JsHeaderPiece6: string := "n "

  /** Pieces 0 to 3, then `r`. */
  function JsHeaderPart0(r: string): string {
    JsHeaderPiece0 + (JsHeaderPiece1 + (JsHeaderPiece2 + (JsHeaderPiece3 + r)))
  }

  /** Pieces 4 to 6, then `r`. */
  function JsHeaderPart1(r: string): string {
    JsHeaderPiece4 + (JsHeaderPiece5 + (JsHeaderPiece6 + r))
  }

  const JsBodyPiece0: string := "() {\n            c"
  const JsBodyPiece1: string := "onst codeBlocks = "
  const JsBodyPiece2: string := "document.querySele"
  const JsBodyPiece3: string := "ctorAll('.code-blo"
  const JsBodyPiece4: string := "ck code');\n       "
  const JsBodyPiece5: string := "     \n            "
  const JsBodyPiece6: string := "codeBlocks.forEach"
  const JsBodyPiece7: string := "(block => {\n      "
  const JsBodyPiece8: string := "          let html"
  const JsBodyPiece9: string := " = block.innerHTML"
  const JsBodyPiece10: string := ";\n                "
  const JsBodyPiece11: string := "\n                /"
  const JsBodyPiece12: string := "/ Comments (// and"
  const JsBodyPiece13: string := " /* */)\n          "
  const JsBodyPiece14: string := "      html = html."
  const JsBodyPiece15: string := "replace(/(\\/\\/.*$)"
  const JsBodyPiece16: string := "/gm, '"
  const JsBodyPiece17: string := "<"
  const JsBodyPiece18: string := "span class=\"commen"
  const JsBodyPiece19: string := "t\">$1"
  const JsBodyPiece20: string := "<"
  const JsBodyPiece21: string := "/span>');\n        "
  const JsBodyPiece22: string := "        html = htm"
  const JsBodyPiece23: string := "l.replace(/(\\/\\*[\\"
  const JsBodyPiece24: string := "s\\S]*?\\*\\/)/g, '"
  const JsBodyPiece25: string := "<"
  const JsBodyPiece26: string := "span class=\"commen"
  const JsBodyPiece27: string := "t\">$1"
  const JsBodyPiece28: string := "<"
  const JsBodyPiece29: string := "/span>');\n        "
  const JsBodyPiece30: string := "        \n         "
  const JsBodyPiece31: string := "       // Strings "
  const JsBodyPiece32: string := "(single and double"
  const JsBodyPiece33: string := " quotes, template "
  const JsBodyPiece34: string := "literals)\n        "
  const JsBodyPiece35: string := "        html = htm"
  const JsBodyPiece36: string := "l.replace(/(['\"`])"
  const JsBodyPiece37: string := "((?:(?!\\1)[^\\\\]|\\\\"
  const JsBodyPiece38: string := ".)*)(\U{1})/g, '"
  const JsBodyPiece39: string := "<"
  const JsBodyPiece40: string := "span class=\"string"
  const JsBodyPiece41: string := "\">$1$2$3"
  const JsBodyPiece42: string := "<"
  const JsBodyPiece43: string := "/span>');\n        "
  const JsBodyPiece44: string := "        \n         "
  const JsBodyPiece45: string := "       // Keywords"
  const JsBodyPiece46: string := "\n                c"
  const JsBodyPiece47: string := "onst keywords = ['"
  const JsBodyPiece48: string := "const', 'let', 'va"
  const JsBodyPiece49: string := "r', 'function', 'r"
  const JsBodyPiece50: string := "eturn', 'if', 'els"
  const JsBodyPiece51: string := "e', 'for', 'while'"
  const JsBodyPiece52: string := ", 'try', 'catch', "
  const JsBodyPiece53: string := "'throw', 'async', "
  const JsBodyPiece54: string := "'await', 'import',"
  const JsBodyPiece55: string := " 'export', 'from',"
  const JsBodyPiece56: string := " 'default', 'class"
  const JsBodyPiece57: string := "', 'extends', 'int"
  const JsBodyPiece58: string := "erface', 'type', '"
  const JsBodyPiece59: string := "enum', 'namespace'"
  const JsBodyPiece60: string := ", 'public', 'priva"
  const JsBodyPiece61: string := "te', 'protected', "
  const JsBodyPiece62: string := "'static', 'readonl"
  const JsBodyPiece63: string := "y', 'abstract'];\n "
  const JsBodyPiece64: string := "               key"
  const JsBodyPiece65: string := "words.forEach(keyw"
  const JsBodyPiece66: string := "ord => {\n         "
  const JsBodyPiece67: string := "           const r"
  const JsBodyPiece68: string := "egex = new RegExp("
  const JsBodyPiece69: string := "`\\\\b(${keyword})\\\\"
  const JsBodyPiece70: string := "b(?!['\""
  const JsBodyPiece71: string := "<"
  const JsBodyPiece72: string := "])`, 'g');\n       "
  const JsBodyPiece73: string := "             html "
  const JsBodyPiece74: string := "= html.replace(reg"
  const JsBodyPiece75: string := "ex, '"
  const JsBodyPiece76: string := "<"
  const JsBodyPiece77: string := "span class=\"keywor"
  const JsBodyPiece78: string := "d\">$1"
  const JsBodyPiece79: string := "<"
  const JsBodyPiece80: string := "/span>');\n        "
  const JsBodyPiece81: string := "        });\n      "
  const JsBodyPiece82: string := "          \n       "
  const JsBodyPiece83: string := "         // Number"
  const JsBodyPiece84: string := "s\n                "
  const JsBodyPiece85: string := "html = html.replac"
  const JsBodyPiece86: string := "e(/\\b(\\d+(?:\\.\\d+)"
  const JsBodyPiece87: string := "?)\\b/g, '"
  const JsBodyPiece88: string := "<"
  const JsBodyPiece89: string := "span class=\"number"
  const JsBodyPiece90: string := "\">$1"
  const JsBodyPiece91: string := "<"
  const JsBodyPiece92: string := "/span>');\n        "
  const JsBodyPiece93: string := "        \n         "
  const JsBodyPiece94: string := "       // Types (c"
  const JsBodyPiece95: string := "apitalized words)\n"
  const JsBodyPiece96: string := "                ht"
  const JsBodyPiece97: string := "ml = html.replace("
  const JsBodyPiece98: string := "/\\b([A-Z][a-zA-Z]*"
  const JsBodyPiece99: string := ")\\b(?!['\""
  const JsBodyPiece100: string := "<"
  const JsBodyPiece101: string := "])/g, '"
  const JsBodyPiece102: string := "<"
  const JsBodyPiece103: string := "span class=\"type\">"
  const JsBodyPiece104: string := "$1"
  const JsBodyPiece105: string := "<"
  const JsBodyPiece106: string := "/span>');\n        "
  const JsBodyPiece107: string := "        \n         "
  const JsBodyPiece108: string := "       // Function"
  const JsBodyPiece109: string := " calls\n           "
  const JsBodyPiece110: string := "     html = html.r"
  const JsBodyPiece111: string := "eplace(/\\b([a-zA-Z"
  const JsBodyPiece112: string := "_$][a-zA-Z0-9_$]*)"
  const JsBodyPiece113: string := "\\s*(?=\\()/g, '"
  const JsBodyPiece114: string := "<"
  const JsBodyPiece115: string := "span class=\"functi"
  const JsBodyPiece116: string := "on\">$1"
  const JsBodyPiece117: string := "<"
  const JsBodyPiece118: string := "/span>');\n        "
  const JsBodyPiece119: string := "        \n         "
  const JsBodyPiece120: string := "       // Variable"
  const JsBodyPiece121: string := "s (common patterns"
  const JsBodyPiece122: string := ")\n                "
  const JsBodyPiece123: string := "html = html.replac"
  const JsBodyPiece124: string := "e(/\\b([a-z][a-zA-Z"
  const JsBodyPiece125: string := "0-9_$]*)\\b(?!['\""
  const JsBodyPiece126: string := "<"
  const JsBodyPiece127: string := "])/g, '"
  const JsBodyPiece128: string := "<"
  const JsBodyPiece129: string := "span class=\"variab"
  const JsBodyPiece130: string := "le\">$1"
  const JsBodyPiece131: string := "<"
  const JsBodyPiece132: string := "/span>');\n        "
  const JsBodyPiece133: string := "        \n         "
  const JsBodyPiece134: string := "       block.inner"
  const JsBodyPiece135: string := "HTML = html;\n     "
  const JsBodyPiece136: string := "       });\n       "
  const JsBodyPiece137: string := " }\n        \n      "
  const JsBodyPiece138: string := "  // Run highlight"
  const JsBodyPiece139: string := "ing when page load"
  const JsBodyPiece140: string := "s\n        document"
  const JsBodyPiece141: string := ".addEventListener("
  const JsBodyPiece142: string := "'DOMContentLoaded'"
  const JsBodyPiece143: string := ", highlightSyntax)"
  const JsBodyPiece144: string := ";\n    "

  /** Pieces 0 to 3, then `r`. */
  function JsBodyPart0(r: string): string {
    JsBodyPiece0 + (JsBodyPiece1 + (JsBodyPiece2 + (JsBodyPiece3 + r)))
  }

  /** Pieces 4 to 7, then `r`. */
  function JsBodyPart1(r: string): string {
    JsBodyPiece4 + (JsBodyPiece5 + (JsBodyPiece6 + (JsBodyPiece7 + r)))
  }

  /** Pieces 8 to 11, then `r`. */
  function JsBodyPart2(r: string): string {
    JsBodyPiece8 + (JsBodyPiece9 + (JsBodyPiece10 + (JsBodyPiece11 + r)))
  }

  /** Pieces 12 to 15, then `r`. */
  function JsBodyPart3(r: string): string {
    JsBodyPiece12 + (JsBodyPiece13 + (JsBodyPiece14 + (JsBodyPiece15 + r)))
  }

  /** Pieces 16 to 19, then `r`. */
  function JsBodyPart4(r: string): string {
    JsBodyPiece16 + (JsBodyPiece17 + (JsBodyPiece18 + (JsBodyPiece19 + r)))
  }

  /** Pieces 20 to 23, then `r`. */
  function JsBodyPart5(r: string): string {
    JsBodyPiece20 + (JsBodyPiece21 + (JsBodyPiece22 + (JsBodyPiece23 + r)))
  }

  /** Pieces 24 to 27, then `r`. */
  function JsBodyPart6(r: string): string {
    JsBodyPiece24 + (JsBodyPiece25 + (JsBodyPiece26 + (JsBodyPiece27 + r)))
  }

  /** Pieces 28 to 31, then `r`. */
  function JsBodyPart7(r: string): string {
    JsBodyPiece28 + (JsBodyPiece29 + (JsBodyPiece30 + (JsBodyPiece31 + r)))
  }

  /** Pieces 32 to 35, then `r`. */
  function JsBodyPart8(r: string): string {
    JsBodyPiece32 + (JsBodyPiece33 + (JsBodyPiece34 + (JsBodyPiece35 + r)))
  }

  /** Pieces 36 to 40, then `r`. */
  function JsBodyPart9(r: string): string {
    JsBodyPiece36 + (JsBodyPiece37 + (JsBodyPiece38 + (JsBodyPiece39 + (JsBodyPiece40 + r))))
  }

  /** Pieces 41 to 44, then `r`. */
  function JsBodyPart10(r: string): string {
    JsBodyPiece41 + (JsBodyPiece42 + (JsBodyPiece43 + (JsBodyPiece44 + r)))
  }

  /** Pieces 45 to 48, then `r`. */
  function JsBodyPart11(r: string): string {
    JsBodyPiece45 + (JsBodyPiece46 + (JsBodyPiece47 + (JsBodyPiece48 + r)))
  }

  /** Pieces 49 to 52, then `r`. */
  function JsBodyPart12(r: string): string {
    JsBodyPiece49 + (JsBodyPiece50 + (JsBodyPiece51 + (JsBodyPiece52 + r)))
  }

  /** Pieces 53 to 56, then `r`. */
  function JsBodyPart13(r: string): string {
    JsBodyPiece53 + (JsBodyPiece54 + (JsBodyPiece55 + (JsBodyPiece56 + r)))
  }

  /** Pieces 57 to 60, then `r`. */
  function JsBodyPart14(r: string): string {
    JsBodyPiece57 + (JsBodyPiece58 + (JsBodyPiece59 + (JsBodyPiece60 + r)))
  }

  /** Pieces 61 to 64, then `r`. */
  function JsBodyPart15(r: string): string {
    JsBodyPiece61 + (JsBodyPiece62 + (JsBodyPiece63 + (JsBodyPiece64 + r)))
  }

  /** Pieces 65 to 68, then `r`. */
  function JsBodyPart16(r: string): string {
    JsBodyPiece65 + (JsBodyPiece66 + (JsBodyPiece67 + (JsBodyPiece68 + r)))
  }

  /** Pieces 69 to 72, then `r`. */
  function JsBodyPart17(r: string): string {
    JsBodyPiece69 + (JsBodyPiece70 + (JsBodyPiece71 + (JsBodyPiece72 + r)))
  }

  /** Pieces 73 to 77, then `r`. */
  function JsBodyPart18(r: string): string {
    JsBodyPiece73 + (JsBodyPiece74 + (JsBodyPiece75 + (JsBodyPiece76 + (JsBodyPiece77 + r))))
  }

  /** Pieces 78 to 81, then `r`. */
  function JsBodyPart19(r: string): string {
    JsBodyPiece78 + (JsBodyPiece79 + (JsBodyPiece80 + (JsBodyPiece81 + r)))
  }

  /** Pieces 82 to 85, then `r`. */
  function JsBodyPart20(r: string): string {
    JsBodyPiece82 + (JsBodyPiece83 + (JsBodyPiece84 + (JsBodyPiece85 + r)))
  }

  /** Pieces 86 to 89, then `r`. */
  function JsBodyPart21(r: string): string {
    JsBodyPiece86 + (JsBodyPiece87 + (JsBodyPiece88 + (JsBodyPiece89 + r)))
  }

  /** Pieces 90 to 93, then `r`. */
  function JsBodyPart22(r: string): string {
    JsBodyPiece90 + (JsBodyPiece91 + (JsBodyPiece92 + (JsBodyPiece93 + r)))
  }

  /** Pieces 94 to 97, then `r`. */
  function JsBodyPart23(r: string): string {
    JsBodyPiece94 + (JsBodyPiece95 + (JsBodyPiece96 + (JsBodyPiece97 + r)))
  }

  /** Pieces 98 to 101, then `r`. */
  function JsBodyPart24(r: string): string {
    JsBodyPiece98 + (JsBodyPiece99 + (JsBodyPiece100 + (JsBodyPiece101 + r)))
  }

  /** Pieces 102 to 106, then `r`. */
  function JsBodyPart25(r: string): string {
    JsBodyPiece102 + (JsBodyPiece103 + (JsBodyPiece104 + (JsBodyPiece105 + (JsBodyPiece106 + r))))
  }

  /** Pieces 107 to 110, then `r`. */
  function JsBodyPart26(r: string): string {
    JsBodyPiece107 + (JsBodyPiece108 + (JsBodyPiece109 + (JsBodyPiece110 + r)))
  }

  /** Pieces 111 to 115, then `r`. */
  function JsBodyPart27(r: string): string {
    JsBodyPiece111 + (JsBodyPiece112 + (JsBodyPiece113 + (JsBodyPiece114 + (JsBodyPiece115 + r))))
  }

  /** Pieces 116 to 119, then `r`. */
  function JsBodyPart28(r: string): string {
    JsBodyPiece116 + (JsBodyPiece117 + (JsBodyPiece118 + (JsBodyPiece119 + r)))
  }

  /** Pieces 120 to 123, then `r`. */
  function JsBodyPart29(r: string): string {
    JsBodyPiece120 + (JsBodyPiece121 + (JsBodyPiece122 + (JsBodyPiece123 + r)))
  }

  /** Pieces 124 to 127, then `r`. */
  function JsBodyPart30(r: string): string {
    JsBodyPiece124 + (JsBodyPiece125 + (JsBodyPiece126 + (JsBodyPiece127 + r)))
  }

  /** Pieces 128 to 132, then `r`. */
  function JsBodyPart31(r: string): string {
    JsBodyPiece128 + (JsBodyPiece129 + (JsBodyPiece130 + (JsBodyPiece131 + (JsBodyPiece132 + r))))
  }

  /** Pieces 133 to 136, then `r`. */
  function JsBodyPart32(r: string): string {
    JsBodyPiece133 + (JsBodyPiece134 + (JsBodyPiece135 + (JsBodyPiece136 + r)))
  }

  /** Pieces 137 to 140, then `r`. */
  function JsBodyPart33(r: string): string {
    JsBodyPiece137 + (JsBodyPiece138 + (JsBodyPiece139 + (JsBodyPiece140 + r)))
  }

  /** Pieces 141 to 144, then `r`. */
  function JsBodyPart34(r: string): string {
    JsBodyPiece141 + (JsBodyPiece142 + (JsBodyPiece143 + (JsBodyPiece144 + r)))
  }

  /** Parts 0 to 5, then `r`. */
  function JsBodySection0(r: string): string {
    JsBodyPart0(JsBodyPart1(JsBodyPart2(JsBodyPart3(JsBodyPart4(JsBodyPart5(r))))))
  }

  /** Parts 6 to 11, then `r`. */
  function JsBodySection1(r: string): string {
    JsBodyPart6(JsBodyPart7(JsBodyPart8(JsBodyPart9(JsBodyPart10(JsBodyPart11(r))))))
  }

  /** Parts 12 to 17, then `r`. */
  function JsBodySection2(r: string): string {
    JsBodyPart12(JsBodyPart13(JsBodyPart14(JsBodyPart15(JsBodyPart16(JsBodyPart17(r))))))
  }

  /** Parts 18 to 23, then `r`. */
  function JsBodySection3(r: string): string {
    JsBodyPart18(JsBodyPart19(JsBodyPart20(JsBodyPart21(JsBodyPart22(JsBodyPart23(r))))))
  }

  /** Parts 24 to 29, then `r`. */
  function JsBodySection4(r: string): string {
    JsBodyPart24(JsBodyPart25(JsBodyPart26(JsBodyPart27(JsBodyPart28(JsBodyPart29(r))))))
  }

  /** Parts 30 to 34, then `r`. */
  function JsBodySection5(r: string): string {
    JsBodyPart30(JsBodyPart31(JsBodyPart32(JsBodyPart33(JsBodyPart34(r)))))
  }

  const JsHeader: string := JsHeaderPart0(JsHeaderPart1(""))
  const JsBody: string := JsBodySection0(JsBodySection1(JsBodySection2(JsBodySection3(JsBodySection4(JsBodySection5(""))))))

  /** No `highlightSyntax` starts in pieces 0 to 3. */
  lemma JsHeaderClear0(r: string, x: string)
    requires NoStartBefore(r + x, ScriptKey, |r|)
    ensures NoStartBefore(JsHeaderPart0(r) + x, ScriptKey, |JsHeaderPart0(r)|)
  {
    NoStartPlain(JsHeaderPiece3, r, x, ScriptKey, |r|);
    NoStartAhead(JsHeaderPiece2, JsHeaderPiece3, r, x, ScriptKey, |JsHeaderPiece3 + r|);
    NoStartPlain(JsHeaderPiece1, JsHeaderPiece2 + (JsHeaderPiece3 + r), x, ScriptKey, |JsHeaderPiece2 + (JsHeaderPiece3 + r)|);
    NoStartPlain(JsHeaderPiece0, JsHeaderPiece1 + (JsHeaderPiece2 + (JsHeaderPiece3 + r)), x, ScriptKey, |JsHeaderPiece1 + (JsHeaderPiece2 + (JsHeaderPiece3 + r))|);
  }

  /** No `highlightSyntax` starts in pieces 4 to 6. */
  lemma JsHeaderClear1(r: string, x: string)
    requires NoStartBefore(r + x, ScriptKey, |r|)
    ensures NoStartBefore(JsHeaderPart1(r) + x, ScriptKey, |JsHeaderPart1(r)|)
  {
    NoStartPlain(JsHeaderPiece6, r, x, ScriptKey, |r|);
    NoStartPlain(JsHeaderPiece5, JsHeaderPiece6 + r, x, ScriptKey, |JsHeaderPiece6 + r|);
    NoStartPlain(JsHeaderPiece4, JsHeaderPiece5 + (JsHeaderPiece6 + r), x, ScriptKey, |JsHeaderPiece5 + (JsHeaderPiece6 + r)|);
  }

  /** No `</script>` starts in pieces 0 to 3. */
  lemma JsBodyClear0(r: string, x: string)
    requires NoStartBefore(r + x, ScriptClose, |r|)
    ensures NoStartBefore(JsBodyPart0(r) + x, ScriptClose, |JsBodyPart0(r)|)
  {
    NoStartPlain(JsBodyPiece3, r, x, ScriptClose, |r|);
    NoStartPlain(JsBodyPiece2, JsBodyPiece3 + r, x, ScriptClose, |JsBodyPiece3 + r|);
    NoStartPlain(JsBodyPiece1, JsBodyPiece2 + (JsBodyPiece3 + r), x, ScriptClose, |JsBodyPiece2 + (JsBodyPiece3 + r)|);
    NoStartPlain(JsBodyPiece0, JsBodyPiece1 + (JsBodyPiece2 + (JsBodyPiece3 + r)), x, ScriptClose, |JsBodyPiece1 + (JsBodyPiece2 + (JsBodyPiece3 + r))|);
  }

  /** No `</script>` starts in pieces 4 to 7. */
  lemma JsBodyClear1(r: string, x: string)
    requires NoStartBefore(r + x, ScriptClose, |r|)
    ensures NoStartBefore(JsBodyPart1(r) + x, ScriptClose, |JsBodyPart1(r)|)
  {
    NoStartPlain(JsBodyPiece7, r, x, ScriptClose, |r|);
    NoStartPlain(JsBodyPiece6, JsBodyPiece7 + r, x, ScriptClose, |JsBodyPiece7 + r|);
    NoStartPlain(JsBodyPiece5, JsBodyPiece6 + (JsBodyPiece7 + r), x, ScriptClose, |JsBodyPiece6 + (JsBodyPiece7 + r)|);
    NoStartPlain(JsBodyPiece4, JsBodyPiece5 + (JsBodyPiece6 + (JsBodyPiece7 + r)), x, ScriptClose, |JsBodyPiece5 + (JsBodyPiece6 + (JsBodyPiece7 + r))|);
  }

  /** No `</script>` starts in pieces 8 to 11. */
  lemma JsBodyClear2(r: string, x: string)
    requires NoStartBefore(r + x, ScriptClose, |r|)
    ensures NoStartBefore(JsBodyPart2(r) + x, ScriptClose, |JsBodyPart2(r)|)
  {
    NoStartPlain(JsBodyPiece11, r, x, ScriptClose, |r|);
    NoStartPlain(JsBodyPiece10, JsBodyPiece11 + r, x, ScriptClose, |JsBodyPiece11 + r|);
    NoStartPlain(JsBodyPiece9, JsBodyPiece10 + (JsBodyPiece11 + r), x, ScriptClose, |JsBodyPiece10 + (JsBodyPiece11 + r)|);
    NoStartPlain(JsBodyPiece8, JsBodyPiece9 + (JsBodyPiece10 + (JsBodyPiece11 + r)), x, ScriptClose, |JsBodyPiece9 + (JsBodyPiece10 + (JsBodyPiece11 + r))|);
  }

  /** No `</script>` starts in pieces 12 to 15. */
  lemma JsBodyClear3(r: string, x: string)
    requires NoStartBefore(r + x, ScriptClose, |r|)
    ensures NoStartBefore(JsBodyPart3(r) + x, ScriptClose, |JsBodyPart3(r)|)
  {
    NoStartPlain(JsBodyPiece15, r, x, ScriptClose, |r|);
    NoStartPlain(JsBodyPiece14, JsBodyPiece15 + r, x, ScriptClose, |JsBodyPiece15 + r|);
    NoStartPlain(JsBodyPiece13, JsBodyPiece14 + (JsBodyPiece15 + r), x, ScriptClose, |JsBodyPiece14 + (JsBodyPiece15 + r)|);
    NoStartPlain(JsBodyPiece12, JsBodyPiece13 + (JsBodyPiece14 + (JsBodyPiece15 + r)), x, ScriptClose, |JsBodyPiece13 + (JsBodyPiece14 + (JsBodyPiece15 + r))|);
  }

  /** No `</script>` starts in pieces 16 to 19. */
  lemma JsBodyClear4(r: string, x: string)
    requires NoStartBefore(r + x, ScriptClose, |r|)
    ensures NoStartBefore(JsBodyPart4(r) + x, ScriptClose, |JsBodyPart4(r)|)
  {
    NoStartPlain(JsBodyPiece19, r, x, ScriptClose, |r|);
    NoStartPlain(JsBodyPiece18, JsBodyPiece19 + r, x, ScriptClose, |JsBodyPiece19 + r|);
    assert (JsBodyPiece18 + (JsBodyPiece19 + r))[0] == 's';
    NoStartProbe(JsBodyPiece17, JsBodyPiece18 + (JsBodyPiece19 + r), x, ScriptClose, |JsBodyPiece18 + (JsBodyPiece19 + r)|, 1);
    NoStartPlain(JsBodyPiece16, JsBodyPiece17 + (JsBodyPiece18 + (JsBodyPiece19 + r)), x, ScriptClose, |JsBodyPiece17 + (JsBodyPiece18 + (JsBodyPiece19 + r))|);
  }

  /** No `</script>` starts in pieces 20 to 23. */
  lemma JsBodyClear5(r: string, x: string)
    requires NoStartBefore(r + x, ScriptClose, |r|)
    ensures NoStartBefore(JsBodyPart5(r) + x, ScriptClose, |JsBodyPart5(r)|)
  {
    NoStartPlain(JsBodyPiece23, r, x, ScriptClose, |r|);
    NoStartPlain(JsBodyPiece22, JsBodyPiece23 + r, x, ScriptClose, |JsBodyPiece23 + r|);
    NoStartPlain(JsBodyPiece21, JsBodyPiece22 + (JsBodyPiece23 + r), x, ScriptClose, |JsBodyPiece22 + (JsBodyPiece23 + r)|);
    assert (JsBodyPiece21 + (JsBodyPiece22 + (JsBodyPiece23 + r)))[2] == 'p';
    NoStartProbe(JsBodyPiece20, JsBodyPiece21 + (JsBodyPiece22 + (JsBodyPiece23 + r)), x, ScriptClose, |JsBodyPiece21 + (JsBodyPiece22 + (JsBodyPiece23 + r))|, 3);
  }

  /** No `</script>` starts in pieces 24 to 27. */
  lemma JsBodyClear6(r: string, x: string)
    requires NoStartBefore(r + x, ScriptClose, |r|)
    ensures NoStartBefore(JsBodyPart6(r) + x, ScriptClose, |JsBodyPart6(r)|)
  {
    NoStartPlain(JsBodyPiece27, r, x, ScriptClose, |r|);
    NoStartPlain(JsBodyPiece26, JsBodyPiece27 + r, x, ScriptClose, |JsBodyPiece27 + r|);
    assert (JsBodyPiece26 + (JsBodyPiece27 + r))[0] == 's';
    NoStartProbe(JsBodyPiece25, JsBodyPiece26 + (JsBodyPiece27 + r), x, ScriptClose, |JsBodyPiece26 + (JsBodyPiece27 + r)|, 1);
    NoStartPlain(JsBodyPiece24, JsBodyPiece25 + (JsBodyPiece26 + (JsBodyPiece27 + r)), x, ScriptClose, |JsBodyPiece25 + (JsBodyPiece26 + (JsBodyPiece27 + r))|);
  }

  /** No `</script>` starts in pieces 28 to 31. */
  lemma JsBodyClear7(r: string, x: string)
    requires NoStartBefore(r + x, ScriptClose, |r|)
    ensures NoStartBefore(JsBodyPart7(r) + x, ScriptClose, |JsBodyPart7(r)|)
  {
    NoStartPlain(JsBodyPiece31, r, x, ScriptClose, |r|);
    NoStartPlain(JsBodyPiece30, JsBodyPiece31 + r, x, ScriptClose, |JsBodyPiece31 + r|);
    NoStartPlain(JsBodyPiece29, JsBodyPiece30 + (JsBodyPiece31 + r), x, ScriptClose, |JsBodyPiece30 + (JsBodyPiece31 + r)|);
    assert (JsBodyPiece29 + (JsBodyPiece30 + (JsBodyPiece31 + r)))[2] == 'p';
    NoStartProbe(JsBodyPiece28, JsBodyPiece29 + (JsBodyPiece30 + (JsBodyPiece31 + r)), x, ScriptClose, |JsBodyPiece29 + (JsBodyPiece30 + (JsBodyPiece31 + r))|, 3);
  }

  /** No `</script>` starts in pieces 32 to 35. */
  lemma JsBodyClear8(r: string, x: string)
    requires NoStartBefore(r + x, ScriptClose, |r|)
    ensures NoStartBefore(JsBodyPart8(r) + x, ScriptClose, |JsBodyPart8(r)|)
  {
    NoStartPlain(JsBodyPiece35, r, x, ScriptClose, |r|);
    NoStartPlain(JsBodyPiece34, JsBodyPiece35 + r, x, ScriptClose, |JsBodyPiece35 + r|);
    NoStartPlain(JsBodyPiece33, JsBodyPiece34 + (JsBodyPiece35 + r), x, ScriptClose, |JsBodyPiece34 + (JsBodyPiece35 + r)|);
    NoStartPlain(JsBodyPiece32, JsBodyPiece33 + (JsBodyPiece34 + (JsBodyPiece35 + r)), x, ScriptClose, |JsBodyPiece33 + (JsBodyPiece34 + (JsBodyPiece35 + r))|);
  }

  /** No `</script>` starts in pieces 36 to 40. */
  lemma JsBodyClear9(r: string, x: string)
    requires NoStartBefore(r + x, ScriptClose, |r|)
    ensures NoStartBefore(JsBodyPart9(r) + x, ScriptClose, |JsBodyPart9(r)|)
  {
    NoStartPlain(JsBodyPiece40, r, x, ScriptClose, |r|);
    assert (JsBodyPiece40 + r)[0] == 's';
    NoStartProbe(JsBodyPiece39, JsBodyPiece40 + r, x, ScriptClose, |JsBodyPiece40 + r|, 1);
    NoStartPlain(JsBodyPiece38, JsBodyPiece39 + (JsBodyPiece40 + r), x, ScriptClose, |JsBodyPiece39 + (JsBodyPiece40 + r)|);
    NoStartPlain(JsBodyPiece37, JsBodyPiece38 + (JsBodyPiece39 + (JsBodyPiece40 + r)), x, ScriptClose, |JsBodyPiece38 + (JsBodyPiece39 + (JsBodyPiece40 + r))|);
    NoStartPlain(JsBodyPiece36, JsBodyPiece37 + (JsBodyPiece38 + (JsBodyPiece39 + (JsBodyPiece40 + r))), x, ScriptClose, |JsBodyPiece37 + (JsBodyPiece38 + (JsBodyPiece39 + (JsBodyPiece40 + r)))|);
  }

  /** No `</script>` starts in pieces 41 to 44. */
  lemma JsBodyClear10(r: string, x: string)
    requires NoStartBefore(r + x, ScriptClose, |r|)
    ensures NoStartBefore(JsBodyPart10(r) + x, ScriptClose, |JsBodyPart10(r)|)
  {
    NoStartPlain(JsBodyPiece44, r, x, ScriptClose, |r|);
    NoStartPlain(JsBodyPiece43, JsBodyPiece44 + r, x, ScriptClose, |JsBodyPiece44 + r|);
    assert (JsBodyPiece43 + (JsBodyPiece44 + r))[2] == 'p';
    NoStartProbe(JsBodyPiece42, JsBodyPiece43 + (JsBodyPiece44 + r), x, ScriptClose, |JsBodyPiece43 + (JsBodyPiece44 + r)|, 3);
    NoStartPlain(JsBodyPiece41, JsBodyPiece42 + (JsBodyPiece43 + (JsBodyPiece44 + r)), x, ScriptClose, |JsBodyPiece42 + (JsBodyPiece43 + (JsBodyPiece44 + r))|);
  }

  /** No `</script>` starts in pieces 45 to 48. */
  lemma JsBodyClear11(r: string, x: string)
    requires NoStartBefore(r + x, ScriptClose, |r|)
    ensures NoStartBefore(JsBodyPart11(r) + x, ScriptClose, |JsBodyPart11(r)|)
  {
    NoStartPlain(JsBodyPiece48, r, x, ScriptClose, |r|);
    NoStartPlain(JsBodyPiece47, JsBodyPiece48 + r, x, ScriptClose, |JsBodyPiece48 + r|);
    NoStartPlain(JsBodyPiece46, JsBodyPiece47 + (JsBodyPiece48 + r), x, ScriptClose, |JsBodyPiece47 + (JsBodyPiece48 + r)|);
    NoStartPlain(JsBodyPiece45, JsBodyPiece46 + (JsBodyPiece47 + (JsBodyPiece48 + r)), x, ScriptClose, |JsBodyPiece46 + (JsBodyPiece47 + (JsBodyPiece48 + r))|);
  }

  /** No `</script>` starts in pieces 49 to 52. */
  lemma JsBodyClear12(r: string, x: string)
    requires NoStartBefore(r + x, ScriptClose, |r|)
    ensures NoStartBefore(JsBodyPart12(r) + x, ScriptClose, |JsBodyPart12(r)|)
  {
    NoStartPlain(JsBodyPiece52, r, x, ScriptClose, |r|);
    NoStartPlain(JsBodyPiece51, JsBodyPiece52 + r, x, ScriptClose, |JsBodyPiece52 + r|);
    NoStartPlain(JsBodyPiece50, JsBodyPiece51 + (JsBodyPiece52 + r), x, ScriptClose, |JsBodyPiece51 + (JsBodyPiece52 + r)|);
    NoStartPlain(JsBodyPiece49, JsBodyPiece50 + (JsBodyPiece51 + (JsBodyPiece52 + r)), x, ScriptClose, |JsBodyPiece50 + (JsBodyPiece51 + (JsBodyPiece52 + r))|);
  }

  /** No `</script>` starts in pieces 53 to 56. */
  lemma JsBodyClear13(r: string, x: string)
    requires NoStartBefore(r + x, ScriptClose, |r|)
    ensures NoStartBefore(JsBodyPart13(r) + x, ScriptClose, |JsBodyPart13(r)|)
  {
    NoStartPlain(JsBodyPiece56, r, x, ScriptClose, |r|);
    NoStartPlain(JsBodyPiece55, JsBodyPiece56 + r, x, ScriptClose, |JsBodyPiece56 + r|);
    NoStartPlain(JsBodyPiece54, JsBodyPiece55 + (JsBodyPiece56 + r), x, ScriptClose, |JsBodyPiece55 + (JsBodyPiece56 + r)|);
    NoStartPlain(JsBodyPiece53, JsBodyPiece54 + (JsBodyPiece55 + (JsBodyPiece56 + r)), x, ScriptClose, |JsBodyPiece54 + (JsBodyPiece55 + (JsBodyPiece56 + r))|);
  }

  /** No `</script>` starts in pieces 57 to 60. */
  lemma JsBodyClear14(r: string, x: string)
    requires NoStartBefore(r + x, ScriptClose, |r|)
    ensures NoStartBefore(JsBodyPart14(r) + x, ScriptClose, |JsBodyPart14(r)|)
  {
    NoStartPlain(JsBodyPiece60, r, x, ScriptClose, |r|);
    NoStartPlain(JsBodyPiece59, JsBodyPiece60 + r, x, ScriptClose, |JsBodyPiece60 + r|);
    NoStartPlain(JsBodyPiece58, JsBodyPiece59 + (JsBodyPiece60 + r), x, ScriptClose, |JsBodyPiece59 + (JsBodyPiece60 + r)|);
    NoStartPlain(JsBodyPiece57, JsBodyPiece58 + (JsBodyPiece59 + (JsBodyPiece60 + r)), x, ScriptClose, |JsBodyPiece58 + (JsBodyPiece59 + (JsBodyPiece60 + r))|);
  }

  /** No `</script>` starts in pieces 61 to 64. */
  lemma JsBodyClear15(r: string, x: string)
    requires NoStartBefore(r + x, ScriptClose, |r|)
    ensures NoStartBefore(JsBodyPart15(r) + x, ScriptClose, |JsBodyPart15(r)|)
  {
    NoStartPlain(JsBodyPiece64, r, x, ScriptClose, |r|);
    NoStartPlain(JsBodyPiece63, JsBodyPiece64 + r, x, ScriptClose, |JsBodyPiece64 + r|);
    NoStartPlain(JsBodyPiece62, JsBodyPiece63 + (JsBodyPiece64 + r), x, ScriptClose, |JsBodyPiece63 + (JsBodyPiece64 + r)|);
    NoStartPlain(JsBodyPiece61, JsBodyPiece62 + (JsBodyPiece63 + (JsBodyPiece64 + r)), x, ScriptClose, |JsBodyPiece62 + (JsBodyPiece63 + (JsBodyPiece64 + r))|);
  }

  /** No `</script>` starts in pieces 65 to 68. */
  lemma JsBodyClear16(r: string, x: string)
    requires NoStartBefore(r + x, ScriptClose, |r|)
    ensures NoStartBefore(JsBodyPart16(r) + x, ScriptClose, |JsBodyPart16(r)|)
  {
    NoStartPlain(JsBodyPiece68, r, x, ScriptClose, |r|);
    NoStartPlain(JsBodyPiece67, JsBodyPiece68 + r, x, ScriptClose, |JsBodyPiece68 + r|);
    NoStartPlain(JsBodyPiece66, JsBodyPiece67 + (JsBodyPiece68 + r), x, ScriptClose, |JsBodyPiece67 + (JsBodyPiece68 + r)|);
    NoStartPlain(JsBodyPiece65, JsBodyPiece66 + (JsBodyPiece67 + (JsBodyPiece68 + r)), x, ScriptClose, |JsBodyPiece66 + (JsBodyPiece67 + (JsBodyPiece68 + r))|);
  }

  /** No `</script>` starts in pieces 69 to 72. */
  lemma JsBodyClear17(r: string, x: string)
    requires NoStartBefore(r + x, ScriptClose, |r|)
    ensures NoStartBefore(JsBodyPart17(r) + x, ScriptClose, |JsBodyPart17(r)|)
  {
    NoStartPlain(JsBodyPiece72, r, x, ScriptClose, |r|);
    assert (JsBodyPiece72 + r)[0] == ']';
    NoStartProbe(JsBodyPiece71, JsBodyPiece72 + r, x, ScriptClose, |JsBodyPiece72 + r|, 1);
    NoStartPlain(JsBodyPiece70, JsBodyPiece71 + (JsBodyPiece72 + r), x, ScriptClose, |JsBodyPiece71 + (JsBodyPiece72 + r)|);
    NoStartPlain(JsBodyPiece69, JsBodyPiece70 + (JsBodyPiece71 + (JsBodyPiece72 + r)), x, ScriptClose, |JsBodyPiece70 + (JsBodyPiece71 + (JsBodyPiece72 + r))|);
  }

  /** No `</script>` starts in pieces 73 to 77. */
  lemma JsBodyClear18(r: string, x: string)
    requires NoStartBefore(r + x, ScriptClose, |r|)
    ensures NoStartBefore(JsBodyPart18(r) + x, ScriptClose, |JsBodyPart18(r)|)
  {
    NoStartPlain(JsBodyPiece77, r, x, ScriptClose, |r|);
    assert (JsBodyPiece77 + r)[0] == 's';
    NoStartProbe(JsBodyPiece76, JsBodyPiece77 + r, x, ScriptClose, |JsBodyPiece77 + r|, 1);
    NoStartPlain(JsBodyPiece75, JsBodyPiece76 + (JsBodyPiece77 + r), x, ScriptClose, |JsBodyPiece76 + (JsBodyPiece77 + r)|);
    NoStartPlain(JsBodyPiece74, JsBodyPiece75 + (JsBodyPiece76 + (JsBodyPiece77 + r)), x, ScriptClose, |JsBodyPiece75 + (JsBodyPiece76 + (JsBodyPiece77 + r))|);
    NoStartPlain(JsBodyPiece73, JsBodyPiece74 + (JsBodyPiece75 + (JsBodyPiece76 + (JsBodyPiece77 + r))), x, ScriptClose, |JsBodyPiece74 + (JsBodyPiece75 + (JsBodyPiece76 + (JsBodyPiece77 + r)))|);
  }

  /** No `</script>` starts in pieces 78 to 81. */
  lemma JsBodyClear19(r: string, x: string)
    requires NoStartBefore(r + x, ScriptClose, |r|)
    ensures NoStartBefore(JsBodyPart19(r) + x, ScriptClose, |JsBodyPart19(r)|)
  {
    NoStartPlain(JsBodyPiece81, r, x, ScriptClose, |r|);
    NoStartPlain(JsBodyPiece80, JsBodyPiece81 + r, x, ScriptClose, |JsBodyPiece81 + r|);
    assert (JsBodyPiece80 + (JsBodyPiece81 + r))[2] == 'p';
    NoStartProbe(JsBodyPiece79, JsBodyPiece80 + (JsBodyPiece81 + r), x, ScriptClose, |JsBodyPiece80 + (JsBodyPiece81 + r)|, 3);
    NoStartPlain(JsBodyPiece78, JsBodyPiece79 + (JsBodyPiece80 + (JsBodyPiece81 + r)), x, ScriptClose, |JsBodyPiece79 + (JsBodyPiece80 + (JsBodyPiece81 + r))|);
  }

  /** No `</script>` starts in pieces 82 to 85. */
  lemma JsBodyClear20(r: string, x: string)
    requires NoStartBefore(r + x, ScriptClose, |r|)
    ensures NoStartBefore(JsBodyPart20(r) + x, ScriptClose, |JsBodyPart20(r)|)
  {
    NoStartPlain(JsBodyPiece85, r, x, ScriptClose, |r|);
    NoStartPlain(JsBodyPiece84, JsBodyPiece85 + r, x, ScriptClose, |JsBodyPiece85 + r|);
    NoStartPlain(JsBodyPiece83, JsBodyPiece84 + (JsBodyPiece85 + r), x, ScriptClose, |JsBodyPiece84 + (JsBodyPiece85 + r)|);
    NoStartPlain(JsBodyPiece82, JsBodyPiece83 + (JsBodyPiece84 + (JsBodyPiece85 + r)), x, ScriptClose, |JsBodyPiece83 + (JsBodyPiece84 + (JsBodyPiece85 + r))|);
  }

  /** No `</script>` starts in pieces 86 to 89. */
  lemma JsBodyClear21(r: string, x: string)
    requires NoStartBefore(r + x, ScriptClose, |r|)
    ensures NoStartBefore(JsBodyPart21(r) + x, ScriptClose, |JsBodyPart21(r)|)
  {
    NoStartPlain(JsBodyPiece89, r, x, ScriptClose, |r|);
    assert (JsBodyPiece89 + r)[0] == 's';
    NoStartProbe(JsBodyPiece88, JsBodyPiece89 + r, x, ScriptClose, |JsBodyPiece89 + r|, 1);
    NoStartPlain(JsBodyPiece87, JsBodyPiece88 + (JsBodyPiece89 + r), x, ScriptClose, |JsBodyPiece88 + (JsBodyPiece89 + r)|);
    NoStartPlain(JsBodyPiece86, JsBodyPiece87 + (JsBodyPiece88 + (JsBodyPiece89 + r)), x, ScriptClose, |JsBodyPiece87 + (JsBodyPiece88 + (JsBodyPiece89 + r))|);
  }

  /** No `</script>` starts in pieces 90 to 93. */
  lemma JsBodyClear22(r: string, x: string)
    requires NoStartBefore(r + x, ScriptClose, |r|)
    ensures NoStartBefore(JsBodyPart22(r) + x, ScriptClose, |JsBodyPart22(r)|)
  {
    NoStartPlain(JsBodyPiece93, r, x, ScriptClose, |r|);
    NoStartPlain(JsBodyPiece92, JsBodyPiece93 + r, x, ScriptClose, |JsBodyPiece93 + r|);
    assert (JsBodyPiece92 + (JsBodyPiece93 + r))[2] == 'p';
    NoStartProbe(JsBodyPiece91, JsBodyPiece92 + (JsBodyPiece93 + r), x, ScriptClose, |JsBodyPiece92 + (JsBodyPiece93 + r)|, 3);
    NoStartPlain(JsBodyPiece90, JsBodyPiece91 + (JsBodyPiece92 + (JsBodyPiece93 + r)), x, ScriptClose, |JsBodyPiece91 + (JsBodyPiece92 + (JsBodyPiece93 + r))|);
  }

  /** No `</script>` starts in pieces 94 to 97. */
  lemma JsBodyClear23(r: string, x: string)
    requires NoStartBefore(r + x, ScriptClose, |r|)
    ensures NoStartBefore(JsBodyPart23(r) + x, ScriptClose, |JsBodyPart23(r)|)
  {
    NoStartPlain(JsBodyPiece97, r, x, ScriptClose, |r|);
    NoStartPlain(JsBodyPiece96, JsBodyPiece97 + r, x, ScriptClose, |JsBodyPiece97 + r|);
    NoStartPlain(JsBodyPiece95, JsBodyPiece96 + (JsBodyPiece97 + r), x, ScriptClose, |JsBodyPiece96 + (JsBodyPiece97 + r)|);
    NoStartPlain(JsBodyPiece94, JsBodyPiece95 + (JsBodyPiece96 + (JsBodyPiece97 + r)), x, ScriptClose, |JsBodyPiece95 + (JsBodyPiece96 + (JsBodyPiece97 + r))|);
  }

  /** No `</script>` starts in pieces 98 to 101. */
  lemma JsBodyClear24(r: string, x: string)
    requires NoStartBefore(r + x, ScriptClose, |r|)
    ensures NoStartBefore(JsBodyPart24(r) + x, ScriptClose, |JsBodyPart24(r)|)
  {
    NoStartPlain(JsBodyPiece101, r, x, ScriptClose, |r|);
    assert (JsBodyPiece101 + r)[0] == ']';
    NoStartProbe(JsBodyPiece100, JsBodyPiece101 + r, x, ScriptClose, |JsBodyPiece101 + r|, 1);
    NoStartPlain(JsBodyPiece99, JsBodyPiece100 + (JsBodyPiece101 + r), x, ScriptClose, |JsBodyPiece100 + (JsBodyPiece101 + r)|);
    NoStartPlain(JsBodyPiece98, JsBodyPiece99 + (JsBodyPiece100 + (JsBodyPiece101 + r)), x, ScriptClose, |JsBodyPiece99 + (JsBodyPiece100 + (JsBodyPiece101 + r))|);
  }

  /** No `</script>` starts in pieces 102 to 106. */
  lemma JsBodyClear25(r: string, x: string)
    requires NoStartBefore(r + x, ScriptClose, |r|)
    ensures NoStartBefore(JsBodyPart25(r) + x, ScriptClose, |JsBodyPart25(r)|)
  {
    NoStartPlain(JsBodyPiece106, r, x, ScriptClose, |r|);
    assert (JsBodyPiece106 + r)[2] == 'p';
    NoStartProbe(JsBodyPiece105, JsBodyPiece106 + r, x, ScriptClose, |JsBodyPiece106 + r|, 3);
    NoStartPlain(JsBodyPiece104, JsBodyPiece105 + (JsBodyPiece106 + r), x, ScriptClose, |JsBodyPiece105 + (JsBodyPiece106 + r)|);
    NoStartPlain(JsBodyPiece103, JsBodyPiece104 + (JsBodyPiece105 + (JsBodyPiece106 + r)), x, ScriptClose, |JsBodyPiece104 + (JsBodyPiece105 + (JsBodyPiece106 + r))|);
    assert (JsBodyPiece103 + (JsBodyPiece104 + (JsBodyPiece105 + (JsBodyPiece106 + r))))[0] == 's';
    NoStartProbe(JsBodyPiece102, JsBodyPiece103 + (JsBodyPiece104 + (JsBodyPiece105 + (JsBodyPiece106 + r))), x, ScriptClose, |JsBodyPiece103 + (JsBodyPiece104 + (JsBodyPiece105 + (JsBodyPiece106 + r)))|, 1);
  }

  /** No `</script>` starts in pieces 107 to 110. */
  lemma JsBodyClear26(r: string, x: string)
    requires NoStartBefore(r + x, ScriptClose, |r|)
    ensures NoStartBefore(JsBodyPart26(r) + x, ScriptClose, |JsBodyPart26(r)|)
  {
    NoStartPlain(JsBodyPiece110, r, x, ScriptClose, |r|);
    NoStartPlain(JsBodyPiece109, JsBodyPiece110 + r, x, ScriptClose, |JsBodyPiece110 + r|);
    NoStartPlain(JsBodyPiece108, JsBodyPiece109 + (JsBodyPiece110 + r), x, ScriptClose, |JsBodyPiece109 + (JsBodyPiece110 + r)|);
    NoStartPlain(JsBodyPiece107, JsBodyPiece108 + (JsBodyPiece109 + (JsBodyPiece110 + r)), x, ScriptClose, |JsBodyPiece108 + (JsBodyPiece109 + (JsBodyPiece110 + r))|);
  }

  /** No `</script>` starts in pieces 111 to 115. */
  lemma JsBodyClear27(r: string, x: string)
    requires NoStartBefore(r + x, ScriptClose, |r|)
    ensures NoStartBefore(JsBodyPart27(r) + x, ScriptClose, |JsBodyPart27(r)|)
  {
    NoStartPlain(JsBodyPiece115, r, x, ScriptClose, |r|);
    assert (JsBodyPiece115 + r)[0] == 's';
    NoStartProbe(JsBodyPiece114, JsBodyPiece115 + r, x, ScriptClose, |JsBodyPiece115 + r|, 1);
    NoStartPlain(JsBodyPiece113, JsBodyPiece114 + (JsBodyPiece115 + r), x, ScriptClose, |JsBodyPiece114 + (JsBodyPiece115 + r)|);
    NoStartPlain(JsBodyPiece112, JsBodyPiece113 + (JsBodyPiece114 + (JsBodyPiece115 + r)), x, ScriptClose, |JsBodyPiece113 + (JsBodyPiece114 + (JsBodyPiece115 + r))|);
    NoStartPlain(JsBodyPiece111, JsBodyPiece112 + (JsBodyPiece113 + (JsBodyPiece114 + (JsBodyPiece115 + r))), x, ScriptClose, |JsBodyPiece112 + (JsBodyPiece113 + (JsBodyPiece114 + (JsBodyPiece115 + r)))|);
  }

  /** No `</script>` starts in pieces 116 to 119. */
  lemma JsBodyClear28(r: string, x: string)
    requires NoStartBefore(r + x, ScriptClose, |r|)
    ensures NoStartBefore(JsBodyPart28(r) + x, ScriptClose, |JsBodyPart28(r)|)
  {
    NoStartPlain(JsBodyPiece119, r, x, ScriptClose, |r|);
    NoStartPlain(JsBodyPiece118, JsBodyPiece119 + r, x, ScriptClose, |JsBodyPiece119 + r|);
    assert (JsBodyPiece118 + (JsBodyPiece119 + r))[2] == 'p';
    NoStartProbe(JsBodyPiece117, JsBodyPiece118 + (JsBodyPiece119 + r), x, ScriptClose, |JsBodyPiece118 + (JsBodyPiece119 + r)|, 3);
    NoStartPlain(JsBodyPiece116, JsBodyPiece117 + (JsBodyPiece118 + (JsBodyPiece119 + r)), x, ScriptClose, |JsBodyPiece117 + (JsBodyPiece118 + (JsBodyPiece119 + r))|);
  }

  /** No `</script>` starts in pieces 120 to 123. */
  lemma JsBodyClear29(r: string, x: string)
    requires NoStartBefore(r + x, ScriptClose, |r|)
    ensures NoStartBefore(JsBodyPart29(r) + x, ScriptClose, |JsBodyPart29(r)|)
  {
    NoStartPlain(JsBodyPiece123, r, x, ScriptClose, |r|);
    NoStartPlain(JsBodyPiece122, JsBodyPiece123 + r, x, ScriptClose, |JsBodyPiece123 + r|);
    NoStartPlain(JsBodyPiece121, JsBodyPiece122 + (JsBodyPiece123 + r), x, ScriptClose, |JsBodyPiece122 + (JsBodyPiece123 + r)|);
    NoStartPlain(JsBodyPiece120, JsBodyPiece121 + (JsBodyPiece122 + (JsBodyPiece123 + r)), x, ScriptClose, |JsBodyPiece121 + (JsBodyPiece122 + (JsBodyPiece123 + r))|);
  }

  /** No `</script>` starts in pieces 124 to 127. */
  lemma JsBodyClear30(r: string, x: string)
    requires NoStartBefore(r + x, ScriptClose, |r|)
    ensures NoStartBefore(JsBodyPart30(r) + x, ScriptClose, |JsBodyPart30(r)|)
  {
    NoStartPlain(JsBodyPiece127, r, x, ScriptClose, |r|);
    assert (JsBodyPiece127 + r)[0] == ']';
    NoStartProbe(JsBodyPiece126, JsBodyPiece127 + r, x, ScriptClose, |JsBodyPiece127 + r|, 1);
    NoStartPlain(JsBodyPiece125, JsBodyPiece126 + (JsBodyPiece127 + r), x, ScriptClose, |JsBodyPiece126 + (JsBodyPiece127 + r)|);
    NoStartPlain(JsBodyPiece124, JsBodyPiece125 + (JsBodyPiece126 + (JsBodyPiece127 + r)), x, ScriptClose, |JsBodyPiece125 + (JsBodyPiece126 + (JsBodyPiece127 + r))|);
  }

  /** No `</script>` starts in pieces 128 to 132. */
  lemma JsBodyClear31(r: string, x: string)
    requires NoStartBefore(r + x, ScriptClose, |r|)
    ensures NoStartBefore(JsBodyPart31(r) + x, ScriptClose, |JsBodyPart31(r)|)
  {
    NoStartPlain(JsBodyPiece132, r, x, ScriptClose, |r|);
    assert (JsBodyPiece132 + r)[2] == 'p';
    NoStartProbe(JsBodyPiece131, JsBodyPiece132 + r, x, ScriptClose, |JsBodyPiece132 + r|, 3);
    NoStartPlain(JsBodyPiece130, JsBodyPiece131 + (JsBodyPiece132 + r), x, ScriptClose, |JsBodyPiece131 + (JsBodyPiece132 + r)|);
    NoStartPlain(JsBodyPiece129, JsBodyPiece130 + (JsBodyPiece131 + (JsBodyPiece132 + r)), x, ScriptClose, |JsBodyPiece130 + (JsBodyPiece131 + (JsBodyPiece132 + r))|);
    assert (JsBodyPiece129 + (JsBodyPiece130 + (JsBodyPiece131 + (JsBodyPiece132 + r))))[0] == 's';
    NoStartProbe(JsBodyPiece128, JsBodyPiece129 + (JsBodyPiece130 + (JsBodyPiece131 + (JsBodyPiece132 + r))), x, ScriptClose, |JsBodyPiece129 + (JsBodyPiece130 + (JsBodyPiece131 + (JsBodyPiece132 + r)))|, 1);
  }

  /** No `</script>` starts in pieces 133 to 136. */
  lemma JsBodyClear32(r: string, x: string)
    requires NoStartBefore(r + x, ScriptClose, |r|)
    ensures NoStartBefore(JsBodyPart32(r) + x, ScriptClose, |JsBodyPart32(r)|)
  {
    NoStartPlain(JsBodyPiece136, r, x, ScriptClose, |r|);
    NoStartPlain(JsBodyPiece135, JsBodyPiece136 + r, x, ScriptClose, |JsBodyPiece136 + r|);
    NoStartPlain(JsBodyPiece134, JsBodyPiece135 + (JsBodyPiece136 + r), x, ScriptClose, |JsBodyPiece135 + (JsBodyPiece136 + r)|);
    NoStartPlain(JsBodyPiece133, JsBodyPiece134 + (JsBodyPiece135 + (JsBodyPiece136 + r)), x, ScriptClose, |JsBodyPiece134 + (JsBodyPiece135 + (JsBodyPiece136 + r))|);
  }

  /** No `</script>` starts in pieces 137 to 140. */
  lemma JsBodyClear33(r: string, x: string)
    requires NoStartBefore(r + x, ScriptClose, |r|)
    ensures NoStartBefore(JsBodyPart33(r) + x, ScriptClose, |JsBodyPart33(r)|)
  {
    NoStartPlain(JsBodyPiece140, r, x, ScriptClose, |r|);
    NoStartPlain(JsBodyPiece139, JsBodyPiece140 + r, x, ScriptClose, |JsBodyPiece140 + r|);
    NoStartPlain(JsBodyPiece138, JsBodyPiece139 + (JsBodyPiece140 + r), x, ScriptClose, |JsBodyPiece139 + (JsBodyPiece140 + r)|);
    NoStartPlain(JsBodyPiece137, JsBodyPiece138 + (JsBodyPiece139 + (JsBodyPiece140 + r)), x, ScriptClose, |JsBodyPiece138 + (JsBodyPiece139 + (JsBodyPiece140 + r))|);
  }

  /** No `</script>` starts in pieces 141 to 144. */
  lemma JsBodyClear34(r: string, x: string)
    requires NoStartBefore(r + x, ScriptClose, |r|)
    ensures NoStartBefore(JsBodyPart34(r) + x, ScriptClose, |JsBodyPart34(r)|)
  {
    NoStartPlain(JsBodyPiece144, r, x, ScriptClose, |r|);
    NoStartPlain(JsBodyPiece143, JsBodyPiece144 + r, x, ScriptClose, |JsBodyPiece144 + r|);
    NoStartPlain(JsBodyPiece142, JsBodyPiece143 + (JsBodyPiece144 + r), x, ScriptClose, |JsBodyPiece143 + (JsBodyPiece144 + r)|);
    NoStartPlain(JsBodyPiece141, JsBodyPiece142 + (JsBodyPiece143 + (JsBodyPiece144 + r)), x, ScriptClose, |JsBodyPiece142 + (JsBodyPiece143 + (JsBodyPiece144 + r))|);
  }

  /** No `highlightSyntax` starts inside the header, whatever follows it. */
  lemma JsHeaderNoStart(x: string)
    ensures NoStartBefore(JsHeader + x, ScriptKey, |JsHeader|)
  {
    JsHeaderClear1("", x);
    JsHeaderClear0(JsHeaderPart1(""), x);
  }

  /** No `</script>` starts in parts 0 to 5. */
  lemma JsBodySectionClear0(r: string, x: string)
    requires NoStartBefore(r + x, ScriptClose, |r|)
    ensures NoStartBefore(JsBodySection0(r) + x, ScriptClose, |JsBodySection0(r)|)
  {
    JsBodyClear5(r, x);
    JsBodyClear4(JsBodyPart5(r), x);
    JsBodyClear3(JsBodyPart4(JsBodyPart5(r)), x);
    JsBodyClear2(JsBodyPart3(JsBodyPart4(JsBodyPart5(r))), x);
    JsBodyClear1(JsBodyPart2(JsBodyPart3(JsBodyPart4(JsBodyPart5(r)))), x);
    JsBodyClear0(JsBodyPart1(JsBodyPart2(JsBodyPart3(JsBodyPart4(JsBodyPart5(r))))), x);
  }

  /** No `</script>` starts in parts 6 to 11. */
  lemma JsBodySectionClear1(r: string, x: string)
    requires NoStartBefore(r + x, ScriptClose, |r|)
    ensures NoStartBefore(JsBodySection1(r) + x, ScriptClose, |JsBodySection1(r)|)
  {
    JsBodyClear11(r, x);
    JsBodyClear10(JsBodyPart11(r), x);
    JsBodyClear9(JsBodyPart10(JsBodyPart11(r)), x);
    JsBodyClear8(JsBodyPart9(JsBodyPart10(JsBodyPart11(r))), x);
    JsBodyClear7(JsBodyPart8(JsBodyPart9(JsBodyPart10(JsBodyPart11(r)))), x);
    JsBodyClear6(JsBodyPart7(JsBodyPart8(JsBodyPart9(JsBodyPart10(JsBodyPart11(r))))), x);
  }

  /** No `</script>` starts in parts 12 to 17. */
  lemma JsBodySectionClear2(r: string, x: string)
    requires NoStartBefore(r + x, ScriptClose, |r|)
    ensures NoStartBefore(JsBodySection2(r) + x, ScriptClose, |JsBodySection2(r)|)
  {
    JsBodyClear17(r, x);
    JsBodyClear16(JsBodyPart17(r), x);
    JsBodyClear15(JsBodyPart16(JsBodyPart17(r)), x);
    JsBodyClear14(JsBodyPart15(JsBodyPart16(JsBodyPart17(r))), x);
    JsBodyClear13(JsBodyPart14(JsBodyPart15(JsBodyPart16(JsBodyPart17(r)))), x);
    JsBodyClear12(JsBodyPart13(JsBodyPart14(JsBodyPart15(JsBodyPart16(JsBodyPart17(r))))), x);
  }

  /** No `</script>` starts in parts 18 to 23. */
  lemma JsBodySectionClear3(r: string, x: string)
    requires NoStartBefore(r + x, ScriptClose, |r|)
    ensures NoStartBefore(JsBodySection3(r) + x, ScriptClose, |JsBodySection3(r)|)
  {
    JsBodyClear23(r, x);
    JsBodyClear22(JsBodyPart23(r), x);
    JsBodyClear21(JsBodyPart22(JsBodyPart23(r)), x);
    JsBodyClear20(JsBodyPart21(JsBodyPart22(JsBodyPart23(r))), x);
    JsBodyClear19(JsBodyPart20(JsBodyPart21(JsBodyPart22(JsBodyPart23(r)))), x);
    JsBodyClear18(JsBodyPart19(JsBodyPart20(JsBodyPart21(JsBodyPart22(JsBodyPart23(r))))), x);
  }

  /** No `</script>` starts in parts 24 to 29. */
  lemma JsBodySectionClear4(r: string, x: string)
    requires NoStartBefore(r + x, ScriptClose, |r|)
    ensures NoStartBefore(JsBodySection4(r) + x, ScriptClose, |JsBodySection4(r)|)
  {
    JsBodyClear29(r, x);
    JsBodyClear28(JsBodyPart29(r), x);
    JsBodyClear27(JsBodyPart28(JsBodyPart29(r)), x);
    JsBodyClear26(JsBodyPart27(JsBodyPart28(JsBodyPart29(r))), x);
    JsBodyClear25(JsBodyPart26(JsBodyPart27(JsBodyPart28(JsBodyPart29(r)))), x);
    JsBodyClear24(JsBodyPart25(JsBodyPart26(JsBodyPart27(JsBodyPart28(JsBodyPart29(r))))), x);
  }

  /** No `</script>` starts in parts 30 to 34. */
  lemma JsBodySectionClear5(r: string, x: string)
    requires NoStartBefore(r + x, ScriptClose, |r|)
    ensures NoStartBefore(JsBodySection5(r) + x, ScriptClose, |JsBodySection5(r)|)
  {
    JsBodyClear34(r, x);
    JsBodyClear33(JsBodyPart34(r), x);
    JsBodyClear32(JsBodyPart33(JsBodyPart34(r)), x);
    JsBodyClear31(JsBodyPart32(JsBodyPart33(JsBodyPart34(r))), x);
    JsBodyClear30(JsBodyPart31(JsBodyPart32(JsBodyPart33(JsBodyPart34(r)))), x);
  }

  /** No `</script>` starts inside the body, whatever follows it. */
  lemma JsBodyNoStart(x: string)
    ensures NoStartBefore(JsBody + x, ScriptClose, |JsBody|)
  {
    JsBodySectionClear5("", x);
    JsBodySectionClear4(JsBodySection5(""), x);
    JsBodySectionClear3(JsBodySection4(JsBodySection5("")), x);
    JsBodySectionClear2(JsBodySection3(JsBodySection4(JsBodySection5(""))), x);
    JsBodySectionClear1(JsBodySection2(JsBodySection3(JsBodySection4(JsBodySection5("")))), x);
    JsBodySectionClear0(JsBodySection1(JsBodySection2(JsBodySection3(JsBodySection4(JsBodySection5(""))))), x);
  }

}
