/** The style sheet that add_syntax_highlighting.py writes in place of each
    black `.code-block { … }` rule (lines 23-86), with the head and the
    required declaration of that old rule (line 21). The sheet is a lead of
    eight spaces, the head `.code-block {`, the body of its first rule, a
    `}`, the other rules and a final `}`; the two texts are cut into pieces
    of a few characters so that facts about them follow piece by piece. */
module HighlightSheet {
  import opened Text

  /** The old rule is `.code-block {`, a body without `}` that holds
      `background: #000;`, and `}`. */
  const OldCssHead: string := ".code-block {"
  const OldCssNeed: string := "background: #000;"

  /** The eight spaces the sheet starts with. */
  const SheetLead: string := "        "

  const FirstRuleBodyPiece0: string := "\n            "
  const FirstRuleBodyPiece1: string := "b"
  const FirstRuleBodyPiece2: string := "ackground: #1e1e1e"
  const FirstRuleBodyPiece3: string := ";\n            colo"
  const FirstRuleBodyPiece4: string := "r: #d4d4d4;\n      "
  const FirstRuleBodyPiece5: string := "      padding: 1"
  const FirstRuleBodyPiece6: string := "."
  const FirstRuleBodyPiece7: string := "5rem;\n            "
  const FirstRuleBodyPiece8: string := "b"
  const FirstRuleBodyPiece9: string := "order-radius: 8px;"
  const FirstRuleBodyPiece10: string := "\n            margi"
  const FirstRuleBodyPiece11: string := "n: 1rem 0;\n       "
  const FirstRuleBodyPiece12: string := "     font-family: "
  const FirstRuleBodyPiece13: string := "'Fira Code', 'Mona"
  const FirstRuleBodyPiece14: string := "co', 'Cascadia Cod"
  const FirstRuleBodyPiece15: string := "e', 'Ro"
  const FirstRuleBodyPiece16: string := "b"
  const FirstRuleBodyPiece17: string := "oto Mono', monospa"
  const FirstRuleBodyPiece18: string := "ce;\n            ov"
  const FirstRuleBodyPiece19: string := "erflow-x: auto;\n  "
  const FirstRuleBodyPiece20: string := "          "
  const FirstRuleBodyPiece21: string := "b"
  const FirstRuleBodyPiece22: string := "order: 1px solid #"
  const FirstRuleBodyPiece23: string := "333;\n            "
  const FirstRuleBodyPiece24: string := "b"
  const FirstRuleBodyPiece25: string := "ox-shadow: 0 2px 8"
  const FirstRuleBodyPiece26: string := "px rg"
  const FirstRuleBodyPiece27: string := "b"
  const FirstRuleBodyPiece28: string := "a(0,0,0,0"
  const FirstRuleBodyPiece29: string := "."
  const FirstRuleBodyPiece30: string := "1);\n        "

  /** Pieces 0 to 3, then `r`. */
  function FirstRuleBodyPart0(r: string): string {
    FirstRuleBodyPiece0 + (FirstRuleBodyPiece1 + (FirstRuleBodyPiece2 + (FirstRuleBodyPiece3 + r)))
  }

  /** Pieces 4 to 7, then `r`. */
  function FirstRuleBodyPart1(r: string): string {
    FirstRuleBodyPiece4 + (FirstRuleBodyPiece5 + (FirstRuleBodyPiece6 + (FirstRuleBodyPiece7 + r)))
  }

  /** Pieces 8 to 11, then `r`. */
  function FirstRuleBodyPart2(r: string): string {
    FirstRuleBodyPiece8 + (FirstRuleBodyPiece9 + (FirstRuleBodyPiece10 + (FirstRuleBodyPiece11 + r)))
  }

  /** Pieces 12 to 15, then `r`. */
  function FirstRuleBodyPart3(r: string): string {
    FirstRuleBodyPiece12 + (FirstRuleBodyPiece13 + (FirstRuleBodyPiece14 + (FirstRuleBodyPiece15 + r)))
  }

  /** Pieces 16 to 19, then `r`. */
  function FirstRuleBodyPart4(r: string): string {
    FirstRuleBodyPiece16 + (FirstRuleBodyPiece17 + (FirstRuleBodyPiece18 + (FirstRuleBodyPiece19 + r)))
  }

  /** Pieces 20 to 23, then `r`. */
  function FirstRuleBodyPart5(r: string): string {
    FirstRuleBodyPiece20 + (FirstRuleBodyPiece21 + (FirstRuleBodyPiece22 + (FirstRuleBodyPiece23 + r)))
  }

  /** Pieces 24 to 28, then `r`. */
  function FirstRuleBodyPart6(r: string): string {
    FirstRuleBodyPiece24 + (FirstRuleBodyPiece25 + (FirstRuleBodyPiece26 + (FirstRuleBodyPiece27 + (FirstRuleBodyPiece28 + r))))
  }

  /** Pieces 29 to 30, then `r`. */
  function FirstRuleBodyPart7(r: string): string {
    FirstRuleBodyPiece29 + (FirstRuleBodyPiece30 + r)
  }

  /** Parts 0 to 5, then `r`. */
  function FirstRuleBodySection0(r: string): string {
    FirstRuleBodyPart0(FirstRuleBodyPart1(FirstRuleBodyPart2(FirstRuleBodyPart3(FirstRuleBodyPart4(FirstRuleBodyPart5(r))))))
  }

  /** Parts 6 to 7, then `r`. */
  function FirstRuleBodySection1(r: string): string {
    FirstRuleBodyPart6(FirstRuleBodyPart7(r))
  }

  /** The body of the sheet's first rule, between its `{` and its `}`. */
  const FirstRuleBody: string := FirstRuleBodySection0(FirstRuleBodySection1(""))

  const SheetRestPiece0: string := "\n        \n        "
  const SheetRestPiece1: string := "."
  const SheetRestPiece2: string := "code-block pre {\n "
  const SheetRestPiece3: string := "           margin:"
  const SheetRestPiece4: string := " 0;\n            pa"
  const SheetRestPiece5: string := "dding: 0;\n        "
  const SheetRestPiece6: string := "    background: tr"
  const SheetRestPiece7: string := "ansparent;\n       "
  const SheetRestPiece8: string := " }\n        \n      "
  const SheetRestPiece9: string := "  "
  const SheetRestPiece10: string := "."
  const SheetRestPiece11: string := "code-block code {\n"
  const SheetRestPiece12: string := "            backgr"
  const SheetRestPiece13: string := "ound: transparent;"
  const SheetRestPiece14: string := "\n            color"
  const SheetRestPiece15: string := ": inherit;\n       "
  const SheetRestPiece16: string := "     padding: 0;\n "
  const SheetRestPiece17: string := "           font-si"
  const SheetRestPiece18: string := "ze: 0"
  const SheetRestPiece19: string := "."
  const SheetRestPiece20: string := "9rem;\n            "
  const SheetRestPiece21: string := "line-height: 1"
  const SheetRestPiece22: string := "."
  const SheetRestPiece23: string := "5;\n        }\n\n    "
  const SheetRestPiece24: string := "    /* Syntax high"
  const SheetRestPiece25: string := "lighting for TypeS"
  const SheetRestPiece26: string := "cript/JavaScript *"
  const SheetRestPiece27: string := "/\n        "
  const SheetRestPiece28: string := "."
  const SheetRestPiece29: string := "code-block "
  const SheetRestPiece30: string := "."
  const SheetRestPiece31: string := "keyword {\n        "
  const SheetRestPiece32: string := "    color: #569cd6"
  const SheetRestPiece33: string := "; /* Blue for keyw"
  const SheetRestPiece34: string := "ords */\n          "
  const SheetRestPiece35: string := "  font-weight: bol"
  const SheetRestPiece36: string := "d;\n        }\n     "
  const SheetRestPiece37: string := "   \n        "
  const SheetRestPiece38: string := "."
  const SheetRestPiece39: string := "code-block "
  const SheetRestPiece40: string := "."
  const SheetRestPiece41: string := "string {\n         "
  const SheetRestPiece42: string := "   color: #ce9178;"
  const SheetRestPiece43: string := " /* Orange for str"
  const SheetRestPiece44: string := "ings */\n        }\n"
  const SheetRestPiece45: string := "        \n        "
  const SheetRestPiece46: string := "."
  const SheetRestPiece47: string := "code-block "
  const SheetRestPiece48: string := "."
  const SheetRestPiece49: string := "comment {\n        "
  const SheetRestPiece50: string := "    color: #6a9955"
  const SheetRestPiece51: string := "; /* Green for com"
  const SheetRestPiece52: string := "ments */\n         "
  const SheetRestPiece53: string := "   font-style: ita"
  const SheetRestPiece54: string := "lic;\n        }\n   "
  const SheetRestPiece55: string := "     \n        "
  const SheetRestPiece56: string := "."
  const SheetRestPiece57: string := "code-block "
  const SheetRestPiece58: string := "."
  const SheetRestPiece59: string := "number {\n         "
  const SheetRestPiece60: string := "   color: #b5cea8;"
  const SheetRestPiece61: string := " /* Light green fo"
  const SheetRestPiece62: string := "r numbers */\n     "
  const SheetRestPiece63: string := "   }\n        \n    "
  const SheetRestPiece64: string := "    "
  const SheetRestPiece65: string := "."
  const SheetRestPiece66: string := "code-block "
  const SheetRestPiece67: string := "."
  const SheetRestPiece68: string := "function {\n       "
  const SheetRestPiece69: string := "     color: #dcdca"
  const SheetRestPiece70: string := "a; /* Yellow for f"
  const SheetRestPiece71: string := "unction names */\n "
  const SheetRestPiece72: string := "       }\n        \n"
  const SheetRestPiece73: string := "        "
  const SheetRestPiece74: string := "."
  const SheetRestPiece75: string := "code-block "
  const SheetRestPiece76: string := "."
  const SheetRestPiece77: string := "variable {\n       "
  const SheetRestPiece78: string := "     color: #9cdcf"
  const SheetRestPiece79: string := "e; /* Light blue f"
  const SheetRestPiece80: string := "or variables */\n  "
  const SheetRestPiece81: string := "      }\n        \n "
  const SheetRestPiece82: string := "       "
  const SheetRestPiece83: string := "."
  const SheetRestPiece84: string := "code-block "
  const SheetRestPiece85: string := "."
  const SheetRestPiece86: string := "type {\n           "
  const SheetRestPiece87: string := " color: #4ec9b0; /"
  const SheetRestPiece88: string := "* Teal for types *"
  const SheetRestPiece89: string := "/\n        }\n      "
  const SheetRestPiece90: string := "  \n        "
  const SheetRestPiece91: string := "."
  const SheetRestPiece92: string := "code-block "
  const SheetRestPiece93: string := "."
  const SheetRestPiece94: string := "operator {\n       "
  const SheetRestPiece95: string := "     color: #d4d4d"
  const SheetRestPiece96: string := "4; /* White for op"
  const SheetRestPiece97: string := "erators */\n       "
  const SheetRestPiece98: string := " }\n        \n      "
  const SheetRestPiece99: string := "  "
  const SheetRestPiece100: string := "."
  const SheetRestPiece101: string := "code-block "
  const SheetRestPiece102: string := "."
  const SheetRestPiece103: string := "punctuation {\n    "
  const SheetRestPiece104: string := "        color: #cc"
  const SheetRestPiece105: string := "cccc; /* Light gra"
  const SheetRestPiece106: string := "y for punctuation "
  const SheetRestPiece107: string := "*/\n        "

  /** Pieces 0 to 3, then `r`. */
  function SheetRestPart0(r: string): string {
    SheetRestPiece0 + (SheetRestPiece1 + (SheetRestPiece2 + (SheetRestPiece3 + r)))
  }

  /** Pieces 4 to 7, then `r`. */
  function SheetRestPart1(r: string): string {
    SheetRestPiece4 + (SheetRestPiece5 + (SheetRestPiece6 + (SheetRestPiece7 + r)))
  }

  /** Pieces 8 to 11, then `r`. */
  function SheetRestPart2(r: string): string {
    SheetRestPiece8 + (SheetRestPiece9 + (SheetRestPiece10 + (SheetRestPiece11 + r)))
  }

  /** Pieces 12 to 15, then `r`. */
  function SheetRestPart3(r: string): string {
    SheetRestPiece12 + (SheetRestPiece13 + (SheetRestPiece14 + (SheetRestPiece15 + r)))
  }

  /** Pieces 16 to 20, then `r`. */
  function SheetRestPart4(r: string): string {
    SheetRestPiece16 + (SheetRestPiece17 + (SheetRestPiece18 + (SheetRestPiece19 + (SheetRestPiece20 + r))))
  }

  /** Pieces 21 to 24, then `r`. */
  function SheetRestPart5(r: string): string {
    SheetRestPiece21 + (SheetRestPiece22 + (SheetRestPiece23 + (SheetRestPiece24 + r)))
  }

  /** Pieces 25 to 31, then `r`. */
  function SheetRestPart6(r: string): string {
    SheetRestPiece25 + (SheetRestPiece26 + (SheetRestPiece27 + (SheetRestPiece28 + (SheetRestPiece29 + (SheetRestPiece30 + (SheetRestPiece31 + r))))))
  }

  /** Pieces 32 to 35, then `r`. */
  function SheetRestPart7(r: string): string {
    SheetRestPiece32 + (SheetRestPiece33 + (SheetRestPiece34 + (SheetRestPiece35 + r)))
  }

  /** Pieces 36 to 41, then `r`. */
  function SheetRestPart8(r: string): string {
    SheetRestPiece36 + (SheetRestPiece37 + (SheetRestPiece38 + (SheetRestPiece39 + (SheetRestPiece40 + (SheetRestPiece41 + r)))))
  }

  /** Pieces 42 to 45, then `r`. */
  function SheetRestPart9(r: string): string {
    SheetRestPiece42 + (SheetRestPiece43 + (SheetRestPiece44 + (SheetRestPiece45 + r)))
  }

  /** Pieces 46 to 49, then `r`. */
  function SheetRestPart10(r: string): string {
    SheetRestPiece46 + (SheetRestPiece47 + (SheetRestPiece48 + (SheetRestPiece49 + r)))
  }

  /** Pieces 50 to 53, then `r`. */
  function SheetRestPart11(r: string): string {
    SheetRestPiece50 + (SheetRestPiece51 + (SheetRestPiece52 + (SheetRestPiece53 + r)))
  }

  /** Pieces 54 to 59, then `r`. */
  function SheetRestPart12(r: string): string {
    SheetRestPiece54 + (SheetRestPiece55 + (SheetRestPiece56 + (SheetRestPiece57 + (SheetRestPiece58 + (SheetRestPiece59 + r)))))
  }

  /** Pieces 60 to 63, then `r`. */
  function SheetRestPart13(r: string): string {
    SheetRestPiece60 + (SheetRestPiece61 + (SheetRestPiece62 + (SheetRestPiece63 + r)))
  }

  /** Pieces 64 to 68, then `r`. */
  function SheetRestPart14(r: string): string {
    SheetRestPiece64 + (SheetRestPiece65 + (SheetRestPiece66 + (SheetRestPiece67 + (SheetRestPiece68 + r))))
  }

  /** Pieces 69 to 72, then `r`. */
  function SheetRestPart15(r: string): string {
    SheetRestPiece69 + (SheetRestPiece70 + (SheetRestPiece71 + (SheetRestPiece72 + r)))
  }

  /** Pieces 73 to 77, then `r`. */
  function SheetRestPart16(r: string): string {
    SheetRestPiece73 + (SheetRestPiece74 + (SheetRestPiece75 + (SheetRestPiece76 + (SheetRestPiece77 + r))))
  }

  /** Pieces 78 to 81, then `r`. */
  function SheetRestPart17(r: string): string {
    SheetRestPiece78 + (SheetRestPiece79 + (SheetRestPiece80 + (SheetRestPiece81 + r)))
  }

  /** Pieces 82 to 86, then `r`. */
  function SheetRestPart18(r: string): string {
    SheetRestPiece82 + (SheetRestPiece83 + (SheetRestPiece84 + (SheetRestPiece85 + (SheetRestPiece86 + r))))
  }

  /** Pieces 87 to 90, then `r`. */
  function SheetRestPart19(r: string): string {
    SheetRestPiece87 + (SheetRestPiece88 + (SheetRestPiece89 + (SheetRestPiece90 + r)))
  }

  /** Pieces 91 to 94, then `r`. */
  function SheetRestPart20(r: string): string {
    SheetRestPiece91 + (SheetRestPiece92 + (SheetRestPiece93 + (SheetRestPiece94 + r)))
  }

  /** Pieces 95 to 98, then `r`. */
  function SheetRestPart21(r: string): string {
    SheetRestPiece95 + (SheetRestPiece96 + (SheetRestPiece97 + (SheetRestPiece98 + r)))
  }

  /** Pieces 99 to 103, then `r`. */
  function SheetRestPart22(r: string): string {
    SheetRestPiece99 + (SheetRestPiece100 + (SheetRestPiece101 + (SheetRestPiece102 + (SheetRestPiece103 + r))))
  }

  /** Pieces 104 to 107, then `r`. */
  function SheetRestPart23(r: string): string {
    SheetRestPiece104 + (SheetRestPiece105 + (SheetRestPiece106 + (SheetRestPiece107 + r)))
  }

  /** Parts 0 to 5, then `r`. */
  function SheetRestSection0(r: string): string {
    SheetRestPart0(SheetRestPart1(SheetRestPart2(SheetRestPart3(SheetRestPart4(SheetRestPart5(r))))))
  }

  /** Parts 6 to 11, then `r`. */
  function SheetRestSection1(r: string): string {
    SheetRestPart6(SheetRestPart7(SheetRestPart8(SheetRestPart9(SheetRestPart10(SheetRestPart11(r))))))
  }

  /** Parts 12 to 17, then `r`. */
  function SheetRestSection2(r: string): string {
    SheetRestPart12(SheetRestPart13(SheetRestPart14(SheetRestPart15(SheetRestPart16(SheetRestPart17(r))))))
  }

  /** Parts 18 to 23, then `r`. */
  function SheetRestSection3(r: string): string {
    SheetRestPart18(SheetRestPart19(SheetRestPart20(SheetRestPart21(SheetRestPart22(SheetRestPart23(r))))))
  }

  /** The rules after the first one, up to the final `}`. */
  const SheetRest: string := SheetRestSection0(SheetRestSection1(SheetRestSection2(SheetRestSection3(""))))

  /** The whole sheet, 1780 characters. */
  const HighlightCss: string := SheetLead + OldCssHead + FirstRuleBody + "}" + SheetRest + "}"

  /** No `.code-block {` starts in pieces 0 to 3. */
  lemma FirstRuleBodyHeadClear0(r: string, x: string)
    requires NoStartBefore(r + x, OldCssHead, |r|)
    ensures NoStartBefore(FirstRuleBodyPart0(r) + x, OldCssHead, |FirstRuleBodyPart0(r)|)
  {
    NoStartPlain(FirstRuleBodyPiece3, r, x, OldCssHead, |r|);
    NoStartPlain(FirstRuleBodyPiece2, FirstRuleBodyPiece3 + r, x, OldCssHead, |FirstRuleBodyPiece3 + r|);
    NoStartPlain(FirstRuleBodyPiece1, FirstRuleBodyPiece2 + (FirstRuleBodyPiece3 + r), x, OldCssHead, |FirstRuleBodyPiece2 + (FirstRuleBodyPiece3 + r)|);
    NoStartPlain(FirstRuleBodyPiece0, FirstRuleBodyPiece1 + (FirstRuleBodyPiece2 + (FirstRuleBodyPiece3 + r)), x, OldCssHead, |FirstRuleBodyPiece1 + (FirstRuleBodyPiece2 + (FirstRuleBodyPiece3 + r))|);
  }

  /** No `.code-block {` starts in pieces 4 to 7. */
  lemma FirstRuleBodyHeadClear1(r: string, x: string)
    requires NoStartBefore(r + x, OldCssHead, |r|)
    ensures NoStartBefore(FirstRuleBodyPart1(r) + x, OldCssHead, |FirstRuleBodyPart1(r)|)
  {
    NoStartPlain(FirstRuleBodyPiece7, r, x, OldCssHead, |r|);
    assert (FirstRuleBodyPiece7 + r)[0] == '5';
    NoStartProbe(FirstRuleBodyPiece6, FirstRuleBodyPiece7 + r, x, OldCssHead, |FirstRuleBodyPiece7 + r|, 1);
    NoStartPlain(FirstRuleBodyPiece5, FirstRuleBodyPiece6 + (FirstRuleBodyPiece7 + r), x, OldCssHead, |FirstRuleBodyPiece6 + (FirstRuleBodyPiece7 + r)|);
    NoStartPlain(FirstRuleBodyPiece4, FirstRuleBodyPiece5 + (FirstRuleBodyPiece6 + (FirstRuleBodyPiece7 + r)), x, OldCssHead, |FirstRuleBodyPiece5 + (FirstRuleBodyPiece6 + (FirstRuleBodyPiece7 + r))|);
  }

  /** No `.code-block {` starts in pieces 8 to 11. */
  lemma FirstRuleBodyHeadClear2(r: string, x: string)
    requires NoStartBefore(r + x, OldCssHead, |r|)
    ensures NoStartBefore(FirstRuleBodyPart2(r) + x, OldCssHead, |FirstRuleBodyPart2(r)|)
  {
    NoStartPlain(FirstRuleBodyPiece11, r, x, OldCssHead, |r|);
    NoStartPlain(FirstRuleBodyPiece10, FirstRuleBodyPiece11 + r, x, OldCssHead, |FirstRuleBodyPiece11 + r|);
    NoStartPlain(FirstRuleBodyPiece9, FirstRuleBodyPiece10 + (FirstRuleBodyPiece11 + r), x, OldCssHead, |FirstRuleBodyPiece10 + (FirstRuleBodyPiece11 + r)|);
    NoStartPlain(FirstRuleBodyPiece8, FirstRuleBodyPiece9 + (FirstRuleBodyPiece10 + (FirstRuleBodyPiece11 + r)), x, OldCssHead, |FirstRuleBodyPiece9 + (FirstRuleBodyPiece10 + (FirstRuleBodyPiece11 + r))|);
  }

  /** No `.code-block {` starts in pieces 12 to 15. */
  lemma FirstRuleBodyHeadClear3(r: string, x: string)
    requires NoStartBefore(r + x, OldCssHead, |r|)
    ensures NoStartBefore(FirstRuleBodyPart3(r) + x, OldCssHead, |FirstRuleBodyPart3(r)|)
  {
    NoStartPlain(FirstRuleBodyPiece15, r, x, OldCssHead, |r|);
    NoStartPlain(FirstRuleBodyPiece14, FirstRuleBodyPiece15 + r, x, OldCssHead, |FirstRuleBodyPiece15 + r|);
    NoStartPlain(FirstRuleBodyPiece13, FirstRuleBodyPiece14 + (FirstRuleBodyPiece15 + r), x, OldCssHead, |FirstRuleBodyPiece14 + (FirstRuleBodyPiece15 + r)|);
    NoStartPlain(FirstRuleBodyPiece12, FirstRuleBodyPiece13 + (FirstRuleBodyPiece14 + (FirstRuleBodyPiece15 + r)), x, OldCssHead, |FirstRuleBodyPiece13 + (FirstRuleBodyPiece14 + (FirstRuleBodyPiece15 + r))|);
  }

  /** No `.code-block {` starts in pieces 16 to 19. */
  lemma FirstRuleBodyHeadClear4(r: string, x: string)
    requires NoStartBefore(r + x, OldCssHead, |r|)
    ensures NoStartBefore(FirstRuleBodyPart4(r) + x, OldCssHead, |FirstRuleBodyPart4(r)|)
  {
    NoStartPlain(FirstRuleBodyPiece19, r, x, OldCssHead, |r|);
    NoStartPlain(FirstRuleBodyPiece18, FirstRuleBodyPiece19 + r, x, OldCssHead, |FirstRuleBodyPiece19 + r|);
    NoStartPlain(FirstRuleBodyPiece17, FirstRuleBodyPiece18 + (FirstRuleBodyPiece19 + r), x, OldCssHead, |FirstRuleBodyPiece18 + (FirstRuleBodyPiece19 + r)|);
    NoStartPlain(FirstRuleBodyPiece16, FirstRuleBodyPiece17 + (FirstRuleBodyPiece18 + (FirstRuleBodyPiece19 + r)), x, OldCssHead, |FirstRuleBodyPiece17 + (FirstRuleBodyPiece18 + (FirstRuleBodyPiece19 + r))|);
  }

  /** No `.code-block {` starts in pieces 20 to 23. */
  lemma FirstRuleBodyHeadClear5(r: string, x: string)
    requires NoStartBefore(r + x, OldCssHead, |r|)
    ensures NoStartBefore(FirstRuleBodyPart5(r) + x, OldCssHead, |FirstRuleBodyPart5(r)|)
  {
    NoStartPlain(FirstRuleBodyPiece23, r, x, OldCssHead, |r|);
    NoStartPlain(FirstRuleBodyPiece22, FirstRuleBodyPiece23 + r, x, OldCssHead, |FirstRuleBodyPiece23 + r|);
    NoStartPlain(FirstRuleBodyPiece21, FirstRuleBodyPiece22 + (FirstRuleBodyPiece23 + r), x, OldCssHead, |FirstRuleBodyPiece22 + (FirstRuleBodyPiece23 + r)|);
    NoStartPlain(FirstRuleBodyPiece20, FirstRuleBodyPiece21 + (FirstRuleBodyPiece22 + (FirstRuleBodyPiece23 + r)), x, OldCssHead, |FirstRuleBodyPiece21 + (FirstRuleBodyPiece22 + (FirstRuleBodyPiece23 + r))|);
  }

  /** No `.code-block {` starts in pieces 24 to 28. */
  lemma FirstRuleBodyHeadClear6(r: string, x: string)
    requires NoStartBefore(r + x, OldCssHead, |r|)
    ensures NoStartBefore(FirstRuleBodyPart6(r) + x, OldCssHead, |FirstRuleBodyPart6(r)|)
  {
    NoStartPlain(FirstRuleBodyPiece28, r, x, OldCssHead, |r|);
    NoStartPlain(FirstRuleBodyPiece27, FirstRuleBodyPiece28 + r, x, OldCssHead, |FirstRuleBodyPiece28 + r|);
    NoStartPlain(FirstRuleBodyPiece26, FirstRuleBodyPiece27 + (FirstRuleBodyPiece28 + r), x, OldCssHead, |FirstRuleBodyPiece27 + (FirstRuleBodyPiece28 + r)|);
    NoStartPlain(FirstRuleBodyPiece25, FirstRuleBodyPiece26 + (FirstRuleBodyPiece27 + (FirstRuleBodyPiece28 + r)), x, OldCssHead, |FirstRuleBodyPiece26 + (FirstRuleBodyPiece27 + (FirstRuleBodyPiece28 + r))|);
    NoStartPlain(FirstRuleBodyPiece24, FirstRuleBodyPiece25 + (FirstRuleBodyPiece26 + (FirstRuleBodyPiece27 + (FirstRuleBodyPiece28 + r))), x, OldCssHead, |FirstRuleBodyPiece25 + (FirstRuleBodyPiece26 + (FirstRuleBodyPiece27 + (FirstRuleBodyPiece28 + r)))|);
  }

  /** No `.code-block {` starts in pieces 29 to 30. */
  lemma FirstRuleBodyHeadClear7(r: string, x: string)
    requires NoStartBefore(r + x, OldCssHead, |r|)
    ensures NoStartBefore(FirstRuleBodyPart7(r) + x, OldCssHead, |FirstRuleBodyPart7(r)|)
  {
    NoStartPlain(FirstRuleBodyPiece30, r, x, OldCssHead, |r|);
    assert (FirstRuleBodyPiece30 + r)[0] == '1';
    NoStartProbe(FirstRuleBodyPiece29, FirstRuleBodyPiece30 + r, x, OldCssHead, |FirstRuleBodyPiece30 + r|, 1);
  }

  /** No `background: #000;` starts in pieces 0 to 3. */
  lemma FirstRuleBodyNeedClear0(r: string, x: string)
    requires NoStartBefore(r + x, OldCssNeed, |r|)
    ensures NoStartBefore(FirstRuleBodyPart0(r) + x, OldCssNeed, |FirstRuleBodyPart0(r)|)
  {
    NoStartPlain(FirstRuleBodyPiece3, r, x, OldCssNeed, |r|);
    NoStartPlain(FirstRuleBodyPiece2, FirstRuleBodyPiece3 + r, x, OldCssNeed, |FirstRuleBodyPiece3 + r|);
    assert (FirstRuleBodyPiece2 + (FirstRuleBodyPiece3 + r))[12] == '1';
    NoStartProbe(FirstRuleBodyPiece1, FirstRuleBodyPiece2 + (FirstRuleBodyPiece3 + r), x, OldCssNeed, |FirstRuleBodyPiece2 + (FirstRuleBodyPiece3 + r)|, 13);
    NoStartPlain(FirstRuleBodyPiece0, FirstRuleBodyPiece1 + (FirstRuleBodyPiece2 + (FirstRuleBodyPiece3 + r)), x, OldCssNeed, |FirstRuleBodyPiece1 + (FirstRuleBodyPiece2 + (FirstRuleBodyPiece3 + r))|);
  }

  /** No `background: #000;` starts in pieces 4 to 7. */
  lemma FirstRuleBodyNeedClear1(r: string, x: string)
    requires NoStartBefore(r + x, OldCssNeed, |r|)
    ensures NoStartBefore(FirstRuleBodyPart1(r) + x, OldCssNeed, |FirstRuleBodyPart1(r)|)
  {
    NoStartPlain(FirstRuleBodyPiece7, r, x, OldCssNeed, |r|);
    NoStartPlain(FirstRuleBodyPiece6, FirstRuleBodyPiece7 + r, x, OldCssNeed, |FirstRuleBodyPiece7 + r|);
    NoStartPlain(FirstRuleBodyPiece5, FirstRuleBodyPiece6 + (FirstRuleBodyPiece7 + r), x, OldCssNeed, |FirstRuleBodyPiece6 + (FirstRuleBodyPiece7 + r)|);
    NoStartPlain(FirstRuleBodyPiece4, FirstRuleBodyPiece5 + (FirstRuleBodyPiece6 + (FirstRuleBodyPiece7 + r)), x, OldCssNeed, |FirstRuleBodyPiece5 + (FirstRuleBodyPiece6 + (FirstRuleBodyPiece7 + r))|);
  }

  /** No `background: #000;` starts in pieces 8 to 11. */
  lemma FirstRuleBodyNeedClear2(r: string, x: string)
    requires NoStartBefore(r + x, OldCssNeed, |r|)
    ensures NoStartBefore(FirstRuleBodyPart2(r) + x, OldCssNeed, |FirstRuleBodyPart2(r)|)
  {
    NoStartPlain(FirstRuleBodyPiece11, r, x, OldCssNeed, |r|);
    NoStartPlain(FirstRuleBodyPiece10, FirstRuleBodyPiece11 + r, x, OldCssNeed, |FirstRuleBodyPiece11 + r|);
    NoStartPlain(FirstRuleBodyPiece9, FirstRuleBodyPiece10 + (FirstRuleBodyPiece11 + r), x, OldCssNeed, |FirstRuleBodyPiece10 + (FirstRuleBodyPiece11 + r)|);
    assert (FirstRuleBodyPiece9 + (FirstRuleBodyPiece10 + (FirstRuleBodyPiece11 + r)))[0] == 'o';
    NoStartProbe(FirstRuleBodyPiece8, FirstRuleBodyPiece9 + (FirstRuleBodyPiece10 + (FirstRuleBodyPiece11 + r)), x, OldCssNeed, |FirstRuleBodyPiece9 + (FirstRuleBodyPiece10 + (FirstRuleBodyPiece11 + r))|, 1);
  }

  /** No `background: #000;` starts in pieces 12 to 15. */
  lemma FirstRuleBodyNeedClear3(r: string, x: string)
    requires NoStartBefore(r + x, OldCssNeed, |r|)
    ensures NoStartBefore(FirstRuleBodyPart3(r) + x, OldCssNeed, |FirstRuleBodyPart3(r)|)
  {
    NoStartPlain(FirstRuleBodyPiece15, r, x, OldCssNeed, |r|);
    NoStartPlain(FirstRuleBodyPiece14, FirstRuleBodyPiece15 + r, x, OldCssNeed, |FirstRuleBodyPiece15 + r|);
    NoStartPlain(FirstRuleBodyPiece13, FirstRuleBodyPiece14 + (FirstRuleBodyPiece15 + r), x, OldCssNeed, |FirstRuleBodyPiece14 + (FirstRuleBodyPiece15 + r)|);
    NoStartPlain(FirstRuleBodyPiece12, FirstRuleBodyPiece13 + (FirstRuleBodyPiece14 + (FirstRuleBodyPiece15 + r)), x, OldCssNeed, |FirstRuleBodyPiece13 + (FirstRuleBodyPiece14 + (FirstRuleBodyPiece15 + r))|);
  }

  /** No `background: #000;` starts in pieces 16 to 19. */
  lemma FirstRuleBodyNeedClear4(r: string, x: string)
    requires NoStartBefore(r + x, OldCssNeed, |r|)
    ensures NoStartBefore(FirstRuleBodyPart4(r) + x, OldCssNeed, |FirstRuleBodyPart4(r)|)
  {
    NoStartPlain(FirstRuleBodyPiece19, r, x, OldCssNeed, |r|);
    NoStartPlain(FirstRuleBodyPiece18, FirstRuleBodyPiece19 + r, x, OldCssNeed, |FirstRuleBodyPiece19 + r|);
    NoStartPlain(FirstRuleBodyPiece17, FirstRuleBodyPiece18 + (FirstRuleBodyPiece19 + r), x, OldCssNeed, |FirstRuleBodyPiece18 + (FirstRuleBodyPiece19 + r)|);
    assert (FirstRuleBodyPiece17 + (FirstRuleBodyPiece18 + (FirstRuleBodyPiece19 + r)))[0] == 'o';
    NoStartProbe(FirstRuleBodyPiece16, FirstRuleBodyPiece17 + (FirstRuleBodyPiece18 + (FirstRuleBodyPiece19 + r)), x, OldCssNeed, |FirstRuleBodyPiece17 + (FirstRuleBodyPiece18 + (FirstRuleBodyPiece19 + r))|, 1);
  }

  /** No `background: #000;` starts in pieces 20 to 23. */
  lemma FirstRuleBodyNeedClear5(r: string, x: string)
    requires NoStartBefore(r + x, OldCssNeed, |r|)
    ensures NoStartBefore(FirstRuleBodyPart5(r) + x, OldCssNeed, |FirstRuleBodyPart5(r)|)
  {
    NoStartPlain(FirstRuleBodyPiece23, r, x, OldCssNeed, |r|);
    NoStartPlain(FirstRuleBodyPiece22, FirstRuleBodyPiece23 + r, x, OldCssNeed, |FirstRuleBodyPiece23 + r|);
    assert (FirstRuleBodyPiece22 + (FirstRuleBodyPiece23 + r))[0] == 'o';
    NoStartProbe(FirstRuleBodyPiece21, FirstRuleBodyPiece22 + (FirstRuleBodyPiece23 + r), x, OldCssNeed, |FirstRuleBodyPiece22 + (FirstRuleBodyPiece23 + r)|, 1);
    NoStartPlain(FirstRuleBodyPiece20, FirstRuleBodyPiece21 + (FirstRuleBodyPiece22 + (FirstRuleBodyPiece23 + r)), x, OldCssNeed, |FirstRuleBodyPiece21 + (FirstRuleBodyPiece22 + (FirstRuleBodyPiece23 + r))|);
  }

  /** No `background: #000;` starts in pieces 24 to 28. */
  lemma FirstRuleBodyNeedClear6(r: string, x: string)
    requires NoStartBefore(r + x, OldCssNeed, |r|)
    ensures NoStartBefore(FirstRuleBodyPart6(r) + x, OldCssNeed, |FirstRuleBodyPart6(r)|)
  {
    NoStartPlain(FirstRuleBodyPiece28, r, x, OldCssNeed, |r|);
    assert (FirstRuleBodyPiece28 + r)[1] == '(';
    NoStartProbe(FirstRuleBodyPiece27, FirstRuleBodyPiece28 + r, x, OldCssNeed, |FirstRuleBodyPiece28 + r|, 2);
    NoStartPlain(FirstRuleBodyPiece26, FirstRuleBodyPiece27 + (FirstRuleBodyPiece28 + r), x, OldCssNeed, |FirstRuleBodyPiece27 + (FirstRuleBodyPiece28 + r)|);
    NoStartPlain(FirstRuleBodyPiece25, FirstRuleBodyPiece26 + (FirstRuleBodyPiece27 + (FirstRuleBodyPiece28 + r)), x, OldCssNeed, |FirstRuleBodyPiece26 + (FirstRuleBodyPiece27 + (FirstRuleBodyPiece28 + r))|);
    assert (FirstRuleBodyPiece25 + (FirstRuleBodyPiece26 + (FirstRuleBodyPiece27 + (FirstRuleBodyPiece28 + r))))[0] == 'o';
    NoStartProbe(FirstRuleBodyPiece24, FirstRuleBodyPiece25 + (FirstRuleBodyPiece26 + (FirstRuleBodyPiece27 + (FirstRuleBodyPiece28 + r))), x, OldCssNeed, |FirstRuleBodyPiece25 + (FirstRuleBodyPiece26 + (FirstRuleBodyPiece27 + (FirstRuleBodyPiece28 + r)))|, 1);
  }

  /** No `background: #000;` starts in pieces 29 to 30. */
  lemma FirstRuleBodyNeedClear7(r: string, x: string)
    requires NoStartBefore(r + x, OldCssNeed, |r|)
    ensures NoStartBefore(FirstRuleBodyPart7(r) + x, OldCssNeed, |FirstRuleBodyPart7(r)|)
  {
    NoStartPlain(FirstRuleBodyPiece30, r, x, OldCssNeed, |r|);
    NoStartPlain(FirstRuleBodyPiece29, FirstRuleBodyPiece30 + r, x, OldCssNeed, |FirstRuleBodyPiece30 + r|);
  }

  /** No `}` starts in pieces 0 to 3. */
  lemma FirstRuleBodyBraceClear0(r: string, x: string)
    requires NoStartBefore(r + x, "}", |r|)
    ensures NoStartBefore(FirstRuleBodyPart0(r) + x, "}", |FirstRuleBodyPart0(r)|)
  {
    NoStartPlain(FirstRuleBodyPiece3, r, x, "}", |r|);
    NoStartPlain(FirstRuleBodyPiece2, FirstRuleBodyPiece3 + r, x, "}", |FirstRuleBodyPiece3 + r|);
    NoStartPlain(FirstRuleBodyPiece1, FirstRuleBodyPiece2 + (FirstRuleBodyPiece3 + r), x, "}", |FirstRuleBodyPiece2 + (FirstRuleBodyPiece3 + r)|);
    NoStartPlain(FirstRuleBodyPiece0, FirstRuleBodyPiece1 + (FirstRuleBodyPiece2 + (FirstRuleBodyPiece3 + r)), x, "}", |FirstRuleBodyPiece1 + (FirstRuleBodyPiece2 + (FirstRuleBodyPiece3 + r))|);
  }

  /** No `}` starts in pieces 4 to 7. */
  lemma FirstRuleBodyBraceClear1(r: string, x: string)
    requires NoStartBefore(r + x, "}", |r|)
    ensures NoStartBefore(FirstRuleBodyPart1(r) + x, "}", |FirstRuleBodyPart1(r)|)
  {
    NoStartPlain(FirstRuleBodyPiece7, r, x, "}", |r|);
    NoStartPlain(FirstRuleBodyPiece6, FirstRuleBodyPiece7 + r, x, "}", |FirstRuleBodyPiece7 + r|);
    NoStartPlain(FirstRuleBodyPiece5, FirstRuleBodyPiece6 + (FirstRuleBodyPiece7 + r), x, "}", |FirstRuleBodyPiece6 + (FirstRuleBodyPiece7 + r)|);
    NoStartPlain(FirstRuleBodyPiece4, FirstRuleBodyPiece5 + (FirstRuleBodyPiece6 + (FirstRuleBodyPiece7 + r)), x, "}", |FirstRuleBodyPiece5 + (FirstRuleBodyPiece6 + (FirstRuleBodyPiece7 + r))|);
  }

  /** No `}` starts in pieces 8 to 11. */
  lemma FirstRuleBodyBraceClear2(r: string, x: string)
    requires NoStartBefore(r + x, "}", |r|)
    ensures NoStartBefore(FirstRuleBodyPart2(r) + x, "}", |FirstRuleBodyPart2(r)|)
  {
    NoStartPlain(FirstRuleBodyPiece11, r, x, "}", |r|);
    NoStartPlain(FirstRuleBodyPiece10, FirstRuleBodyPiece11 + r, x, "}", |FirstRuleBodyPiece11 + r|);
    NoStartPlain(FirstRuleBodyPiece9, FirstRuleBodyPiece10 + (FirstRuleBodyPiece11 + r), x, "}", |FirstRuleBodyPiece10 + (FirstRuleBodyPiece11 + r)|);
    NoStartPlain(FirstRuleBodyPiece8, FirstRuleBodyPiece9 + (FirstRuleBodyPiece10 + (FirstRuleBodyPiece11 + r)), x, "}", |FirstRuleBodyPiece9 + (FirstRuleBodyPiece10 + (FirstRuleBodyPiece11 + r))|);
  }

  /** No `}` starts in pieces 12 to 15. */
  lemma FirstRuleBodyBraceClear3(r: string, x: string)
    requires NoStartBefore(r + x, "}", |r|)
    ensures NoStartBefore(FirstRuleBodyPart3(r) + x, "}", |FirstRuleBodyPart3(r)|)
  {
    NoStartPlain(FirstRuleBodyPiece15, r, x, "}", |r|);
    NoStartPlain(FirstRuleBodyPiece14, FirstRuleBodyPiece15 + r, x, "}", |FirstRuleBodyPiece15 + r|);
    NoStartPlain(FirstRuleBodyPiece13, FirstRuleBodyPiece14 + (FirstRuleBodyPiece15 + r), x, "}", |FirstRuleBodyPiece14 + (FirstRuleBodyPiece15 + r)|);
    NoStartPlain(FirstRuleBodyPiece12, FirstRuleBodyPiece13 + (FirstRuleBodyPiece14 + (FirstRuleBodyPiece15 + r)), x, "}", |FirstRuleBodyPiece13 + (FirstRuleBodyPiece14 + (FirstRuleBodyPiece15 + r))|);
  }

  /** No `}` starts in pieces 16 to 19. */
  lemma FirstRuleBodyBraceClear4(r: string, x: string)
    requires NoStartBefore(r + x, "}", |r|)
    ensures NoStartBefore(FirstRuleBodyPart4(r) + x, "}", |FirstRuleBodyPart4(r)|)
  {
    NoStartPlain(FirstRuleBodyPiece19, r, x, "}", |r|);
    NoStartPlain(FirstRuleBodyPiece18, FirstRuleBodyPiece19 + r, x, "}", |FirstRuleBodyPiece19 + r|);
    NoStartPlain(FirstRuleBodyPiece17, FirstRuleBodyPiece18 + (FirstRuleBodyPiece19 + r), x, "}", |FirstRuleBodyPiece18 + (FirstRuleBodyPiece19 + r)|);
    NoStartPlain(FirstRuleBodyPiece16, FirstRuleBodyPiece17 + (FirstRuleBodyPiece18 + (FirstRuleBodyPiece19 + r)), x, "}", |FirstRuleBodyPiece17 + (FirstRuleBodyPiece18 + (FirstRuleBodyPiece19 + r))|);
  }

  /** No `}` starts in pieces 20 to 23. */
  lemma FirstRuleBodyBraceClear5(r: string, x: string)
    requires NoStartBefore(r + x, "}", |r|)
    ensures NoStartBefore(FirstRuleBodyPart5(r) + x, "}", |FirstRuleBodyPart5(r)|)
  {
    NoStartPlain(FirstRuleBodyPiece23, r, x, "}", |r|);
    NoStartPlain(FirstRuleBodyPiece22, FirstRuleBodyPiece23 + r, x, "}", |FirstRuleBodyPiece23 + r|);
    NoStartPlain(FirstRuleBodyPiece21, FirstRuleBodyPiece22 + (FirstRuleBodyPiece23 + r), x, "}", |FirstRuleBodyPiece22 + (FirstRuleBodyPiece23 + r)|);
    NoStartPlain(FirstRuleBodyPiece20, FirstRuleBodyPiece21 + (FirstRuleBodyPiece22 + (FirstRuleBodyPiece23 + r)), x, "}", |FirstRuleBodyPiece21 + (FirstRuleBodyPiece22 + (FirstRuleBodyPiece23 + r))|);
  }

  /** No `}` starts in pieces 24 to 28. */
  lemma FirstRuleBodyBraceClear6(r: string, x: string)
    requires NoStartBefore(r + x, "}", |r|)
    ensures NoStartBefore(FirstRuleBodyPart6(r) + x, "}", |FirstRuleBodyPart6(r)|)
  {
    NoStartPlain(FirstRuleBodyPiece28, r, x, "}", |r|);
    NoStartPlain(FirstRuleBodyPiece27, FirstRuleBodyPiece28 + r, x, "}", |FirstRuleBodyPiece28 + r|);
    NoStartPlain(FirstRuleBodyPiece26, FirstRuleBodyPiece27 + (FirstRuleBodyPiece28 + r), x, "}", |FirstRuleBodyPiece27 + (FirstRuleBodyPiece28 + r)|);
    NoStartPlain(FirstRuleBodyPiece25, FirstRuleBodyPiece26 + (FirstRuleBodyPiece27 + (FirstRuleBodyPiece28 + r)), x, "}", |FirstRuleBodyPiece26 + (FirstRuleBodyPiece27 + (FirstRuleBodyPiece28 + r))|);
    NoStartPlain(FirstRuleBodyPiece24, FirstRuleBodyPiece25 + (FirstRuleBodyPiece26 + (FirstRuleBodyPiece27 + (FirstRuleBodyPiece28 + r))), x, "}", |FirstRuleBodyPiece25 + (FirstRuleBodyPiece26 + (FirstRuleBodyPiece27 + (FirstRuleBodyPiece28 + r)))|);
  }

  /** No `}` starts in pieces 29 to 30. */
  lemma FirstRuleBodyBraceClear7(r: string, x: string)
    requires NoStartBefore(r + x, "}", |r|)
    ensures NoStartBefore(FirstRuleBodyPart7(r) + x, "}", |FirstRuleBodyPart7(r)|)
  {
    NoStartPlain(FirstRuleBodyPiece30, r, x, "}", |r|);
    NoStartPlain(FirstRuleBodyPiece29, FirstRuleBodyPiece30 + r, x, "}", |FirstRuleBodyPiece30 + r|);
  }

  /** No `.code-block {` starts in pieces 0 to 3. */
  lemma SheetRestHeadClear0(r: string, x: string)
    requires NoStartBefore(r + x, OldCssHead, |r|)
    ensures NoStartBefore(SheetRestPart0(r) + x, OldCssHead, |SheetRestPart0(r)|)
  {
    NoStartPlain(SheetRestPiece3, r, x, OldCssHead, |r|);
    NoStartPlain(SheetRestPiece2, SheetRestPiece3 + r, x, OldCssHead, |SheetRestPiece3 + r|);
    assert (SheetRestPiece2 + (SheetRestPiece3 + r))[11] == 'p';
    NoStartProbe(SheetRestPiece1, SheetRestPiece2 + (SheetRestPiece3 + r), x, OldCssHead, |SheetRestPiece2 + (SheetRestPiece3 + r)|, 12);
    NoStartPlain(SheetRestPiece0, SheetRestPiece1 + (SheetRestPiece2 + (SheetRestPiece3 + r)), x, OldCssHead, |SheetRestPiece1 + (SheetRestPiece2 + (SheetRestPiece3 + r))|);
  }

  /** No `.code-block {` starts in pieces 4 to 7. */
  lemma SheetRestHeadClear1(r: string, x: string)
    requires NoStartBefore(r + x, OldCssHead, |r|)
    ensures NoStartBefore(SheetRestPart1(r) + x, OldCssHead, |SheetRestPart1(r)|)
  {
    NoStartPlain(SheetRestPiece7, r, x, OldCssHead, |r|);
    NoStartPlain(SheetRestPiece6, SheetRestPiece7 + r, x, OldCssHead, |SheetRestPiece7 + r|);
    NoStartPlain(SheetRestPiece5, SheetRestPiece6 + (SheetRestPiece7 + r), x, OldCssHead, |SheetRestPiece6 + (SheetRestPiece7 + r)|);
    NoStartPlain(SheetRestPiece4, SheetRestPiece5 + (SheetRestPiece6 + (SheetRestPiece7 + r)), x, OldCssHead, |SheetRestPiece5 + (SheetRestPiece6 + (SheetRestPiece7 + r))|);
  }

  /** No `.code-block {` starts in pieces 8 to 11. */
  lemma SheetRestHeadClear2(r: string, x: string)
    requires NoStartBefore(r + x, OldCssHead, |r|)
    ensures NoStartBefore(SheetRestPart2(r) + x, OldCssHead, |SheetRestPart2(r)|)
  {
    NoStartPlain(SheetRestPiece11, r, x, OldCssHead, |r|);
    assert (SheetRestPiece11 + r)[11] == 'c';
    NoStartProbe(SheetRestPiece10, SheetRestPiece11 + r, x, OldCssHead, |SheetRestPiece11 + r|, 12);
    NoStartPlain(SheetRestPiece9, SheetRestPiece10 + (SheetRestPiece11 + r), x, OldCssHead, |SheetRestPiece10 + (SheetRestPiece11 + r)|);
    NoStartPlain(SheetRestPiece8, SheetRestPiece9 + (SheetRestPiece10 + (SheetRestPiece11 + r)), x, OldCssHead, |SheetRestPiece9 + (SheetRestPiece10 + (SheetRestPiece11 + r))|);
  }

  /** No `.code-block {` starts in pieces 12 to 15. */
  lemma SheetRestHeadClear3(r: string, x: string)
    requires NoStartBefore(r + x, OldCssHead, |r|)
    ensures NoStartBefore(SheetRestPart3(r) + x, OldCssHead, |SheetRestPart3(r)|)
  {
    NoStartPlain(SheetRestPiece15, r, x, OldCssHead, |r|);
    NoStartPlain(SheetRestPiece14, SheetRestPiece15 + r, x, OldCssHead, |SheetRestPiece15 + r|);
    NoStartPlain(SheetRestPiece13, SheetRestPiece14 + (SheetRestPiece15 + r), x, OldCssHead, |SheetRestPiece14 + (SheetRestPiece15 + r)|);
    NoStartPlain(SheetRestPiece12, SheetRestPiece13 + (SheetRestPiece14 + (SheetRestPiece15 + r)), x, OldCssHead, |SheetRestPiece13 + (SheetRestPiece14 + (SheetRestPiece15 + r))|);
  }

  /** No `.code-block {` starts in pieces 16 to 20. */
  lemma SheetRestHeadClear4(r: string, x: string)
    requires NoStartBefore(r + x, OldCssHead, |r|)
    ensures NoStartBefore(SheetRestPart4(r) + x, OldCssHead, |SheetRestPart4(r)|)
  {
    NoStartPlain(SheetRestPiece20, r, x, OldCssHead, |r|);
    assert (SheetRestPiece20 + r)[0] == '9';
    NoStartProbe(SheetRestPiece19, SheetRestPiece20 + r, x, OldCssHead, |SheetRestPiece20 + r|, 1);
    NoStartPlain(SheetRestPiece18, SheetRestPiece19 + (SheetRestPiece20 + r), x, OldCssHead, |SheetRestPiece19 + (SheetRestPiece20 + r)|);
    NoStartPlain(SheetRestPiece17, SheetRestPiece18 + (SheetRestPiece19 + (SheetRestPiece20 + r)), x, OldCssHead, |SheetRestPiece18 + (SheetRestPiece19 + (SheetRestPiece20 + r))|);
    NoStartPlain(SheetRestPiece16, SheetRestPiece17 + (SheetRestPiece18 + (SheetRestPiece19 + (SheetRestPiece20 + r))), x, OldCssHead, |SheetRestPiece17 + (SheetRestPiece18 + (SheetRestPiece19 + (SheetRestPiece20 + r)))|);
  }

  /** No `.code-block {` starts in pieces 21 to 24. */
  lemma SheetRestHeadClear5(r: string, x: string)
    requires NoStartBefore(r + x, OldCssHead, |r|)
    ensures NoStartBefore(SheetRestPart5(r) + x, OldCssHead, |SheetRestPart5(r)|)
  {
    NoStartPlain(SheetRestPiece24, r, x, OldCssHead, |r|);
    NoStartPlain(SheetRestPiece23, SheetRestPiece24 + r, x, OldCssHead, |SheetRestPiece24 + r|);
    assert (SheetRestPiece23 + (SheetRestPiece24 + r))[0] == '5';
    NoStartProbe(SheetRestPiece22, SheetRestPiece23 + (SheetRestPiece24 + r), x, OldCssHead, |SheetRestPiece23 + (SheetRestPiece24 + r)|, 1);
    NoStartPlain(SheetRestPiece21, SheetRestPiece22 + (SheetRestPiece23 + (SheetRestPiece24 + r)), x, OldCssHead, |SheetRestPiece22 + (SheetRestPiece23 + (SheetRestPiece24 + r))|);
  }

  /** No `.code-block {` starts in pieces 25 to 31. */
  lemma SheetRestHeadClear6(r: string, x: string)
    requires NoStartBefore(r + x, OldCssHead, |r|)
    ensures NoStartBefore(SheetRestPart6(r) + x, OldCssHead, |SheetRestPart6(r)|)
  {
    NoStartPlain(SheetRestPiece31, r, x, OldCssHead, |r|);
    assert (SheetRestPiece31 + r)[0] == 'k';
    NoStartProbe(SheetRestPiece30, SheetRestPiece31 + r, x, OldCssHead, |SheetRestPiece31 + r|, 1);
    NoStartPlain(SheetRestPiece29, SheetRestPiece30 + (SheetRestPiece31 + r), x, OldCssHead, |SheetRestPiece30 + (SheetRestPiece31 + r)|);
    assert (SheetRestPiece29 + (SheetRestPiece30 + (SheetRestPiece31 + r)))[11] == '.';
    NoStartProbe(SheetRestPiece28, SheetRestPiece29 + (SheetRestPiece30 + (SheetRestPiece31 + r)), x, OldCssHead, |SheetRestPiece29 + (SheetRestPiece30 + (SheetRestPiece31 + r))|, 12);
    NoStartPlain(SheetRestPiece27, SheetRestPiece28 + (SheetRestPiece29 + (SheetRestPiece30 + (SheetRestPiece31 + r))), x, OldCssHead, |SheetRestPiece28 + (SheetRestPiece29 + (SheetRestPiece30 + (SheetRestPiece31 + r)))|);
    NoStartPlain(SheetRestPiece26, SheetRestPiece27 + (SheetRestPiece28 + (SheetRestPiece29 + (SheetRestPiece30 + (SheetRestPiece31 + r)))), x, OldCssHead, |SheetRestPiece27 + (SheetRestPiece28 + (SheetRestPiece29 + (SheetRestPiece30 + (SheetRestPiece31 + r))))|);
    NoStartPlain(SheetRestPiece25, SheetRestPiece26 + (SheetRestPiece27 + (SheetRestPiece28 + (SheetRestPiece29 + (SheetRestPiece30 + (SheetRestPiece31 + r))))), x, OldCssHead, |SheetRestPiece26 + (SheetRestPiece27 + (SheetRestPiece28 + (SheetRestPiece29 + (SheetRestPiece30 + (SheetRestPiece31 + r)))))|);
  }

  /** No `.code-block {` starts in pieces 32 to 35. */
  lemma SheetRestHeadClear7(r: string, x: string)
    requires NoStartBefore(r + x, OldCssHead, |r|)
    ensures NoStartBefore(SheetRestPart7(r) + x, OldCssHead, |SheetRestPart7(r)|)
  {
    NoStartPlain(SheetRestPiece35, r, x, OldCssHead, |r|);
    NoStartPlain(SheetRestPiece34, SheetRestPiece35 + r, x, OldCssHead, |SheetRestPiece35 + r|);
    NoStartPlain(SheetRestPiece33, SheetRestPiece34 + (SheetRestPiece35 + r), x, OldCssHead, |SheetRestPiece34 + (SheetRestPiece35 + r)|);
    NoStartPlain(SheetRestPiece32, SheetRestPiece33 + (SheetRestPiece34 + (SheetRestPiece35 + r)), x, OldCssHead, |SheetRestPiece33 + (SheetRestPiece34 + (SheetRestPiece35 + r))|);
  }

  /** No `.code-block {` starts in pieces 36 to 41. */
  lemma SheetRestHeadClear8(r: string, x: string)
    requires NoStartBefore(r + x, OldCssHead, |r|)
    ensures NoStartBefore(SheetRestPart8(r) + x, OldCssHead, |SheetRestPart8(r)|)
  {
    NoStartPlain(SheetRestPiece41, r, x, OldCssHead, |r|);
    assert (SheetRestPiece41 + r)[0] == 's';
    NoStartProbe(SheetRestPiece40, SheetRestPiece41 + r, x, OldCssHead, |SheetRestPiece41 + r|, 1);
    NoStartPlain(SheetRestPiece39, SheetRestPiece40 + (SheetRestPiece41 + r), x, OldCssHead, |SheetRestPiece40 + (SheetRestPiece41 + r)|);
    assert (SheetRestPiece39 + (SheetRestPiece40 + (SheetRestPiece41 + r)))[11] == '.';
    NoStartProbe(SheetRestPiece38, SheetRestPiece39 + (SheetRestPiece40 + (SheetRestPiece41 + r)), x, OldCssHead, |SheetRestPiece39 + (SheetRestPiece40 + (SheetRestPiece41 + r))|, 12);
    NoStartPlain(SheetRestPiece37, SheetRestPiece38 + (SheetRestPiece39 + (SheetRestPiece40 + (SheetRestPiece41 + r))), x, OldCssHead, |SheetRestPiece38 + (SheetRestPiece39 + (SheetRestPiece40 + (SheetRestPiece41 + r)))|);
    NoStartPlain(SheetRestPiece36, SheetRestPiece37 + (SheetRestPiece38 + (SheetRestPiece39 + (SheetRestPiece40 + (SheetRestPiece41 + r)))), x, OldCssHead, |SheetRestPiece37 + (SheetRestPiece38 + (SheetRestPiece39 + (SheetRestPiece40 + (SheetRestPiece41 + r))))|);
  }

  /** No `.code-block {` starts in pieces 42 to 45. */
  lemma SheetRestHeadClear9(r: string, x: string)
    requires NoStartBefore(r + x, OldCssHead, |r|)
    ensures NoStartBefore(SheetRestPart9(r) + x, OldCssHead, |SheetRestPart9(r)|)
  {
    NoStartPlain(SheetRestPiece45, r, x, OldCssHead, |r|);
    NoStartPlain(SheetRestPiece44, SheetRestPiece45 + r, x, OldCssHead, |SheetRestPiece45 + r|);
    NoStartPlain(SheetRestPiece43, SheetRestPiece44 + (SheetRestPiece45 + r), x, OldCssHead, |SheetRestPiece44 + (SheetRestPiece45 + r)|);
    NoStartPlain(SheetRestPiece42, SheetRestPiece43 + (SheetRestPiece44 + (SheetRestPiece45 + r)), x, OldCssHead, |SheetRestPiece43 + (SheetRestPiece44 + (SheetRestPiece45 + r))|);
  }

  /** No `.code-block {` starts in pieces 46 to 49. */
  lemma SheetRestHeadClear10(r: string, x: string)
    requires NoStartBefore(r + x, OldCssHead, |r|)
    ensures NoStartBefore(SheetRestPart10(r) + x, OldCssHead, |SheetRestPart10(r)|)
  {
    NoStartPlain(SheetRestPiece49, r, x, OldCssHead, |r|);
    assert (SheetRestPiece49 + r)[2] == 'm';
    NoStartProbe(SheetRestPiece48, SheetRestPiece49 + r, x, OldCssHead, |SheetRestPiece49 + r|, 3);
    NoStartPlain(SheetRestPiece47, SheetRestPiece48 + (SheetRestPiece49 + r), x, OldCssHead, |SheetRestPiece48 + (SheetRestPiece49 + r)|);
    assert (SheetRestPiece47 + (SheetRestPiece48 + (SheetRestPiece49 + r)))[11] == '.';
    NoStartProbe(SheetRestPiece46, SheetRestPiece47 + (SheetRestPiece48 + (SheetRestPiece49 + r)), x, OldCssHead, |SheetRestPiece47 + (SheetRestPiece48 + (SheetRestPiece49 + r))|, 12);
  }

  /** No `.code-block {` starts in pieces 50 to 53. */
  lemma SheetRestHeadClear11(r: string, x: string)
    requires NoStartBefore(r + x, OldCssHead, |r|)
    ensures NoStartBefore(SheetRestPart11(r) + x, OldCssHead, |SheetRestPart11(r)|)
  {
    NoStartPlain(SheetRestPiece53, r, x, OldCssHead, |r|);
    NoStartPlain(SheetRestPiece52, SheetRestPiece53 + r, x, OldCssHead, |SheetRestPiece53 + r|);
    NoStartPlain(SheetRestPiece51, SheetRestPiece52 + (SheetRestPiece53 + r), x, OldCssHead, |SheetRestPiece52 + (SheetRestPiece53 + r)|);
    NoStartPlain(SheetRestPiece50, SheetRestPiece51 + (SheetRestPiece52 + (SheetRestPiece53 + r)), x, OldCssHead, |SheetRestPiece51 + (SheetRestPiece52 + (SheetRestPiece53 + r))|);
  }

  /** No `.code-block {` starts in pieces 54 to 59. */
  lemma SheetRestHeadClear12(r: string, x: string)
    requires NoStartBefore(r + x, OldCssHead, |r|)
    ensures NoStartBefore(SheetRestPart12(r) + x, OldCssHead, |SheetRestPart12(r)|)
  {
    NoStartPlain(SheetRestPiece59, r, x, OldCssHead, |r|);
    assert (SheetRestPiece59 + r)[0] == 'n';
    NoStartProbe(SheetRestPiece58, SheetRestPiece59 + r, x, OldCssHead, |SheetRestPiece59 + r|, 1);
    NoStartPlain(SheetRestPiece57, SheetRestPiece58 + (SheetRestPiece59 + r), x, OldCssHead, |SheetRestPiece58 + (SheetRestPiece59 + r)|);
    assert (SheetRestPiece57 + (SheetRestPiece58 + (SheetRestPiece59 + r)))[11] == '.';
    NoStartProbe(SheetRestPiece56, SheetRestPiece57 + (SheetRestPiece58 + (SheetRestPiece59 + r)), x, OldCssHead, |SheetRestPiece57 + (SheetRestPiece58 + (SheetRestPiece59 + r))|, 12);
    NoStartPlain(SheetRestPiece55, SheetRestPiece56 + (SheetRestPiece57 + (SheetRestPiece58 + (SheetRestPiece59 + r))), x, OldCssHead, |SheetRestPiece56 + (SheetRestPiece57 + (SheetRestPiece58 + (SheetRestPiece59 + r)))|);
    NoStartPlain(SheetRestPiece54, SheetRestPiece55 + (SheetRestPiece56 + (SheetRestPiece57 + (SheetRestPiece58 + (SheetRestPiece59 + r)))), x, OldCssHead, |SheetRestPiece55 + (SheetRestPiece56 + (SheetRestPiece57 + (SheetRestPiece58 + (SheetRestPiece59 + r))))|);
  }

  /** No `.code-block {` starts in pieces 60 to 63. */
  lemma SheetRestHeadClear13(r: string, x: string)
    requires NoStartBefore(r + x, OldCssHead, |r|)
    ensures NoStartBefore(SheetRestPart13(r) + x, OldCssHead, |SheetRestPart13(r)|)
  {
    NoStartPlain(SheetRestPiece63, r, x, OldCssHead, |r|);
    NoStartPlain(SheetRestPiece62, SheetRestPiece63 + r, x, OldCssHead, |SheetRestPiece63 + r|);
    NoStartPlain(SheetRestPiece61, SheetRestPiece62 + (SheetRestPiece63 + r), x, OldCssHead, |SheetRestPiece62 + (SheetRestPiece63 + r)|);
    NoStartPlain(SheetRestPiece60, SheetRestPiece61 + (SheetRestPiece62 + (SheetRestPiece63 + r)), x, OldCssHead, |SheetRestPiece61 + (SheetRestPiece62 + (SheetRestPiece63 + r))|);
  }

  /** No `.code-block {` starts in pieces 64 to 68. */
  lemma SheetRestHeadClear14(r: string, x: string)
    requires NoStartBefore(r + x, OldCssHead, |r|)
    ensures NoStartBefore(SheetRestPart14(r) + x, OldCssHead, |SheetRestPart14(r)|)
  {
    NoStartPlain(SheetRestPiece68, r, x, OldCssHead, |r|);
    assert (SheetRestPiece68 + r)[0] == 'f';
    NoStartProbe(SheetRestPiece67, SheetRestPiece68 + r, x, OldCssHead, |SheetRestPiece68 + r|, 1);
    NoStartPlain(SheetRestPiece66, SheetRestPiece67 + (SheetRestPiece68 + r), x, OldCssHead, |SheetRestPiece67 + (SheetRestPiece68 + r)|);
    assert (SheetRestPiece66 + (SheetRestPiece67 + (SheetRestPiece68 + r)))[11] == '.';
    NoStartProbe(SheetRestPiece65, SheetRestPiece66 + (SheetRestPiece67 + (SheetRestPiece68 + r)), x, OldCssHead, |SheetRestPiece66 + (SheetRestPiece67 + (SheetRestPiece68 + r))|, 12);
    NoStartPlain(SheetRestPiece64, SheetRestPiece65 + (SheetRestPiece66 + (SheetRestPiece67 + (SheetRestPiece68 + r))), x, OldCssHead, |SheetRestPiece65 + (SheetRestPiece66 + (SheetRestPiece67 + (SheetRestPiece68 + r)))|);
  }

  /** No `.code-block {` starts in pieces 69 to 72. */
  lemma SheetRestHeadClear15(r: string, x: string)
    requires NoStartBefore(r + x, OldCssHead, |r|)
    ensures NoStartBefore(SheetRestPart15(r) + x, OldCssHead, |SheetRestPart15(r)|)
  {
    NoStartPlain(SheetRestPiece72, r, x, OldCssHead, |r|);
    NoStartPlain(SheetRestPiece71, SheetRestPiece72 + r, x, OldCssHead, |SheetRestPiece72 + r|);
    NoStartPlain(SheetRestPiece70, SheetRestPiece71 + (SheetRestPiece72 + r), x, OldCssHead, |SheetRestPiece71 + (SheetRestPiece72 + r)|);
    NoStartPlain(SheetRestPiece69, SheetRestPiece70 + (SheetRestPiece71 + (SheetRestPiece72 + r)), x, OldCssHead, |SheetRestPiece70 + (SheetRestPiece71 + (SheetRestPiece72 + r))|);
  }

  /** No `.code-block {` starts in pieces 73 to 77. */
  lemma SheetRestHeadClear16(r: string, x: string)
    requires NoStartBefore(r + x, OldCssHead, |r|)
    ensures NoStartBefore(SheetRestPart16(r) + x, OldCssHead, |SheetRestPart16(r)|)
  {
    NoStartPlain(SheetRestPiece77, r, x, OldCssHead, |r|);
    assert (SheetRestPiece77 + r)[0] == 'v';
    NoStartProbe(SheetRestPiece76, SheetRestPiece77 + r, x, OldCssHead, |SheetRestPiece77 + r|, 1);
    NoStartPlain(SheetRestPiece75, SheetRestPiece76 + (SheetRestPiece77 + r), x, OldCssHead, |SheetRestPiece76 + (SheetRestPiece77 + r)|);
    assert (SheetRestPiece75 + (SheetRestPiece76 + (SheetRestPiece77 + r)))[11] == '.';
    NoStartProbe(SheetRestPiece74, SheetRestPiece75 + (SheetRestPiece76 + (SheetRestPiece77 + r)), x, OldCssHead, |SheetRestPiece75 + (SheetRestPiece76 + (SheetRestPiece77 + r))|, 12);
    NoStartPlain(SheetRestPiece73, SheetRestPiece74 + (SheetRestPiece75 + (SheetRestPiece76 + (SheetRestPiece77 + r))), x, OldCssHead, |SheetRestPiece74 + (SheetRestPiece75 + (SheetRestPiece76 + (SheetRestPiece77 + r)))|);
  }

  /** No `.code-block {` starts in pieces 78 to 81. */
  lemma SheetRestHeadClear17(r: string, x: string)
    requires NoStartBefore(r + x, OldCssHead, |r|)
    ensures NoStartBefore(SheetRestPart17(r) + x, OldCssHead, |SheetRestPart17(r)|)
  {
    NoStartPlain(SheetRestPiece81, r, x, OldCssHead, |r|);
    NoStartPlain(SheetRestPiece80, SheetRestPiece81 + r, x, OldCssHead, |SheetRestPiece81 + r|);
    NoStartPlain(SheetRestPiece79, SheetRestPiece80 + (SheetRestPiece81 + r), x, OldCssHead, |SheetRestPiece80 + (SheetRestPiece81 + r)|);
    NoStartPlain(SheetRestPiece78, SheetRestPiece79 + (SheetRestPiece80 + (SheetRestPiece81 + r)), x, OldCssHead, |SheetRestPiece79 + (SheetRestPiece80 + (SheetRestPiece81 + r))|);
  }

  /** No `.code-block {` starts in pieces 82 to 86. */
  lemma SheetRestHeadClear18(r: string, x: string)
    requires NoStartBefore(r + x, OldCssHead, |r|)
    ensures NoStartBefore(SheetRestPart18(r) + x, OldCssHead, |SheetRestPart18(r)|)
  {
    NoStartPlain(SheetRestPiece86, r, x, OldCssHead, |r|);
    assert (SheetRestPiece86 + r)[0] == 't';
    NoStartProbe(SheetRestPiece85, SheetRestPiece86 + r, x, OldCssHead, |SheetRestPiece86 + r|, 1);
    NoStartPlain(SheetRestPiece84, SheetRestPiece85 + (SheetRestPiece86 + r), x, OldCssHead, |SheetRestPiece85 + (SheetRestPiece86 + r)|);
    assert (SheetRestPiece84 + (SheetRestPiece85 + (SheetRestPiece86 + r)))[11] == '.';
    NoStartProbe(SheetRestPiece83, SheetRestPiece84 + (SheetRestPiece85 + (SheetRestPiece86 + r)), x, OldCssHead, |SheetRestPiece84 + (SheetRestPiece85 + (SheetRestPiece86 + r))|, 12);
    NoStartPlain(SheetRestPiece82, SheetRestPiece83 + (SheetRestPiece84 + (SheetRestPiece85 + (SheetRestPiece86 + r))), x, OldCssHead, |SheetRestPiece83 + (SheetRestPiece84 + (SheetRestPiece85 + (SheetRestPiece86 + r)))|);
  }

  /** No `.code-block {` starts in pieces 87 to 90. */
  lemma SheetRestHeadClear19(r: string, x: string)
    requires NoStartBefore(r + x, OldCssHead, |r|)
    ensures NoStartBefore(SheetRestPart19(r) + x, OldCssHead, |SheetRestPart19(r)|)
  {
    NoStartPlain(SheetRestPiece90, r, x, OldCssHead, |r|);
    NoStartPlain(SheetRestPiece89, SheetRestPiece90 + r, x, OldCssHead, |SheetRestPiece90 + r|);
    NoStartPlain(SheetRestPiece88, SheetRestPiece89 + (SheetRestPiece90 + r), x, OldCssHead, |SheetRestPiece89 + (SheetRestPiece90 + r)|);
    NoStartPlain(SheetRestPiece87, SheetRestPiece88 + (SheetRestPiece89 + (SheetRestPiece90 + r)), x, OldCssHead, |SheetRestPiece88 + (SheetRestPiece89 + (SheetRestPiece90 + r))|);
  }

  /** No `.code-block {` starts in pieces 91 to 94. */
  lemma SheetRestHeadClear20(r: string, x: string)
    requires NoStartBefore(r + x, OldCssHead, |r|)
    ensures NoStartBefore(SheetRestPart20(r) + x, OldCssHead, |SheetRestPart20(r)|)
  {
    NoStartPlain(SheetRestPiece94, r, x, OldCssHead, |r|);
    assert (SheetRestPiece94 + r)[0] == 'o';
    NoStartProbe(SheetRestPiece93, SheetRestPiece94 + r, x, OldCssHead, |SheetRestPiece94 + r|, 1);
    NoStartPlain(SheetRestPiece92, SheetRestPiece93 + (SheetRestPiece94 + r), x, OldCssHead, |SheetRestPiece93 + (SheetRestPiece94 + r)|);
    assert (SheetRestPiece92 + (SheetRestPiece93 + (SheetRestPiece94 + r)))[11] == '.';
    NoStartProbe(SheetRestPiece91, SheetRestPiece92 + (SheetRestPiece93 + (SheetRestPiece94 + r)), x, OldCssHead, |SheetRestPiece92 + (SheetRestPiece93 + (SheetRestPiece94 + r))|, 12);
  }

  /** No `.code-block {` starts in pieces 95 to 98. */
  lemma SheetRestHeadClear21(r: string, x: string)
    requires NoStartBefore(r + x, OldCssHead, |r|)
    ensures NoStartBefore(SheetRestPart21(r) + x, OldCssHead, |SheetRestPart21(r)|)
  {
    NoStartPlain(SheetRestPiece98, r, x, OldCssHead, |r|);
    NoStartPlain(SheetRestPiece97, SheetRestPiece98 + r, x, OldCssHead, |SheetRestPiece98 + r|);
    NoStartPlain(SheetRestPiece96, SheetRestPiece97 + (SheetRestPiece98 + r), x, OldCssHead, |SheetRestPiece97 + (SheetRestPiece98 + r)|);
    NoStartPlain(SheetRestPiece95, SheetRestPiece96 + (SheetRestPiece97 + (SheetRestPiece98 + r)), x, OldCssHead, |SheetRestPiece96 + (SheetRestPiece97 + (SheetRestPiece98 + r))|);
  }

  /** No `.code-block {` starts in pieces 99 to 103. */
  lemma SheetRestHeadClear22(r: string, x: string)
    requires NoStartBefore(r + x, OldCssHead, |r|)
    ensures NoStartBefore(SheetRestPart22(r) + x, OldCssHead, |SheetRestPart22(r)|)
  {
    NoStartPlain(SheetRestPiece103, r, x, OldCssHead, |r|);
    assert (SheetRestPiece103 + r)[0] == 'p';
    NoStartProbe(SheetRestPiece102, SheetRestPiece103 + r, x, OldCssHead, |SheetRestPiece103 + r|, 1);
    NoStartPlain(SheetRestPiece101, SheetRestPiece102 + (SheetRestPiece103 + r), x, OldCssHead, |SheetRestPiece102 + (SheetRestPiece103 + r)|);
    assert (SheetRestPiece101 + (SheetRestPiece102 + (SheetRestPiece103 + r)))[11] == '.';
    NoStartProbe(SheetRestPiece100, SheetRestPiece101 + (SheetRestPiece102 + (SheetRestPiece103 + r)), x, OldCssHead, |SheetRestPiece101 + (SheetRestPiece102 + (SheetRestPiece103 + r))|, 12);
    NoStartPlain(SheetRestPiece99, SheetRestPiece100 + (SheetRestPiece101 + (SheetRestPiece102 + (SheetRestPiece103 + r))), x, OldCssHead, |SheetRestPiece100 + (SheetRestPiece101 + (SheetRestPiece102 + (SheetRestPiece103 + r)))|);
  }

  /** No `.code-block {` starts in pieces 104 to 107. */
  lemma SheetRestHeadClear23(r: string, x: string)
    requires NoStartBefore(r + x, OldCssHead, |r|)
    ensures NoStartBefore(SheetRestPart23(r) + x, OldCssHead, |SheetRestPart23(r)|)
  {
    NoStartPlain(SheetRestPiece107, r, x, OldCssHead, |r|);
    NoStartPlain(SheetRestPiece106, SheetRestPiece107 + r, x, OldCssHead, |SheetRestPiece107 + r|);
    NoStartPlain(SheetRestPiece105, SheetRestPiece106 + (SheetRestPiece107 + r), x, OldCssHead, |SheetRestPiece106 + (SheetRestPiece107 + r)|);
    NoStartPlain(SheetRestPiece104, SheetRestPiece105 + (SheetRestPiece106 + (SheetRestPiece107 + r)), x, OldCssHead, |SheetRestPiece105 + (SheetRestPiece106 + (SheetRestPiece107 + r))|);
  }

  /** No `.code-block {` starts in parts 0 to 5. */
  lemma FirstRuleBodySectionHeadClear0(r: string, x: string)
    requires NoStartBefore(r + x, OldCssHead, |r|)
    ensures NoStartBefore(FirstRuleBodySection0(r) + x, OldCssHead, |FirstRuleBodySection0(r)|)
  {
    FirstRuleBodyHeadClear5(r, x);
    FirstRuleBodyHeadClear4(FirstRuleBodyPart5(r), x);
    FirstRuleBodyHeadClear3(FirstRuleBodyPart4(FirstRuleBodyPart5(r)), x);
    FirstRuleBodyHeadClear2(FirstRuleBodyPart3(FirstRuleBodyPart4(FirstRuleBodyPart5(r))), x);
    FirstRuleBodyHeadClear1(FirstRuleBodyPart2(FirstRuleBodyPart3(FirstRuleBodyPart4(FirstRuleBodyPart5(r)))), x);
    FirstRuleBodyHeadClear0(FirstRuleBodyPart1(FirstRuleBodyPart2(FirstRuleBodyPart3(FirstRuleBodyPart4(FirstRuleBodyPart5(r))))), x);
  }

  /** No `.code-block {` starts in parts 6 to 7. */
  lemma FirstRuleBodySectionHeadClear1(r: string, x: string)
    requires NoStartBefore(r + x, OldCssHead, |r|)
    ensures NoStartBefore(FirstRuleBodySection1(r) + x, OldCssHead, |FirstRuleBodySection1(r)|)
  {
    FirstRuleBodyHeadClear7(r, x);
    FirstRuleBodyHeadClear6(FirstRuleBodyPart7(r), x);
  }

  /** No `.code-block {` starts inside the first rule's body, whatever follows it. */
  lemma FirstRuleBodyNoHead(x: string)
    ensures NoStartBefore(FirstRuleBody + x, OldCssHead, |FirstRuleBody|)
  {
    FirstRuleBodySectionHeadClear1("", x);
    FirstRuleBodySectionHeadClear0(FirstRuleBodySection1(""), x);
  }

  /** No `background: #000;` starts in parts 0 to 5. */
  lemma FirstRuleBodySectionNeedClear0(r: string, x: string)
    requires NoStartBefore(r + x, OldCssNeed, |r|)
    ensures NoStartBefore(FirstRuleBodySection0(r) + x, OldCssNeed, |FirstRuleBodySection0(r)|)
  {
    FirstRuleBodyNeedClear5(r, x);
    FirstRuleBodyNeedClear4(FirstRuleBodyPart5(r), x);
    FirstRuleBodyNeedClear3(FirstRuleBodyPart4(FirstRuleBodyPart5(r)), x);
    FirstRuleBodyNeedClear2(FirstRuleBodyPart3(FirstRuleBodyPart4(FirstRuleBodyPart5(r))), x);
    FirstRuleBodyNeedClear1(FirstRuleBodyPart2(FirstRuleBodyPart3(FirstRuleBodyPart4(FirstRuleBodyPart5(r)))), x);
    FirstRuleBodyNeedClear0(FirstRuleBodyPart1(FirstRuleBodyPart2(FirstRuleBodyPart3(FirstRuleBodyPart4(FirstRuleBodyPart5(r))))), x);
  }

  /** No `background: #000;` starts in parts 6 to 7. */
  lemma FirstRuleBodySectionNeedClear1(r: string, x: string)
    requires NoStartBefore(r + x, OldCssNeed, |r|)
    ensures NoStartBefore(FirstRuleBodySection1(r) + x, OldCssNeed, |FirstRuleBodySection1(r)|)
  {
    FirstRuleBodyNeedClear7(r, x);
    FirstRuleBodyNeedClear6(FirstRuleBodyPart7(r), x);
  }

  /** No `background: #000;` starts inside the first rule's body, whatever follows it. */
  lemma FirstRuleBodyNoNeed(x: string)
    ensures NoStartBefore(FirstRuleBody + x, OldCssNeed, |FirstRuleBody|)
  {
    FirstRuleBodySectionNeedClear1("", x);
    FirstRuleBodySectionNeedClear0(FirstRuleBodySection1(""), x);
  }

  /** No `}` starts in parts 0 to 5. */
  lemma FirstRuleBodySectionBraceClear0(r: string, x: string)
    requires NoStartBefore(r + x, "}", |r|)
    ensures NoStartBefore(FirstRuleBodySection0(r) + x, "}", |FirstRuleBodySection0(r)|)
  {
    FirstRuleBodyBraceClear5(r, x);
    FirstRuleBodyBraceClear4(FirstRuleBodyPart5(r), x);
    FirstRuleBodyBraceClear3(FirstRuleBodyPart4(FirstRuleBodyPart5(r)), x);
    FirstRuleBodyBraceClear2(FirstRuleBodyPart3(FirstRuleBodyPart4(FirstRuleBodyPart5(r))), x);
    FirstRuleBodyBraceClear1(FirstRuleBodyPart2(FirstRuleBodyPart3(FirstRuleBodyPart4(FirstRuleBodyPart5(r)))), x);
    FirstRuleBodyBraceClear0(FirstRuleBodyPart1(FirstRuleBodyPart2(FirstRuleBodyPart3(FirstRuleBodyPart4(FirstRuleBodyPart5(r))))), x);
  }

  /** No `}` starts in parts 6 to 7. */
  lemma FirstRuleBodySectionBraceClear1(r: string, x: string)
    requires NoStartBefore(r + x, "}", |r|)
    ensures NoStartBefore(FirstRuleBodySection1(r) + x, "}", |FirstRuleBodySection1(r)|)
  {
    FirstRuleBodyBraceClear7(r, x);
    FirstRuleBodyBraceClear6(FirstRuleBodyPart7(r), x);
  }

  /** No `}` starts inside the first rule's body, whatever follows it. */
  lemma FirstRuleBodyNoBrace(x: string)
    ensures NoStartBefore(FirstRuleBody + x, "}", |FirstRuleBody|)
  {
    FirstRuleBodySectionBraceClear1("", x);
    FirstRuleBodySectionBraceClear0(FirstRuleBodySection1(""), x);
  }

  /** No `.code-block {` starts in parts 0 to 5. */
  lemma SheetRestSectionHeadClear0(r: string, x: string)
    requires NoStartBefore(r + x, OldCssHead, |r|)
    ensures NoStartBefore(SheetRestSection0(r) + x, OldCssHead, |SheetRestSection0(r)|)
  {
    SheetRestHeadClear5(r, x);
    SheetRestHeadClear4(SheetRestPart5(r), x);
    SheetRestHeadClear3(SheetRestPart4(SheetRestPart5(r)), x);
    SheetRestHeadClear2(SheetRestPart3(SheetRestPart4(SheetRestPart5(r))), x);
    SheetRestHeadClear1(SheetRestPart2(SheetRestPart3(SheetRestPart4(SheetRestPart5(r)))), x);
    SheetRestHeadClear0(SheetRestPart1(SheetRestPart2(SheetRestPart3(SheetRestPart4(SheetRestPart5(r))))), x);
  }

  /** No `.code-block {` starts in parts 6 to 11. */
  lemma SheetRestSectionHeadClear1(r: string, x: string)
    requires NoStartBefore(r + x, OldCssHead, |r|)
    ensures NoStartBefore(SheetRestSection1(r) + x, OldCssHead, |SheetRestSection1(r)|)
  {
    SheetRestHeadClear11(r, x);
    SheetRestHeadClear10(SheetRestPart11(r), x);
    SheetRestHeadClear9(SheetRestPart10(SheetRestPart11(r)), x);
    SheetRestHeadClear8(SheetRestPart9(SheetRestPart10(SheetRestPart11(r))), x);
    SheetRestHeadClear7(SheetRestPart8(SheetRestPart9(SheetRestPart10(SheetRestPart11(r)))), x);
    SheetRestHeadClear6(SheetRestPart7(SheetRestPart8(SheetRestPart9(SheetRestPart10(SheetRestPart11(r))))), x);
  }

  /** No `.code-block {` starts in parts 12 to 17. */
  lemma SheetRestSectionHeadClear2(r: string, x: string)
    requires NoStartBefore(r + x, OldCssHead, |r|)
    ensures NoStartBefore(SheetRestSection2(r) + x, OldCssHead, |SheetRestSection2(r)|)
  {
    SheetRestHeadClear17(r, x);
    SheetRestHeadClear16(SheetRestPart17(r), x);
    SheetRestHeadClear15(SheetRestPart16(SheetRestPart17(r)), x);
    SheetRestHeadClear14(SheetRestPart15(SheetRestPart16(SheetRestPart17(r))), x);
    SheetRestHeadClear13(SheetRestPart14(SheetRestPart15(SheetRestPart16(SheetRestPart17(r)))), x);
    SheetRestHeadClear12(SheetRestPart13(SheetRestPart14(SheetRestPart15(SheetRestPart16(SheetRestPart17(r))))), x);
  }

  /** No `.code-block {` starts in parts 18 to 23. */
  lemma SheetRestSectionHeadClear3(r: string, x: string)
    requires NoStartBefore(r + x, OldCssHead, |r|)
    ensures NoStartBefore(SheetRestSection3(r) + x, OldCssHead, |SheetRestSection3(r)|)
  {
    SheetRestHeadClear23(r, x);
    SheetRestHeadClear22(SheetRestPart23(r), x);
    SheetRestHeadClear21(SheetRestPart22(SheetRestPart23(r)), x);
    SheetRestHeadClear20(SheetRestPart21(SheetRestPart22(SheetRestPart23(r))), x);
    SheetRestHeadClear19(SheetRestPart20(SheetRestPart21(SheetRestPart22(SheetRestPart23(r)))), x);
    SheetRestHeadClear18(SheetRestPart19(SheetRestPart20(SheetRestPart21(SheetRestPart22(SheetRestPart23(r))))), x);
  }

  /** No `.code-block {` starts inside the other rules, whatever follows them. */
  lemma SheetRestNoHead(x: string)
    ensures NoStartBefore(SheetRest + x, OldCssHead, |SheetRest|)
  {
    SheetRestSectionHeadClear3("", x);
    SheetRestSectionHeadClear2(SheetRestSection3(""), x);
    SheetRestSectionHeadClear1(SheetRestSection2(SheetRestSection3("")), x);
    SheetRestSectionHeadClear0(SheetRestSection1(SheetRestSection2(SheetRestSection3(""))), x);
  }

}
