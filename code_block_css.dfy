/** The dark-theme `.code-block` rules that update_code_styling.py writes in
    place of each old `.code-block { … }` rule (lines 25-64), cut into
    pieces of a few characters so that the verifier need not unfold the
    whole text at once. */
module CodeBlockCss {

  const CssPiece0: string := "        .code-block {\n  "
  const CssPiece1: string := "          background: #0"
  const CssPiece2: string := "d1117;\n            color"
  const CssPiece3: string := ": #e6edf3;\n            p"
  const CssPiece4: string := "adding: 1.5rem;\n        "
  const CssPiece5: string := "    border-radius: 8px;\n"
  const CssPiece6: string := "            margin: 1rem"
  const CssPiece7: string := " 0;\n            font-fam"
  const CssPiece8: string := "ily: 'Fira Code', 'JetBr"
  const CssPiece9: string := "ains Mono', 'Monaco', 'C"
  const CssPiece10: string := "ascadia Code', 'Roboto M"
  const CssPiece11: string := "ono', monospace;\n       "
  const CssPiece12: string := "     overflow-x: auto;\n "
  const CssPiece13: string := "           border: 1px s"
  const CssPiece14: string := "olid #30363d;\n          "
  const CssPiece15: string := "  box-shadow: 0 4px 12px"
  const CssPiece16: string := " rgba(0,0,0,0.15);\n     "
  const CssPiece17: string := "       position: relativ"
  const CssPiece18: string := "e;\n        }\n        \n  "
  const CssPiece19: string := "      .code-block::befor"
  const CssPiece20: string := "e {\n            content:"
  const CssPiece21: string := " '';\n            positio"
  const CssPiece22: string := "n: absolute;\n           "
  const CssPiece23: string := " top: 0;\n            lef"
  const CssPiece24: string := "t: 0;\n            right:"
  const CssPiece25: string := " 0;\n            height: "
  const CssPiece26: string := "3px;\n            backgro"
  const CssPiece27: string := "und: linear-gradient(90d"
  const CssPiece28: string := "eg, #58a6ff 0%, #7c3aed "
  const CssPiece29: string := "50%, #f85149 100%);\n    "
  const CssPiece30: string := "        border-radius: 8"
  const CssPiece31: string := "px 8px 0 0;\n        }\n  "
  const CssPiece32: string := "      \n        .code-blo"
  const CssPiece33: string := "ck pre {\n            mar"
  const CssPiece34: string := "gin: 0;\n            padd"
  const CssPiece35: string := "ing: 0;\n            back"
  const CssPiece36: string := "ground: transparent;\n   "
  const CssPiece37: string := "         font-size: 0.9r"
  const CssPiece38: string := "em;\n            line-hei"
  const CssPiece39: string := "ght: 1.6;\n        }\n    "
  const CssPiece40: string := "    \n        .code-block"
  const CssPiece41: string := " code {\n            back"
  const CssPiece42: string := "ground: transparent;\n   "
  const CssPiece43: string := "         color: inherit;"
  const CssPiece44: string := "\n            padding: 0;"
  const CssPiece45: string := "\n            font-weight"
  const CssPiece46: string := ": 400;\n            font-"
  const CssPiece47: string := "size: inherit;\n         "
  const CssPiece48: string := "   line-height: inherit;"
  const CssPiece49: string := "\n        }"

  /** Pieces 0 to 3, then `r`. */
  function CssPart0(r: string): string {
    CssPiece0 + (CssPiece1 + (CssPiece2 + (CssPiece3 + r)))
  }

  /** Pieces 4 to 7, then `r`. */
  function CssPart1(r: string): string {
    CssPiece4 + (CssPiece5 + (CssPiece6 + (CssPiece7 + r)))
  }

  /** Pieces 8 to 11, then `r`. */
  function CssPart2(r: string): string {
    CssPiece8 + (CssPiece9 + (CssPiece10 + (CssPiece11 + r)))
  }

  /** Pieces 12 to 15, then `r`. */
  function CssPart3(r: string): string {
    CssPiece12 + (CssPiece13 + (CssPiece14 + (CssPiece15 + r)))
  }

  /** Pieces 16 to 19, then `r`. */
  function CssPart4(r: string): string {
    CssPiece16 + (CssPiece17 + (CssPiece18 + (CssPiece19 + r)))
  }

  /** Pieces 20 to 23, then `r`. */
  function CssPart5(r: string): string {
    CssPiece20 + (CssPiece21 + (CssPiece22 + (CssPiece23 + r)))
  }

  /** Pieces 24 to 27, then `r`. */
  function CssPart6(r: string): string {
    CssPiece24 + (CssPiece25 + (CssPiece26 + (CssPiece27 + r)))
  }

  /** Pieces 28 to 31, then `r`. */
  function CssPart7(r: string): string {
    CssPiece28 + (CssPiece29 + (CssPiece30 + (CssPiece31 + r)))
  }

  /** Pieces 32 to 35, then `r`. */
  function CssPart8(r: string): string {
    CssPiece32 + (CssPiece33 + (CssPiece34 + (CssPiece35 + r)))
  }

  /** Pieces 36 to 39, then `r`. */
  function CssPart9(r: string): string {
    CssPiece36 + (CssPiece37 + (CssPiece38 + (CssPiece39 + r)))
  }

  /** Pieces 40 to 43, then `r`. */
  function CssPart10(r: string): string {
    CssPiece40 + (CssPiece41 + (CssPiece42 + (CssPiece43 + r)))
  }

  /** Pieces 44 to 47, then `r`. */
  function CssPart11(r: string): string {
    CssPiece44 + (CssPiece45 + (CssPiece46 + (CssPiece47 + r)))
  }

  /** Pieces 48 to 49, then `r`. */
  function CssPart12(r: string): string {
    CssPiece48 + (CssPiece49 + r)
  }

  /** Parts 0 to 5, then `r`. */
  function CssSection0(r: string): string {
    CssPart0(CssPart1(CssPart2(CssPart3(CssPart4(CssPart5(r))))))
  }

  /** Parts 6 to 11, then `r`. */
  function CssSection1(r: string): string {
    CssPart6(CssPart7(CssPart8(CssPart9(CssPart10(CssPart11(r))))))
  }

  /** Parts 12 to 12, then `r`. */
  function CssSection2(r: string): string {
    CssPart12(r)
  }

  /** The whole replacement text, 1186 characters. */
  const NewCss: string := CssSection0(CssSection1(CssSection2("")))
}
