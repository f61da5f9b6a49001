/** The fixed language tables of the playground: the editor mode of each
    selectable language, the judge's numeric id for it, and the program a
    fresh editor shows for it. */
module LanguageTables {
  import opened Wrappers

  /** Language to editor (highlighting) mode, as the component declares it. */
  const ModeTable: map<string, string> := map[
    "c" := "c_cpp",
    "cpp" := "c_cpp",
    "python" := "python",
    "java" := "java",
    "javascript" := "javascript"
  ]

  /** The entries of the language selector: the keys of the mode table, in
      declaration order. */
  const Languages: seq<string> := ["c", "cpp", "python", "java", "javascript"]

  predicate IsLanguage(lang: string) {
    lang in Languages
  }

  /** The editor mode the code editor is given for `lang`; a language
      outside the table's own keys looks up nothing (`undefined`). Keys
      inherited by every JavaScript object are not modelled. */
  function EditorMode(lang: string): (mode: Option<string>)
    ensures mode.Some? <==> IsLanguage(lang)
    ensures lang in {"c", "cpp"} ==> mode == Some("c_cpp")
    ensures lang in {"python", "java", "javascript"} ==> mode == Some(lang)
  {
    if lang in ModeTable then Some(ModeTable[lang]) else None
  }

  /** The selector offers each language once, and exactly the keys of the
      mode table. */
  lemma SelectorMatchesModeTable()
    ensures forall i, j :: 0 <= i < j < |Languages| ==> Languages[i] != Languages[j]
    ensures forall lang :: lang in ModeTable <==> lang in Languages
  {
  }

  /** The judge service's ids of the five selectable languages. */
  const JudgeIds: map<string, int> := map[
    "c" := 49,
    "cpp" := 53,
    "python" := 71,
    "java" := 62,
    "javascript" := 63
  ]

  /** The judge service's language id for `lang`; anything unrecognised is
      sent as C++. */
  function JudgeId(lang: string): (id: int)
    ensures id == (if lang in JudgeIds then JudgeIds[lang] else 53)
    ensures lang in JudgeIds <==> IsLanguage(lang)
    ensures id in {49, 53, 62, 63, 71}
    ensures id == 53 <==> lang == "cpp" || !IsLanguage(lang)
  {
    if lang == "c" then 49
    else if lang == "cpp" then 53
    else if lang == "python" then 71
    else if lang == "java" then 62
    else if lang == "javascript" then 63
    else 53
  }

  /** The five selectable languages reach the judge under five different ids. */
  lemma JudgeIdSeparatesLanguages(a: string, b: string)
    requires IsLanguage(a) && IsLanguage(b)
    requires JudgeId(a) == JudgeId(b)
    ensures a == b
  {
  }

  /** The starter program of each selectable language. */
  const DefaultCode: map<string, string> := map[
    "cpp" := "#include<iostream>\nusing namespace std;\nint main()\n{\n  // Start writing your code from here!\n  cout<<\"Welcome to Edicode!\";\n  return 0;\n}\n",
    "c" := "#include <stdio.h>\nint main()\n{\n  // Start writing your code from here!\n\tprintf(\"Welcome to Edicode\");\n\treturn 0;\n}   \n    ",
    "java" := "import java.util.*;\nclass Main\n{\n    public static void main(String[] args)\n    {\n        // Start writing your code from here!\n        System.out.print(\"Welcome to Edicode\");\n    }\n}\n    ",
    "python" := "# Start writing your code from here!\nprint(\"Welcome to Edicode\")\n    ",
    "javascript" := "// Start writing your code from here!\nconsole.log(\"Welcome to Edicode\")\n    "
  ]

  /** The body the language effect installs when the language becomes `lang`:
      the starter program of a selectable language, and the empty text for
      any other value. */
  function DefaultProgram(lang: string): (body: string)
    ensures body == (if lang in DefaultCode then DefaultCode[lang] else "")
    ensures body == "" <==> !IsLanguage(lang)
  {
    if lang == "cpp" then DefaultCode["cpp"]
    else if lang == "c" then DefaultCode["c"]
    else if lang == "java" then DefaultCode["java"]
    else if lang == "python" then DefaultCode["python"]
    else if lang == "javascript" then DefaultCode["javascript"]
    else ""
  }

  /** Different selectable languages have different starter programs, so the
      body installed by a language change tells which language it was. */
  lemma DefaultProgramIdentifiesLanguage(a: string, b: string)
    requires IsLanguage(a) && IsLanguage(b)
    requires DefaultProgram(a) == DefaultProgram(b)
    ensures a == b
  {
  }
}
