/** The two static tables of the setup: the supported grammars with their
    repository URLs (`LANGUAGE_CONFIGS`) and the file-extension table used to
    guess a language from a file name (`_detect_language`). */
module Languages {
  import opened Wrappers
  import opened Paths

  /** The keys of `LANGUAGE_CONFIGS` in declaration order, the order the
      batch installer visits them. */
  const LanguageNames: seq<string> := [
    "python", "javascript", "typescript", "rust", "go", "cpp", "c", "java",
    "ruby", "php", "c_sharp", "html", "css", "bash", "yaml", "json", "toml",
    "regex", "markdown"
  ]

  /** `LANGUAGE_CONFIGS[lang]['url']`. */
  const Urls: map<string, string> := map[
    "python"     := "https://github.com/tree-sitter/tree-sitter-python",
    "javascript" := "https://github.com/tree-sitter/tree-sitter-javascript",
    "typescript" := "https://github.com/tree-sitter/tree-sitter-typescript",
    "rust"       := "https://github.com/tree-sitter/tree-sitter-rust",
    "go"         := "https://github.com/tree-sitter/tree-sitter-go",
    "cpp"        := "https://github.com/tree-sitter/tree-sitter-cpp",
    "c"          := "https://github.com/tree-sitter/tree-sitter-c",
    "java"       := "https://github.com/tree-sitter/tree-sitter-java",
    "ruby"       := "https://github.com/tree-sitter/tree-sitter-ruby",
    "php"        := "https://github.com/tree-sitter/tree-sitter-php",
    "c_sharp"    := "https://github.com/tree-sitter/tree-sitter-c-sharp",
    "html"       := "https://github.com/tree-sitter/tree-sitter-html",
    "css"        := "https://github.com/tree-sitter/tree-sitter-css",
    "bash"       := "https://github.com/tree-sitter/tree-sitter-bash",
    "yaml"       := "https://github.com/ikatyang/tree-sitter-yaml",
    "json"       := "https://github.com/tree-sitter/tree-sitter-json",
    "toml"       := "https://github.com/tree-sitter/tree-sitter-toml",
    "regex"      := "https://github.com/tree-sitter/tree-sitter-regex",
    "markdown"   := "https://github.com/ikatyang/tree-sitter-markdown"
  ]

  predicate IsSupported(lang: string)
  {
    lang in Urls
  }

  /** The ordered key list and the URL table describe the same closed set of
      grammars, each listed once. */
  lemma ConfigsAgree()
    ensures forall lang :: lang in Urls <==> lang in LanguageNames
    ensures forall i, j :: 0 <= i < j < |LanguageNames| ==> LanguageNames[i] != LanguageNames[j]
  {
  }

  /** The extension table of `_detect_language`. */
  const ExtToLang: map<string, string> := map[
    ".py"   := "python",
    ".js"   := "javascript",
    ".ts"   := "typescript",
    ".rs"   := "rust",
    ".go"   := "go",
    ".cpp"  := "cpp",
    ".hpp"  := "cpp",
    ".c"    := "c",
    ".h"    := "c",
    ".java" := "java",
    ".rb"   := "ruby",
    ".php"  := "php",
    ".cs"   := "c_sharp",
    ".html" := "html",
    ".css"  := "css",
    ".sh"   := "bash",
    ".yaml" := "yaml",
    ".yml"  := "yaml",
    ".json" := "json",
    ".toml" := "toml",
    ".md"   := "markdown"
  ]

  /** Every key is a dot followed by at least one character and no further
      dot, written in lower case. */
  predicate IsExtensionKey(k: string)
  {
    2 <= |k| && k[0] == '.' && (forall j :: 1 <= j < |k| ==> k[j] != '.') && Lower(k) == k
  }

  lemma ExtensionKeysWellFormed()
    ensures forall k :: k in ExtToLang ==> IsExtensionKey(k)
  {
  }

  /** The language for a final path component: look up its lower-cased
      suffix. */
  function LanguageOfName(name: string): Option<string>
  {
    var ext := Lower(Suffix(name));
    if ext in ExtToLang then Some(ExtToLang[ext]) else None
  }

  /** `_detect_language`: the language for the last suffix of the path's final
      component, compared case-insensitively; None when the table has no
      entry. Whatever it detects is a grammar the installer supports. */
  function DetectLanguage(filePath: string): (r: Option<string>)
    ensures r.Some? ==> IsSupported(r.value)
    ensures r.Some? ==> r.value in ExtToLang.Values
  {
    LanguageOfName(FileName(filePath))
  }

  /** A reference reading of the extension rule: a name is recognised exactly
      when it is a non-empty base followed by an ending that lower-cases to a
      table key, and then the key's entry is the language. */
  ghost predicate EndsWithKnownExtension(name: string, lang: string)
  {
    exists base: string, e: string {:trigger base + e} ::
      name == base + e && base != "" && Lower(e) in ExtToLang && ExtToLang[Lower(e)] == lang
  }

  lemma LowerKeepsDots(e: string)
    ensures |Lower(e)| == |e|
    ensures forall j :: 0 <= j < |e| ==> (Lower(e)[j] == '.' <==> e[j] == '.')
  {
  }

  lemma KeyShape(k: string)
    requires k in ExtToLang
    ensures IsExtensionKey(k)
  {
    ExtensionKeysWellFormed();
  }

  /** A recognised name splits into a non-empty stem and a known suffix. */
  lemma {:induction false} DetectedHasKnownExtension(name: string, lang: string)
    requires LanguageOfName(name) == Some(lang)
    ensures EndsWithKnownExtension(name, lang)
  {
    var e := Suffix(name);
    var base := Stem(name);
    assert e != "" by {
      if e == "" {
        assert Lower(e) == "";
        KeyShape(Lower(e));
      }
    }
    assert base != "";
    assert name == base + e;
  }

  /** A non-empty stem followed by a known ending, in any case, is
      recognised as the ending's language. */
  lemma {:induction false} KnownExtensionDetected(base: string, e: string)
    requires base != "" && Lower(e) in ExtToLang
    ensures LanguageOfName(base + e) == Some(ExtToLang[Lower(e)])
  {
    var name := base + e;
    LowerKeepsDots(e);
    KeyShape(Lower(e));
    var i := |base|;
    assert name[i] == '.';
    assert forall j :: i < j < |name| ==> name[j] == e[j - i];
    assert RFind(name, '.') == i;
    assert Suffix(name) == e;
  }

  lemma DetectByExtension(name: string, lang: string)
    ensures LanguageOfName(name) == Some(lang) <==> EndsWithKnownExtension(name, lang)
  {
    if LanguageOfName(name) == Some(lang) {
      DetectedHasKnownExtension(name, lang);
    }
    if EndsWithKnownExtension(name, lang) {
      var base: string, e: string :| name == base + e && base != "" && Lower(e) in ExtToLang && ExtToLang[Lower(e)] == lang;
      KnownExtensionDetected(base, e);
    }
  }

  /** `.py` is the table's entry for python. */
  lemma PythonEntry()
    ensures ".py" in ExtToLang && ExtToLang[".py"] == "python"
  {
  }

  /** An upper-case ending is recognised like its lower-case form. */
  lemma DetectIgnoresCase()
    ensures DetectLanguage("src/Main.PY") == Some("python")
  {
    var path := "src/Main.PY";
    RFindAt(path, '/', 3);
    assert path[4..] == "Main.PY";
    var up := ".PY";
    assert Lower(up) == ".py" by {
      assert Lower(up)[1] == 'p' && Lower(up)[2] == 'y';
    }
    PythonEntry();
    KnownExtensionDetected("Main", up);
    assert "Main" + up == "Main.PY";
  }

  /** Only the last ending counts: `a.tar.gz` is looked up as `.gz`. */
  lemma DetectUsesLastSuffixOnly()
    ensures FileName("archive.tar.gz") == "archive.tar.gz"
    ensures Suffix("archive.tar.gz") == ".gz"
  {
    var a := "archive.tar.gz";
    RFindAt(a, '/', -1);
    RFindAt(a, '.', 11);
  }

  /** A leading dot starts no ending, so a dot-file is never recognised. */
  lemma DetectSkipsDotFiles()
    ensures DetectLanguage("docs/.bashrc") == None
  {
    var b := "docs/.bashrc";
    RFindAt(b, '/', 4);
    assert b[5..] == ".bashrc";
    RFindAt(".bashrc", '.', 0);
    assert Lower("") == "";
  }

  /** Why `parse_file` raises ValueError. */
  datatype ParseError = UndetectedLanguage(path: string)

  /** The language `parse_file` goes on with: the one given, or else the
      detected one; neither is a ValueError. */
  function ParseLanguage(filePath: string, language: Option<string>): (r: Result<string, ParseError>)
    ensures r.Failure? <==> language.None? && DetectLanguage(filePath).None?
    ensures r.Failure? ==> r.error == UndetectedLanguage(filePath)
    ensures language.Some? ==> r == Success(language.value)
    ensures language.None? && r.Success? ==> IsSupported(r.value)
    ensures language.None? && r.Success? ==> DetectLanguage(filePath) == Some(r.value)
  {
    match language
    case Some(l) => Success(l)
    case None =>
      match DetectLanguage(filePath)
      case Some(l) => Success(l)
      case None => Failure(UndetectedLanguage(filePath))
  }
}
