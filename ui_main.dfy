/**
 * The start-up normalisation the meeting UI process applies to the
 * configuration it receives: the log directory loses its trailing path
 * separators, the private server address gains a trailing slash, and the
 * translation file name is built from the language, with a fallback to
 * the base language when that file is missing.
 */
module UiMain {
  // ---------------------------------------------------------------- log path

  predicate IsSeparator(c: char)
  {
    c == '/' || c == '\\'
  }

  /**
   * The loop that chops `strLogPath`: while it ends in '/' or '\\' the last
   * character is dropped. The result is the input without its whole run of
   * trailing separators.
   */
  method StripLogPath(path: string) returns (r: string)
    ensures |r| <= |path| && r == path[..|r|]
    ensures r == [] || !IsSeparator(r[|r| - 1])
    ensures forall i :: |r| <= i < |path| ==> IsSeparator(path[i])
  {
    r := path;
    while |r| > 0 && IsSeparator(r[|r| - 1])
      invariant |r| <= |path| && r == path[..|r|]
      invariant forall i :: |r| <= i < |path| ==> IsSeparator(path[i])
      decreases |r|
    {
      r := r[..|r| - 1];
    }
  }

  // -------------------------------------------------------------- server url

  /** The private server address with a '/' appended when it is non-empty and lacks one. */
  function ServerUrlWithSlash(url: string): (r: string)
    ensures url == [] ==> r == []
    ensures url != [] ==> |r| > 0 && r[|r| - 1] == '/'
    ensures |url| <= |r| <= |url| + 1 && r[..|url|] == url
    ensures url != [] && url[|url| - 1] == '/' ==> r == url
  {
    if url != [] && url[|url| - 1] != '/' then url + "/" else url
  }

  /** Applying the rule a second time changes nothing. */
  lemma ServerUrlWithSlashIdempotent(url: string)
    ensures ServerUrlWithSlash(ServerUrlWithSlash(url)) == ServerUrlWithSlash(url)
  {
  }

  // ------------------------------------------------------------ translation

  const TranslationPrefix := "meeting-ui-sdk_"
  const TranslationSuffix := ".qm"

  /** `QString::replace("-", "_")`: every dash becomes an underscore. */
  function ReplaceDashes(s: string): (r: string)
    ensures |r| == |s|
    ensures forall i :: 0 <= i < |s| ==> r[i] == if s[i] == '-' then '_' else s[i]
  {
    if s == [] then [] else [if s[0] == '-' then '_' else s[0]] + ReplaceDashes(s[1..])
  }

  /** `split("-").at(0)`: the text before the first dash, or all of it when there is none. */
  function BeforeFirstDash(s: string): (r: string)
    ensures |r| <= |s| && r == s[..|r|]
    ensures '-' !in r
    ensures |r| < |s| ==> s[|r|] == '-'
  {
    if s == [] || s[0] == '-' then [] else [s[0]] + BeforeFirstDash(s[1..])
  }

  /** The file name tried first: "zh-CN" gives "meeting-ui-sdk_zh_CN.qm". */
  function PrimaryTranslationFile(language: string): string
  {
    TranslationPrefix + ReplaceDashes(language) + TranslationSuffix
  }

  /** The file name tried when the first is missing: "zh-CN" gives "meeting-ui-sdk_zh.qm". */
  function FallbackTranslationFile(language: string): string
  {
    TranslationPrefix + BeforeFirstDash(language) + TranslationSuffix
  }

  /**
   * The translation file name as the start-up code builds it, step by step,
   * where `available` holds the file names present in the translation
   * directory.
   */
  method TranslationFile(language: string, available: set<string>) returns (file: string)
    ensures PrimaryTranslationFile(language) in available ==> file == PrimaryTranslationFile(language)
    ensures PrimaryTranslationFile(language) !in available ==> file == FallbackTranslationFile(language)
  {
    file := ReplaceDashes(language);
    file := TranslationPrefix + file;
    file := file + TranslationSuffix;
    if file !in available {
      file := BeforeFirstDash(language);
      file := TranslationPrefix + file;
      file := file + TranslationSuffix;
    }
  }

  /** A language without a dash names the same file either way. */
  lemma TranslationFilesAgreeWithoutDash(language: string)
    requires '-' !in language
    ensures PrimaryTranslationFile(language) == FallbackTranslationFile(language)
    ensures PrimaryTranslationFile(language) == TranslationPrefix + language + TranslationSuffix
  {
    assert BeforeFirstDash(language) == language;
    assert ReplaceDashes(language) == language;
  }

  /**
   * The fallback keeps the part before the first dash of the primary name's
   * language, whose dashes the primary name has turned into underscores.
   */
  lemma FallbackIsBaseOfPrimary(language: string)
    ensures var base := BeforeFirstDash(language);
      ReplaceDashes(language)[..|base|] == base
      && (|base| < |language| ==> ReplaceDashes(language)[|base|] == '_')
  {
  }

  lemma ChineseTranslationFiles()
    ensures PrimaryTranslationFile("zh-CN") == "meeting-ui-sdk_zh_CN.qm"
    ensures FallbackTranslationFile("zh-CN") == "meeting-ui-sdk_zh.qm"
  {
    assert ReplaceDashes("zh-CN") == "zh_CN";
    assert BeforeFirstDash("zh-CN") == "zh" by {
      assert BeforeFirstDash("-CN") == [];
      assert BeforeFirstDash("h-CN") == ['h'] + BeforeFirstDash("-CN");
    }
  }
}
