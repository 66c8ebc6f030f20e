/** The static locale tables: the supported codes, the default, and each
    language's display data. */
module LocaleConfig {
  import opened Segments

  /** The supported locale codes, in their declared order. */
  const Locales: seq<string> := ["it", "en", "de", "zh", "ja", "ru", "ar"]

  const DefaultLocale: string := "it"

  /** A value of the `Locale` union type. */
  type Locale = s: string | s in Locales witness "it"

  datatype Direction = Ltr | Rtl

  datatype LanguageInfo = LanguageInfo(name: string, nativeName: string, dir: Direction, flag: string)

  /** `languageConfig`, keyed by locale code. */
  const LanguageConfig: map<string, LanguageInfo> := map[
    "en" := LanguageInfo("English", "English", Ltr, "\U{1F1FA}\U{1F1F8}"),
    "it" := LanguageInfo("Italian", "Italiano", Ltr, "\U{1F1EE}\U{1F1F9}"),
    "de" := LanguageInfo("German", "Deutsch", Ltr, "\U{1F1E9}\U{1F1EA}"),
    "zh" := LanguageInfo("Chinese", "\U{4E2D}\U{6587}", Ltr, "\U{1F1E8}\U{1F1F3}"),
    "ja" := LanguageInfo("Japanese", "\U{65E5}\U{672C}\U{8A9E}", Ltr, "\U{1F1EF}\U{1F1F5}"),
    "ru" := LanguageInfo("Russian", "\U{0420}\U{0443}\U{0441}\U{0441}\U{043A}\U{0438}\U{0439}", Ltr, "\U{1F1F7}\U{1F1FA}"),
    "ar" := LanguageInfo("Arabic", "\U{0627}\U{0644}\U{0639}\U{0631}\U{0628}\U{064A}\U{0629}", Rtl, "\U{1F1F8}\U{1F1E6}")
  ]

  /** Whether a path segment names a supported locale (`locales.includes`). */
  predicate IsLocale(s: string)
    ensures IsLocale(s) <==> s in LanguageConfig
  {
    s in Locales
  }

  /** The display data of a locale: every locale has an entry. */
  function LanguageOf(l: Locale): (info: LanguageInfo)
    ensures l in LanguageConfig && info == LanguageConfig[l]
    ensures info.dir == Rtl <==> l == "ar"
  {
    LanguageConfig[l]
  }

  lemma DefaultIsSupported()
    ensures IsLocale(DefaultLocale)
    ensures DefaultLocale == "it"
  {
  }

  lemma LocalesDistinct()
    ensures |Locales| == 7
    ensures forall i, j :: 0 <= i < j < |Locales| ==> Locales[i] != Locales[j]
  {
  }

  lemma ConfigKeysAreLocales()
    ensures LanguageConfig.Keys == set l | l in Locales
  {
  }

  /** Arabic is the only right-to-left language. */
  lemma OnlyArabicIsRtl()
    ensures forall k :: k in LanguageConfig ==> (LanguageConfig[k].dir == Rtl <==> k == "ar")
  {
  }

  /** A locale code is never empty and never contains a separator, so it is a
      path segment. */
  lemma LocalesAreSegments(l: string)
    requires IsLocale(l)
    ensures IsSegment(l)
  {
  }
}
