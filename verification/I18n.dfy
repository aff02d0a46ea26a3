/** The supported locales and the browser-language detection used before a choice is stored. */
module I18n {
  import opened Wrappers
  import opened Strings

  const Locales: seq<string> := ["en", "tr"]
  const DefaultLocale: string := "tr"

  /**
   * `detectBrowserLanguage`: `navigatorLanguage` is None when there is no
   * browser window. The primary subtag (the text before the first `-`) is
   * returned when it is a supported locale, otherwise the default.
   */
  function DetectBrowserLanguage(navigatorLanguage: Option<string>): (r: string)
    ensures r in Locales
    ensures navigatorLanguage.None? ==> r == DefaultLocale
    ensures navigatorLanguage.Some? ==>
      (r == "en" <==> navigatorLanguage.value == "en" || StartsWith(navigatorLanguage.value, "en-"))
    ensures navigatorLanguage.Some? ==>
      (r == "tr" <==> !(navigatorLanguage.value == "en" || StartsWith(navigatorLanguage.value, "en-")))
  {
    if navigatorLanguage.None? then DefaultLocale
    else
      var lang := navigatorLanguage.value;
      var primary := Split(lang, '-')[0];
      PrimarySubtag(lang, "en");
      if primary in Locales then primary else DefaultLocale
  }

  /** The primary subtag is a given dash-free tag exactly when the language is that tag or starts with it and a dash. */
  lemma PrimarySubtag(lang: string, tag: string)
    requires '-' !in tag
    ensures Split(lang, '-')[0] == tag <==> lang == tag || StartsWith(lang, tag + "-")
  {
    var p := Split(lang, '-')[0];
    if p == tag && |p| < |lang| {
      assert lang[..|tag| + 1] == tag + "-";
    }
    if lang == tag {
      assert |p| == |lang|;
    } else if StartsWith(lang, tag + "-") {
      assert lang[|tag|] == (tag + "-")[|tag|];
      assert |p| == |tag|;
      assert p == lang[..|tag|];
    }
  }

  /** The comparison is case-sensitive: `EN` or `EN-US` falls back to Turkish. */
  lemma UpperCaseFallsBack(lang: string)
    requires StartsWith(lang, "EN")
    ensures DetectBrowserLanguage(Some(lang)) == "tr"
  {
    assert lang[0] == 'E';
  }

  /** A Turkish browser, `tr` or `tr-TR`, gives Turkish. */
  lemma TurkishDetected(lang: string)
    requires lang == "tr" || StartsWith(lang, "tr-")
    ensures DetectBrowserLanguage(Some(lang)) == "tr"
  {
    assert lang[0] == 't';
  }
}
