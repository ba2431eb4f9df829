/**
 * The translation table of a story (pkg/story/i18n.go): language, then
 * original line, then translated line. Lookups never fail: a missing
 * language or line gives back the line itself.
 */
module I18n {
  import opened Responses

  type I18nMap = map<string, map<string, string>>

  /** The line answered to a language switch, before translation. */
  const LanguageChanged: string := "Language changed"

  /** I18nMap.Line */
  function Line(m: I18nMap, line: string, lang: string): (r: string)
    ensures lang in m && line in m[lang] ==> r == m[lang][line]
    ensures lang !in m || line !in m[lang] ==> r == line
  {
    if lang in m && line in m[lang] then m[lang][line] else line
  }

  /** What I18nMap.Translate produces for the i-th response of a batch. */
  function TranslatedAt(m: I18nMap, r: Response, lang: string): Response
  {
    Response(r.original, Line(m, r.original, lang), lang, r.shouldAdvance, map[])
  }

  /**
   * The batch re-keyed into `lang`: same length, each text is the translation
   * of the untranslated original, every lang is `lang`, the advance flags are
   * kept and the metadata is not carried over.
   */
  function Translated(m: I18nMap, rs: seq<Response>, lang: string): (ts: seq<Response>)
    ensures |ts| == |rs|
    ensures forall i :: 0 <= i < |rs| ==> ts[i] == TranslatedAt(m, rs[i], lang)
  {
    if rs == [] then [] else [TranslatedAt(m, rs[0], lang)] + Translated(m, rs[1..], lang)
  }

  /** I18nMap.Translate: fills a fresh slice, one translated response per input response. */
  method Translate(m: I18nMap, rs: seq<Response>, lang: string) returns (result: seq<Response>)
    ensures result == Translated(m, rs, lang)
  {
    result := [];
    var i := 0;
    while i < |rs|
      invariant 0 <= i <= |rs|
      invariant result == Translated(m, rs[..i], lang)
    {
      assert rs[..i + 1] == rs[..i] + [rs[i]];
      TranslatedAppend(m, rs[..i], rs[i], lang);
      result := result + [TranslatedAt(m, rs[i], lang)];
      i := i + 1;
    }
    assert rs[..|rs|] == rs;
  }

  lemma TranslatedAppend(m: I18nMap, rs: seq<Response>, r: Response, lang: string)
    ensures Translated(m, rs + [r], lang) == Translated(m, rs, lang) + [TranslatedAt(m, r, lang)]
  {
  }

  /**
   * Translation reads only the originals: translating an already translated
   * batch into another language gives the same batch as translating the
   * first one directly.
   */
  lemma TranslatedForgetsEarlierLanguage(m: I18nMap, rs: seq<Response>, l1: string, l2: string)
    ensures Translated(m, Translated(m, rs, l1), l2) == Translated(m, rs, l2)
  {
  }

  /** Translating back into the original language of an untranslated batch restores its texts. */
  lemma TranslatedIntoUntranslatedLanguage(m: I18nMap, rs: seq<Response>, lang: string)
    requires lang !in m
    ensures Originals(Translated(m, rs, lang)) == Originals(rs)
    ensures forall i :: 0 <= i < |rs| ==> Translated(m, rs, lang)[i].text == rs[i].original
  {
  }
}
