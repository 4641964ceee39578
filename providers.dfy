/** The four translation back-ends: their identifiers, key checks, language
    lists, the DeepL punctuation repair, and how each turns an HTTP reply
    into a translation or an error. The HTTP exchange itself is an input. */
module Providers {
  import opened Wrappers
  import opened Strings

  datatype Provider = ChatGpt | Gemini | Google | DeepL {
    /** The enum's `.value`. */
    function Value(): string {
      match this
      case ChatGpt => "chatgpt"
      case Gemini => "gemini"
      case Google => "google"
      case DeepL => "deepl"
    }
  }

  /** `TranslationProvider(s)`: None where the enum constructor raises. */
  function FromValue(s: string): (p: Option<Provider>)
    ensures p.Some? ==> p.value.Value() == s
  {
    if s == "chatgpt" then Some(ChatGpt)
    else if s == "gemini" then Some(Gemini)
    else if s == "google" then Some(Google)
    else if s == "deepl" then Some(DeepL)
    else None
  }

  /** The enum values are distinct and every value names its member. */
  lemma ValueRoundTrip(p: Provider, s: string)
    ensures FromValue(p.Value()) == Some(p)
    ensures FromValue(s).None? <==> s !in {"chatgpt", "gemini", "google", "deepl"}
  {
  }

  /** `validate_api_key` of each provider class. */
  function ValidateApiKey(p: Provider, key: string): bool {
    match p
    case ChatGpt => key != "" && |key| >= 3 && key[..3] == "sk-" && |key| > 20
    case Gemini => key != "" && |key| > 20
    case Google => true
    case DeepL => key != "" && |key| > 20
  }

  /** The empty key passes only for the keyless Google back-end; a ChatGPT
      key is acceptable to every provider; Gemini and DeepL agree. */
  lemma ValidateApiKeyOrder(key: string)
    ensures forall p :: ValidateApiKey(p, "") <==> p == Google
    ensures ValidateApiKey(ChatGpt, key) ==> forall p :: ValidateApiKey(p, key)
    ensures ValidateApiKey(Gemini, key) == ValidateApiKey(DeepL, key)
    ensures ValidateApiKey(Gemini, key) <==> |key| > 20
    ensures ValidateApiKey(ChatGpt, key) <==> |key| > 20 && key[..3] == "sk-"
  {
  }

  const AllLanguages: seq<string> := ["en", "tr", "ja", "ko", "zh", "de", "fr", "es", "it", "pt", "ru", "ar"]

  /** The list the engine falls back to when no provider instance exists. */
  const DefaultLanguages: seq<string> := ["en", "tr", "ja", "ko", "zh", "de", "fr", "es"]

  /** `get_supported_languages` of each provider class. */
  function SupportedLanguages(p: Provider): seq<string> {
    if p == DeepL then AllLanguages[..11] else AllLanguages
  }

  /** DeepL lacks Arabic and only that; no list repeats a code, and the
      fallback list is supported everywhere. */
  lemma SupportedLanguagesFacts(p: Provider)
    ensures SupportedLanguages(DeepL) + ["ar"] == SupportedLanguages(Google)
    ensures "ar" in SupportedLanguages(p) <==> p != DeepL
    ensures forall i, j :: 0 <= i < j < |SupportedLanguages(p)| ==>
              SupportedLanguages(p)[i] != SupportedLanguages(p)[j]
    ensures forall l :: l in DefaultLanguages ==> l in SupportedLanguages(p)
  {
    assert DefaultLanguages == AllLanguages[..8];
    forall l | l in DefaultLanguages ensures l in SupportedLanguages(p) {
      var i :| 0 <= i < 8 && DefaultLanguages[i] == l;
      assert SupportedLanguages(p)[i] == l;
    }
  }

  /** `DeepLProvider.LANG_MAP`. */
  const LangMap: map<string, string> :=
    map["en" := "EN", "tr" := "TR", "ja" := "JA", "ko" := "KO", "zh" := "ZH", "de" := "DE",
        "fr" := "FR", "es" := "ES", "it" := "IT", "pt" := "PT", "ru" := "RU"]

  /** `LANG_MAP.get(code, code.upper())`. */
  function DeepLCode(code: string): string {
    if code in LangMap then LangMap[code] else ToUpper(code)
  }

  /** The table only spells out upper-casing: every code, listed or not,
      goes to DeepL upper-cased. */
  lemma DeepLCodeIsUpper(code: string)
    ensures DeepLCode(code) == ToUpper(code)
  {
    if code in LangMap {
      assert |code| == 2;
      var u := ToUpper(code);
      assert u == [UpperChar(code[0]), UpperChar(code[1])];
    }
  }

  /** The table covers exactly DeepL's list. */
  lemma LangMapCoversDeepL(l: string)
    ensures l in LangMap <==> l in SupportedLanguages(DeepL)
  {
    assert SupportedLanguages(DeepL) == ["en", "tr", "ja", "ko", "zh", "de", "fr", "es", "it", "pt", "ru"];
  }

  const Punctuation: string := ".!?:;,"

  /** `s.rstrip()[-1] if s.rstrip() else ""`. */
  function LastVisible(s: string): (e: string)
    ensures |e| <= 1
    ensures e == [] <==> IsBlank(s)
    ensures e != [] ==> !IsSpace(e[0])
  {
    var t := RStrip(s);
    RStripBlank(s);
    if t == [] then "" else [t[|t| - 1]]
  }

  /** `RStrip` leaves nothing exactly for blank strings. */
  lemma RStripBlank(s: string)
    ensures RStrip(s) == [] <==> IsBlank(s)
  {
    var r := RStrip(s);
    if r != [] {
      assert s[|r| - 1] == r[|r| - 1];
    }
  }

  /** `s[:-1]`, which is empty on the empty string. */
  function DropLast(s: string): string {
    if s == [] then [] else s[..|s| - 1]
  }

  /** Python's `e in ".!?:;,"` (a substring test: the empty string is in it). */
  predicate IsPunctuation(e: string) {
    Contains(Punctuation, e)
  }

  /** `DeepLProvider._fix_punctuation`. */
  function FixPunctuation(original: string, translated: string): string {
    if original == "" || translated == "" then translated
    else
      var origEnd := LastVisible(original);
      var transEnd := LastVisible(translated);
      if IsPunctuation(origEnd) then
        if IsPunctuation(transEnd) && transEnd != origEnd then DropLast(RStrip(translated)) + origEnd
        else if !IsPunctuation(transEnd) then RStrip(translated) + origEnd
        else translated
      else if IsPunctuation(transEnd) then DropLast(RStrip(translated))
      else translated
  }

  /** A one-character end is a mark exactly when it is one of the six. */
  lemma IsPunctuationChar(c: char)
    ensures IsPunctuation([c]) <==> c in Punctuation
  {
    ContainsSingleton(Punctuation, c);
  }

  /** A string ending in a visible character is its own `rstrip`. */
  lemma RStripKeepsVisibleEnd(s: string)
    requires s != [] && !IsSpace(s[|s| - 1])
    ensures RStrip(s) == s
  {
  }

  /** The repair's aim: when the original ends in one of the six marks and
      the translation has visible text, the result ends in that same mark. */
  lemma FixPunctuationKeepsMark(original: string, translated: string, c: char)
    requires LastVisible(original) == [c] && c in Punctuation
    requires !IsBlank(translated)
    ensures LastVisible(FixPunctuation(original, translated)) == [c]
  {
    IsPunctuationChar(c);
    var t := RStrip(translated);
    RStripBlank(translated);
    var e := LastVisible(translated);
    assert e == [t[|t| - 1]];
    assert !IsSpace(c) by {
      assert LastVisible(original)[0] == c;
    }
    var r := FixPunctuation(original, translated);
    if IsPunctuation(e) && e != [c] {
      assert r == DropLast(t) + [c];
      RStripKeepsVisibleEnd(r);
    } else if !IsPunctuation(e) {
      assert r == t + [c];
      RStripKeepsVisibleEnd(r);
    } else {
      assert r == translated;
    }
  }

  /** When the original ends in a visible character that is not a mark and
      the translation ends in a mark, that mark is removed (with any
      trailing whitespace). */
  lemma FixPunctuationDropsMark(original: string, translated: string, c: char, d: char)
    requires LastVisible(original) == [c] && c !in Punctuation
    requires LastVisible(translated) == [d] && d in Punctuation
    ensures FixPunctuation(original, translated) == DropLast(RStrip(translated))
  {
    IsPunctuationChar(c);
    IsPunctuationChar(d);
  }

  /** Neither text ending in a recognised mark, or both ending in the same
      one, leaves the translation untouched; so does an empty argument. */
  lemma FixPunctuationUnchanged(original: string, translated: string)
    requires original == "" || translated == ""
             || (exists c :: LastVisible(original) == [c] && c !in Punctuation
                             && exists d :: LastVisible(translated) == [d] && d !in Punctuation)
             || (LastVisible(original) == LastVisible(translated) && !IsBlank(original))
    ensures FixPunctuation(original, translated) == translated
  {
    if original != "" && translated != "" && LastVisible(original) != LastVisible(translated) {
      var c :| LastVisible(original) == [c] && c !in Punctuation
               && exists d :: LastVisible(translated) == [d] && d !in Punctuation;
      var d :| LastVisible(translated) == [d] && d !in Punctuation;
      IsPunctuationChar(c);
      IsPunctuationChar(d);
    }
  }

  /** What the substring test does with a blank string: a non-empty blank
      translation comes back unchanged when the original is blank too,
      becomes the original's mark when there is one, and is emptied otherwise. */
  lemma FixPunctuationBlankTranslation(original: string, translated: string)
    requires original != "" && translated != "" && IsBlank(translated)
    ensures var e := LastVisible(original);
            FixPunctuation(original, translated) ==
              if e == "" then translated else if e[0] in Punctuation then e else ""
  {
    RStripBlank(translated);
    EmptyIsContained(Punctuation);
    var e := LastVisible(original);
    if e != "" {
      IsPunctuationChar(e[0]);
      assert e == [e[0]];
    }
  }

  /** What an HTTP exchange with a provider gave back: the status, the body
      text, and the translation strings found in the JSON payload
      (`choices[i].message.content`, `candidates[i]...text`, the parts of
      Google's `data[0]`, `translations[i].text`). */
  datatype Response = Response(status: nat, body: string, texts: seq<string>)

  /** The concatenation `"".join(parts)`. */
  function Concat(parts: seq<string>): string {
    if parts == [] then "" else parts[0] + Concat(parts[1..])
  }

  lemma {:induction false} ConcatSnoc(parts: seq<string>, p: string)
    ensures Concat(parts + [p]) == Concat(parts) + p
  {
    if parts == [] {
      assert parts + [p] == [p];
    } else {
      assert (parts + [p])[1..] == parts[1..] + [p];
      ConcatSnoc(parts[1..], p);
    }
  }

  /** Google's loop: collect the non-empty parts and join them. */
  method JoinParts(parts: seq<string>) returns (s: string)
    ensures s == Concat(parts)
  {
    var collected: seq<string> := [];
    var i := 0;
    while i < |parts|
      invariant 0 <= i <= |parts|
      invariant Concat(collected) == Concat(parts[..i])
    {
      ConcatSnoc(parts[..i], parts[i]);
      assert parts[..i + 1] == parts[..i] + [parts[i]];
      if parts[i] != "" {
        ConcatSnoc(collected, parts[i]);
        collected := collected + [parts[i]];
      }
      i := i + 1;
    }
    assert parts[..i] == parts;
    s := "";
    var j := 0;
    while j < |collected|
      invariant 0 <= j <= |collected|
      invariant s == Concat(collected[..j])
    {
      ConcatSnoc(collected[..j], collected[j]);
      assert collected[..j + 1] == collected[..j] + [collected[j]];
      s := s + collected[j];
      j := j + 1;
    }
    assert collected[..j] == collected;
  }

  /** The message of the IndexError raised on an empty result list. */
  const IndexErrorMessage: string := "list index out of range"

  /** The start of the message each provider raises on a non-200 status. */
  function ErrorPrefix(p: Provider): string {
    match p
    case ChatGpt => "ChatGPT API hatası: "
    case Gemini => "Gemini API hatası: "
    case Google => "Google Translate hatası: "
    case DeepL => "DeepL API hatası: "
  }

  /** The message raised on a non-200 status: Google reports only the status,
      the others the status and the body. */
  function StatusError(p: Provider, resp: Response): string {
    var code := NatToString(resp.status);
    if p == Google then ErrorPrefix(p) + code else ErrorPrefix(p) + code + " - " + resp.body
  }

  /** The outcome of each provider's `translate`: the raised message on a
      non-200 status or a reply without a translation, otherwise the
      provider's post-processing of the reply text. */
  function Outcome(p: Provider, text: string, resp: Response): (r: Result<string, string>)
    ensures p == Google && resp.status == 200 ==> r == Ok(Concat(resp.texts))
    ensures resp.status != 200 ==> r == Err(StatusError(p, resp))
    ensures r.Ok? && (p == ChatGpt || p == Gemini) ==> resp.texts != [] && r.value == Strip(resp.texts[0])
    ensures r.Ok? && p == DeepL ==> resp.texts != [] && r.value == FixPunctuation(text, resp.texts[0])
    ensures r.Err? && resp.status == 200 ==> p != Google && resp.texts == [] && r.error == IndexErrorMessage
  {
    if resp.status != 200 then Err(StatusError(p, resp))
    else if p == Google then Ok(Concat(resp.texts))
    else if resp.texts == [] then Err(IndexErrorMessage)
    else if p == DeepL then Ok(FixPunctuation(text, resp.texts[0]))
    else Ok(Strip(resp.texts[0]))
  }

  /** ChatGPT and Gemini replies come back trimmed at both ends. */
  lemma OutcomeTrimmed(p: Provider, text: string, resp: Response)
    requires p == ChatGpt || p == Gemini
    requires Outcome(p, text, resp).Ok?
    ensures var t := Outcome(p, text, resp).value;
            t == [] || (!IsSpace(t[0]) && !IsSpace(t[|t| - 1]))
  {
    StripTrimsBothEnds(resp.texts[0]);
  }

  /** Every failed request's message starts with the provider's own prefix. */
  lemma StatusErrorNamesProvider(p: Provider, resp: Response)
    ensures Contains(StatusError(p, resp), ErrorPrefix(p))
  {
    var code := NatToString(resp.status);
    var tail := if p == Google then code else code + " - " + resp.body;
    assert StatusError(p, resp) == "" + ErrorPrefix(p) + tail;
    ContainsAfter("", ErrorPrefix(p), tail);
  }

  /** The four prefixes tell the providers apart. */
  lemma ErrorPrefixInjective(p: Provider, q: Provider)
    ensures ErrorPrefix(p) == ErrorPrefix(q) ==> p == q
  {
    if p != q {
      assert ErrorPrefix(p)[0] != ErrorPrefix(q)[0] || ErrorPrefix(p)[1] != ErrorPrefix(q)[1];
    }
  }

  /** `provider_instance.translate(...)` for the instance of provider `p`. */
  method Translate(p: Provider, text: string, resp: Response) returns (r: Result<string, string>)
    ensures r == Outcome(p, text, resp)
  {
    if resp.status != 200 {
      return Err(StatusError(p, resp));
    }
    if p == Google {
      var joined := JoinParts(resp.texts);
      return Ok(joined);
    }
    if resp.texts == [] {
      return Err(IndexErrorMessage);
    }
    r := Ok(if p == DeepL then FixPunctuation(text, resp.texts[0]) else Strip(resp.texts[0]));
  }
}
