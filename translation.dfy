/** The translation engine: the active provider and language pair, the API
    keys in plain and encrypted form, the provider instances created so far,
    and `translate`, which consults the cache before the provider and writes
    successful translations back. The symmetric cipher is a pair of
    functions fixed when the engine is built. */
module Translation {
  import opened Wrappers
  import opened Strings
  import opened Cache
  import opened Providers

  /** A ciphertext as produced by the cipher. */
  type Token = seq<int>

  /** The cipher decrypts what it encrypted. */
  ghost predicate Invertible(encrypt: string -> Token, decrypt: Token -> Option<string>) {
    forall s :: decrypt(encrypt(s)) == Some(s)
  }

  /** `TranslationResult`. */
  datatype TranslationResult = TranslationResult(originalText: string, translatedText: string,
                                                 provider: Provider, cached: bool)

  /** `str(InvalidToken())`: the exception carries no message. */
  const InvalidTokenMessage: string := ""

  function MissingKeyMessage(p: Provider): (m: string)
    ensures Contains(m, "API anahtarı")
  {
    ContainsAfter(p.Value() + " için ", "API anahtarı", " ayarlanmamış");
    assert p.Value() + " için " + "API anahtarı" + " ayarlanmamış" == p.Value() + " için API anahtarı ayarlanmamış";
    p.Value() + " için API anahtarı ayarlanmamış"
  }

  /** `get_api_key`: the plain key if stored, else the decrypted stored
      token (an error when the token does not decrypt), else None. */
  function KeyLookup(p: Provider, apiKeys: map<Provider, string>, encryptedKeys: map<Provider, Token>,
                     decrypt: Token -> Option<string>): (r: Result<Option<string>, string>)
    ensures p in apiKeys ==> r == Ok(Some(apiKeys[p]))
    ensures p !in apiKeys && p !in encryptedKeys ==> r == Ok(None)
    ensures r.Err? <==> p !in apiKeys && p in encryptedKeys && decrypt(encryptedKeys[p]).None?
    ensures r.Ok? && r.value.Some? && p !in apiKeys ==> decrypt(encryptedKeys[p]) == r.value
  {
    if p in apiKeys then Ok(Some(apiKeys[p]))
    else if p in encryptedKeys then
      match decrypt(encryptedKeys[p])
      case None => Err(InvalidTokenMessage)
      case Some(k) => Ok(Some(k))
    else Ok(None)
  }

  /** The key of the instance `translate` will use: an existing instance's,
      the empty key for Google, otherwise the looked-up key, which must be
      non-empty. */
  function ResolveKey(p: Provider, instances: map<Provider, string>, apiKeys: map<Provider, string>,
                      encryptedKeys: map<Provider, Token>, decrypt: Token -> Option<string>): Result<string, string>
  {
    if p in instances then Ok(instances[p])
    else if p == Google then Ok("")
    else
      match KeyLookup(p, apiKeys, encryptedKeys, decrypt)
      case Err(e) => Err(e)
      case Ok(k) => if k.None? || k.value == "" then Err(MissingKeyMessage(p)) else Ok(k.value)
  }

  /** Google never needs a key; another provider fails with the missing-key
      message exactly when it has no instance and no non-empty key. */
  lemma ResolveKeyMissing(p: Provider, instances: map<Provider, string>, apiKeys: map<Provider, string>,
                          encryptedKeys: map<Provider, Token>, decrypt: Token -> Option<string>)
    ensures p == Google ==> ResolveKey(p, instances, apiKeys, encryptedKeys, decrypt).Ok?
    ensures ResolveKey(p, instances, apiKeys, encryptedKeys, decrypt) == Err(MissingKeyMessage(p)) <==>
              p != Google && p !in instances
              && KeyLookup(p, apiKeys, encryptedKeys, decrypt) in {Ok(None), Ok(Some(""))}
  {
    var k := KeyLookup(p, apiKeys, encryptedKeys, decrypt);
    if k.Err? {
      assert k.error == InvalidTokenMessage;
      assert MissingKeyMessage(p) != InvalidTokenMessage by {
        assert |MissingKeyMessage(p)| > 0;
      }
    }
  }

  /** The outcome of `translate` given the cache lookup, the instance key and
      the provider's own outcome. */
  function Decide(text: string, p: Provider, hit: Option<string>, resolved: Result<string, string>,
                  outcome: Result<string, string>): Result<TranslationResult, string>
  {
    if hit.Some? then Ok(TranslationResult(text, hit.value, p, true))
    else if resolved.Err? then Err(resolved.error)
    else if outcome.Err? then Err(outcome.error)
    else Ok(TranslationResult(text, outcome.value, p, false))
  }

  /** A cache hit answers without the provider: the result is the cached text,
      whatever the provider would have said. */
  lemma DecideHitIgnoresProvider(text: string, p: Provider, hit: Option<string>,
                                 r1: Result<string, string>, r2: Result<string, string>,
                                 o1: Result<string, string>, o2: Result<string, string>)
    requires hit.Some?
    ensures Decide(text, p, hit, r1, o1) == Decide(text, p, hit, r2, o2)
    ensures Decide(text, p, hit, r1, o1).Ok? && Decide(text, p, hit, r1, o1).value.cached
  {
  }

  /** Without a hit the result is marked uncached, carries the provider's
      translation, and every failure is passed through unchanged. */
  lemma DecideMiss(text: string, p: Provider, resolved: Result<string, string>, outcome: Result<string, string>)
    ensures var d := Decide(text, p, None, resolved, outcome);
            (d.Ok? <==> resolved.Ok? && outcome.Ok?)
            && (d.Ok? ==> !d.value.cached && d.value.translatedText == outcome.value && d.value.originalText == text)
            && (d.Err? ==> d.error == if resolved.Err? then resolved.error else outcome.error)
  {
  }

  class TranslationEngine {
    var provider: Provider
    var sourceLang: string
    var targetLang: string
    var apiKeys: map<Provider, string>
    var encryptedKeys: map<Provider, Token>
    /** The providers instantiated so far, each with the key it was built with. */
    var instances: map<Provider, string>
    const cache: CacheManager?
    const encrypt: string -> Token
    const decrypt: Token -> Option<string>

    /** Every plain key is the key of its provider's instance. */
    ghost predicate Valid()
      reads this
    {
      forall p :: p in apiKeys ==> p in instances && instances[p] == apiKeys[p]
    }

    constructor (cacheManager: CacheManager?, enc: string -> Token, dec: Token -> Option<string>)
      ensures Valid()
      ensures provider == Google && sourceLang == "en" && targetLang == "tr"
      ensures apiKeys == map[] && encryptedKeys == map[] && instances == map[Google := ""]
      ensures cache == cacheManager && encrypt == enc && decrypt == dec
    {
      provider, sourceLang, targetLang := Google, "en", "tr";
      apiKeys, encryptedKeys := map[], map[];
      cache, encrypt, decrypt := cacheManager, enc, dec;
      instances := map[Google := ""];
    }

    method SetProvider(p: Provider)
      requires Valid()
      modifies this
      ensures Valid()
      ensures provider == p && sourceLang == old(sourceLang) && targetLang == old(targetLang)
      ensures apiKeys == old(apiKeys) && encryptedKeys == old(encryptedKeys) && instances == old(instances)
    {
      provider := p;
    }

    function GetProvider(): Provider
      reads this
    {
      provider
    }

    method SetLanguages(source: string, target: string)
      requires Valid()
      modifies this
      ensures Valid()
      ensures sourceLang == source && targetLang == target && provider == old(provider)
      ensures apiKeys == old(apiKeys) && encryptedKeys == old(encryptedKeys) && instances == old(instances)
    {
      sourceLang, targetLang := source, target;
    }

    /** `_update_provider_instance`: a fresh instance holding `key`. */
    method UpdateProviderInstance(p: Provider, key: string)
      modifies this
      ensures instances == old(instances)[p := key]
      ensures provider == old(provider) && sourceLang == old(sourceLang) && targetLang == old(targetLang)
      ensures apiKeys == old(apiKeys) && encryptedKeys == old(encryptedKeys)
    {
      instances := instances[p := key];
    }

    /** `set_api_key`: stores the key in plain and encrypted form and rebuilds
        the provider's instance with it. */
    method SetApiKey(p: Provider, key: string)
      requires Valid()
      modifies this
      ensures Valid()
      ensures apiKeys == old(apiKeys)[p := key] && encryptedKeys == old(encryptedKeys)[p := encrypt(key)]
      ensures instances == old(instances)[p := key]
      ensures provider == old(provider) && sourceLang == old(sourceLang) && targetLang == old(targetLang)
    {
      encryptedKeys := encryptedKeys[p := encrypt(key)];
      apiKeys := apiKeys[p := key];
      UpdateProviderInstance(p, key);
    }

    /** `get_api_key`. */
    function GetApiKey(p: Provider): Result<Option<string>, string>
      reads this
    {
      KeyLookup(p, apiKeys, encryptedKeys, decrypt)
    }

    /** `set_encrypted_key`: the token is always stored; when it decrypts, the
        plain key and the instance follow it, otherwise they stay as they were. */
    method SetEncryptedKey(p: Provider, token: Token)
      requires Valid()
      modifies this
      ensures Valid()
      ensures encryptedKeys == old(encryptedKeys)[p := token]
      ensures match decrypt(token)
              case Some(k) => apiKeys == old(apiKeys)[p := k] && instances == old(instances)[p := k]
              case None => apiKeys == old(apiKeys) && instances == old(instances)
      ensures provider == old(provider) && sourceLang == old(sourceLang) && targetLang == old(targetLang)
    {
      encryptedKeys := encryptedKeys[p := token];
      var d := decrypt(token);
      if d.Some? {
        apiKeys := apiKeys[p := d.value];
        UpdateProviderInstance(p, d.value);
      }
    }

    /** `get_encrypted_key`. */
    function GetEncryptedKey(p: Provider): (r: Option<Token>)
      reads this
      ensures r.Some? <==> p in encryptedKeys
      ensures r.Some? ==> r.value == encryptedKeys[p]
    {
      if p in encryptedKeys then Some(encryptedKeys[p]) else None
    }

    /** `get_supported_languages`: the given provider, or the active one; the
        fallback list when that provider has no instance yet. */
    function GetSupportedLanguages(p: Option<Provider>): (r: seq<string>)
      reads this
      ensures var t := p.GetOr(provider);
              r == if t in instances then SupportedLanguages(t) else DefaultLanguages
    {
      var t := if p.Some? then p.value else provider;
      if t in instances then SupportedLanguages(t) else DefaultLanguages
    }

    /** The non-empty cached translation of `text` for the current pair. */
    function CacheHit(text: string): (r: Option<string>)
      reads this, cache
      ensures r.Some? ==> r.value != ""
      ensures r.Some? <==> cache != null && cache.Get(text, sourceLang, targetLang).Some?
                           && cache.Get(text, sourceLang, targetLang).value != ""
    {
      if cache != null && cache.enabled then
        match cache.Get(text, sourceLang, targetLang)
        case Some(t) => if t != "" then Some(t) else None
        case None => None
      else None
    }

    /** What `translate` answers in the current state when the provider's
        HTTP exchange is `resp`. */
    function Predict(text: string, resp: Response): Result<TranslationResult, string>
      reads this, cache
    {
      Decide(text, provider, CacheHit(text),
             ResolveKey(provider, instances, apiKeys, encryptedKeys, decrypt), Outcome(provider, text, resp))
    }

    /** `translate`: a cache hit first; otherwise resolve the provider instance
        (creating it from the stored key if need be), ask it, and store a
        successful translation in the enabled cache. */
    method Translate(text: string, resp: Response) returns (r: Result<TranslationResult, string>)
      requires Valid()
      modifies this, cache
      ensures Valid()
      ensures r == old(Predict(text, resp))
      ensures provider == old(provider) && sourceLang == old(sourceLang) && targetLang == old(targetLang)
      ensures apiKeys == old(apiKeys) && encryptedKeys == old(encryptedKeys)
      ensures instances == if old(CacheHit(text)).None? && old(provider) !in old(instances)
                              && old(ResolveKey(provider, instances, apiKeys, encryptedKeys, decrypt)).Ok?
                           then old(instances)[provider := old(ResolveKey(provider, instances, apiKeys, encryptedKeys, decrypt)).value]
                           else old(instances)
      ensures cache != null ==> cache.enabled == old(cache.enabled)
      ensures cache != null ==>
                cache.entries == if r.Ok? && !r.value.cached && old(cache.enabled)
                                 then old(cache.entries)[CacheKey(text, sourceLang, targetLang) :=
                                                         CacheValue(r.value.translatedText, provider.Value())]
                                 else old(cache.entries)
    {
      if cache != null && cache.IsEnabled() {
        var c := cache.Get(text, sourceLang, targetLang);
        if c.Some? && c.value != "" {
          return Ok(TranslationResult(text, c.value, provider, true));
        }
      }
      if provider !in instances {
        if provider == Google {
          UpdateProviderInstance(Google, "");
        } else {
          var k := GetApiKey(provider);
          if k.Err? {
            return Err(k.error);
          }
          if k.value.None? || k.value.value == "" {
            return Err(MissingKeyMessage(provider));
          }
          UpdateProviderInstance(provider, k.value.value);
        }
      }
      var out := Providers.Translate(provider, text, resp);
      if out.Err? {
        return Err(out.error);
      }
      if cache != null && cache.IsEnabled() {
        cache.Set(text, out.value, sourceLang, targetLang, provider.Value());
      }
      r := Ok(TranslationResult(text, out.value, provider, false));
    }
  }

  /** A key set on one engine travels as a token: a second engine sharing the
      cipher, given only the token, reads back the same key and builds its
      provider instance with it. */
  method TransferKey(a: TranslationEngine, b: TranslationEngine, p: Provider, key: string)
    requires a != b && a.Valid() && b.Valid()
    requires a.encrypt == b.encrypt && a.decrypt == b.decrypt && Invertible(a.encrypt, a.decrypt)
    modifies a, b
    ensures a.GetApiKey(p) == Ok(Some(key)) && b.GetApiKey(p) == Ok(Some(key))
    ensures p in b.instances && b.instances[p] == key
  {
    a.SetApiKey(p, key);
    var token := a.GetEncryptedKey(p);
    assert a.decrypt(a.encrypt(key)) == Some(key);
    b.SetEncryptedKey(p, token.value);
  }

  /** With an enabled cache, a successful non-empty translation is answered
      from the cache the second time, with the same text; an empty one is
      not, and goes back to the provider. */
  method TranslateTwice(e: TranslationEngine, text: string, resp1: Response, resp2: Response)
      returns (r1: Result<TranslationResult, string>, r2: Result<TranslationResult, string>)
    requires e.Valid() && e.cache != null && e.cache.enabled
    modifies e, e.cache
    ensures r1.Ok? && !r1.value.cached && r1.value.translatedText != "" ==>
              r2 == Ok(TranslationResult(text, r1.value.translatedText, e.provider, true))
    ensures r1.Ok? && r1.value.translatedText == "" ==> r2.Err? || !r2.value.cached
  {
    r1 := e.Translate(text, resp1);
    r2 := e.Translate(text, resp2);
  }
}
