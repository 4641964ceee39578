# ChwiliTranslate core, modelled in Dafny

ChwiliTranslate is a desktop screen-translation tool. A worker loop runs while the application is RUNNING. On each pass it:

1. captures the user's screen regions;
2. runs OCR on each one;
3. drops any region one of whose text boxes overlaps an exclusion area;
4. joins the surviving texts and suppresses a repeat of the previous frame;
5. sends the text to a translation provider (ChatGPT, Gemini, Google or DeepL), through an SQLite-backed translation cache;
6. shows the result in an always-on-top overlay.

Around this sit a region store, a hotkey table and a JSON configuration file.

The project models the data-level behaviour of these components and proves properties about it. One module per source file:

| module | file | models |
|---|---|---|
| `App` | app.dfy | `src/app_controller.py`: the IDLE/RUNNING/PAUSED state machine, the exclusion-area overlap test, one frame of `_process_frame`, the outcome mapping in `_translate_text`, and the wait time of `_ocr_loop`. |
| `Regions` | regions.dfy | `src/ocr/region_selector.py`: `Region` as a value with its dict round trip. `RegionSelector` is a class holding a bounded list of at most 5 regions (`MaxRegions`). |
| `Cache` | cache.dfy | `src/translate/cache.py`: `CacheManager` as a class holding a map from (text, source, target) to (translation, provider), plus the aggregate statistics. |
| `Translation` | translation.dfy | `src/translate/engine.py`: `TranslationEngine` with its key stores, its provider instances, cache-first translation and write-through. |
| `Providers` | providers.dfy | `src/translate/providers.py`: key validators, supported languages, the DeepL language map, DeepL's `_fix_punctuation`, and how a provider reply becomes a translation or an error. |
| `Hotkeys` | hotkeys.dfy | `src/utils/hotkey_manager.py`: the action table, blocked keys, conflicts, categories, resets, and the saved-file overlay. |
| `Config` | config.dfy | `src/utils/config.py`: the configuration records, `_config_to_dict`/`_dict_to_config`, keyword updates and the `ConfigManager` load/save cycle. |
| `Ocr` | ocr.dfy | `src/ocr/engine.py`: the language filter, the reinitialisation flag, and the box and text assembly of `process_image`. |
| `Overlay` | overlay.dfy | `src/overlay/overlay_window.py`: font and position, the styling copies, visibility, and the one-slot pending-text mailbox. |

Three helper modules support these:
- `Wrappers` (`Option`, `Result`);
- `Strings`, with Python's `str.isspace`, `strip`/`rstrip`/`lstrip`, `" ".join`, `in` as substring test, and `upper` (ASCII only);
- `Json`, a JSON value datatype, with `dict.get(key, default)` readers for each value type.

Stateful objects are Dafny classes whose methods state the whole new state. The worker thread becomes explicit calls, `InitStep` once and then `Step` per pass. Everything foreign becomes a parameter:
- screen capture and EasyOCR results (`RegionOutcome`, `ReaderOutput`). Within a frame, a `Recognised` outcome is a `process_image` call that returned, so it first builds a missing reader; `OcrFailed` is one whose reader build raised, which leaves the engine uninitialised;
- the reader's construction error;
- provider HTTP replies (`Providers.Response`);
- the translation outcome seen by the controller;
- the clock (`processingMs`, `elapsedSeconds`);
- the encryption function pair.

Choices where the model follows the code rather than the description or the tests:
- **`start` from PAUSED.** The `start` guard only tests for RUNNING, so from PAUSED it re-enters RUNNING and resets the counters. `App.ApplicationController.StartFromPaused` states this.
- **Font-size clamp.** The overlay clamps the font size to [10, 72], so 8 becomes 10, although a property test expects 8 to be kept (`Overlay.FontSizeClamped`).
- **Chinese in OCR.** The OCR engine's supported list has no "zh", so `set_languages` drops it (`Ocr.ChineseDropped`). Yet decoding a config without `ocr.languages` yields `["en","ja","ko","zh"]`, and decoding `{}` therefore differs from `create_default_config()` (`Config.EmptyDictDefaults`).
- **Exclusion test.** The exclusion test is a strict rectangle overlap. A zero-size box therefore counts only when it lies strictly inside an area (`App.PointInsideOnly`, `App.EmptyAreaCaughtInside`).
- **Overlay styling copies.** The overlay's background flag, glow flag and colours start at fixed defaults, whatever configuration the window is built with. `get_config` reports those copies (`Overlay.ConfiguredColoursIgnored`).
- **`reset_single`.** `reset_single` does no conflict check and can make two actions share a key (`Hotkeys.ResetSingleCanDuplicate`).

## Model

| member | source | states |
|---|---|---|
| Strings.RStrip | src/translate/providers.py:200-201 | `rstrip` yields a prefix that does not end in whitespace, and everything removed is whitespace |
| Strings.LStrip | src/app_controller.py:272 | `lstrip` yields a suffix that does not start in whitespace, and everything removed is whitespace |
| Strings.StripEmptyIffBlank | src/app_controller.py:252 | `text.strip()` is empty exactly when the text is empty or all whitespace |
| Strings.StripTrimsBothEnds | src/app_controller.py:272 | a non-empty stripped text neither starts nor ends with whitespace |
| Strings.JoinSnoc | src/app_controller.py:278 | joining one more part appends the separator and the part |
| Strings.ContainsAfter | src/app_controller.py:322 | a string contains every string embedded in it |
| Strings.EmptyIsContained | src/translate/providers.py:206 | `"" in s` holds for every `s` |
| Strings.ContainsSingleton | src/translate/providers.py:206 | one-character substring membership is character membership |
| Strings.ToUpper | src/translate/providers.py:228-229 | `upper` keeps the length and maps each character |
| Strings.IsSpace | src/app_controller.py:252 | Python's `str.isspace` for one character: tab to carriage return, the separators 0x1C-0x1F, space, and the Unicode spaces |
| Strings.Strip | src/app_controller.py:252 | `str.strip()` is `rstrip` then `lstrip` |
| Strings.Join | src/app_controller.py:278 | `sep.join(parts)`: the parts with the separator between neighbours |
| Strings.Contains | src/app_controller.py:322 | `needle in haystack`: the needle occurs at some position |
| Strings.NatToString | src/ocr/region_selector.py:148 | a number's decimal text is a non-empty run of digits, without a leading zero, that denotes the number |
| Regions.ToDict | src/ocr/region_selector.py:22-32 | `to_dict` writes exactly the seven field keys |
| Regions.FromDict | src/ocr/region_selector.py:35-45 | `from_dict` reads the seven keys, each with its default |
| Regions.IsValid | src/ocr/region_selector.py:47-49 | a region is valid when its width and height are positive |
| Regions.DictRoundTrip | src/ocr/region_selector.py:22-45 | `from_dict(to_dict(r)) == r` for every region |
| Regions.FromDictIgnoresOtherKeys | src/ocr/region_selector.py:35-45 | keys other than the seven fields do not affect `from_dict` |
| Regions.FromDictDefaults | src/ocr/region_selector.py:37-45 | missing keys default to x=y=monitor 0, 800×600, name "", enabled; the result is valid |
| Regions.Named | src/ocr/region_selector.py:147-148 | an unnamed region gets a non-empty default name; nothing else changes, and a named one is kept as is |
| Regions.EnabledRegions | src/ocr/region_selector.py:133-135 | the filter keeps exactly the enabled regions and no others |
| Regions.EnabledRegionsAppend | src/ocr/region_selector.py:133-135 | the filter distributes over concatenation, so region order is preserved |
| Regions.EnabledRegionsHead | src/ocr/region_selector.py:182-188 | the first enabled region is an enabled element of the store |
| Regions.RegionSelector.constructor | src/ocr/region_selector.py:57-64 | a fresh selector is empty, has no current region, is not selecting and has no completion callback |
| Regions.RegionSelector.StartSelection | src/ocr/region_selector.py:87-96 | the completion callback is registered and selection starts at the given index; the regions, the current region and the callback trace are unchanged |
| Regions.RegionSelector.CompleteSelection | src/ocr/region_selector.py:98-116 | an in-range index replaces that region, otherwise the region is appended if there is room; it becomes current, selecting is reset to false/-1, and a registered callback is called with the stored (possibly renamed) region |
| Regions.SelectionReportsOnce | src/ocr/region_selector.py:87-122 | a selection started with a callback reports its stored region once; after `cancel_selection` a later completion reports nothing |
| Regions.RegionSelector.CancelSelection | src/ocr/region_selector.py:118-122 | selecting is reset and the callback is dropped; the regions, current region and callback trace are kept |
| Regions.RegionSelector.GetRegion | src/ocr/region_selector.py:137-141 | returns the element exactly for an in-range index, else None |
| Regions.RegionSelector.AddRegion | src/ocr/region_selector.py:143-150 | succeeds iff fewer than 5 regions exist; on success the named region is appended, otherwise nothing changes |
| Regions.RegionSelector.RemoveRegion | src/ocr/region_selector.py:152-157 | succeeds iff the index is in range, and removes exactly that element, keeping the others in order |
| Regions.RegionSelector.SetRegionEnabled | src/ocr/region_selector.py:159-162 | changes only the indexed region's enabled flag; a silent no-op out of range |
| Regions.RegionSelector.SetRegions | src/ocr/region_selector.py:164-166 | the list becomes the first 5 of the given regions |
| Regions.RegionSelector.ClearRegions | src/ocr/region_selector.py:168-171 | no regions and no current region remain |
| Regions.RegionSelector.GetCurrentRegion | src/ocr/region_selector.py:182-188 | the first enabled region if one exists, else the stored current region |
| Regions.RegionSelector.SetRegion | src/ocr/region_selector.py:190-195 | sets the current region; on an empty store it is also added (under its default name) |
| Regions.SetRegionThenCurrent | src/ocr/region_selector.py:182-195 | `set_region` on an empty store makes `get_current_region` return that region |
| Cache.Bump | src/translate/cache.py:119-129 | counting one more row raises exactly that group's count and the total by one, and keeps groups distinct |
| Cache.CountOfRow | src/translate/cache.py:119-129 | in a table of distinct groups, each row's count is that group's count |
| Cache.TallyStep | src/translate/cache.py:117-129 | counting one more row keeps the GROUP BY invariant: distinct groups, exact counts, the right total |
| Cache.Tally | src/translate/cache.py:117-129 | the GROUP BY yields distinct groups, one per value present, counting the keys with that value, summing to the number of entries |
| Cache.CacheManager.constructor | src/translate/cache.py:28-32 | a cache opens enabled over the stored table |
| Cache.CacheManager.Get | src/translate/cache.py:70-82 | a hit exactly when enabled and the triple is stored; it returns the stored translation |
| Cache.CacheManager.Set | src/translate/cache.py:84-97 | while enabled the triple maps to the new translation and provider (one entry per triple); while disabled nothing changes |
| Cache.CacheManager.Clear | src/translate/cache.py:99-104 | every entry goes, whatever the enabled flag |
| Cache.CacheManager.GetStats | src/translate/cache.py:106-132 | the total is the number of entries; a provider or a language pair has a row exactly when some entry has it, the row counts its entries, and each tally sums to the total |
| Cache.CacheManager.SetEnabled | src/translate/cache.py:138-140 | only the flag changes |
| Cache.CacheManager.GetEntry | src/translate/cache.py:142-166 | a record exactly when enabled and stored, with the stored fields |
| Cache.SetThenGet | src/translate/cache.py:70-97 | with the cache enabled, `set` then `get`/`get_entry` return the inputs |
| Cache.SecondSetWins | src/translate/cache.py:84-97 | a second `set` on the same triple replaces translation and provider and adds no entry |
| Cache.DisableKeepsEntries | src/translate/cache.py:134-140 | disabling and re-enabling keeps every entry |
| Providers.FromValue | src/translate/providers.py:14-19 | a decoded provider has the given value string |
| Providers.ValidateApiKey | src/translate/engine.py:176-186 | per provider: ChatGPT needs "sk-" and more than 20 characters, Gemini and DeepL more than 20, Google anything |
| Providers.ValueRoundTrip | src/translate/providers.py:14-19 | each provider decodes from its value, and only the four value strings decode |
| Providers.ValidateApiKeyOrder | src/translate/providers.py:91-93 | ChatGPT: longer than 20 and starts with "sk-"; Gemini and DeepL: longer than 20; Google: always; the empty key is valid only for Google |
| Providers.SupportedLanguages | src/translate/providers.py:245-246 | twelve codes for ChatGPT, Gemini and Google; DeepL's list stops before "ar" |
| Providers.SupportedLanguagesFacts | src/translate/providers.py:95-97 | DeepL's list is Google's without "ar"; each provider's list has no duplicates and covers the defaults |
| Providers.DeepLCodeIsUpper | src/translate/providers.py:180-192 | the DeepL code is the `LANG_MAP` entry if present, else the upper-cased input, which coincide on this map |
| Providers.DeepLCode | src/translate/providers.py:228-229 | `LANG_MAP.get(code, code.upper())` |
| Providers.LangMapCoversDeepL | src/translate/providers.py:180-192 | `LANG_MAP` has an entry exactly for DeepL's supported languages |
| Providers.LastVisible | src/translate/providers.py:200-201 | the "last character after rstrip" is empty iff the string is blank, otherwise non-whitespace |
| Providers.RStripBlank | src/translate/providers.py:200-201 | `rstrip` is empty iff the string is blank |
| Providers.IsPunctuationChar | src/translate/providers.py:206 | for one character, substring membership in ".!?:;," is ordinary membership |
| Providers.FixPunctuation | src/translate/providers.py:194-217 | `_fix_punctuation` branch by branch; its cases are stated in the four lemmas below |
| Providers.RStripKeepsVisibleEnd | src/translate/providers.py:209-212 | `rstrip` leaves a string that ends in a visible character alone |
| Providers.FixPunctuationKeepsMark | src/translate/providers.py:203-212 | when the original ends in a punctuation mark, a non-blank translation ends in that same mark afterwards |
| Providers.FixPunctuationDropsMark | src/translate/providers.py:213-215 | an original without a final mark and a translation with one: the mark is dropped after `rstrip` |
| Providers.FixPunctuationUnchanged | src/translate/providers.py:196-197 | either argument empty (or endings that already agree): the translation is returned unchanged |
| Providers.FixPunctuationBlankTranslation | src/translate/providers.py:200-212 | a whitespace-only translation's empty "last character" counts as punctuation |
| Providers.ConcatSnoc | src/translate/providers.py:165 | the `"".join` of one more part appends that part |
| Providers.JoinParts | src/translate/providers.py:158-165 | Google's accumulation loop yields the concatenation of the parts |
| Providers.Outcome | src/translate/providers.py:67-240 | a non-200 status is that provider's error; else Google gives the concatenation, ChatGPT/Gemini the stripped first text, DeepL the punctuation-fixed first text, and a missing first item the index error |
| Providers.OutcomeTrimmed | src/translate/providers.py:89 | a ChatGPT or Gemini translation has no surrounding whitespace |
| Providers.StatusErrorNamesProvider | src/translate/providers.py:82-84 | each HTTP error message contains its provider's error prefix |
| Providers.StatusError | src/translate/providers.py:84-86 | the HTTP error text: the provider's prefix and the status, with the body except for Google |
| Providers.ErrorPrefixInjective | src/translate/providers.py:82-84 | different providers have different error prefixes |
| Providers.Translate | src/translate/providers.py:67-240 | the provider call returns the reply's `Outcome` |
| Translation.MissingKeyMessage | src/translate/engine.py:142 | the missing-key error mentions "API anahtarı" |
| Translation.KeyLookup | src/translate/engine.py:79-88 | the plain key wins; else the decrypted token; a token that fails to decrypt raises; no key at all is None |
| Translation.ResolveKey | src/translate/engine.py:133-144 | the key of the instance `translate` uses: an existing instance's, the empty key for Google, else a looked-up non-empty key or the missing-key error |
| Translation.ResolveKeyMissing | src/translate/engine.py:133-144 | Google always resolves; any other provider fails with the missing-key message exactly when it has no instance and no key |
| Translation.DecideHitIgnoresProvider | src/translate/engine.py:120-130 | a cache hit yields a cached result whatever the provider would have done |
| Translation.Decide | src/translate/engine.py:117-163 | `translate` as a choice: a cache hit, else the key failure, else the provider failure, else the fresh translation |
| Translation.DecideMiss | src/translate/engine.py:133-163 | on a miss the result is uncached and carries the original text, or is the resolution/provider error |
| Translation.TranslationEngine.constructor | src/translate/engine.py:26-40 | provider Google, languages en→tr, no keys, and a Google instance already present |
| Translation.TranslationEngine.SetProvider | src/translate/engine.py:55-62 | only the provider changes, so `get_provider` returns it |
| Translation.TranslationEngine.GetProvider | src/translate/engine.py:60-62 | the active provider |
| Translation.TranslationEngine.SetLanguages | src/translate/engine.py:64-67 | only the language pair changes |
| Translation.TranslationEngine.UpdateProviderInstance | src/translate/engine.py:105-115 | the provider's instance is rebuilt with the key; nothing else changes |
| Translation.TranslationEngine.SetApiKey | src/translate/engine.py:69-77 | stores the plain key, its encryption and a fresh instance for that provider |
| Translation.TranslationEngine.GetApiKey | src/translate/engine.py:79-88 | the key as `KeyLookup` finds it in the two stores |
| Translation.TranslationEngine.SetEncryptedKey | src/translate/engine.py:90-99 | stores the token; if it decrypts, the plain key and instance too, otherwise nothing else |
| Translation.TranslationEngine.GetEncryptedKey | src/translate/engine.py:101-103 | the stored token exactly when one exists |
| Translation.TranslationEngine.GetSupportedLanguages | src/translate/engine.py:165-174 | the instance's list for the given or active provider, else the eight defaults |
| Translation.TranslationEngine.CacheHit | src/translate/engine.py:120-125 | a hit exactly when an enabled cache holds a non-empty translation; an empty one counts as a miss |
| Translation.TranslationEngine.Translate | src/translate/engine.py:117-163 | the result is the cache-first decision; an instance is added only when resolution created one; an enabled cache gains the new translation tagged with the provider |
| Translation.TransferKey | src/translate/engine.py:69-103 | with invertible encryption, a token moved to another engine restores the same key in both |
| Translation.TranslateTwice | src/translate/engine.py:117-163 | with the cache enabled, a non-empty uncached translation is served from the cache the second time |
| Hotkeys.DefaultsFacts | src/utils/hotkey_manager.py:16-38 | default ids and keys are pairwise distinct, each entry keys its own action, and no default key is blocked |
| Hotkeys.DefaultIdsDistinct | src/utils/hotkey_manager.py:16-32 | default action ids are distinct |
| Hotkeys.DefaultKeysDistinct | src/utils/hotkey_manager.py:16-32 | default keys are distinct |
| Hotkeys.DefaultKeysNotBlocked | src/utils/hotkey_manager.py:16-38 | no default key is in `BLOCKED_KEYS` |
| Hotkeys.Find | src/utils/hotkey_manager.py:121-125 | finds an entry with that id, or None iff there is none |
| Hotkeys.FindUnique | src/utils/hotkey_manager.py:121-125 | with distinct ids the lookup finds exactly the given entry |
| Hotkeys.FindSameIds | src/utils/hotkey_manager.py:121-125 | tables with the same ids in the same order find the same position |
| Hotkeys.KeysOnlyKeepsValid | src/utils/hotkey_manager.py:138-143 | changing only keys keeps ids distinct and entries consistent |
| Hotkeys.Overlay | src/utils/hotkey_manager.py:63-78 | loading overlays a saved key onto each default action present in the file and changes nothing else |
| Hotkeys.SaveLoadRoundTrip | src/utils/hotkey_manager.py:63-87 | loading what `_save_hotkeys` wrote restores the table |
| Hotkeys.SaveData | src/utils/hotkey_manager.py:80-87 | the saved file maps each action id to its key |
| Hotkeys.OverlayIgnoresUnknownIds | src/utils/hotkey_manager.py:71-74 | saved entries for unknown action ids are ignored |
| Hotkeys.Rekey | src/utils/hotkey_manager.py:138-143 | only the named action's key changes |
| Hotkeys.RekeyPreservesDistinct | src/utils/hotkey_manager.py:127-144 | when no other action holds the key, re-keying keeps keys distinct |
| Hotkeys.ResetSingleCanDuplicate | src/utils/hotkey_manager.py:185-191 | a concrete sequence through `set_hotkey` and `reset_single` leaves two actions on one key |
| Hotkeys.FirstAppearances | src/utils/hotkey_manager.py:150-157 | each category listed exactly once, exactly those present |
| Hotkeys.FirstAppearancesOrder | src/utils/hotkey_manager.py:150-157 | categories are listed in first-appearance order |
| Hotkeys.FirstAppearancesSnoc | src/utils/hotkey_manager.py:150-157 | one more entry adds its category only if it is new |
| Hotkeys.ByCategory | src/utils/hotkey_manager.py:159-164 | exactly the entries of that category |
| Hotkeys.ByCategoryAppend | src/utils/hotkey_manager.py:159-164 | the category filter distributes over concatenation, so the actions come in table order |
| Hotkeys.MergeStep | src/utils/hotkey_manager.py:71-74 | merging one more saved entry extends the loop invariant to that id |
| Hotkeys.MergeSaved | src/utils/hotkey_manager.py:71-74 | the merge loop computes the saved-file overlay |
| Hotkeys.HotkeyManager.constructor | src/utils/hotkey_manager.py:50-78 | starts from the defaults with a saved file overlaid when one is readable |
| Hotkeys.HotkeyManager.LoadSaved | src/utils/hotkey_manager.py:63-78 | overlays saved keys onto the table |
| Hotkeys.HotkeyManager.Save | src/utils/hotkey_manager.py:80-87 | the file holds the table's save data and the table is unchanged |
| Hotkeys.HotkeyManager.GetHotkey | src/utils/hotkey_manager.py:121-125 | a key exactly for a known action, namely that action's key |
| Hotkeys.HotkeyManager.GetAllHotkeys | src/utils/hotkey_manager.py:146-148 | the whole action table |
| Hotkeys.HotkeyManager.IsBlockedKey | src/utils/hotkey_manager.py:173-175 | a key is blocked exactly when it is in `BLOCKED_KEYS` |
| Hotkeys.HotkeyManager.CheckConflict | src/utils/hotkey_manager.py:166-171 | None iff no action other than the excluded one holds the key, else such an action |
| Hotkeys.HotkeyManager.SetHotkey | src/utils/hotkey_manager.py:127-144 | fails and changes nothing for a blocked key, a conflicting key or an unknown id; on success only that key changes, the file is saved, and key distinctness is preserved |
| Hotkeys.HotkeyManager.GetCategories | src/utils/hotkey_manager.py:150-157 | the loop lists categories in first-appearance order without repeats |
| Hotkeys.HotkeyManager.GetHotkeysByCategory | src/utils/hotkey_manager.py:159-164 | the actions of one category, in table order, as `ByCategory` gives them |
| Hotkeys.HotkeyManager.ResetToDefaults | src/utils/hotkey_manager.py:177-183 | the table becomes the defaults and is saved |
| Hotkeys.HotkeyManager.ResetSingle | src/utils/hotkey_manager.py:185-191 | a known action gets its default key back without a conflict check; an unknown id changes nothing |
| Config.StrItemsRoundTrip | src/utils/config.py:107-129 | a list of strings written to JSON reads back unchanged |
| Config.OcrToDict | src/utils/config.py:110 | the `ocr` section has exactly the four attribute keys |
| Config.TranslationToDict | src/utils/config.py:111 | the `translation` section has exactly the four attribute keys |
| Config.OverlayToDict | src/utils/config.py:112-125 | the `overlay` section has exactly the twelve attribute keys |
| Config.SystemToDict | src/utils/config.py:126 | the `system` section has exactly the three attribute keys |
| Config.RegionToDict | src/utils/config.py:127 | the `region` section has exactly the seven attribute keys |
| Config.ConfigToDict | src/utils/config.py:107-130 | `_config_to_dict`: one object per section, plus the regions list |
| Config.DefaultConfig | src/utils/config.py:206-208 | `create_default_config()`: the dataclass defaults |
| Config.DictToConfig | src/utils/config.py:132-203 | decoding succeeds only for a JSON object |
| Config.DecodeSections | src/utils/config.py:132-203 | each section is read over its default, and a section that is not an object fails |
| Config.OcrFrom | src/utils/config.py:134-140 | the OCR keys read over a base section |
| Config.TranslationFrom | src/utils/config.py:142-150 | the translation keys read over a base section |
| Config.OverlayFrom | src/utils/config.py:152-170 | the overlay keys, with the position pair, read over a base section |
| Config.SystemFrom | src/utils/config.py:172-177 | the system keys read over a base section |
| Config.RegionFrom | src/utils/config.py:179-188 | the region keys read over a base section |
| Config.OcrRoundTrip | src/utils/config.py:134-139 | the `ocr` section reads back unchanged |
| Config.TranslationRoundTrip | src/utils/config.py:142-150 | the `translation` section reads back unchanged |
| Config.OverlayRoundTrip | src/utils/config.py:152-171 | the `overlay` section, position included, reads back unchanged |
| Config.SystemRoundTrip | src/utils/config.py:173-178 | the `system` section reads back unchanged |
| Config.RegionRoundTrip | src/utils/config.py:180-189 | the `region` section reads back unchanged |
| Config.ConfigRoundTrip | src/utils/config.py:107-203 | `_dict_to_config(_config_to_dict(c)) == c` for every configuration |
| Config.SectionsRoundTrip | src/utils/config.py:132-203 | decoding the encoded sections reproduces the configuration from any base |
| Config.StoredSections | src/utils/config.py:109-129 | each encoded section is an object holding that section's dict |
| Config.StoredPosition | src/utils/config.py:124 | the encoded overlay holds the position as an object |
| Config.EmptyDictDefaults | src/utils/config.py:132-208 | decoding `{}` gives the decode defaults (provider gemini, position (100,100), OCR languages en/ja/ko/zh), which differ from `create_default_config()` |
| Config.NonObjectSectionFails | src/utils/config.py:132-195 | a section present but not an object makes decoding fail |
| Config.UpdatesIgnoreOtherKeys | src/utils/config.py:245-275 | keyword names that are not attributes are ignored |
| Config.EmptyUpdateIsIdentity | src/utils/config.py:245-275 | an update with no keywords changes nothing |
| Config.ApplyKeywords | src/utils/config.py:248-250 | the keyword loop computes the section decoded from the keywords over the old section, whatever the iteration order |
| Config.ReadSteps | src/utils/config.py:248-250 | reading a field from one more keyword is reading it from that keyword over the rest |
| Config.BoolStep | src/utils/config.py:248-250 | the same, for boolean attributes |
| Config.StrStep | src/utils/config.py:248-250 | the same, for string attributes |
| Config.OcrStep | src/utils/config.py:245-251 | one more keyword updates the OCR section one `setattr` at a time |
| Config.TranslationStep | src/utils/config.py:253-259 | one more keyword updates the translation section one `setattr` at a time |
| Config.OverlayStep | src/utils/config.py:261-267 | one more keyword updates the overlay section one `setattr` at a time |
| Config.RegionStep | src/utils/config.py:269-275 | one more keyword updates the region section one `setattr` at a time |
| Config.UpdateOcr | src/utils/config.py:245-251 | the `update_ocr` keyword loop yields the OCR section read from the keywords over the old one |
| Config.UpdateTranslation | src/utils/config.py:253-259 | the `update_translation` keyword loop yields the section read from the keywords over the old one |
| Config.UpdateOverlay | src/utils/config.py:261-267 | the `update_overlay` keyword loop yields the section read from the keywords over the old one |
| Config.UpdateRegion | src/utils/config.py:269-275 | the `update_region` keyword loop yields the section read from the keywords over the old one |
| Config.ApplyUpdate | src/utils/config.py:245-275 | the targeted section alone takes the keywords; the other sections are unchanged |
| Config.DecodeObjects | src/utils/config.py:132-203 | when every section is a dictionary, each section is read over its default |
| Config.OcrIgnoresOtherKeys | src/utils/config.py:245-251 | keys that are not OCR attributes do not affect the OCR section |
| Config.TranslationIgnoresOtherKeys | src/utils/config.py:253-259 | keys that are not translation attributes do not affect the translation section |
| Config.OverlayIgnoresOtherKeys | src/utils/config.py:261-267 | keys that are not overlay attributes do not affect the overlay section |
| Config.RegionIgnoresOtherKeys | src/utils/config.py:269-275 | keys that are not region attributes do not affect the region section |
| Config.ConfigManager.constructor | src/utils/config.py:100-104 | a manager starts with nothing loaded |
| Config.ConfigManager.Save | src/utils/config.py:226-237 | the configuration is held and the file holds its dict |
| Config.ConfigManager.Load | src/utils/config.py:210-224 | a stored file is decoded; an absent or unparseable file yields the defaults, which are saved; a failed decode changes nothing |
| Config.ConfigManager.GetConfig | src/utils/config.py:239-243 | returns the held configuration, loading it first when none is held |
| Config.ConfigManager.Update | src/utils/config.py:245-275 | the target section takes the attribute keywords and the result is saved; errors leave everything unchanged |
| Config.ConfigManager.UpdateRegions | src/utils/config.py:277-281 | the regions list is replaced and saved |
| Config.ConfigManager.GetRegions | src/utils/config.py:283-286 | returns the current regions list |
| Config.SaveThenReload | src/utils/config.py:107-237 | a saved configuration loads back unchanged |
| Config.UpdateRegionsThenGet | src/utils/config.py:277-286 | `update_regions(rs)` then `get_regions()` returns `rs` |
| Config.FirstLoadWithoutFile | src/utils/config.py:206-224 | without a file the first load gives `create_default_config()` and writes it |
| Ocr.FilterSupported | src/ocr/engine.py:77-80 | keeps exactly the supported codes, never more than the input |
| Ocr.FilterAppend | src/ocr/engine.py:77-80 | the filter distributes over concatenation, so input order is kept |
| Ocr.FilterKeepsSupported | src/ocr/engine.py:77-80 | a list of supported codes passes unchanged |
| Ocr.ValidLanguages | src/ocr/engine.py:77-82 | a non-empty list of supported codes: the filtered list, or `["en"]` when none survive |
| Ocr.ChineseDropped | src/ocr/engine.py:77-82 | "zh" never survives, and `["zh"]` becomes `["en"]` |
| Ocr.MinOf | src/ocr/engine.py:155-160 | the minimum is an element below all others |
| Ocr.MaxOf | src/ocr/engine.py:155-160 | the maximum is an element above all others |
| Ocr.BoxOf | src/ocr/engine.py:154-161 | the box is normalised, contains every polygon point, and each side touches a point |
| Ocr.KeptBoxesNormalised | src/ocr/engine.py:147-162 | every reported box has x0≤x1 and y0≤y1, and there is at most one box per kept text |
| Ocr.UnconfidentIgnored | src/ocr/engine.py:151 | a detection under the confidence bar adds neither text nor box |
| Ocr.KeptTexts | src/ocr/engine.py:147-152 | the texts of the confident detections, in order |
| Ocr.KeptBoxes | src/ocr/engine.py:147-162 | the boxes of the confident detections that have a polygon, in order |
| Ocr.Recognised | src/ocr/engine.py:139-181 | the joined kept texts and boxes, or the empty result when the reader raised |
| Ocr.OcrEngine.constructor | src/ocr/engine.py:40-45 | given or default configuration, not initialised |
| Ocr.OcrEngine.SetLanguages | src/ocr/engine.py:75-85 | the valid list replaces the languages and clears the initialised flag exactly when it is a different set |
| Ocr.OcrEngine.GetLanguages | src/ocr/engine.py:87-89 | the configured languages |
| Ocr.OcrEngine.SetSpeed | src/ocr/engine.py:91-93 | only the speed changes |
| Ocr.OcrEngine.GetSpeed | src/ocr/engine.py:95-97 | the configured speed |
| Ocr.OcrEngine.EnableGpu | src/ocr/engine.py:99-103 | the flag is set, and initialisation is cleared exactly when it changes |
| Ocr.InitFailureMessage | src/ocr/engine.py:61-64 | an `ImportError` gives the fixed install hint; any other failure the prefix followed by its own message |
| Ocr.InitFailureDistinguished | src/ocr/engine.py:61-64 | the message tells the two kinds of failure apart: only an `ImportError` gives the install hint, which never carries the prefix |
| Ocr.OcrEngine.InitReader | src/ocr/engine.py:47-64 | success marks the engine initialised; an `ImportError` raises the fixed install hint, any other failure "OCR başlatma hatası: " followed by its message; the configuration is kept |
| Ocr.OcrEngine.IsInitialized | src/ocr/engine.py:183-185 | whether the reader is built |
| Ocr.OcrEngine.ProcessImage | src/ocr/engine.py:131-181 | an uninitialised engine's init failure propagates with the message `_init_reader` raises; otherwise the result is the space-joined confident texts and their boxes, or empty on a reader exception |
| Ocr.SetThenGet | src/ocr/engine.py:87-97 | `set_speed(s)` then `get_speed()` gives s; `get_languages` holds exactly the valid codes |
| Ocr.EnableGpuIdempotent | src/ocr/engine.py:99-103 | enabling the same value twice clears initialisation at most once |
| Overlay.Clamp | src/overlay/overlay_window.py:211-213 | the clamped value lies in range, equals the input within range, and equals the nearer bound outside it |
| Overlay.ClampIdempotent | src/overlay/overlay_window.py:211-213 | clamping twice is clamping once |
| Overlay.OverlayWindow.constructor | src/overlay/overlay_window.py:30-52 | given or default configuration, empty text, hidden, nothing pending, styling copies at their own defaults |
| Overlay.OverlayWindow.GetConfig | src/overlay/overlay_window.py:301-313 | font and position from the configuration; background, glow and colours from the styling copies |
| Overlay.OverlayWindow.SetFontSize | src/overlay/overlay_window.py:211-216 | the stored and reported size is the input clamped to [10, 72]; every other field of the window is kept |
| Overlay.OverlayWindow.GetFontSize | src/overlay/overlay_window.py:215-216 | the configured size |
| Overlay.OverlayWindow.SetFontFamily | src/overlay/overlay_window.py:218-223 | only the font family changes; every other field of the window is kept |
| Overlay.OverlayWindow.GetFontFamily | src/overlay/overlay_window.py:222-223 | the configured family |
| Overlay.OverlayWindow.SetPosition | src/overlay/overlay_window.py:225-232 | `get_position` returns (x, y); every other field of the window is kept |
| Overlay.OverlayWindow.GetPosition | src/overlay/overlay_window.py:231-232 | the configured position |
| Overlay.OverlayWindow.SetBackgroundBlur | src/overlay/overlay_window.py:234-239 | only the background copy changes, and the reported configuration follows it; every other field of the window is kept |
| Overlay.OverlayWindow.GetBackgroundBlur | src/overlay/overlay_window.py:238-239 | the background copy |
| Overlay.OverlayWindow.SetGlowEffect | src/overlay/overlay_window.py:241-244 | both the glow copy and the configuration change; every other field of the window is kept |
| Overlay.OverlayWindow.SetTextColor | src/overlay/overlay_window.py:246-249 | both copies of the text colour change; every other field of the window is kept |
| Overlay.OverlayWindow.SetBgColor | src/overlay/overlay_window.py:251-254 | both copies of the background colour change; every other field of the window is kept |
| Overlay.OverlayWindow.SetGlowColor | src/overlay/overlay_window.py:256-259 | both copies of the glow colour change; every other field of the window is kept |
| Overlay.OverlayWindow.SetBold | src/overlay/overlay_window.py:261-263 | only the bold flag changes; every other field of the window is kept |
| Overlay.OverlayWindow.SetItalic | src/overlay/overlay_window.py:265-267 | only the italic flag changes; every other field of the window is kept |
| Overlay.OverlayWindow.SetTextShadow | src/overlay/overlay_window.py:269-271 | only the shadow flag changes; every other field of the window is kept |
| Overlay.OverlayWindow.SetText | src/overlay/overlay_window.py:273-285 | the text and the pending slot both become t; every other field of the window is kept |
| Overlay.OverlayWindow.GetText | src/overlay/overlay_window.py:284-285 | the last text set |
| Overlay.OverlayWindow.CheckPendingText | src/overlay/overlay_window.py:81-85 | a pending text is taken out of the slot and shown; an empty slot changes nothing; every other field of the window is kept |
| Overlay.OverlayWindow.ShowOverlay | src/overlay/overlay_window.py:287-291 | the overlay becomes visible; every other field of the window is kept |
| Overlay.OverlayWindow.HideOverlay | src/overlay/overlay_window.py:293-296 | the overlay becomes hidden; every other field of the window is kept |
| Overlay.OverlayWindow.IsVisible | src/overlay/overlay_window.py:298-299 | whether the overlay is shown |
| Overlay.LastWriteWins | src/overlay/overlay_window.py:81-85 | two `set_text` calls before the poll show only the second |
| Overlay.PollTwice | src/overlay/overlay_window.py:81-85 | a second poll with nothing pending changes nothing |
| Overlay.FontSizeClamped | src/overlay/overlay_window.py:211-216 | 8 is stored as 10 and 100 as 72 |
| Overlay.ConfiguredColoursIgnored | src/overlay/overlay_window.py:30-52 | a window built from any configuration reports the default colours and the configured font size |
| App.PointInsideOnly | src/app_controller.py:94-104 | a zero-size box hits an area only when strictly inside it |
| App.Overlaps | src/app_controller.py:96-102 | strict rectangle overlap on both axes, a missing area coordinate reading as 0 |
| App.InExclusion | src/app_controller.py:94-104 | some exclusion area overlaps the box |
| App.OverlapSymmetric | src/app_controller.py:101-102 | rectangle overlap is symmetric |
| App.EmptyAreaCaughtInside | src/app_controller.py:101-102 | a zero-size area catches a box only when strictly inside it |
| App.Contribution | src/app_controller.py:237-272 | a region contributes exactly when OCR succeeds, the text is not blank and no shifted box hits an area; it then contributes its stripped text |
| App.FrameTexts | src/app_controller.py:237-272 | the regions' contributions in region order |
| App.FrameRegions | src/app_controller.py:225-233 | the enabled regions, else the current region alone, else none |
| App.FrameTextsStripped | src/app_controller.py:237-272 | at most one non-empty stripped text per region |
| App.AllExcludedKeepsNothing | src/app_controller.py:237-272 | if every region fails or is excluded, nothing is kept |
| App.FrameCandidate | src/app_controller.py:274-293 | a frame proposes a text exactly when there are regions, some text is kept and the joined kept texts differ from the last text; the proposal is that joined text |
| App.OverlayMessage | src/app_controller.py:309-325 | success shows the translation; an error mentioning "API anahtarı" shows the key warning, any other the generic failure |
| App.MissingKeyShowsWarning | src/app_controller.py:322-323 | the engine's missing-key error shows the key warning |
| App.Take | src/app_controller.py:178 | `s[:n]` is a prefix of at most n characters, the whole string when short enough |
| App.WaitMs | src/app_controller.py:205-209 | the wait is never negative, and fills up exactly to the interval when positive |
| App.ApplicationController.constructor | src/app_controller.py:33-63 | IDLE, counters zero, nothing wired, no callbacks |
| App.ApplicationController.SetOcrEngine | src/app_controller.py:66-68 | only the OCR engine reference changes; the run state, rate, counters and callback traces are kept |
| App.ApplicationController.SetTranslationEngine | src/app_controller.py:70-72 | only the translator reference changes; the run state, rate, counters and callback traces are kept |
| App.ApplicationController.SetRegionSelector | src/app_controller.py:78-80 | only the region selector reference changes; the run state, rate, counters and callback traces are kept |
| App.ApplicationController.SetOverlayWindow | src/app_controller.py:82-84 | only the overlay reference changes; the run state, rate, counters and callback traces are kept |
| App.ApplicationController.SetExclusionAreas | src/app_controller.py:86-88 | only the exclusion areas changes; the run state, rate, counters and callback traces are kept |
| App.ApplicationController.RegisterCallbacks | src/app_controller.py:327-337 | only the callback registrations change; the run state, rate, counters and callback traces are kept |
| App.ApplicationController.IsInExclusionArea | src/app_controller.py:94-104 | the scan answers whether some area overlaps the box |
| App.ApplicationController.GetState | src/app_controller.py:156-158 | the current state |
| App.ApplicationController.Candidate | src/app_controller.py:220-293 | the frame's candidate: none without a selector, an engine and readiness, else `FrameCandidate` of the frame's regions |
| App.ApplicationController.Start | src/app_controller.py:106-123 | a no-op exactly when RUNNING; otherwise RUNNING with counters, last text and readiness reset, and the state callback fires; the other traces and the rate are kept |
| App.ApplicationController.Stop | src/app_controller.py:125-140 | a no-op exactly when IDLE; otherwise IDLE, fps 0, not ready, and the callback fires; the frame count, last text and the other traces are kept |
| App.ApplicationController.Pause | src/app_controller.py:142-147 | only RUNNING→PAUSED, with the callback only on that transition; everything else is kept |
| App.ApplicationController.Resume | src/app_controller.py:149-154 | only PAUSED→RUNNING, with the callback only on that transition; everything else is kept |
| App.ApplicationController.UpdateOverlay | src/app_controller.py:211-218 | a wired overlay gets the text as its text and pending text; nothing else of the overlay changes |
| App.ApplicationController.BuildReader | src/app_controller.py:170-171 | the reader is built only for an engine that is not initialised yet; the error is the message `_init_reader` raises, and the engine is initialised exactly when nothing failed |
| App.ApplicationController.InitStep | src/app_controller.py:167-179 | with the reader built or already there, ready and the ready message posted; on an init failure the first 50 characters of its message (install hint or prefixed error) are posted and the loop ends; the overlay ends with exactly that one message posted, and the rate, counters and traces are kept |
| App.ApplicationController.RegionExcluded | src/app_controller.py:254-267 | the box loop answers whether any shifted box hits an area |
| App.ApplicationController.ScanRegions | src/app_controller.py:237-272 | the region loop collects the frame's texts; the engine ends initialised iff it was or some region's OCR call returned, and its configuration is kept |
| App.ApplicationController.Publish | src/app_controller.py:274-293 | no candidate: nothing changes; a candidate becomes the last text, is reported and translated once, and the overlay's only change is the posted message for the outcome |
| App.ApplicationController.ProcessFrame | src/app_controller.py:220-293 | without a selector, an engine and readiness nothing happens; otherwise the frame's candidate is published, and an uninitialised engine rebuilds its reader iff a scanned region's OCR call returns |
| App.ApplicationController.TranslateText | src/app_controller.py:295-325 | one translation request, the overlay message for its outcome posted with nothing else of the overlay changed, and the completion callback on success |
| App.ApplicationController.Step | src/app_controller.py:181-209 | paused: poll after 100 ms, idle: stop, changing nothing either way; running: process one frame and count it, and once a second has passed set the rate to the count over the elapsed time and restart the count; then wait out the interval; the overlay changes only as the frame's publication posts, and the engine's reader is rebuilt only by a running frame, as in `ProcessFrame` |
| App.StartThenStop | src/app_controller.py:106-140 | a fresh controller started and stopped reports RUNNING then IDLE |
| App.PauseResume | src/app_controller.py:142-154 | pause then resume returns to RUNNING, reporting PAUSED and RUNNING |
| App.StartFromPaused | src/app_controller.py:106-116 | start from PAUSED re-enters RUNNING and resets the counters |
| App.IdenticalFramesTranslateOnce | src/app_controller.py:274-293 | two identical consecutive frames translate at most once |

## Left out

- Threads, `_stop_event`, `join(timeout=2.0)` and `time.sleep`: the worker becomes explicit `InitStep`/`Step` calls, one at a time.
- The second worker thread that `start` spawns when called from PAUSED: the model keeps one worker.
- The wall clock: `time.time()` differences become the parameters `processingMs` and `elapsedSeconds`. The rate is an exact real quotient, not a float.
- `asyncio`, `aiohttp` and the providers' HTTP requests: replies and translation outcomes are parameters.
- The controller's translator is a presence flag with an outcome parameter. The controller does not drive the `Translation.TranslationEngine` class itself.
- SQLite in the cache, JSON file reading and writing in the configuration and hotkey files, and `QShortcut` registration: they are foreign I/O. Files are values (`ConfigFile`, `HotkeyFile`).
- Screen capture with `mss`/PIL, monitor enumeration, EasyOCR and the torch GPU probe: these are foreign libraries. Their results are parameters.
- Fernet and PBKDF2: modelled as a pair of functions assumed invertible where a property needs it.
- Opacity and confidence-threshold clamps, and the average confidence: these are floating point.
- The 0.3 confidence filter: it is a per-detection `confident` flag.
- The `int()` truncation of OCR coordinates: points are already integers.
- Ill-typed JSON values: the typed readers fall back to the default, where Python would store the raw value.
- Position given to `update_overlay`: a `position` keyword holding a dict is parsed as a position. Python's `setattr` would store the dict itself. `update_overlay` would then call `save`, which sets the held configuration first and then fails in `asdict` on the dict (src/utils/config.py:124, 228-229). So the file stays unchanged while the held configuration keeps the dict, and the `TypeError` escapes to the caller.
- Exclusion areas that are not dicts: areas are JSON objects.
- Aliasing: configuration objects handed out by `get_config` are values, and so are `Region` objects shared between the list and the current region.
- Qt widgets: `_ensure_widget`, drag handling and the label update in `_do_set_text` are widget code. `shown` stands for the label text.
- `str.upper` on non-ASCII letters: only ASCII letters are upper-cased.
- Non-dict entries in a saved hotkey file and ill-typed `key` fields: saved entries are typed.
- A saved hotkey file whose top level is valid JSON but not an object: `saved.items()` raises `AttributeError`, which the handler for `JSONDecodeError` and `IOError` does not catch, so the constructor fails (src/utils/hotkey_manager.py:71). `HotkeyFile` only has no file, an unreadable file and a stored object.
- ValidateApiKey: returns a bool. For an empty key the source returns the falsy `""` (or `None`), and callers only test the result for truth.
- Outcomes for regions beyond the list given to `ProcessFrame`: they read as failed captures.
- Callbacks (the controller's three and the selector's completion callback): only their registration and the trace of their arguments are modelled, not what the called code does.
- `set_cache_manager` on the controller: the controller never reads the cache it is given.
- Logging and `print`: side effects only.
