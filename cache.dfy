/** The translation cache: a table keyed by (source text, source language,
    target language) holding the translation and the provider that produced
    it, gated by an enable flag. The SQL table becomes a map. */
module Cache {
  import opened Wrappers

  datatype CacheKey = CacheKey(sourceText: string, sourceLang: string, targetLang: string)

  datatype CacheValue = CacheValue(translatedText: string, provider: string)

  /** `CacheEntry` without its wall-clock timestamp. */
  datatype CacheEntry = CacheEntry(sourceText: string, translatedText: string,
                                   sourceLang: string, targetLang: string, provider: string)

  /** `get_stats`: the total and the two GROUP BY tallies, as (group, count) rows. */
  datatype CacheStats = CacheStats(totalEntries: nat,
                                   byProvider: seq<(string, nat)>,
                                   byLanguagePair: seq<((string, string), nat)>)

  /** The keys of `m` whose group is `g`. */
  ghost function KeysIn<K, G>(m: map<K, G>, g: G): set<K> {
    set k | k in m && m[k] == g
  }

  /** The keys of `done` whose group in `m` is `g`. */
  ghost function KeysInPart<K, G>(m: map<K, G>, done: set<K>, g: G): set<K> {
    set k | k in done && k in m && m[k] == g
  }

  /** The count a tally holds for `g` (0 when `g` has no row). */
  function CountOf<G(==)>(groups: seq<(G, nat)>, g: G): nat {
    if groups == [] then 0
    else if groups[0].0 == g then groups[0].1
    else CountOf(groups[1..], g)
  }

  /** The sum of a tally's counts. */
  function Total<G>(groups: seq<(G, nat)>): nat {
    if groups == [] then 0 else groups[0].1 + Total(groups[1..])
  }

  predicate DistinctGroups<G(==)>(groups: seq<(G, nat)>) {
    forall i, j :: 0 <= i < j < |groups| ==> groups[i].0 != groups[j].0
  }

  predicate HasRow<G(==)>(groups: seq<(G, nat)>, g: G) {
    exists i :: 0 <= i < |groups| && groups[i].0 == g
  }

  /** Add one to the row of `g`, or add the row `(g, 1)` at the end. */
  function Bump<G(==,!new)>(groups: seq<(G, nat)>, g: G): (r: seq<(G, nat)>)
    ensures Total(r) == Total(groups) + 1
    ensures CountOf(r, g) == CountOf(groups, g) + 1
    ensures forall h :: h != g ==> CountOf(r, h) == CountOf(groups, h)
    ensures forall h :: HasRow(r, h) <==> HasRow(groups, h) || h == g
    ensures DistinctGroups(groups) ==> DistinctGroups(r)
  {
    if groups == [] then [(g, 1)]
    else if groups[0].0 == g then [(g, groups[0].1 + 1)] + groups[1..]
    else
      var rest := Bump(groups[1..], g);
      var r := [groups[0]] + rest;
      assert forall h :: HasRow(r, h) <==> h == groups[0].0 || HasRow(rest, h) by {
        forall h ensures HasRow(r, h) <==> h == groups[0].0 || HasRow(rest, h) {
          assert r[0].0 == groups[0].0;
          if HasRow(rest, h) {
            var i :| 0 <= i < |rest| && rest[i].0 == h;
            assert r[i + 1].0 == h;
          }
          if HasRow(r, h) && h != groups[0].0 {
            var i :| 0 <= i < |r| && r[i].0 == h;
            assert rest[i - 1].0 == h;
          }
        }
      }
      assert forall h :: HasRow(groups, h) <==> h == groups[0].0 || HasRow(groups[1..], h) by {
        forall h ensures HasRow(groups, h) <==> h == groups[0].0 || HasRow(groups[1..], h) {
          if HasRow(groups[1..], h) {
            var i :| 0 <= i < |groups[1..]| && groups[1..][i].0 == h;
            assert groups[i + 1].0 == h;
          }
          if HasRow(groups, h) && h != groups[0].0 {
            var i :| 0 <= i < |groups| && groups[i].0 == h;
            assert groups[1..][i - 1].0 == h;
          }
        }
      }
      assert DistinctGroups(groups) ==> DistinctGroups(r) by {
        if DistinctGroups(groups) {
          assert !HasRow(groups[1..], groups[0].0);
          assert DistinctGroups(groups[1..]);
        }
      }
      r
  }

  /** In a tally without repeated groups, the row for `g` holds `CountOf(g)`. */
  lemma {:induction false} CountOfRow<G>(groups: seq<(G, nat)>, i: nat)
    requires DistinctGroups(groups) && i < |groups|
    ensures CountOf(groups, groups[i].0) == groups[i].1
  {
    if i > 0 {
      assert groups[1..][i - 1] == groups[i];
      CountOfRow(groups[1..], i - 1);
    }
  }

  /** Counting one more key keeps the tally's invariant. */
  lemma TallyStep<K, G(!new)>(m: map<K, G>, done: set<K>, k: K, groups: seq<(G, nat)>)
    requires k in m && k !in done && done <= m.Keys
    requires DistinctGroups(groups)
    requires forall g :: HasRow(groups, g) <==> exists j :: j in done && m[j] == g
    requires forall g :: CountOf(groups, g) == |KeysInPart(m, done, g)|
    requires Total(groups) == |done|
    ensures DistinctGroups(Bump(groups, m[k]))
    ensures forall g :: HasRow(Bump(groups, m[k]), g) <==> exists j :: j in done + {k} && m[j] == g
    ensures forall g :: CountOf(Bump(groups, m[k]), g) == |KeysInPart(m, done + {k}, g)|
    ensures Total(Bump(groups, m[k])) == |done + {k}|
  {
    var r := Bump(groups, m[k]);
    assert |done + {k}| == |done| + 1;
    forall h ensures CountOf(r, h) == |KeysInPart(m, done + {k}, h)| {
      KeysInPartStep(m, done, k, h);
    }
    forall h ensures HasRow(r, h) <==> exists j :: j in done + {k} && m[j] == h {
      GroupPresentStep(m, done, k, h);
    }
  }

  /** One more key counted: its own group gains exactly that key. */
  lemma KeysInPartStep<K, G>(m: map<K, G>, done: set<K>, k: K, h: G)
    requires k in m && k !in done
    ensures |KeysInPart(m, done + {k}, h)| == |KeysInPart(m, done, h)| + (if m[k] == h then 1 else 0)
  {
    if m[k] == h {
      assert KeysInPart(m, done + {k}, h) == KeysInPart(m, done, h) + {k};
    } else {
      assert KeysInPart(m, done + {k}, h) == KeysInPart(m, done, h);
    }
  }

  /** One more key counted: the groups present gain exactly its group. */
  lemma GroupPresentStep<K, G>(m: map<K, G>, done: set<K>, k: K, h: G)
    requires k in m && done <= m.Keys
    ensures (exists j :: j in done + {k} && m[j] == h) <==> (exists j :: j in done && m[j] == h) || m[k] == h
  {
    if exists j :: j in done + {k} && m[j] == h {
      var j :| j in done + {k} && m[j] == h;
      if j != k {
        assert j in done;
      }
    }
    if m[k] == h {
      assert k in done + {k};
    }
  }

  /** GROUP BY over a map: one row per group value, with the number of keys
      in that group; the counts add up to the number of keys. */
  method Tally<K, G(==,!new)>(m: map<K, G>) returns (groups: seq<(G, nat)>)
    ensures DistinctGroups(groups)
    ensures forall g :: HasRow(groups, g) <==> g in m.Values
    ensures forall g :: CountOf(groups, g) == |KeysIn(m, g)|
    ensures Total(groups) == |m|
  {
    groups := [];
    var rest := m.Keys;
    ghost var done: set<K> := {};
    while rest != {}
      invariant rest + done == m.Keys && rest !! done
      invariant DistinctGroups(groups)
      invariant forall g :: HasRow(groups, g) <==> exists k :: k in done && m[k] == g
      invariant forall g :: CountOf(groups, g) == |KeysInPart(m, done, g)|
      invariant Total(groups) == |done|
      decreases |rest|
    {
      var k :| k in rest;
      TallyStep(m, done, k, groups);
      groups := Bump(groups, m[k]);
      done, rest := done + {k}, rest - {k};
    }
    assert done == m.Keys;
    forall g ensures KeysInPart(m, done, g) == KeysIn(m, g) {
    }
    assert |done| == |m|;
  }

  class CacheManager {
    var entries: map<CacheKey, CacheValue>
    var enabled: bool

    /** Opening a cache database: existing rows are kept and the cache starts enabled. */
    constructor (stored: map<CacheKey, CacheValue>)
      ensures entries == stored && enabled
    {
      entries, enabled := stored, true;
    }

    /** `get`: the stored translation, or None when disabled or absent. */
    function Get(text: string, sourceLang: string, targetLang: string): (r: Option<string>)
      reads this
      ensures r.Some? <==> enabled && CacheKey(text, sourceLang, targetLang) in entries
      ensures r.Some? ==> r.value == entries[CacheKey(text, sourceLang, targetLang)].translatedText
    {
      var key := CacheKey(text, sourceLang, targetLang);
      if enabled && key in entries then Some(entries[key].translatedText) else None
    }

    /** `set` (INSERT OR REPLACE): the triple now maps to the new translation
        and provider; a disabled cache changes nothing. */
    method Set(sourceText: string, translatedText: string, sourceLang: string, targetLang: string,
               provider: string)
      modifies this
      ensures enabled == old(enabled)
      ensures entries == if old(enabled)
                         then old(entries)[CacheKey(sourceText, sourceLang, targetLang) :=
                                           CacheValue(translatedText, provider)]
                         else old(entries)
    {
      if !enabled {
        return;
      }
      entries := entries[CacheKey(sourceText, sourceLang, targetLang) := CacheValue(translatedText, provider)];
    }

    /** `clear`: every entry goes, whatever the enable flag. */
    method Clear()
      modifies this
      ensures entries == map[] && enabled == old(enabled)
    {
      entries := map[];
    }

    /** `get_stats`. */
    method GetStats() returns (s: CacheStats)
      ensures s.totalEntries == |entries|
      ensures DistinctGroups(s.byProvider) && DistinctGroups(s.byLanguagePair)
      ensures forall p :: CountOf(s.byProvider, p) == |set k | k in entries && entries[k].provider == p|
      ensures forall p :: HasRow(s.byProvider, p) <==> exists k :: k in entries && entries[k].provider == p
      ensures forall l :: CountOf(s.byLanguagePair, l) ==
                          |set k | k in entries && (k.sourceLang, k.targetLang) == l|
      ensures forall l :: HasRow(s.byLanguagePair, l) <==>
                          exists k :: k in entries && (k.sourceLang, k.targetLang) == l
      ensures Total(s.byProvider) == |entries| && Total(s.byLanguagePair) == |entries|
    {
      var providers := map k | k in entries :: entries[k].provider;
      var pairs := map k | k in entries :: (k.sourceLang, k.targetLang);
      var byProvider := Tally(providers);
      var byPair := Tally(pairs);
      assert providers.Keys == entries.Keys && pairs.Keys == entries.Keys;
      forall p ensures KeysIn(providers, p) == set k | k in entries && entries[k].provider == p {
      }
      forall l ensures KeysIn(pairs, l) == set k | k in entries && (k.sourceLang, k.targetLang) == l {
      }
      forall p ensures p in providers.Values <==> exists k :: k in entries && entries[k].provider == p {
        if exists k :: k in entries && entries[k].provider == p {
          var k :| k in entries && entries[k].provider == p;
          assert providers[k] == p;
        }
      }
      forall l ensures l in pairs.Values <==> exists k :: k in entries && (k.sourceLang, k.targetLang) == l {
        if exists k :: k in entries && (k.sourceLang, k.targetLang) == l {
          var k :| k in entries && (k.sourceLang, k.targetLang) == l;
          assert pairs[k] == l;
        }
      }
      s := CacheStats(|entries|, byProvider, byPair);
    }

    function IsEnabled(): bool
      reads this
    {
      enabled
    }

    /** `set_enabled`: the stored entries are untouched. */
    method SetEnabled(b: bool)
      modifies this
      ensures enabled == b && entries == old(entries)
    {
      enabled := b;
    }

    /** `get_entry`: the full record for the triple, or None when disabled or absent. */
    function GetEntry(text: string, sourceLang: string, targetLang: string): (r: Option<CacheEntry>)
      reads this
      ensures r.Some? <==> enabled && CacheKey(text, sourceLang, targetLang) in entries
      ensures r.Some? ==> var v := entries[CacheKey(text, sourceLang, targetLang)];
                          r.value == CacheEntry(text, v.translatedText, sourceLang, targetLang, v.provider)
    {
      var key := CacheKey(text, sourceLang, targetLang);
      if enabled && key in entries
      then Some(CacheEntry(text, entries[key].translatedText, sourceLang, targetLang, entries[key].provider))
      else None
    }
  }

  /** With the cache enabled, `set` then `get` gives back exactly the
      translation, and `get_entry` the five fields that were stored. */
  method SetThenGet(c: CacheManager, s: string, t: string, sl: string, tl: string, p: string)
    requires c.enabled
    modifies c
    ensures c.Get(s, sl, tl) == Some(t)
    ensures c.GetEntry(s, sl, tl) == Some(CacheEntry(s, t, sl, tl, p))
  {
    c.Set(s, t, sl, tl, p);
  }

  /** A second `set` on the same triple leaves a single entry reflecting it. */
  method SecondSetWins(c: CacheManager, s: string, t1: string, t2: string, sl: string, tl: string,
                       p1: string, p2: string)
    requires c.enabled
    modifies c
    ensures c.GetEntry(s, sl, tl) == Some(CacheEntry(s, t2, sl, tl, p2))
    ensures |c.entries| == |old(c.entries)| + (if CacheKey(s, sl, tl) in old(c.entries) then 0 else 1)
  {
    c.Set(s, t1, sl, tl, p1);
    c.Set(s, t2, sl, tl, p2);
  }

  /** Entries survive a disable/re-enable cycle, and are hidden in between. */
  method DisableKeepsEntries(c: CacheManager, s: string, sl: string, tl: string)
    modifies c
    ensures c.entries == old(c.entries) && c.enabled
    ensures c.Get(s, sl, tl) == (if CacheKey(s, sl, tl) in old(c.entries)
                                 then Some(old(c.entries)[CacheKey(s, sl, tl)].translatedText) else None)
  {
    c.SetEnabled(false);
    assert c.Get(s, sl, tl) == None && c.GetEntry(s, sl, tl) == None;
    c.SetEnabled(true);
  }
}
