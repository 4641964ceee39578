/** The hotkey table: one key binding per action, in the order of the
    defaults; saved bindings overlay the defaults at start-up, system
    shortcuts are refused, and no two actions may share a key through
    `set_hotkey`. The JSON file is a field holding what was last saved. */
module Hotkeys {
  import opened Wrappers

  datatype Hotkey = Hotkey(id: string, key: string, name: string, category: string)

  /** `DEFAULT_HOTKEYS`, in declaration order. */
  const Defaults: seq<Hotkey> := [
    Hotkey("toggle_ocr", "F8", "OCR Başlat / Durdur", "Genel"),
    Hotkey("toggle_app", "F9", "Uygulamayı Gizle / Göster", "Genel"),
    Hotkey("select_region", "F10", "OCR Bölgesi Seç", "Genel"),
    Hotkey("toggle_settings", "F11", "Ayarlar Paneli", "Genel"),
    Hotkey("clear_cache", "F12", "Cache Temizle", "Genel"),
    Hotkey("font_size_up", "Ctrl+Shift+Up", "Yazı Boyutu Artır", "Overlay"),
    Hotkey("font_size_down", "Ctrl+Shift+Down", "Yazı Boyutu Azalt", "Overlay"),
    Hotkey("opacity_down", "Ctrl+Shift+Left", "Opaklık Azalt", "Overlay"),
    Hotkey("opacity_up", "Ctrl+Shift+Right", "Opaklık Artır", "Overlay"),
    Hotkey("quit_app", "Ctrl+Shift+Q", "Uygulamayı Kapat", "Uygulama")
  ]

  /** `BLOCKED_KEYS`. */
  const BlockedKeys: seq<string> := ["Alt+F4", "Ctrl+Alt+Delete", "Alt+Tab", "Win", "Ctrl+Esc",
                                     "Ctrl+C", "Ctrl+V", "Ctrl+X", "Ctrl+Z", "Ctrl+A", "Ctrl+S"]

  /** A saved file maps action ids to the `key` field of their entry (None
      when the entry has no `key`). */
  type SavedHotkeys = map<string, Option<string>>

  datatype HotkeyFile = NoFile | Unreadable | Stored(saved: SavedHotkeys)

  predicate DistinctIds(t: seq<Hotkey>) {
    forall i, j :: 0 <= i < j < |t| ==> t[i].id != t[j].id
  }

  predicate DistinctKeys(t: seq<Hotkey>) {
    forall i, j :: 0 <= i < j < |t| ==> t[i].key != t[j].key
  }

  /** The table is the defaults up to the keys. */
  predicate SameActions(t: seq<Hotkey>) {
    |t| == |Defaults| && forall i :: 0 <= i < |t| ==> t[i] == Defaults[i].(key := t[i].key)
  }

  lemma DefaultsFacts()
    ensures DistinctIds(Defaults) && DistinctKeys(Defaults) && SameActions(Defaults)
    ensures forall i :: 0 <= i < |Defaults| ==> Defaults[i].key !in BlockedKeys
  {
    DefaultIdsDistinct();
    DefaultKeysDistinct();
    DefaultKeysNotBlocked();
  }

  lemma DefaultIdsDistinct()
    ensures DistinctIds(Defaults)
  {
  }

  lemma DefaultKeysDistinct()
    ensures DistinctKeys(Defaults)
  {
  }

  lemma DefaultKeysNotBlocked()
    ensures forall i :: 0 <= i < |Defaults| ==> Defaults[i].key !in BlockedKeys
  {
  }

  /** The position of action `id` in the table (`id in self._hotkeys`). */
  function Find(t: seq<Hotkey>, id: string): (r: Option<nat>)
    ensures r.Some? ==> r.value < |t| && t[r.value].id == id
    ensures r.None? <==> forall i :: 0 <= i < |t| ==> t[i].id != id
  {
    if t == [] then None
    else if t[0].id == id then Some(0)
    else match Find(t[1..], id)
         case None => None
         case Some(k) => Some(k + 1)
  }

  /** With distinct ids, the position found is the only one holding `id`. */
  lemma FindUnique(t: seq<Hotkey>, id: string, i: nat)
    requires DistinctIds(t) && i < |t| && t[i].id == id
    ensures Find(t, id) == Some(i)
  {
  }

  /** Tables with the same ids in the same order find an id at the same place. */
  lemma {:induction false} FindSameIds(t: seq<Hotkey>, u: seq<Hotkey>, id: string)
    requires |t| == |u| && forall i :: 0 <= i < |t| ==> t[i].id == u[i].id
    ensures Find(t, id) == Find(u, id)
  {
    if t != [] {
      FindSameIds(t[1..], u[1..], id);
    }
  }

  /** Changing keys only keeps a table valid. */
  lemma KeysOnlyKeepsValid(t: seq<Hotkey>, u: seq<Hotkey>)
    requires SameActions(t) && DistinctIds(t)
    requires |u| == |t| && forall i :: 0 <= i < |t| ==> u[i] == t[i].(key := u[i].key)
    ensures SameActions(u) && DistinctIds(u)
  {
  }

  /** The table after the merge step of `_load_hotkeys`: each known action
      whose saved entry has a `key` takes that key. */
  function Overlay(t: seq<Hotkey>, saved: SavedHotkeys): (r: seq<Hotkey>)
    ensures |r| == |t|
    ensures forall i :: 0 <= i < |t| ==>
              r[i] == if t[i].id in saved && saved[t[i].id].Some? then t[i].(key := saved[t[i].id].value) else t[i]
  {
    seq(|t|, i requires 0 <= i < |t| =>
      if t[i].id in saved && saved[t[i].id].Some? then t[i].(key := saved[t[i].id].value) else t[i])
  }

  /** What `_save_hotkeys` writes: every action with its key. */
  function SaveData(t: seq<Hotkey>): SavedHotkeys
    requires DistinctIds(t)
  {
    map i | 0 <= i < |t| :: t[i].id := Some(t[i].key)
  }

  /** Saving and loading again reproduces the table. */
  lemma SaveLoadRoundTrip(t: seq<Hotkey>)
    requires SameActions(t) && DistinctIds(t)
    ensures Overlay(Defaults, SaveData(t)) == t
  {
    DefaultsFacts();
    var s := SaveData(t);
    forall i | 0 <= i < |t| ensures Overlay(Defaults, s)[i] == t[i] {
      assert t[i].id == Defaults[i].id;
      assert t[i].id in s;
      var j :| 0 <= j < |t| && t[j].id == t[i].id && s[t[i].id] == Some(t[j].key);
      assert Defaults[j].id == Defaults[i].id;
      assert j == i;
    }
  }

  /** Saved entries for ids that are not actions are ignored. */
  lemma OverlayIgnoresUnknownIds(t: seq<Hotkey>, saved: SavedHotkeys, extra: SavedHotkeys)
    requires forall id :: id in extra ==> Find(t, id).None?
    ensures Overlay(t, saved + extra) == Overlay(t, saved)
  {
    forall i | 0 <= i < |t| ensures t[i].id !in extra {
      assert Find(t, t[i].id).Some?;
    }
  }

  /** `t` with action `id` bound to `key`. */
  function Rekey(t: seq<Hotkey>, id: string, key: string): (r: seq<Hotkey>)
    ensures |r| == |t|
    ensures forall i :: 0 <= i < |t| ==> r[i] == if t[i].id == id then t[i].(key := key) else t[i]
  {
    seq(|t|, i requires 0 <= i < |t| => if t[i].id == id then t[i].(key := key) else t[i])
  }

  /** Action `h` counts as holding `key` for a check that excludes `exclude`. */
  predicate Holds(h: Hotkey, key: string, exclude: Option<string>) {
    h.key == key && (exclude.None? || h.id != exclude.value)
  }

  /** Rebinding one action to a key no other action holds keeps keys distinct. */
  lemma RekeyPreservesDistinct(t: seq<Hotkey>, id: string, key: string)
    requires DistinctIds(t) && DistinctKeys(t)
    requires forall i :: 0 <= i < |t| ==> !Holds(t[i], key, Some(id))
    ensures DistinctKeys(Rekey(t, id, key))
  {
  }

  /** `reset_single` restores one default key without a conflict check, so a
      table reached by two accepted `set_hotkey` calls ends with F8 twice. */
  lemma ResetSingleCanDuplicate()
    ensures var t1 := Rekey(Defaults, "toggle_ocr", "F1");
            var t2 := Rekey(t1, "toggle_app", "F8");
            && "F1" !in BlockedKeys && (forall i :: 0 <= i < |Defaults| ==> !Holds(Defaults[i], "F1", Some("toggle_ocr")))
            && "F8" !in BlockedKeys && (forall i :: 0 <= i < |t1| ==> !Holds(t1[i], "F8", Some("toggle_app")))
            && DistinctKeys(t2)
            && !DistinctKeys(Rekey(t2, "toggle_ocr", "F8"))
  {
    var t1 := Rekey(Defaults, "toggle_ocr", "F1");
    var t2 := Rekey(t1, "toggle_app", "F8");
    var t3 := Rekey(t2, "toggle_ocr", "F8");
    DefaultsFacts();
    RekeyPreservesDistinct(Defaults, "toggle_ocr", "F1");
    assert DistinctIds(t1);
    RekeyPreservesDistinct(t1, "toggle_app", "F8");
    assert t3[0].key == "F8" && t3[1].key == "F8";
  }

  /** The categories in order of first appearance, each once. */
  function FirstAppearances(s: seq<string>): (d: seq<string>)
    ensures forall i, j :: 0 <= i < j < |d| ==> d[i] != d[j]
    ensures forall c :: c in d <==> c in s
  {
    if s == [] then []
    else
      var d := FirstAppearances(s[..|s| - 1]);
      assert forall c :: c in s <==> c in s[..|s| - 1] || c == s[|s| - 1] by {
        assert s == s[..|s| - 1] + [s[|s| - 1]];
      }
      if s[|s| - 1] in d then d else d + [s[|s| - 1]]
  }

  /** Order of first appearance: a category listed before another occurs in
      the input before any occurrence of the later one. */
  lemma {:induction false} FirstAppearancesOrder(s: seq<string>, i: nat, j: nat, q: nat)
    requires i < j < |FirstAppearances(s)| && q < |s| && s[q] == FirstAppearances(s)[j]
    ensures FirstAppearances(s)[i] in s[..q]
  {
    var p := s[..|s| - 1];
    var d := FirstAppearances(p);
    var x := s[|s| - 1];
    assert s == p + [x];
    if q < |s| - 1 {
      assert p[q] == s[q];
      assert s[q] in d;
      assert j < |d|;
      assert FirstAppearances(s)[j] == d[j] && FirstAppearances(s)[i] == d[i];
      FirstAppearancesOrder(p, i, j, q);
      assert s[..q] == p[..q];
    } else {
      assert FirstAppearances(s)[i] in s;
      var c := FirstAppearances(s)[i];
      if x in d {
        assert c in p;
      } else {
        assert c == d[i];
      }
      assert s[..q] == p;
    }
  }

  function Categories(t: seq<Hotkey>): seq<string> {
    seq(|t|, i requires 0 <= i < |t| => t[i].category)
  }

  lemma FirstAppearancesSnoc(s: seq<string>, x: string)
    ensures FirstAppearances(s + [x]) ==
              if x in FirstAppearances(s) then FirstAppearances(s) else FirstAppearances(s) + [x]
  {
    assert (s + [x])[..|s + [x]| - 1] == s;
  }

  /** `get_hotkeys_by_category`. */
  function ByCategory(t: seq<Hotkey>, category: string): (r: seq<Hotkey>)
    ensures forall h :: h in r <==> h in t && h.category == category
  {
    if t == [] then []
    else if t[0].category == category then [t[0]] + ByCategory(t[1..], category)
    else ByCategory(t[1..], category)
  }

  /** The filter distributes over concatenation: `get_hotkeys_by_category`
      lists the actions in table order. */
  lemma {:induction false} ByCategoryAppend(a: seq<Hotkey>, b: seq<Hotkey>, category: string)
    ensures ByCategory(a + b, category) == ByCategory(a, category) + ByCategory(b, category)
  {
    if a == [] {
      assert a + b == b;
    } else {
      assert (a + b)[0] == a[0];
      assert (a + b)[1..] == a[1..] + b;
      ByCategoryAppend(a[1..], b, category);
    }
  }

  /** One saved entry merged: the merge loop's invariant extends to `id`. */
  lemma MergeStep(t: seq<Hotkey>, saved: SavedHotkeys, done: set<string>, u: seq<Hotkey>, id: string,
                  at: Option<nat>)
    requires DistinctIds(t) && done <= saved.Keys && id in saved && id !in done && |u| == |t|
    requires forall i :: 0 <= i < |u| ==>
               u[i] == if t[i].id in done && saved[t[i].id].Some? then t[i].(key := saved[t[i].id].value) else t[i]
    requires at == Find(u, id)
    ensures var u' := if at.Some? then u[at.value := u[at.value].(key := saved[id].GetOr(u[at.value].key))] else u;
            |u'| == |t| &&
            forall i :: 0 <= i < |u'| ==>
              u'[i] == if t[i].id in done + {id} && saved[t[i].id].Some? then t[i].(key := saved[t[i].id].value)
                       else t[i]
  {
    if at.Some? {
      assert t[at.value].id == id;
    } else {
      forall j | 0 <= j < |u| ensures t[j].id != id {
        assert u[j].id == t[j].id;
      }
    }
  }

  /** The merge loop: for each saved id that names an action, that action's
      key becomes the saved `key` (or stays when the entry has none). */
  method MergeSaved(t: seq<Hotkey>, saved: SavedHotkeys) returns (u: seq<Hotkey>)
    requires DistinctIds(t)
    ensures u == Overlay(t, saved)
  {
    u := t;
    var rest := saved.Keys;
    ghost var done: set<string> := {};
    while rest != {}
      invariant rest + done == saved.Keys && rest !! done
      invariant |u| == |t|
      invariant forall i :: 0 <= i < |u| ==>
                  u[i] == if t[i].id in done && saved[t[i].id].Some? then t[i].(key := saved[t[i].id].value) else t[i]
      decreases |rest|
    {
      var id :| id in rest;
      var at := Find(u, id);
      MergeStep(t, saved, done, u, id, at);
      if at.Some? {
        var i := at.value;
        u := u[i := u[i].(key := saved[id].GetOr(u[i].key))];
      }
      done, rest := done + {id}, rest - {id};
    }
  }

  class HotkeyManager {
    var hotkeys: seq<Hotkey>
    var file: HotkeyFile

    ghost predicate Valid()
      reads this
    {
      SameActions(hotkeys) && DistinctIds(hotkeys)
    }

    /** `__init__` / `_load_hotkeys`: the defaults, overlaid with a readable
        saved file. */
    constructor (f: HotkeyFile)
      ensures Valid()
      ensures file == f
      ensures hotkeys == if f.Stored? then Overlay(Defaults, f.saved) else Defaults
    {
      hotkeys := Defaults;
      file := f;
      new;
      DefaultIdsDistinct();
      if f.Stored? {
        LoadSaved(f.saved);
      }
    }

    /** The merge step of `_load_hotkeys`, applied to the held table. */
    method LoadSaved(saved: SavedHotkeys)
      requires Valid()
      modifies this
      ensures Valid() && file == old(file)
      ensures hotkeys == Overlay(old(hotkeys), saved)
    {
      var merged := MergeSaved(hotkeys, saved);
      KeysOnlyKeepsValid(hotkeys, merged);
      hotkeys := merged;
    }

    /** `_save_hotkeys`. */
    method Save()
      requires Valid()
      modifies this
      ensures Valid() && file == Stored(SaveData(hotkeys)) && hotkeys == old(hotkeys)
    {
      file := Stored(SaveData(hotkeys));
    }

    /** `get_hotkey`. */
    function GetHotkey(id: string): (r: Option<string>)
      reads this
      ensures r.Some? <==> exists i :: 0 <= i < |hotkeys| && hotkeys[i].id == id
      ensures r.Some? ==> exists i :: 0 <= i < |hotkeys| && hotkeys[i].id == id && hotkeys[i].key == r.value
    {
      match Find(hotkeys, id)
      case None => None
      case Some(i) => Some(hotkeys[i].key)
    }

    function GetAllHotkeys(): seq<Hotkey>
      reads this
    {
      hotkeys
    }

    /** `is_blocked_key`. */
    function IsBlockedKey(key: string): bool {
      key in BlockedKeys
    }

    /** `check_conflict`: the first action other than `exclude` bound to `key`. */
    method CheckConflict(key: string, exclude: Option<string>) returns (r: Option<string>)
      ensures r.None? <==> forall i :: 0 <= i < |hotkeys| ==> !Holds(hotkeys[i], key, exclude)
      ensures r.Some? ==> exists k :: 0 <= k < |hotkeys| && hotkeys[k].id == r.value && Holds(hotkeys[k], key, exclude)
                                      && forall j :: 0 <= j < k ==> !Holds(hotkeys[j], key, exclude)
    {
      var i := 0;
      while i < |hotkeys|
        invariant 0 <= i <= |hotkeys|
        invariant forall j :: 0 <= j < i ==> !Holds(hotkeys[j], key, exclude)
      {
        if (exclude.None? || hotkeys[i].id != exclude.value) && hotkeys[i].key == key {
          return Some(hotkeys[i].id);
        }
        i := i + 1;
      }
      return None;
    }

    /** `set_hotkey`: refused for a blocked key, a key another action holds,
        or an unknown action; otherwise only that action's key changes and
        the table is saved. */
    method SetHotkey(id: string, key: string) returns (ok: bool)
      requires Valid()
      modifies this
      ensures Valid()
      ensures ok <==> key !in BlockedKeys
                      && (forall i :: 0 <= i < |old(hotkeys)| ==> !Holds(old(hotkeys)[i], key, Some(id)))
                      && Find(old(hotkeys), id).Some?
      ensures hotkeys == if ok then Rekey(old(hotkeys), id, key) else old(hotkeys)
      ensures file == if ok then Stored(SaveData(hotkeys)) else old(file)
      ensures DistinctKeys(old(hotkeys)) ==> DistinctKeys(hotkeys)
    {
      DefaultsFacts();
      assert DistinctIds(hotkeys) by {
        assert forall i :: 0 <= i < |hotkeys| ==> hotkeys[i].id == Defaults[i].id;
      }
      if IsBlockedKey(key) {
        return false;
      }
      var holder := CheckConflict(key, Some(id));
      if holder.Some? {
        return false;
      }
      var at := Find(hotkeys, id);
      if at.None? {
        return false;
      }
      if DistinctKeys(hotkeys) {
        RekeyPreservesDistinct(hotkeys, id, key);
      }
      var i := at.value;
      hotkeys := hotkeys[i := hotkeys[i].(key := key)];
      assert hotkeys == Rekey(old(hotkeys), id, key) by {
        forall j | 0 <= j < |hotkeys| ensures hotkeys[j] == Rekey(old(hotkeys), id, key)[j] {
          if j != i {
            assert old(hotkeys)[j].id != id;
          }
        }
      }
      Save();
      ok := true;
    }

    /** `get_categories`: each category once, in order of first appearance. */
    method GetCategories() returns (cats: seq<string>)
      ensures cats == FirstAppearances(Categories(hotkeys))
    {
      cats := [];
      var i := 0;
      var all := Categories(hotkeys);
      while i < |hotkeys|
        invariant 0 <= i <= |hotkeys|
        invariant cats == FirstAppearances(all[..i])
      {
        var cat := hotkeys[i].category;
        assert all[..i + 1][..i] == all[..i];
        if cat !in cats {
          cats := cats + [cat];
        }
        i := i + 1;
      }
      assert all[..i] == all;
    }

    /** `get_hotkeys_by_category`. */
    function GetHotkeysByCategory(category: string): seq<Hotkey>
      reads this
    {
      ByCategory(hotkeys, category)
    }

    /** `reset_to_defaults`. */
    method ResetToDefaults()
      modifies this
      ensures Valid() && hotkeys == Defaults && file == Stored(SaveData(Defaults))
    {
      DefaultsFacts();
      hotkeys := Defaults;
      Save();
    }

    /** `reset_single`: a known action gets its default key back (with no
        conflict check); an unknown id changes nothing. */
    method ResetSingle(id: string)
      requires Valid()
      modifies this
      ensures Valid()
      ensures match Find(old(hotkeys), id)
              case Some(i) => hotkeys == Rekey(old(hotkeys), id, Defaults[i].key) && file == Stored(SaveData(hotkeys))
              case None => hotkeys == old(hotkeys) && file == old(file)
    {
      DefaultIdsDistinct();
      var at := Find(Defaults, id);
      FindSameIds(hotkeys, Defaults, id);
      if at.Some? {
        var i := at.value;
        hotkeys := hotkeys[i := hotkeys[i].(key := Defaults[i].key)];
        assert hotkeys == Rekey(old(hotkeys), id, Defaults[i].key) by {
          forall j | 0 <= j < |hotkeys| ensures hotkeys[j] == Rekey(old(hotkeys), id, Defaults[i].key)[j] {
            assert old(hotkeys)[j].id == Defaults[j].id;
          }
        }
        Save();
      }
    }
  }
}
