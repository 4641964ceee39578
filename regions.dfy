/** The region store: capture regions with enable flags and names, at most
    five of them, plus the single "current region" kept for callers that
    predate multi-region support. */
module Regions {
  import opened Wrappers
  import opened Strings
  import opened Json

  /** A rectangular screen area and its capture metadata. */
  datatype Region = Region(x: int, y: int, width: int, height: int,
                           monitorId: int, name: string, enabled: bool)

  const MaxRegions: nat := 5

  const RegionKeys: set<string> := {"x", "y", "width", "height", "monitor_id", "name", "enabled"}

  /** `Region.to_dict`. */
  function ToDict(r: Region): (d: Object)
    ensures d.Keys == RegionKeys
  {
    map["x" := JInt(r.x), "y" := JInt(r.y), "width" := JInt(r.width), "height" := JInt(r.height),
        "monitor_id" := JInt(r.monitorId), "name" := JStr(r.name), "enabled" := JBool(r.enabled)]
  }

  /** `Region.from_dict`: every missing key takes its default. */
  function FromDict(d: Object): Region {
    Region(GetInt(d, "x", 0), GetInt(d, "y", 0), GetInt(d, "width", 800), GetInt(d, "height", 600),
           GetInt(d, "monitor_id", 0), GetStr(d, "name", ""), GetBool(d, "enabled", true))
  }

  /** `from_dict(to_dict(r))` reproduces all seven fields. */
  lemma DictRoundTrip(r: Region)
    ensures FromDict(ToDict(r)) == r
  {
  }

  /** Keys other than the seven field names are ignored by `from_dict`. */
  lemma FromDictIgnoresOtherKeys(d: Object, extra: Object)
    requires extra.Keys !! RegionKeys
    ensures FromDict(d + extra) == FromDict(d)
  {
  }

  /** An empty dictionary decodes to the 800x600 enabled region at the origin. */
  lemma FromDictDefaults()
    ensures FromDict(map[]) == Region(0, 0, 800, 600, 0, "", true)
    ensures IsValid(FromDict(map[]))
  {
  }

  /** `Region.is_valid`. */
  predicate IsValid(r: Region) {
    r.width > 0 && r.height > 0
  }

  /** The name an unnamed region gets when it becomes element n+1 of the list. */
  function DefaultName(n: nat): string {
    "Bölge " + NatToString(n + 1)
  }

  /** `region.name = f"Bölge {n + 1}"` when the region has no name. */
  function Named(r: Region, n: nat): (r': Region)
    ensures r'.name != ""
    ensures r' == r.(name := r'.name)
    ensures r.name != "" ==> r' == r
  {
    if r.name == "" then r.(name := DefaultName(n)) else r
  }

  /** `[r for r in regions if r.enabled]`. */
  function EnabledRegions(rs: seq<Region>): (e: seq<Region>)
    ensures |e| <= |rs|
    ensures forall i :: 0 <= i < |e| ==> e[i].enabled && e[i] in rs
    ensures forall i :: 0 <= i < |rs| && rs[i].enabled ==> rs[i] in e
  {
    if rs == [] then []
    else if rs[0].enabled then [rs[0]] + EnabledRegions(rs[1..])
    else EnabledRegions(rs[1..])
  }

  /** The filter keeps the store's order: it distributes over concatenation. */
  lemma {:induction false} EnabledRegionsAppend(a: seq<Region>, b: seq<Region>)
    ensures EnabledRegions(a + b) == EnabledRegions(a) + EnabledRegions(b)
  {
    if a == [] {
      assert a + b == b;
    } else {
      assert (a + b)[0] == a[0];
      assert (a + b)[1..] == a[1..] + b;
      EnabledRegionsAppend(a[1..], b);
    }
  }

  /** The filter's first element is the first enabled region of the store. */
  lemma {:induction false} EnabledRegionsHead(rs: seq<Region>)
    requires EnabledRegions(rs) != []
    ensures exists k :: 0 <= k < |rs| && rs[k] == EnabledRegions(rs)[0] && rs[k].enabled
                        && forall j :: 0 <= j < k ==> !rs[j].enabled
  {
    if !rs[0].enabled {
      EnabledRegionsHead(rs[1..]);
      var k :| 0 <= k < |rs[1..]| && rs[1..][k] == EnabledRegions(rs[1..])[0] && rs[1..][k].enabled
               && forall j :: 0 <= j < k ==> !rs[1..][j].enabled;
      assert rs[k + 1] == EnabledRegions(rs)[0];
      assert forall j :: 0 <= j < k + 1 ==> !rs[j].enabled by {
        forall j | 0 <= j < k + 1 ensures !rs[j].enabled {
          if j > 0 { assert rs[j] == rs[1..][j - 1]; }
        }
      }
    }
  }

  /** `RegionSelector`: the list of regions and the selection mode. */
  class RegionSelector {
    var regions: seq<Region>
    var current: Option<Region>
    var selecting: bool
    var selectingIndex: int
    /** Whether a completion callback is registered. */
    var onComplete: bool
    /** The regions the completion callback was called with. */
    var completions: seq<Region>

    /** The store never holds more than `MaxRegions` regions. */
    ghost predicate Valid()
      reads this
    {
      |regions| <= MaxRegions
    }

    constructor ()
      ensures Valid()
      ensures regions == [] && current == None && !selecting && selectingIndex == -1
      ensures !onComplete && completions == []
    {
      regions, current, selecting, selectingIndex := [], None, false, -1;
      onComplete, completions := false, [];
    }

    /** `start_selection(on_complete, index)`: the callback is registered
        (`hasCallback` says whether one is given); index -1 means "a new region". */
    method StartSelection(hasCallback: bool, index: int)
      modifies this
      ensures selecting && selectingIndex == index && onComplete == hasCallback
      ensures regions == old(regions) && current == old(current) && completions == old(completions)
    {
      onComplete := hasCallback;
      selecting, selectingIndex := true, index;
    }

    /** `complete_selection`: replace the region being edited, or append a new
        one when there is room; the region becomes the current one either way. */
    method CompleteSelection(region: Region)
      requires Valid()
      modifies this
      ensures Valid()
      ensures var n, i := |old(regions)|, old(selectingIndex);
              if 0 <= i < n then regions == old(regions)[i := region] && current == Some(region)
              else if n < MaxRegions then regions == old(regions) + [Named(region, n)]
                                          && current == Some(Named(region, n))
              else regions == old(regions) && current == Some(region)
      ensures !selecting && selectingIndex == -1 && onComplete == old(onComplete)
      ensures completions == old(completions) + if onComplete then [current.value] else []
    {
      var r := region;
      if 0 <= selectingIndex < |regions| {
        regions := regions[selectingIndex := r];
      } else if |regions| < MaxRegions {
        r := Named(r, |regions|);
        regions := regions + [r];
      }
      current := Some(r);
      selecting, selectingIndex := false, -1;
      if onComplete {
        completions := completions + [r];
      }
    }

    /** `cancel_selection`: the callback is dropped as well. */
    method CancelSelection()
      modifies this
      ensures !selecting && selectingIndex == -1 && !onComplete
      ensures regions == old(regions) && current == old(current) && completions == old(completions)
    {
      selecting, selectingIndex := false, -1;
      onComplete := false;
    }

    function IsSelecting(): bool
      reads this
    {
      selecting
    }

    /** `get_regions` (a copy). */
    function GetRegions(): seq<Region>
      reads this
    {
      regions
    }

    /** `get_enabled_regions`. */
    function GetEnabledRegions(): seq<Region>
      reads this
    {
      EnabledRegions(regions)
    }

    /** `get_region(index)`: the region at an in-range index, else None. */
    function GetRegion(index: int): (r: Option<Region>)
      reads this
      ensures r.Some? <==> 0 <= index < |regions|
      ensures r.Some? ==> r.value == regions[index]
    {
      if 0 <= index < |regions| then Some(regions[index]) else None
    }

    /** `add_region`: refused when the store is full, otherwise the (possibly
        renamed) region goes at the end. */
    method AddRegion(region: Region) returns (ok: bool)
      requires Valid()
      modifies this
      ensures Valid()
      ensures ok <==> |old(regions)| < MaxRegions
      ensures regions == if ok then old(regions) + [Named(region, |old(regions)|)] else old(regions)
      ensures current == old(current) && selecting == old(selecting) && selectingIndex == old(selectingIndex)
      ensures onComplete == old(onComplete) && completions == old(completions)
    {
      if |regions| >= MaxRegions {
        return false;
      }
      regions := regions + [Named(region, |regions|)];
      ok := true;
    }

    /** `remove_region`: removes exactly the element at an in-range index. */
    method RemoveRegion(index: int) returns (ok: bool)
      requires Valid()
      modifies this
      ensures Valid()
      ensures ok <==> 0 <= index < |old(regions)|
      ensures regions == if ok then old(regions)[..index] + old(regions)[index + 1..] else old(regions)
      ensures current == old(current) && selecting == old(selecting) && selectingIndex == old(selectingIndex)
      ensures onComplete == old(onComplete) && completions == old(completions)
    {
      ok := 0 <= index < |regions|;
      if ok {
        regions := regions[..index] + regions[index + 1..];
      }
    }

    /** `set_region_enabled`: only that region's flag changes; a silent no-op
        out of range. */
    method SetRegionEnabled(index: int, enabled: bool)
      requires Valid()
      modifies this
      ensures Valid()
      ensures regions == if 0 <= index < |old(regions)|
                         then old(regions)[index := old(regions)[index].(enabled := enabled)]
                         else old(regions)
      ensures current == old(current) && selecting == old(selecting) && selectingIndex == old(selectingIndex)
      ensures onComplete == old(onComplete) && completions == old(completions)
    {
      if 0 <= index < |regions| {
        regions := regions[index := regions[index].(enabled := enabled)];
      }
    }

    /** `set_regions`: keeps only the first `MaxRegions`. */
    method SetRegions(rs: seq<Region>)
      modifies this
      ensures Valid()
      ensures regions == if |rs| <= MaxRegions then rs else rs[..MaxRegions]
      ensures current == old(current) && selecting == old(selecting) && selectingIndex == old(selectingIndex)
      ensures onComplete == old(onComplete) && completions == old(completions)
    {
      regions := if |rs| <= MaxRegions then rs else rs[..MaxRegions];
    }

    /** `clear_regions`: empties the list and forgets the current region. */
    method ClearRegions()
      modifies this
      ensures Valid()
      ensures regions == [] && current == None
      ensures selecting == old(selecting) && selectingIndex == old(selectingIndex)
      ensures onComplete == old(onComplete) && completions == old(completions)
    {
      regions, current := [], None;
    }

    function RegionCount(): nat
      reads this
    {
      |regions|
    }

    function CanAddRegion(): bool
      reads this
    {
      |regions| < MaxRegions
    }

    /** `get_current_region`: the first enabled region if there is one,
        otherwise the remembered current region. */
    function GetCurrentRegion(): (r: Option<Region>)
      reads this
      ensures (forall i :: 0 <= i < |regions| ==> !regions[i].enabled) ==> r == current
      ensures (exists i :: 0 <= i < |regions| && regions[i].enabled) ==>
                r.Some? && r.value.enabled &&
                exists k :: 0 <= k < |regions| && regions[k] == r.value
                            && forall j :: 0 <= j < k ==> !regions[j].enabled
    {
      var e := EnabledRegions(regions);
      if e != [] then
        EnabledRegionsHead(regions);
        Some(e[0])
      else current
    }

    /** `set_region`: remember the region as current, and add it when the
        store is empty. The renaming done by `add_region` acts on the same
        object, so the remembered region carries the new name too. */
    method SetRegion(region: Region)
      requires Valid()
      modifies this
      ensures Valid()
      ensures old(regions) == [] ==> regions == [Named(region, 0)] && current == Some(Named(region, 0))
      ensures old(regions) != [] ==> regions == old(regions) && current == Some(region)
      ensures selecting == old(selecting) && selectingIndex == old(selectingIndex)
      ensures onComplete == old(onComplete) && completions == old(completions)
    {
      if regions == [] {
        var r := Named(region, 0);
        current := Some(r);
        var _ := AddRegion(region);
      } else {
        current := Some(region);
      }
    }
  }

  /** A selection started with a callback reports the stored region when it
      completes; a cancelled one reports nothing, even if completed later. */
  method SelectionReportsOnce(s: RegionSelector, index: int, region: Region)
    requires s.Valid()
    modifies s
    ensures var n := |old(s.regions)|;
            s.completions == old(s.completions) +
              [if 0 <= index < n || n >= MaxRegions then region else Named(region, n)]
  {
    s.StartSelection(true, index);
    s.CompleteSelection(region);
    s.StartSelection(true, index);
    s.CancelSelection();
    s.CompleteSelection(region);
  }

  /** On an empty store, `set_region` then `get_current_region` gives back the
      region's coordinates, monitor and enabled flag. */
  method SetRegionThenCurrent(s: RegionSelector, region: Region)
    requires s.Valid() && s.regions == []
    modifies s
    ensures var c := s.GetCurrentRegion();
            c.Some? && c.value == Named(region, 0)
            && c.value.x == region.x && c.value.y == region.y
            && c.value.width == region.width && c.value.height == region.height
            && c.value.monitorId == region.monitorId && c.value.enabled == region.enabled
  {
    s.SetRegion(region);
  }
}
