/** `WallManager` of builder/manager.py: turns the configured profile list
    into profiles and sections, regroups, looks up, validates and builds.
    The worker pool's `starmap` is an order-preserving map over the section
    list, so a build round is a sequence map; the manager's lists are
    fields of an immutable state value. */
module Manager {
  import opened Errors
  import opened Outcomes
  import opened Values
  import opened Config
  import opened Wall
  import Validator

  /** The manager: its own configuration (`WallManager.config`, which
      supplies the profile list), the configurations its sections and
      profiles read (`SectionBuilder.config` and `ProfileBuilder.config`,
      class attributes of their own), its profiles and its flat section
      list. */
  datatype WallState = WallState(
    config: WallConfig,
    sectionConfig: WallConfig,
    profileConfig: WallConfig,
    profiles: seq<Profile>,
    sections: seq<Section>)

  /** The three configurations of two states are the same. */
  predicate SameConfigs(a: WallState, b: WallState) {
    a.config == b.config && a.sectionConfig == b.sectionConfig && a.profileConfig == b.profileConfig
  }

  /** `WallManager.set_config(config)`: a manager under `config`, with no
      profiles and no sections. Only the manager class's attribute is
      rebound; the section and profile classes keep the defaults, since
      nothing in the builder rebinds theirs. */
  function NewManager(c: WallConfig): (w: WallState)
    ensures w.config == c && w.profiles == [] && w.sections == []
    ensures w.sectionConfig == DefaultConfig && w.profileConfig == DefaultConfig
  {
    WallState(c, DefaultConfig, DefaultConfig, [], [])
  }

  /** `xs.index(x)`: the position of the first item equal to `x`. */
  function FirstIndex<T(==)>(xs: seq<T>, x: T): (i: nat)
    requires x in xs
    ensures i < |xs| && xs[i] == x
    ensures forall j :: 0 <= j < i ==> xs[j] != x
  {
    if xs[0] == x then 0 else 1 + FirstIndex(xs[1..], x)
  }

  /** The heights of all rows, row after row. */
  function Flatten(rows: seq<seq<int>>): seq<int> {
    if |rows| == 0 then [] else Flatten(rows[..|rows| - 1]) + rows[|rows| - 1]
  }

  /** The sections of all profiles, profile after profile. */
  function Concat(ps: seq<Profile>): seq<Section> {
    if |ps| == 0 then [] else Concat(ps[..|ps| - 1]) + ps[|ps| - 1].sections
  }

  /** The profile identifiers `parse_profile_list` hands out: each row gets
      the index of the first row equal to it. */
  function ListIndexIds(rows: seq<seq<int>>): (pids: seq<int>)
    ensures |pids| == |rows|
    ensures forall i :: 0 <= i < |rows| ==> 0 <= pids[i] <= i && rows[pids[i]] == rows[i]
    ensures forall i :: 0 <= i < |rows| ==> forall j :: 0 <= j < pids[i] ==> rows[j] != rows[i]
  {
    seq(|rows|, i requires 0 <= i < |rows| => FirstIndex(rows, rows[i]))
  }

  /** The parsing loop, given the profile identifier of each row: one
      profile per row, one section per height, section ids counting up
      from 0 in row-major order, and the flat list the concatenation of the
      profiles' lists. */
  function ParseRows(rows: seq<seq<int>>, pids: seq<int>): (r: (seq<Profile>, seq<Section>))
    requires |pids| == |rows| && forall i :: 0 <= i < |pids| ==> pids[i] >= 0
    ensures |r.0| == |rows| && r.1 == Concat(r.0)
    ensures forall i :: 0 <= i < |rows| ==> r.0[i].profileId == pids[i] && |r.0[i].sections| == |rows[i]|
    ensures forall i, k :: 0 <= i < |rows| && 0 <= k < |rows[i]| ==>
              && r.0[i].sections[k].profileId == Some(pids[i])
              && r.0[i].sections[k].startHeight == rows[i][k]
  {
    if |rows| == 0 then ([], [])
    else
      var last := |rows| - 1;
      var prev := ParseRows(rows[..last], pids[..last]);
      var id := pids[last];
      var row := rows[last];
      var p := Profile(id, RowSections(|prev.1|, id, row));
      assert (prev.0 + [p])[..last] == prev.0;
      (prev.0 + [p], prev.1 + p.sections)
  }

  /** The fresh sections of one row, numbered from `first`. */
  function RowSections(first: int, id: int, row: seq<int>): (ss: seq<Section>)
    ensures |ss| == |row|
  {
    seq(|row|, k requires 0 <= k < |row| => NewSection(first + k, Some(id), row[k]))
  }

  /** Every parsed section starts fresh: its current height is its row's
      height. */
  lemma {:induction false} ParseRowsFresh(rows: seq<seq<int>>, pids: seq<int>)
    requires |pids| == |rows| && forall i :: 0 <= i < |pids| ==> pids[i] >= 0
    ensures var ps := ParseRows(rows, pids).0;
      forall i, k :: 0 <= i < |rows| && 0 <= k < |rows[i]| ==> ps[i].sections[k].currentHeight == rows[i][k]
  {
    if |rows| > 0 {
      var last := |rows| - 1;
      ParseRowsFresh(rows[..last], pids[..last]);
    }
  }

  /** Section `n` of a fresh parse at height `h`: numbered `n`, standing at
      its start height `h` on day 0, and tagged with a non-negative profile
      identifier. */
  predicate FreshAt(s: Section, n: int, h: int) {
    && s.sectionId == n
    && s.startHeight == h
    && s.currentHeight == h
    && s.day == 0
    && s.profileId.Some? && s.profileId.value >= 0
  }

  /** The flat list of a parse: one fresh section per height, numbered
      0, 1, ... in row-major order. */
  lemma {:induction false} ParseRowsFlat(rows: seq<seq<int>>, pids: seq<int>)
    requires |pids| == |rows| && forall i :: 0 <= i < |pids| ==> pids[i] >= 0
    ensures var ss := ParseRows(rows, pids).1;
      && |ss| == |Flatten(rows)|
      && forall n :: 0 <= n < |ss| ==> FreshAt(ss[n], n, Flatten(rows)[n])
  {
    if |rows| > 0 {
      var last := |rows| - 1;
      ParseRowsFlat(rows[..last], pids[..last]);
      var prev := ParseRows(rows[..last], pids[..last]).1;
      var tail := RowSections(|prev|, pids[last], rows[last]);
      var ss := ParseRows(rows, pids).1;
      var hs := Flatten(rows);
      assert ss == prev + tail;
      assert hs == Flatten(rows[..last]) + rows[last];
      forall n | 0 <= n < |ss|
        ensures FreshAt(ss[n], n, hs[n])
      {
        if n < |prev| {
          assert ss[n] == prev[n] && hs[n] == Flatten(rows[..last])[n];
        } else {
          assert ss[n] == tail[n - |prev|] && hs[n] == rows[last][n - |prev|];
        }
      }
    }
  }

  /** `parse_profile_list`: rebuilds the profiles and sections from the
      configured list alone, discarding the previous ones. */
  function ParseProfileList(w: WallState): (r: WallState)
    ensures SameConfigs(r, w)
    ensures var rows := w.config.profiles;
      && |r.profiles| == |rows|
      && r.sections == Concat(r.profiles)
      && |r.sections| == |Flatten(rows)|
      && (forall i :: 0 <= i < |rows| ==>
            r.profiles[i].profileId == ListIndexIds(rows)[i] && |r.profiles[i].sections| == |rows[i]|)
      && (forall n :: 0 <= n < |r.sections| ==>
            && r.sections[n].sectionId == n
            && r.sections[n].startHeight == Flatten(rows)[n]
            && r.sections[n].currentHeight == r.sections[n].startHeight
            && r.sections[n].day == 0
            && r.sections[n].profileId.Some? && r.sections[n].profileId.value >= 0)
  {
    var parsed := ParseRows(w.config.profiles, ListIndexIds(w.config.profiles));
    ParseRowsFlat(w.config.profiles, ListIndexIds(w.config.profiles));
    w.(profiles := parsed.0, sections := parsed.1)
  }

  /** Each parsed profile holds its row's heights, every section tagged
      with the profile's identifier. */
  lemma ParsedProfiles(w: WallState)
    ensures var rows := w.config.profiles; var ps := ParseProfileList(w).profiles;
      forall i, k :: 0 <= i < |rows| && 0 <= k < |rows[i]| ==>
        && ps[i].sections[k].profileId == Some(ps[i].profileId)
        && ps[i].sections[k].startHeight == rows[i][k]
        && ps[i].sections[k].currentHeight == rows[i][k]
  {
    ParseRowsFresh(w.config.profiles, ListIndexIds(w.config.profiles));
  }

  /** `set_profile_list`: replaces the configured list, nothing else. */
  function SetProfileList(w: WallState, rows: seq<seq<int>>): (r: WallState)
    ensures r.config.profiles == rows && r.profiles == w.profiles && r.sections == w.sections
    ensures r.config == w.config.(profiles := rows)
    ensures r.sectionConfig == w.sectionConfig && r.profileConfig == w.profileConfig
  {
    w.(config := w.config.(profiles := rows))
  }

  /** Duplicate rows share one profile identifier: two profiles get the
      same identifier exactly when their rows are equal, and a profile's
      identifier is its own position exactly when no earlier row equals
      its row. */
  lemma ProfileIdsFollowRows(w: WallState, i: nat, j: nat)
    requires i < |w.config.profiles| && j < |w.config.profiles|
    ensures var p := ParseProfileList(w).profiles; var rows := w.config.profiles;
      && (p[i].profileId == p[j].profileId <==> rows[i] == rows[j])
      && (p[i].profileId == i <==> forall m :: 0 <= m < i ==> rows[m] != rows[i])
  {
    var rows := w.config.profiles;
    var p := ParseProfileList(w).profiles;
    if p[i].profileId == p[j].profileId {
      assert rows[FirstIndex(rows, rows[i])] == rows[i];
    }
    if p[i].profileId != i {
      var m := FirstIndex(rows, rows[i]);
      assert m < i && rows[m] == rows[i];
    }
  }

  /** The sections that belong to the given profile, in flat-list order
      (the `filter` of `update_profiles`). */
  function FilterByProfile(ss: seq<Section>, pid: int): (r: seq<Section>)
    ensures |r| <= |ss|
    ensures forall k :: 0 <= k < |r| ==> r[k].profileId == Some(pid)
  {
    if |ss| == 0 then []
    else
      var init := FilterByProfile(ss[..|ss| - 1], pid);
      if ss[|ss| - 1].profileId == Some(pid) then init + [ss[|ss| - 1]] else init
  }

  /** The filter keeps exactly the sections carrying the identifier. */
  lemma {:induction false} FilterMembers(ss: seq<Section>, pid: int)
    ensures forall x :: x in FilterByProfile(ss, pid) <==> x in ss && x.profileId == Some(pid)
  {
    if |ss| > 0 {
      FilterMembers(ss[..|ss| - 1], pid);
      assert ss == ss[..|ss| - 1] + [ss[|ss| - 1]];
    }
  }

  lemma {:induction false} FilterAppend(a: seq<Section>, b: seq<Section>, pid: int)
    ensures FilterByProfile(a + b, pid) == FilterByProfile(a, pid) + FilterByProfile(b, pid)
    decreases |b|
  {
    if |b| == 0 {
      assert a + b == a;
    } else {
      assert (a + b)[..|a + b| - 1] == a + b[..|b| - 1];
      FilterAppend(a, b[..|b| - 1], pid);
    }
  }

  /** Every section of every profile carries that profile's identifier. */
  predicate SectionsTagged(ps: seq<Profile>) {
    forall j, k :: 0 <= j < |ps| && 0 <= k < |ps[j].sections| ==> ps[j].sections[k].profileId == Some(ps[j].profileId)
  }

  /** Filtering by an identifier keeps all of a list tagged with it and
      none of a list tagged otherwise. */
  lemma {:induction false} FilterTagged(ss: seq<Section>, pid: int, keep: bool)
    requires forall k :: 0 <= k < |ss| ==> (ss[k].profileId == Some(pid) <==> keep)
    ensures FilterByProfile(ss, pid) == if keep then ss else []
  {
    if |ss| > 0 {
      FilterTagged(ss[..|ss| - 1], pid, keep);
      assert ss[..|ss| - 1] + [ss[|ss| - 1]] == ss;
    }
  }

  /** With distinct identifiers, filtering the concatenation by one
      profile's identifier recovers exactly that profile's list. */
  lemma {:induction false} FilterConcatDistinct(ps: seq<Profile>, pid: int)
    requires SectionsTagged(ps)
    requires forall a, b :: 0 <= a < b < |ps| ==> ps[a].profileId != ps[b].profileId
    ensures (forall j :: 0 <= j < |ps| ==> ps[j].profileId != pid) ==> FilterByProfile(Concat(ps), pid) == []
    ensures forall i :: 0 <= i < |ps| && ps[i].profileId == pid ==> FilterByProfile(Concat(ps), pid) == ps[i].sections
  {
    if |ps| > 0 {
      var n := |ps| - 1;
      var init := ps[..n];
      FilterConcatDistinct(init, pid);
      FilterAppend(Concat(init), ps[n].sections, pid);
      FilterTagged(ps[n].sections, pid, ps[n].profileId == pid);
    }
  }

  /** `update_profiles`: each profile's list becomes the sections of the
      flat list that carry its identifier. */
  function UpdateProfiles(w: WallState): (r: WallState)
    ensures SameConfigs(r, w) && r.sections == w.sections && |r.profiles| == |w.profiles|
    ensures forall i :: 0 <= i < |w.profiles| ==>
      && r.profiles[i].profileId == w.profiles[i].profileId
      && |r.profiles[i].sections| <= |w.sections|
      && forall k :: 0 <= k < |r.profiles[i].sections| ==>
           r.profiles[i].sections[k].profileId == Some(w.profiles[i].profileId)
  {
    w.(profiles := seq(|w.profiles|, i requires 0 <= i < |w.profiles| =>
      w.profiles[i].(sections := FilterByProfile(w.sections, w.profiles[i].profileId))))
  }

  /** After regrouping, a profile holds exactly the sections of the flat
      list that carry its identifier. */
  lemma UpdateProfilesMembers(w: WallState, i: nat)
    requires i < |w.profiles|
    ensures forall x :: x in UpdateProfiles(w).profiles[i].sections <==>
      x in w.sections && x.profileId == Some(w.profiles[i].profileId)
  {
    FilterMembers(w.sections, w.profiles[i].profileId);
  }

  /** No two rows are equal. */
  predicate DistinctRows(rows: seq<seq<int>>) {
    forall a, b :: 0 <= a < b < |rows| ==> rows[a] != rows[b]
  }

  /** When no two rows are equal, regrouping a freshly parsed manager
      changes nothing: every profile already holds exactly its sections. */
  lemma UpdateAfterParse(w: WallState)
    requires DistinctRows(w.config.profiles)
    ensures UpdateProfiles(ParseProfileList(w)) == ParseProfileList(w)
  {
    ParsedTagged(w);
    ParsedDistinct(w);
    RegroupGrouped(ParseProfileList(w));
  }

  /** Regrouping a wall whose flat list is its profiles' lists joined,
      each tagged with its own distinct identifier, changes nothing. */
  lemma RegroupGrouped(w: WallState)
    requires SectionsTagged(w.profiles) && w.sections == Concat(w.profiles)
    requires forall a, b :: 0 <= a < b < |w.profiles| ==> w.profiles[a].profileId != w.profiles[b].profileId
    ensures UpdateProfiles(w) == w
  {
    var u := UpdateProfiles(w);
    forall i | 0 <= i < |w.profiles|
      ensures u.profiles[i] == w.profiles[i]
    {
      FilterConcatDistinct(w.profiles, w.profiles[i].profileId);
    }
    assert u.profiles == w.profiles;
  }

  /** Every parsed section carries its profile's identifier. */
  lemma ParsedTagged(w: WallState)
    ensures SectionsTagged(ParseProfileList(w).profiles)
    ensures ParseProfileList(w).sections == Concat(ParseProfileList(w).profiles)
  {
    ParsedProfiles(w);
  }

  /** Distinct rows give distinct profile identifiers. */
  lemma ParsedDistinct(w: WallState)
    requires DistinctRows(w.config.profiles)
    ensures var ps := ParseProfileList(w).profiles;
      forall a, b :: 0 <= a < b < |ps| ==> ps[a].profileId != ps[b].profileId
  {
    var rows := w.config.profiles;
    var ps := ParseProfileList(w).profiles;
    assert forall i :: 0 <= i < |ps| ==> ps[i].profileId == ListIndexIds(rows)[i];
    DistinctRowsOwnIds(rows);
  }

  /** With no two rows equal, every row's identifier is its own position. */
  lemma DistinctRowsOwnIds(rows: seq<seq<int>>)
    requires DistinctRows(rows)
    ensures forall i :: 0 <= i < |rows| ==> ListIndexIds(rows)[i] == i
  {
    var pids := ListIndexIds(rows);
    assert forall i :: 0 <= i < |rows| ==> rows[pids[i]] == rows[i] && pids[i] <= i;
  }


  /** The position of the first profile with the identifier, or the
      length when there is none. */
  function ProfilePosition(ps: seq<Profile>, id: int): (i: nat)
    ensures i <= |ps|
    ensures forall j :: 0 <= j < i ==> ps[j].profileId != id
    ensures i < |ps| ==> ps[i].profileId == id
  {
    if |ps| == 0 then 0 else if ps[0].profileId == id then 0 else 1 + ProfilePosition(ps[1..], id)
  }

  /** The position of the first section with the identifier, or the
      length when there is none. */
  function SectionPosition(ss: seq<Section>, id: int): (i: nat)
    ensures i <= |ss|
    ensures forall j :: 0 <= j < i ==> ss[j].sectionId != id
    ensures i < |ss| ==> ss[i].sectionId == id
  {
    if |ss| == 0 then 0 else if ss[0].sectionId == id then 0 else 1 + SectionPosition(ss[1..], id)
  }

  /** `get_profile`: the first profile with the identifier, or a
      `BuilderError` naming it. */
  function GetProfile(w: WallState, id: int): (r: Result<Profile>)
    ensures r.Ok? <==> exists i :: 0 <= i < |w.profiles| && w.profiles[i].profileId == id
    ensures r.Ok? ==> exists i :: 0 <= i < |w.profiles| && w.profiles[i] == r.value && r.value.profileId == id
                        && forall j :: 0 <= j < i ==> w.profiles[j].profileId != id
    ensures r.Err? ==> r.error == MakeBuilderError("Profile with ID " + IntToString(id) + " not found.")
  {
    var i := ProfilePosition(w.profiles, id);
    if i < |w.profiles| then Ok(w.profiles[i])
    else Err(MakeBuilderError("Profile with ID " + IntToString(id) + " not found."))
  }

  /** `get_section`: the first section with the identifier, or a
      `BuilderError` naming it. */
  function GetSection(w: WallState, id: int): (r: Result<Section>)
    ensures r.Ok? <==> exists i :: 0 <= i < |w.sections| && w.sections[i].sectionId == id
    ensures r.Ok? ==> exists i :: 0 <= i < |w.sections| && w.sections[i] == r.value && r.value.sectionId == id
                        && forall j :: 0 <= j < i ==> w.sections[j].sectionId != id
    ensures r.Err? ==> r.error == MakeBuilderError("Section with ID " + IntToString(id) + " not found.")
  {
    var i := SectionPosition(w.sections, id);
    if i < |w.sections| then Ok(w.sections[i])
    else Err(MakeBuilderError("Section with ID " + IntToString(id) + " not found."))
  }

  /** After parsing, section `n` is found under identifier `n` for every
      `n` below the number of heights, and no other identifier is found. */
  lemma SectionLookupAfterParse(w: WallState, id: int)
    ensures var p := ParseProfileList(w);
      GetSection(p, id).Ok? <==> 0 <= id < |Flatten(w.config.profiles)|
    ensures var p := ParseProfileList(w);
      0 <= id < |p.sections| ==> GetSection(p, id) == Ok(p.sections[id])
  {
    var p := ParseProfileList(w);
    if 0 <= id < |p.sections| {
      assert p.sections[id].sectionId == id;
      var i := SectionPosition(p.sections, id);
      assert i == id;
    }
  }

  /** `WallManager.is_ready`: at least one section, and all ready, each
      section judged under the section class's configuration. */
  predicate WallReady(w: WallState) {
    |w.sections| > 0 && AllReady(w.sectionConfig, w.sections)
  }

  /** `WallManager.get_ice`: the sections' ice, summed. */
  function WallIce(w: WallState): int {
    SumIce(w.sectionConfig, w.sections)
  }

  /** `WallManager.get_cost`: the per-section costs, summed. */
  function WallCost(w: WallState): int {
    SumCost(w.sectionConfig, w.sections)
  }

  /** A freshly parsed wall is ready exactly when it has a height and every
      configured height has reached the section target; a new manager,
      having no sections, is not ready. */
  lemma ParsedWallReady(w: WallState)
    ensures var hs := Flatten(w.config.profiles);
      WallReady(ParseProfileList(w)) <==>
        |hs| > 0 && forall n :: 0 <= n < |hs| ==> hs[n] >= w.sectionConfig.targetHeight
    ensures !WallReady(NewManager(w.config))
  {
    ParsedReadiness(w);
  }

  /** Profile ice, summed over profiles. */
  function SumProfileIce(c: WallConfig, ps: seq<Profile>): int {
    if |ps| == 0 then 0 else SumProfileIce(c, ps[..|ps| - 1]) + ProfileIce(c, ps[|ps| - 1])
  }

  /** The wall's totals split over its profiles whenever the flat list is
      the concatenation of the profile lists (as parsing makes it), and its
      cost is its ice priced once. */
  lemma {:induction false} WallTotals(w: WallState)
    requires w.sections == Concat(w.profiles)
    ensures WallIce(w) == SumProfileIce(w.sectionConfig, w.profiles)
    ensures WallCost(w) == WallIce(w) * w.sectionConfig.costPerVolume
    decreases |w.profiles|
  {
    CostIsPricedIce(w.sectionConfig, w.sections);
    if |w.profiles| > 0 {
      var init := w.profiles[..|w.profiles| - 1];
      WallTotals(w.(profiles := init, sections := Concat(init)));
      SumIceAppend(w.sectionConfig, Concat(init), w.profiles[|w.profiles| - 1].sections);
    }
  }

  /** The message of the integer check of `WallManager.validate`. */
  function ElementMessage(i: nat, j: nat): string {
    "Element at index [" + IntToString(i) + "][" + IntToString(j) + "] is not an integer."
  }

  /** The position of the first non-int item, or the length when there is
      none. */
  function FirstNonInt(xs: seq<Value>): (j: nat)
    ensures j <= |xs|
    ensures forall k :: 0 <= k < j ==> IsInt(xs[k])
    ensures j < |xs| ==> !IsInt(xs[j])
  {
    if |xs| == 0 then 0 else if !IsInt(xs[0]) then 0 else 1 + FirstNonInt(xs[1..])
  }

  /** The first row (of lists) holding a non-int, or the length when there
      is none. */
  function FirstBadRow(rows: seq<Value>): (i: nat)
    requires Validator.AllLists(rows)
    ensures i <= |rows|
    ensures forall m :: 0 <= m < i ==> FirstNonInt(rows[m].items) == |rows[m].items|
    ensures i < |rows| ==> FirstNonInt(rows[i].items) < |rows[i].items|
  {
    if |rows| == 0 then 0
    else if FirstNonInt(rows[0].items) < |rows[0].items| then 0
    else 1 + FirstBadRow(rows[1..])
  }

  /** `WallManager.validate`: a list of lists of ints, with no bound on
      the sizes. The checks run in order: a list, every element a list,
      then row by row, item by item, the first non-int names its indices. */
  function ValidateConfigList(v: Value): (r: Outcome)
    ensures r.Pass? <==> IsIntMatrix(v)
    ensures r.Pass? || Validator.Raised(r)
    ensures !v.VList? ==> r == Validator.Invalid("The config_list must be a list")
    ensures v.VList? && !Validator.AllLists(v.items) ==>
              r == Validator.Invalid("All elements of config_list must be lists")
    ensures r.Fail? && v.VList? && Validator.AllLists(v.items) ==>
              exists i, j :: && 0 <= i < |v.items| && 0 <= j < |v.items[i].items|
                             && !IsInt(v.items[i].items[j])
                             && (forall m, k :: (0 <= m < |v.items| && 0 <= k < |v.items[m].items|
                                   && (m < i || (m == i && k < j))) ==> IsInt(v.items[m].items[k]))
                             && r == Validator.Invalid(ElementMessage(i, j))
  {
    if !v.VList? then Validator.Invalid("The config_list must be a list")
    else if !Validator.AllLists(v.items) then Validator.Invalid("All elements of config_list must be lists")
    else
      var i := FirstBadRow(v.items);
      if i == |v.items| then
        assert forall m, k :: 0 <= m < |v.items| && 0 <= k < |v.items[m].items| ==> IsInt(v.items[m].items[k]) by {
          forall m, k | 0 <= m < |v.items| && 0 <= k < |v.items[m].items|
            ensures IsInt(v.items[m].items[k])
          {
            assert FirstNonInt(v.items[m].items) == |v.items[m].items|;
          }
        }
        Pass
      else
        var j := FirstNonInt(v.items[i].items);
        assert forall m, k :: 0 <= m < i && 0 <= k < |v.items[m].items| ==> IsInt(v.items[m].items[k]) by {
          forall m, k | 0 <= m < i && 0 <= k < |v.items[m].items|
            ensures IsInt(v.items[m].items[k])
          {
            assert FirstNonInt(v.items[m].items) == |v.items[m].items|;
          }
        }
        Validator.Invalid(ElementMessage(i, j))
  }

  /** A configured list of integer rows always passes `validate`, and a
      value passes exactly when it reads back as integer rows. */
  lemma ValidateAcceptsRows(rows: seq<seq<int>>, v: Value)
    ensures ValidateConfigList(FromRows(rows)).Pass?
    ensures ValidateConfigList(v).Pass? <==> AsRows(v).Some?
  {
    RowsRoundTrip(rows);
  }

  /** The cases of builder/tests/test_manager.py: a flat list is
      rejected, and a list of integer rows is accepted. */
  lemma ValidateTestExpectations()
    ensures ValidateConfigList(VList([VInt(1), VInt(2)])) == Validator.Invalid("All elements of config_list must be lists")
    ensures ValidateConfigList(VList([VList([VInt(21), VInt(25)]), VList([VInt(17)])])).Pass?
  {
    assert !Validator.AllLists([VInt(1), VInt(2)]) by {
      assert ![VInt(1), VInt(2)][0].VList?;
    }
    var good := VList([VList([VInt(21), VInt(25)]), VList([VInt(17)])]);
    assert IsIntMatrix(good) by {
      assert forall r :: 0 <= r < 2 ==> good.items[r].VList?;
      assert forall k :: 0 <= k < 2 ==> IsInt(good.items[0].items[k]);
      assert IsInt(good.items[1].items[0]);
    }
  }

  /** The case of builder/tests/test_manager.py with a string among the
      heights: the error names the string's indices. */
  lemma ValidateNamesBadElement()
    ensures ValidateConfigList(VList([VList([VInt(1), VInt(2)]), VList([VInt(3), VStr("a")])]))
            == Validator.Invalid("Element at index [1][1] is not an integer.")
  {
    var row0 := [VInt(1), VInt(2)];
    var row1 := [VInt(3), VStr("a")];
    var rows := [VList(row0), VList(row1)];
    assert FirstNonInt(row0) == 2 by {
      assert row0[1..][1..] == [];
    }
    assert FirstNonInt(row1) == 1 by {
      assert row1[1..] == [VStr("a")];
    }
    assert FirstBadRow(rows) == 1 by {
      assert rows[1..] == [VList(row1)];
    }
    assert ValidateConfigList(VList(rows)) == Validator.Invalid(ElementMessage(1, 1));
    ElementMessageOneOne();
  }

  lemma ElementMessageOneOne()
    ensures ElementMessage(1, 1) == "Element at index [1][1] is not an integer."
  {
    assert IntToString(1) == "1";
  }

  /** The value `validate` sees for each attribute of a typed section. */
  function RawOf(s: Section): RawSection {
    RawSection(VInt(s.sectionId), if s.profileId.Some? then VInt(s.profileId.value) else VNone, VInt(s.startHeight))
  }

  /** `SectionBuilder.validate`: the start height, then the section id,
      then the profile id; the first failing check names the error. The
      start height is bounded by the configured target, although the
      message always says 30. */
  function ValidateSection(c: WallConfig, s: RawSection): (r: Outcome)
    ensures r.Pass? <==>
      && IsInt(s.startHeight) && 0 <= AsInt(s.startHeight) <= c.targetHeight
      && IsInt(s.sectionId) && AsInt(s.sectionId) >= 0
      && (s.profileId.VNone? || (IsInt(s.profileId) && AsInt(s.profileId) >= 0))
    ensures r.Pass? || Validator.Raised(r)
    ensures !IsInt(s.startHeight) ==> r == Validator.Invalid("The start height must be an integer")
    ensures IsInt(s.startHeight) && !(0 <= AsInt(s.startHeight) <= c.targetHeight) ==>
              r == Validator.Invalid("The start height must be between 0 and 30")
  {
    if !IsInt(s.startHeight) then Validator.Invalid("The start height must be an integer")
    else if !(0 <= AsInt(s.startHeight) <= c.targetHeight) then
      Validator.Invalid("The start height must be between 0 and 30")
    else if !IsInt(s.sectionId) then Validator.Invalid("The section_id must be an integer")
    else if AsInt(s.sectionId) < 0 then Validator.Invalid("The section_id must be a positive integer")
    else if !(IsInt(s.profileId) || s.profileId.VNone?) then Validator.Invalid("The profile_id must be an integer")
    else if !s.profileId.VNone? && AsInt(s.profileId) < 0 then
      Validator.Invalid("The profile_id must be a positive integer")
    else Pass
  }

  /** With the default target of 30, section validation is exactly the
      validator's height, primary-key and foreign-key checks in sequence,
      messages included. */
  lemma SectionValidationMatchesValidator(c: WallConfig, s: RawSection)
    requires c.targetHeight == TARGET_HEIGHT
    ensures ValidateSection(c, s) ==
      Validator.CheckIce(s.startHeight).Then(Validator.CheckPrimaryKey(s.sectionId)).Then(Validator.CheckForeignKey(s.profileId))
  {
  }

  /** Every section parsed from heights within [0, target] validates,
      the target being the section class's. */
  lemma ParsedSectionsValidate(w: WallState, n: nat)
    requires forall i, k :: 0 <= i < |w.config.profiles| && 0 <= k < |w.config.profiles[i]| ==>
               0 <= w.config.profiles[i][k] <= w.sectionConfig.targetHeight
    requires n < |ParseProfileList(w).sections|
    ensures ValidateSection(w.sectionConfig, RawOf(ParseProfileList(w).sections[n])) == Pass
  {
    var heights := Flatten(w.config.profiles);
    var s := ParseProfileList(w).sections[n];
    assert s.startHeight == heights[n] && s.sectionId == n;
    assert s.profileId.Some? && s.profileId.value >= 0;
    FlattenBounds(w.config.profiles, 0, w.sectionConfig.targetHeight);
    assert heights[n] in heights;
    WellFormedValidates(w.sectionConfig, s);
  }

  /** A section with a height within [0, target] and non-negative ids
      validates. */
  lemma WellFormedValidates(c: WallConfig, s: Section)
    requires 0 <= s.startHeight <= c.targetHeight && s.sectionId >= 0
    requires s.profileId.Some? ==> s.profileId.value >= 0
    ensures ValidateSection(c, RawOf(s)) == Pass
  {
  }

  /** Every height of the flattened rows is a height of some row, so row
      bounds carry over. */
  lemma {:induction false} FlattenBounds(rows: seq<seq<int>>, lo: int, hi: int)
    requires forall i, k :: 0 <= i < |rows| && 0 <= k < |rows[i]| ==> lo <= rows[i][k] <= hi
    ensures forall h :: h in Flatten(rows) ==> lo <= h <= hi
  {
    if |rows| > 0 {
      FlattenBounds(rows[..|rows| - 1], lo, hi);
    }
  }

  /** `ProfileBuilder.validate`: an int id of at least 0, then a list,
      then only sections, then between 1 and the configured maximum of them. */
  function ValidateProfile(c: WallConfig, profileId: Value, sections: Value): (r: Outcome)
    ensures r.Pass? <==>
      && IsInt(profileId) && AsInt(profileId) >= 0
      && sections.VList?
      && (forall k :: 0 <= k < |sections.items| ==> sections.items[k].VSection?)
      && 1 <= |sections.items| <= c.maxSectionCount
    ensures r.Pass? || Validator.Raised(r)
    ensures IsInt(profileId) && AsInt(profileId) >= 0 && sections.VList?
            && (forall k :: 0 <= k < |sections.items| ==> sections.items[k].VSection?)
            && !(1 <= |sections.items| <= c.maxSectionCount)
            ==> r == Validator.Invalid("The sections count must be between 1 and 2000")
  {
    if !IsInt(profileId) then Validator.Invalid("The profile_id must be an integer")
    else if !(AsInt(profileId) >= 0) then Validator.Invalid("The profile_id must be a positive integer")
    else if !sections.VList? then Validator.Invalid("The sections must be a list")
    else if !(forall k :: 0 <= k < |sections.items| ==> sections.items[k].VSection?) then
      Validator.Invalid("All sections must be WallSection objects")
    else if !(1 <= |sections.items| <= c.maxSectionCount) then
      Validator.Invalid("The sections count must be between 1 and 2000")
    else Pass
  }

  /** What `Pool(processes)` raises for fewer than one process. */
  const PoolError: Error := PyError(PyValueError, "Number of processes must be at least 1")

  /** One round of the day loop: `starmap(build, [(s, days) for s in
      sections])`, the first failing worker's exception surfacing. */
  function Round(c: WallConfig, ss: seq<Section>, days: int): (r: Result<seq<Section>>)
    ensures r.Err? <==> exists i :: 0 <= i < |ss| && TryBuildSection(c, ss[i], days).Err?
    ensures r.Err? <==> SleepRaises(c) && days >= 1 && !AllReady(c, ss)
    ensures r.Err? ==> r.error == SleepError
    ensures r.Ok? ==> |r.value| == |ss| && forall i :: 0 <= i < |ss| ==> r.value[i] == BuildSection(c, ss[i], days)
  {
    if SleepRaises(c) && days >= 1 && !AllReady(c, ss) then
      var i :| 0 <= i < |ss| && !SectionReady(c, ss[i]);
      assert TryBuildSection(c, ss[i], days).Err?;
      Err(SleepError)
    else
      Ok(seq(|ss|, i requires 0 <= i < |ss| => BuildSection(c, ss[i], days)))
  }

  /** The day loop: up to `rounds` rounds, breaking once every section is
      ready (never, when there are none). Each round builds every section
      for `days` days, so `rounds` rounds build each section for
      `rounds * days` days; the loop fails exactly when a sleep would be
      needed and cannot be taken. */
  function RunRounds(c: WallConfig, ss: seq<Section>, days: int, rounds: int): (r: Result<seq<Section>>)
    decreases rounds
    ensures r.Err? <==> rounds >= 1 && days >= 1 && SleepRaises(c) && !AllReady(c, ss)
    ensures r.Err? ==> r.error == SleepError
    ensures r.Ok? ==> |r.value| == |ss|
    ensures r.Ok? ==> forall i :: 0 <= i < |ss| ==> r.value[i] == BuildSection(c, ss[i], Max0(rounds) * Max0(days))
  {
    if rounds <= 0 || (|ss| > 0 && AllReady(c, ss)) then
      assert forall i :: 0 <= i < |ss| ==> BuildSection(c, ss[i], 0) == ss[i];
      assert |ss| > 0 && AllReady(c, ss) ==> forall i :: 0 <= i < |ss| ==> BuildSection(c, ss[i], Max0(rounds) * Max0(days)) == ss[i];
      Ok(ss)
    else
      match Round(c, ss, days)
      case Err(e) => Err(e)
      case Ok(next) =>
        forall i | 0 <= i < |ss|
          ensures BuildSection(c, next[i], Max0(rounds - 1) * Max0(days))
               == BuildSection(c, ss[i], Max0(rounds) * Max0(days))
        {
          OneMoreRound(c, ss[i], days, rounds);
        }
        RunRounds(c, next, days, rounds - 1)
  }

  /** A round of `days` days followed by `rounds - 1` more is `rounds`
      rounds. */
  lemma OneMoreRound(c: WallConfig, s: Section, days: int, rounds: int)
    requires rounds >= 1
    ensures BuildSection(c, BuildSection(c, s, days), Max0(rounds - 1) * Max0(days))
         == BuildSection(c, s, Max0(rounds) * Max0(days))
  {
    assert Max0(rounds) * Max0(days) == Max0(days) + Max0(rounds - 1) * Max0(days);
    NonPositiveDays(c, s, days);
    BuildSectionComposes(c, s, Max0(days), Max0(rounds - 1) * Max0(days));
  }

  /** Building for no days, or a negative number, changes nothing. */
  lemma NonPositiveDays(c: WallConfig, s: Section, days: int)
    ensures BuildSection(c, s, days) == BuildSection(c, s, Max0(days))
  {
  }

  /** A freshly parsed manager has an unready section exactly when some
      configured height is below the section target. */
  lemma ParsedReadiness(w: WallState)
    ensures !AllReady(w.sectionConfig, ParseProfileList(w).sections) <==>
      exists n :: 0 <= n < |Flatten(w.config.profiles)| && Flatten(w.config.profiles)[n] < w.sectionConfig.targetHeight
  {
    ParsedAtHeights(w);
    UnreadyBelowTarget(w.sectionConfig, ParseProfileList(w).sections, Flatten(w.config.profiles));
  }

  /** The parsed sections stand at the configured heights. */
  lemma ParsedAtHeights(w: WallState)
    ensures var ss := ParseProfileList(w).sections; var heights := Flatten(w.config.profiles);
      |ss| == |heights| &&
      forall n :: 0 <= n < |heights| ==> ss[n].startHeight == heights[n] && ss[n].currentHeight == heights[n]
  {
  }

  /** Sections standing at the given heights are not all ready exactly
      when some height is below the target. */
  lemma UnreadyBelowTarget(c: WallConfig, ss: seq<Section>, heights: seq<int>)
    requires |ss| == |heights| && forall n :: 0 <= n < |heights| ==> ss[n].currentHeight == heights[n]
    ensures !AllReady(c, ss) <==> exists n :: 0 <= n < |heights| && heights[n] < c.targetHeight
  {
    if !AllReady(c, ss) {
      var n :| 0 <= n < |ss| && !SectionReady(c, ss[n]);
      assert heights[n] < c.targetHeight;
    }
    if exists n :: 0 <= n < |heights| && heights[n] < c.targetHeight {
      var n :| 0 <= n < |heights| && heights[n] < c.targetHeight;
      assert !SectionReady(c, ss[n]);
    }
  }

  /** The build fails exactly when there are no teams, or when a sleep is
      needed (a configured height below the section target, at least one
      day) and the section class's sleep is negative. */
  lemma BuildFailure(w: WallState, days: int, numTeams: int)
    ensures var heights := Flatten(w.config.profiles);
      Build(w, days, numTeams).Err? <==>
        numTeams < 1
        || (days >= 1 && SleepRaises(w.sectionConfig)
            && exists n :: 0 <= n < |heights| && heights[n] < w.sectionConfig.targetHeight)
  {
    ParsedReadiness(w);
  }

  /** A manager made by `set_config` fails to build exactly when it has no
      teams, whatever its configuration: its sections sleep for the
      default, non-negative, time. */
  lemma NewManagerBuildFailure(c: WallConfig, days: int, numTeams: int)
    ensures Build(NewManager(c), days, numTeams).Err? <==> numTeams < 1
    ensures Build(NewManager(c), days, numTeams).Err? ==> Build(NewManager(c), days, numTeams).error == WrapBuildFailure(PoolError)
  {
    assert !SleepRaises(NewManager(c).sectionConfig);
  }

  /** The manager's configuration contributes only its profile list: two
      managers made by `set_config` from configurations with the same list
      build alike, with the same outcome, sections and profiles, however
      their targets, rates, prices and sleeps differ. */
  lemma ManagerConfigSuppliesRows(c: WallConfig, d: WallConfig, days: int, numTeams: int)
    requires c.profiles == d.profiles
    ensures Build(NewManager(c), days, numTeams).Ok? <==> Build(NewManager(d), days, numTeams).Ok?
    ensures Build(NewManager(c), days, numTeams).Ok? ==>
      && Build(NewManager(c), days, numTeams).value.sections == Build(NewManager(d), days, numTeams).value.sections
      && Build(NewManager(c), days, numTeams).value.profiles == Build(NewManager(d), days, numTeams).value.profiles
  {
    var pc := ParseProfileList(NewManager(c));
    var pd := ParseProfileList(NewManager(d));
    assert pc.sections == pd.sections && pc.profiles == pd.profiles;
  }

  /** Everything `WallManager.build` does after parsing: start the pool,
      run `days` rounds of `build(section, days)`, then regroup. Whatever
      is raised surfaces as a `BuilderError` whose message embeds the
      original. */
  function RunParsed(p: WallState, days: int, numTeams: int): (r: Result<WallState>)
    ensures r.Err? <==> numTeams < 1 || (days >= 1 && SleepRaises(p.sectionConfig) && !AllReady(p.sectionConfig, p.sections))
    ensures r.Err? && numTeams < 1 ==> r.error == WrapBuildFailure(PoolError)
    ensures r.Err? && numTeams >= 1 ==> r.error == WrapBuildFailure(SleepError)
    ensures r.Ok? ==>
      && SameConfigs(r.value, p)
      && |r.value.sections| == |p.sections|
      && (forall n :: 0 <= n < |p.sections| ==>
            r.value.sections[n] == BuildSection(p.sectionConfig, p.sections[n], Max0(days) * Max0(days)))
      && |r.value.profiles| == |p.profiles|
      && (forall i :: 0 <= i < |p.profiles| ==>
            && r.value.profiles[i].profileId == p.profiles[i].profileId
            && r.value.profiles[i].sections == FilterByProfile(r.value.sections, p.profiles[i].profileId))
  {
    if numTeams < 1 then Err(WrapBuildFailure(PoolError))
    else
      match RunRounds(p.sectionConfig, p.sections, days, days)
      case Err(e) => Err(WrapBuildFailure(e))
      case Ok(ss) => Ok(UpdateProfiles(p.(sections := ss)))
  }

  /** `WallManager.build(days, num_teams)`, both defaulting to 1 in the
      source (callers here pass them): parse the configured list afresh,
      then run the rounds on the result. The outcome depends on the
      configurations alone. */
  function Build(w: WallState, days: int, numTeams: int): (r: Result<WallState>)
    ensures r.Err? <==> numTeams < 1 || (days >= 1 && SleepRaises(w.sectionConfig) && !AllReady(w.sectionConfig, ParseProfileList(w).sections))
    ensures r.Err? && numTeams < 1 ==> r.error == WrapBuildFailure(PoolError)
    ensures r.Err? && numTeams >= 1 ==> r.error == WrapBuildFailure(SleepError)
    ensures r.Ok? ==> var p := ParseProfileList(w);
      && SameConfigs(r.value, w)
      && |r.value.sections| == |p.sections|
      && (forall n :: 0 <= n < |p.sections| ==>
            r.value.sections[n] == BuildSection(w.sectionConfig, p.sections[n], Max0(days) * Max0(days)))
      && |r.value.profiles| == |p.profiles|
      && (forall i :: 0 <= i < |p.profiles| ==>
            && r.value.profiles[i].profileId == p.profiles[i].profileId
            && r.value.profiles[i].sections == FilterByProfile(r.value.sections, p.profiles[i].profileId))
  {
    RunParsed(ParseProfileList(w), days, numTeams)
  }

  /** The manager as `build` leaves it, whether it returns or raises. The
      parse has already replaced the lists when the pool refuses to start
      or a worker raises, and a raising worker's changes stay in that
      worker, so a failed build leaves the freshly parsed lists. */
  function AfterBuild(w: WallState, days: int, numTeams: int): (r: WallState)
    ensures SameConfigs(r, w)
    ensures Build(w, days, numTeams).Ok? ==> r == Build(w, days, numTeams).value
    ensures Build(w, days, numTeams).Err? ==> r == ParseProfileList(w)
  {
    match Build(w, days, numTeams)
    case Ok(v) => v
    case Err(_) => ParseProfileList(w)
  }

  /** Parsing forgets the lists: two states with the same configurations
      parse to the same state. */
  lemma ParseForgetsLists(a: WallState, b: WallState)
    requires SameConfigs(a, b)
    ensures ParseProfileList(a) == ParseProfileList(b)
  {
  }

  /** A build does not depend on the builds before it, whether they
      succeeded or raised: building again from whatever an earlier build
      left is building from the start. */
  lemma BuildIgnoresEarlierBuilds(w: WallState, days: int, numTeams: int, days2: int, numTeams2: int)
    ensures Build(AfterBuild(w, days, numTeams), days2, numTeams2) == Build(w, days2, numTeams2)
  {
    ParseForgetsLists(AfterBuild(w, days, numTeams), w);
  }

  /** Every section built for `days` days, in order. */
  function BuildAll(c: WallConfig, ss: seq<Section>, days: int): (r: seq<Section>)
    ensures |r| == |ss|
  {
    seq(|ss|, n requires 0 <= n < |ss| => BuildSection(c, ss[n], days))
  }

  /** Every section put through `f`, in order: a pool round, for an `f`
      that builds one section. */
  function MapSections(f: Section -> Section, ss: seq<Section>): (r: seq<Section>)
    ensures |r| == |ss| && forall n :: 0 <= n < |ss| ==> r[n] == f(ss[n])
  {
    seq(|ss|, n requires 0 <= n < |ss| => f(ss[n]))
  }

  /** Every profile with its sections put through `f`. */
  function MapProfiles(f: Section -> Section, ps: seq<Profile>): (r: seq<Profile>)
    ensures |r| == |ps|
    ensures forall j :: 0 <= j < |ps| ==> r[j].profileId == ps[j].profileId && r[j].sections == MapSections(f, ps[j].sections)
  {
    seq(|ps|, j requires 0 <= j < |ps| => ps[j].(sections := MapSections(f, ps[j].sections)))
  }

  /** Mapping the flat list is mapping each profile's list and
      concatenating. */
  lemma {:induction false} MapConcat(f: Section -> Section, ps: seq<Profile>)
    ensures MapSections(f, Concat(ps)) == Concat(MapProfiles(f, ps))
  {
    if |ps| > 0 {
      var init := ps[..|ps| - 1];
      var last := ps[|ps| - 1];
      MapConcat(f, init);
      assert MapProfiles(f, ps)[..|ps| - 1] == MapProfiles(f, init);
      assert MapSections(f, Concat(init) + last.sections)
          == MapSections(f, Concat(init)) + MapSections(f, last.sections);
    }
  }

  /** A map that keeps every section's profile identifier keeps the
      profiles tagged. */
  lemma MappedTagged(f: Section -> Section, ps: seq<Profile>)
    requires forall x :: f(x).profileId == x.profileId
    requires SectionsTagged(ps)
    ensures SectionsTagged(MapProfiles(f, ps))
  {
    var mp := MapProfiles(f, ps);
    forall j, k | 0 <= j < |mp| && 0 <= k < |mp[j].sections|
      ensures mp[j].sections[k].profileId == Some(mp[j].profileId)
    {
      assert mp[j].sections[k] == f(ps[j].sections[k]);
    }
  }

  /** When the map keeps identifiers, filtering the mapped concatenation by
      a profile's (distinct) identifier gives that profile's list, mapped:
      regrouping after a round puts every section back in its profile. */
  lemma RegroupMapped(f: Section -> Section, ps: seq<Profile>, i: nat)
    requires forall x :: f(x).profileId == x.profileId
    requires SectionsTagged(ps)
    requires forall a, b :: 0 <= a < b < |ps| ==> ps[a].profileId != ps[b].profileId
    requires i < |ps|
    ensures FilterByProfile(MapSections(f, Concat(ps)), ps[i].profileId) == MapSections(f, ps[i].sections)
  {
    var mp := MapProfiles(f, ps);
    assert FilterByProfile(Concat(mp), ps[i].profileId) == mp[i].sections by {
      MappedTagged(f, ps);
      FilterConcatDistinct(mp, ps[i].profileId);
    }
    MapConcat(f, ps);
  }

  /** When no two rows are equal, each profile of a successful build holds
      exactly its own row's sections, built, in order. */
  lemma BuildRegroupsByRow(w: WallState, days: int, numTeams: int, i: nat)
    requires DistinctRows(w.config.profiles)
    requires Build(w, days, numTeams).Ok?
    requires i < |w.config.profiles|
    ensures var p := ParseProfileList(w);
      Build(w, days, numTeams).value.profiles[i].sections
        == BuildAll(w.sectionConfig, p.profiles[i].sections, Max0(days) * Max0(days))
  {
    var p := ParseProfileList(w);
    var r := Build(w, days, numTeams).value;
    BuiltSections(w, days, numTeams);
    ParsedTagged(w);
    ParsedDistinct(w);
    assert r.profiles[i].sections == FilterByProfile(r.sections, p.profiles[i].profileId);
    FilterBuilt(w.sectionConfig, p.profiles, Max0(days) * Max0(days), i);
  }

  /** When each profile's sections carry its own, distinct, identifier,
      filtering the built flat list by profile `i`'s identifier gives that
      profile's sections, built. */
  lemma FilterBuilt(c: WallConfig, ps: seq<Profile>, d: int, i: nat)
    requires SectionsTagged(ps)
    requires forall a, b :: 0 <= a < b < |ps| ==> ps[a].profileId != ps[b].profileId
    requires i < |ps|
    ensures FilterByProfile(BuildAll(c, Concat(ps), d), ps[i].profileId) == BuildAll(c, ps[i].sections, d)
  {
    var f := (x: Section) => BuildSection(c, x, d);
    assert BuildAll(c, Concat(ps), d) == MapSections(f, Concat(ps));
    assert BuildAll(c, ps[i].sections, d) == MapSections(f, ps[i].sections);
    RegroupMapped(f, ps, i);
  }

  /** A successful build's flat list is the parsed list, each section
      built for the square of the day count. */
  lemma BuiltSections(w: WallState, days: int, numTeams: int)
    requires Build(w, days, numTeams).Ok?
    ensures Build(w, days, numTeams).value.sections
         == BuildAll(w.sectionConfig, ParseProfileList(w).sections, Max0(days) * Max0(days))
  {
  }
}
