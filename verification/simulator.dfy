/** builder/simulator.py, the earlier single-module variant of the builder.
    Its state has the shape of the manager's (a configured list of rows,
    profiles, a flat list of sections), so it reuses `Manager.WallState`
    and reads only the configured rows from its configuration: every
    other quantity is a module constant (target 30, one foot per step,
    195 cubic yards per foot, 1900 per cubic yard). What differs from
    builder/manager.py:
      - a section's build adds one foot if below 30 and never overshoots;
      - an empty profile or wall counts as ready;
      - a profile's build has no early exit;
      - parsing appends to the existing lists instead of replacing them;
      - the day count and team count have defaults, the latter taken
        before parsing;
      - validation raises Python's built-in exceptions. */
module Simulator {
  import opened Errors
  import opened Outcomes
  import opened Values
  import opened Config
  import opened Wall
  import Manager
  import Completion

  /** The module constants, as a configuration. */
  const Sim: WallConfig := DefaultConfig

  // ---------------------------------------------------------------- sections

  /** `WallSection.build`: one foot if below the target, else nothing. */
  function BuildOne(s: Section): (r: Section)
    ensures r.sectionId == s.sectionId && r.profileId == s.profileId
    ensures r.startHeight == s.startHeight && r.day == s.day
  {
    if s.currentHeight < TARGET_HEIGHT then s.(currentHeight := s.currentHeight + 1) else s
  }

  /** `k` calls of `WallSection.build`. */
  function BuildTimes(s: Section, k: nat): Section
    decreases k
  {
    if k == 0 then s else BuildTimes(BuildOne(s), k - 1)
  }

  /** `k` calls leave a section at or above the target where it is, and
      take one below it up by `k` feet but never past the target: the
      height is min(h + k, 30), so a height that starts at or below 30
      never exceeds it. */
  lemma {:induction false} BuildTimesClosedForm(s: Section, k: nat)
    ensures var r := BuildTimes(s, k);
      && r.sectionId == s.sectionId && r.profileId == s.profileId
      && r.startHeight == s.startHeight && r.day == s.day
      && r.currentHeight == (if s.currentHeight >= TARGET_HEIGHT then s.currentHeight
                             else Min(s.currentHeight + k, TARGET_HEIGHT))
      && (s.currentHeight <= TARGET_HEIGHT ==> r.currentHeight <= TARGET_HEIGHT)
    decreases k
  {
    if k > 0 {
      BuildTimesClosedForm(BuildOne(s), k - 1);
    }
  }

  /** The one-foot step reaches the same heights as builder/manager.py's
      `build(days)` at one foot per day and the default target. */
  lemma AgreesWithRateOne(c: WallConfig, s: Section, k: nat)
    requires c.buildRate == 1 && c.targetHeight == TARGET_HEIGHT
    ensures BuildTimes(s, k).currentHeight == BuildSection(c, s, k).currentHeight
  {
    BuildTimesClosedForm(s, k);
    Completion.RateOneSteps(c, s.currentHeight);
    BuildSectionClosedForm(c, s, k);
  }

  /** `all(section.is_ready() for section in ss)`: true of no sections. */
  predicate Ready(ss: seq<Section>) {
    AllReady(Sim, ss)
  }

  /** The simulator's readiness and the manager's differ only on an empty
      list, which the simulator calls ready and the manager does not. */
  lemma ReadinessDiffersOnEmpty(w: Manager.WallState)
    requires w.sectionConfig == Sim
    ensures Ready(w.sections) <==> |w.sections| == 0 || Manager.WallReady(w)
    ensures Ready([])
    ensures !Manager.WallReady(w.(sections := []))
  {
  }

  // ---------------------------------------------------------------- profiles

  /** `WallProfile.is_ready`: like the wall's, true of an empty profile,
      which builder/manager.py's profile does not call ready. */
  lemma ProfileReadinessDiffersOnEmpty(p: Profile)
    ensures Ready(p.sections) <==> |p.sections| == 0 || ProfileReady(Sim, p)
    ensures Ready(Profile(p.profileId, []).sections) && !ProfileReady(Sim, Profile(p.profileId, []))
  {
  }

  /** A profile's cost prices its summed ice once, which is the sum of
      its sections' costs; an empty profile holds nothing. */
  lemma ProfileCostIsPricedIce(p: Profile)
    ensures ProfileCost(Sim, Sim, p) == SumCost(Sim, p.sections)
    ensures ProfileCost(Sim, Sim, p) == ProfileIce(Sim, p) * COST_PER_VOLUME
    ensures |p.sections| == 0 ==> ProfileIce(Sim, p) == 0
  {
    CostIsPricedIce(Sim, p.sections);
  }

  /** `WallProfile.build(days)`, `days` defaulting to 1 in the source:
      every day, each section not yet ready gains a foot; the loop runs
      all `days` days. */
  function BuildProfile(p: Profile, days: int): (r: Profile)
    decreases days
    ensures r.profileId == p.profileId && |r.sections| == |p.sections|
    ensures forall i :: 0 <= i < |p.sections| ==> r.sections[i] == BuildTimes(p.sections[i], Max0(days))
  {
    if days <= 0 then p
    else
      var next := p.(sections := seq(|p.sections|, i requires 0 <= i < |p.sections| =>
        if SectionReady(Sim, p.sections[i]) then p.sections[i] else BuildOne(p.sections[i])));
      assert forall i :: 0 <= i < |p.sections| ==> next.sections[i] == BuildOne(p.sections[i]);
      BuildProfile(next, days - 1)
  }

  /** A simulator profile and a manager profile built for the same days
      at one foot per day end at the same heights: skipping the days
      after the profile is ready changes nothing. */
  lemma ProfileBuildsAgree(p: Profile, days: int, i: nat)
    requires i < |p.sections|
    ensures BuildProfile(p, days).sections[i].currentHeight
         == Wall.BuildProfile(Sim, p, days).sections[i].currentHeight
  {
    AgreesWithRateOne(Sim, p.sections[i], Max0(days));
    NonPositiveDays(p.sections[i], days);
  }

  /** A non-positive day count builds nothing in builder/manager.py. */
  lemma NonPositiveDays(s: Section, days: int)
    ensures BuildSection(Sim, s, days) == BuildSection(Sim, s, Max0(days))
  {
  }

  // ---------------------------------------------------------------- the wall

  /** `parse_config`: the sections and profiles of the configured rows,
      numbered from 0 and tagged with the first-equal-row index, appended
      to the lists already there. */
  function ParseConfig(w: Manager.WallState): (r: Manager.WallState)
    ensures var rows := w.config.profiles; var hs := Manager.Flatten(rows);
      && r.config == w.config
      && |r.profiles| == |w.profiles| + |rows|
      && r.profiles[..|w.profiles|] == w.profiles
      && |r.sections| == |w.sections| + |hs|
      && r.sections[..|w.sections|] == w.sections
      && forall n :: 0 <= n < |hs| ==>
           && r.sections[|w.sections| + n].sectionId == n
           && r.sections[|w.sections| + n].startHeight == hs[n]
           && r.sections[|w.sections| + n].currentHeight == hs[n]
  {
    var p := Manager.ParseProfileList(w);
    w.(profiles := w.profiles + p.profiles, sections := w.sections + p.sections)
  }

  /** What parsing appends is exactly what builder/manager.py's parse
      produces on its own. */
  lemma ParseAppendsManagerParse(w: Manager.WallState)
    ensures ParseConfig(w).sections == w.sections + Manager.ParseProfileList(w).sections
    ensures ParseConfig(w).profiles == w.profiles + Manager.ParseProfileList(w).profiles
  {
  }

  /** The day loop: up to `days` rounds, stopping once every section is
      ready, each round one foot for every section. As a ready section's
      step changes nothing, the result is every section stepped `days`
      times. */
  function Rounds(ss: seq<Section>, days: int): (r: seq<Section>)
    decreases days
    ensures |r| == |ss|
    ensures forall i :: 0 <= i < |ss| ==> r[i] == BuildTimes(ss[i], Max0(days))
  {
    if days <= 0 then ss
    else if Ready(ss) then
      assert forall i :: 0 <= i < |ss| ==> BuildTimes(ss[i], Max0(days)) == ss[i] by {
        forall i | 0 <= i < |ss| ensures BuildTimes(ss[i], Max0(days)) == ss[i] {
          ReadyStays(ss[i], Max0(days));
        }
      }
      ss
    else
      Rounds(seq(|ss|, i requires 0 <= i < |ss| => BuildOne(ss[i])), days - 1)
  }

  /** A ready section stays as it is. */
  lemma {:induction false} ReadyStays(s: Section, k: nat)
    requires SectionReady(Sim, s)
    ensures BuildTimes(s, k) == s
  {
    if k > 0 {
      ReadyStays(BuildOne(s), k - 1);
    }
  }

  /** `-(-a // b)`: Python's floor division, negated twice. */
  function CeilDiv(a: int, b: int): (q: int)
    requires b > 0
    ensures b * (q - 1) < a <= b * q
  {
    var f := (-a) / b;
    assert -a == b * f + (-a) % b;
    -f
  }

  /** The default day count: the days needed from the ground at the
      default rate. */
  const DefaultDays: int := CeilDiv(TARGET_HEIGHT, BUILD_RATE)

  lemma DefaultDaysIsThirty()
    ensures DefaultDays == 30
  {
  }

  /** `update_profiles`: each profile's list becomes the sections of the
      flat list that carry its identifier; nothing else changes. */
  function Regroup(w: Manager.WallState): (r: Manager.WallState)
    ensures Manager.SameConfigs(r, w) && r.sections == w.sections && |r.profiles| == |w.profiles|
    ensures forall i :: 0 <= i < |w.profiles| ==>
      && r.profiles[i].profileId == w.profiles[i].profileId
      && r.profiles[i].sections == Manager.FilterByProfile(w.sections, w.profiles[i].profileId)
    ensures forall i, x :: 0 <= i < |w.profiles| ==>
      (x in r.profiles[i].sections <==> x in w.sections && x.profileId == Some(w.profiles[i].profileId))
  {
    assert forall i, x :: 0 <= i < |w.profiles| ==>
      (x in Manager.FilterByProfile(w.sections, w.profiles[i].profileId) <==>
       x in w.sections && x.profileId == Some(w.profiles[i].profileId)) by {
      forall i | 0 <= i < |w.profiles| {
        Manager.FilterMembers(w.sections, w.profiles[i].profileId);
      }
    }
    w.(profiles := seq(|w.profiles|, i requires 0 <= i < |w.profiles| =>
      Profile(w.profiles[i].profileId, Manager.FilterByProfile(w.sections, w.profiles[i].profileId))))
  }

  /** The simulator's regrouping is builder/manager.py's. */
  lemma RegroupIsManagers(w: Manager.WallState)
    ensures Regroup(w) == Manager.UpdateProfiles(w)
  {
  }

  /** `WallBuilderSimulator.build(days, num_teams)`: the team count
      defaults to the number of sections before parsing and the day count
      to 30; then the rows are parsed onto the existing lists, a pool of
      that many processes is opened (fewer than one raises), the day loop
      runs and the profiles are regrouped. */
  function Build(w: Manager.WallState, days: Option<int>, numTeams: Option<int>): (r: Result<Manager.WallState>)
    ensures var teams := numTeams.GetOr(|w.sections|);
      && (r.Err? <==> teams < 1)
      && (r.Err? ==> r.error == Manager.PoolError)
    ensures r.Ok? ==> var p := ParseConfig(w);
      && Manager.SameConfigs(r.value, w)
      && |r.value.sections| == |p.sections|
      && (forall n :: 0 <= n < |p.sections| ==>
            r.value.sections[n] == BuildTimes(p.sections[n], Max0(days.GetOr(DefaultDays))))
      && |r.value.profiles| == |p.profiles|
      && (forall i :: 0 <= i < |p.profiles| ==>
            && r.value.profiles[i].profileId == p.profiles[i].profileId
            && r.value.profiles[i].sections == Manager.FilterByProfile(r.value.sections, p.profiles[i].profileId))
  {
    var teams := numTeams.GetOr(|w.sections|);
    var d := days.GetOr(DefaultDays);
    var p := ParseConfig(w);
    if teams < 1 then Err(Manager.PoolError)
    else Ok(Regroup(p.(sections := Rounds(p.sections, d))))
  }

  /** The simulator as `build` leaves it, whether it returns or raises: a
      refused pool raises after `parse_config` has appended its sections. */
  function AfterBuild(w: Manager.WallState, days: Option<int>, numTeams: Option<int>): (r: Manager.WallState)
    ensures Build(w, days, numTeams).Ok? ==> r == Build(w, days, numTeams).value
    ensures Build(w, days, numTeams).Err? ==> r == ParseConfig(w)
  {
    match Build(w, days, numTeams)
    case Ok(v) => v
    case Err(_) => ParseConfig(w)
  }

  /** A build with teams leaves the parsed sections after the day loop. */
  lemma BuiltSections(w: Manager.WallState, days: int, teams: int)
    requires teams >= 1
    ensures Build(w, Some(days), Some(teams)).Ok?
    ensures Build(w, Some(days), Some(teams)).value.sections == Rounds(ParseConfig(w).sections, days)
  {
  }

  /** `WallBuilderSimulator(config_list)`: the rows, and nothing parsed
      yet. */
  function NewSimulator(rows: seq<seq<int>>): (w: Manager.WallState)
    ensures w.config.profiles == rows && w.profiles == [] && w.sections == []
    ensures w.sectionConfig == Sim
  {
    Manager.NewManager(WithProfiles(rows))
  }

  /** `get_ice`: the sections' ice, from the module constants. */
  function Ice(w: Manager.WallState): int {
    SumIce(Sim, w.sections)
  }

  /** `get_cost`: the sections' costs, summed. */
  function Cost(w: Manager.WallState): int {
    SumCost(Sim, w.sections)
  }

  /** The wall's summed costs are its ice priced once; a simulator with no
      sections holds nothing and counts as ready; and its totals are those
      builder/manager.py computes under the default configuration. */
  lemma WallTotals(w: Manager.WallState)
    requires w.sectionConfig == Sim
    ensures Cost(w) == Ice(w) * COST_PER_VOLUME
    ensures |w.sections| == 0 ==> Ice(w) == 0 && Cost(w) == 0 && Ready(w.sections)
    ensures Ice(w) == Manager.WallIce(w) && Cost(w) == Manager.WallCost(w)
  {
    CostIsPricedIce(Sim, w.sections);
  }

  /** Sections fresh at heights `hs`, each stepped `d` times where no
      height is more than `d` feet short: all ready, holding the ice of
      the total gap. */
  lemma FreshSectionsComplete(ss: seq<Section>, bs: seq<Section>, hs: seq<int>, d: nat)
    requires RowFresh(ss, hs) && Stepped(bs, ss, d)
    requires Completion.WithinDays(Sim, hs, d)
    ensures Ready(bs)
    ensures SumIce(Sim, bs) == Completion.Gap(Sim, hs) * VOLUME_ICE_PER_FOOT
  {
    forall n | 0 <= n < |bs|
      ensures SectionReady(Sim, bs[n])
      ensures bs[n].currentHeight - bs[n].startHeight == Max0(TARGET_HEIGHT - hs[n])
    {
      BuildTimesClosedForm(ss[n], d);
    }
    Completion.IceOfGains(Sim, bs, hs);
  }

  /** A fresh simulator given teams and, for every section, at least as
      many days as it is short of the target, finishes: every section
      ready, the ice that of the total gap and the cost that ice priced
      once. */
  lemma CompletedBuild(rows: seq<seq<int>>, days: int, teams: int)
    requires teams >= 1
    requires Completion.WithinDays(Sim, Manager.Flatten(rows), Max0(days))
    ensures var r := Build(NewSimulator(rows), Some(days), Some(teams));
      var hs := Manager.Flatten(rows);
      && r.Ok?
      && Ready(r.value.sections)
      && Ice(r.value) == Completion.Gap(Sim, hs) * VOLUME_ICE_PER_FOOT
      && Cost(r.value) == Completion.Gap(Sim, hs) * VOLUME_ICE_PER_FOOT * COST_PER_VOLUME
  {
    var r := Build(NewSimulator(rows), Some(days), Some(teams));
    FreshSectionsComplete(ParseConfig(NewSimulator(rows)).sections, r.value.sections, Manager.Flatten(rows), Max0(days));
    CostIsPricedIce(Sim, r.value.sections);
  }

  /** builder/simulator.py's `main`: the three rows built for 30 days by
      20 teams consume 87 * 195 = 16965 cubic yards, of which the first
      profile, 16 feet short, holds 16 * 195 = 3120. */
  lemma MainExpectation()
    ensures var r := Build(NewSimulator(Completion.ThreeRows), Some(30), Some(20));
      && r.Ok? && Ready(r.value.sections) && Ice(r.value) == 16965 && Cost(r.value) == 16965 * 1900
      && ProfileIce(Sim, r.value.profiles[0]) == 16 * 195
  {
    var hs := Manager.Flatten(Completion.ThreeRows);
    Completion.ThreeRowHeights();
    Completion.ThreeRowTotal();
    assert Completion.WithinDays(Sim, hs, 30);
    CompletedBuild(Completion.ThreeRows, 30, 20);
    MainFirstProfile();
  }

  /** The first profile of `main`'s build holds the ice of its row's gap. */
  lemma MainFirstProfile()
    ensures var r := Build(NewSimulator(Completion.ThreeRows), Some(30), Some(20));
      r.Ok? && |r.value.profiles| == 3 && ProfileIce(Sim, r.value.profiles[0]) == 16 * 195
  {
    var rows := Completion.ThreeRows;
    Completion.ThreeRowsDistinct();
    Completion.ThreeRowGaps();
    assert Completion.WithinDays(Sim, rows[0], 30);
    CompletedProfile(rows, 30, 20, 0);
  }

  /** `bs` is `ss` with every section stepped `k` times. */
  predicate Stepped(bs: seq<Section>, ss: seq<Section>, k: nat) {
    |bs| == |ss| && forall n :: 0 <= n < |ss| ==> bs[n] == BuildTimes(ss[n], k)
  }

  /** `ss` is a freshly parsed row of heights `hs`. */
  predicate RowFresh(ss: seq<Section>, hs: seq<int>) {
    |ss| == |hs| && forall n :: 0 <= n < |ss| ==> ss[n].startHeight == hs[n] && ss[n].currentHeight == hs[n]
  }

  /** The flat list is the profiles' lists in order, each profile's
      sections carry its identifier, and no two profiles share one. */
  predicate Grouped(p: Manager.WallState) {
    && p.sections == Manager.Concat(p.profiles)
    && Manager.SectionsTagged(p.profiles)
    && forall a, b :: 0 <= a < b < |p.profiles| ==> p.profiles[a].profileId != p.profiles[b].profileId
  }

  /** With no two rows equal, builder/manager.py's parse is grouped. */
  lemma ParsedGrouped(w: Manager.WallState)
    requires Manager.DistinctRows(w.config.profiles)
    ensures Grouped(Manager.ParseProfileList(w))
  {
    Manager.ParsedTagged(w);
    Manager.ParsedDistinct(w);
  }

  /** Profile `i` of builder/manager.py's parse is row `i`, fresh. */
  lemma ParsedRowFresh(w: Manager.WallState, i: nat)
    requires i < |w.config.profiles|
    ensures var p := Manager.ParseProfileList(w);
      i < |p.profiles| && RowFresh(p.profiles[i].sections, w.config.profiles[i])
  {
    Manager.ParsedProfiles(w);
  }

  /** A fresh simulator's parse is builder/manager.py's. */
  lemma FreshParse(rows: seq<seq<int>>)
    ensures ParseConfig(NewSimulator(rows)) == Manager.ParseProfileList(NewSimulator(rows))
  {
    var w := NewSimulator(rows);
    var p := Manager.ParseProfileList(w);
    assert [] + p.sections == p.sections && [] + p.profiles == p.profiles;
  }

  /** With teams, the build is the day loop on the parse, regrouped. */
  lemma BuildUnfolds(w: Manager.WallState, days: int, teams: int)
    requires teams >= 1
    ensures var p := ParseConfig(w);
      Build(w, Some(days), Some(teams)) == Ok(Regroup(p.(sections := Rounds(p.sections, days))))
  {
  }

  /** On a grouped state, regrouping after the day loop gives every
      profile its own sections, each stepped `days` times. */
  lemma SteppedRegroup(p: Manager.WallState, days: int, i: nat)
    requires Grouped(p) && i < |p.profiles|
    ensures var q := Regroup(p.(sections := Rounds(p.sections, days)));
      i < |q.profiles| && Stepped(q.profiles[i].sections, p.profiles[i].sections, Max0(days))
  {
    var ps := p.profiles;
    var f := (x: Section) => BuildTimes(x, Max0(days));
    forall x: Section
      ensures f(x).profileId == x.profileId
    {
      BuildTimesClosedForm(x, Max0(days));
    }
    assert Rounds(Manager.Concat(ps), days) == Manager.MapSections(f, Manager.Concat(ps));
    Manager.RegroupMapped(f, ps, i);
  }

  /** On a grouped state whose profile `i` is a fresh row within reach,
      profile `i` ends holding the ice of that row's gap. */
  lemma RegroupedProfileIce(p: Manager.WallState, days: int, i: nat, hs: seq<int>)
    requires Grouped(p) && i < |p.profiles| && RowFresh(p.profiles[i].sections, hs)
    requires Completion.WithinDays(Sim, hs, Max0(days))
    ensures var q := Regroup(p.(sections := Rounds(p.sections, days)));
      i < |q.profiles| && ProfileIce(Sim, q.profiles[i]) == Completion.Gap(Sim, hs) * VOLUME_ICE_PER_FOOT
  {
    var q := Regroup(p.(sections := Rounds(p.sections, days)));
    SteppedRegroup(p, days, i);
    FreshSectionsComplete(p.profiles[i].sections, q.profiles[i].sections, hs, Max0(days));
  }

  /** A fresh simulator with teams, distinct rows and enough days for row
      `i` leaves profile `i` holding the ice of that row's gap. */
  lemma CompletedProfile(rows: seq<seq<int>>, days: int, teams: int, i: nat)
    requires teams >= 1 && Manager.DistinctRows(rows) && i < |rows|
    requires Completion.WithinDays(Sim, rows[i], Max0(days))
    ensures var r := Build(NewSimulator(rows), Some(days), Some(teams));
      && r.Ok? && i < |r.value.profiles|
      && ProfileIce(Sim, r.value.profiles[i]) == Completion.Gap(Sim, rows[i]) * VOLUME_ICE_PER_FOOT
  {
    var w := NewSimulator(rows);
    FreshParse(rows);
    ParsedGrouped(w);
    ParsedRowFresh(w, i);
    BuildUnfolds(w, days, teams);
    RegroupedProfileIce(ParseConfig(w), days, i, rows[i]);
  }

  // -------------------------------------------------------------- validation

  /** `WallSection.validate`: built-in exceptions, and no sign check on
      the profile id. */
  function ValidateSection(s: RawSection): (r: Outcome)
    ensures r.Pass? <==>
      && IsInt(s.startHeight) && 0 <= AsInt(s.startHeight) <= TARGET_HEIGHT
      && IsInt(s.sectionId) && AsInt(s.sectionId) >= 0
      && (IsInt(s.profileId) || s.profileId.VNone?)
    ensures !IsInt(s.startHeight) ==> r == Fail(PyError(PyTypeError, "The start height must be an integer"))
    ensures IsInt(s.startHeight) && !(0 <= AsInt(s.startHeight) <= TARGET_HEIGHT) ==>
      r == Fail(PyError(PyValueError, "The start height must be between 0 and 30"))
    ensures r.Fail? ==> r.error.kind == PyTypeError || r.error.kind == PyValueError
  {
    if !IsInt(s.startHeight) then Fail(PyError(PyTypeError, "The start height must be an integer"))
    else if !(0 <= AsInt(s.startHeight) <= TARGET_HEIGHT) then
      Fail(PyError(PyValueError, "The start height must be between 0 and 30"))
    else if !IsInt(s.sectionId) then Fail(PyError(PyTypeError, "The section_id must be an integer"))
    else if !(AsInt(s.sectionId) >= 0) then Fail(PyError(PyValueError, "The section_id must be a positive integer"))
    else if !(IsInt(s.profileId) || s.profileId.VNone?) then
      Fail(PyError(PyTypeError, "The profile_id must be an integer"))
    else Pass
  }

  /** Everything builder/manager.py's section validation accepts under
      the default target, the simulator accepts too; a negative profile id
      is accepted by the simulator only. */
  lemma SectionValidationIsLooser(s: RawSection)
    ensures Manager.ValidateSection(Sim, s).Pass? ==> ValidateSection(s).Pass?
    ensures var neg := RawSection(VInt(0), VInt(-1), VInt(0));
      ValidateSection(neg).Pass? && Manager.ValidateSection(Sim, neg).Fail?
  {
  }

  /** `WallProfile.validate`: a list (else `TypeError`) of sections (else
      `ValueError`) of between 1 and 2000 of them (else `MemoryError`). */
  function ValidateProfile(sections: Value): (r: Outcome)
    ensures r.Pass? <==>
      && sections.VList?
      && (forall k :: 0 <= k < |sections.items| ==> sections.items[k].VSection?)
      && 1 <= |sections.items| <= MAX_SECTION_COUNT
    ensures r.Fail? && sections.VList? && (forall k :: 0 <= k < |sections.items| ==> sections.items[k].VSection?)
            ==> r.error == PyError(PyMemoryError, "The sections count must be between 1 and 2000")
    ensures !sections.VList? ==> r.Fail? && r.error.kind == PyTypeError
  {
    if !sections.VList? then Fail(PyError(PyTypeError, "The sections must be a list"))
    else if !(forall k :: 0 <= k < |sections.items| ==> sections.items[k].VSection?) then
      Fail(PyError(PyValueError, "All sections must be WallSection objects"))
    else if !(1 <= |sections.items| <= MAX_SECTION_COUNT) then
      Fail(PyError(PyMemoryError, "The sections count must be between 1 and 2000"))
    else Pass
  }

  /** The simulator accepts the same section lists as builder/manager.py
      under the default maximum, given a valid profile id. */
  lemma ProfileValidationAgrees(sections: Value)
    ensures ValidateProfile(sections).Pass? <==> Manager.ValidateProfile(Sim, VInt(0), sections).Pass?
  {
  }

  /** `WallBuilderSimulator.validate`: a list (else `TypeError`) of lists
      (else `ValueError`); the heights themselves are not checked. */
  function ValidateConfigList(v: Value): (r: Outcome)
    ensures r.Pass? <==> v.VList? && forall k :: 0 <= k < |v.items| ==> v.items[k].VList?
    ensures !v.VList? ==> r == Fail(PyError(PyTypeError, "The config_list must be a list"))
    ensures v.VList? && r.Fail? ==> r == Fail(PyError(PyValueError, "All elements of config_list must be lists"))
  {
    if !v.VList? then Fail(PyError(PyTypeError, "The config_list must be a list"))
    else if !(forall k :: 0 <= k < |v.items| ==> v.items[k].VList?) then
      Fail(PyError(PyValueError, "All elements of config_list must be lists"))
    else Pass
  }

  /** Whatever builder/manager.py's list validation accepts, the
      simulator's accepts; [[1, 2], [3, 'a']] passes here only. */
  lemma ConfigValidationIsLooser(v: Value)
    ensures Manager.ValidateConfigList(v).Pass? ==> ValidateConfigList(v).Pass?
    ensures var mixed := VList([VList([VInt(1), VInt(2)]), VList([VInt(3), VStr("a")])]);
      ValidateConfigList(mixed).Pass? && Manager.ValidateConfigList(mixed).Fail?
  {
    var mixed := VList([VList([VInt(1), VInt(2)]), VList([VInt(3), VStr("a")])]);
    assert !IsIntMatrix(mixed) by {
      assert !mixed.items[1].items[1].VInt?;
    }
  }
}
