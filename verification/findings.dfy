/** Corrected definitions for the places where the code does not do what
    its documentation, messages or tests evidently intend. Each sits beside
    a lemma exhibiting an input on which the code as written goes wrong. */
module Findings {
  import opened Errors
  import opened Outcomes
  import opened Values
  import opened Config
  import opened Wall
  import Validator
  import Manager
  import Simulator
  import Completion

  // ------------------------------------------------------------ check_ice

  /** `check_ice` as written tests the start-height range, so it refuses
      the 100 its tests accept and accepts the 0 they refuse. */
  lemma CheckIceAgainstTests()
    ensures Validator.CheckIce(VInt(100)).Fail?
    ensures Validator.CheckIce(VInt(0)).Pass?
  {
  }

  /** `check_ice` as documented and as its tests expect: `volume_ice_per_foot` is a
      positive int. */
  function CheckIce(v: Value): (r: Outcome)
    ensures r.Pass? <==> v == VBool(true) || (v.VInt? && v.i > 0)
    ensures r.Pass? || Validator.Raised(r)
  {
    if !IsInt(v) then Validator.Invalid("The volume of ice per foot must be an integer")
    else if AsInt(v) <= 0 then Validator.Invalid("Invalid value for volume_ice_per_foot: " + Str(v))
    else Pass
  }

  /** The corrected check accepts what `check_cost` accepts, and meets
      every expectation of builder/tests/test_validator.py. */
  lemma CheckIceMeetsTests(v: Value)
    ensures CheckIce(v).Pass? <==> Validator.CheckCost(v).Pass?
    ensures CheckIce(VInt(10)).Pass? && CheckIce(VInt(100)).Pass?
    ensures CheckIce(VInt(0)).Fail? && CheckIce(VInt(-1)).Fail?
    ensures CheckIce(VStr("1")).Fail? && CheckIce(VFloat("1.0")).Fail?
  {
  }

  // -------------------------------------------------- check_section_count

  /** `check_section_count` as written: the chained comparison
      `value < 0 < MAX_SECTION_COUNT` refuses 1 and 1999, which the tests
      accept, and accepts -1, which they refuse. */
  lemma SectionCountAgainstTests()
    ensures Validator.CheckSectionCount(VInt(1)).Fail?
    ensures Validator.CheckSectionCount(VInt(1999)).Fail?
    ensures Validator.CheckSectionCount(VInt(-1)).Pass?
  {
  }

  /** `check_section_count` as intended: `0 < value < MAX_SECTION_COUNT`. */
  function CheckSectionCount(v: Value): (r: Outcome)
    ensures r.Pass? <==> v == VBool(true) || (v.VInt? && 0 < v.i < MAX_SECTION_COUNT)
    ensures r.Pass? || Validator.Raised(r)
  {
    if !IsInt(v) then Validator.Invalid("The start height must be an integer")
    else if !(0 < AsInt(v) < MAX_SECTION_COUNT) then
      Validator.Invalid("Invalid value for max_section_count: " + Str(v))
    else Pass
  }

  /** The corrected check accepts a count exactly when `check_sections`
      accepts a list of that many sections, and meets the tests. */
  lemma CheckSectionCountMeetsTests(n: nat)
    ensures CheckSectionCount(VInt(n)).Pass? <==> Validator.CheckSections(VList(seq(n, k => VInt(k)))).Pass?
    ensures CheckSectionCount(VInt(1)).Pass? && CheckSectionCount(VInt(1999)).Pass?
    ensures CheckSectionCount(VInt(0)).Fail? && CheckSectionCount(VInt(-1)).Fail?
    ensures CheckSectionCount(VStr("1")).Fail? && CheckSectionCount(VFloat("1.0")).Fail?
  {
  }

  // ------------------------------------------------------ check_num_teams

  /** `check_num_teams` as written refuses `MAX_WORKERS` itself, which its
      message says is allowed, its test accepts, and builder/simulator.py's
      `main` asks for. */
  lemma NumTeamsAgainstTests()
    ensures Validator.CheckNumTeams(VInt(MAX_WORKERS)).Fail?
  {
  }

  /** `check_num_teams` as intended: up to and including `MAX_WORKERS`. */
  function CheckNumTeams(v: Value): (r: Outcome)
    ensures r.Pass? <==> v == VBool(true) || (v.VInt? && 0 < v.i <= MAX_WORKERS)
    ensures r.Pass? || Validator.Raised(r)
  {
    var msg := "Invalid num_teams: " + Str(v) + ". Allowed up to " + IntToString(MAX_WORKERS);
    if !IsInt(v) then Validator.Invalid(msg)
    else if !(0 < AsInt(v) <= MAX_WORKERS) then Validator.Invalid(msg)
    else Pass
  }

  /** The corrected check differs from the written one on `MAX_WORKERS`
      alone, and meets the tests. */
  lemma CheckNumTeamsMeetsTests(v: Value)
    ensures CheckNumTeams(v).Pass? <==> Validator.CheckNumTeams(v).Pass? || v == VInt(MAX_WORKERS)
    ensures CheckNumTeams(VInt(1)).Pass? && CheckNumTeams(VInt(20)).Pass?
    ensures CheckNumTeams(VInt(0)).Fail? && CheckNumTeams(VInt(30)).Fail? && CheckNumTeams(VInt(-1)).Fail?
    ensures CheckNumTeams(VStr("1")).Fail? && CheckNumTeams(VFloat("1.0")).Fail?
  {
  }

  // ---------------------------------------------- WallManager.build(days)

  /** builder/manager.py's `build(days)` runs `days` rounds and each round
      builds every section for `days` days, so a section gains a foot per
      day for `days * days` days: [[0]] built for two days reaches four
      feet. */
  lemma BuildSquaresDays()
    ensures var r := Manager.Build(Completion.Configured([[0]]), 2, 1);
      r.Ok? && |r.value.sections| == 1 && r.value.sections[0].currentHeight == 4
  {
    var w := Completion.Configured([[0]]);
    var p := Manager.ParseProfileList(w);
    SquareParsed();
    assert !SleepRaises(w.sectionConfig);
    assert Max0(2) * Max0(2) == 4;
    Manager.BuiltSections(w, 2, 1);
    SquareHeight(w.sectionConfig, p.sections[0]);
  }

  /** [[0]] parses to a single section at height 0. */
  lemma SquareParsed()
    ensures var p := Manager.ParseProfileList(Completion.Configured([[0]]));
      |p.sections| == 1 && p.sections[0].currentHeight == 0
  {
    SingleRowParsed(Completion.Configured([[0]]));
  }

  /** A manager whose only row is [0] parses to one section at height 0. */
  lemma SingleRowParsed(w: Manager.WallState)
    requires w.config.profiles == [[0]]
    ensures var p := Manager.ParseProfileList(w);
      |p.sections| == 1 && p.sections[0].currentHeight == 0
  {
    var rows := w.config.profiles;
    assert Manager.Flatten(rows) == [0] by {
      assert rows[..0] == [];
    }
  }

  /** At one foot per day, four days take a section from 0 to 4 feet. */
  lemma SquareHeight(c: WallConfig, s: Section)
    requires c.buildRate == 1 && c.targetHeight == TARGET_HEIGHT && s.currentHeight == 0
    ensures BuildSection(c, s, 4).currentHeight == 4
  {
    Completion.RateOneSteps(c, 0);
    BuildSectionClosedForm(c, s, 4);
  }

  /** `WallManager.build(days, num_teams)` with each round building every
      section for one day, so that `days` is the number of days built. */
  function BuildDaily(w: Manager.WallState, days: int, numTeams: int): (r: Result<Manager.WallState>)
    ensures r.Err? <==> numTeams < 1 || (days >= 1 && SleepRaises(w.sectionConfig) && !AllReady(w.sectionConfig, Manager.ParseProfileList(w).sections))
    ensures r.Ok? ==> var p := Manager.ParseProfileList(w);
      && |r.value.sections| == |p.sections|
      && (forall n :: 0 <= n < |p.sections| ==>
            r.value.sections[n] == BuildSection(w.sectionConfig, p.sections[n], days))
      && |r.value.profiles| == |p.profiles|
      && (forall i :: 0 <= i < |p.profiles| ==>
            r.value.profiles[i].sections == Manager.FilterByProfile(r.value.sections, p.profiles[i].profileId))
  {
    if numTeams < 1 then Err(WrapBuildFailure(Manager.PoolError))
    else
      var p := Manager.ParseProfileList(w);
      DailyRounds(w.sectionConfig, p.sections, days);
      match Manager.RunRounds(w.sectionConfig, p.sections, 1, days)
      case Err(e) => Err(WrapBuildFailure(e))
      case Ok(ss) => Ok(Manager.UpdateProfiles(p.(sections := ss)))
  }

  /** `days` rounds of one day each build every section for `days` days. */
  lemma DailyRounds(c: WallConfig, ss: seq<Section>, days: int)
    ensures var r := Manager.RunRounds(c, ss, 1, days);
      r.Ok? ==> |r.value| == |ss| && forall n :: 0 <= n < |ss| ==> r.value[n] == BuildSection(c, ss[n], days)
  {
    assert Max0(days) * Max0(1) == Max0(days);
    forall n | 0 <= n < |ss|
      ensures BuildSection(c, ss[n], Max0(days)) == BuildSection(c, ss[n], days)
    {
      Manager.NonPositiveDays(c, ss[n], days);
    }
  }

  /** At one foot per day towards 30 feet, the daily build reaches the
      same heights as builder/simulator.py's day loop, which builds one
      foot per day; on [[0]] for two days, two feet. */
  lemma DailyBuildMatchesSimulator(rows: seq<seq<int>>, days: int, n: nat)
    requires BuildDaily(Simulator.NewSimulator(rows), days, 1).Ok?
    requires n < |Manager.Flatten(rows)|
    ensures var w := Simulator.NewSimulator(rows);
      var sim := Simulator.Build(w, Some(days), Some(1));
      && sim.Ok?
      && |BuildDaily(w, days, 1).value.sections| == |sim.value.sections|
      && BuildDaily(w, days, 1).value.sections[n].currentHeight == sim.value.sections[n].currentHeight
  {
    var w := Simulator.NewSimulator(rows);
    var p := Manager.ParseProfileList(w);
    var s := p.sections[n];
    SimulatorSection(rows, days, n);
    DailySection(rows, days, n);
    Simulator.AgreesWithRateOne(w.sectionConfig, s, Max0(days));
    Manager.NonPositiveDays(w.sectionConfig, s, days);
  }

  /** Section `n` of the simulator's build of a fresh simulator. */
  lemma SimulatorSection(rows: seq<seq<int>>, days: int, n: nat)
    requires n < |Manager.Flatten(rows)|
    ensures var w := Simulator.NewSimulator(rows);
      var sim := Simulator.Build(w, Some(days), Some(1));
      && sim.Ok?
      && |sim.value.sections| == |Manager.Flatten(rows)|
      && sim.value.sections[n] == Simulator.BuildTimes(Manager.ParseProfileList(w).sections[n], Max0(days))
  {
    var w := Simulator.NewSimulator(rows);
    var ss := Manager.ParseProfileList(w).sections;
    assert Simulator.ParseConfig(w).sections == ss by {
      Simulator.ParseAppendsManagerParse(w);
    }
    Simulator.BuiltSections(w, days, 1);
  }

  /** Section `n` of the daily build. */
  lemma DailySection(rows: seq<seq<int>>, days: int, n: nat)
    requires BuildDaily(Simulator.NewSimulator(rows), days, 1).Ok?
    requires n < |Manager.Flatten(rows)|
    ensures var w := Simulator.NewSimulator(rows);
      var daily := BuildDaily(w, days, 1).value;
      && |daily.sections| == |Manager.Flatten(rows)|
      && daily.sections[n] == BuildSection(w.sectionConfig, Manager.ParseProfileList(w).sections[n], days)
  {
  }

  // ------------------------------------------ duplicate rows, one profile id

  /** `parse_profile_list` numbers a profile by the first row equal to its
      own (`list.index`), so equal rows share an identifier and
      `update_profiles` hands each of them the sections of both: with
      [[1], [1]] each profile holds two sections though its row has one. */
  lemma DuplicateRowsShareSections()
    ensures var p := Manager.ParseProfileList(Completion.Configured([[1], [1]]));
      var u := Manager.UpdateProfiles(p);
      && |p.sections| == 2
      && |u.profiles| == 2
      && u.profiles[0].sections == p.sections
      && u.profiles[1].sections == p.sections
  {
    var p := Manager.ParseProfileList(Completion.Configured([[1], [1]]));
    DuplicateParse();
    Manager.FilterTagged(p.sections, 0, true);
  }

  /** [[1], [1]] parses to two sections, both tagged with profile 0, and
      two profiles numbered 0. */
  lemma DuplicateParse()
    ensures var p := Manager.ParseProfileList(Completion.Configured([[1], [1]]));
      && |p.sections| == 2 && |p.profiles| == 2
      && p.profiles[0].profileId == 0 && p.profiles[1].profileId == 0
      && forall k :: 0 <= k < |p.sections| ==> p.sections[k].profileId == Some(0)
  {
    var w := Completion.Configured([[1], [1]]);
    var p := Manager.ParseProfileList(w);
    var rows := w.config.profiles;
    assert Manager.ListIndexIds(rows)[1] == 0;
    assert Manager.Flatten(rows) == [1, 1] by {
      assert rows[..1] == [[1]];
      assert rows[..1][..0] == [];
    }
    Manager.ParsedTagged(w);
    assert p.sections == p.profiles[0].sections + p.profiles[1].sections by {
      assert p.profiles[..1] == [p.profiles[0]];
      assert p.profiles[..1][..0] == [];
    }
  }

  /** `parse_profile_list` with each profile numbered by its own row's
      position (`enumerate`). */
  function ParseEnumerated(w: Manager.WallState): (r: Manager.WallState)
    ensures var rows := w.config.profiles;
      && Manager.SameConfigs(r, w)
      && |r.profiles| == |rows|
      && r.sections == Manager.Concat(r.profiles)
      && (forall i :: 0 <= i < |rows| ==> r.profiles[i].profileId == i && |r.profiles[i].sections| == |rows[i]|)
      && Manager.SectionsTagged(r.profiles)
  {
    var rows := w.config.profiles;
    var parsed := Manager.ParseRows(rows, seq(|rows|, i => i));
    w.(profiles := parsed.0, sections := parsed.1)
  }

  /** With positional identifiers, regrouping a fresh parse changes
      nothing, whatever the rows: every profile keeps exactly its own
      row's sections. */
  lemma EnumeratedRegroupKeepsRows(w: Manager.WallState)
    ensures Manager.UpdateProfiles(ParseEnumerated(w)) == ParseEnumerated(w)
  {
    Manager.RegroupGrouped(ParseEnumerated(w));
  }

  /** When no two rows are equal, the positional parse is the parse as
      written. */
  lemma EnumeratedAgreesOnDistinctRows(w: Manager.WallState)
    requires Manager.DistinctRows(w.config.profiles)
    ensures ParseEnumerated(w) == Manager.ParseProfileList(w)
  {
    var rows := w.config.profiles;
    var ids := Manager.ListIndexIds(rows);
    assert ids == seq(|rows|, i => i);
  }

  // --------------------------------------- the simulator's default teams

  /** builder/simulator.py's `build()` takes the default team count from
      the sections before parsing, which a fresh simulator does not have
      yet: its first `build()` opens `Pool(0)`, which raises whatever the
      configured rows. The parse has already appended its sections, so a
      second `build()` finds teams and succeeds, with every section
      twice. */
  lemma DefaultTeamsFailFirst(rows: seq<seq<int>>, days: Option<int>)
    ensures Simulator.Build(Simulator.NewSimulator(rows), days, None) == Err(Manager.PoolError)
    ensures var again := Simulator.AfterBuild(Simulator.NewSimulator(rows), days, None);
      |Manager.Flatten(rows)| > 0 ==>
        && Simulator.Build(again, days, None).Ok?
        && |Simulator.Build(again, days, None).value.sections| == 2 * |Manager.Flatten(rows)|
  {
  }

  /** `build()` with the default team count taken after parsing: one team
      per section. */
  function BuildTeamsAfterParse(w: Manager.WallState, days: Option<int>, numTeams: Option<int>): (r: Result<Manager.WallState>)
    ensures var teams := numTeams.GetOr(|Simulator.ParseConfig(w).sections|);
      && (r.Err? <==> teams < 1)
      && (r.Err? ==> r.error == Manager.PoolError)
      && (r.Ok? ==> r == Simulator.Build(w, days, Some(teams)))
  {
    Simulator.Build(w, days, Some(numTeams.GetOr(|Simulator.ParseConfig(w).sections|)))
  }

  /** With the corrected default, a fresh simulator fails only when it
      has no sections to build. */
  lemma DefaultTeamsAfterParse(rows: seq<seq<int>>, days: Option<int>)
    ensures BuildTeamsAfterParse(Simulator.NewSimulator(rows), days, None).Err? <==> |Manager.Flatten(rows)| == 0
  {
  }

  // -------------------------------------------- the simulator's re-parse

  /** builder/simulator.py's `parse_config` appends to the lists already
      there and restarts the section ids, so building twice doubles the
      sections and the id 0 appears twice. */
  lemma SecondBuildDoubles(rows: seq<seq<int>>, days: int, teams: int)
    requires teams >= 1 && |Manager.Flatten(rows)| > 0
    ensures var first := Simulator.Build(Simulator.NewSimulator(rows), Some(days), Some(teams));
      var second := Simulator.Build(first.value, Some(days), Some(teams));
      var n := |Manager.Flatten(rows)|;
      && first.Ok? && |first.value.sections| == n
      && second.Ok? && |second.value.sections| == 2 * n
      && second.value.sections[0].sectionId == 0
      && second.value.sections[n].sectionId == 0
  {
    var w := Simulator.NewSimulator(rows);
    var n := |Manager.Flatten(rows)|;
    Simulator.BuiltSections(w, days, teams);
    var first := Simulator.Build(w, Some(days), Some(teams)).value;
    var p1 := Simulator.ParseConfig(w);
    Simulator.BuildTimesClosedForm(p1.sections[0], Max0(days));
    Simulator.BuiltSections(first, days, teams);
    var p2 := Simulator.ParseConfig(first);
    Simulator.BuildTimesClosedForm(p2.sections[0], Max0(days));
    Simulator.BuildTimesClosedForm(p2.sections[n], Max0(days));
  }

  /** The re-parse as builder/manager.py does it: clear, then parse. A
      second parse gives the first again, with distinct section ids. */
  lemma ParseReplacingIsIdempotent(w: Manager.WallState)
    ensures var p := Manager.ParseProfileList(w);
      && Manager.ParseProfileList(p) == p
      && forall a, b :: 0 <= a < b < |p.sections| ==> p.sections[a].sectionId != p.sections[b].sectionId
  {
  }
}
