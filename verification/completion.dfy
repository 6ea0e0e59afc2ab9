/** What a finished build yields. With the default build rate of one foot
    per day, a section short of the target by `g` feet gains exactly `g`
    feet once it has been given at least `g` days, so a wall given enough
    days consumes the ice of its total gap: the sums
    builder/tests/test_manager.py expects. */
module Completion {
  import opened Outcomes
  import opened Config
  import opened Wall
  import Manager

  /** The feet of ice still missing below the target, summed over the
      start heights `hs`. */
  function Gap(c: WallConfig, hs: seq<int>): (g: nat)
    ensures g == 0 <==> forall n :: 0 <= n < |hs| ==> hs[n] >= c.targetHeight
  {
    if |hs| == 0 then 0
    else
      var init := hs[..|hs| - 1];
      assert forall n :: 0 <= n < |hs| - 1 ==> hs[n] == init[n];
      Gap(c, init) + Max0(c.targetHeight - hs[|hs| - 1])
  }

  /** At one foot per increment, a section needs exactly as many
      increments as it is short of the target. */
  lemma {:induction false} RateOneSteps(c: WallConfig, height: int)
    requires c.buildRate == 1
    ensures StepsToReady(c, height) == Max0(c.targetHeight - height)
    decreases c.targetHeight - height
  {
    if height < c.targetHeight {
      RateOneSteps(c, height + 1);
    }
  }

  /** Given at least as many days as feet missing, a section at one foot
      per day ends exactly at the target (or where it started, if already
      there), and is ready. */
  lemma RateOneCompletes(c: WallConfig, s: Section, days: int)
    requires c.buildRate == 1
    requires c.targetHeight - s.currentHeight <= Max0(days)
    ensures BuildSection(c, s, days).currentHeight == s.currentHeight + Max0(c.targetHeight - s.currentHeight)
    ensures SectionReady(c, BuildSection(c, s, days))
  {
    RateOneSteps(c, s.currentHeight);
    BuildSectionClosedForm(c, s, days);
  }

  /** Sections that each gained the gap of the matching start height
      consume the ice of the total gap. */
  lemma {:induction false} IceOfGains(c: WallConfig, bs: seq<Section>, hs: seq<int>)
    requires |bs| == |hs|
    requires forall n :: 0 <= n < |bs| ==>
      bs[n].currentHeight - bs[n].startHeight == Max0(c.targetHeight - hs[n])
    ensures SumIce(c, bs) == Gap(c, hs) * c.volumeIcePerFoot
  {
    if |bs| > 0 {
      var last := |bs| - 1;
      var v := c.volumeIcePerFoot;
      var g := Max0(c.targetHeight - hs[last]);
      assert SumIce(c, bs[..last]) == Gap(c, hs[..last]) * v by {
        IceOfGains(c, bs[..last], hs[..last]);
      }
      assert SumIce(c, bs) == SumIce(c, bs[..last]) + g * v;
      assert Gap(c, hs) == Gap(c, hs[..last]) + g;
      Distribute(Gap(c, hs[..last]), g, v);
    }
  }

  lemma Distribute(a: int, b: int, v: int)
    ensures (a + b) * v == a * v + b * v
  {
  }

  /** Every start height is at most `d` feet short of the target. */
  predicate WithinDays(c: WallConfig, hs: seq<int>, d: nat) {
    forall n :: 0 <= n < |hs| ==> c.targetHeight - hs[n] <= d
  }

  /** Freshly parsed sections built long enough: each gained its gap and
      is ready. */
  lemma FreshSectionsComplete(c: WallConfig, ss: seq<Section>, hs: seq<int>, d: nat)
    requires c.buildRate == 1
    requires |ss| == |hs|
    requires forall n :: 0 <= n < |ss| ==> ss[n].startHeight == hs[n] && ss[n].currentHeight == hs[n]
    requires WithinDays(c, hs, d)
    ensures AllReady(c, Manager.BuildAll(c, ss, d))
    ensures SumIce(c, Manager.BuildAll(c, ss, d)) == Gap(c, hs) * c.volumeIcePerFoot
  {
    var bs := Manager.BuildAll(c, ss, d);
    forall n | 0 <= n < |ss|
      ensures SectionReady(c, bs[n])
      ensures bs[n].currentHeight - bs[n].startHeight == Max0(c.targetHeight - hs[n])
    {
      RateOneCompletes(c, ss[n], d);
    }
    IceOfGains(c, bs, hs);
  }

  /** Parsed sections built for `d` days at one foot per day, when no
      configured height is more than `d` feet short: every section ready,
      holding the ice of the total gap. */
  lemma ParsedComplete(w: Manager.WallState, d: nat)
    requires w.sectionConfig.buildRate == 1
    requires WithinDays(w.sectionConfig, Manager.Flatten(w.config.profiles), d)
    ensures var bs := Manager.BuildAll(w.sectionConfig, Manager.ParseProfileList(w).sections, d);
      var hs := Manager.Flatten(w.config.profiles);
      && AllReady(w.sectionConfig, bs)
      && |bs| == |hs|
      && SumIce(w.sectionConfig, bs) == Gap(w.sectionConfig, hs) * w.sectionConfig.volumeIcePerFoot
  {
    Manager.ParsedAtHeights(w);
    FreshSectionsComplete(w.sectionConfig, Manager.ParseProfileList(w).sections, Manager.Flatten(w.config.profiles), d);
  }

  /** A build with teams, a non-negative sleep, one foot per day and at
      least as many steps as the largest gap succeeds, leaving every
      section built from the parse, ready and holding the ice of the
      total gap. */
  lemma CompletedSections(w: Manager.WallState, days: int, numTeams: int)
    requires w.sectionConfig.buildRate == 1 && numTeams >= 1 && !SleepRaises(w.sectionConfig)
    requires WithinDays(w.sectionConfig, Manager.Flatten(w.config.profiles), Max0(days) * Max0(days))
    ensures var r := Manager.Build(w, days, numTeams);
      && r.Ok?
      && AllReady(w.sectionConfig, r.value.sections)
      && |r.value.sections| == |Manager.Flatten(w.config.profiles)|
      && SumIce(w.sectionConfig, r.value.sections) == Gap(w.sectionConfig, Manager.Flatten(w.config.profiles)) * w.sectionConfig.volumeIcePerFoot
  {
    var d: nat := Max0(days) * Max0(days);
    Manager.BuiltSections(w, days, numTeams);
    ParsedComplete(w, d);
  }

  /** Under the same conditions the wall is ready when it has a section,
      its ice is its total gap times the ice per foot, and its cost that
      ice priced once. */
  lemma CompletedBuild(w: Manager.WallState, days: int, numTeams: int)
    requires w.sectionConfig.buildRate == 1 && numTeams >= 1 && !SleepRaises(w.sectionConfig)
    requires WithinDays(w.sectionConfig, Manager.Flatten(w.config.profiles), Max0(days) * Max0(days))
    ensures var r := Manager.Build(w, days, numTeams);
      var hs := Manager.Flatten(w.config.profiles);
      && r.Ok?
      && (|hs| > 0 ==> Manager.WallReady(r.value))
      && Manager.WallIce(r.value) == Gap(w.sectionConfig, hs) * w.sectionConfig.volumeIcePerFoot
      && Manager.WallCost(r.value) == Gap(w.sectionConfig, hs) * w.sectionConfig.volumeIcePerFoot * w.sectionConfig.costPerVolume
  {
    CompletedSections(w, days, numTeams);
    CostIsPricedIce(w.sectionConfig, Manager.Build(w, days, numTeams).value.sections);
  }

  /** A manager made by `set_config` builds at the default rate, target,
      volume and price whatever its configuration holds besides the list:
      given teams and days squared covering every gap to 30 feet, the wall
      holds 195 cubic yards per missing foot, at 1900 each. */
  lemma NewManagerCompletes(c: WallConfig, days: int, numTeams: int)
    requires numTeams >= 1
    requires WithinDays(DefaultConfig, Manager.Flatten(c.profiles), Max0(days) * Max0(days))
    ensures var r := Manager.Build(Manager.NewManager(c), days, numTeams);
      var hs := Manager.Flatten(c.profiles);
      && r.Ok?
      && (|hs| > 0 ==> Manager.WallReady(r.value))
      && Manager.WallIce(r.value) == Gap(DefaultConfig, hs) * 195
      && Manager.WallCost(r.value) == Gap(DefaultConfig, hs) * 195 * 1900
  {
    CompletedBuild(Manager.NewManager(c), days, numTeams);
  }

  /** One parsed profile built for `d` days at one foot per day, when no
      height of its row is more than `d` feet short: every section ready,
      holding the ice of the row's gap. */
  lemma ParsedRowComplete(w: Manager.WallState, i: nat, d: nat)
    requires w.sectionConfig.buildRate == 1
    requires i < |w.config.profiles|
    requires WithinDays(w.sectionConfig, w.config.profiles[i], d)
    ensures var bs := Manager.BuildAll(w.sectionConfig, Manager.ParseProfileList(w).profiles[i].sections, d);
      && AllReady(w.sectionConfig, bs)
      && |bs| == |w.config.profiles[i]|
      && SumIce(w.sectionConfig, bs) == Gap(w.sectionConfig, w.config.profiles[i]) * w.sectionConfig.volumeIcePerFoot
  {
    Manager.ParsedProfiles(w);
    FreshSectionsComplete(w.sectionConfig, Manager.ParseProfileList(w).profiles[i].sections, w.config.profiles[i], d);
  }

  /** With distinct rows, each profile of such a build is ready exactly
      when its row is non-empty, and holds the ice of its own row's gap. */
  lemma CompletedProfile(w: Manager.WallState, days: int, numTeams: int, i: nat)
    requires w.sectionConfig.buildRate == 1 && numTeams >= 1 && !SleepRaises(w.sectionConfig)
    requires Manager.DistinctRows(w.config.profiles)
    requires i < |w.config.profiles|
    requires WithinDays(w.sectionConfig, w.config.profiles[i], Max0(days) * Max0(days))
    ensures var r := Manager.Build(w, days, numTeams);
      && r.Ok?
      && (ProfileReady(w.sectionConfig, r.value.profiles[i]) <==> |w.config.profiles[i]| > 0)
      && ProfileIce(w.sectionConfig, r.value.profiles[i]) == Gap(w.sectionConfig, w.config.profiles[i]) * w.sectionConfig.volumeIcePerFoot
      && ProfileCost(w.sectionConfig, w.profileConfig, r.value.profiles[i])
           == Gap(w.sectionConfig, w.config.profiles[i]) * w.sectionConfig.volumeIcePerFoot * w.profileConfig.costPerVolume
  {
    var d: nat := Max0(days) * Max0(days);
    BuiltProfile(w, days, numTeams, i);
    ParsedRowComplete(w, i, d);
    CompleteProfileTotals(w.sectionConfig, w.profileConfig, Manager.Build(w, days, numTeams).value.profiles[i], w.config.profiles[i]);
  }

  /** With distinct rows, profile i of a successful build holds its parsed
      sections, each built for the square of the day count. */
  lemma BuiltProfile(w: Manager.WallState, days: int, numTeams: int, i: nat)
    requires numTeams >= 1 && !SleepRaises(w.sectionConfig)
    requires Manager.DistinctRows(w.config.profiles)
    requires i < |w.config.profiles|
    ensures var r := Manager.Build(w, days, numTeams);
      && r.Ok? && i < |r.value.profiles|
      && r.value.profiles[i].sections
         == Manager.BuildAll(w.sectionConfig, Manager.ParseProfileList(w).profiles[i].sections, Max0(days) * Max0(days))
  {
    Manager.BuildRegroupsByRow(w, days, numTeams, i);
  }

  /** A profile whose sections are all ready and hold the ice of a row's
      gap, one section per height, is ready exactly when the row is
      non-empty, and costs that ice priced once. */
  lemma CompleteProfileTotals(c: WallConfig, pc: WallConfig, p: Profile, row: seq<int>)
    requires AllReady(c, p.sections) && |p.sections| == |row|
    requires SumIce(c, p.sections) == Gap(c, row) * c.volumeIcePerFoot
    ensures ProfileReady(c, p) <==> |row| > 0
    ensures ProfileIce(c, p) == Gap(c, row) * c.volumeIcePerFoot
    ensures ProfileCost(c, pc, p) == Gap(c, row) * c.volumeIcePerFoot * pc.costPerVolume
  {
  }

  /** A manager configured with `rows` and nothing else, as the tests set
      one up. */
  function Configured(rows: seq<seq<int>>): (w: Manager.WallState)
    ensures w.config == WithProfiles(rows) && w.profiles == [] && w.sections == []
    ensures w.sectionConfig == DefaultConfig && w.profileConfig == DefaultConfig
  {
    Manager.SetProfileList(Manager.NewManager(DefaultConfig), rows)
  }

  /** `test_is_ready`: [[1, 2], [3]] is not ready before building, and is
      after 30 days. */
  lemma IsReadyExpectation()
    ensures !Manager.WallReady(Configured([[1, 2], [3]]))
    ensures var r := Manager.Build(Configured([[1, 2], [3]]), 30, 1);
      r.Ok? && Manager.WallReady(r.value)
  {
    var w := Configured([[1, 2], [3]]);
    assert Manager.Flatten(w.config.profiles) == [1, 2, 3] by {
      assert w.config.profiles[..1] == [[1, 2]];
      assert w.config.profiles[..0] == [];
    }
    CompletedBuild(w, 30, 1);
  }

  /** The rows of `test_get_ice`, `test_get_cost` and `test_build`. */
  const OneDayRows: seq<seq<int>> := [[29, 29], [29]]

  /** Their heights are one foot short each, three feet in all. */
  lemma OneDayGaps()
    ensures var hs := Manager.Flatten(OneDayRows);
      Gap(DefaultConfig, hs) == 3 && WithinDays(DefaultConfig, hs, 1)
  {
    var hs: seq<int> := [29, 29, 29];
    assert Manager.Flatten(OneDayRows) == hs by {
      assert OneDayRows[..1] == [[29, 29]];
      assert OneDayRows[..0] == [];
    }
    assert hs[..2] == [29, 29];
    assert hs[..2][..1] == [29];
    assert hs[..2][..1][..0] == [];
  }

  /** `test_get_ice`, `test_get_cost` and `test_build`: [[29, 29], [29]]
      built for one day is ready, with 3 * 195 cubic yards of ice costing
      3 * 195 * 1900. */
  lemma OneDayExpectations()
    ensures var r := Manager.Build(Configured(OneDayRows), 1, 1);
      && r.Ok?
      && Manager.WallReady(r.value)
      && Manager.WallIce(r.value) == 3 * 195
      && Manager.WallCost(r.value) == 3 * 195 * 1900
  {
    OneDayGaps();
    CompletedBuild(Configured(OneDayRows), 1, 1);
  }

  /** The rows of `test_calculate_ice`. */
  const ThreeRows: seq<seq<int>> := [[21, 25, 28], [17], [17, 22, 17, 19, 17]]

  /** Their heights, row after row. */
  lemma ThreeRowHeights()
    ensures Manager.Flatten(ThreeRows) == [21, 25, 28, 17, 17, 22, 17, 19, 17]
    ensures Manager.Flatten(ThreeRows) == ThreeRows[0] + (ThreeRows[1] + ThreeRows[2])
  {
    var rows := ThreeRows;
    assert rows[..2] == [[21, 25, 28], [17]];
    assert rows[..2][..1] == [[21, 25, 28]];
    assert rows[..2][..1][..0] == [];
    assert Manager.Flatten(rows[..2][..1]) == [21, 25, 28];
    assert Manager.Flatten(rows[..2]) == [21, 25, 28, 17];
  }

  /** They are distinct, and no height is more than 30 feet short. */
  lemma ThreeRowsDistinct()
    ensures Manager.DistinctRows(ThreeRows)
    ensures forall i :: 0 <= i < 3 ==> WithinDays(DefaultConfig, ThreeRows[i], 900)
  {
    var rows := ThreeRows;
    assert rows[0] != rows[1] by { assert |rows[0]| != |rows[1]|; }
    assert rows[0] != rows[2] by { assert |rows[0]| != |rows[2]|; }
    assert rows[1] != rows[2] by { assert |rows[1]| != |rows[2]|; }
  }

  /** Their gaps: 16, 13 and 58 feet per row. */
  lemma ThreeRowGaps()
    ensures var c := DefaultConfig;
      && Gap(c, ThreeRows[0]) == 16
      && Gap(c, ThreeRows[1]) == 13
      && Gap(c, ThreeRows[2]) == 58
  {
    var rows := ThreeRows;
    var c := DefaultConfig;
    assert Gap(c, rows[0]) == 16 by {
      assert rows[0][..2] == [21, 25];
      assert rows[0][..2][..1] == [21];
      assert rows[0][..2][..1][..0] == [];
    }
    assert Gap(c, rows[1]) == 13 by {
      assert rows[1][..0] == [];
    }
    var r2 := rows[2];
    assert r2[..1][..0] == [];
    assert Gap(c, r2[..1]) == 13;
    assert r2[..2][..1] == r2[..1];
    assert Gap(c, r2[..2]) == 21;
    assert r2[..3][..2] == r2[..2];
    assert Gap(c, r2[..3]) == 34;
    assert r2[..4][..3] == r2[..3];
    assert Gap(c, r2[..4]) == 45;
    assert r2[..4] == r2[..|r2| - 1];
  }

  /** 87 feet in all, no height more than 30 feet short. */
  lemma ThreeRowTotal()
    ensures var c := DefaultConfig;
      && Gap(c, Manager.Flatten(ThreeRows)) == 87
      && WithinDays(c, Manager.Flatten(ThreeRows), 900)
  {
    var rows := ThreeRows;
    var c := DefaultConfig;
    ThreeRowHeights();
    ThreeRowGaps();
    GapAppend(c, rows[0], rows[1] + rows[2]);
    GapAppend(c, rows[1], rows[2]);
  }

  /** `test_calculate_ice`, wall totals: 30 days consume 87 * 195 = 16965
      cubic yards costing 32233500. */
  lemma CalculateIceTotals()
    ensures var r := Manager.Build(Configured(ThreeRows), 30, 1);
      r.Ok? && Manager.WallIce(r.value) == 16965 && Manager.WallCost(r.value) == 32233500
  {
    ThreeRowTotal();
    CompletedBuild(Configured(ThreeRows), 30, 1);
  }

  /** `test_calculate_ice`, per profile: each profile holds the ice of its
      own row (16, 13 and 58 feet of gap), priced once. */
  lemma CalculateIceProfiles(i: nat)
    requires i < 3
    ensures var r := Manager.Build(Configured(ThreeRows), 30, 1);
      && r.Ok?
      && ProfileIce(DefaultConfig, r.value.profiles[i]) == [16, 13, 58][i] * 195
      && ProfileCost(DefaultConfig, DefaultConfig, r.value.profiles[i]) == [16, 13, 58][i] * 195 * 1900
  {
    var c := DefaultConfig;
    var g := [16, 13, 58][i];
    assert Gap(c, ThreeRows[i]) == g by {
      ThreeRowGaps();
    }
    assert WithinDays(c, ThreeRows[i], 900) && Manager.DistinctRows(ThreeRows) by {
      ThreeRowsDistinct();
    }
    CompletedProfile(Configured(ThreeRows), 30, 1, i);
  }

  /** The gap of a concatenation is the sum of the gaps. */
  lemma {:induction false} GapAppend(c: WallConfig, a: seq<int>, b: seq<int>)
    ensures Gap(c, a + b) == Gap(c, a) + Gap(c, b)
    decreases |b|
  {
    if |b| == 0 {
      assert a + b == a;
    } else {
      GapAppend(c, a, b[..|b| - 1]);
      assert (a + b)[..|a + b| - 1] == a + b[..|b| - 1];
    }
  }
}
