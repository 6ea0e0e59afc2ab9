/** Wall sections and profiles: `SectionBuilder` and `ProfileBuilder` of
    builder/manager.py (identical to `WallSection` and `WallProfile` of
    scripts/prototyping/manager_3.py apart from validation). A section is an
    immutable value; `build` returns the advanced section instead of
    mutating it in place. */
module Wall {
  import opened Config
  import opened Outcomes
  import opened Errors

  /** A section of the wall. `day` counts the increments it has received. */
  datatype Section = Section(
    sectionId: int,
    profileId: Option<int>,
    startHeight: int,
    currentHeight: int,
    day: int)

  /** A profile: an identifier and its sections, in order. */
  datatype Profile = Profile(profileId: int, sections: seq<Section>)

  /** A freshly constructed section: it starts at its start height, on day 0. */
  function NewSection(sectionId: int, profileId: Option<int>, startHeight: int): Section {
    Section(sectionId, profileId, startHeight, startHeight, 0)
  }

  function Max0(n: int): nat {
    if n > 0 then n else 0
  }

  function Min(a: int, b: int): int {
    if a < b then a else b
  }

  /** `is_ready`: the section has reached the target height. */
  predicate SectionReady(c: WallConfig, s: Section) {
    s.currentHeight >= c.targetHeight
  }

  /** `get_ice`: height gained times the ice per foot. */
  function SectionIce(c: WallConfig, s: Section): int {
    (s.currentHeight - s.startHeight) * c.volumeIcePerFoot
  }

  /** `get_cost`: ice times the cost per volume. */
  function SectionCost(c: WallConfig, s: Section): int {
    SectionIce(c, s) * c.costPerVolume
  }

  /** What a section's readiness and totals mean: a section standing at
      its start height holds no ice and costs nothing; each increment a
      build makes adds the build rate's worth of ice, priced at the cost
      per volume; and a ready section stays ready. */
  lemma SectionTotals(c: WallConfig, s: Section, days: int)
    ensures s.currentHeight == s.startHeight ==> SectionIce(c, s) == 0 && SectionCost(c, s) == 0
    ensures var r := BuildSection(c, s, days);
      && SectionIce(c, r) == SectionIce(c, s) + (r.day - s.day) * c.buildRate * c.volumeIcePerFoot
      && SectionCost(c, r) == SectionCost(c, s) + (r.day - s.day) * c.buildRate * c.volumeIcePerFoot * c.costPerVolume
    ensures SectionReady(c, s) ==> SectionReady(c, BuildSection(c, s, days))
  {
    var r := BuildSection(c, s, days);
    var k := r.day - s.day;
    var v := c.volumeIcePerFoot;
    assert r.currentHeight - r.startHeight == (s.currentHeight - s.startHeight) + k * c.buildRate;
    assert SectionIce(c, r) == (s.currentHeight - s.startHeight) * v + k * c.buildRate * v;
    assert SectionCost(c, r) == ((s.currentHeight - s.startHeight) * v + k * c.buildRate * v) * c.costPerVolume;
  }

  /** One increment of a day's building: the build rate is added to the
      height and the day counter moves on. */
  function Step(c: WallConfig, s: Section): Section {
    s.(currentHeight := s.currentHeight + c.buildRate, day := s.day + 1)
  }

  /** The section after `k` increments, stated directly. */
  function Advance(c: WallConfig, s: Section, k: nat): (r: Section)
    ensures r.sectionId == s.sectionId && r.profileId == s.profileId && r.startHeight == s.startHeight
  {
    s.(currentHeight := s.currentHeight + k * c.buildRate, day := s.day + k)
  }

  /** `build(days)`, `days` defaulting to 1 in the source: up to `days` times, stop if the section is ready,
      otherwise add one increment. (The source's second test,
      `current_height < target_height`, always holds once the readiness
      test has not stopped the loop.) The contract pins the result down
      completely: the section advances by the first `k` increments, `k` is
      at most `days`, no state before the `k`-th increment was ready, and
      stopping before `days` means the section is ready. */
  function BuildSection(c: WallConfig, s: Section, days: int): (r: Section)
    decreases days
    ensures 0 <= r.day - s.day <= Max0(days)
    ensures r == Advance(c, s, r.day - s.day)
    ensures r.day - s.day < days ==> SectionReady(c, r)
    ensures forall j :: 0 <= j < r.day - s.day ==> !SectionReady(c, Advance(c, s, j))
  {
    if days <= 0 || SectionReady(c, s) then
      assert s == Advance(c, s, 0);
      s
    else
      var r := BuildSection(c, Step(c, s), days - 1);
      AdvanceAfterStep(c, s, r.day - s.day - 1);
      forall j | 1 <= j < r.day - s.day
        ensures Advance(c, s, j) == Advance(c, Step(c, s), j - 1)
      {
        AdvanceAfterStep(c, s, j - 1);
      }
      assert s == Advance(c, s, 0);
      r
  }

  /** `k` increments after one increment are `k + 1` increments. */
  lemma AdvanceAfterStep(c: WallConfig, s: Section, k: nat)
    ensures Advance(c, Step(c, s), k) == Advance(c, s, k + 1)
  {
    assert s.currentHeight + c.buildRate + k * c.buildRate == s.currentHeight + (k + 1) * c.buildRate;
  }

  /** Building a ready section changes nothing. */
  lemma ReadyIsFixed(c: WallConfig, s: Section, days: int)
    requires SectionReady(c, s)
    ensures BuildSection(c, s, days) == s
  {
  }

  /** Two builds in a row are one build over the combined number of days. */
  lemma {:induction false} BuildSectionComposes(c: WallConfig, s: Section, a: nat, b: nat)
    ensures BuildSection(c, BuildSection(c, s, a), b) == BuildSection(c, s, a + b)
    decreases a
  {
    if a == 0 || SectionReady(c, s) {
    } else {
      BuildSectionComposes(c, Step(c, s), a - 1, b);
    }
  }

  /** The number of increments a section needs before it is ready, counted
      one increment at a time. */
  function StepsToReady(c: WallConfig, height: int): nat
    requires c.buildRate > 0
    decreases c.targetHeight - height
  {
    if height >= c.targetHeight then 0 else 1 + StepsToReady(c, height + c.buildRate)
  }

  /** With a positive rate, `build(days)` performs exactly
      min(days, increments needed) increments: the section becomes ready
      within `days` exactly when it needs at most `days` increments. */
  lemma {:induction false} BuildSectionClosedForm(c: WallConfig, s: Section, days: int)
    requires c.buildRate > 0
    ensures BuildSection(c, s, days) == Advance(c, s, Min(Max0(days), StepsToReady(c, s.currentHeight)))
    ensures SectionReady(c, BuildSection(c, s, days)) <==> StepsToReady(c, s.currentHeight) <= Max0(days)
    decreases Max0(days)
  {
    var n := StepsToReady(c, s.currentHeight);
    if days <= 0 || SectionReady(c, s) {
      assert s == Advance(c, s, 0);
    } else {
      BuildSectionClosedForm(c, Step(c, s), days - 1);
      AdvanceAfterStep(c, s, Min(Max0(days - 1), n - 1));
      if n - 1 > Max0(days - 1) {
        StepsPositiveBelowTarget(c, s.currentHeight + Min(Max0(days), n) * c.buildRate);
      }
    }
  }

  /** A height still needing increments is below the target, and a height
      that needs none has reached it. */
  lemma {:induction false} StepsPositiveBelowTarget(c: WallConfig, height: int)
    requires c.buildRate > 0
    ensures StepsToReady(c, height) > 0 <==> height < c.targetHeight
  {
  }

  /** The number of increments needed is the ceiling of the remaining gap
      over the rate. */
  lemma {:induction false} StepsIsCeiling(c: WallConfig, height: int)
    requires c.buildRate > 0
    ensures height < c.targetHeight ==>
      StepsToReady(c, height) == (c.targetHeight - height + c.buildRate - 1) / c.buildRate
    decreases c.targetHeight - height
  {
    var r := c.buildRate;
    var gap := c.targetHeight - height;
    if height < c.targetHeight {
      if height + r >= c.targetHeight {
        DivisionBetween(gap + r - 1, r, 1);
      } else {
        StepsIsCeiling(c, height + r);
        var q := (gap - 1) / r;
        assert q * r <= gap - 1 < (q + 1) * r;
        DivisionBetween(gap + r - 1, r, q + 1);
      }
    }
  }

  /** Euclidean division: `x / r == q` whenever `q * r <= x < (q + 1) * r`. */
  lemma DivisionBetween(x: int, r: int, q: int)
    requires r > 0 && q * r <= x < (q + 1) * r
    ensures x / r == q
  {
    var d := x / r;
    assert x == d * r + x % r && 0 <= x % r < r;
    if d > q {
      MulMonotone(q + 1, d, r);
    } else if d < q {
      MulMonotone(d + 1, q, r);
    }
  }

  lemma MulMonotone(a: int, b: int, r: int)
    requires a <= b && r > 0
    ensures a * r <= b * r
  {
    assert b * r - a * r == (b - a) * r;
  }

  /** With a positive rate the height never falls and, as nothing clamps
      the last increment, ends at most `rate - 1` above the target (or at
      the start height, when that is already higher). */
  lemma BuildSectionBounds(c: WallConfig, s: Section, days: int)
    requires c.buildRate > 0
    ensures var r := BuildSection(c, s, days);
      && s.currentHeight <= r.currentHeight
      && r.currentHeight <= if s.currentHeight >= c.targetHeight then s.currentHeight
                            else c.targetHeight + c.buildRate - 1
  {
    var r := BuildSection(c, s, days);
    var k := r.day - s.day;
    if k > 0 {
      assert !SectionReady(c, Advance(c, s, k - 1));
      assert r.currentHeight == s.currentHeight + (k - 1) * c.buildRate + c.buildRate;
    }
  }

  /** The overshoot happens: with target 30 and rate 4, a section at 28
      ends a day at 32. */
  lemma OvershootExample()
    ensures var c := DefaultConfig.(buildRate := 4);
      BuildSection(c, NewSection(0, None, 28), 1).currentHeight == 32
  {
    var c := DefaultConfig.(buildRate := 4);
    assert BuildSection(c, NewSection(0, None, 28), 1) == BuildSection(c, Step(c, NewSection(0, None, 28)), 0);
  }

  /** `time.sleep` refuses a negative duration. */
  predicate SleepRaises(c: WallConfig) {
    c.cpuWorktime < 0.0
  }

  /** What `time.sleep(cpu_worktime)` raises for a negative duration. */
  const SleepError: Error := PyError(PyValueError, "sleep length must be non-negative")

  /** `build(days)` with its per-increment sleep: the first increment
      raises when the configured sleep is negative, so the build fails
      exactly when it would have done any work; otherwise it is
      `BuildSection`. */
  function TryBuildSection(c: WallConfig, s: Section, days: int): (r: Result<Section>)
    ensures r.Err? <==> SleepRaises(c) && BuildSection(c, s, days) != s
    ensures r.Err? <==> SleepRaises(c) && days >= 1 && !SectionReady(c, s)
    ensures r.Err? ==> r.error == SleepError
    ensures r.Ok? ==> r.value == BuildSection(c, s, days)
  {
    if SleepRaises(c) && days >= 1 && !SectionReady(c, s) then
      assert BuildSection(c, s, days).day == s.day + 1 + BuildSection(c, Step(c, s), days - 1).day - Step(c, s).day;
      Err(SleepError)
    else Ok(BuildSection(c, s, days))
  }

  /** The section as `build(days)` leaves it, whether it returns or
      raises: the height and the day counter move before the first sleep,
      so a failing build leaves the section one increment up, as a
      one-day build would. */
  function AfterBuildSection(c: WallConfig, s: Section, days: int): (r: Section)
    ensures TryBuildSection(c, s, days).Ok? ==> r == TryBuildSection(c, s, days).value
    ensures TryBuildSection(c, s, days).Err? ==>
      && r == BuildSection(c, s, 1)
      && r.currentHeight == s.currentHeight + c.buildRate && r.day == s.day + 1
  {
    match TryBuildSection(c, s, days)
    case Ok(v) => v
    case Err(_) => Step(c, s)
  }

  /** Every section in the sequence is ready. */
  predicate AllReady(c: WallConfig, ss: seq<Section>) {
    forall i :: 0 <= i < |ss| ==> SectionReady(c, ss[i])
  }

  /** `ProfileBuilder.is_ready`: at least one section, and all ready. */
  predicate ProfileReady(c: WallConfig, p: Profile) {
    |p.sections| > 0 && AllReady(c, p.sections)
  }

  /** `sum(section.get_ice() for section in ss)`. */
  function SumIce(c: WallConfig, ss: seq<Section>): int {
    if |ss| == 0 then 0 else SumIce(c, ss[..|ss| - 1]) + SectionIce(c, ss[|ss| - 1])
  }

  /** `sum(section.get_cost() for section in ss)`. */
  function SumCost(c: WallConfig, ss: seq<Section>): int {
    if |ss| == 0 then 0 else SumCost(c, ss[..|ss| - 1]) + SectionCost(c, ss[|ss| - 1])
  }

  /** `ProfileBuilder.get_ice`. */
  function ProfileIce(c: WallConfig, p: Profile): int {
    SumIce(c, p.sections)
  }

  /** `ProfileBuilder.get_cost`: the summed ice, priced once. The ice is
      measured under the sections' class configuration `sc`, the price is
      that of the profile class's own configuration `pc`. */
  function ProfileCost(sc: WallConfig, pc: WallConfig, p: Profile): int {
    ProfileIce(sc, p) * pc.costPerVolume
  }

  /** What a profile's readiness and totals mean: an empty profile is not
      ready and holds nothing; a ready profile is left as it is by a build;
      and when both classes share one price, the profile's cost is the sum
      of its sections' costs. */
  lemma ProfileTotals(sc: WallConfig, pc: WallConfig, p: Profile, days: int)
    ensures |p.sections| == 0 ==> !ProfileReady(sc, p) && ProfileIce(sc, p) == 0 && ProfileCost(sc, pc, p) == 0
    ensures ProfileReady(sc, p) ==> BuildProfile(sc, p, days) == p
    ensures sc.costPerVolume == pc.costPerVolume ==> ProfileCost(sc, pc, p) == SumCost(sc, p.sections)
  {
    CostIsPricedIce(sc, p.sections);
    if ProfileReady(sc, p) {
      forall i | 0 <= i < |p.sections|
        ensures BuildSection(sc, p.sections[i], days) == p.sections[i]
      {
        ReadyIsFixed(sc, p.sections[i], days);
      }
      assert BuildProfile(sc, p, days).sections == p.sections;
    }
  }

  /** Pricing the summed ice once equals summing the per-section costs, so
      the profile's and the manager's ways of computing cost agree. */
  lemma {:induction false} CostIsPricedIce(c: WallConfig, ss: seq<Section>)
    ensures SumCost(c, ss) == SumIce(c, ss) * c.costPerVolume
  {
    if |ss| > 0 {
      CostIsPricedIce(c, ss[..|ss| - 1]);
      assert (SumIce(c, ss[..|ss| - 1]) + SectionIce(c, ss[|ss| - 1])) * c.costPerVolume
          == SumIce(c, ss[..|ss| - 1]) * c.costPerVolume + SectionIce(c, ss[|ss| - 1]) * c.costPerVolume;
    }
  }

  /** Ice over a concatenation is the sum of the parts. */
  lemma {:induction false} SumIceAppend(c: WallConfig, a: seq<Section>, b: seq<Section>)
    ensures SumIce(c, a + b) == SumIce(c, a) + SumIce(c, b)
    decreases |b|
  {
    if |b| == 0 {
      assert a + b == a;
    } else {
      assert (a + b)[..|a + b| - 1] == a + b[..|b| - 1];
      assert (a + b)[|a + b| - 1] == b[|b| - 1];
      SumIceAppend(c, a, b[..|b| - 1]);
    }
  }

  /** One pass of `ProfileBuilder.build`'s inner loop: every section not
      yet ready is built for one day (`section.build()`), in order. */
  function ProfileRound(c: WallConfig, ss: seq<Section>): (r: seq<Section>)
    ensures |r| == |ss|
    ensures forall i :: 0 <= i < |ss| ==> r[i] == BuildSection(c, ss[i], 1)
  {
    seq(|ss|, i requires 0 <= i < |ss| => if SectionReady(c, ss[i]) then ss[i] else BuildSection(c, ss[i], 1))
  }

  /** `ProfileBuilder.build(days)`, `days` defaulting to 1 in the source:
      up to `days` rounds, stopping once the profile is ready. Its effect
      on each section is exactly that section's own `build(days)`: a round
      builds each unready section one day, and the early stop only skips
      rounds that would change nothing. */
  function BuildProfile(c: WallConfig, p: Profile, days: int): (r: Profile)
    decreases days
    ensures r.profileId == p.profileId && |r.sections| == |p.sections|
    ensures forall i :: 0 <= i < |p.sections| ==> r.sections[i] == BuildSection(c, p.sections[i], days)
  {
    if days <= 0 || ProfileReady(c, p) then
      p
    else
      var next := p.(sections := ProfileRound(c, p.sections));
      forall i | 0 <= i < |p.sections|
        ensures BuildSection(c, next.sections[i], days - 1) == BuildSection(c, p.sections[i], days)
      {
        BuildSectionComposes(c, p.sections[i], 1, days - 1);
      }
      BuildProfile(c, next, days - 1)
  }

  /** `ProfileBuilder.build(days)` with the sleeps of the section builds it
      calls: the first section built raises when the configured sleep is
      negative, so the profile build fails exactly when some section needs
      building; otherwise every section builds as on its own. */
  function TryBuildProfile(c: WallConfig, p: Profile, days: int): (r: Result<Profile>)
    ensures r.Err? <==> SleepRaises(c) && days >= 1 && !AllReady(c, p.sections)
    ensures r.Err? ==> r.error == SleepError
    ensures r.Ok? ==> r.value == BuildProfile(c, p, days)
    ensures r.Ok? ==> forall i :: 0 <= i < |p.sections| ==>
              TryBuildSection(c, p.sections[i], days) == Ok(r.value.sections[i])
  {
    if SleepRaises(c) && days >= 1 && !AllReady(c, p.sections) then Err(SleepError)
    else Ok(BuildProfile(c, p, days))
  }

  /** The position of the first section that is not ready. */
  function FirstUnready(c: WallConfig, ss: seq<Section>): (j: nat)
    requires !AllReady(c, ss)
    ensures j < |ss| && !SectionReady(c, ss[j])
    ensures forall k :: 0 <= k < j ==> SectionReady(c, ss[k])
  {
    if !SectionReady(c, ss[0]) then 0
    else
      assert !AllReady(c, ss[1..]) by {
        var i :| 0 <= i < |ss| && !SectionReady(c, ss[i]);
        assert i > 0 && ss[1..][i - 1] == ss[i];
      }
      1 + FirstUnready(c, ss[1..])
  }

  /** The profile as `ProfileBuilder.build(days)` leaves it, whether it
      returns or raises. The sections are built in place, one after
      another, so a failure raises in the first section that is not
      ready, which is left one increment up, and every other section is
      untouched. */
  function AfterBuildProfile(c: WallConfig, p: Profile, days: int): (r: Profile)
    ensures TryBuildProfile(c, p, days).Ok? ==> r == TryBuildProfile(c, p, days).value
    ensures TryBuildProfile(c, p, days).Err? ==> var j := FirstUnready(c, p.sections);
      && r.profileId == p.profileId && |r.sections| == |p.sections|
      && r.sections[j] == Step(c, p.sections[j])
      && forall k :: 0 <= k < |p.sections| && k != j ==> r.sections[k] == p.sections[k]
  {
    match TryBuildProfile(c, p, days)
    case Ok(v) => v
    case Err(_) =>
      var j := FirstUnready(c, p.sections);
      p.(sections := p.sections[j := Step(c, p.sections[j])])
  }

  /** A failed profile build leaves its failing section exactly as that
      section's own failing build would, and holds one increment's worth
      of ice more than before. */
  lemma FailedProfileBuild(c: WallConfig, p: Profile, days: int)
    requires TryBuildProfile(c, p, days).Err?
    ensures var j := FirstUnready(c, p.sections); var r := AfterBuildProfile(c, p, days);
      && TryBuildSection(c, p.sections[j], 1).Err?
      && r.sections[j] == AfterBuildSection(c, p.sections[j], 1)
      && ProfileIce(c, r) == ProfileIce(c, p) + c.buildRate * c.volumeIcePerFoot
  {
    var j := FirstUnready(c, p.sections);
    assert AfterBuildProfile(c, p, days).sections == p.sections[j := Step(c, p.sections[j])];
    SteppedOneIce(c, p.sections, j);
  }

  /** Stepping one section of a list adds one increment's worth of ice. */
  lemma SteppedOneIce(c: WallConfig, ss: seq<Section>, j: nat)
    requires j < |ss|
    ensures SumIce(c, ss[j := Step(c, ss[j])]) == SumIce(c, ss) + c.buildRate * c.volumeIcePerFoot
  {
    var s := ss[j];
    SumIceUpdate(c, ss, j, Step(c, s));
    assert (s.currentHeight + c.buildRate - s.startHeight) * c.volumeIcePerFoot
        == (s.currentHeight - s.startHeight) * c.volumeIcePerFoot + c.buildRate * c.volumeIcePerFoot;
  }

  /** Replacing one section changes the summed ice by the difference of the
      two sections' ice. */
  lemma {:induction false} SumIceUpdate(c: WallConfig, ss: seq<Section>, j: nat, x: Section)
    requires j < |ss|
    ensures SumIce(c, ss[j := x]) == SumIce(c, ss) - SectionIce(c, ss[j]) + SectionIce(c, x)
  {
    var n := |ss| - 1;
    if j < n {
      SumIceUpdate(c, ss[..n], j, x);
      assert ss[j := x][..n] == ss[..n][j := x];
    } else {
      assert ss[j := x][..n] == ss[..n];
    }
  }
}
