/** `WallSection`, `WallProfile` and `WallManager` of
    scripts/prototyping/manager_3.py, the names builder/tests/test_manager.py
    exercises. Readiness, totals, parsing, regrouping, look-ups and the
    day loop are those of builder/manager.py (module `Manager`); what
    differs is validation, which delegates to `ConfigValidator`, and
    `build`, which starts the pool before parsing and does not wrap
    errors. */
module Prototype {
  import opened Errors
  import opened Outcomes
  import opened Values
  import opened Config
  import opened Wall
  import Manager
  import Validator

  /** `WallSection.validate`: `check_height`, `check_primary_key` and
      `check_foreign_key` in that order, so the height bound is the
      constant 30 whatever the configured target. */
  function ValidateSection(s: RawSection): (r: Outcome)
    ensures r.Pass? <==>
      && (s.startHeight.VBool? || (s.startHeight.VInt? && 0 <= s.startHeight.i <= TARGET_HEIGHT))
      && (s.sectionId.VBool? || (s.sectionId.VInt? && s.sectionId.i >= 0))
      && (s.profileId.VNone? || s.profileId.VBool? || (s.profileId.VInt? && s.profileId.i >= 0))
    ensures r.Pass? || Validator.Raised(r)
    ensures Validator.CheckHeight(s.startHeight).Fail? ==> r == Validator.CheckHeight(s.startHeight)
  {
    Validator.CheckHeight(s.startHeight)
      .Then(Validator.CheckPrimaryKey(s.sectionId))
      .Then(Validator.CheckForeignKey(s.profileId))
  }

  /** The two section validations accept the same sections under the
      default target; with another target they part ways, e.g. a start
      height of 35 under a target of 40. */
  lemma SectionBoundIsConstant(c: WallConfig, s: RawSection)
    ensures c.targetHeight == TARGET_HEIGHT ==>
      (ValidateSection(s).Pass? <==> Manager.ValidateSection(c, s).Pass?)
    ensures var raised := RawSection(VInt(0), VInt(0), VInt(35));
      && Manager.ValidateSection(DefaultConfig.(targetHeight := 40), raised).Pass?
      && ValidateSection(raised).Fail?
  {
  }

  /** The exception raised by calling the check `ConfigValidator` lacks. */
  const MissingCheckError: Error :=
    PyError(PyAttributeError, "'ConfigValidator' object has no attribute 'check_wall_profiles'")

  /** `WallProfile.validate`: `check_primary_key`, `check_iterable`, then
      `check_wall_profiles`, which does not exist. It never passes: once
      the first two checks pass, the missing method raises. */
  function ValidateProfile(profileId: Value, sections: Value): (r: Outcome)
    ensures r.Fail?
    ensures r.error == MissingCheckError <==>
      Validator.CheckPrimaryKey(profileId).Pass? && Validator.CheckIterable(sections).Pass?
    ensures r.error != MissingCheckError ==> Validator.Raised(r)
  {
    Validator.CheckPrimaryKey(profileId)
      .Then(Validator.CheckIterable(sections))
      .Then(Fail(MissingCheckError))
  }

  /** A profile as the Python value `validate` inspects. */
  function ProfileValue(p: Profile): Value {
    VList(seq(|p.sections|, k requires 0 <= k < |p.sections| => VSection(Manager.RawOf(p.sections[k]))))
  }

  /** The position of the first section that fails validation, or the
      number of sections when none does. */
  function FirstInvalid(ss: seq<Section>): (n: nat)
    ensures n <= |ss|
    ensures forall m :: 0 <= m < n ==> ValidateSection(Manager.RawOf(ss[m])).Pass?
    ensures n < |ss| ==> ValidateSection(Manager.RawOf(ss[n])).Fail?
    decreases |ss|
  {
    if |ss| == 0 || ValidateSection(Manager.RawOf(ss[0])).Fail? then 0
    else
      var n := FirstInvalid(ss[1..]);
      assert forall m :: 0 <= m < n ==> ss[1..][m] == ss[m + 1];
      1 + n
  }

  /** The `section.validate()` loop: the first failure is raised. */
  function ValidateSections(ss: seq<Section>): (r: Outcome)
    ensures r.Pass? <==> forall n :: 0 <= n < |ss| ==> ValidateSection(Manager.RawOf(ss[n])).Pass?
    ensures r.Fail? ==> FirstInvalid(ss) < |ss| && r == ValidateSection(Manager.RawOf(ss[FirstInvalid(ss)]))
  {
    var n := FirstInvalid(ss);
    if n < |ss| then ValidateSection(Manager.RawOf(ss[n])) else Pass
  }

  /** `WallManager.validate`: every profile (the first one already
      raises), then every section, then `check_config_list` on the
      configured list. The two `check_iterable` calls on the manager's own
      lists always pass. */
  function ValidateManager(w: Manager.WallState): (r: Outcome)
    ensures |w.profiles| > 0 ==> r.Fail? && (r.error == MissingCheckError <==> w.profiles[0].profileId >= 0)
    ensures r.Pass? <==>
      && |w.profiles| == 0
      && (forall n :: 0 <= n < |w.sections| ==> ValidateSection(Manager.RawOf(w.sections[n])).Pass?)
      && Validator.CheckConfigList(FromRows(w.config.profiles)).Pass?
  {
    if |w.profiles| > 0 then ValidateProfile(VInt(w.profiles[0].profileId), ProfileValue(w.profiles[0]))
    else ValidateSections(w.sections).Then(Validator.CheckConfigList(FromRows(w.config.profiles)))
  }

  /** Once the configured list has been parsed into at least one profile,
      the manager never validates; before parsing, it validates exactly
      when the configured list holds between 1 and 1999 heights. */
  lemma ManagerValidation(w: Manager.WallState)
    ensures |w.config.profiles| > 0 ==>
      ValidateManager(Manager.ParseProfileList(w)) == Fail(MissingCheckError)
    ensures ValidateManager(Manager.NewManager(w.config)).Pass? <==> 0 < Validator.SumLengths(w.config.profiles) < 2000
  {
    Validator.ConfigListOfRows(w.config.profiles);
  }

  /** builder/tests/test_manager.py validates a fresh manager configured
      with [[1, 2], [3, 4]]. */
  lemma ValidateTestExpectation()
    ensures ValidateManager(Manager.NewManager(WithProfiles([[1, 2], [3, 4]]))).Pass?
  {
    ManagerValidation(Manager.NewManager(WithProfiles([[1, 2], [3, 4]])));
    var rows := [[1, 2], [3, 4]];
    assert rows[..1] == [[1, 2]];
    assert Validator.SumLengths(rows) == 4;
  }

  /** `WallManager.build(days, num_teams)`, both defaulting to 1 in the
      source: the pool is created first,
      then the configured list is parsed and the day loop runs as in
      builder/manager.py; exceptions propagate unchanged. */
  function Build(w: Manager.WallState, days: int, numTeams: int): (r: Result<Manager.WallState>)
    ensures r.Err? <==> numTeams < 1 || (days >= 1 && SleepRaises(w.sectionConfig) && !AllReady(w.sectionConfig, Manager.ParseProfileList(w).sections))
    ensures r.Err? ==> r.error.kind == PyValueError
    ensures r.Err? ==> r.error == if numTeams < 1 then Manager.PoolError else SleepError
  {
    if numTeams < 1 then Err(Manager.PoolError)
    else
      var p := Manager.ParseProfileList(w);
      match Manager.RunRounds(w.sectionConfig, p.sections, days, days)
      case Err(e) => Err(e)
      case Ok(ss) => Ok(Manager.UpdateProfiles(p.(sections := ss)))
  }

  /** The manager as this `build` leaves it: a refused pool raises before
      the parse, leaving the manager untouched; a raising worker leaves the
      freshly parsed lists. */
  function AfterBuild(w: Manager.WallState, days: int, numTeams: int): (r: Manager.WallState)
    ensures Build(w, days, numTeams).Ok? ==> r == Build(w, days, numTeams).value
    ensures Build(w, days, numTeams).Err? ==> r == if numTeams < 1 then w else Manager.ParseProfileList(w)
  {
    match Build(w, days, numTeams)
    case Ok(v) => v
    case Err(_) => if numTeams < 1 then w else Manager.ParseProfileList(w)
  }

  /** Both builds leave the manager in the same state, except that a
      refused pool leaves this one's lists as they were and
      builder/manager.py's freshly parsed. */
  lemma AfterBuildsAgree(w: Manager.WallState, days: int, numTeams: int)
    ensures numTeams >= 1 ==> AfterBuild(w, days, numTeams) == Manager.AfterBuild(w, days, numTeams)
    ensures numTeams < 1 ==>
      AfterBuild(w, days, numTeams) == w && Manager.AfterBuild(w, days, numTeams) == Manager.ParseProfileList(w)
  {
    BuildsAgree(w, days, numTeams);
  }

  /** The two builds agree: the same result, or the same exception, which
      builder/manager.py wraps in a `BuilderError`. */
  lemma BuildsAgree(w: Manager.WallState, days: int, numTeams: int)
    ensures Build(w, days, numTeams).Ok? <==> Manager.Build(w, days, numTeams).Ok?
    ensures Build(w, days, numTeams).Ok? ==> Build(w, days, numTeams).value == Manager.Build(w, days, numTeams).value
    ensures Build(w, days, numTeams).Err? ==>
      Manager.Build(w, days, numTeams).error == WrapBuildFailure(Build(w, days, numTeams).error)
  {
  }
}
