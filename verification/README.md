# Wall builder, modelled in Dafny

A model of the wall-building simulation: a wall is a list of profiles, each
a row of sections, and each section starts at some height and is built up,
a fixed number of feet per day, until it reaches the target height. Every
foot built consumes a fixed volume of ice, and every volume of ice has a
fixed cost. The model covers three variants of the same simulation, the
validator they share, and the builder's error type:

- `builder/manager.py`: `SectionBuilder`, `ProfileBuilder` and `WallManager`
  (modules `Wall` and `Manager`);
- `scripts/prototyping/manager_3.py`: `WallSection`, `WallProfile` and
  `WallManager`, the names `builder/tests/test_manager.py` uses. Its section
  and profile builds, readiness, totals, parsing, regrouping and look-ups are
  line for line those of `builder/manager.py`, so they are modelled once, in
  `Wall` and `Manager`; module `Prototype` holds what differs (validation
  through `ConfigValidator`, and a `build` that opens the pool before
  parsing and does not wrap errors), and `Prototype.BuildsAgree` proves the
  two builds agree. The test scenarios (module `Completion`) are therefore
  stated on `Manager.Build`;
- `builder/simulator.py`: the earlier single-module simulator (module
  `Simulator`), whose sections gain exactly one foot per day and never pass
  30 feet, whose empty profiles and walls count as ready, and whose parse
  appends instead of replacing;
- `builder/validator.py`: `ConfigValidator`'s checks (module `Validator`),
  as total functions over a datatype of Python values (`Values.Value`);
- `builder/errors.py`: `BuilderError` and its two subclasses (module
  `Errors`), including how they display.

State is immutable: a section's `build` returns the advanced section, and
the manager's state is a `Manager.WallState` holding the configuration, the
profiles and the flat list of sections. A worker pool's `map`/`starmap` is a
map over the section list that keeps its order. An exception is a `Result`
or `Outcome` value carrying an `Errors.Error`, whose kind tells a builder
error from a Python built-in one (`TypeError`, `ValueError`, `MemoryError`,
`AttributeError`).

`builder/manager.py` keeps three configurations, each a class attribute:
`WallManager.config`, `SectionBuilder.config` and `ProfileBuilder.config`.
The state carries a copy of each of the three (`config`, `sectionConfig`,
`profileConfig`); the sharing between instances is not modelled (see
"Left out").
`WallManager.set_config` rebinds only the first, and the manager reads
nothing from it but the profile list; targets, rates, volumes and sleeps
come from the section class's configuration, the price of a profile from
the profile class's. `Manager.NewManager` therefore leaves the other two
at their defaults, and `Manager.ManagerConfigSuppliesRows` states that two
managers whose configurations share the list build alike.

Two failures the builds can meet are kept:

- `Pool(processes)` with fewer than one process raises `ValueError`;
- `time.sleep` with a negative duration in the section class's
  configuration raises `ValueError` at the first foot built. A manager
  made by `set_config` never meets it, as the section class keeps its
  default (`Manager.NewManagerBuildFailure`).

Both reach the caller as the source lets them: wrapped in a `BuilderError`
by `builder/manager.py`, unchanged by the other two. A failed build leaves
its state behind. For the manager builds, `AfterBuild` in each build module
says which state that is; the pool's workers change copies, so only the
parse survives. A section or profile built directly changes in place, so
the increment made before the raising sleep survives (`Wall.AfterBuildSection`,
`Wall.AfterBuildProfile`).

## Model

| member | source | states |
|---|---|---|
| `Errors.Render` | builder/errors.py:15-18 | The display is the message alone when the context is empty, and otherwise the message, " (", the context and ")". |
| `Errors.ValidationRenderRoundTrip` | builder/errors.py:28-31 | A validation error with context X displays as "Validation failed (X)", and X can be read back from that display. |
| `Errors.RenderKeepsMessage` | builder/errors.py:10-18 | The context defaults to empty, so the display is the message; with any context the message is a prefix of the display. |
| `Errors.SubclassDefaults` | builder/errors.py:21-31 | The default messages are "Invalid configuration" and "Validation failed"; both subclasses are builder errors and the two are distinct kinds. |
| `Errors.WrapBuildFailure` | builder/manager.py:912-913 | The error `WallManager.build` re-raises is a plain builder error with no context, displayed as "An error occurred: " followed by the original's display. |
| `Values.NatToStringRoundTrip` | builder/manager.py:804-809 | Printing a natural number, as the index in the validation message does, loses nothing: reading the digits back gives the number. |
| `Values.StrShowsValue` | builder/validator.py:131-145 | The value a message embeds is shown as the source's f-string shows it: a string as itself (quoted by `repr`), a bool as "True" or "False", an integer as a minus sign exactly when negative followed by digits that read back to its magnitude. |
| `Values.StrIntInjective` | builder/validator.py:131-145 | Two integers shown alike in a message are equal. |
| `Values.RowsRoundTrip` | builder/manager.py:789-811 | Integer rows embedded as Python lists are a list of lists of ints, and read back as the same rows. |
| `Validator.CheckPrimaryKey` | builder/validator.py:65-80 | Passes exactly the ints of at least 0 (a bool is an int); anything else raises a validation error with context. |
| `Validator.CheckForeignKey` | builder/validator.py:83-98 | Passes exactly None and the ints of at least 0; anything else raises. |
| `Validator.CheckIterable` | builder/validator.py:101-110 | Passes exactly strings, lists and tuples; anything else raises. |
| `Validator.CheckIce` | builder/validator.py:113-128 | Passes exactly the ints in [0, 30], the start-height range, whatever its documentation says. |
| `Validator.CheckCost` | builder/validator.py:131-145 | Passes exactly the positive ints (True included); anything else raises. |
| `Validator.CheckHeight` | builder/validator.py:148-162 | Passes exactly the ints in [0, 30]; anything else raises. |
| `Validator.CheckSectionCount` | builder/validator.py:165-179 | Because the comparison is chained as `value < 0 < MAX`, passes exactly the negative ints. |
| `Validator.CheckBuildRate` | builder/validator.py:182-197 | Passes exactly the positive ints; anything else raises. |
| `Validator.CheckNumTeams` | builder/validator.py:200-213 | Passes exactly the ints strictly between 0 and 20, so 20 itself is refused. |
| `Validator.CheckSections` | builder/validator.py:234-250 | Passes exactly the iterables yielding between 1 and 1999 items. |
| `Validator.CheckProfiles` | builder/validator.py:253-269 | Passes exactly the iterables yielding between 1 and 1999 items. |
| `Validator.CheckConfigList` | builder/validator.py:272-301 | Passes exactly a list or tuple of lists of ints holding between 1 and 1999 ints in all; the first failing condition, in source order, names the error. |
| `Validator.IceAndHeightAgree` | builder/validator.py:113-162 | The ice check and the height check accept the same values. |
| `Validator.ConfigListOfRows` | builder/validator.py:272-301 | Integer rows pass the configuration-list check exactly when they hold between 1 and 1999 heights in all. |
| `Validator.ScalarTestExpectations` | builder/tests/test_validator.py:12-152 | The scalar checks meet the expectations of their tests that the code meets (accepted and refused values). |
| `Validator.ListTestExpectations` | builder/tests/test_validator.py:171-221 | The list checks meet their tests: a one-item list passes, an empty one fails, and a configuration list with a string among its heights fails. |
| `Validator.ConfigListTooLong` | builder/tests/test_validator.py:185-222 | Configuration lists of 2000 and of 2001 heights, [[1] * 2000] and [[1], [2] * 2000], are refused. |
| `Wall.BuildSection` | builder/manager.py:312-349 | `build(days)` makes k increments of the build rate, k at most `days`; no state before the last increment was ready; stopping early means ready. Ids and start height never change. |
| `Wall.BuildSectionComposes` | builder/manager.py:312-349 | Building for a days, then for b days, is building for a + b days. |
| `Wall.ReadyIsFixed` | builder/manager.py:216-218 | A ready section is left unchanged by any build. |
| `Wall.BuildSectionClosedForm` | builder/manager.py:330-349 | With a positive rate, the build makes min(days, increments needed) increments, and the section ends ready exactly when it needed at most `days`. |
| `Wall.StepsIsCeiling` | builder/manager.py:330-341 | The number of increments a section needs is the ceiling of its remaining gap over the rate. |
| `Wall.BuildSectionBounds` | builder/manager.py:336-338 | The height never falls and, as nothing clamps the last increment, ends at most rate - 1 above the target. |
| `Wall.OvershootExample` | builder/manager.py:336-338 | With target 30 and rate 4, a section at 28 ends a day at 32. |
| `Wall.TryBuildSection` | builder/manager.py:330-346 | With its sleeps, the build fails exactly when the sleep is negative and there is a foot to build; otherwise it is the plain build. |
| `Wall.AfterBuildSection` | builder/manager.py:330-346 | The section a build leaves: the built section on success; on a raising sleep, the section one increment up, as a one-day build leaves it, because the height and day move before the sleep. |
| `Wall.CostIsPricedIce` | builder/manager.py:425-431 | Summing the sections' costs equals pricing their summed ice once, so profile cost and wall cost agree. |
| `Wall.SumIceAppend` | builder/manager.py:425-427 | Ice over two lists joined is the sum of the two lists' ice. |
| `Wall.SectionTotals` | builder/manager.py:216-227 | A section at its start height holds no ice and costs nothing; a build adds the feet gained times the volume per foot, and that priced; a ready section stays ready. |
| `Wall.ProfileTotals` | builder/manager.py:414-431 | An empty profile is not ready and holds nothing; a ready profile is left as it is by its build; with one price for both classes, a profile's cost is its sections' costs summed. |
| `Wall.BuildProfile` | builder/manager.py:509-533 | The profile's rounds, with their early stop, leave every section exactly as its own `build(days)` would. |
| `Wall.TryBuildProfile` | builder/manager.py:509-533 | With sleeps, the profile build fails exactly when the sleep is negative, there is a day and some section is not ready; each section then matches its own build. |
| `Wall.AfterBuildProfile` | builder/manager.py:521-530 | The profile a build leaves: the built profile on success; on a raising sleep, the first unready section one increment up and every other section untouched, as the in-place section builds leave it. |
| `Wall.FailedProfileBuild` | builder/manager.py:521-530 | A failed profile build fails in its first unready section's own one-day build, leaves that section as that build does, and holds one increment's worth of ice more than before. |
| `Manager.NewManager` | builder/manager.py:586-598 | `set_config` then the constructor: the given configuration, no profiles, no sections, and the section and profile classes at their default configurations. |
| `Manager.ManagerConfigSuppliesRows` | builder/manager.py:727-738 | Two managers made by `set_config` from configurations with the same profile list build alike: the same outcome, sections and profiles. |
| `Manager.NewManagerBuildFailure` | builder/manager.py:850-919 | A manager made by `set_config` fails to build exactly when it has fewer than one team, with the pool's error wrapped. |
| `Manager.ListIndexIds` | builder/manager.py:634 | Each row's profile id is the position of the first row equal to it: at most its own position, and no earlier row is equal. |
| `Manager.ParseProfileList` | builder/manager.py:613-651 | The parse discards the old lists: one profile per row, section ids 0, 1, ... in row-major order, each section fresh at its row's height, and the flat list the profiles' lists joined. |
| `Manager.ParsedProfiles` | builder/manager.py:632-648 | Each parsed profile holds its row's heights, each section tagged with the profile's id. |
| `Manager.ProfileIdsFollowRows` | builder/manager.py:634 | Two profiles share an id exactly when their rows are equal; a profile's id is its position exactly when no earlier row equals its row. |
| `Manager.SetProfileList` | builder/manager.py:653-666 | Only the configured list changes; profiles and sections are kept. |
| `Manager.FilterMembers` | builder/manager.py:679-684 | The filter keeps exactly the sections carrying the id. |
| `Manager.UpdateProfiles` | builder/manager.py:668-686 | Regrouping keeps the flat list and the profile ids; each profile's sections all carry its id. |
| `Manager.UpdateProfilesMembers` | builder/manager.py:668-686 | After regrouping, a profile holds exactly the flat list's sections that carry its id. |
| `Manager.UpdateAfterParse` | builder/manager.py:613-686 | When no two rows are equal, regrouping a fresh parse changes nothing. |
| `Manager.RegroupGrouped` | builder/manager.py:668-686 | When the flat list is the profiles' lists joined and each profile's sections carry its own, distinct, id, regrouping changes nothing. |
| `Manager.GetProfile` | builder/manager.py:688-705 | Finds a profile exactly when one carries the id, and then the first one; otherwise a builder error naming the id. |
| `Manager.GetSection` | builder/manager.py:707-724 | Finds a section exactly when one carries the id, and then the first one; otherwise a builder error naming the id. |
| `Manager.SectionLookupAfterParse` | builder/manager.py:707-724 | After a parse, exactly the ids below the number of heights are found, id n giving section n. |
| `Manager.WallTotals` | builder/manager.py:767-773 | When the flat list is the profiles' lists joined, the wall's ice is the sum of the profiles' ice and its cost is its ice priced once. |
| `Manager.ParsedWallReady` | builder/manager.py:756-765 | A freshly parsed wall is ready exactly when it has a height and every configured height has reached the section target; a new manager is not ready. |
| `Manager.ValidateConfigList` | builder/manager.py:775-811 | Passes exactly a list of lists of ints, with no size bound; otherwise the first failing check, and for a non-int the indices of the first one in row-major order. |
| `Manager.ValidateAcceptsRows` | builder/manager.py:789-811 | Integer rows always pass, and a value passes exactly when it reads back as integer rows. |
| `Manager.ValidateTestExpectations` | builder/tests/test_manager.py:374-396 | A flat list is refused as not a list of lists, and integer rows pass. |
| `Manager.ValidateNamesBadElement` | builder/tests/test_manager.py:391-396 | [[1, 2], [3, 'a']] is refused with the message naming index [1][1]. |
| `Manager.ValidateSection` | builder/manager.py:229-286 | Passes exactly when the start height is an int within the configured target, the section id an int of at least 0, and the profile id None or such an int; the first failure names the error. |
| `Manager.SectionValidationMatchesValidator` | builder/manager.py:246-286 | Under the default target the section validation is the validator's height, primary-key and foreign-key checks in turn. |
| `Manager.ParsedSectionsValidate` | builder/manager.py:229-286 | Every section parsed from heights within [0, target] validates. |
| `Manager.ValidateProfile` | builder/manager.py:433-483 | Passes exactly an int id of at least 0 with a list of 1 to max sections; otherwise the first failing check. |
| `Manager.Round` | builder/manager.py:894-897 | One round maps `build(section, days)` over the list in order, and fails exactly when a section's sleep would raise. |
| `Manager.RunRounds` | builder/manager.py:887-897 | Up to `rounds` rounds, stopping once all are ready, build each section for rounds times days days; fail exactly when a sleep is needed and negative. |
| `Manager.BuildFailure` | builder/manager.py:871-913 | The build fails exactly when there are no teams, or when the sleep is negative, there is a day, and some configured height is below the target. |
| `Manager.Build` | builder/manager.py:850-919 | The build re-parses; each section is built for days times days days; profiles are regrouped; every error is wrapped as a builder error. |
| `Manager.BuildRegroupsByRow` | builder/manager.py:887-910 | When no two rows are equal, each profile of the built wall holds its own row's sections, built, in order. |
| `Manager.AfterBuild` | builder/manager.py:850-919 | The state a build leaves: the built wall on success, and the freshly parsed lists when the pool or a worker raises. |
| `Manager.BuildIgnoresEarlierBuilds` | builder/manager.py:613-629 | As the parse clears the lists first, building after any earlier build, successful or not, is building from the start. |
| `Manager.MapConcat` | builder/manager.py:894-897 | Mapping a build over the flat list is mapping it over each profile's list and joining. |
| `Manager.RegroupMapped` | builder/manager.py:668-686 | With each profile's sections tagged with its own distinct id, regrouping after a round that keeps ids puts every built section back in its profile, in order. |
| `Manager.FilterBuilt` | builder/manager.py:887-910 | The same for building every section `days` days. |
| `Prototype.AfterBuild` | scripts/prototyping/manager_3.py:837-844 | The state a build leaves: a refused pool raises before the parse, so the manager is untouched; a raising worker leaves the parsed lists. |
| `Prototype.AfterBuildsAgree` | scripts/prototyping/manager_3.py:837-844 | With teams both builds leave the same state; without, the prototype keeps its lists while builder/manager.py's holds the fresh parse. |
| `Prototype.ValidateSection` | scripts/prototyping/manager_3.py:287-292 | Delegates to the height, primary-key and foreign-key checks in turn, so the height bound is the constant 30. |
| `Prototype.SectionBoundIsConstant` | scripts/prototyping/manager_3.py:287-292 | Agrees with the `builder/manager.py` validation under the default target, and not otherwise: a height of 35 under a target of 40. |
| `Prototype.ValidateProfile` | scripts/prototyping/manager_3.py:461-484 | Never passes; once the key and iterable checks pass, the call to the missing `check_wall_profiles` raises `AttributeError`. |
| `Prototype.ValidateSections` | scripts/prototyping/manager_3.py:764-766 | Passes exactly when every section validates; otherwise the first failing section's error. |
| `Prototype.ValidateManager` | scripts/prototyping/manager_3.py:744-771 | With any profile it fails, through the missing check when the first profile's id is valid; without, it passes exactly when every section and the configured list pass. |
| `Prototype.ManagerValidation` | scripts/prototyping/manager_3.py:744-771 | After a parse of a non-empty list validation always fails; before any parse it passes exactly for 1 to 1999 heights. |
| `Prototype.ValidateTestExpectation` | builder/tests/test_manager.py:374-385 | A fresh manager configured with [[1, 2], [3, 4]] validates. |
| `Prototype.Build` | scripts/prototyping/manager_3.py:804-878 | Fails exactly for no teams, or a needed negative sleep, with the pool's or the sleep's `ValueError` unwrapped. |
| `Prototype.BuildsAgree` | scripts/prototyping/manager_3.py:837-869 | Both builds succeed together with the same wall; on failure the `builder/manager.py` error is the prototype's, wrapped. |
| `Completion.Gap` | builder/tests/test_manager.py:404-408 | The feet missing below the target, summed over the heights, is 0 exactly when every height has reached the target. |
| `Completion.RateOneSteps` | builder/manager.py:330-341 | At one foot per day a section needs exactly as many increments as feet it is short. |
| `Completion.IceOfGains` | builder/manager.py:220-223 | Sections each gaining the gap of their start height hold the ice of the total gap. |
| `Completion.CompletedBuild` | builder/manager.py:850-919 | At one foot per day, with teams, a non-negative sleep and days squared covering every gap, the build succeeds; the wall is ready when it has any height, and holds the ice of the total gap, priced once. |
| `Completion.CompletedProfile` | builder/manager.py:850-919 | With distinct rows, each profile of such a build is ready exactly when its row is non-empty, and holds its own row's gap in ice and cost. |
| `Completion.NewManagerCompletes` | builder/manager.py:922-943 | A manager made by `set_config`, as `main` makes one, with teams and days squared covering every gap to 30 feet, builds a wall that is ready if it has a height and holds 195 cubic yards per missing foot at 1900 each, whatever else its configuration holds. |
| `Completion.IsReadyExpectation` | builder/tests/test_manager.py:302-318 | [[1, 2], [3]] is not ready before building and is ready after a 30-day build. |
| `Completion.OneDayExpectations` | builder/tests/test_manager.py:320-372 | [[29, 29], [29]] built for one day is ready with ice 3 * 195 and cost 3 * 195 * 1900. |
| `Completion.CalculateIceTotals` | builder/tests/test_manager.py:398-424 | The three test rows built for 30 days give ice 16965 and cost 32233500. |
| `Completion.CalculateIceProfiles` | builder/tests/test_manager.py:426-439 | Each profile of that build holds its own row's ice (16, 13 and 58 feet times 195), priced once. |
| `Completion.GapAppend` | builder/tests/test_manager.py:404-408 | The gap of two lists joined is the sum of their gaps. |
| `Simulator.BuildOne` | builder/simulator.py:219-238 | One call adds a foot only below 30 and touches nothing but the height. |
| `Simulator.BuildTimesClosedForm` | builder/simulator.py:227-228 | k calls leave a section at or above 30 alone and take one below it to min(h + k, 30); a height starting at or below 30 never passes 30. |
| `Simulator.AgreesWithRateOne` | builder/simulator.py:227-228 | The one-foot step reaches the heights of `builder/manager.py`'s build at one foot per day and target 30. |
| `Simulator.ReadinessDiffersOnEmpty` | builder/simulator.py:385-387 | The simulator's wall is ready exactly when it has no sections or the manager would call it ready; an empty wall is ready. |
| `Simulator.ProfileReadinessDiffersOnEmpty` | builder/simulator.py:262-264 | A profile is ready exactly when it is empty or `builder/manager.py` would call it ready. |
| `Simulator.ProfileCostIsPricedIce` | builder/simulator.py:266-272 | A profile's cost is its sections' costs summed and its ice priced once; an empty profile holds no ice. |
| `Simulator.WallTotals` | builder/simulator.py:385-395 | The wall's cost is its ice priced once; a wall with no sections holds nothing and is ready; both totals are builder/manager.py's under the simulator's constants. |
| `Simulator.BuildProfile` | builder/simulator.py:308-319 | With no early exit, `days` days step every section `days` times. |
| `Simulator.ProfileBuildsAgree` | builder/simulator.py:308-319 | The simulator's profile build ends at the heights of `builder/manager.py`'s profile build at one foot per day. |
| `Simulator.ParseConfig` | builder/simulator.py:347-373 | Parsing appends: the old lists are kept as prefixes, followed by sections numbered from 0 again at the configured heights. |
| `Simulator.ParseAppendsManagerParse` | builder/simulator.py:347-373 | What the parse appends is exactly `builder/manager.py`'s parse. |
| `Simulator.Rounds` | builder/simulator.py:451-460 | The day loop, breaking once all are ready, steps every section `days` times. |
| `Simulator.CeilDiv` | builder/simulator.py:432-433 | `-(-a // b)` is the ceiling of a over b. |
| `Simulator.DefaultDaysIsThirty` | builder/simulator.py:432-433 | The default day count is 30. |
| `Simulator.Regroup` | builder/simulator.py:375-383 | A profile holds exactly the flat list's sections carrying its id, in their order; ids, the flat list and the configurations are kept. |
| `Simulator.RegroupIsManagers` | builder/simulator.py:375-383 | The regrouping is `builder/manager.py`'s `update_profiles`. |
| `Simulator.NewSimulator` | builder/simulator.py:325-337 | The constructor: the given rows, no profiles, no sections, the module constants. |
| `Simulator.AfterBuild` | builder/simulator.py:425-446 | The state a build leaves: the built wall, or, when the pool refuses, the lists after the appending parse. |
| `Simulator.Build` | builder/simulator.py:425-478 | The team count defaults to the sections before parsing; fewer than one team raises; otherwise each parsed section is stepped `days` times (30 by default) and profiles are regrouped. |
| `Simulator.CompletedBuild` | builder/simulator.py:425-478 | A fresh simulator with teams and enough days ends ready, with ice of the total gap, priced once. |
| `Simulator.CompletedProfile` | builder/simulator.py:425-478 | With distinct rows and days covering row i's gap, profile i ends holding the ice of that gap. |
| `Simulator.MainExpectation` | builder/simulator.py:481-498 | The three rows built for 30 days by 20 teams consume 16965 cubic yards, 3120 of them in the first profile, whose ice `main` prints. |
| `Simulator.ValidateSection` | builder/simulator.py:181-201 | Passes exactly a start height in [0, 30], a section id of at least 0 and an int or None profile id; type faults raise `TypeError`, range faults `ValueError`. |
| `Simulator.SectionValidationIsLooser` | builder/simulator.py:181-201 | What `builder/manager.py` accepts under target 30 the simulator accepts; a profile id of -1 passes only here. |
| `Simulator.ValidateProfile` | builder/simulator.py:274-286 | Passes exactly a list of 1 to 2000 sections; otherwise `TypeError`, `ValueError` or `MemoryError` in turn. |
| `Simulator.ProfileValidationAgrees` | builder/simulator.py:274-286 | Accepts the same section lists as `builder/manager.py`'s profile validation under the default maximum. |
| `Simulator.ValidateConfigList` | builder/simulator.py:397-405 | Passes exactly a list of lists, heights unchecked; `TypeError` for a non-list, `ValueError` for a non-list element. |
| `Simulator.ConfigValidationIsLooser` | builder/simulator.py:397-405 | What `builder/manager.py` accepts the simulator accepts; [[1, 2], [3, 'a']] passes only here. |
| `Findings.CheckIceAgainstTests` | builder/validator.py:113-128 | The ice check refuses 100 and accepts 0, against its tests. |
| `Findings.CheckIce` | builder/tests/test_validator.py:52-66 | The corrected ice check passes exactly the positive ints. |
| `Findings.CheckIceMeetsTests` | builder/tests/test_validator.py:52-66 | The corrected ice check accepts what the cost check accepts, and meets every expectation of its test. |
| `Findings.SectionCountAgainstTests` | builder/validator.py:174-177 | The section-count check refuses 1 and 1999 and accepts -1, against its tests. |
| `Findings.CheckSectionCount` | builder/tests/test_validator.py:100-115 | The corrected check passes exactly the ints strictly between 0 and 2000. |
| `Findings.CheckSectionCountMeetsTests` | builder/tests/test_validator.py:100-115 | The corrected check accepts a count exactly when the sections check accepts that many sections, and meets the tests. |
| `Findings.NumTeamsAgainstTests` | builder/validator.py:208-211 | The team check refuses 20. |
| `Findings.CheckNumTeams` | builder/tests/test_validator.py:134-152 | The corrected check passes exactly the ints from 1 to 20. |
| `Findings.CheckNumTeamsMeetsTests` | builder/tests/test_validator.py:134-152 | The corrected check differs from the written one on 20 alone, and meets the tests. |
| `Findings.BuildSquaresDays` | builder/manager.py:887-897 | [[0]] built for two days reaches four feet. |
| `Findings.BuildDaily` | builder/manager.py:850-919 | The corrected build steps each section for exactly `days` days, with the written build's failures. |
| `Findings.DailyBuildMatchesSimulator` | builder/simulator.py:451-460 | The corrected build reaches the simulator's heights, section by section. |
| `Findings.DuplicateRowsShareSections` | builder/manager.py:634 | With [[1], [1]], both profiles get id 0 and each holds both sections after regrouping. |
| `Findings.ParseEnumerated` | builder/manager.py:613-651 | The corrected parse numbers each profile by its own position and tags its sections with it. |
| `Findings.EnumeratedRegroupKeepsRows` | builder/manager.py:668-686 | With positional ids, regrouping a fresh parse changes nothing, whatever the rows. |
| `Findings.EnumeratedAgreesOnDistinctRows` | builder/manager.py:613-651 | With no two rows equal, the corrected parse is the written one. |
| `Findings.DefaultTeamsFailFirst` | builder/simulator.py:428-429 | A fresh simulator built with the default team count raises the pool's error; built again from what that left, it succeeds with every height parsed twice. |
| `Findings.BuildTeamsAfterParse` | builder/simulator.py:425-446 | The corrected build takes the default team count after parsing. |
| `Findings.DefaultTeamsAfterParse` | builder/simulator.py:425-446 | With the correction, a fresh simulator fails only when it has no heights. |
| `Findings.SecondBuildDoubles` | builder/simulator.py:347-373 | Building twice doubles the sections, and id 0 appears twice. |
| `Findings.ParseReplacingIsIdempotent` | builder/manager.py:627-629 | Parsing with the lists cleared first, as `builder/manager.py` does: parsing again changes nothing, and section ids are distinct. |

## Left out

- Logging (`LogListener`, the queue handlers, `prepare`/`configure`, worker renaming), `report`, `get_logs` and all timing: I/O and concurrency with no effect on the results.
- The worker pool's parallelism: a round is modelled as an ordered map, and `num_teams` matters only through `Pool` refusing fewer than one process.
- `time.sleep`: kept only for the sign of its argument, the one way it changes the outcome.
- `check_cpu_worktime`: a float-only check.
- builder/configurator.py and builder/defines.py beyond the default values and constants the model uses.
- Configured lists of other than integer rows: the configuration holds `seq<seq<int>>`, so the manager validations are modelled on a Python value (`Manager.ValidateConfigList`, `Simulator.ValidateConfigList`, `Validator.CheckConfigList`), while the builds only ever see integer rows. The rejected cases of `test_validate_profile_list` are stated on those validations.
- The section loop of `WallProfile.validate` in scripts/prototyping/manager_3.py: it is unreachable, since the missing `check_wall_profiles` raises first.
- Manager.WallState: each state carries its own copy of the manager configuration. In the source, `WallManager.config` is one class-level object shared by every manager (builder/manager.py:585-586). `set_profile_list` changes it in place (builder/manager.py:664), and `set_config` installs the caller's own object (builder/manager.py:737). So a list set through one manager, or a later change to the caller's configurator, is seen by every manager; the model's `SetProfileList` changes only the state it is given. Aliasing between instances is outside a value model.
- `SectionBuilder.set_config` and `ProfileBuilder.set_config`: neither the builder package nor its tests call them, so the state's section and profile configurations are fields a caller may set, and a new manager leaves them at the defaults.
- The sections' `day` counter is carried only as the count of increments made, since nothing else reads it.
- Multiple sections with the same id inside one list: the look-ups return the first, as in the source, and nothing more is said about the others.

## Findings

| source | as written | input that shows it | evidently intended | confidence | as-written member | corrected member |
|---|---|---|---|---|---|---|
| builder/validator.py:113-128 | `check_ice` tests the start-height range [0, 30] | 100 is refused, 0 is accepted, the reverse of builder/tests/test_validator.py:52-66 | `volume_ice_per_foot` is a positive int | not executed | `Findings.CheckIceAgainstTests` | `Findings.CheckIce` |
| builder/validator.py:174-177 | `value < 0 < MAX_SECTION_COUNT` means `value < 0 and 0 < MAX_SECTION_COUNT` | 1 and 1999 are refused and -1 is accepted, against builder/tests/test_validator.py:100-115 | `0 < value < MAX_SECTION_COUNT` | not executed | `Findings.SectionCountAgainstTests` | `Findings.CheckSectionCount` |
| builder/validator.py:208-211 | `0 < value < MAX_WORKERS` | 20 is refused, though the message says "Allowed up to 20" and builder/tests/test_validator.py:137 accepts it | `0 < value <= MAX_WORKERS` | not executed | `Findings.NumTeamsAgainstTests` | `Findings.CheckNumTeams` |
| builder/manager.py:887-897 | each of `days` rounds calls `build(section, days)` | [[0]] built for 2 days reaches 4 feet | each round builds one day, so `days` days in all | not executed | `Findings.BuildSquaresDays` | `Findings.BuildDaily` |
| builder/manager.py:634 | a profile's id is `profiles.index(row)`, the first equal row | with [[1], [1]] both profiles get id 0 and each holds both sections after `update_profiles` | each profile numbered by its own position | not executed | `Findings.DuplicateRowsShareSections` | `Findings.ParseEnumerated` |
| builder/simulator.py:428-429 | the default team count is `len(self.sections)` taken before `parse_config` | any fresh simulator built with the default team count opens `Pool(0)`, which raises; only a second build, with the appended sections, gets teams | the default taken from the parsed sections | not executed | `Findings.DefaultTeamsFailFirst` | `Findings.BuildTeamsAfterParse` |
| builder/simulator.py:347-373 | `parse_config` appends and restarts section ids at 0 | building [[0]] twice leaves two sections with id 0 | parse from cleared lists, as builder/manager.py:627-629 does | not executed | `Findings.SecondBuildDoubles` | `Findings.ParseReplacingIsIdempotent` |
