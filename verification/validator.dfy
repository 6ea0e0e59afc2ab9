/** `ConfigValidator` (builder/validator.py): stateless checks that return
    True or raise `BuilderValidationError`. Each check is total over Python
    values; its contract states exactly which values it accepts. */
module Validator {
  import opened Errors
  import opened Outcomes
  import opened Values
  import opened Config

  /** A check's failure: a `BuilderValidationError` with the default message
      and a non-empty context. */
  predicate Raised(r: Outcome) {
    r.Fail? && r.error.kind == BuilderValidation && r.error.message == "Validation failed"
    && r.error.info != ""
  }

  /** A failure with the given context. */
  function Invalid(info: string): Outcome {
    Fail(ValidationError(info := info))
  }

  /** `check_primary_key`: a non-negative int. */
  function CheckPrimaryKey(v: Value): (r: Outcome)
    ensures r.Pass? <==> v.VBool? || (v.VInt? && v.i >= 0)
    ensures r.Pass? || Raised(r)
  {
    if !IsInt(v) then Invalid("The section_id must be an integer")
    else if AsInt(v) < 0 then Invalid("The section_id must be a positive integer")
    else Pass
  }

  /** `check_foreign_key`: None or a non-negative int. */
  function CheckForeignKey(v: Value): (r: Outcome)
    ensures r.Pass? <==> v.VNone? || v.VBool? || (v.VInt? && v.i >= 0)
    ensures r.Pass? || Raised(r)
  {
    if !(IsInt(v) || v.VNone?) then Invalid("The profile_id must be an integer")
    else if !v.VNone? && AsInt(v) < 0 then Invalid("The profile_id must be a positive integer")
    else Pass
  }

  /** `check_iterable`: strings and containers. */
  function CheckIterable(v: Value): (r: Outcome)
    ensures r.Pass? <==> v.VStr? || v.VList? || v.VTuple?
    ensures r.Pass? || Raised(r)
  {
    if !IsIterable(v) then Invalid("The value must be an iterable") else Pass
  }

  /** `check_ice`: an int in [0, TARGET_HEIGHT]. Although documented as the
      check for `volume_ice_per_foot`, its body is the start-height check. */
  function CheckIce(v: Value): (r: Outcome)
    ensures r.Pass? <==> v.VBool? || (v.VInt? && 0 <= v.i <= 30)
    ensures r.Pass? || Raised(r)
  {
    if !IsInt(v) then Invalid("The start height must be an integer")
    else if !(0 <= AsInt(v) <= TARGET_HEIGHT) then Invalid("The start height must be between 0 and 30")
    else Pass
  }

  /** `check_cost`: a positive int. */
  function CheckCost(v: Value): (r: Outcome)
    ensures r.Pass? <==> v == VBool(true) || (v.VInt? && v.i > 0)
    ensures r.Pass? || Raised(r)
  {
    if !IsInt(v) then Invalid("The start height must be an integer")
    else if AsInt(v) <= 0 then Invalid("Invalid value for cost_per_volume: " + Str(v))
    else Pass
  }

  /** `check_height`: an int in [0, TARGET_HEIGHT]. */
  function CheckHeight(v: Value): (r: Outcome)
    ensures r.Pass? <==> v.VBool? || (v.VInt? && 0 <= v.i <= 30)
    ensures r.Pass? || Raised(r)
  {
    if !IsInt(v) then Invalid("The start height must be an integer")
    else if !(0 <= AsInt(v) <= TARGET_HEIGHT) then Invalid("Invalid value for target_height: " + Str(v))
    else Pass
  }

  /** `check_section_count`. The chained comparison `value < 0 < MAX`
      means `value < 0 and 0 < MAX`, so only negative ints pass. */
  function CheckSectionCount(v: Value): (r: Outcome)
    ensures r.Pass? <==> v.VInt? && v.i < 0
    ensures r.Pass? || Raised(r)
  {
    if !IsInt(v) then Invalid("The start height must be an integer")
    else if !(AsInt(v) < 0 && 0 < MAX_SECTION_COUNT) then
      Invalid("Invalid value for max_section_count: " + Str(v))
    else Pass
  }

  /** `check_build_rate`: a positive int. */
  function CheckBuildRate(v: Value): (r: Outcome)
    ensures r.Pass? <==> v == VBool(true) || (v.VInt? && v.i > 0)
    ensures r.Pass? || Raised(r)
  {
    if !IsInt(v) then Invalid("The start height must be an integer")
    else if AsInt(v) <= 0 then Invalid("Invalid value for build_rate: " + Str(v))
    else Pass
  }

  /** `check_num_teams`: an int strictly between 0 and MAX_WORKERS, so
      MAX_WORKERS itself is refused. */
  function CheckNumTeams(v: Value): (r: Outcome)
    ensures r.Pass? <==> v == VBool(true) || (v.VInt? && 0 < v.i < 20)
    ensures r.Pass? || Raised(r)
  {
    var msg := "Invalid num_teams: " + Str(v) + ". Allowed up to " + IntToString(MAX_WORKERS);
    if !IsInt(v) then Invalid(msg)
    else if !(0 < AsInt(v) < MAX_WORKERS) then Invalid(msg)
    else Pass
  }

  /** The number of items an iteration over `v` yields. */
  function Count(v: Value): nat
    requires IsIterable(v)
  {
    |Elements(v)|
  }

  /** `check_sections`: an iterable with between 1 and MAX - 1 items. */
  function CheckSections(v: Value): (r: Outcome)
    ensures r.Pass? <==> ((v.VList? || v.VTuple?) && 0 < |v.items| < 2000) || (v.VStr? && 0 < |v.s| < 2000)
    ensures r.Pass? || Raised(r)
  {
    if !IsIterable(v) then Invalid("The sections must be an iterable")
    else if !(0 < Count(v) < MAX_SECTION_COUNT) then Invalid("The sections list cannot be empty")
    else Pass
  }

  /** `check_profiles`: the same bound as `check_sections`. */
  function CheckProfiles(v: Value): (r: Outcome)
    ensures r.Pass? <==> ((v.VList? || v.VTuple?) && 0 < |v.items| < 2000) || (v.VStr? && 0 < |v.s| < 2000)
    ensures r.Pass? || Raised(r)
  {
    if !IsIterable(v) then Invalid("The profiles must be an iterable")
    else if !(0 < Count(v) < MAX_SECTION_COUNT) then Invalid("The profiles list cannot be empty")
    else Pass
  }

  /** Every item is a list. */
  predicate AllLists(xs: seq<Value>) {
    forall r :: 0 <= r < |xs| ==> xs[r].VList?
  }

  /** Every item of every (list) item is an int. */
  predicate AllNestedInts(xs: seq<Value>)
    requires AllLists(xs)
  {
    forall r, k :: 0 <= r < |xs| && 0 <= k < |xs[r].items| ==> IsInt(xs[r].items[k])
  }

  /** `sum(len(x) for x in xs)` over a sequence of lists. */
  function TotalLength(xs: seq<Value>): nat
    requires AllLists(xs)
  {
    if |xs| == 0 then 0 else TotalLength(xs[..|xs| - 1]) + |xs[|xs| - 1].items|
  }

  /** `check_config_list`: an iterable of lists of ints holding between 1
      and MAX - 1 integers in all. The four conditions are checked in order
      and the first that fails names the error. */
  function CheckConfigList(v: Value): (r: Outcome)
    ensures r.Pass? <==>
      && (v.VList? || v.VTuple?)
      && (forall p :: 0 <= p < |v.items| ==> v.items[p].VList?)
      && (forall p, k :: 0 <= p < |v.items| && v.items[p].VList? && 0 <= k < |v.items[p].items|
            ==> IsInt(v.items[p].items[k]))
      && 0 < TotalLength(v.items) < 2000
    ensures r.Pass? || Raised(r)
    ensures !IsIterable(v) ==> r == Invalid("The profiles must be an iterable")
    ensures IsIterable(v) && !AllLists(Elements(v)) ==> r == Invalid("The profiles must be a two-dimensional list")
  {
    if !IsIterable(v) then Invalid("The profiles must be an iterable")
    else if !AllLists(Elements(v)) then Invalid("The profiles must be a two-dimensional list")
    else if !AllNestedInts(Elements(v)) then Invalid("The profiles must contain only integers")
    else if !(0 < TotalLength(Elements(v)) < MAX_SECTION_COUNT) then Invalid("The profiles list cannot be empty")
    else Pass
  }

  /** `check_ice` and `check_height` accept exactly the same values; only
      their out-of-range messages differ. */
  lemma IceAndHeightAgree(v: Value)
    ensures CheckIce(v).Pass? <==> CheckHeight(v).Pass?
    ensures !IsInt(v) ==> CheckIce(v) == CheckHeight(v)
  {
  }

  /** The integer rows any typed configuration holds always pass
      `check_config_list` when they hold between 1 and MAX - 1 heights. */
  lemma {:induction false} TotalLengthOfRows(rows: seq<seq<int>>)
    ensures AllLists(FromRows(rows).items)
    ensures TotalLength(FromRows(rows).items) == SumLengths(rows)
  {
    var xs := FromRows(rows).items;
    if |rows| > 0 {
      var init := rows[..|rows| - 1];
      TotalLengthOfRows(init);
      assert xs[..|xs| - 1] == FromRows(init).items;
    }
  }

  /** The number of heights in a list of rows. */
  function SumLengths(rows: seq<seq<int>>): nat {
    if |rows| == 0 then 0 else SumLengths(rows[..|rows| - 1]) + |rows[|rows| - 1]|
  }

  /** A list of integer rows passes `check_config_list` exactly when it
      holds between 1 and 1999 heights in all. */
  lemma ConfigListOfRows(rows: seq<seq<int>>)
    ensures CheckConfigList(FromRows(rows)).Pass? <==> 0 < SumLengths(rows) < 2000
  {
    TotalLengthOfRows(rows);
    RowsRoundTrip(rows);
  }

  /** The expectations of builder/tests/test_validator.py that the code
      meets for the key, height, cost, build-rate and team-count checks. */
  lemma ScalarTestExpectations()
    ensures CheckPrimaryKey(VInt(0)).Pass? && CheckPrimaryKey(VInt(100)).Pass?
    ensures CheckPrimaryKey(VInt(-1)).Fail? && CheckPrimaryKey(VStr("1")).Fail? && CheckPrimaryKey(VFloat("1.0")).Fail?
    ensures CheckForeignKey(VInt(0)).Pass? && CheckForeignKey(VInt(-1)).Fail? && CheckForeignKey(VFloat("1.0")).Fail?
    ensures CheckIterable(VList([])).Pass? && CheckIterable(VInt(1)).Fail?
    ensures CheckHeight(VInt(0)).Pass? && CheckHeight(VInt(30)).Pass? && CheckHeight(VInt(-1)).Fail?
    ensures CheckCost(VInt(1)).Pass? && CheckCost(VInt(0)).Fail? && CheckCost(VStr("1")).Fail?
    ensures CheckBuildRate(VInt(1000)).Pass? && CheckBuildRate(VInt(0)).Fail?
    ensures CheckNumTeams(VInt(1)).Pass? && CheckNumTeams(VInt(0)).Fail? && CheckNumTeams(VInt(30)).Fail?
  {
  }

  /** The expectations of builder/tests/test_validator.py that the code
      meets for the list and configuration-list checks. */
  lemma ListTestExpectations()
    ensures CheckSections(VList([VInt(1)])).Pass? && CheckSections(VList([])).Fail? && CheckSections(VFloat("1.0")).Fail?
    ensures CheckProfiles(VList([VInt(1), VInt(2), VInt(3)])).Pass? && CheckProfiles(VList([])).Fail?
    ensures CheckConfigList(VList([VList([VInt(1)]), VList([VInt(1), VInt(2)])])).Pass?
    ensures CheckConfigList(VList([])).Fail?
    ensures CheckConfigList(VList([VList([VInt(1)]), VList([VStr("1")])])).Fail?
    ensures CheckConfigList(VInt(1)).Fail? && CheckConfigList(VFloat("1.0")).Fail?
  {
    ConfigListOfTwoRows();
    ConfigListWithString();
  }

  /** The over-long configuration lists of builder/tests/test_validator.py,
      [[1] * 2000] and [[1], [2] * 2000]: 2000 and 2001 heights, no fewer
      than MAX_SECTION_COUNT. */
  lemma ConfigListTooLong()
    ensures CheckConfigList(VList([VList(seq(2000, k => VInt(1)))])).Fail?
    ensures CheckConfigList(VList([VList([VInt(1)]), VList(seq(2000, k => VInt(2)))])).Fail?
  {
    var one := VList([VList(seq(2000, k => VInt(1)))]);
    assert one.items[..0] == [];
    assert TotalLength(one.items) == 2000;
    var two := VList([VList([VInt(1)]), VList(seq(2000, k => VInt(2)))]);
    assert two.items[..1] == [VList([VInt(1)])];
    assert two.items[..1][..0] == [];
    assert TotalLength(two.items) == 2001;
  }

  /** [[1], [1, 2]]: three ints in two lists. */
  lemma ConfigListOfTwoRows()
    ensures CheckConfigList(VList([VList([VInt(1)]), VList([VInt(1), VInt(2)])])).Pass?
  {
    var good := VList([VList([VInt(1)]), VList([VInt(1), VInt(2)])]);
    assert good.items[..1] == [VList([VInt(1)])];
    assert good.items[..1][..0] == [];
    assert TotalLength(good.items) == 3;
  }

  /** [[1], ['1']]: a string among the heights. */
  lemma ConfigListWithString()
    ensures CheckConfigList(VList([VList([VInt(1)]), VList([VStr("1")])])).Fail?
  {
    var bad := VList([VList([VInt(1)]), VList([VStr("1")])]);
    assert !IsInt(bad.items[1].items[0]);
  }
}
