/** Dynamically typed Python values, as the validators receive them. The
    validators in builder/validator.py and the `validate` methods of the
    section, profile and manager classes test the *type* of an attribute
    before its range, so their inputs are modelled as this sum type rather
    than as Dafny integers. */
module Values {
  import opened Outcomes

  /** A Python value as far as the builder can tell values apart.
      - `VBool` is kept apart from `VInt` because `bool` subclasses `int`
        in Python: `isinstance(True, int)` holds.
      - `VFloat` and `VObject` are never compared by the builder, only
        type-checked and printed, so they carry their printed form.
      - `VTuple` stands for every iterable container that is not a list.
      - `VSection` is an instance of the wall-section class. */
  datatype Value =
    | VNone
    | VBool(b: bool)
    | VInt(i: int)
    | VFloat(text: string)
    | VStr(s: string)
    | VList(items: seq<Value>)
    | VTuple(items: seq<Value>)
    | VSection(sec: RawSection)
    | VObject(text: string)

  /** The three attributes of a wall section that `validate` inspects, each
      of whatever type the caller stored there. */
  datatype RawSection = RawSection(sectionId: Value, profileId: Value, startHeight: Value)

  /** `isinstance(v, int)`. */
  predicate IsInt(v: Value) {
    v.VInt? || v.VBool?
  }

  /** The integer an int-typed value compares as (`True == 1`). */
  function AsInt(v: Value): (n: int)
    requires IsInt(v)
    ensures v.VBool? ==> 0 <= n <= 1
    ensures v.VInt? ==> n == v.i
  {
    match v
    case VInt(i) => i
    case VBool(b) => if b then 1 else 0
  }

  /** `hasattr(v, '__iter__')`. */
  predicate IsIterable(v: Value) {
    v.VStr? || v.VList? || v.VTuple?
  }

  /** What `for x in v` yields: the items of a container, or the
      one-character strings of a string. */
  function Elements(v: Value): (xs: seq<Value>)
    requires IsIterable(v)
    ensures v.VStr? ==> |xs| == |v.s| && forall k :: 0 <= k < |xs| ==> xs[k] == VStr([v.s[k]])
    ensures !v.VStr? ==> xs == v.items
  {
    if v.VStr? then seq(|v.s|, k requires 0 <= k < |v.s| => VStr([v.s[k]])) else v.items
  }

  /** The decimal digits of a natural number, as `str(n)` prints it. */
  function NatToString(n: nat): (s: string)
    decreases n
    ensures |s| > 0 && (n > 0 ==> s[0] != '0')
    ensures forall k :: 0 <= k < |s| ==> '0' <= s[k] <= '9'
  {
    var d := ['0', '1', '2', '3', '4', '5', '6', '7', '8', '9'][n % 10];
    if n < 10 then [d] else NatToString(n / 10) + [d]
  }

  /** The number a string of decimal digits denotes. */
  function DigitsValue(s: string): nat
    requires forall k :: 0 <= k < |s| ==> '0' <= s[k] <= '9'
  {
    if |s| == 0 then 0 else DigitsValue(s[..|s| - 1]) * 10 + (s[|s| - 1] - '0') as nat
  }

  /** Printing a natural number loses nothing: reading the digits back gives
      the number. */
  lemma {:induction false} NatToStringRoundTrip(n: nat)
    ensures DigitsValue(NatToString(n)) == n
  {
    var s := NatToString(n);
    if n >= 10 {
      NatToStringRoundTrip(n / 10);
      assert s[..|s| - 1] == NatToString(n / 10);
    }
  }

  /** `str(i)` for an integer. */
  function IntToString(i: int): (s: string)
    ensures |s| > 0
    ensures (s[0] == '-') <==> i < 0
  {
    if i < 0 then "-" + NatToString(-i) else NatToString(i)
  }

  /** `str(v)`, used when a validator embeds the offending value in its
      message. Containers print their items with `repr`. */
  function Str(v: Value): string
    decreases v, 0
  {
    match v
    case VNone => "None"
    case VBool(b) => if b then "True" else "False"
    case VInt(i) => IntToString(i)
    case VFloat(t) => t
    case VStr(s) => s
    case VList(xs) => "[" + Join(seq(|xs|, k requires 0 <= k < |xs| => Repr(xs[k]))) + "]"
    case VTuple(xs) =>
      "(" + Join(seq(|xs|, k requires 0 <= k < |xs| => Repr(xs[k])))
      + (if |xs| == 1 then ",)" else ")")
    case VSection(_) => "<WallSection object>"
    case VObject(t) => t
  }

  /** What `str` shows of the values a message can embed: a string as
      itself, a bool as its Python name, and an integer as its sign and
      digits, which read back to the number. */
  lemma StrShowsValue(v: Value)
    ensures v.VStr? ==> Str(v) == v.s && Repr(v) == "'" + v.s + "'"
    ensures v.VBool? ==> Str(v) == (if v.b then "True" else "False")
    ensures v.VInt? ==> |Str(v)| > 0 && (Str(v)[0] == '-' <==> v.i < 0)
    ensures v.VInt? && v.i >= 0 ==> Str(v) == NatToString(v.i) && DigitsValue(Str(v)) == v.i
    ensures v.VInt? && v.i < 0 ==> Str(v)[1..] == NatToString(-v.i) && DigitsValue(Str(v)[1..]) == -v.i
  {
    if v.VInt? {
      if v.i < 0 {
        NatToStringRoundTrip(-v.i);
      } else {
        NatToStringRoundTrip(v.i);
      }
    }
  }

  /** Distinct integers print differently. */
  lemma StrIntInjective(a: int, b: int)
    ensures Str(VInt(a)) == Str(VInt(b)) ==> a == b
  {
    StrShowsValue(VInt(a));
    StrShowsValue(VInt(b));
  }

  /** `repr(v)`: as `str`, except that strings are quoted. */
  function Repr(v: Value): string
    decreases v, 1
  {
    if v.VStr? then "'" + v.s + "'" else Str(v)
  }

  /** `", ".join(parts)`. */
  function Join(parts: seq<string>): string {
    if |parts| == 0 then ""
    else if |parts| == 1 then parts[0]
    else Join(parts[..|parts| - 1]) + ", " + parts[|parts| - 1]
  }

  /** A two-dimensional list of integers, as a Python value. */
  function FromRows(rows: seq<seq<int>>): (v: Value)
    ensures v.VList? && |v.items| == |rows|
    ensures forall r :: 0 <= r < |rows| ==>
              v.items[r].VList? && |v.items[r].items| == |rows[r]|
  {
    VList(seq(|rows|, r requires 0 <= r < |rows| =>
      VList(seq(|rows[r]|, k requires 0 <= k < |rows[r]| => VInt(rows[r][k])))))
  }

  /** A list whose every item is a list of int-typed values. */
  predicate IsIntMatrix(v: Value) {
    && v.VList?
    && (forall r :: 0 <= r < |v.items| ==> v.items[r].VList?)
    && (forall r, k :: 0 <= r < |v.items| && v.items[r].VList? && 0 <= k < |v.items[r].items|
          ==> IsInt(v.items[r].items[k]))
  }

  /** Reads a two-dimensional list of integers back out of a value, if it is
      one. */
  function AsRows(v: Value): (rows: Option<seq<seq<int>>>)
    ensures rows.Some? <==> IsIntMatrix(v)
    ensures rows.Some? ==> |rows.value| == |v.items|
    ensures rows.Some? ==> forall r :: 0 <= r < |v.items| ==> |rows.value[r]| == |v.items[r].items|
  {
    if IsIntMatrix(v) then
      Some(seq(|v.items|, r requires 0 <= r < |v.items| =>
        seq(|v.items[r].items|, k requires 0 <= k < |v.items[r].items| => AsInt(v.items[r].items[k]))))
    else None
  }

  /** Embedding integer rows into Python values and reading them back is the
      identity, and every embedded matrix is an int matrix. */
  lemma RowsRoundTrip(rows: seq<seq<int>>)
    ensures IsIntMatrix(FromRows(rows))
    ensures AsRows(FromRows(rows)) == Some(rows)
  {
    var v := FromRows(rows);
    assert IsIntMatrix(v);
    var back := AsRows(v).value;
    assert |back| == |rows|;
    forall r | 0 <= r < |rows|
      ensures back[r] == rows[r]
    {
      assert |back[r]| == |rows[r]|;
      forall k | 0 <= k < |rows[r]|
        ensures back[r][k] == rows[r][k]
      {
        assert v.items[r].items[k] == VInt(rows[r][k]);
      }
    }
    assert back == rows;
  }
}
