/**
 * Range selection over time: a `RangePoint` is a (year, group) edge, written
 * `"<year>[/<group>]"`, and a `RangeSelector` is a validated (start, end) pair of
 * them. The database filters they build are modelled by their boolean meaning over a
 * row's (season year, group order) pair.
 */
module Selectors {
  import opened Values

  // ---------------------------------------------------------------------------
  // Python's `int(...)` and `str(...)` on integers

  predicate IsDigit(c: char) {
    '0' <= c <= '9'
  }

  predicate AllDigits(s: string) {
    forall i :: 0 <= i < |s| ==> IsDigit(s[i])
  }

  /** The number a run of decimal digits denotes (leading zeros allowed). */
  function DigitsValue(s: string): nat
    requires AllDigits(s)
  {
    if |s| == 0 then 0 else DigitsValue(s[..|s| - 1]) * 10 + (s[|s| - 1] as int - '0' as int)
  }

  /**
   * `int(s)` on a string: an optional sign followed by at least one decimal digit;
   * anything else raises `ValueError`.
   */
  function ParseInt(s: string): (r: Result<int>)
    ensures '/' in s ==> r == Err(ValueError)
    ensures r.Ok? ==> |s| > 0
  {
    if |s| > 0 && (s[0] == '-' || s[0] == '+') then
      var digits := s[1..];
      if |digits| > 0 && AllDigits(digits) then
        var n: int := DigitsValue(digits);
        Ok(if s[0] == '-' then -n else n)
      else
        Err(ValueError)
    else if |s| > 0 && AllDigits(s) then
      Ok(DigitsValue(s))
    else
      Err(ValueError)
  }

  /** `str(n)` for a natural number: its decimal digits without leading zeros. */
  function NatString(n: nat): (r: string)
    ensures |r| > 0 && AllDigits(r)
    ensures |r| == 1 <==> n < 10
  {
    if n < 10 then ['0' + n as char] else NatString(n / 10) + ['0' + (n % 10) as char]
  }

  /** `str(i)`: a minus sign in front of negative numbers. */
  function IntString(i: int): (r: string)
    ensures |r| > 0 && (r[0] == '-' || IsDigit(r[0]))
    ensures '/' !in r
  {
    if i < 0 then "-" + NatString(-i) else NatString(i)
  }

  lemma {:induction false} DigitsAppend(s: string, c: char)
    requires AllDigits(s) && IsDigit(c)
    ensures AllDigits(s + [c]) && DigitsValue(s + [c]) == DigitsValue(s) * 10 + (c as int - '0' as int)
  {
    assert (s + [c])[..|s|] == s;
  }

  lemma {:induction false} NatStringValue(n: nat)
    ensures DigitsValue(NatString(n)) == n
    decreases n
  {
    if n < 10 {
      assert NatString(n) == [] + ['0' + n as char];
      DigitsAppend([], '0' + n as char);
    } else {
      NatStringValue(n / 10);
      DigitsAppend(NatString(n / 10), '0' + (n % 10) as char);
    }
  }

  /** An unsigned digit run parses as the number it denotes. */
  lemma ParseDigits(s: string)
    requires |s| > 0 && AllDigits(s)
    ensures ParseInt(s) == Ok(DigitsValue(s))
  {
    assert IsDigit(s[0]);
  }

  /** A minus sign followed by a digit run parses as the negated number. */
  lemma ParseNegated(digits: string)
    requires |digits| > 0 && AllDigits(digits)
    ensures ParseInt("-" + digits) == Ok(-(DigitsValue(digits) as int))
  {
    var s := "-" + digits;
    assert s[0] == '-' && s[1..] == digits;
  }

  /** `int(str(i)) == i`. */
  lemma ParseIntString(i: int)
    ensures ParseInt(IntString(i)) == Ok(i)
  {
    if i < 0 {
      var digits := NatString(-i);
      assert IntString(i) == "-" + digits;
      NatStringValue(-i);
      ParseNegated(digits);
    } else {
      var digits := NatString(i);
      assert IntString(i) == digits;
      NatStringValue(i);
      ParseDigits(digits);
    }
  }

  // ---------------------------------------------------------------------------
  // RangePoint

  /** An edge of a selection; both parts may be missing. */
  datatype Point = Point(year: Option<int>, group: Option<int>)

  const NullPoint := Point(None, None)

  predicate IsNull(p: Point) {
    p.year.None? && p.group.None?
  }

  predicate IsPartial(p: Point) {
    p.year.None? != p.group.None?
  }

  predicate IsFull(p: Point) {
    p.year.Some? && p.group.Some?
  }

  /** Every point is exactly one of null, partial and full. */
  lemma PointClassification(p: Point)
    ensures IsNull(p) <==> p.year.None? && p.group.None?
    ensures IsPartial(p) <==> (p.year.None? && p.group.Some?) || (p.year.Some? && p.group.None?)
    ensures IsNull(p) ==> !IsPartial(p) && !IsFull(p)
    ensures IsPartial(p) ==> !IsFull(p)
    ensures IsNull(p) || IsPartial(p) || IsFull(p)
  {
  }

  /** Python's string slices `s[:n]` and `s[n:]`, which clamp to the string. */
  function Take(s: string, n: nat): (r: string)
    ensures r <= s && |r| == if |s| < n then |s| else n
  {
    if |s| < n then s else s[..n]
  }

  function Drop(s: string, n: nat): (r: string)
    ensures |r| == if |s| < n then 0 else |s| - n
    ensures |s| >= n ==> s == s[..n] + r
  {
    if |s| < n then [] else s[n..]
  }

  /**
   * `parse_from_string`: `None` gives the null point; a string without `/` is a year
   * alone; otherwise the first four characters are the year and everything after the
   * fifth is the group. A part that is not an integer raises `ValueError`.
   */
  function ParseFromString(s: Option<string>): (r: Result<Point>)
    ensures s.None? <==> r == Ok(NullPoint)
    ensures r.Ok? && s.Some? ==> r.value.year.Some? && (r.value.group.Some? <==> '/' in s.value)
    ensures s.Some? && '/' !in s.value ==> r == (var y := ParseInt(s.value); if y.Ok? then Ok(Point(Some(y.value), None)) else Err(ValueError))
    ensures s.Some? && '/' in s.value ==>
      r == (var y, g := ParseInt(Take(s.value, 4)), ParseInt(Drop(s.value, 5));
            if y.Ok? && g.Ok? then Ok(Point(Some(y.value), Some(g.value))) else Err(ValueError))
    ensures r.Err? ==> r.error == ValueError
  {
    match s
    case None => Ok(NullPoint)
    case Some(t) =>
      if '/' !in t then
        var y :- ParseInt(t);
        Ok(Point(Some(y), None))
      else
        var y :- ParseInt(Take(t, 4));
        var g :- ParseInt(Drop(t, 5));
        Ok(Point(Some(y), Some(g)))
  }

  /** `str(point)`: the year (or `None`), then `/group` when there is a group. */
  function PointString(p: Point): (r: string)
    ensures |r| > 0 && (r[0] == 'N' || r[0] == '-' || IsDigit(r[0]))
    ensures '/' in r <==> p.group.Some?
  {
    var y := if p.year.Some? then IntString(p.year.value) else "None";
    var g := if p.group.Some? then "/" + IntString(p.group.value) else "";
    assert '/' !in y;
    assert p.group.Some? ==> g[0] == '/' && (y + g)[|y|] == '/';
    y + g
  }

  /** A year alone prints and parses back to itself, whatever its sign or width. */
  lemma ParseYearOnly(year: int)
    ensures ParseFromString(Some(PointString(Point(Some(year), None)))) == Ok(Point(Some(year), None))
  {
    assert PointString(Point(Some(year), None)) == IntString(year);
    ParseIntString(year);
  }

  /**
   * A year and a group print and parse back to themselves when the year takes exactly
   * four characters, as every year from 1000 to 9999 does.
   */
  lemma ParseYearAndGroup(year: int, group: int)
    requires |IntString(year)| == 4
    ensures ParseFromString(Some(PointString(Point(Some(year), Some(group))))) == Ok(Point(Some(year), Some(group)))
  {
    var s := PointString(Point(Some(year), Some(group)));
    assert s == IntString(year) + "/" + IntString(group);
    assert Take(s, 4) == IntString(year);
    assert Drop(s, 5) == IntString(group);
    ParseIntString(year);
    ParseIntString(group);
  }

  lemma FourDigitYears(year: int)
    requires 1000 <= year <= 9999
    ensures |IntString(year)| == 4
  {
    assert NatString(year) == NatString(year / 10) + ['0' + (year % 10) as char];
    assert NatString(year / 10) == NatString(year / 100) + ['0' + (year / 10 % 10) as char];
    assert NatString(year / 100) == NatString(year / 1000) + ['0' + (year / 100 % 10) as char];
  }

  /** The year is always the first four characters: a year of any other width, with a
      group, does not parse. */
  lemma OnlyFourCharacterYearsWithGroup()
    ensures ParseFromString(Some("99/3")).Err?
    ensures ParseFromString(Some("12345/6")).Err?
  {
    assert Take("99/3", 4) == "99/3";
    assert Drop("12345/6", 5) == "/6";
  }

  /** The null point prints as `None`, which does not parse back. */
  lemma NullPointDoesNotRoundTrip()
    ensures PointString(NullPoint) == "None"
    ensures ParseFromString(Some(PointString(NullPoint))).Err?
  {
  }

  // ---------------------------------------------------------------------------
  // Filters

  /** The two columns a filter compares: `Season.year` and `Group.order_id`. */
  datatype Column = SeasonYear | GroupOrder

  datatype CompareOp = Lt | Le | Gt | Ge | Eq

  /** A filter expression: `and_()` with no operand is `Always`. */
  datatype Clause =
    | Always
    | Compare(col: Column, op: CompareOp, bound: int)
    | Conj(left: Clause, right: Clause)
    | Disj(left: Clause, right: Clause)

  /** A candidate row: the year of its season and the order of its group. */
  datatype Row = Row(year: int, order: int)

  predicate Compares(op: CompareOp, v: int, bound: int) {
    match op
    case Lt => v < bound
    case Le => v <= bound
    case Gt => v > bound
    case Ge => v >= bound
    case Eq => v == bound
  }

  predicate Holds(c: Clause, row: Row) {
    match c
    case Always => true
    case Compare(col, op, bound) =>
      Compares(op, if col == SeasonYear then row.year else row.order, bound)
    case Conj(l, r) => Holds(l, row) && Holds(r, row)
    case Disj(l, r) => Holds(l, row) || Holds(r, row)
  }

  /** The `compare_op` argument: `"g"` bounds from below, `"l"` from above. */
  datatype Direction = G | L

  /** `(y1, g1) <= (y2, g2)` lexicographically. */
  predicate LexLe(y1: int, g1: int, y2: int, g2: int) {
    y1 < y2 || (y1 == y2 && g1 <= g2)
  }

  /**
   * `build_filter`: a full point (unless groups are ignored) bounds rows
   * lexicographically by (year, group); otherwise a point with a year bounds the year
   * alone, inclusively; a point without a year accepts every row.
   */
  function BuildFilter(p: Point, dir: Direction, ignoreGroups: bool): (c: Clause)
    ensures IsFull(p) && !ignoreGroups ==> forall row :: Holds(c, row) <==>
      if dir == G then LexLe(p.year.value, p.group.value, row.year, row.order)
      else LexLe(row.year, row.order, p.year.value, p.group.value)
    ensures p.year.Some? && (p.group.None? || ignoreGroups) ==> forall row :: Holds(c, row) <==>
      if dir == G then p.year.value <= row.year else row.year <= p.year.value
    ensures p.year.None? ==> forall row :: Holds(c, row)
  {
    var strict := if dir == G then Gt else Lt;
    var inclusive := if dir == G then Ge else Le;
    if !IsNull(p) then
      if !IsPartial(p) && !ignoreGroups then
        var later := Compare(SeasonYear, strict, p.year.value);
        var same := Conj(Compare(SeasonYear, Eq, p.year.value), Compare(GroupOrder, inclusive, p.group.value));
        assert forall row :: Holds(same, row) <==> row.year == p.year.value && Compares(inclusive, row.order, p.group.value);
        assert forall row :: Holds(Disj(later, same), row) <==> Compares(strict, row.year, p.year.value) || Holds(same, row);
        Disj(later, same)
      else if p.year.Some? then
        Compare(SeasonYear, inclusive, p.year.value)
      else
        Always
    else
      Always
  }

  // ---------------------------------------------------------------------------
  // RangeSelector

  /** `_null_checked_lte`: a missing bound never conflicts. */
  predicate NullCheckedLte(a: Option<int>, b: Option<int>) {
    a.None? || b.None? || a.value <= b.value
  }

  /** `is_valid` on a (start, end) pair; equal years include two missing years. */
  predicate ValidPair(s: Point, e: Point) {
    NullCheckedLte(s.year, e.year) && (if s.year == e.year then NullCheckedLte(s.group, e.group) else true)
  }

  /** Between full points validity is exactly the lexicographic order; every point
      makes a valid range with itself and with the null point. */
  lemma ValidPairMeaning(s: Point, e: Point)
    ensures IsFull(s) && IsFull(e) ==> (ValidPair(s, e) <==> LexLe(s.year.value, s.group.value, e.year.value, e.group.value))
    ensures ValidPair(s, s) && ValidPair(s, NullPoint) && ValidPair(NullPoint, s)
  {
  }

  /** `x or RangePoint()`: a point object is always truthy, so only `None` is replaced. */
  function OrNull(p: Option<Point>): Point {
    if p.Some? then p.value else NullPoint
  }

  /** The renderings of a selector differ in their first character. */
  lemma Heads(r: string)
    requires |r| > 0
    ensures r == "all" ==> r[0] == 'a'
    ensures |r| >= 6 && r[..6] == "until " ==> r[0] == 'u'
    ensures |r| >= 5 && r[..5] == "from " ==> r[0] == 'f'
  {
    if |r| >= 6 && r[..6] == "until " {
      assert r[0] == r[..6][0];
    }
    if |r| >= 5 && r[..5] == "from " {
      assert r[0] == r[..5][0];
    }
  }

  class RangeSelector {
    var start: Point
    var end: Point

    constructor Init(s: Point, e: Point)
      ensures start == s && end == e
    {
      start := s;
      end := e;
    }

    /** `RangeSelector(start, end)`: raises `TypeError` for an invalid pair. */
    static method New(s: Option<Point>, e: Option<Point>) returns (r: Result<RangeSelector>)
      ensures r.Ok? <==> ValidPair(OrNull(s), OrNull(e))
      ensures r.Err? ==> r.error == TypeError
      ensures r.Ok? ==> fresh(r.value) && r.value.start == OrNull(s) && r.value.end == OrNull(e)
      ensures s.None? && e.None? ==> r.Ok?
    {
      var sel := new RangeSelector.Init(OrNull(s), OrNull(e));
      if !sel.IsValid() {
        return Err(TypeError);
      }
      r := Ok(sel);
    }

    predicate IsValid()
      reads this
    {
      ValidPair(start, end)
    }

    /**
     * `str(selector)`. Which of the five renderings applies can be read back from the
     * text: only the all-null selector prints `all`, only an open start prints
     * `until …`, and `from …` appears exactly when there is a start and the range is
     * not a single point.
     */
    function ToString(): (r: string)
      reads this
      ensures r == "all" <==> IsNull(start) && IsNull(end)
      ensures (|r| >= 6 && r[..6] == "until ") <==> IsNull(start) && !IsNull(end)
      ensures (|r| >= 5 && r[..5] == "from ") <==> !IsNull(start) && (IsNull(end) || end != start)
      ensures !IsNull(start) && end == start ==> r == PointString(start)
      ensures IsNull(start) && !IsNull(end) ==> r == "until " + PointString(end)
      ensures !IsNull(start) && IsNull(end) ==> r == "from " + PointString(start)
      ensures !IsNull(start) && !IsNull(end) && end != start ==>
        r == "from " + PointString(start) + " until " + PointString(end)
    {
      var endNull := IsNull(end);
      var startNull := IsNull(start);
      if startNull && endNull then "all"
      else if startNull && !endNull then
        var r := "until " + PointString(end);
        assert r[..6] == "until ";
        Heads(r);
        r
      else if !startNull && endNull then
        var r := "from " + PointString(start);
        assert r[..5] == "from ";
        Heads(r);
        r
      else if end != start then
        var r := "from " + PointString(start) + " until " + PointString(end);
        assert r[..5] == "from ";
        Heads(r);
        r
      else
        var r := PointString(start);
        Heads(r);
        r
    }

    /** `__eq__`: `other` is `null` when it is not a `RangeSelector`. Equal selectors
        print the same and are equally valid. */
    predicate Equals(other: RangeSelector?)
      reads this, other
      ensures Equals(other) ==> other != null && ToString() == other.ToString() && IsValid() == other.IsValid()
      ensures other == this ==> Equals(other)
    {
      other != null && start == other.start && end == other.end
    }

    /** `copy`: takes over both edges of `other`, and nothing else. */
    method Copy(other: RangeSelector)
      modifies this
      ensures start == other.start && end == other.end
      ensures other.IsValid() ==> IsValid()
    {
      var s, e := other.start, other.end;
      start := s;
      end := e;
    }

    /**
     * `build_filters`: both edges' filters together. Between full edges the range
     * selects exactly the rows lexicographically between them, and a valid range of
     * full edges selects at least its own start.
     */
    function BuildFilters(ignoreGroups: bool): (c: Clause)
      reads this
      ensures IsFull(start) && IsFull(end) && !ignoreGroups ==> forall row :: Holds(c, row) <==>
        LexLe(start.year.value, start.group.value, row.year, row.order) &&
        LexLe(row.year, row.order, end.year.value, end.group.value)
      ensures IsNull(start) && IsNull(end) ==> forall row :: Holds(c, row)
      ensures IsFull(start) && IsFull(end) && IsValid() ==> Holds(c, Row(start.year.value, start.group.value))
    {
      Conj(BuildFilter(start, G, ignoreGroups), BuildFilter(end, L, ignoreGroups))
    }
  }
}
