/**
 * The concrete pipeline of the application: how one raw match record of the
 * football data service becomes a `Match` whose group and teams are got or created
 * in the session, and `clean_download_list`, which splits the requested years into
 * new ones and ones already stored.
 */
module LivePipeline {
  import opened Values
  import opened Transformations
  import opened Semantics
  import opened ChainLaws

  const TeamModel: Kind := "Team"
  const GroupModel: Kind := "Group"
  const MatchModel: Kind := "Match"
  const SeasonModel: Kind := "Season"

  /** ASCII `str.lower` on one character. */
  function LowerChar(c: char): char {
    if 'A' <= c <= 'Z' then (c as int - 'A' as int + 'a' as int) as char else c
  }

  function Lower(s: string): (r: string)
    ensures |r| == |s| && forall i :: 0 <= i < |s| ==> r[i] == LowerChar(s[i])
  {
    if s == [] then [] else [LowerChar(s[0])] + Lower(s[1..])
  }

  /** `"end" in s`. */
  predicate HasEnd(s: string) {
    |s| >= 3 && (s[..3] == "end" || HasEnd(s[1..]))
  }

  /** The predicate of the points chains: `"end" in item["ResultName"].lower()`. A
      missing key fails as the lookup does; a name that is not a string has no
      `lower` method. */
  function IsEndResult(item: Value): (r: Result<bool>)
    ensures r.Ok? <==> item.VMap? && "ResultName" in item.entries && item.entries["ResultName"].VStr?
    ensures r.Ok? ==> r.value == HasEnd(Lower(item.entries["ResultName"].s))
  {
    var name :- Subscript(item, Name("ResultName"));
    if name.VStr? then Ok(HasEnd(Lower(name.s))) else Err(AttributeError)
  }

  /** `Get(side) | GetOrCreate(Team)`: the host (`Team1`) or guest (`Team2`) team. */
  function TeamField(side: string): Transformation {
    Pipe(Get(Name(side)), GetOrCreate(TeamModel))
  }

  /** `Get("MatchResults") | Filter(is_end) | Get(0) | Get(points)`. */
  function PointsField(points: string): Transformation {
    Pipe(Pipe(Pipe(Get(Name("MatchResults")), Filter(IsEndResult)), Get(Index(0))), Get(Name(points)))
  }

  /** The transformation map of `Team`. */
  function TeamMap(): FieldMap {
    [("id", Get(Name("TeamId"))), ("name", Get(Name("TeamName")))]
  }

  /** The transformation map of `Group`. */
  function GroupMap(): FieldMap {
    [("id", Get(Name("GroupID"))), ("order_id", Get(Name("GroupOrderID")))]
  }

  /** The transformation map of `Match`, with the date parser as a parameter. */
  function MatchMap(parseDate: Value -> Result<Value>): FieldMap {
    [ ("id", Get(Name("MatchID"))),
      ("date", Pipe(Get(Name("MatchDateTime")), Custom(parseDate))),
      ("is_finished", Get(Name("MatchIsFinished"))),
      ("group", Pipe(Get(Name("Group")), GetOrCreate(GroupModel))),
      ("host", TeamField("Team1")),
      ("guest", TeamField("Team2")),
      ("host_points", PointsField("PointsTeam1")),
      ("guest_points", PointsField("PointsTeam2")) ]
  }

  /** The registry of the application. No model has a `seasons` field: that
      relationship is filled in only when matches are linked to their season. */
  function LiveRegistry(parseDate: Value -> Result<Value>): (reg: Registry)
    ensures reg.Keys == {TeamModel, GroupModel, MatchModel}
    ensures forall m :: m in reg ==> DistinctNames(reg[m]) && "seasons" !in FieldNames(reg[m])
  {
    map[TeamModel := TeamMap(), GroupModel := GroupMap(), MatchModel := MatchMap(parseDate)]
  }

  // ---------------------------------------------------------------------------------
  // The points fields

  /** The filtered list starts with the first accepted row, and is empty when no row
      is accepted. */
  lemma {:induction false} KeepFirst(xs: seq<Value>, pred: Value -> Result<bool>)
    requires Keep(xs, pred).Ok?
    ensures (forall k :: 0 <= k < |xs| ==> pred(xs[k]) != Ok(true)) ==> Keep(xs, pred).value == []
    ensures forall k :: 0 <= k < |xs| && pred(xs[k]) == Ok(true) &&
                        (forall j :: 0 <= j < k ==> pred(xs[j]) != Ok(true)) ==>
      |Keep(xs, pred).value| > 0 && Keep(xs, pred).value[0] == xs[k]
  {
    if xs != [] {
      KeepFirst(xs[1..], pred);
      forall k | 0 < k < |xs|
        ensures xs[k] == xs[1..][k - 1]
      {
      }
    }
  }

  /**
   * `host_points` / `guest_points` on a record whose results all have a string name:
   * the points of the first result whose lower-cased name contains "end", or an
   * `IndexError` when there is none (there is no default). The session is untouched.
   */
  lemma PointsOfFirstEndResult(fuel: nat, reg: Registry, points: string, data: Value, st: Store)
    requires data.VMap? && "MatchResults" in data.entries && data.entries["MatchResults"].VList?
    requires var rs := data.entries["MatchResults"].items;
      forall k :: 0 <= k < |rs| ==> IsEndResult(rs[k]).Ok?
    ensures var r := Apply(fuel, reg, PointsField(points), data, st);
      var rs := data.entries["MatchResults"].items;
      && r.store == st
      && ((forall k :: 0 <= k < |rs| ==> IsEndResult(rs[k]) != Ok(true)) ==> r.result == Err(IndexError))
      && (forall k :: 0 <= k < |rs| && IsEndResult(rs[k]) == Ok(true) &&
                      (forall j :: 0 <= j < k ==> IsEndResult(rs[j]) != Ok(true)) ==>
            r.result == Subscript(rs[k], Name(points)))
  {
    var rs := data.entries["MatchResults"].items;
    var get := Get(Name("MatchResults"));
    var filter := Filter(IsEndResult);
    var kept := Keep(rs, IsEndResult).value;
    var a := Apply(fuel, reg, get, data, st);
    assert a == Step(Ok(VList(rs)), st);
    var b := AndThen(fuel, reg, a, filter);
    assert b == Step(Ok(VList(kept)), st);
    var c := AndThen(fuel, reg, b, Get(Index(0)));
    assert c == Step(Subscript(VList(kept), Index(0)), st);
    PipeMeaning(fuel, reg, get, filter, data, st);
    PipeMeaning(fuel, reg, Pipe(get, filter), Get(Index(0)), data, st);
    PipeMeaning(fuel, reg, Pipe(Pipe(get, filter), Get(Index(0))), Get(Name(points)), data, st);
    KeepFirst(rs, IsEndResult);
  }

  // ---------------------------------------------------------------------------------
  // Host and guest teams

  /** A team entry of a match record: a dictionary with `TeamId` and `TeamName`. */
  predicate IsTeamRecord(t: Value) {
    t.VMap? && "TeamId" in t.entries && "TeamName" in t.entries
  }

  /** The keyword arguments of a `Team`: `{id: TeamId, name: TeamName}`, read from the
      record without touching the session. */
  lemma TeamKwargs(fuel: nat, reg: Registry, t: Value, st: Store)
    requires TeamModel in reg && reg[TeamModel] == TeamMap()
    requires IsTeamRecord(t)
    ensures Kwargs(fuel, reg, TeamModel, t, st) ==
      Step(Ok(map["id" := t.entries["TeamId"], "name" := t.entries["TeamName"]]), st)
  {
    var fs := TeamMap();
    var id := t.entries["TeamId"];
    assert Apply(fuel, reg, fs[0].1, t, st) == Step(Ok(id), st);
    assert Apply(fuel, reg, fs[1].1, t, st) == Step(Ok(t.entries["TeamName"]), st);
    assert fs[1..][1..] == [];
    assert FieldsAcc(fuel, reg, fs[1..], map["id" := id], t, st) ==
      Step(Ok(map["id" := id, "name" := t.entries["TeamName"]]), st);
  }

  /** Evaluating a team field is `GetOrCreate(Team)` on the record's team entry. */
  lemma TeamFieldMeaning(fuel: nat, reg: Registry, side: string, m: Value, st: Store)
    requires m.VMap? && side in m.entries
    ensures Apply(fuel, reg, TeamField(side), m, st) ==
      if fuel == 0 then Step(Err(NestingTooDeep), st)
      else ApplyGetOrCreate(fuel - 1, reg, TeamModel, m.entries[side], st)
  {
    PipeMeaning(fuel, reg, Get(Name(side)), GetOrCreate(TeamModel), m, st);
  }

  lemma SameTeamRecord(fuel: nat, reg: Registry, t1: Value, t2: Value, st: Store, later: Store)
    requires TeamModel in reg && reg[TeamModel] == TeamMap() && st.Valid()
    requires IsTeamRecord(t1) && IsTeamRecord(t2)
    requires t2.entries["TeamId"] == t1.entries["TeamId"] && t2.entries["TeamName"] == t1.entries["TeamName"]
    requires ApplyGetOrCreate(fuel, reg, TeamModel, t1, st).result.Ok?
    requires Extends(ApplyGetOrCreate(fuel, reg, TeamModel, t1, st).store, later)
    ensures ApplyGetOrCreate(fuel, reg, TeamModel, t2, later) ==
      Step(ApplyGetOrCreate(fuel, reg, TeamModel, t1, st).result, later)
  {
    TeamKwargs(fuel, reg, t1, st);
    TeamKwargs(fuel, reg, t2, later);
    GetOrCreateSameKey(fuel, reg, TeamModel, t1, t2, st, later);
  }

  /**
   * Two matches naming the same team (same id and same name, on whichever side)
   * resolve it to the same `Team` instance: the later resolution, in any session
   * grown from the one the earlier left, finds it and adds nothing.
   */
  lemma SameTeamSameInstance(fuel: nat, reg: Registry, m1: Value, side1: string,
                             m2: Value, side2: string, st: Store, later: Store)
    requires TeamModel in reg && reg[TeamModel] == TeamMap() && st.Valid()
    requires m1.VMap? && side1 in m1.entries && IsTeamRecord(m1.entries[side1])
    requires m2.VMap? && side2 in m2.entries && IsTeamRecord(m2.entries[side2])
    requires m2.entries[side2].entries["TeamId"] == m1.entries[side1].entries["TeamId"]
    requires m2.entries[side2].entries["TeamName"] == m1.entries[side1].entries["TeamName"]
    requires Apply(fuel, reg, TeamField(side1), m1, st).result.Ok?
    requires Extends(Apply(fuel, reg, TeamField(side1), m1, st).store, later)
    ensures var first := Apply(fuel, reg, TeamField(side1), m1, st);
      Apply(fuel, reg, TeamField(side2), m2, later) == Step(first.result, later)
  {
    var t1 := m1.entries[side1];
    var t2 := m2.entries[side2];
    var first := Apply(fuel, reg, TeamField(side1), m1, st);
    assert fuel > 0 && first == ApplyGetOrCreate(fuel - 1, reg, TeamModel, t1, st) by {
      TeamFieldMeaning(fuel, reg, side1, m1, st);
    }
    assert Apply(fuel, reg, TeamField(side2), m2, later) == ApplyGetOrCreate(fuel - 1, reg, TeamModel, t2, later) by {
      TeamFieldMeaning(fuel, reg, side2, m2, later);
    }
    SameTeamRecord(fuel - 1, reg, t1, t2, st, later);
  }

  /** A team record with a different name gets its own `Team` instance (the `id`
      primary key is not enforced by the model). */
  lemma OtherTeamRecord(fuel: nat, reg: Registry, t1: Value, t2: Value, st: Store, later: Store)
    requires TeamModel in reg && reg[TeamModel] == TeamMap()
    requires IsTeamRecord(t1) && IsTeamRecord(t2) && t2.entries["TeamName"] != t1.entries["TeamName"]
    requires ApplyGetOrCreate(fuel, reg, TeamModel, t1, st).result.Ok?
    requires Extends(ApplyGetOrCreate(fuel, reg, TeamModel, t1, st).store, later)
    ensures var second := ApplyGetOrCreate(fuel, reg, TeamModel, t2, later);
      second.result.Ok? && second.result.value != ApplyGetOrCreate(fuel, reg, TeamModel, t1, st).result.value
  {
    TeamKwargs(fuel, reg, t1, st);
    TeamKwargs(fuel, reg, t2, later);
    var first := ApplyGetOrCreate(fuel, reg, TeamModel, t1, st);
    var second := ApplyGetOrCreate(fuel, reg, TeamModel, t2, later);
    GetOrCreateAgrees(fuel, reg, TeamModel, t1, st);
    GetOrCreateAgrees(fuel, reg, TeamModel, t2, later);
    var i := first.result.value.id;
    ExtendsAt(first.store, later, i);
    ExtendsAt(later, second.store, i);
    assert second.store.heap[i].fields["name"] == t1.entries["TeamName"];
  }

  /** A team entry with a different name resolves to a different `Team` instance. The
      model does not enforce the `id` primary key: with an equal id, the database would
      reject the commit of that second instance. */
  lemma OtherNameOtherInstance(fuel: nat, reg: Registry, m1: Value, side1: string,
                               m2: Value, side2: string, st: Store, later: Store)
    requires TeamModel in reg && reg[TeamModel] == TeamMap()
    requires m1.VMap? && side1 in m1.entries && IsTeamRecord(m1.entries[side1])
    requires m2.VMap? && side2 in m2.entries && IsTeamRecord(m2.entries[side2])
    requires m2.entries[side2].entries["TeamName"] != m1.entries[side1].entries["TeamName"]
    requires Apply(fuel, reg, TeamField(side1), m1, st).result.Ok?
    requires Extends(Apply(fuel, reg, TeamField(side1), m1, st).store, later)
    ensures var first := Apply(fuel, reg, TeamField(side1), m1, st);
      var second := Apply(fuel, reg, TeamField(side2), m2, later);
      second.result.Ok? && second.result.value != first.result.value
  {
    var t1 := m1.entries[side1];
    var t2 := m2.entries[side2];
    var first := Apply(fuel, reg, TeamField(side1), m1, st);
    assert fuel > 0 && first == ApplyGetOrCreate(fuel - 1, reg, TeamModel, t1, st) by {
      TeamFieldMeaning(fuel, reg, side1, m1, st);
    }
    assert Apply(fuel, reg, TeamField(side2), m2, later) == ApplyGetOrCreate(fuel - 1, reg, TeamModel, t2, later) by {
      TeamFieldMeaning(fuel, reg, side2, m2, later);
    }
    OtherTeamRecord(fuel - 1, reg, t1, t2, st, later);
  }

  // ---------------------------------------------------------------------------------
  // clean_download_list

  /** `[year for year in years if (year in existing) == stored]`. */
  function SelectYears(years: seq<int>, existing: seq<int>, stored: bool): (r: seq<int>)
    ensures IsSubsequence(r, years)
    ensures forall y :: y in r <==> y in years && ((y in existing) == stored)
    decreases |years|
  {
    if years == [] then []
    else
      var rest := SelectYears(years[1..], existing, stored);
      if (years[0] in existing) == stored then
        [years[0]] + rest
      else
        SubsequenceSkip(rest, years);
        rest
  }

  /** The stored and the unstored years together are exactly the requested ones. */
  lemma {:induction false} SelectYearsSplit(years: seq<int>, existing: seq<int>)
    ensures multiset(SelectYears(years, existing, false)) + multiset(SelectYears(years, existing, true)) == multiset(years)
    decreases |years|
  {
    if years != [] {
      var y, rest := years[0], years[1..];
      SelectYearsSplit(rest, existing);
      assert SelectYears(years, existing, false) ==
        (if y !in existing then [y] else []) + SelectYears(rest, existing, false);
      assert SelectYears(years, existing, true) ==
        (if y in existing then [y] else []) + SelectYears(rest, existing, true);
      assert years == [y] + rest;
    }
  }

  /** `clean_download_list(session, years)`, the stored season years given as
      `existing`: `(years_to_download, skipped_years)`. */
  function CleanDownloadList(existing: seq<int>, years: seq<int>): (r: (seq<int>, seq<int>))
    ensures forall y :: y in r.0 ==> y !in existing
    ensures forall y :: y in r.1 ==> y in existing
  {
    (SelectYears(years, existing, false), SelectYears(years, existing, true))
  }

  /** Every requested year lands in exactly one of the two lists, in input order, so
      the lengths add up and nothing is lost or duplicated. */
  lemma CleanDownloadListPartitions(existing: seq<int>, years: seq<int>)
    ensures var (download, skipped) := CleanDownloadList(existing, years);
      && IsSubsequence(download, years) && IsSubsequence(skipped, years)
      && multiset(download) + multiset(skipped) == multiset(years)
      && |download| + |skipped| == |years|
      && forall y :: y in years ==> (y in download <==> y !in existing) && (y in skipped <==> y in existing)
  {
    var (download, skipped) := CleanDownloadList(existing, years);
    SelectYearsSplit(years, existing);
    assert |multiset(download)| + |multiset(skipped)| == |multiset(years)|;
  }
}
