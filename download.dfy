/**
 * The body of `download_matches`: for each downloaded document, one new `Season`,
 * then one `Match` per record, each linked to that season through its group and
 * through the season lists of its two teams. A team's list gains a season only when
 * it does not hold it yet.
 */
module Download {
  import opened Values
  import opened Transformations
  import opened Semantics
  import opened Engine
  import opened LivePipeline

  /** The `seasons` relationship, which only a `Team` has: empty until something is
      appended, a list once it is; any other class, or any other value, has no
      `seasons` list to append to. */
  function SeasonsOf(e: Entity): Option<seq<Value>> {
    if e.kind != TeamModel then None
    else if "seasons" !in e.fields then Some([])
    else if e.fields["seasons"].VList? then Some(e.fields["seasons"].items)
    else None
  }

  predicate NoDup(xs: seq<Value>) {
    forall a, b :: 0 <= a < b < |xs| ==> xs[a] != xs[b]
  }

  /** `if season not in team.seasons: team.seasons.append(season)`. */
  function AppendSeason(e: Entity, season: nat): (r: Entity)
    requires SeasonsOf(e).Some?
    ensures r.kind == e.kind && SeasonsOf(r).Some?
    ensures VRef(season) in SeasonsOf(r).value
    ensures SeasonsOf(r).value == if VRef(season) in SeasonsOf(e).value then SeasonsOf(e).value
                                  else SeasonsOf(e).value + [VRef(season)]
    ensures NoDup(SeasonsOf(e).value) ==> NoDup(SeasonsOf(r).value)
    ensures forall k :: k in e.fields && k != "seasons" ==> k in r.fields && r.fields[k] == e.fields[k]
  {
    var before := SeasonsOf(e).value;
    if VRef(season) in before then e
    else e.(fields := e.fields["seasons" := VList(before + [VRef(season)])])
  }

  /** What linking never undoes: every instance keeps its class, every attribute other
      than `season` and `seasons`, and every season it was linked to. */
  ghost predicate Persists(h: seq<Entity>, h': seq<Entity>) {
    |h| <= |h'| && forall i :: 0 <= i < |h| ==> EntityPersists(h[i], h'[i])
  }

  ghost predicate EntityPersists(e: Entity, e': Entity) {
    && e'.kind == e.kind
    && (forall k :: k in e.fields && k != "season" && k != "seasons" ==> k in e'.fields && e'.fields[k] == e.fields[k])
    && (SeasonsOf(e).Some? ==> SeasonsOf(e').Some? && SeasonsOf(e).value <= SeasonsOf(e').value)
  }

  /** Every instance whose `season` is `season` still has it. */
  ghost predicate KeepsSeason(h: seq<Entity>, h': seq<Entity>, season: nat) {
    |h| <= |h'| && forall i :: 0 <= i < |h| ==> (HasSeason(h[i], season) ==> HasSeason(h'[i], season))
  }

  /** The instance's `season` attribute is `season`. */
  predicate HasSeason(e: Entity, season: nat) {
    "season" in e.fields && e.fields["season"] == VRef(season)
  }

  /** No instance lists a season twice. */
  ghost predicate SeasonsNoDup(h: seq<Entity>) {
    forall i :: 0 <= i < |h| ==> EntityNoDup(h[i])
  }

  ghost predicate EntityNoDup(e: Entity) {
    SeasonsOf(e).Some? ==> NoDup(SeasonsOf(e).value)
  }

  /** The team in attribute `side` of match `m` is linked to `season`. */
  ghost predicate TeamLinked(h: seq<Entity>, m: nat, side: string, season: nat) {
    && m < |h| && side in h[m].fields
    && (var t := h[m].fields[side];
        t.VRef? && t.id < |h| && SeasonsOf(h[t.id]).Some? && VRef(season) in SeasonsOf(h[t.id]).value)
  }

  /** Match `m` is linked to `season`: through its group and through both teams. */
  ghost predicate MatchLinked(h: seq<Entity>, m: nat, season: nat) {
    && m < |h| && "group" in h[m].fields
    && (var g := h[m].fields["group"];
        g.VRef? && g.id < |h| && HasSeason(h[g.id], season))
    && TeamLinked(h, m, "host", season)
    && TeamLinked(h, m, "guest", season)
  }

  lemma PersistsTrans(a: seq<Entity>, b: seq<Entity>, c: seq<Entity>)
    requires Persists(a, b) && Persists(b, c)
    ensures Persists(a, c)
  {
  }

  lemma KeepsSeasonTrans(a: seq<Entity>, b: seq<Entity>, c: seq<Entity>, season: nat)
    requires KeepsSeason(a, b, season) && KeepsSeason(b, c, season)
    ensures KeepsSeason(a, c, season)
  {
  }

  lemma TeamLinkedPersists(h: seq<Entity>, h': seq<Entity>, m: nat, side: string, season: nat)
    requires TeamLinked(h, m, side, season) && Persists(h, h') && side != "season" && side != "seasons"
    ensures TeamLinked(h', m, side, season)
  {
    var t := h[m].fields[side];
    assert SeasonsOf(h[t.id]).value <= SeasonsOf(h'[t.id]).value;
  }

  lemma MatchLinkedPersists(h: seq<Entity>, h': seq<Entity>, m: nat, season: nat)
    requires MatchLinked(h, m, season) && Persists(h, h') && KeepsSeason(h, h', season)
    ensures MatchLinked(h', m, season)
  {
    TeamLinkedPersists(h, h', m, "host", season);
    TeamLinkedPersists(h, h', m, "guest", season);
  }

  /** Instances the pipeline constructs have no `seasons` yet, and constructing leaves
      the others alone. */
  lemma GrownPersists(reg: Registry, st: Store, st': Store, season: nat)
    requires Grown(reg, st, st')
    requires forall m :: m in reg ==> "seasons" !in FieldNames(reg[m])
    ensures Persists(st.heap, st'.heap) && KeepsSeason(st.heap, st'.heap, season)
    ensures SeasonsNoDup(st.heap) ==> SeasonsNoDup(st'.heap)
  {
    forall i | 0 <= i < |st.heap|
      ensures st'.heap[i] == st.heap[i]
    {
      ExtendsAt(st, st', i);
    }
    forall i | |st.heap| <= i < |st'.heap|
      ensures SeasonsOf(st'.heap[i]) == None || SeasonsOf(st'.heap[i]) == Some([])
    {
      assert FromRegistry(reg, st'.heap[i]);
    }
  }

  /** `instance.season = season` on instance `g`. */
  function SetSeason(h: seq<Entity>, g: nat, season: nat): (h': seq<Entity>)
    requires g < |h|
    ensures |h'| == |h| && HasSeason(h'[g], season)
  {
    h[g := h[g].(fields := h[g].fields["season" := VRef(season)])]
  }

  lemma SetSeasonPersists(h: seq<Entity>, g: nat, season: nat)
    requires g < |h|
    ensures Persists(h, SetSeason(h, g, season)) && KeepsSeason(h, SetSeason(h, g, season), season)
    ensures SeasonsNoDup(h) ==> SeasonsNoDup(SetSeason(h, g, season))
  {
    assert SeasonsOf(SetSeason(h, g, season)[g]) == SeasonsOf(h[g]);
  }

  lemma AppendSeasonPersists(h: seq<Entity>, i: nat, season: nat)
    requires i < |h| && SeasonsOf(h[i]).Some?
    ensures Persists(h, h[i := AppendSeason(h[i], season)])
    ensures KeepsSeason(h, h[i := AppendSeason(h[i], season)], season)
    ensures SeasonsNoDup(h) ==> SeasonsNoDup(h[i := AppendSeason(h[i], season)])
  {
  }

  /** Links the team in attribute `side` of match `m` to `season`. */
  method LinkTeam(session: Session, m: nat, side: string, season: nat) returns (r: Result<()>)
    requires m < |session.heap| && side != "season" && side != "seasons"
    modifies session
    ensures r.Ok? ==> TeamLinked(session.heap, m, side, season)
    ensures r.Err? ==> r.error == AttributeError
    ensures Persists(old(session.heap), session.heap) && KeepsSeason(old(session.heap), session.heap, season)
    ensures |session.heap| == |old(session.heap)|
    ensures SeasonsNoDup(old(session.heap)) ==> SeasonsNoDup(session.heap)
    ensures session.added == old(session.added) && session.committed == old(session.committed)
  {
    var h := session.heap;
    var team := Attribute(h, VRef(m), side);
    if team.Err? {
      return Err(team.error);
    }
    if !(team.value.VRef? && team.value.id < |h|) || SeasonsOf(h[team.value.id]).None? {
      return Err(AttributeError);
    }
    var i := team.value.id;
    var before := SeasonsOf(h[i]).value;
    if VRef(season) !in before {
      session.SetField(i, "seasons", VList(before + [VRef(season)]));
    }
    assert session.heap == h[i := AppendSeason(h[i], season)];
    AppendSeasonPersists(h, i, season);
    r := Ok(());
  }

  /** `match.group.season = season`, then the season lists of host and guest. */
  method LinkMatch(session: Session, m: nat, season: nat) returns (r: Result<()>)
    requires m < |session.heap|
    modifies session
    ensures r.Ok? ==> MatchLinked(session.heap, m, season)
    ensures Persists(old(session.heap), session.heap) && KeepsSeason(old(session.heap), session.heap, season)
    ensures |session.heap| == |old(session.heap)|
    ensures SeasonsNoDup(old(session.heap)) ==> SeasonsNoDup(session.heap)
    ensures session.added == old(session.added) && session.committed == old(session.committed)
  {
    var h0 := session.heap;
    var group := Attribute(h0, VRef(m), "group");
    if group.Err? {
      return Err(group.error);
    }
    if !(group.value.VRef? && group.value.id < |h0|) {
      return Err(AttributeError);
    }
    var g := group.value.id;
    session.SetField(g, "season", VRef(season));
    var h1 := session.heap;
    assert h1 == SetSeason(h0, g, season);
    SetSeasonPersists(h0, g, season);
    var host := LinkTeam(session, m, "host", season);
    var h2 := session.heap;
    PersistsTrans(h0, h1, h2);
    KeepsSeasonTrans(h0, h1, h2, season);
    if host.Err? {
      return host;
    }
    var guest := LinkTeam(session, m, "guest", season);
    PersistsTrans(h0, h2, session.heap);
    KeepsSeasonTrans(h0, h2, session.heap, season);
    if guest.Err? {
      return guest;
    }
    TeamLinkedPersists(h2, session.heap, m, "host", season);
    assert h0[m].fields["group"] == h1[m].fields["group"] == h2[m].fields["group"] == session.heap[m].fields["group"];
    r := Ok(());
  }

  /** Instance `s` is a `Season` whose `year` is `year`. */
  ghost predicate SeasonOfYear(h: seq<Entity>, s: nat, year: int) {
    s < |h| && h[s].kind == SeasonModel && "year" in h[s].fields && h[s].fields["year"] == VInt(year)
  }

  lemma SeasonOfYearPersists(h: seq<Entity>, h': seq<Entity>, s: nat, year: int)
    requires SeasonOfYear(h, s, year) && Persists(h, h')
    ensures SeasonOfYear(h', s, year)
  {
    assert EntityPersists(h[s], h'[s]);
  }

  /** `matches` are matches created after `season`, in increasing order, each linked to it. */
  ghost predicate SeasonMatches(h: seq<Entity>, season: nat, matches: seq<nat>) {
    && (forall j :: 0 <= j < |matches| ==>
          season < matches[j] < |h| && h[matches[j]].kind == MatchModel && MatchLinked(h, matches[j], season))
    && (forall a, b :: 0 <= a < b < |matches| ==> matches[a] < matches[b])
  }

  lemma SeasonMatchesGrow(h: seq<Entity>, h': seq<Entity>, season: nat, matches: seq<nat>, m: nat)
    requires SeasonMatches(h, season, matches) && season < |h|
    requires Persists(h, h') && KeepsSeason(h, h', season)
    requires |h| <= m < |h'| && h'[m].kind == MatchModel && MatchLinked(h', m, season)
    ensures SeasonMatches(h', season, matches + [m])
  {
    forall j | 0 <= j < |matches|
      ensures MatchLinked(h', matches[j], season)
    {
      MatchLinkedPersists(h, h', matches[j], season);
    }
  }

  /** Match `m` is `create(Match, row)` run in an earlier session: it keeps every
      attribute the generated keyword arguments gave it, except the season links. */
  ghost predicate MatchOfRow(reg: Registry, fuel: nat, h: seq<Entity>, m: nat, row: Value) {
    m < |h| &&
    exists s: Store :: |s.heap| <= m && Persists(s.heap, h) && Kwargs(fuel, reg, MatchModel, row, s).result.Ok? &&
      EntityPersists(Entity(MatchModel, Kwargs(fuel, reg, MatchModel, row, s).result.value), h[m])
  }

  lemma MatchOfRowPersists(reg: Registry, fuel: nat, h: seq<Entity>, h': seq<Entity>, m: nat, row: Value)
    requires MatchOfRow(reg, fuel, h, m, row) && Persists(h, h')
    ensures MatchOfRow(reg, fuel, h', m, row)
  {
    var s: Store :| |s.heap| <= m && Persists(s.heap, h) && Kwargs(fuel, reg, MatchModel, row, s).result.Ok? &&
      EntityPersists(Entity(MatchModel, Kwargs(fuel, reg, MatchModel, row, s).result.value), h[m]);
    PersistsTrans(s.heap, h, h');
    assert EntityPersists(h[m], h'[m]);
  }

  /** Match `matches[j]` was built from `rows[j]`, for every `j`. */
  ghost predicate RowsMatched(reg: Registry, fuel: nat, h: seq<Entity>, matches: seq<nat>, rows: seq<Value>) {
    |matches| <= |rows| && forall j :: 0 <= j < |matches| ==> MatchOfRow(reg, fuel, h, matches[j], rows[j])
  }

  lemma RowsMatchedPersists(reg: Registry, fuel: nat, h: seq<Entity>, h': seq<Entity>, matches: seq<nat>, rows: seq<Value>)
    requires RowsMatched(reg, fuel, h, matches, rows) && Persists(h, h')
    ensures RowsMatched(reg, fuel, h', matches, rows)
  {
    forall j | 0 <= j < |matches|
      ensures MatchOfRow(reg, fuel, h', matches[j], rows[j])
    {
      MatchOfRowPersists(reg, fuel, h, h', matches[j], rows[j]);
    }
  }

  lemma RowsMatchedSnoc(reg: Registry, fuel: nat, h: seq<Entity>, h': seq<Entity>, matches: seq<nat>, rows: seq<Value>, m: nat)
    requires RowsMatched(reg, fuel, h, matches, rows) && Persists(h, h') && |matches| < |rows|
    requires MatchOfRow(reg, fuel, h', m, rows[|matches|])
    ensures RowsMatched(reg, fuel, h', matches + [m], rows)
  {
    RowsMatchedPersists(reg, fuel, h, h', matches, rows);
  }

  /** One iteration of the loop: `create` the next match, then link it. */
  method ProduceMatch(pipeline: Pipeline, fuel: nat, session: Session, row: Value, season: nat)
    returns (r: Result<nat>)
    requires forall m :: m in pipeline.transformations ==> "seasons" !in FieldNames(pipeline.transformations[m])
    modifies session
    ensures r.Ok? ==> (|old(session.heap)| <= r.value < |session.heap| &&
      session.heap[r.value].kind == MatchModel && MatchLinked(session.heap, r.value, season))
    ensures r.Ok? ==>
      var k := Kwargs(fuel, pipeline.transformations, MatchModel, row, old(session.State()));
      k.result.Ok? && EntityPersists(Entity(MatchModel, k.result.value), session.heap[r.value])
    ensures r.Ok? ==> MatchOfRow(pipeline.transformations, fuel, session.heap, r.value, row)
    ensures Persists(old(session.heap), session.heap) && KeepsSeason(old(session.heap), session.heap, season)
    ensures SeasonsNoDup(old(session.heap)) ==> SeasonsNoDup(session.heap)
  {
    var before := session.State();
    var one := pipeline.Create(fuel, MatchModel, row, session);
    GrownPersists(pipeline.transformations, before, session.State(), season);
    if one.Err? {
      return Err(one.error);
    }
    var h1 := session.heap;
    var linked := LinkMatch(session, one.value, season);
    assert EntityPersists(h1[one.value], session.heap[one.value]);
    PersistsTrans(before.heap, h1, session.heap);
    KeepsSeasonTrans(before.heap, h1, session.heap, season);
    if linked.Err? {
      return Err(linked.error);
    }
    r := Ok(one.value);
    assert MatchOfRow(pipeline.transformations, fuel, session.heap, r.value, row) by {
      assert |before.heap| <= r.value && Persists(before.heap, session.heap);
    }
  }

  /**
   * One downloaded document `(year, data)`: a new `Season(year=year)`, then
   * `create_multiple(Match, data, session)` consumed in full, linking each match as it
   * is produced. Returns the season and the matches, one per record and in record order.
   */
  method DownloadDocument(pipeline: Pipeline, fuel: nat, session: Session, year: int, data: Value)
    returns (season: nat, r: Result<seq<nat>>)
    requires forall m :: m in pipeline.transformations ==> "seasons" !in FieldNames(pipeline.transformations[m])
    modifies session
    ensures season == |old(session.heap)| && SeasonOfYear(session.heap, season, year)
    ensures !data.VList? ==> r == Err(TypeError)
    ensures r.Ok? ==> data.VList? && |r.value| == |data.items|
    ensures r.Ok? ==> SeasonMatches(session.heap, season, r.value)
    ensures r.Ok? ==> RowsMatched(pipeline.transformations, fuel, session.heap, r.value, data.items)
    ensures Persists(old(session.heap), session.heap)
    ensures SeasonsNoDup(old(session.heap)) ==> SeasonsNoDup(session.heap)
  {
    var h0 := session.heap;
    season := session.Construct(SeasonModel, map["year" := VInt(year)]);
    assert Persists(h0, session.heap);
    assert SeasonOfYear(session.heap, season, year);
    if !data.VList? {
      return season, Err(TypeError);
    }
    var rows := data.items;
    var matches: seq<nat> := [];
    var k := 0;
    while k < |rows|
      invariant 0 <= k <= |rows| && |matches| == k
      invariant SeasonOfYear(session.heap, season, year)
      invariant Persists(h0, session.heap)
      invariant SeasonsNoDup(h0) ==> SeasonsNoDup(session.heap)
      invariant SeasonMatches(session.heap, season, matches)
      invariant RowsMatched(pipeline.transformations, fuel, session.heap, matches, rows)
    {
      var h := session.heap;
      var one := ProduceMatch(pipeline, fuel, session, rows[k], season);
      PersistsTrans(h0, h, session.heap);
      SeasonOfYearPersists(h, session.heap, season, year);
      if one.Err? {
        return season, Err(one.error);
      }
      RowsMatchedSnoc(pipeline.transformations, fuel, h, session.heap, matches, rows, one.value);
      SeasonMatchesGrow(h, session.heap, season, matches, one.value);
      matches := matches + [one.value];
      k := k + 1;
    }
    r := Ok(matches);
  }

  /** Document `doc` is done: its season is a `Season` of the document's year, and its
      matches are one per record, in record order, each built from its record and
      linked through host and guest to that season. */
  ghost predicate DocDone(reg: Registry, fuel: nat, h: seq<Entity>, doc: (int, Value), season: nat, matches: seq<nat>) {
    && doc.1.VList? && |matches| == |doc.1.items|
    && SeasonOfYear(h, season, doc.0)
    && (forall j :: 0 <= j < |matches| ==>
          matches[j] < |h| && h[matches[j]].kind == MatchModel &&
          TeamLinked(h, matches[j], "host", season) && TeamLinked(h, matches[j], "guest", season))
    && RowsMatched(reg, fuel, h, matches, doc.1.items)
  }

  lemma DocDonePersists(reg: Registry, fuel: nat, h: seq<Entity>, h': seq<Entity>, doc: (int, Value), season: nat, matches: seq<nat>)
    requires DocDone(reg, fuel, h, doc, season, matches) && Persists(h, h')
    ensures DocDone(reg, fuel, h', doc, season, matches)
  {
    SeasonOfYearPersists(h, h', season, doc.0);
    forall j | 0 <= j < |matches|
      ensures TeamLinked(h', matches[j], "host", season) && TeamLinked(h', matches[j], "guest", season)
    {
      TeamLinkedPersists(h, h', matches[j], "host", season);
      TeamLinkedPersists(h, h', matches[j], "guest", season);
    }
    RowsMatchedPersists(reg, fuel, h, h', matches, doc.1.items);
  }

  /**
   * `download_matches` over the documents in the order they arrive: per document its
   * season and its matches. Every document is done, and stays done as later documents
   * are processed; no team comes to list a season twice.
   */
  method DownloadMatches(pipeline: Pipeline, fuel: nat, session: Session, docs: seq<(int, Value)>)
    returns (seasons: seq<nat>, r: Result<seq<seq<nat>>>)
    requires forall m :: m in pipeline.transformations ==> "seasons" !in FieldNames(pipeline.transformations[m])
    modifies session
    ensures SeasonsNoDup(old(session.heap)) ==> SeasonsNoDup(session.heap)
    ensures r.Ok? ==> |seasons| == |r.value| == |docs|
    ensures r.Ok? ==> forall d :: 0 <= d < |docs| ==>
      DocDone(pipeline.transformations, fuel, session.heap, docs[d], seasons[d], r.value[d])
  {
    var perDoc: seq<seq<nat>> := [];
    seasons := [];
    var i := 0;
    while i < |docs|
      invariant 0 <= i <= |docs| && |perDoc| == i && |seasons| == i
      invariant SeasonsNoDup(old(session.heap)) ==> SeasonsNoDup(session.heap)
      invariant forall d :: 0 <= d < i ==>
        DocDone(pipeline.transformations, fuel, session.heap, docs[d], seasons[d], perDoc[d])
    {
      var h := session.heap;
      var season, matches := DownloadDocument(pipeline, fuel, session, docs[i].0, docs[i].1);
      seasons := seasons + [season];
      if matches.Err? {
        return seasons, Err(matches.error);
      }
      forall d | 0 <= d < i
        ensures DocDone(pipeline.transformations, fuel, session.heap, docs[d], seasons[d], perDoc[d])
      {
        DocDonePersists(pipeline.transformations, fuel, h, session.heap, docs[d], seasons[d], perDoc[d]);
      }
      assert DocDone(pipeline.transformations, fuel, session.heap, docs[i], season, matches.value);
      perDoc := perDoc + [matches.value];
      i := i + 1;
    }
    r := Ok(perDoc);
  }
}
