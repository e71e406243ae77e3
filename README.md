# dfb_predict acquisition and selection core, in Dafny

This project models the data-acquisition core of dfb_predict, a tool that downloads
German football league results and stores them for prediction. It covers four parts.

- **Transformation engine** (`src/acquisition/`). Small combinators (`Get`, `Custom`,
  `Attr`, `Filter`, `Gather`, `GetOrCreate`, `Create`, `CreateMultiple`) carry
  arguments bound when they are built. `|` joins them into a flat `_CONCAT` chain. A
  `Pipeline` holds one field-to-chain map per model class. It turns a decoded JSON
  record into keyword arguments, and then into a model instance in a database session.
  The concrete Team/Group/Match map and the season linking of `download_matches` are
  modelled on top of it.
- **Range selection** (`src/db/selectors.py`). A `RangePoint` is a `"<year>[/<group>]"`
  edge. A `RangeSelector` is a validated pair of edges. The filters both build are
  modelled by their boolean meaning over a row's (season year, group order).
- **The earlier chain design** (`src/db/acqusition/core.py`). Each transformation
  links to its predecessor, and `|` overwrites the right operand's link.
- **The database handle** (`src/db/core.py`). There is one instance per class, and a
  session context that commits or rolls back, then closes.

Module layout:

| file | module | contents |
|---|---|---|
| values.dfy | Values | JSON-like values, Python exceptions, the session store (`query`, `add`, `commit`) |
| transformations.dfy | Transformations | the combinator datatype, and the meaning of the combinators that do not touch the session |
| semantics.dfy | Semantics | the evaluator: chains, `generate_kwargs`, `create`, get-or-create, all threading the store |
| chain_laws.dfy | ChainLaws | flattening and associativity of `\|`, read-only chains, re-evaluation and get-or-create laws |
| engine.dfy | Engine | the `Session`, `Pipeline` and transformation-object classes, each method proved equal to its function in `Semantics` |
| live_pipeline.dfy | LivePipeline | the Team/Group/Match map, the points and team fields, `clean_download_list` |
| download.dfy | Download | the season-linking loop of `download_matches` |
| selectors.dfy | Selectors | `RangePoint` and `RangeSelector` |
| legacy.dfy | LegacyAcquisition | the predecessor-link design, with its two broken operations as written |
| db_core.dfy | DbCore | the per-class instance registry and the `get_session` protocol |

Effects are modelled as follows.

- The session is a `Store`. It is a heap of every instance constructed, the list of
  instances handed to `session.add` in order, and how many of those are committed.
  An entity reference is an index into the heap.
- Evaluation returns the result together with the store it leaves. A failure
  therefore keeps whatever was committed before it, as in Python.
- Chains reach `generate_kwargs` again through `GetOrCreate`. Evaluation therefore
  carries a `fuel` bound, and running out of it stands for Python's recursion limit.

## Model

| member | source | states |
|---|---|---|
| Values.FirstPos | src/acquisition/transformations.py:93 | the position found holds a matching instance and no earlier position does; `None` only when no position matches |
| Values.Query | src/acquisition/transformations.py:93 | `query(model).filter_by(**kwargs).first()`: the instance returned is in the session and matches; `None` only when no added instance matches |
| Values.Refs | src/acquisition/transformations.py:121-126 | the returned list refers to exactly the given instances, in order |
| Values.ExtendsRefl | src/acquisition/transformations.py:92-98 | a session extends itself (a get-or-create that finds leaves it as it was) |
| Values.ExtendsTrans | src/acquisition/transformations.py:92-97 | growing the session by construction and `add` is transitive |
| Values.ExtendsAt | src/acquisition/transformations.py:92-97 | an instance constructed earlier is unchanged in every later session |
| Values.ConstructAddCommitExtend | src/acquisition/transformations.py:95-97 | constructing, adding and committing only extends the session and keeps it well formed |
| Values.AddAllExtends | src/acquisition/transformations.py:124 | `add_all` leaves the heap alone, only extends the added list, and every given instance ends up added |
| Values.AddCommitExtends | src/acquisition/transformations.py:109-110 | `add` then `commit` of a known instance extends the session and adds it |
| Transformations.Subscript | src/acquisition/transformations.py:35-42 | `data[key]`: a present dictionary key gives its value and an absent one `KeyError`; a list index in `-len..len-1` gives that element (negative from the end) and any other `IndexError`; a non-container gives `TypeError` |
| Transformations.Attribute | src/acquisition/transformations.py:55-62 | `getattr` succeeds exactly on an instance holding the attribute, returns that attribute, and raises `AttributeError` otherwise |
| Transformations.Keep | src/acquisition/transformations.py:65-72 | `Filter`: succeeds iff the predicate does on every row; the result is an order-preserving subsequence, no longer than the input, of exactly the accepted rows |
| Transformations.SubsequenceSkip | src/acquisition/transformations.py:65-72 | for any element type, a subsequence of the tail is a subsequence of the whole (used by `Filter` and by the comprehensions of `clean_download_list`) |
| Transformations.GatherFrom | src/acquisition/transformations.py:75-82 | `Gather`: keys are exactly the names, each bound to `data[name]`; a missing name is `KeyError`, a non-dictionary `TypeError`, and no names give `{}` for any data |
| Semantics.FieldNames | src/acquisition/core.py:52-55 | the names are exactly the keys of the field map |
| Semantics.Lookup | src/acquisition/core.py:67 | `transformations[key]`: `None` exactly when the key is not a field, else that field's chain |
| Semantics.GrownTrans | src/acquisition/core.py:39-41 | growing the session only with instances built from the registry is transitive |
| Semantics.BuildGrown | src/acquisition/core.py:39-41 | an instance built from a model's kwargs has exactly that model's field names |
| Semantics.Apply | src/acquisition/core.py:94-95 | calling a transformation only grows the session with registry-built instances; `Get`, `Custom`, `Filter`, `Gather` and `Attr` leave the session unchanged |
| Semantics.ApplyChain | src/acquisition/core.py:137-147 | a `_CONCAT` run only grows the session and keeps it well formed |
| Semantics.FieldsAcc | src/acquisition/core.py:52-55 | the comprehension's keys are the accumulated keys plus the field names |
| Semantics.Kwargs | src/acquisition/core.py:43-55 | `generate_kwargs`: an unregistered model raises `KeyError` with the session untouched; on success the keys are exactly the model's field names |
| Semantics.Kwarg | src/acquisition/core.py:57-67 | `generate_kwarg`: an unregistered model or unknown field raises `KeyError` with the session untouched |
| Semantics.CreateOne | src/acquisition/core.py:31-41 | `create`: the new instance is the last one constructed, of the given model, equal to `model(**generate_kwargs(model, data))` with exactly its field names, and not added |
| Semantics.CreateEach | src/acquisition/core.py:77-80 | one new instance per row, in row order, each of the model and newer than the session; what each instance holds is stated by `CreateEachBuilds` |
| Semantics.CreateEachBuilds | src/acquisition/core.py:77-80 | the instance created at position k is `model(**generate_kwargs(model, rows[k]))`, for the kwargs generated in a session grown from the one the loop started in; so instance k belongs to row k, in row order |
| Semantics.CreatedKeepKind | src/acquisition/core.py:77-80 | instances created earlier keep their model as more rows are created |
| Semantics.ApplyGetOrCreate | src/acquisition/transformations.py:85-98 | the instance returned is in the session and of the model |
| Semantics.ApplyCreate | src/acquisition/transformations.py:101-111 | `Create`: returns a new instance of the model built from the generated kwargs, added, with everything added committed |
| Semantics.ApplyCreateMultiple | src/acquisition/transformations.py:114-126 | `CreateMultiple`: one new instance of the model per row, all added, ids strictly increasing in row order, then everything committed; the list returned is the references to the instances `create_multiple` produced, in its order, and the heap is the one it left |
| Semantics.ApplyCreateMultipleBuilds | src/acquisition/transformations.py:114-126 | the k-th instance `CreateMultiple` returns is `create` on `rows[k]`: in input order |
| Semantics.CreateRows | src/acquisition/core.py:69-80 | `create_multiple`: a non-list is `TypeError`; otherwise one new instance of the model per row, in increasing order, the k-th equal to `create` on row k |
| ChainLaws.ChainAppend | src/acquisition/core.py:144-147 | running a concatenated step list is running the first part, then the second on its result |
| ChainLaws.ChainSingle | src/acquisition/core.py:144-147 | a one-step chain means its step |
| ChainLaws.PipeMeaning | src/acquisition/core.py:97-104 | `x \| y` runs `x`, then `y` on its result |
| ChainLaws.PipeAssociative | src/acquisition/core.py:97-104 | `(a\|b)\|c` and `a\|(b\|c)` evaluate alike, to `c(b(a(x)))` |
| ChainLaws.Flatten | src/acquisition/core.py:137-147 | a nested `_CONCAT` evaluates as its steps spliced in place |
| ChainLaws.ReadOnlyKeepsStore | src/acquisition/transformations.py:35-82 | chains of `Get`/`Custom`/`Attr`/`Filter`/`Gather` never change the session |
| ChainLaws.ReadOnlyChainKeepsStore | src/acquisition/core.py:144-147 | a `_CONCAT` of read-only steps never changes the session |
| ChainLaws.ReadOnlyFields | src/acquisition/core.py:52-55 | with read-only chains, each kwarg is that field's chain applied to the same data |
| ChainLaws.FieldsKeepAcc | src/acquisition/core.py:52-55 | later fields do not overwrite a key they do not name |
| ChainLaws.KwargIsEntryOfKwargs | src/acquisition/core.py:57-67 | `generate_kwarg(model, key, data)` is entry `key` of `generate_kwargs(model, data)` for read-only maps |
| ChainLaws.QueryStable | src/acquisition/transformations.py:93 | once the query finds an instance, a grown session gives the same answer |
| ChainLaws.QueryFindsNew | src/acquisition/transformations.py:94-97 | after get-or-create constructs, adds and commits, later queries find that instance |
| ChainLaws.ApplyAgain | src/acquisition/core.py:94-95 | without `Create`s, re-running a successful transformation in a grown session gives the same result and adds nothing |
| ChainLaws.ChainAgain | src/acquisition/core.py:144-147 | the same for chains |
| ChainLaws.FieldsAgain | src/acquisition/core.py:52-55 | the same for the kwargs comprehension |
| ChainLaws.KwargsAgain | src/acquisition/core.py:43-55 | the same for `generate_kwargs` |
| ChainLaws.GetOrCreateSameKey | src/acquisition/transformations.py:92-98 | two records with equal kwargs get the same instance, and the second adds nothing |
| ChainLaws.GetOrCreateAgain | src/acquisition/transformations.py:85-98 | re-running get-or-create in any grown session returns the same instance and adds nothing |
| ChainLaws.GetOrCreateTwice | src/acquisition/transformations.py:85-98 | two consecutive `GetOrCreate` calls on the same data return the same instance, and the second leaves the session unchanged |
| ChainLaws.GetOrCreateAgrees | src/acquisition/transformations.py:92-98 | the instance returned agrees with every generated kwarg |
| ChainLaws.GetOrCreateFinds | src/acquisition/transformations.py:93-98 | when a matching instance exists, the first one is returned and nothing is added |
| ChainLaws.GetOrCreateCreates | src/acquisition/transformations.py:94-97 | otherwise exactly one instance with the kwargs is constructed, added and committed |
| Engine.Session.constructor | src/acquisition/transformations.py:93-97 | a session object holding the given state |
| Engine.Session.Add | src/acquisition/transformations.py:96 | `session.add` |
| Engine.Session.AddAll | src/acquisition/transformations.py:124 | `session.add_all`, adding each instance in turn |
| Engine.Session.Commit | src/acquisition/transformations.py:97 | `session.commit` |
| Engine.Session.Construct | src/acquisition/core.py:39-41 | `model(**kwargs)`: a new instance known to the session |
| Engine.Session.SetField | src/acquisition/pipeline.py:97 | an attribute assignment changes that one attribute of that one instance |
| Engine.Pipeline.constructor | src/acquisition/core.py:19-20 | a missing registry starts empty |
| Engine.Pipeline.AddTransformation | src/acquisition/core.py:22-29 | sets the model's map and leaves every other model's map unchanged |
| Engine.Pipeline.Call | src/acquisition/core.py:94-95 | the result and the session left are exactly `Semantics.Apply`'s; the `_CONCAT` loop keeps that as its invariant |
| Engine.Pipeline.GenerateKwargs | src/acquisition/core.py:43-55 | exactly `Semantics.Kwargs` |
| Engine.Pipeline.GenerateKwarg | src/acquisition/core.py:57-67 | exactly `Semantics.Kwarg` |
| Engine.Pipeline.Create | src/acquisition/core.py:31-41 | exactly `Semantics.CreateOne` |
| Engine.Pipeline.CreateMultiple | src/acquisition/core.py:69-80 | exactly `Semantics.CreateRows` |
| Engine.Pipeline.CreateEachRow | src/acquisition/core.py:77-80 | the row loop equals `Semantics.CreateEach`, and the k-th instance it returns is `create` on `rows[k]` |
| Engine.Pipeline.GetOrCreateInstance | src/acquisition/transformations.py:85-98 | exactly `Semantics.ApplyGetOrCreate` |
| Engine.Pipeline.CreateInstance | src/acquisition/transformations.py:101-111 | exactly `Semantics.ApplyCreate` |
| Engine.Pipeline.CreateInstances | src/acquisition/transformations.py:114-126 | the loop over rows then `add_all` and `commit` equals `Semantics.ApplyCreateMultiple`; the k-th reference returned is to `create` on `rows[k]` |
| Engine.TransformationObject.Of | src/acquisition/core.py:88-92 | an object built from a combinator denotes it |
| Engine.TransformationObject.Or | src/acquisition/core.py:97-104 | a non-transformation raises `TypeError` with nothing changed; a `_CONCAT` appends to its own argument list and returns itself; any other gives a fresh two-step `_CONCAT`; either way the result denotes `left \| right` |
| Engine.ChainBothWays | src/acquisition/core.py:97-104 | objects built as `(a\|b)\|c` and `a\|(b\|c)` evaluate alike, to `c(b(a(x)))` |
| LivePipeline.Lower | src/acquisition/pipeline.py:37 | `.lower()` maps every character, keeping the length |
| LivePipeline.IsEndResult | src/acquisition/pipeline.py:37-38 | succeeds exactly on a record with a string `ResultName`, and is then whether its lowercase form contains `end` |
| LivePipeline.LiveRegistry | src/acquisition/pipeline.py:21-40 | the registry maps exactly Team, Group and Match, field names distinct, none named `seasons` |
| LivePipeline.KeepFirst | src/acquisition/pipeline.py:37-38 | the first kept row is the first accepted row; nothing accepted gives `[]` |
| LivePipeline.PointsOfFirstEndResult | src/acquisition/pipeline.py:37-38 | `host_points`/`guest_points` read the first result whose name contains `end`; with none the chain raises `IndexError`; the session is untouched |
| LivePipeline.TeamKwargs | src/acquisition/pipeline.py:22-25 | a team record's kwargs are `{id: TeamId, name: TeamName}` and reading them leaves the session alone |
| LivePipeline.TeamFieldMeaning | src/acquisition/pipeline.py:35-36 | `host`/`guest` are `GetOrCreate(Team)` on the record's team entry |
| LivePipeline.SameTeamRecord | src/acquisition/pipeline.py:22-25 | equal team id and name give the same Team instance |
| LivePipeline.SameTeamSameInstance | src/acquisition/pipeline.py:35-36 | two matches naming the same team, on any sides, resolve to the same instance, and the second adds nothing |
| LivePipeline.OtherTeamRecord | src/acquisition/pipeline.py:22-25 | a differing team name gives a different instance |
| LivePipeline.OtherNameOtherInstance | src/acquisition/pipeline.py:35-36 | two matches whose teams differ in name resolve to different instances |
| LivePipeline.SelectYears | src/acquisition/pipeline.py:52-53 | each comprehension keeps input order and keeps exactly the years whose membership in the stored years is as asked |
| LivePipeline.SelectYearsSplit | src/acquisition/pipeline.py:52-53 | the two comprehensions together hold every input year exactly as often as the input |
| LivePipeline.CleanDownloadList | src/acquisition/pipeline.py:43-55 | no year to download is stored, and every skipped year is |
| LivePipeline.CleanDownloadListPartitions | src/acquisition/pipeline.py:51-55 | both lists keep input order, partition the input (lengths sum to its length), and each year lands in the list its membership says |
| Download.AppendSeason | src/acquisition/pipeline.py:99-103 | after the conditional append the season is in the list; it was appended only if missing; no duplicate is introduced; other attributes stay |
| Download.PersistsTrans | src/acquisition/pipeline.py:92-105 | what linking never undoes composes |
| Download.KeepsSeasonTrans | src/acquisition/pipeline.py:97 | a group's season assignment survives later steps |
| Download.TeamLinkedPersists | src/acquisition/pipeline.py:99-103 | a team linked to a season stays linked |
| Download.MatchLinkedPersists | src/acquisition/pipeline.py:97-103 | a linked match stays linked through its group and both teams |
| Download.GrownPersists | src/acquisition/core.py:69-80 | growing the session through a registry whose maps set no `seasons` undoes no season link and introduces no duplicate |
| Download.SetSeason | src/acquisition/pipeline.py:97 | `group.season = season` sets that attribute |
| Download.SetSeasonPersists | src/acquisition/pipeline.py:97 | that assignment keeps every season list and every other attribute |
| Download.AppendSeasonPersists | src/acquisition/pipeline.py:99-103 | appending to one team's list keeps all other facts and the absence of duplicates |
| Download.LinkTeam | src/acquisition/pipeline.py:99-103 | afterwards the team holds the season; a non-instance, or an instance other than a `Team`, raises `AttributeError`; nothing is undone and no duplicate is introduced |
| Download.LinkMatch | src/acquisition/pipeline.py:97-103 | afterwards the match is linked through its group and both teams |
| Download.SeasonMatchesGrow | src/acquisition/pipeline.py:95-105 | linking one more match keeps every earlier match linked |
| Download.SeasonOfYearPersists | src/acquisition/pipeline.py:93-105 | the season created for a document keeps its class and its year through all later linking |
| Download.MatchOfRowPersists | src/acquisition/pipeline.py:95-103 | a match built from a record stays so after later linking |
| Download.ProduceMatch | src/acquisition/pipeline.py:95-103 | creates one new match, equal to `create(Match, row)` on the session it started from in every attribute but the season links, and links it |
| Download.DownloadDocument | src/acquisition/pipeline.py:93-105 | one new `Season` holding the document's year; a non-list document is `TypeError`; on success one new match per record, in record order, the k-th built by `create` from record k, each linked through its group and both teams to that season; nothing earlier is undone and no team lists a season twice |
| Download.DownloadMatches | src/acquisition/pipeline.py:84-105 | over documents in any arrival order, every document is done (`DocDone`): its season is a `Season` of that document's year, and its j-th match is built from its j-th record and linked through host and guest to that season; starting from a session where no team lists a season twice, none does afterwards |
| Download.RowsMatchedPersists | src/acquisition/pipeline.py:95-103 | matches built from their records stay so after later linking |
| Download.RowsMatchedSnoc | src/acquisition/pipeline.py:95-103 | one more match built from the next record extends the record-ordered list |
| Download.DocDonePersists | src/acquisition/pipeline.py:92-105 | a finished document stays finished while later documents are processed |
| Selectors.ParseInt | src/db/selectors.py:35-36 | `int()`: never succeeds on a string with `/` or on the empty string |
| Selectors.NatString | src/db/selectors.py:46 | `str(n)` is a non-empty digit string, one digit exactly below 10 |
| Selectors.IntString | src/db/selectors.py:46 | `str(i)` starts with a sign or digit and holds no `/` |
| Selectors.DigitsAppend | src/db/selectors.py:35-36 | appending a digit multiplies by ten and adds it |
| Selectors.NatStringValue | src/db/selectors.py:35-46 | the digits of `str(n)` denote `n` |
| Selectors.ParseIntString | src/db/selectors.py:35-46 | `int(str(i)) == i` for every integer |
| Selectors.ParseDigits | src/db/selectors.py:35-36 | `int()` of an unsigned digit run is the number the digits denote |
| Selectors.ParseNegated | src/db/selectors.py:35-36 | `int()` of `-` and a digit run is the negated number |
| Selectors.PointClassification | src/db/selectors.py:39-43 | `is_null` iff both parts are missing, `is_partial` iff exactly one is; never both; every point is null, partial or full |
| Selectors.Take | src/db/selectors.py:35 | `s[:n]` is a prefix, clamped to the string |
| Selectors.Drop | src/db/selectors.py:36 | `s[n:]` is the rest after `n`, empty when the string is shorter |
| Selectors.ParseFromString | src/db/selectors.py:24-37 | `None` gives the null point and nothing else does; a string without `/` is `int(s)` alone; a string with `/` is `int(s[:4])` with group `int(s[5:])`; failures are `ValueError` |
| Selectors.PointString | src/db/selectors.py:45-46 | the text starts with `N`, a sign or a digit, and holds `/` iff there is a group |
| Selectors.ParseYearOnly | src/db/selectors.py:35-46 | a year without group round-trips, whatever its sign or width |
| Selectors.ParseYearAndGroup | src/db/selectors.py:35-46 | a year of four characters with any group round-trips |
| Selectors.FourDigitYears | src/db/selectors.py:35 | years 1000 to 9999 print with four characters |
| Selectors.OnlyFourCharacterYearsWithGroup | src/db/selectors.py:35-36 | with a group, the year is always the first four characters: `99/3` and `12345/6` raise `ValueError` |
| Selectors.NullPointDoesNotRoundTrip | src/db/selectors.py:35-46 | the null point prints `None`, which does not parse |
| Selectors.BuildFilter | src/db/selectors.py:48-60 | a full point, unless groups are ignored, accepts `(y, g)` iff lexicographically ≥ it (`g`) or ≤ it (`l`); a point with a year otherwise bounds the year alone, inclusively; a point without a year accepts every row |
| Selectors.ValidPairMeaning | src/db/selectors.py:101-110 | between full points `is_valid` is exactly lexicographic ≤; a point makes a valid range with itself and with the null point |
| Selectors.RangeSelector.Init | src/db/selectors.py:73-75 | the object holds the given edges |
| Selectors.RangeSelector.New | src/db/selectors.py:73-77 | succeeds iff the pair is valid, missing edges becoming null points; otherwise `TypeError`; `RangeSelector()` is valid |
| Selectors.RangeSelector.ToString | src/db/selectors.py:79-91 | `all` exactly for the all-null selector; `until E` for an open start; `from S` for an open end; `from S until E` for two different edges; a one-point range prints the point |
| Selectors.RangeSelector.Equals | src/db/selectors.py:67-68 | only selectors are equal, every selector equals itself, and equal selectors print alike and are equally valid |
| Selectors.RangeSelector.Copy | src/db/selectors.py:112-114 | takes over both edges, and copying a valid selector gives a valid one |
| Selectors.RangeSelector.BuildFilters | src/db/selectors.py:116-121 | between full edges the rows selected are exactly those lexicographically between them; a null range selects every row; a valid full range selects its own start |
| LegacyAcquisition.GenerateKwargsAsWritten | src/db/acqusition/core.py:23-27 | as written it succeeds only on an empty registry, with no kwargs, and raises `TypeError` otherwise |
| LegacyAcquisition.LegacyGetOrCreate | src/db/acqusition/core.py:83-91 | raises `TypeError` on any non-empty registry; otherwise returns an added instance of the model |
| LegacyAcquisition.GetOrCreateIgnoresData | src/db/acqusition/core.py:83-91 | as written the result does not depend on the data |
| LegacyAcquisition.ApplyLeaf | src/db/acqusition/core.py:67-98 | `Get` indexes and `Custom` calls, neither touching the session; only `GetOrCreate` changes it, by growing it; `Create` always raises `TypeError` |
| LegacyAcquisition.RunLeaves | src/db/acqusition/core.py:42-44 | a run only grows the session; no combinators give the data back |
| LegacyAcquisition.RunLeavesSnoc | src/db/acqusition/core.py:42-44 | running one more combinator at the end runs it on the earlier result |
| LegacyAcquisition.Transformation.constructor | src/db/acqusition/core.py:37-40 | a new object has no predecessor |
| LegacyAcquisition.Transformation.Ror | src/db/acqusition/core.py:46-50 | a transformation becomes the predecessor, overwriting any earlier one, and the object itself is returned; anything else raises `TypeError` and changes nothing |
| LegacyAcquisition.Transformation.Call | src/db/acqusition/core.py:42-44 | runs the predecessor chain oldest first, then itself; a chain longer than the recursion bound raises before running anything |
| LegacyAcquisition.Lineage | src/db/acqusition/core.py:42-44 | the combinators a call runs end with the object's own |
| LegacyAcquisition.ApplyLeafTo | src/db/acqusition/core.py:83-91 | the imperative `apply` equals `ApplyLeaf` |
| LegacyAcquisition.CycleNeverEnds | src/db/acqusition/core.py:46-50 | after `a \| b` and `b \| a` a call of either never finishes |
| LegacyAcquisition.Pipe | src/db/acqusition/core.py:46-50 | `left \| right` reaches `__ror__` only for operands of different classes; otherwise `TypeError` with nothing changed |
| LegacyAcquisition.NestLeft | src/db/acqusition/core.py:42-50 | `(a \| b) \| c` runs `a`, `b`, `c` |
| LegacyAcquisition.NestRight | src/db/acqusition/core.py:46-50 | `a \| (b \| c)` overwrites `c`'s link: it runs `a`, then `c`, and `b` drops out |
| LegacyAcquisition.NotAssociative | src/db/acqusition/core.py:42-50 | on one input the two nestings give different results |
| LegacyAcquisition.KwargsAsWrittenRejectsTeams | src/db/acqusition/core.py:23-27 | with the Team map registered, `generate_kwargs` as written raises where the corrected one yields `{id, name}` |
| LegacyAcquisition.CreateAsWrittenFails | src/db/acqusition/core.py:93-98 | `Create` as written raises `TypeError` where the corrected one returns a new, added, committed Team |
| LegacyAcquisition.LegacyCreate | src/db/acqusition/core.py:18-21 | `create` builds an instance with no attributes on an empty registry and raises `TypeError` otherwise; nothing is added |
| LegacyAcquisition.LegacyCreateMultiple | src/db/acqusition/core.py:29-33 | a non-list raises `TypeError`; otherwise one attribute-less instance per row, in row order, none added; a non-empty registry raises at the first row with the session unchanged |
| DbCore.Database.constructor | src/db/core.py:39-40 | the handle keeps its descriptor |
| DbCore.InstanceRegistry.constructor | src/db/core.py:25 | the registry starts empty |
| DbCore.InstanceRegistry.Instantiate | src/db/core.py:27-35 | a registered class returns its instance when called with no argument and raises `RuntimeError` otherwise, registry unchanged; an unregistered class is constructed and recorded under itself; other classes' entries never change |
| DbCore.ImportThenInstantiate | src/db/core.py:77 | after the import-time `_DB(url)`, `_DB(other)` raises `RuntimeError` and `_DB()` returns the same object |
| DbCore.Lifecycle | src/db/core.py:58-72 | closed exactly once, last; committed iff the body succeeded, rolled back iff it raised; the body's exception is re-raised (or the rollback's) |
| DbCore.DbSession.constructor | src/db/core.py:60 | a new session has had nothing done to it |
| DbCore.DbSession.Commit | src/db/core.py:70 | records a commit |
| DbCore.DbSession.Rollback | src/db/core.py:67 | records a rollback |
| DbCore.DbSession.Close | src/db/core.py:72 | records a close |
| DbCore.GetSession | src/db/core.py:58-72 | the try/except/else/finally leaves exactly `Lifecycle`'s log and result |

## Left out

- Thread-pool download, HTTP and JSON decoding (src/acquisition/pipeline.py:61-81). `download_matches` runs over a finite sequence of `(year, document)` pairs in whatever order they arrive. `ThreadPoolExecutor(max_workers=len(years))` (src/acquisition/pipeline.py:76) raises `ValueError` for an empty year list, whereas `Download.DownloadMatches` on no documents succeeds with nothing produced.
- `dateutil` parsing in the `date` chain. The parser is a parameter of `LivePipeline.MatchMap`. Python callables in `Custom` and `Filter` are total functions returning a result or an exception.
- SQLAlchemy:
  - `create_tables`/`drop_tables` (src/db/core.py:52-56) are not modelled;
  - the store is a list of records matched by exact equality;
  - a query sees every instance handed to `add`, committed or not, as with SQLAlchemy's default autoflush; relationship cascades and the identity map are not modelled;
  - column schemas are not modelled: a constructed instance holds exactly the keyword arguments it was given, although `Match` (src/db/models/match.py:12-32) declares no `group`, `is_finished` or `*_points` column for the live map's fields to fill;
  - primary keys are not enforced: `Model.id` is unique (src/db/core.py:21), and a second instance with an existing `id` would make the commit of `GetOrCreate` (src/acquisition/transformations.py:97) fail, which the model does not reflect;
  - `build_team_query`/`build_match_query` (src/db/selectors.py:123-129) are not modelled;
  - engine and session creation in `configure` (src/db/core.py:42-50), and its `print`, are not modelled; the `scoped` choice and the extra arguments of `get_session` (src/db/core.py:59-60) only pick the session factory.
- SQL NULL in filtered rows. A row always has a season year and a group order.
- The prediction code, the UI, the command line, and the legacy field maps in src/db/acqusition/pipeline.py, on which the legacy `create` always raises because of the first finding below.
- LivePipeline.CleanDownloadList: the stored years are not read from the session. `clean_download_list` takes them as a parameter, standing for the result of the `Season.year` query at src/acquisition/pipeline.py:51.
- Semantics.Apply: `Filter` and `CreateMultiple` on a dictionary or a string raise `TypeError`. Python would iterate the keys or the characters instead.
- CreateRows: `create_multiple` (src/acquisition/core.py:77-80) iterates any iterable, so a dictionary yields its keys and a string its characters; the model accepts only a list and raises `TypeError` for anything else, because the model's dictionaries have no iteration order.
- LegacyCreateMultiple: the same for the legacy generator (src/db/acqusition/core.py:29-33): only a list is iterated, anything else raises `TypeError`.
- DownloadDocument: the same for the `create_multiple` call of `download_matches` (src/acquisition/pipeline.py:95): a document that is not a list raises `TypeError`.
- OtherTeamRecord: promises a distinct new `Team` for a different name even when the `TeamId` is the same; the database would reject that instance's commit on the `id` primary key (src/db/core.py:21), which the model does not enforce.
- OtherNameOtherInstance: the same primary-key gap, for team entries reached through `host` and `guest`.
- Transformations.Attribute: `getattr` on a dictionary, list or string returns a bound method in Python (for example `Attr("items")`); the model only reads attributes of stored instances and raises `AttributeError` otherwise.
- Semantics.Apply: evaluation carries a fuel bound. A chain deeper than the bound fails with `NestingTooDeep`, which stands for the recursion limit.
- LivePipeline.Lower: lowercases ASCII letters only.
- Engine.TransformationObject.Or: the right operand is captured as a value. Later in-place appends to that operand, and a `_CONCAT` appended to itself, are not reflected.
- Download.DownloadDocument: the `create_multiple` generator is consumed in full. A consumer that stops early is not modelled.
- ProduceMatch: the new match is stated equal to `create(Match, row)` in every attribute other than `season` and `seasons`. On an arbitrary registry the match's own `group` could be the match itself, and linking would then rewrite its `season`. The `Match` map of src/acquisition/pipeline.py:30-39 sets neither attribute.
- DownloadDocument: match k is stated to be built from record k in some earlier session that the current one persists (`MatchOfRow`). The exact session is the one left by the matches before it, and that is not spelled out. `DownloadMatches` states the same per document.
- LivePipeline.SameTeamSameInstance: stated for sessions grown by construction and `add`. A session changed in other ways is outside the statement.
- Selectors.ParseInt: leading and trailing whitespace, digit-group underscores and non-ASCII digits, which Python's `int()` also accepts, are not modelled.
- Selectors.Point: points are values. The aliasing `copy` creates between two selectors' edge objects is not modelled; no code in the modelled files mutates an edge.
- `RangeSelector.__neq__` (src/db/selectors.py:70-71) is not a Python operator hook. `!=` uses the default negation of `__eq__`, so `Selectors.RangeSelector.Equals` covers it.
- DbCore.InstanceRegistry.Instantiate: keyword arguments are counted together with positional ones, since `__init__` takes its one descriptor either way. A failing `create_engine` is not modelled.
- LegacyAcquisition: the legacy `Pipeline.__init__` and `add_transformation` (src/db/acqusition/core.py:12-16) are the same as the current ones, and `Engine.Pipeline` stands for both. `Transformation.from_func` is modelled by the `Leaf` constructors and `ClassName`.

## Findings

| source | as written | input that shows it | evidently intended | confidence | as-written member | corrected member |
|---|---|---|---|---|---|---|
| src/db/acqusition/core.py:23-27 | `generate_kwargs` iterates the whole registry and calls each value, which is a field map and not callable | any registry holding the Team map, with a team record | iterate `self._transformations[model]`, as src/acquisition/core.py:52-55 does | high (not executed) | LegacyAcquisition.KwargsAsWrittenRejectsTeams | Semantics.Kwargs |
| src/db/acqusition/core.py:95 | `Create` calls `pipeline.create(model, pipeline, data, session)`, one positional argument too many | any call, for example `Create(Team)` on a team record | `pipeline.create(model, data, session)`, as src/acquisition/transformations.py:108 does | high (not executed) | LegacyAcquisition.CreateAsWrittenFails | Semantics.ApplyCreate |
