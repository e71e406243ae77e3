/**
 * What calling a transformation does, as a function of the pipeline's registry, the
 * value and the session: `Transformation.__call__`, `_CONCAT`, the materialising
 * combinators, and the pipeline's `generate_kwargs`, `generate_kwarg`, `create` and
 * `create_multiple`.
 *
 * Every function returns the session as it is afterwards, also when it fails: an
 * instance that a nested `GetOrCreate` committed stays committed when a later field
 * raises. The `fuel` parameter bounds how deeply materialisation may nest (a
 * `GetOrCreate` inside a field of a model that is itself being got or created);
 * running out of it is reported as `NestingTooDeep`.
 */
module Semantics {
  import opened Values
  import opened Transformations

  /** A transformation map: field name to chain, in the order the dictionary lists them. */
  type FieldMap = seq<(string, Transformation)>

  /** The pipeline's `_transformations`: one transformation map per model. */
  type Registry = map<Kind, FieldMap>

  /** A result together with the session it leaves behind. */
  datatype Step<+T> = Step(result: Result<T>, store: Store)

  /** The field names of a transformation map. */
  function FieldNames(fs: FieldMap): (r: set<string>)
    ensures forall k :: 0 <= k < |fs| ==> fs[k].0 in r
    ensures forall n :: n in r ==> exists k :: 0 <= k < |fs| && fs[k].0 == n
  {
    set k | 0 <= k < |fs| :: fs[k].0
  }

  /** A dictionary never lists a key twice. */
  predicate DistinctNames(fs: FieldMap) {
    forall j, k :: 0 <= j < k < |fs| ==> fs[j].0 != fs[k].0
  }

  /** `transformations[key]` on one transformation map. */
  function Lookup(fs: FieldMap, key: string): (r: Option<Transformation>)
    ensures r.None? <==> key !in FieldNames(fs)
    ensures r.Some? ==> exists k :: 0 <= k < |fs| && fs[k] == (key, r.value)
  {
    if fs == [] then None
    else if fs[0].0 == key then Some(fs[0].1)
    else Lookup(fs[1..], key)
  }

  /** An instance the pipeline built: of a registered model, with exactly the fields
      of that model's map. */
  predicate FromRegistry(reg: Registry, e: Entity) {
    e.kind in reg && e.fields.Keys == FieldNames(reg[e.kind])
  }

  /** `later` extends `st`, and every instance constructed in between was built from
      the registry. */
  ghost predicate Grown(reg: Registry, st: Store, later: Store) {
    && Extends(st, later)
    && forall i :: |st.heap| <= i < |later.heap| ==> FromRegistry(reg, later.heap[i])
  }

  lemma GrownTrans(reg: Registry, a: Store, b: Store, c: Store)
    requires Grown(reg, a, b) && Grown(reg, b, c)
    ensures Grown(reg, a, c)
  {
    ExtendsTrans(a, b, c);
    forall i | |a.heap| <= i < |c.heap|
      ensures FromRegistry(reg, c.heap[i])
    {
      if i < |b.heap| {
        ExtendsAt(b, c, i);
      }
    }
  }

  /** `model(**kwargs)` with the generated keyword arguments, then `session.add` and
      `session.commit`. */
  lemma BuildGrown(reg: Registry, st: Store, model: Kind, kwargs: map<string, Value>)
    requires model in reg && kwargs.Keys == FieldNames(reg[model])
    ensures var (s, i) := Construct(st, model, kwargs);
      && Grown(reg, st, s) && Grown(reg, s, Commit(Add(s, i)))
      && (st.Valid() ==> s.Valid() && Commit(Add(s, i)).Valid())
  {
    ConstructAddCommitExtend(st, model, kwargs);
    AddCommitExtends(Construct(st, model, kwargs).0, |st.heap|);
  }

  /** `transformation(pipeline, data, session)`. */
  function Apply(fuel: nat, reg: Registry, t: Transformation, data: Value, st: Store): (r: Step<Value>)
    ensures Grown(reg, st, r.store)
    ensures st.Valid() ==> r.store.Valid()
    ensures StoreFree(t) || t.Attr? ==> r.store == st
    decreases fuel, 0, t
  {
    match t
    case Get(key) => Step(Subscript(data, key), st)
    case Custom(func) => Step(func(data), st)
    case Attr(name) => Step(Attribute(st.heap, data, name), st)
    case Filter(pred) =>
      if !data.VList? then Step(Err(TypeError), st)
      else (
        match Keep(data.items, pred)
        case Ok(kept) => Step(Ok(VList(kept)), st)
        case Err(e) => Step(Err(e), st))
    case Gather(names) => Step(GatherFrom(data, names), st)
    case GetOrCreate(model) =>
      if fuel == 0 then Step(Err(NestingTooDeep), st) else ApplyGetOrCreate(fuel - 1, reg, model, data, st)
    case Create(model) =>
      if fuel == 0 then Step(Err(NestingTooDeep), st) else ApplyCreate(fuel - 1, reg, model, data, st)
    case CreateMultiple(model) =>
      if !data.VList? then Step(Err(TypeError), st)
      else if fuel == 0 then Step(Err(NestingTooDeep), st)
      else ApplyCreateMultiple(fuel - 1, reg, model, data.items, st)
    case Concat(steps) => ApplyChain(fuel, reg, steps, data, st)
  }

  /** The body of `_CONCAT`: each step is applied to the previous step's result. */
  function ApplyChain(fuel: nat, reg: Registry, steps: seq<Transformation>, data: Value, st: Store): (r: Step<Value>)
    ensures Grown(reg, st, r.store)
    ensures st.Valid() ==> r.store.Valid()
    decreases fuel, 0, steps
  {
    if steps == [] then Step(Ok(data), st)
    else
      var first := Apply(fuel, reg, steps[0], data, st);
      if first.result.Err? then first
      else
        var rest := ApplyChain(fuel, reg, steps[1..], first.result.value, first.store);
        GrownTrans(reg, st, first.store, rest.store);
        rest
  }

  /** The dictionary comprehension of `generate_kwargs`, from the field `fs[0]` on,
      with `acc` holding the fields already generated. */
  function FieldsAcc(fuel: nat, reg: Registry, fs: FieldMap, acc: map<string, Value>, data: Value, st: Store)
    : (r: Step<map<string, Value>>)
    ensures Grown(reg, st, r.store)
    ensures st.Valid() ==> r.store.Valid()
    ensures r.result.Ok? ==> r.result.value.Keys == acc.Keys + FieldNames(fs)
    decreases fuel, 1, |fs|
  {
    if fs == [] then Step(Ok(acc), st)
    else
      var first := Apply(fuel, reg, fs[0].1, data, st);
      if first.result.Err? then Step(Err(first.result.error), first.store)
      else
        var rest := FieldsAcc(fuel, reg, fs[1..], acc[fs[0].0 := first.result.value], data, first.store);
        GrownTrans(reg, st, first.store, rest.store);
        assert FieldNames(fs) == {fs[0].0} + FieldNames(fs[1..]) by {
          forall n | n in FieldNames(fs) ensures n in {fs[0].0} + FieldNames(fs[1..]) {
            var k :| 0 <= k < |fs| && fs[k].0 == n;
            if k > 0 { assert fs[1..][k - 1].0 == n; }
          }
        }
        rest
  }

  /** `pipeline.generate_kwargs(model, data, session)`: one entry per field of the
      model's map; an unregistered model raises `KeyError`. */
  function Kwargs(fuel: nat, reg: Registry, model: Kind, data: Value, st: Store): (r: Step<map<string, Value>>)
    ensures Grown(reg, st, r.store)
    ensures st.Valid() ==> r.store.Valid()
    ensures model !in reg ==> r == Step(Err(KeyError), st)
    ensures model in reg && r.result.Ok? ==> r.result.value.Keys == FieldNames(reg[model])
    decreases fuel, 2, 0
  {
    if model !in reg then Step(Err(KeyError), st)
    else FieldsAcc(fuel, reg, reg[model], map[], data, st)
  }

  /** `pipeline.generate_kwarg(model, key, data, session)`. */
  function Kwarg(fuel: nat, reg: Registry, model: Kind, key: string, data: Value, st: Store): (r: Step<Value>)
    ensures Grown(reg, st, r.store)
    ensures model !in reg || key !in FieldNames(reg[model]) ==> r == Step(Err(KeyError), st)
    decreases fuel, 2, 0
  {
    if model !in reg then Step(Err(KeyError), st)
    else match Lookup(reg[model], key)
      case None => Step(Err(KeyError), st)
      case Some(t) => Apply(fuel, reg, t, data, st)
  }

  /** `pipeline.create(model, data, session)`: a new instance built from the generated
      keyword arguments, NOT added to the session. Returns its identity. */
  function CreateOne(fuel: nat, reg: Registry, model: Kind, data: Value, st: Store): (r: Step<nat>)
    ensures Grown(reg, st, r.store)
    ensures st.Valid() ==> r.store.Valid()
    ensures r.result.Ok? ==>
      && |st.heap| <= r.result.value == |r.store.heap| - 1
      && r.store.heap[r.result.value].kind == model
      && model in reg && r.store.heap[r.result.value].fields.Keys == FieldNames(reg[model])
    ensures r.result.Ok? ==>
      var k := Kwargs(fuel, reg, model, data, st);
      k.result.Ok? && r.store.heap[r.result.value] == Entity(model, k.result.value)
    ensures r.result.Ok? && st.Valid() ==> r.result.value !in r.store.added
    decreases fuel, 3, 0
  {
    var k := Kwargs(fuel, reg, model, data, st);
    if k.result.Err? then Step(Err(k.result.error), k.store)
    else
      var (s, i) := Construct(k.store, model, k.result.value);
      BuildGrown(reg, k.store, model, k.result.value);
      GrownTrans(reg, st, k.store, s);
      Step(Ok(i), s)
  }

  /** `create` on each row in turn, `acc` holding the instances created so far. */
  function CreateEach(fuel: nat, reg: Registry, model: Kind, rows: seq<Value>, acc: seq<nat>, st: Store)
    : (r: Step<seq<nat>>)
    requires forall k :: 0 <= k < |acc| ==> acc[k] < |st.heap|
    ensures Grown(reg, st, r.store)
    ensures st.Valid() ==> r.store.Valid()
    ensures r.result.Ok? ==> |r.result.value| == |acc| + |rows| && r.result.value[..|acc|] == acc
    ensures r.result.Ok? ==> forall k :: 0 <= k < |r.result.value| ==> r.result.value[k] < |r.store.heap|
    ensures r.result.Ok? ==> forall k :: |acc| <= k < |r.result.value| ==>
      |st.heap| <= r.result.value[k] && r.store.heap[r.result.value[k]].kind == model
    ensures r.result.Ok? ==> forall j, k :: |acc| <= j < k < |r.result.value| ==> r.result.value[j] < r.result.value[k]
    decreases fuel, 4, |rows|
  {
    if rows == [] then Step(Ok(acc), st)
    else
      var one := CreateOne(fuel, reg, model, rows[0], st);
      if one.result.Err? then Step(Err(one.result.error), one.store)
      else
        var i := one.result.value;
        var rest := CreateEach(fuel, reg, model, rows[1..], acc + [i], one.store);
        GrownTrans(reg, st, one.store, rest.store);
        CreatedKeepKind(one.store, rest, acc + [i], model);
        rest
  }

  lemma CreatedKeepKind(mid: Store, rest: Step<seq<nat>>, acc: seq<nat>, model: Kind)
    requires Extends(mid, rest.store) && acc != []
    requires acc[|acc| - 1] < |mid.heap| && mid.heap[acc[|acc| - 1]].kind == model
    requires rest.result.Ok? ==> |rest.result.value| >= |acc| && rest.result.value[..|acc|] == acc
    ensures rest.result.Ok? ==> rest.store.heap[rest.result.value[|acc| - 1]].kind == model
  {
    if rest.result.Ok? {
      assert rest.result.value[|acc| - 1] == rest.result.value[..|acc|][|acc| - 1];
      ExtendsAt(mid, rest.store, acc[|acc| - 1]);
    }
  }

  /** Instance `e` is `model(**kwargs)` for the keyword arguments `generate_kwargs`
      gives on `row` in a session grown from `st` by the pipeline. */
  ghost predicate BuiltFrom(fuel: nat, reg: Registry, model: Kind, row: Value, st: Store, e: Entity) {
    exists s :: Grown(reg, st, s) && Kwargs(fuel, reg, model, row, s).result.Ok? &&
      e == Entity(model, Kwargs(fuel, reg, model, row, s).result.value)
  }

  /** The instance created for position `k` is `create` on `rows[k]`. */
  lemma {:induction false} CreateEachBuilds(fuel: nat, reg: Registry, model: Kind, rows: seq<Value>, acc: seq<nat>, st: Store)
    requires forall k :: 0 <= k < |acc| ==> acc[k] < |st.heap|
    ensures var r := CreateEach(fuel, reg, model, rows, acc, st);
      r.result.Ok? ==> forall k :: 0 <= k < |rows| ==>
        BuiltFrom(fuel, reg, model, rows[k], st, r.store.heap[r.result.value[|acc| + k]])
    decreases |rows|
  {
    var r := CreateEach(fuel, reg, model, rows, acc, st);
    if rows != [] && r.result.Ok? {
      var one := CreateOne(fuel, reg, model, rows[0], st);
      var i := one.result.value;
      var rest := CreateEach(fuel, reg, model, rows[1..], acc + [i], one.store);
      assert r == rest;
      CreateEachBuilds(fuel, reg, model, rows[1..], acc + [i], one.store);
      forall k | 0 <= k < |rows|
        ensures BuiltFrom(fuel, reg, model, rows[k], st, r.store.heap[r.result.value[|acc| + k]])
      {
        if k == 0 {
          assert r.result.value[|acc|] == i by {
            assert r.result.value[..|acc| + 1] == acc + [i];
          }
          ExtendsAt(one.store, r.store, i);
          ExtendsRefl(st);
          assert Grown(reg, st, st);
        } else {
          assert rows[1..][k - 1] == rows[k];
          assert |acc + [i]| + (k - 1) == |acc| + k;
          var s :| Grown(reg, one.store, s) && Kwargs(fuel, reg, model, rows[k], s).result.Ok? &&
            r.store.heap[r.result.value[|acc| + k]] == Entity(model, Kwargs(fuel, reg, model, rows[k], s).result.value);
          GrownTrans(reg, st, one.store, s);
        }
      }
    }
  }

  /** The `GetOrCreate` combinator: the first stored instance of `model` agreeing with
      the generated keyword arguments, or else a new one, added and committed. */
  function ApplyGetOrCreate(fuel: nat, reg: Registry, model: Kind, data: Value, st: Store): (r: Step<Value>)
    ensures Grown(reg, st, r.store)
    ensures st.Valid() ==> r.store.Valid()
    ensures r.result.Ok? ==> r.result.value.VRef? && r.result.value.id in r.store.added
    ensures r.result.Ok? ==> r.result.value.id < |r.store.heap| && r.store.heap[r.result.value.id].kind == model
    decreases fuel, 5, 0
  {
    var k := Kwargs(fuel, reg, model, data, st);
    if k.result.Err? then Step(Err(k.result.error), k.store)
    else match Query(k.store, model, k.result.value)
      case Some(i) => Step(Ok(VRef(i)), k.store)
      case None =>
        var (s, i) := Construct(k.store, model, k.result.value);
        BuildGrown(reg, k.store, model, k.result.value);
        GrownTrans(reg, st, k.store, s);
        GrownTrans(reg, st, s, Commit(Add(s, i)));
        Step(Ok(VRef(i)), Commit(Add(s, i)))
  }

  /** The `Create` combinator: a new instance, added and committed. */
  function ApplyCreate(fuel: nat, reg: Registry, model: Kind, data: Value, st: Store): (r: Step<Value>)
    ensures Grown(reg, st, r.store)
    ensures st.Valid() ==> r.store.Valid()
    ensures r.result.Ok? ==> r.result.value.VRef? && |st.heap| <= r.result.value.id < |r.store.heap|
    ensures r.result.Ok? ==>
      var k := Kwargs(fuel, reg, model, data, st);
      k.result.Ok? && r.store.heap[r.result.value.id] == Entity(model, k.result.value)
    ensures r.result.Ok? ==> r.result.value.id in r.store.added && r.store.committed == |r.store.added|
    decreases fuel, 5, 0
  {
    var one := CreateOne(fuel, reg, model, data, st);
    if one.result.Err? then Step(Err(one.result.error), one.store)
    else
      var i := one.result.value;
      AddCommitExtends(one.store, i);
      GrownTrans(reg, st, one.store, Commit(Add(one.store, i)));
      Step(Ok(VRef(i)), Commit(Add(one.store, i)))
  }

  /** The `CreateMultiple` combinator: one new instance per row, all added, then one commit. */
  function ApplyCreateMultiple(fuel: nat, reg: Registry, model: Kind, rows: seq<Value>, st: Store): (r: Step<Value>)
    ensures Grown(reg, st, r.store)
    ensures st.Valid() ==> r.store.Valid()
    ensures r.result.Ok? ==> r.result.value.VList? && |r.result.value.items| == |rows|
    ensures r.result.Ok? ==> forall k :: 0 <= k < |rows| ==>
      r.result.value.items[k].VRef? && r.result.value.items[k].id in r.store.added &&
      |st.heap| <= r.result.value.items[k].id < |r.store.heap| &&
      r.store.heap[r.result.value.items[k].id].kind == model
    ensures r.result.Ok? ==> forall j, k :: 0 <= j < k < |rows| ==>
      r.result.value.items[j].id < r.result.value.items[k].id
    ensures r.result.Ok? ==> var each := CreateEach(fuel, reg, model, rows, [], st);
      each.result.Ok? && r.result.value.items == Refs(each.result.value) && r.store.heap == each.store.heap
    ensures r.result.Ok? ==> r.store.committed == |r.store.added|
    decreases fuel, 5, 0
  {
    var each := CreateEach(fuel, reg, model, rows, [], st);
    if each.result.Err? then Step(Err(each.result.error), each.store)
    else
      var ids := each.result.value;
      AddAllExtends(each.store, ids);
      GrownTrans(reg, st, each.store, AddAll(each.store, ids));
      GrownTrans(reg, st, AddAll(each.store, ids), Commit(AddAll(each.store, ids)));
      Step(Ok(VList(Refs(ids))), Commit(AddAll(each.store, ids)))
  }

  /** The instance `CreateMultiple` returns at position `k` is `create` on `rows[k]`. */
  lemma ApplyCreateMultipleBuilds(fuel: nat, reg: Registry, model: Kind, rows: seq<Value>, st: Store)
    ensures var r := ApplyCreateMultiple(fuel, reg, model, rows, st);
      r.result.Ok? ==> forall k :: 0 <= k < |rows| ==>
        BuiltFrom(fuel, reg, model, rows[k], st, r.store.heap[r.result.value.items[k].id])
  {
    CreateEachBuilds(fuel, reg, model, rows, [], st);
  }

  /** `pipeline.create_multiple(model, data, session)`, realised in full: one new
      instance per row of `data`, none of them added. */
  function CreateRows(fuel: nat, reg: Registry, model: Kind, data: Value, st: Store): (r: Step<seq<nat>>)
    ensures Grown(reg, st, r.store)
    ensures !data.VList? ==> r == Step(Err(TypeError), st)
    ensures data.VList? && r.result.Ok? ==> |r.result.value| == |data.items|
    ensures r.result.Ok? ==> forall k :: 0 <= k < |r.result.value| ==>
      |st.heap| <= r.result.value[k] < |r.store.heap| && r.store.heap[r.result.value[k]].kind == model
    ensures r.result.Ok? ==> forall j, k :: 0 <= j < k < |r.result.value| ==> r.result.value[j] < r.result.value[k]
    ensures data.VList? && r.result.Ok? ==> forall k :: 0 <= k < |data.items| ==>
      BuiltFrom(fuel, reg, model, data.items[k], st, r.store.heap[r.result.value[k]])
  {
    if !data.VList? then Step(Err(TypeError), st)
    else
      CreateEachBuilds(fuel, reg, model, data.items, [], st);
      CreateEach(fuel, reg, model, data.items, [], st)
  }
}
