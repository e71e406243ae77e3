/**
 * The earlier chain design: every transformation object holds a link to its
 * predecessor, calling it runs the predecessor first, and `left | right` (which
 * Python resolves to `right.__ror__(left)` when the two are of different classes)
 * overwrites the right operand's link and returns that operand itself.
 *
 * Two operations of this design never work as written: `generate_kwargs` walks the
 * whole registry instead of the model's own map, and `Create` calls `create` with
 * one argument too many. Both are modelled as written here; the definitions in
 * `Semantics` are the corrected ones the rest of the model uses.
 */
module LegacyAcquisition {
  import opened Values
  import T = Transformations
  import opened Semantics
  import Engine
  import LivePipeline

  /** A combinator with its bound arguments. `Transformation.from_func` makes one class
      per decorated function and names it after that function. */
  datatype Leaf =
    | Get(key: Key)
    | Custom(func: Value -> Result<Value>)
    | Attr(name: string)
    | Filter(pred: Value -> Result<bool>)
    | GetOrCreate(model: Kind)
    | Create(model: Kind)

  function ClassName(l: Leaf): string {
    match l
    case Get(_) => "Get"
    case Custom(_) => "Custom"
    case Attr(_) => "Attr"
    case Filter(_) => "Filter"
    case GetOrCreate(_) => "GetOrCreate"
    case Create(_) => "Create"
  }

  /**
   * `generate_kwargs` as written: it iterates the whole registry and calls each value,
   * but the values are field maps, which are not callable. Only an empty registry
   * gets through, with no keyword arguments at all, whatever the model and the data.
   */
  function GenerateKwargsAsWritten(reg: Registry, model: Kind, data: Value): (r: Result<map<string, Value>>)
    ensures r.Ok? <==> reg == map[]
    ensures r.Ok? ==> r.value == map[]
    ensures r.Err? ==> r.error == TypeError
  {
    if reg == map[] then Ok(map[]) else Err(TypeError)
  }

  /** The legacy `GetOrCreate` on top of the kwargs above: the first added instance of
      `model`, or a new one, added and committed. */
  function LegacyGetOrCreate(reg: Registry, model: Kind, data: Value, st: Store): (r: Step<Value>)
    ensures Extends(st, r.store) && (st.Valid() ==> r.store.Valid())
    ensures reg != map[] ==> r == Step(Err(TypeError), st)
    ensures r.result.Ok? ==> (r.result.value.VRef? && r.result.value.id in r.store.added &&
      r.result.value.id < |r.store.heap| && r.store.heap[r.result.value.id].kind == model)
  {
    match GenerateKwargsAsWritten(reg, model, data)
    case Err(e) => Step(Err(e), st)
    case Ok(kwargs) =>
      match Query(st, model, kwargs)
      case Some(i) =>
        ExtendsRefl(st);
        Step(Ok(VRef(i)), st)
      case None =>
        var (s, i) := Construct(st, model, kwargs);
        ConstructAddCommitExtend(st, model, kwargs);
        ExtendsTrans(st, s, Add(s, i));
        ExtendsTrans(st, Add(s, i), Commit(Add(s, i)));
        assert i in Add(s, i).added;
        Step(Ok(VRef(i)), Commit(Add(s, i)))
  }

  /** As written, `GetOrCreate` never looks at its data: two calls on any two records
      in the same session return the same thing. */
  lemma GetOrCreateIgnoresData(reg: Registry, model: Kind, d1: Value, d2: Value, st: Store)
    ensures LegacyGetOrCreate(reg, model, d1, st) == LegacyGetOrCreate(reg, model, d2, st)
  {
  }

  /**
   * `apply` of each combinator. `Get`, `Custom`, `Attr` and `Filter` mean what the
   * combinators of the same names mean in the current design. `Create` passes the
   * pipeline to `create` as an extra positional argument, which raises `TypeError`
   * before anything happens.
   */
  function ApplyLeaf(reg: Registry, l: Leaf, data: Value, st: Store): (r: Step<Value>)
    ensures Extends(st, r.store) && (st.Valid() ==> r.store.Valid())
    ensures !l.GetOrCreate? ==> r.store == st
    ensures l.Get? ==> r.result == T.Subscript(data, l.key)
    ensures l.Custom? ==> r.result == l.func(data)
    ensures l.Create? ==> r == Step(Err(TypeError), st)
  {
    match l
    case Get(key) => ExtendsRefl(st); Apply(0, reg, T.Get(key), data, st)
    case Custom(f) => ExtendsRefl(st); Apply(0, reg, T.Custom(f), data, st)
    case Attr(n) => ExtendsRefl(st); Apply(0, reg, T.Attr(n), data, st)
    case Filter(p) => ExtendsRefl(st); Apply(0, reg, T.Filter(p), data, st)
    case GetOrCreate(model) => LegacyGetOrCreate(reg, model, data, st)
    case Create(_) => ExtendsRefl(st); Step(Err(TypeError), st)
  }

  /** The combinators `ls` run one after the other, the first on `data`. */
  function RunLeaves(reg: Registry, ls: seq<Leaf>, data: Value, st: Store): (r: Step<Value>)
    ensures Extends(st, r.store) && (st.Valid() ==> r.store.Valid())
    ensures ls == [] ==> r == Step(Ok(data), st)
    decreases |ls|
  {
    if ls == [] then ExtendsRefl(st); Step(Ok(data), st)
    else
      var first := ApplyLeaf(reg, ls[0], data, st);
      if first.result.Err? then first
      else
        var rest := RunLeaves(reg, ls[1..], first.result.value, first.store);
        ExtendsTrans(st, first.store, rest.store);
        rest
  }

  /** Running `ls + [l]` is running `ls`, then `l` on its result. */
  lemma {:induction false} RunLeavesSnoc(reg: Registry, ls: seq<Leaf>, l: Leaf, data: Value, st: Store)
    ensures RunLeaves(reg, ls + [l], data, st) ==
      var before := RunLeaves(reg, ls, data, st);
      if before.result.Err? then before else ApplyLeaf(reg, l, before.result.value, before.store)
    decreases |ls|
  {
    if ls == [] {
      assert [] + [l] == [l];
      assert [l][1..] == [];
    } else {
      assert (ls + [l])[0] == ls[0] && (ls + [l])[1..] == ls[1..] + [l];
      var first := ApplyLeaf(reg, ls[0], data, st);
      if first.result.Ok? {
        RunLeavesSnoc(reg, ls[1..], l, first.result.value, first.store);
      }
    }
  }

  /** The left operand of `|`: a transformation object, or anything else. */
  datatype LeftOperand = Chainable(t: Transformation) | NotTransformation

  class Transformation {
    const leaf: Leaf
    var prev: Transformation?

    /** `Transformation.__init__`: the bound arguments, and no predecessor. */
    constructor (leaf: Leaf)
      ensures this.leaf == leaf && prev == null
    {
      this.leaf := leaf;
      prev := null;
    }

    /** `__ror__`: the left operand becomes this object's predecessor, replacing any
        earlier one, and this very object is the result. */
    method Ror(other: LeftOperand) returns (r: Result<Transformation>)
      modifies this
      ensures other.Chainable? ==> r == Ok(this) && prev == other.t
      ensures other.NotTransformation? ==> r == Err(TypeError) && prev == old(prev)
    {
      if other.NotTransformation? {
        return Err(TypeError);
      }
      prev := other.t;
      r := Ok(this);
    }

    /**
     * `__call__`: the predecessor first (recursively, through its own predecessor),
     * then this combinator on the predecessor's result. A chain of links longer than
     * `fuel`, or a cycle of links, is Python's recursion limit.
     */
    method Call(pipeline: Engine.Pipeline, fuel: nat, data: Value, session: Engine.Session) returns (r: Result<Value>)
      modifies session
      ensures old(Lineage(this, fuel)).None? ==> r == Err(NestingTooDeep) && session.State() == old(session.State())
      ensures old(Lineage(this, fuel)).Some? ==>
        Step(r, session.State()) == RunLeaves(pipeline.transformations, old(Lineage(this, fuel)).value, data, old(session.State()))
      decreases fuel
    {
      ghost var s0 := session.State();
      ghost var lin := Lineage(this, fuel);
      ghost var reg := pipeline.transformations;
      var input := data;
      if prev != null {
        if fuel == 0 {
          return Err(NestingTooDeep);
        }
        ghost var before0 := Lineage(prev, fuel - 1);
        assert lin == if before0.None? then None else Some(before0.value + [leaf]);
        var before := prev.Call(pipeline, fuel - 1, data, session);
        if before.Err? {
          if lin.Some? {
            RunLeavesSnoc(reg, before0.value, leaf, data, s0);
            assert Step(before, session.State()) == RunLeaves(reg, lin.value, data, s0);
          }
          return before;
        }
        assert before0.Some? && lin.Some?;
        ghost var mid := session.State();
        assert Step(before, mid) == RunLeaves(reg, before0.value, data, s0);
        input := before.value;
        r := ApplyLeafTo(pipeline, leaf, input, session);
        assert Step(r, session.State()) == ApplyLeaf(reg, leaf, input, mid);
        RunLeavesSnoc(reg, before0.value, leaf, data, s0);
        assert Step(r, session.State()) == RunLeaves(reg, lin.value, data, s0);
      } else {
        r := ApplyLeafTo(pipeline, leaf, input, session);
        assert lin == Some([leaf]);
        assert RunLeaves(reg, [leaf][1..], input, session.State()) == Step(Ok(input), session.State());
      }
    }
  }

  /**
   * The combinators a call of `t` runs, oldest predecessor first and `t` itself last,
   * or `None` when following `fuel` links does not reach an object without one.
   */
  ghost function Lineage(t: Transformation, fuel: nat): (r: Option<seq<Leaf>>)
    reads *
    ensures r.Some? ==> 0 < |r.value| <= fuel + 1 && r.value[|r.value| - 1] == t.leaf
    ensures t.prev == null ==> r == Some([t.leaf])
    decreases fuel
  {
    if t.prev == null then Some([t.leaf])
    else if fuel == 0 then None
    else match Lineage(t.prev, fuel - 1)
      case None => None
      case Some(ls) => Some(ls + [t.leaf])
  }

  /** `apply` of one combinator against the session. */
  method ApplyLeafTo(pipeline: Engine.Pipeline, l: Leaf, data: Value, session: Engine.Session) returns (r: Result<Value>)
    modifies session
    ensures Step(r, session.State()) == ApplyLeaf(pipeline.transformations, l, data, old(session.State()))
  {
    if l.GetOrCreate? {
      var kwargs := GenerateKwargsAsWritten(pipeline.transformations, l.model, data);
      if kwargs.Err? {
        return Err(kwargs.error);
      }
      var found := Query(session.State(), l.model, kwargs.value);
      if found.Some? {
        return Ok(VRef(found.value));
      }
      var i := session.Construct(l.model, kwargs.value);
      session.Add(i);
      session.Commit();
      r := Ok(VRef(i));
    } else {
      r := ApplyLeaf(pipeline.transformations, l, data, session.State()).result;
    }
  }

  /** `a | b` followed by `b | a` links each to the other; calling either then never
      reaches an object without a predecessor. */
  lemma {:induction false} CycleNeverEnds(a: Transformation, b: Transformation, fuel: nat)
    requires a.prev == b && b.prev == a
    ensures Lineage(a, fuel).None? && Lineage(b, fuel).None?
    decreases fuel
  {
    if fuel > 0 {
      CycleNeverEnds(a, b, fuel - 1);
    }
  }

  /** `left | right` under Python's rules: the right operand's `__ror__` is consulted
      only when the left operand's class differs from its own; the same class on both
      sides raises `TypeError`. */
  method Pipe(left: LeftOperand, right: Transformation) returns (r: Result<Transformation>)
    modifies right
    ensures left.Chainable? && ClassName(left.t.leaf) != ClassName(right.leaf) ==>
      r == Ok(right) && right.prev == left.t
    ensures !(left.Chainable? && ClassName(left.t.leaf) != ClassName(right.leaf)) ==>
      r == Err(TypeError) && right.prev == old(right.prev)
  {
    if left.Chainable? && ClassName(left.t.leaf) == ClassName(right.leaf) {
      return Err(TypeError);
    }
    r := right.Ror(left);
  }

  /** `(a | b) | c`: `c` runs `b`, which runs `a`. */
  method NestLeft(a: Transformation, b: Transformation, c: Transformation) returns (r: Result<Transformation>)
    requires a.prev == null && a != c
    requires ClassName(a.leaf) != ClassName(b.leaf) && ClassName(b.leaf) != ClassName(c.leaf)
    modifies b, c
    ensures r == Ok(c) && c.prev == b && b.prev == a && a.prev == null
    ensures Lineage(c, 2) == Some([a.leaf, b.leaf, c.leaf])
  {
    assert a != b && b != c;
    var ab := Pipe(Chainable(a), b);
    r := Pipe(Chainable(ab.value), c);
    assert Lineage(a, 0) == Some([a.leaf]);
    assert [a.leaf] + [b.leaf] == [a.leaf, b.leaf];
    assert Lineage(b, 1) == Some([a.leaf, b.leaf]);
    assert [a.leaf, b.leaf] + [c.leaf] == [a.leaf, b.leaf, c.leaf];
  }

  /** `a | (b | c)`: the second `|` overwrites the link the first one set, so `c` runs
      `a` directly and `b` drops out of the chain. */
  method NestRight(a: Transformation, b: Transformation, c: Transformation) returns (r: Result<Transformation>)
    requires a.prev == null
    requires ClassName(a.leaf) != ClassName(c.leaf) && ClassName(b.leaf) != ClassName(c.leaf)
    modifies c
    ensures r == Ok(c) && c.prev == a
    ensures Lineage(c, 1) == Some([a.leaf, c.leaf])
  {
    assert a != c;
    var bc := Pipe(Chainable(b), c);
    r := Pipe(Chainable(a), bc.value);
    assert Lineage(a, 0) == Some([a.leaf]);
    assert [a.leaf] + [c.leaf] == [a.leaf, c.leaf];
  }

  /** The two nestings compute different things: with `a = Get("xs")`, a `Filter`
      that keeps nothing as `b` and the identity as `c`, `(a | b) | c` gives `[]` on
      `{"xs": [1]}`, and `a | (b | c)` gives `[1]`. */
  lemma NotAssociative(reg: Registry, st: Store, none: Value -> Result<bool>, id: Value -> Result<Value>)
    requires forall v :: none(v) == Ok(false)
    requires forall v :: id(v) == Ok(v)
    ensures
      var data := VMap(map["xs" := VList([VInt(1)])]);
      && RunLeaves(reg, [Get(Name("xs")), Filter(none), Custom(id)], data, st).result == Ok(VList([]))
      && RunLeaves(reg, [Get(Name("xs")), Custom(id)], data, st).result == Ok(VList([VInt(1)]))
  {
    var xs := VList([VInt(1)]);
    var data := VMap(map["xs" := xs]);
    var a, b, c := Get(Name("xs")), Filter(none), Custom(id);
    assert ApplyLeaf(reg, a, data, st) == Step(Ok(xs), st);
    assert T.Keep([VInt(1)], none) == Ok([]) by {
      assert [VInt(1)][1..] == [];
    }
    assert ApplyLeaf(reg, b, xs, st) == Step(Ok(VList([])), st);
    assert [a, b, c][1..] == [b, c] && [b, c][1..] == [c] && [c][1..] == [];
    assert [a, c][1..] == [c];
    assert ApplyLeaf(reg, c, xs, st) == Step(Ok(xs), st);
    assert RunLeaves(reg, [c], xs, st) == Step(Ok(xs), st);
    assert RunLeaves(reg, [a, c], data, st) == Step(Ok(xs), st);
    assert ApplyLeaf(reg, c, VList([]), st) == Step(Ok(VList([])), st);
    assert RunLeaves(reg, [c], VList([]), st) == Step(Ok(VList([])), st);
    assert RunLeaves(reg, [b, c], xs, st) == Step(Ok(VList([])), st);
  }

  // ---------------------------------------------------------------------------
  // The two operations that never work as written

  /** `generate_kwargs` as written cannot build a team: with the Team map registered,
      a team record that the corrected `generate_kwargs` turns into `{id, name}` raises
      `TypeError` instead. */
  lemma KwargsAsWrittenRejectsTeams(fuel: nat, reg: Registry, t: Value, st: Store)
    requires LivePipeline.TeamModel in reg && reg[LivePipeline.TeamModel] == LivePipeline.TeamMap()
    requires LivePipeline.IsTeamRecord(t)
    ensures GenerateKwargsAsWritten(reg, LivePipeline.TeamModel, t) == Err(TypeError)
    ensures Kwargs(fuel, reg, LivePipeline.TeamModel, t, st) ==
      Step(Ok(map["id" := t.entries["TeamId"], "name" := t.entries["TeamName"]]), st)
  {
    LivePipeline.TeamKwargs(fuel, reg, t, st);
  }

  /** `Create` as written raises on every input, while the corrected `Create` on a
      team record returns a new `Team` instance, added and committed. */
  lemma CreateAsWrittenFails(fuel: nat, reg: Registry, t: Value, st: Store)
    requires LivePipeline.TeamModel in reg && reg[LivePipeline.TeamModel] == LivePipeline.TeamMap()
    requires LivePipeline.IsTeamRecord(t) && st.Valid()
    ensures ApplyLeaf(reg, Create(LivePipeline.TeamModel), t, st) == Step(Err(TypeError), st)
    ensures var r := ApplyCreate(fuel, reg, LivePipeline.TeamModel, t, st);
      && r.result == Ok(VRef(|st.heap|))
      && |st.heap| in r.store.added && r.store.committed == |r.store.added|
      && r.store.heap[|st.heap|] == Entity(LivePipeline.TeamModel, map["id" := t.entries["TeamId"], "name" := t.entries["TeamName"]])
  {
    LivePipeline.TeamKwargs(fuel, reg, t, st);
    AddCommitExtends(Construct(st, LivePipeline.TeamModel, map["id" := t.entries["TeamId"], "name" := t.entries["TeamName"]]).0, |st.heap|);
  }

  // ---------------------------------------------------------------------------
  // The legacy `Pipeline`

  /** `pipeline.create(model, data, session)`: `model(**generate_kwargs(...))`, an
      instance with no attributes when the registry is empty. */
  method LegacyCreate(pipeline: Engine.Pipeline, model: Kind, data: Value, session: Engine.Session) returns (r: Result<nat>)
    modifies session
    ensures pipeline.transformations != map[] ==> r == Err(TypeError) && session.State() == old(session.State())
    ensures pipeline.transformations == map[] ==>
      r == Ok(|old(session.heap)|) && session.heap == old(session.heap) + [Entity(model, map[])]
    ensures session.added == old(session.added) && session.committed == old(session.committed)
  {
    var kwargs := GenerateKwargsAsWritten(pipeline.transformations, model, data);
    if kwargs.Err? {
      return Err(kwargs.error);
    }
    var i := session.Construct(model, kwargs.value);
    r := Ok(i);
  }

  /** `create_multiple`, consumed in full: one `create` per row, in row order. */
  method LegacyCreateMultiple(pipeline: Engine.Pipeline, model: Kind, data: Value, session: Engine.Session)
    returns (r: Result<seq<nat>>)
    modifies session
    ensures !data.VList? ==> r == Err(TypeError) && session.State() == old(session.State())
    ensures data.VList? && (pipeline.transformations == map[] || data.items == []) ==>
      && r.Ok? && |r.value| == |data.items|
      && |session.heap| == |old(session.heap)| + |data.items|
      && session.heap[..|old(session.heap)|] == old(session.heap)
      && forall k :: 0 <= k < |r.value| ==>
           r.value[k] == |old(session.heap)| + k && session.heap[r.value[k]] == Entity(model, map[])
    ensures data.VList? && pipeline.transformations != map[] && data.items != [] ==>
      r == Err(TypeError) && session.State() == old(session.State())
    ensures session.added == old(session.added) && session.committed == old(session.committed)
  {
    if !data.VList? {
      return Err(TypeError);
    }
    var rows := data.items;
    var ids: seq<nat> := [];
    var k := 0;
    while k < |rows|
      invariant 0 <= k <= |rows| && |ids| == k
      invariant k > 0 ==> pipeline.transformations == map[]
      invariant |session.heap| == |old(session.heap)| + k
      invariant session.heap[..|old(session.heap)|] == old(session.heap)
      invariant forall j :: 0 <= j < k ==> ids[j] == |old(session.heap)| + j && session.heap[ids[j]] == Entity(model, map[])
      invariant session.added == old(session.added) && session.committed == old(session.committed)
    {
      var one := LegacyCreate(pipeline, model, rows[k], session);
      if one.Err? {
        return Err(one.error);
      }
      ids := ids + [one.value];
      k := k + 1;
    }
    r := Ok(ids);
  }
}
