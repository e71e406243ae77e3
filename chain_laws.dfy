/**
 * Laws of chain evaluation: what `|` builds means "this, then that", so the way a
 * chain is bracketed does not matter; a chain of lookups leaves the session alone and
 * `generate_kwarg` agrees with `generate_kwargs`; and `GetOrCreate` is idempotent.
 */
module ChainLaws {
  import opened Values
  import opened Transformations
  import opened Semantics

  /** The transformation value `x | y` denotes: appended to `x` when `x` is already a
      `_CONCAT`, otherwise a fresh two-step `_CONCAT`. */
  function Pipe(x: Transformation, y: Transformation): Transformation {
    if x.Concat? then Concat(x.steps + [y]) else Concat([x, y])
  }

  /** Run `t` on the result of a previous step, unless that step failed. */
  function AndThen(fuel: nat, reg: Registry, s: Step<Value>, t: Transformation): Step<Value> {
    if s.result.Err? then s else Apply(fuel, reg, t, s.result.value, s.store)
  }

  /** Running `xs + ys` is running `xs`, then running `ys` on its result. */
  lemma {:induction false} ChainAppend(fuel: nat, reg: Registry, xs: seq<Transformation>, ys: seq<Transformation>,
                                        data: Value, st: Store)
    ensures var a := ApplyChain(fuel, reg, xs, data, st);
      ApplyChain(fuel, reg, xs + ys, data, st) ==
        if a.result.Err? then a else ApplyChain(fuel, reg, ys, a.result.value, a.store)
    decreases |xs|
  {
    if xs == [] {
      assert xs + ys == ys;
    } else {
      assert (xs + ys)[0] == xs[0] && (xs + ys)[1..] == xs[1..] + ys;
      var first := Apply(fuel, reg, xs[0], data, st);
      if first.result.Ok? {
        ChainAppend(fuel, reg, xs[1..], ys, first.result.value, first.store);
      }
    }
  }

  /** A one-step chain behaves as its step. */
  lemma ChainSingle(fuel: nat, reg: Registry, t: Transformation, data: Value, st: Store)
    ensures ApplyChain(fuel, reg, [t], data, st) == Apply(fuel, reg, t, data, st)
  {
    assert [t][1..] == [];
  }

  /** `x | y` applies `x`, then feeds its result into `y`. */
  lemma PipeMeaning(fuel: nat, reg: Registry, x: Transformation, y: Transformation, data: Value, st: Store)
    ensures Apply(fuel, reg, Pipe(x, y), data, st) == AndThen(fuel, reg, Apply(fuel, reg, x, data, st), y)
  {
    if x.Concat? {
      ChainAppend(fuel, reg, x.steps, [y], data, st);
      var a := ApplyChain(fuel, reg, x.steps, data, st);
      if a.result.Ok? {
        ChainSingle(fuel, reg, y, a.result.value, a.store);
      }
    } else {
      ChainAppend(fuel, reg, [x], [y], data, st);
      assert [x] + [y] == [x, y];
      ChainSingle(fuel, reg, x, data, st);
      var a := Apply(fuel, reg, x, data, st);
      if a.result.Ok? {
        ChainSingle(fuel, reg, y, a.result.value, a.store);
      }
    }
  }

  /** `(a | b) | c` and `a | (b | c)` both compute `c(b(a(x)))`. */
  lemma PipeAssociative(fuel: nat, reg: Registry, a: Transformation, b: Transformation, c: Transformation,
                        data: Value, st: Store)
    ensures Apply(fuel, reg, Pipe(Pipe(a, b), c), data, st) == Apply(fuel, reg, Pipe(a, Pipe(b, c)), data, st)
    ensures Apply(fuel, reg, Pipe(Pipe(a, b), c), data, st) ==
      AndThen(fuel, reg, AndThen(fuel, reg, Apply(fuel, reg, a, data, st), b), c)
  {
    PipeMeaning(fuel, reg, Pipe(a, b), c, data, st);
    PipeMeaning(fuel, reg, a, b, data, st);
    PipeMeaning(fuel, reg, a, Pipe(b, c), data, st);
    var sa := Apply(fuel, reg, a, data, st);
    if sa.result.Ok? {
      PipeMeaning(fuel, reg, b, c, sa.result.value, sa.store);
    }
  }

  /** Splicing a nested chain into its parent does not change what the parent computes. */
  lemma Flatten(fuel: nat, reg: Registry, xs: seq<Transformation>, ys: seq<Transformation>, zs: seq<Transformation>,
                data: Value, st: Store)
    ensures Apply(fuel, reg, Concat(xs + [Concat(ys)] + zs), data, st) == Apply(fuel, reg, Concat(xs + ys + zs), data, st)
  {
    ChainAppend(fuel, reg, xs + [Concat(ys)], zs, data, st);
    ChainAppend(fuel, reg, xs, [Concat(ys)], data, st);
    ChainAppend(fuel, reg, xs + ys, zs, data, st);
    ChainAppend(fuel, reg, xs, ys, data, st);
    var a := ApplyChain(fuel, reg, xs, data, st);
    if a.result.Ok? {
      ChainSingle(fuel, reg, Concat(ys), a.result.value, a.store);
    }
  }

  /** Chains built only from lookups, callables, attribute reads and filters. */
  predicate ReadOnly(t: Transformation) {
    match t
    case Concat(steps) => forall k :: 0 <= k < |steps| ==> ReadOnly(steps[k])
    case _ => StoreFree(t) || t.Attr?
  }

  lemma {:induction false} ReadOnlyKeepsStore(fuel: nat, reg: Registry, t: Transformation, data: Value, st: Store)
    requires ReadOnly(t)
    ensures Apply(fuel, reg, t, data, st).store == st
    decreases t, 1
  {
    if t.Concat? {
      ReadOnlyChainKeepsStore(fuel, reg, t.steps, data, st);
    }
  }

  lemma {:induction false} ReadOnlyChainKeepsStore(fuel: nat, reg: Registry, steps: seq<Transformation>, data: Value, st: Store)
    requires forall k :: 0 <= k < |steps| ==> ReadOnly(steps[k])
    ensures ApplyChain(fuel, reg, steps, data, st).store == st
    decreases steps, 0
  {
    if steps != [] {
      ReadOnlyKeepsStore(fuel, reg, steps[0], data, st);
      var first := Apply(fuel, reg, steps[0], data, st);
      if first.result.Ok? {
        ReadOnlyChainKeepsStore(fuel, reg, steps[1..], first.result.value, st);
      }
    }
  }

  /** On a map of read-only chains, each generated keyword is its chain applied to the
      same data in the same session. */
  lemma {:induction false} ReadOnlyFields(fuel: nat, reg: Registry, fs: FieldMap, acc: map<string, Value>,
                                         data: Value, st: Store)
    requires forall k :: 0 <= k < |fs| ==> ReadOnly(fs[k].1)
    requires DistinctNames(fs)
    ensures var r := FieldsAcc(fuel, reg, fs, acc, data, st);
      && r.store == st
      && (r.result.Ok? ==> forall k :: 0 <= k < |fs| ==>
            Apply(fuel, reg, fs[k].1, data, st).result == Ok(r.result.value[fs[k].0]))
    decreases |fs|
  {
    if fs != [] {
      ReadOnlyKeepsStore(fuel, reg, fs[0].1, data, st);
      var first := Apply(fuel, reg, fs[0].1, data, st);
      if first.result.Ok? {
        var acc' := acc[fs[0].0 := first.result.value];
        ReadOnlyFields(fuel, reg, fs[1..], acc', data, st);
        var r := FieldsAcc(fuel, reg, fs[1..], acc', data, st);
        if r.result.Ok? {
          forall k | 0 <= k < |fs|
            ensures Apply(fuel, reg, fs[k].1, data, st).result == Ok(r.result.value[fs[k].0])
          {
            if k == 0 {
              FieldsKeepAcc(fuel, reg, fs[1..], acc', data, st, fs[0].0);
            } else {
              assert fs[k] == fs[1..][k - 1];
            }
          }
        }
      }
    }
  }

  /** A keyword already generated survives the later fields when none of them has its name. */
  lemma {:induction false} FieldsKeepAcc(fuel: nat, reg: Registry, fs: FieldMap, acc: map<string, Value>,
                                        data: Value, st: Store, name: string)
    requires name in acc && forall k :: 0 <= k < |fs| ==> fs[k].0 != name
    ensures var r := FieldsAcc(fuel, reg, fs, acc, data, st);
      r.result.Ok? ==> name in r.result.value && r.result.value[name] == acc[name]
    decreases |fs|
  {
    if fs != [] {
      var first := Apply(fuel, reg, fs[0].1, data, st);
      if first.result.Ok? {
        FieldsKeepAcc(fuel, reg, fs[1..], acc[fs[0].0 := first.result.value], data, first.store, name);
      }
    }
  }

  /** `generate_kwarg(model, key, ...)` is entry `key` of `generate_kwargs(model, ...)`
      when the model's chains only read. */
  lemma KwargIsEntryOfKwargs(fuel: nat, reg: Registry, model: Kind, key: string, data: Value, st: Store)
    requires model in reg && DistinctNames(reg[model])
    requires forall k :: 0 <= k < |reg[model]| ==> ReadOnly(reg[model][k].1)
    requires key in FieldNames(reg[model])
    ensures var all := Kwargs(fuel, reg, model, data, st);
      all.store == st &&
      (all.result.Ok? ==> Kwarg(fuel, reg, model, key, data, st) == Step(Ok(all.result.value[key]), st))
  {
    var fs := reg[model];
    ReadOnlyFields(fuel, reg, fs, map[], data, st);
    var t := Lookup(fs, key).value;
    var j :| 0 <= j < |fs| && fs[j] == (key, t);
    ReadOnlyKeepsStore(fuel, reg, t, data, st);
  }

  // ---------------------------------------------------------------------------------
  // Idempotency of GetOrCreate

  /** A chain that only reads or gets-or-creates (no `Create`, no `CreateMultiple`). */
  predicate NoCreate(t: Transformation) {
    match t
    case Create(_) => false
    case CreateMultiple(_) => false
    case Concat(steps) => forall k :: 0 <= k < |steps| ==> NoCreate(steps[k])
    case _ => true
  }

  predicate RegistryNoCreate(reg: Registry) {
    forall m, k :: m in reg && 0 <= k < |reg[m]| ==> NoCreate(reg[m][k].1)
  }

  /** Once a query has an answer, constructing and adding more cannot change it. */
  lemma QueryStable(st: Store, later: Store, kind: Kind, kwargs: map<string, Value>)
    requires st.Valid() && Extends(st, later) && Query(st, kind, kwargs).Some?
    ensures Query(later, kind, kwargs) == Query(st, kind, kwargs)
  {
    var p := FirstPos(st.heap, st.added, kind, kwargs).value;
    forall q | 0 <= q <= p
      ensures later.added[q] == st.added[q]
      ensures IsMatch(later.heap, later.added[q], kind, kwargs) == IsMatch(st.heap, st.added[q], kind, kwargs)
    {
      assert later.added[..|st.added|][q] == later.added[q];
      assert st.added[q] in st.added;
      ExtendsAt(st, later, st.added[q]);
    }
    var p' := FirstPos(later.heap, later.added, kind, kwargs);
    assert p'.Some? && p'.value == p;
  }

  /** After a `GetOrCreate` constructed a new instance for `kwargs`, that instance is
      the answer to the same query from then on. */
  lemma QueryFindsNew(st: Store, later: Store, kind: Kind, kwargs: map<string, Value>)
    requires st.Valid() && Query(st, kind, kwargs).None?
    requires var (s, i) := Construct(st, kind, kwargs); Extends(Commit(Add(s, i)), later)
    ensures Query(later, kind, kwargs) == Some(|st.heap|)
  {
    var (s, i) := Construct(st, kind, kwargs);
    var s1 := Commit(Add(s, i));
    assert i !in st.added;
    assert s1.added == st.added + [i];
    var n := |st.added|;
    ExtendsAt(s1, later, i);
    assert later.added[..|s1.added|][n] == later.added[n];
    forall q | 0 <= q < n
      ensures later.added[q] == st.added[q]
      ensures !IsMatch(later.heap, later.added[q], kind, kwargs)
    {
      assert later.added[..|s1.added|][q] == later.added[q];
      assert st.added[q] in st.added;
      ExtendsAt(s1, later, st.added[q]);
    }
    var p' := FirstPos(later.heap, later.added, kind, kwargs);
    assert IsMatch(later.heap, later.added[n], kind, kwargs);
    assert p'.Some? && p'.value == n;
  }

  /**
   * Evaluating a chain without `Create` a second time, in any session that extends
   * the one the first evaluation left, gives the same value and changes nothing.
   */
  lemma {:induction false} ApplyAgain(fuel: nat, reg: Registry, t: Transformation, data: Value, st: Store, later: Store)
    requires RegistryNoCreate(reg) && NoCreate(t) && st.Valid()
    requires Apply(fuel, reg, t, data, st).result.Ok?
    requires Extends(Apply(fuel, reg, t, data, st).store, later)
    ensures Apply(fuel, reg, t, data, later) == Step(Apply(fuel, reg, t, data, st).result, later)
    decreases fuel, 0, t
  {
    var first := Apply(fuel, reg, t, data, st);
    ExtendsTrans(st, first.store, later);
    match t
    case Attr(name) =>
      if data.VRef? && data.id < |st.heap| {
        ExtendsAt(st, later, data.id);
      }
    case GetOrCreate(model) =>
      GetOrCreateAgain(fuel - 1, reg, model, data, st, later);
    case Concat(steps) =>
      ChainAgain(fuel, reg, steps, data, st, later);
    case _ =>
  }

  lemma {:induction false} ChainAgain(fuel: nat, reg: Registry, steps: seq<Transformation>, data: Value,
                                     st: Store, later: Store)
    requires RegistryNoCreate(reg) && st.Valid()
    requires forall k :: 0 <= k < |steps| ==> NoCreate(steps[k])
    requires ApplyChain(fuel, reg, steps, data, st).result.Ok?
    requires Extends(ApplyChain(fuel, reg, steps, data, st).store, later)
    ensures ApplyChain(fuel, reg, steps, data, later) == Step(ApplyChain(fuel, reg, steps, data, st).result, later)
    decreases fuel, 0, steps
  {
    if steps != [] {
      var first := Apply(fuel, reg, steps[0], data, st);
      var rest := ApplyChain(fuel, reg, steps[1..], first.result.value, first.store);
      ExtendsTrans(first.store, rest.store, later);
      ApplyAgain(fuel, reg, steps[0], data, st, later);
      ChainAgain(fuel, reg, steps[1..], first.result.value, first.store, later);
    }
  }

  lemma {:induction false} FieldsAgain(fuel: nat, reg: Registry, fs: FieldMap, acc: map<string, Value>, data: Value,
                                      st: Store, later: Store)
    requires RegistryNoCreate(reg) && st.Valid()
    requires forall k :: 0 <= k < |fs| ==> NoCreate(fs[k].1)
    requires FieldsAcc(fuel, reg, fs, acc, data, st).result.Ok?
    requires Extends(FieldsAcc(fuel, reg, fs, acc, data, st).store, later)
    ensures FieldsAcc(fuel, reg, fs, acc, data, later) == Step(FieldsAcc(fuel, reg, fs, acc, data, st).result, later)
    decreases fuel, 1, |fs|
  {
    if fs != [] {
      var first := Apply(fuel, reg, fs[0].1, data, st);
      var acc' := acc[fs[0].0 := first.result.value];
      var rest := FieldsAcc(fuel, reg, fs[1..], acc', data, first.store);
      ExtendsTrans(first.store, rest.store, later);
      ApplyAgain(fuel, reg, fs[0].1, data, st, later);
      FieldsAgain(fuel, reg, fs[1..], acc', data, first.store, later);
    }
  }

  lemma KwargsAgain(fuel: nat, reg: Registry, model: Kind, data: Value, st: Store, later: Store)
    requires RegistryNoCreate(reg) && st.Valid()
    requires Kwargs(fuel, reg, model, data, st).result.Ok?
    requires Extends(Kwargs(fuel, reg, model, data, st).store, later)
    ensures Kwargs(fuel, reg, model, data, later) == Step(Kwargs(fuel, reg, model, data, st).result, later)
    decreases fuel, 2, 0
  {
    FieldsAgain(fuel, reg, reg[model], map[], data, st, later);
  }

  /**
   * Get-or-create by key: once `GetOrCreate(model)` has resolved `data` to an
   * instance, any later call whose generated keyword arguments are the same (same
   * data, or other data with the same key fields) resolves to that same instance
   * and leaves the session as it is.
   */
  lemma {:induction false} GetOrCreateSameKey(fuel: nat, reg: Registry, model: Kind, data: Value, other: Value,
                                             st: Store, later: Store)
    requires st.Valid()
    requires ApplyGetOrCreate(fuel, reg, model, data, st).result.Ok?
    requires Extends(ApplyGetOrCreate(fuel, reg, model, data, st).store, later)
    requires Kwargs(fuel, reg, model, other, later) == Step(Kwargs(fuel, reg, model, data, st).result, later)
    ensures ApplyGetOrCreate(fuel, reg, model, other, later) ==
      Step(ApplyGetOrCreate(fuel, reg, model, data, st).result, later)
  {
    var k := Kwargs(fuel, reg, model, data, st);
    var kwargs := k.result.value;
    match Query(k.store, model, kwargs)
    case Some(i) =>
      QueryStable(k.store, later, model, kwargs);
    case None =>
      QueryFindsNew(k.store, later, model, kwargs);
  }

  lemma GetOrCreateAgain(fuel: nat, reg: Registry, model: Kind, data: Value, st: Store, later: Store)
    requires RegistryNoCreate(reg) && st.Valid()
    requires ApplyGetOrCreate(fuel, reg, model, data, st).result.Ok?
    requires Extends(ApplyGetOrCreate(fuel, reg, model, data, st).store, later)
    ensures ApplyGetOrCreate(fuel, reg, model, data, later) ==
      Step(ApplyGetOrCreate(fuel, reg, model, data, st).result, later)
    decreases fuel, 5, 0
  {
    var k := Kwargs(fuel, reg, model, data, st);
    var first := ApplyGetOrCreate(fuel, reg, model, data, st);
    ExtendsTrans(k.store, first.store, later);
    KwargsAgain(fuel, reg, model, data, st, later);
    GetOrCreateSameKey(fuel, reg, model, data, data, st, later);
  }

  /** Two consecutive `GetOrCreate` calls on the same data return the same instance,
      and the second leaves the session unchanged. */
  lemma GetOrCreateTwice(fuel: nat, reg: Registry, model: Kind, data: Value, st: Store)
    requires RegistryNoCreate(reg) && st.Valid()
    requires Apply(fuel, reg, GetOrCreate(model), data, st).result.Ok?
    ensures var first := Apply(fuel, reg, GetOrCreate(model), data, st);
      Apply(fuel, reg, GetOrCreate(model), data, first.store) == first
  {
    var first := Apply(fuel, reg, GetOrCreate(model), data, st);
    ExtendsRefl(first.store);
    ApplyAgain(fuel, reg, GetOrCreate(model), data, st, first.store);
  }

  /** The instance `GetOrCreate` returns agrees with every generated keyword argument. */
  lemma GetOrCreateAgrees(fuel: nat, reg: Registry, model: Kind, data: Value, st: Store)
    requires ApplyGetOrCreate(fuel, reg, model, data, st).result.Ok?
    ensures var k := Kwargs(fuel, reg, model, data, st);
      var r := ApplyGetOrCreate(fuel, reg, model, data, st);
      k.result.Ok? && IsMatch(r.store.heap, r.result.value.id, model, k.result.value)
  {
  }

  /** When an instance of `model` agreeing with all generated keyword arguments is
      already stored, `GetOrCreate` returns the first one and adds nothing. */
  lemma GetOrCreateFinds(fuel: nat, reg: Registry, model: Kind, data: Value, st: Store)
    requires var k := Kwargs(fuel, reg, model, data, st);
      k.result.Ok? && Query(k.store, model, k.result.value).Some?
    ensures var k := Kwargs(fuel, reg, model, data, st);
      ApplyGetOrCreate(fuel, reg, model, data, st) == Step(Ok(VRef(Query(k.store, model, k.result.value).value)), k.store)
  {
  }

  /** When no such instance exists, `GetOrCreate` constructs one from the keyword
      arguments, adds it and commits: the session grows by exactly that instance. */
  lemma GetOrCreateCreates(fuel: nat, reg: Registry, model: Kind, data: Value, st: Store)
    requires st.Valid()
    requires var k := Kwargs(fuel, reg, model, data, st);
      k.result.Ok? && Query(k.store, model, k.result.value).None?
    ensures var k := Kwargs(fuel, reg, model, data, st);
      var r := ApplyGetOrCreate(fuel, reg, model, data, st);
      && r.result == Ok(VRef(|k.store.heap|))
      && r.store.heap == k.store.heap + [Entity(model, k.result.value)]
      && r.store.added == k.store.added + [|k.store.heap|]
      && r.store.committed == |r.store.added|
  {
    var k := Kwargs(fuel, reg, model, data, st);
    assert |k.store.heap| !in k.store.added;
  }
}
