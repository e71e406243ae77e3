/**
 * The acquisition engine as objects: the database session the combinators write
 * into, the `Pipeline` with its mutable registry and the calls that run chains
 * against a session, and the transformation objects that `|` joins, in place when
 * the left operand is already a `_CONCAT`.
 *
 * Each method is proved against the function of the same operation in `Semantics`:
 * its result and the session it leaves are exactly what that function computes.
 */
module Engine {
  import opened Values
  import opened Transformations
  import opened Semantics
  import opened ChainLaws

  /** A database session: the instances it has seen, the ones added, and how many of
      those are committed. */
  class Session {
    var heap: seq<Entity>
    var added: seq<nat>
    var committed: nat

    function State(): Store
      reads this
    {
      Store(heap, added, committed)
    }

    constructor (st: Store)
      ensures State() == st
    {
      heap := st.heap;
      added := st.added;
      committed := st.committed;
    }

    /** `session.add(instance)`. */
    method Add(i: nat)
      modifies this
      ensures State() == Values.Add(old(State()), i)
    {
      if i !in added {
        added := added + [i];
      }
    }

    /** `session.add_all(instances)`: each instance added in turn. */
    method AddAll(ids: seq<nat>)
      modifies this
      ensures State() == Values.AddAll(old(State()), ids)
    {
      var k := 0;
      while k < |ids|
        invariant 0 <= k <= |ids|
        invariant Values.AddAll(State(), ids[k..]) == Values.AddAll(old(State()), ids)
      {
        assert ids[k..][1..] == ids[k + 1..];
        Add(ids[k]);
        k := k + 1;
      }
    }

    /** `session.commit()`. */
    method Commit()
      modifies this
      ensures State() == Values.Commit(old(State()))
    {
      committed := |added|;
    }

    /** `model(**kwargs)`: a new instance, known to the session but not added. */
    method Construct(kind: Kind, kwargs: map<string, Value>) returns (i: nat)
      modifies this
      ensures (State(), i) == Values.Construct(old(State()), kind, kwargs)
    {
      i := |heap|;
      heap := heap + [Entity(kind, kwargs)];
    }

    /** `setattr(instance, name, v)` on an instance the session knows. */
    method SetField(i: nat, name: string, v: Value)
      requires i < |heap|
      modifies this
      ensures heap == old(heap)[i := old(heap)[i].(fields := old(heap)[i].fields[name := v])]
      ensures added == old(added) && committed == old(committed)
    {
      heap := heap[i := heap[i].(fields := heap[i].fields[name := v])];
    }
  }

  /** A `Pipeline`: one transformation map per model. */
  class Pipeline {
    var transformations: Registry

    /** `Pipeline(transformations)`: a missing (or empty) registry starts empty. */
    constructor (init: Option<Registry>)
      ensures transformations == if init.Some? then init.value else map[]
    {
      transformations := if init.Some? then init.value else map[];
    }

    /** `add_transformation(model, fs)`: installs or replaces the map of `model` alone. */
    method AddTransformation(model: Kind, fs: FieldMap)
      modifies this
      ensures model in transformations && transformations[model] == fs
      ensures transformations.Keys == old(transformations).Keys + {model}
      ensures forall m :: m in old(transformations) && m != model ==> transformations[m] == old(transformations)[m]
    {
      transformations := transformations[model := fs];
    }

    /** `transformation(pipeline, data, session)`. */
    method Call(fuel: nat, t: Transformation, data: Value, session: Session) returns (r: Result<Value>)
      modifies session
      ensures Step(r, session.State()) == Apply(fuel, transformations, t, data, old(session.State()))
      decreases fuel, 0, t
    {
      match t
      case Get(key) =>
        r := Subscript(data, key);
      case Custom(func) =>
        r := func(data);
      case Attr(name) =>
        r := Attribute(session.heap, data, name);
      case Filter(pred) =>
        if !data.VList? {
          r := Err(TypeError);
        } else {
          var kept := Keep(data.items, pred);
          r := if kept.Ok? then Ok(VList(kept.value)) else Err(kept.error);
        }
      case Gather(names) =>
        r := GatherFrom(data, names);
      case GetOrCreate(model) =>
        if fuel == 0 {
          r := Err(NestingTooDeep);
        } else {
          r := GetOrCreateInstance(fuel - 1, model, data, session);
        }
      case Create(model) =>
        if fuel == 0 {
          r := Err(NestingTooDeep);
        } else {
          r := CreateInstance(fuel - 1, model, data, session);
        }
      case CreateMultiple(model) =>
        if !data.VList? {
          r := Err(TypeError);
        } else if fuel == 0 {
          r := Err(NestingTooDeep);
        } else {
          r := CreateInstances(fuel - 1, model, data.items, session);
        }
      case Concat(steps) =>
        // `_CONCAT`: `res` is fed through the steps from left to right
        var res := data;
        var i := 0;
        assert steps[0..] == steps;
        while i < |steps|
          invariant 0 <= i <= |steps|
          invariant ApplyChain(fuel, transformations, steps[i..], res, session.State()) ==
                    ApplyChain(fuel, transformations, steps, data, old(session.State()))
        {
          assert steps[i..][0] == steps[i] && steps[i..][1..] == steps[i + 1..];
          var x := Call(fuel, steps[i], res, session);
          if x.Err? {
            return x;
          }
          res := x.value;
          i := i + 1;
        }
        r := Ok(res);
    }

    /** `generate_kwargs(model, data, session)`: the model's fields in map order. */
    method GenerateKwargs(fuel: nat, model: Kind, data: Value, session: Session) returns (r: Result<map<string, Value>>)
      modifies session
      ensures Step(r, session.State()) == Kwargs(fuel, transformations, model, data, old(session.State()))
      decreases fuel, 2, 0
    {
      if model !in transformations {
        return Err(KeyError);
      }
      var fs := transformations[model];
      var acc: map<string, Value> := map[];
      var i := 0;
      assert fs[0..] == fs;
      while i < |fs|
        invariant 0 <= i <= |fs|
        invariant FieldsAcc(fuel, transformations, fs[i..], acc, data, session.State()) ==
                  Kwargs(fuel, transformations, model, data, old(session.State()))
      {
        assert fs[i..][0] == fs[i] && fs[i..][1..] == fs[i + 1..];
        var v := Call(fuel, fs[i].1, data, session);
        if v.Err? {
          return Err(v.error);
        }
        acc := acc[fs[i].0 := v.value];
        i := i + 1;
      }
      r := Ok(acc);
    }

    /** `generate_kwarg(model, key, data, session)`. */
    method GenerateKwarg(fuel: nat, model: Kind, key: string, data: Value, session: Session) returns (r: Result<Value>)
      modifies session
      ensures Step(r, session.State()) == Kwarg(fuel, transformations, model, key, data, old(session.State()))
      decreases fuel, 2, 0
    {
      if model !in transformations {
        return Err(KeyError);
      }
      match Lookup(transformations[model], key)
      case None =>
        r := Err(KeyError);
      case Some(t) =>
        r := Call(fuel, t, data, session);
    }

    /** `create(model, data, session)`: built from the generated arguments, not added. */
    method Create(fuel: nat, model: Kind, data: Value, session: Session) returns (r: Result<nat>)
      modifies session
      ensures Step(r, session.State()) == CreateOne(fuel, transformations, model, data, old(session.State()))
      decreases fuel, 3, 0
    {
      var kwargs := GenerateKwargs(fuel, model, data, session);
      if kwargs.Err? {
        return Err(kwargs.error);
      }
      var i := session.Construct(model, kwargs.value);
      r := Ok(i);
    }

    /** `create_multiple(model, data, session)`, consumed in full. */
    method CreateMultiple(fuel: nat, model: Kind, data: Value, session: Session) returns (r: Result<seq<nat>>)
      modifies session
      ensures Step(r, session.State()) == CreateRows(fuel, transformations, model, data, old(session.State()))
    {
      if !data.VList? {
        return Err(TypeError);
      }
      r := CreateEachRow(fuel, model, data.items, session);
    }

    /** `create` on each row in turn. */
    method CreateEachRow(fuel: nat, model: Kind, rows: seq<Value>, session: Session) returns (r: Result<seq<nat>>)
      modifies session
      ensures Step(r, session.State()) == CreateEach(fuel, transformations, model, rows, [], old(session.State()))
      ensures r.Ok? ==> |r.value| == |rows| && forall k :: 0 <= k < |rows| ==>
        r.value[k] < |session.heap| &&
        BuiltFrom(fuel, transformations, model, rows[k], old(session.State()), session.heap[r.value[k]])
      decreases fuel, 4, 0
    {
      ghost var st := session.State();
      var instances: seq<nat> := [];
      var k := 0;
      assert rows[0..] == rows;
      while k < |rows|
        invariant 0 <= k <= |rows|
        invariant forall j :: 0 <= j < |instances| ==> instances[j] < |session.heap|
        invariant CreateEach(fuel, transformations, model, rows[k..], instances, session.State()) ==
                  CreateEach(fuel, transformations, model, rows, [], old(session.State()))
      {
        assert rows[k..][0] == rows[k] && rows[k..][1..] == rows[k + 1..];
        var one := Create(fuel, model, rows[k], session);
        if one.Err? {
          return Err(one.error);
        }
        instances := instances + [one.value];
        k := k + 1;
      }
      r := Ok(instances);
      CreateEachBuilds(fuel, transformations, model, rows, [], st);
    }

    /** The `GetOrCreate` combinator. */
    method GetOrCreateInstance(fuel: nat, model: Kind, data: Value, session: Session) returns (r: Result<Value>)
      modifies session
      ensures Step(r, session.State()) == ApplyGetOrCreate(fuel, transformations, model, data, old(session.State()))
      decreases fuel, 5, 0
    {
      var kwargs := GenerateKwargs(fuel, model, data, session);
      if kwargs.Err? {
        return Err(kwargs.error);
      }
      var instance := Query(session.State(), model, kwargs.value);
      if instance.None? {
        var i := session.Construct(model, kwargs.value);
        session.Add(i);
        session.Commit();
        instance := Some(i);
      }
      r := Ok(VRef(instance.value));
    }

    /** The `Create` combinator. */
    method CreateInstance(fuel: nat, model: Kind, data: Value, session: Session) returns (r: Result<Value>)
      modifies session
      ensures Step(r, session.State()) == ApplyCreate(fuel, transformations, model, data, old(session.State()))
      decreases fuel, 5, 0
    {
      var instance := Create(fuel, model, data, session);
      if instance.Err? {
        return Err(instance.error);
      }
      session.Add(instance.value);
      session.Commit();
      r := Ok(VRef(instance.value));
    }

    /** The `CreateMultiple` combinator: create per row, then `add_all` and one commit. */
    method CreateInstances(fuel: nat, model: Kind, rows: seq<Value>, session: Session) returns (r: Result<Value>)
      modifies session
      ensures Step(r, session.State()) == ApplyCreateMultiple(fuel, transformations, model, rows, old(session.State()))
      ensures r.Ok? ==> r.value.VList? && |r.value.items| == |rows| && forall k :: 0 <= k < |rows| ==>
        r.value.items[k].VRef? && r.value.items[k].id < |session.heap| &&
        BuiltFrom(fuel, transformations, model, rows[k], old(session.State()), session.heap[r.value.items[k].id])
      decreases fuel, 5, 0
    {
      ApplyCreateMultipleBuilds(fuel, transformations, model, rows, session.State());
      var instances := CreateEachRow(fuel, model, rows, session);
      if instances.Err? {
        return Err(instances.error);
      }
      session.AddAll(instances.value);
      session.Commit();
      r := Ok(VList(Refs(instances.value)));
    }
  }

  /** The right operand of `|`: a transformation object, or any other Python object. */
  datatype Operand = Chainable(obj: TransformationObject) | Other

  /**
   * A transformation object: a combinator instance with its bound arguments, or a
   * `_CONCAT` whose argument list `args` is a field that `|` appends to in place.
   */
  class TransformationObject {
    var isConcat: bool
    var leaf: Transformation
    var args: seq<Transformation>

    /** Only a `_CONCAT` object holds a chain. */
    predicate Valid()
      reads this
    {
      !isConcat ==> !leaf.Concat?
    }

    /** The transformation this object currently computes. */
    function Denotes(): Transformation
      reads this
    {
      if isConcat then Concat(args) else leaf
    }

    /** `Combinator(*args)` for a combinator class made by `from_func`. */
    constructor Of(t: Transformation)
      ensures Valid() && Denotes() == t
      ensures isConcat <==> t.Concat?
    {
      isConcat := t.Concat?;
      leaf := t;
      args := if t.Concat? then t.steps else [];
    }

    /** `self | other`. */
    method Or(other: Operand) returns (r: Result<TransformationObject>)
      requires Valid()
      modifies this
      ensures r.Ok? ==> r.value.Valid()
      ensures other.Other? ==> r == Err(TypeError) && unchanged(this)
      ensures other.Chainable? && old(isConcat) ==>
        r == Ok(this) && isConcat && args == old(args) + [old(other.obj.Denotes())]
      ensures other.Chainable? && !old(isConcat) ==>
        r.Ok? && fresh(r.value) && unchanged(this) && r.value.isConcat &&
        r.value.args == [old(Denotes()), old(other.obj.Denotes())]
      ensures other.Chainable? ==> r.Ok? && r.value.Denotes() == Pipe(old(Denotes()), old(other.obj.Denotes()))
    {
      if other.Other? {
        return Err(TypeError);
      }
      var right := other.obj.Denotes();
      if isConcat {
        args := args + [right];
        r := Ok(this);
      } else {
        var c := new TransformationObject.Of(Concat([Denotes(), right]));
        r := Ok(c);
      }
    }
  }

  /**
   * Bracketing does not matter: `(A | B) | C` and `A | (B | C)`, built from fresh
   * objects, evaluate the same on every input, namely `C(B(A(x)))`.
   */
  method ChainBothWays(a: Transformation, b: Transformation, c: Transformation)
    returns (left: TransformationObject, right: TransformationObject)
    ensures forall fuel: nat, reg, data, st ::
      Apply(fuel, reg, left.Denotes(), data, st) == Apply(fuel, reg, right.Denotes(), data, st)
    ensures forall fuel: nat, reg, data, st ::
      Apply(fuel, reg, left.Denotes(), data, st) ==
        AndThen(fuel, reg, AndThen(fuel, reg, Apply(fuel, reg, a, data, st), b), c)
  {
    var objA := new TransformationObject.Of(a);
    var objB := new TransformationObject.Of(b);
    var objC := new TransformationObject.Of(c);
    var ab := objA.Or(Chainable(objB));
    left := ab.value;
    var abc := left.Or(Chainable(objC));
    left := abc.value;

    var objA' := new TransformationObject.Of(a);
    var objB' := new TransformationObject.Of(b);
    var objC' := new TransformationObject.Of(c);
    var bc := objB'.Or(Chainable(objC'));
    var abc' := objA'.Or(Chainable(bc.value));
    right := abc'.value;

    assert left.Denotes() == Pipe(Pipe(a, b), c);
    assert right.Denotes() == Pipe(a, Pipe(b, c));
    forall fuel: nat, reg, data, st
      ensures Apply(fuel, reg, Pipe(Pipe(a, b), c), data, st) == Apply(fuel, reg, Pipe(a, Pipe(b, c)), data, st)
      ensures Apply(fuel, reg, Pipe(Pipe(a, b), c), data, st) ==
        AndThen(fuel, reg, AndThen(fuel, reg, Apply(fuel, reg, a, data, st), b), c)
    {
      PipeAssociative(fuel, reg, a, b, c, data, st);
    }
  }
}
