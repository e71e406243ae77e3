/**
 * The values the acquisition engine moves around: decoded JSON trees, references to
 * constructed entities, the errors Python would raise, and the database session
 * ("store") that materialisation reads and grows.
 */
module Values {

  /** The Python exceptions the modelled code can raise. `NestingTooDeep` stands for
      the interpreter's recursion limit, which the fuel of the evaluator makes explicit. */
  datatype Error =
    | KeyError
    | IndexError
    | TypeError
    | AttributeError
    | ValueError
    | RuntimeError
    | NestingTooDeep

  datatype Result<+T> = Ok(value: T) | Err(error: Error) {
    predicate IsFailure() { Err? }

    function PropagateFailure<U>(): Result<U>
      requires Err?
    {
      Err(error)
    }

    function Extract(): T
      requires Ok?
    {
      value
    }
  }

  datatype Option<+T> = None | Some(value: T)

  /** An entity kind stands for a model class (`Team`, `Group`, `Match`, `Season`). */
  type Kind = string

  /** A decoded JSON value, or a reference to an entity instance (by identity). */
  datatype Value =
    | VNull
    | VBool(b: bool)
    | VInt(i: int)
    | VStr(s: string)
    | VList(items: seq<Value>)
    | VMap(entries: map<string, Value>)
    | VRef(id: nat)

  /** The argument of `data[key]`: a dictionary key or a list position. */
  datatype Key = Name(name: string) | Index(index: int)

  /** A model instance: its class and the attributes it was constructed with
      (or that were later assigned to it). */
  datatype Entity = Entity(kind: Kind, fields: map<string, Value>)

  /**
   * The session state. `heap` holds every instance ever constructed, so that a
   * `VRef(i)` names `heap[i]` whether or not it was added; `added` lists the
   * instances handed to `session.add`, in order (the order rows reach the database);
   * the first `committed` of them have been committed.
   */
  datatype Store = Store(heap: seq<Entity>, added: seq<nat>, committed: nat) {
    ghost predicate Valid() {
      && (forall i :: i in added ==> i < |heap|)
      && committed <= |added|
    }
  }

  const EmptyStore := Store([], [], 0)

  /** Instance `i` is of class `kind` and agrees with every keyword of `kwargs`:
      the row `query(kind).filter_by(**kwargs)` selects. */
  predicate IsMatch(heap: seq<Entity>, i: nat, kind: Kind, kwargs: map<string, Value>) {
    && i < |heap|
    && heap[i].kind == kind
    && kwargs.Keys <= heap[i].fields.Keys
    && forall k :: k in kwargs ==> heap[i].fields[k] == kwargs[k]
  }

  /** The position in `ids` of the first matching instance. */
  function FirstPos(heap: seq<Entity>, ids: seq<nat>, kind: Kind, kwargs: map<string, Value>): (r: Option<nat>)
    ensures r.Some? ==> r.value < |ids| && IsMatch(heap, ids[r.value], kind, kwargs)
    ensures r.Some? ==> forall q :: 0 <= q < r.value ==> !IsMatch(heap, ids[q], kind, kwargs)
    ensures r.None? ==> forall q :: 0 <= q < |ids| ==> !IsMatch(heap, ids[q], kind, kwargs)
  {
    if ids == [] then None
    else if IsMatch(heap, ids[0], kind, kwargs) then Some(0)
    else match FirstPos(heap, ids[1..], kind, kwargs)
      case None => None
      case Some(p) => Some(p + 1)
  }

  /** `session.query(kind).filter_by(**kwargs).first()`: the earliest added match. */
  function Query(st: Store, kind: Kind, kwargs: map<string, Value>): (r: Option<nat>)
    ensures r.Some? ==> r.value in st.added && IsMatch(st.heap, r.value, kind, kwargs)
    ensures r.None? ==> forall i :: i in st.added ==> !IsMatch(st.heap, i, kind, kwargs)
  {
    match FirstPos(st.heap, st.added, kind, kwargs)
    case None => None
    case Some(p) => Some(st.added[p])
  }

  /** `kind(**kwargs)`: a new instance, not yet in the session. Returns its identity. */
  function Construct(st: Store, kind: Kind, kwargs: map<string, Value>): (Store, nat) {
    (st.(heap := st.heap + [Entity(kind, kwargs)]), |st.heap|)
  }

  /** `session.add(instance)`: adding an instance already in the session is a no-op. */
  function Add(st: Store, i: nat): Store {
    if i in st.added then st else st.(added := st.added + [i])
  }

  /** `session.add_all(instances)`. */
  function AddAll(st: Store, ids: seq<nat>): Store
    decreases |ids|
  {
    if ids == [] then st else AddAll(Add(st, ids[0]), ids[1..])
  }

  /** `session.commit()`: everything added so far is committed. */
  function Commit(st: Store): Store {
    st.(committed := |st.added|)
  }

  /** `later` was reached from `st` by constructing and adding only: nothing
      constructed or added before is lost or changed. */
  ghost predicate Extends(st: Store, later: Store) {
    && |st.heap| <= |later.heap|
    && later.heap[..|st.heap|] == st.heap
    && |st.added| <= |later.added|
    && later.added[..|st.added|] == st.added
  }

  /** The identities `ids` as a list of entity references. */
  function Refs(ids: seq<nat>): (r: seq<Value>)
    ensures |r| == |ids| && forall k :: 0 <= k < |ids| ==> r[k] == VRef(ids[k])
  {
    if ids == [] then [] else [VRef(ids[0])] + Refs(ids[1..])
  }

  lemma ExtendsRefl(st: Store)
    ensures Extends(st, st)
  {
  }

  lemma ExtendsTrans(a: Store, b: Store, c: Store)
    requires Extends(a, b) && Extends(b, c)
    ensures Extends(a, c)
  {
    assert c.heap[..|a.heap|] == c.heap[..|b.heap|][..|a.heap|];
    assert c.added[..|a.added|] == c.added[..|b.added|][..|a.added|];
  }

  /** An instance that existed before keeps its class and attributes. */
  lemma ExtendsAt(a: Store, b: Store, i: nat)
    requires Extends(a, b) && i < |a.heap|
    ensures i < |b.heap| && b.heap[i] == a.heap[i]
  {
    assert b.heap[..|a.heap|][i] == b.heap[i];
  }

  /** Constructing, adding and committing only ever extend the session. */
  lemma ConstructAddCommitExtend(st: Store, kind: Kind, kwargs: map<string, Value>)
    ensures var (s, i) := Construct(st, kind, kwargs);
      && Extends(st, s) && Extends(s, Add(s, i)) && Extends(Add(s, i), Commit(Add(s, i)))
      && (st.Valid() ==> s.Valid() && Add(s, i).Valid() && Commit(Add(s, i)).Valid())
  {
    var (s, i) := Construct(st, kind, kwargs);
    assert s.heap[..|st.heap|] == st.heap;
    assert Add(s, i).added[..|s.added|] == s.added;
  }

  lemma {:induction false} AddAllExtends(st: Store, ids: seq<nat>)
    requires forall k :: 0 <= k < |ids| ==> ids[k] < |st.heap|
    ensures Extends(st, AddAll(st, ids)) && AddAll(st, ids).heap == st.heap
    ensures st.Valid() ==> AddAll(st, ids).Valid()
    ensures forall k :: 0 <= k < |ids| ==> ids[k] in AddAll(st, ids).added
    decreases |ids|
  {
    if ids != [] {
      var s := Add(st, ids[0]);
      assert s.added[..|st.added|] == st.added;
      AddAllExtends(s, ids[1..]);
      ExtendsTrans(st, s, AddAll(s, ids[1..]));
      forall k | 0 <= k < |ids|
        ensures ids[k] in AddAll(st, ids).added
      {
        if k == 0 {
          assert ids[0] in s.added;
          var later := AddAll(s, ids[1..]);
          assert later.added[..|s.added|] == s.added;
          assert ids[0] in later.added[..|s.added|];
        } else {
          assert ids[k] == ids[1..][k - 1];
        }
      }
    }
  }

  /** `session.add(i)` followed by `session.commit()`. */
  lemma AddCommitExtends(st: Store, i: nat)
    requires i < |st.heap|
    ensures Extends(st, Commit(Add(st, i))) && Commit(Add(st, i)).heap == st.heap
    ensures i in Commit(Add(st, i)).added
    ensures st.Valid() ==> Commit(Add(st, i)).Valid()
  {
    assert Add(st, i).added[..|st.added|] == st.added;
  }
}
