/**
 * The combinators of the acquisition engine, each a transformation whose arguments
 * are bound when it is constructed, and the meaning of the ones that do not touch
 * the session: `Get`, `Custom`, `Attr`, `Filter` and `Gather`.
 */
module Transformations {
  import opened Values

  /**
   * A transformation value. Each constructor but the last is one combinator class
   * with its bound arguments; `Concat` is the `_CONCAT` chain built by `|`, which
   * threads the value through its steps from left to right. `Custom` and `Filter`
   * carry an arbitrary Python callable, which may itself raise.
   */
  datatype Transformation =
    | Get(key: Key)
    | Custom(func: Value -> Result<Value>)
    | Attr(attr: string)
    | Filter(pred: Value -> Result<bool>)
    | Gather(names: seq<string>)
    | GetOrCreate(model: Kind)
    | Create(model: Kind)
    | CreateMultiple(model: Kind)
    | Concat(steps: seq<Transformation>)

  /** True of the combinators that never read or write the session. */
  predicate StoreFree(t: Transformation) {
    t.Get? || t.Custom? || t.Filter? || t.Gather?
  }

  /** `data[key]`: a dictionary lookup or a (possibly negative) list or string index. */
  function Subscript(data: Value, key: Key): (r: Result<Value>)
    ensures data.VMap? && key.Name? ==>
      (r.Ok? <==> key.name in data.entries) && (r.Ok? ==> r.value == data.entries[key.name])
    ensures data.VMap? && key.Index? ==> r == Err(KeyError)
    ensures data.VList? && key.Index? ==>
      (r.Ok? <==> -|data.items| <= key.index < |data.items|) &&
      (r.Ok? ==> r.value in data.items &&
                 r.value == data.items[if key.index < 0 then key.index + |data.items| else key.index])
    ensures r.Err? && r.error == IndexError ==> (data.VList? || data.VStr?) && key.Index?
    ensures !data.VMap? && !data.VList? && !data.VStr? ==> r == Err(TypeError)
  {
    match (data, key)
    case (VMap(m), Name(k)) => if k in m then Ok(m[k]) else Err(KeyError)
    case (VMap(_), Index(_)) => Err(KeyError)
    case (VList(xs), Index(i)) =>
      if 0 <= i < |xs| then Ok(xs[i])
      else if -|xs| <= i < 0 then Ok(xs[i + |xs|])
      else Err(IndexError)
    case (VStr(s), Index(i)) =>
      if 0 <= i < |s| then Ok(VStr([s[i]]))
      else if -|s| <= i < 0 then Ok(VStr([s[i + |s|]]))
      else Err(IndexError)
    case _ => Err(TypeError)
  }

  /** `getattr(data, name)` on an entity reference: the attribute the instance holds. */
  function Attribute(heap: seq<Entity>, data: Value, name: string): (r: Result<Value>)
    ensures r.Ok? <==> data.VRef? && data.id < |heap| && name in heap[data.id].fields
    ensures r.Ok? ==> r.value == heap[data.id].fields[name]
    ensures r.Err? ==> r.error == AttributeError
  {
    if data.VRef? && data.id < |heap| && name in heap[data.id].fields
    then Ok(heap[data.id].fields[name])
    else Err(AttributeError)
  }

  /** `xs` can be obtained from `ys` by deleting elements. */
  ghost predicate IsSubsequence<T>(xs: seq<T>, ys: seq<T>)
    decreases |ys|
  {
    if xs == [] then true
    else if ys == [] then false
    else (xs[0] == ys[0] && IsSubsequence(xs[1..], ys[1..])) || IsSubsequence(xs, ys[1..])
  }

  /** How many elements of `xs` the predicate accepts. */
  ghost function Accepted(xs: seq<Value>, pred: Value -> Result<bool>): nat {
    if xs == [] then 0
    else (if pred(xs[0]) == Ok(true) then 1 else 0) + Accepted(xs[1..], pred)
  }

  /**
   * `[row for row in xs if pred(row)]`: the rows the predicate accepts, in their
   * original order (and, by their count, all of them); the first error the predicate
   * raises aborts the comprehension.
   */
  function Keep(xs: seq<Value>, pred: Value -> Result<bool>): (r: Result<seq<Value>>)
    ensures r.Ok? <==> forall k :: 0 <= k < |xs| ==> pred(xs[k]).Ok?
    ensures r.Err? ==> exists k :: 0 <= k < |xs| && pred(xs[k]) == Err(r.error)
    ensures r.Ok? ==> |r.value| <= |xs| && IsSubsequence(r.value, xs)
    ensures r.Ok? ==> forall k :: 0 <= k < |r.value| ==> pred(r.value[k]) == Ok(true)
    ensures r.Ok? ==> |r.value| == Accepted(xs, pred)
  {
    if xs == [] then Ok([])
    else
      match pred(xs[0])
      case Err(e) => Err(e)
      case Ok(b) =>
        match Keep(xs[1..], pred)
        case Err(e) => Err(e)
        case Ok(rest) =>
          if b then Ok([xs[0]] + rest)
          else (SubsequenceSkip(rest, xs); Ok(rest))
  }

  lemma {:induction false} SubsequenceSkip<T>(xs: seq<T>, ys: seq<T>)
    requires ys != [] && IsSubsequence(xs, ys[1..])
    ensures IsSubsequence(xs, ys)
  {
  }

  /** `{name: data[name] for name in names}`. */
  function GatherFrom(data: Value, names: seq<string>): (r: Result<Value>)
    ensures r.Ok? <==> names == [] || (data.VMap? && forall k :: 0 <= k < |names| ==> names[k] in data.entries)
    ensures r.Ok? ==> r.value.VMap? && r.value.entries.Keys == set k | 0 <= k < |names| :: names[k]
    ensures r.Ok? ==> forall n :: n in r.value.entries ==> data.VMap? && r.value.entries[n] == data.entries[n]
    ensures r.Err? ==> (r.error == KeyError <==> data.VMap?) && (r.error == TypeError <==> !data.VMap?)
  {
    if names == [] then Ok(VMap(map[]))
    else if !data.VMap? then Err(TypeError)
    else if forall k :: 0 <= k < |names| ==> names[k] in data.entries then
      Ok(VMap(map n | n in (set k | 0 <= k < |names| :: names[k]) :: data.entries[n]))
    else Err(KeyError)
  }
}
