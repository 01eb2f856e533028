/** The handler of a contextual proxy (its `get`, `has` and `set` traps) and
    the factory that wraps a target. Reads search the overlay, then the target,
    then the parent chain; a handful of reserved names are answered first. */
module Proxy {
  import opened Values
  import opened Views

  const PARENT: string := "$parent"
  const PARENTS: string := "$parents"
  const THIS: string := "$this"

  /** Names the handler answers itself and never treats as data. */
  predicate Reserved(key: string)
    ensures Reserved(key) <==> key in {PARENT, PARENTS, THIS}
    ensures Reserved(key) ==> IsContextualName(key)
  {
    key == PARENT || key == PARENTS || key == THIS
  }

  /** The naming convention for contextual variables: the name starts
      with `$`. */
  predicate IsContextualName(key: string)
    ensures IsContextualName(key) <==> "$" <= key
  {
    |key| > 0 && key[0] == '$'
  }

  /** What a `get` on a proxy can produce: ordinary data, or one of the
      three reserved answers. */
  datatype Answer =
    | Data(value: Value)
    | ParentRef(parent: Parent)
    | Ancestors(chain: seq<Parent>)
    | Wrapped(target: Obj)

  /** The ancestor list behind `$parents`, nearest first. A plain parent
      ends the list: it has no `$parents` array of its own. */
  function Parents(v: View): (r: seq<Parent>)
    ensures |r| == Depth(v.parent)
    ensures forall i :: 0 <= i < |r| ==> r[i] == Ancestor(v.parent, i)
  {
    match v.parent
    case NoParent => []
    case Plain(_) => [v.parent]
    case Chained(p) => [v.parent] + Parents(p)
  }

  /** Ordinary read of a non-reserved key: overlay, then target, then parent;
      a miss with no parent reads as `undefined`. It finds exactly the value
      the flattened scope holds. */
  function Lookup(v: View, key: string): (r: Value)
    requires !Reserved(key)
    ensures r == Read(Scope(v), key)
  {
    if key in v.contextual then v.contextual[key]
    else if key in v.target then v.target[key]
    else match v.parent
      case NoParent => Undefined
      case Plain(o) => Read(o, key)
      case Chained(p) => Lookup(p, key)
  }

  /** The `get` trap. Reserved names win over any overlay or target entry of
      the same name. */
  function Get(v: View, key: string): (r: Answer)
    ensures key == PARENT ==> r == ParentRef(v.parent)
    ensures key == PARENTS ==> r.Ancestors? && |r.chain| == Depth(v.parent)
    ensures key == PARENTS ==>
              forall i :: 0 <= i < |r.chain| ==> r.chain[i] == Ancestor(v.parent, i)
    ensures key == THIS ==> r == Wrapped(v.target)
    ensures !Reserved(key) ==> r == Data(Read(Scope(v), key))
  {
    if key == PARENT then ParentRef(v.parent)
    else if key == PARENTS then Ancestors(Parents(v))
    else if key == THIS then Wrapped(v.target)
    else Data(Lookup(v, key))
  }

  /** The `has` trap. Presence is by key, never by value; `$parents` and
      `$this` are always present, `$parent` only when a parent was given. */
  function Has(v: View, key: string): (r: bool)
    ensures key == PARENT ==> (r <==> v.parent != NoParent)
    ensures key == PARENTS || key == THIS ==> r
    ensures !Reserved(key) ==> (r <==> key in Scope(v))
  {
    if key == PARENT then v.parent != NoParent
    else if key == PARENTS then true
    else if key == THIS then true
    else if key in v.contextual || key in v.target then true
    else match v.parent
      case NoParent => false
      case Plain(o) => key in o
      case Chained(p) => Has(p, key)
  }

  /** Outcome of a `set`: whether the write was accepted, and the chain
      afterwards. A refused write surfaces as a `TypeError` in strict mode. */
  datatype Write = Write(ok: bool, view: View)

  /** Creation of a key nobody owns, in the writing view itself: contextual
      names go to the overlay, anything else to the target. */
  function CreateLocal(v: View, key: string, value: Value): (w: Write)
    ensures w.ok
    ensures w.view.parent == v.parent
    ensures IsContextualName(key) ==>
              w.view.target == v.target && Read(w.view.contextual, key) == value
    ensures !IsContextualName(key) ==>
              w.view.contextual == v.contextual && Read(w.view.target, key) == value
    ensures w.view.contextual.Keys + w.view.target.Keys
         == v.contextual.Keys + v.target.Keys + {key}
    ensures forall k :: k != key ==>
              Read(w.view.contextual, k) == Read(v.contextual, k) &&
              Read(w.view.target, k) == Read(v.target, k)
    ensures w.view.contextual - {key} == v.contextual - {key}
    ensures w.view.target - {key} == v.target - {key}
  {
    if IsContextualName(key) then Write(true, v.(contextual := v.contextual[key := value]))
    else Write(true, v.(target := v.target[key := value]))
  }

  /** The `set` trap. A key the overlay or the target already holds is updated
      in place; any other key is handed to the parent unconditionally, and is
      created locally only when there is no parent or the parent refuses.
      In this model a parent never refuses a non-reserved write, so the local
      creation after a view parent's write mirrors the fallback of the
      handler but is never taken. */
  function Set(v: View, key: string, value: Value): (w: Write)
    ensures w.ok <==> !Reserved(key)
    ensures !w.ok ==> w.view == v
    ensures Depth(w.view.parent) == Depth(v.parent)
    ensures w.ok && key in v.contextual ==>
              w.view == v.(contextual := v.contextual[key := value])
    ensures w.ok && key !in v.contextual && key in v.target ==>
              w.view == v.(target := v.target[key := value])
    ensures w.ok && key !in v.contextual && key !in v.target && v.parent != NoParent ==>
              w.view.target == v.target && w.view.contextual == v.contextual
    ensures w.ok && key !in v.contextual && key !in v.target && v.parent.Plain? ==>
              w.view.parent == Plain(v.parent.obj[key := value])
    ensures w.ok && key !in v.contextual && key !in v.target && v.parent.Chained? ==>
              w.view.parent == Chained(Set(v.parent.view, key, value).view)
    ensures w.ok && key !in v.contextual && key !in v.target && v.parent == NoParent ==>
              w == CreateLocal(v, key, value)
  {
    if Reserved(key) then Write(false, v)
    else if key in v.contextual then Write(true, v.(contextual := v.contextual[key := value]))
    else if key in v.target then Write(true, v.(target := v.target[key := value]))
    else match v.parent
      case NoParent => CreateLocal(v, key, value)
      case Plain(o) => Write(true, v.(parent := Plain(o[key := value])))
      case Chained(p) =>
        var up := Set(p, key, value);
        if up.ok then Write(true, v.(parent := Chained(up.view)))
        else CreateLocal(v, key, value)
  }

  /** What the factory is handed as the target. */
  datatype Target = Primitive(value: Value) | Object(fields: Obj)

  /** The `Proxy` constructor rejects a target that is not an object. */
  datatype Error = InvalidTarget

  datatype Result<T> = Success(value: T) | Failure(error: Error)

  /** The factory: wraps an object target with the given parent and overlay. */
  function Create(target: Target, parent: Parent, contextual: Obj): (r: Result<View>)
    ensures r.Success? <==> target.Object?
    ensures r.Failure? ==> r.error == InvalidTarget
    ensures r.Success? ==> Get(r.value, THIS) == Wrapped(target.fields)
    ensures r.Success? ==> Get(r.value, PARENT) == ParentRef(parent)
    ensures r.Success? ==> Scope(r.value) == ParentScope(parent) + target.fields + contextual
    ensures r.Success? ==>
              r.value.target == target.fields && r.value.contextual == contextual &&
              r.value.parent == parent
  {
    match target
    case Primitive(_) => Failure(InvalidTarget)
    case Object(fields) => Success(View(fields, contextual, parent))
  }

  /** The factory with the overlay left out: a fresh empty one, so the view
      resolves its target first and its parent after that. */
  function CreateDefault(target: Target, parent: Parent): (r: Result<View>)
    ensures r == Create(target, parent, map[])
    ensures r.Success? <==> target.Object?
    ensures r.Success? ==> Get(r.value, THIS) == Wrapped(target.fields)
    ensures r.Success? ==> Get(r.value, PARENT) == ParentRef(parent)
    ensures r.Success? ==> r.value.contextual == map[]
    ensures r.Success? ==> Scope(r.value) == ParentScope(parent) + target.fields
  {
    Create(target, parent, map[])
  }
}
