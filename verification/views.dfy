/** The structure a chain of contextual proxies forms, and the reference
    definitions the lookup and update rules are measured against. */
module Views {
  import opened Values

  /** What a proxy was given as its parent. `NoParent` stands for an omitted,
      `undefined` or `null` parent: the handler tests `if (parent)`. */
  datatype Parent = NoParent | Plain(obj: Obj) | Chained(view: View)

  /** One contextual proxy: the wrapped target, its private overlay of
      contextual variables, and its parent. */
  datatype View = View(target: Obj, contextual: Obj, parent: Parent)

  /** Number of ancestors reachable from a parent link. */
  function Depth(p: Parent): nat
  {
    match p
    case NoParent => 0
    case Plain(_) => 1
    case Chained(v) => 1 + Depth(v.parent)
  }

  /** The i-th ancestor, counting the direct parent as 0: follow i parent links. */
  function Ancestor(p: Parent, i: nat): (a: Parent)
    requires i < Depth(p)
    ensures a != NoParent
  {
    if i == 0 then p else Ancestor(p.view.parent, i - 1)
  }

  /** The last view of the chain: the first one whose parent is not a view. */
  function Root(v: View): (r: View)
    ensures !r.parent.Chained?
  {
    match v.parent
    case Chained(p) => Root(p)
    case _ => v
  }

  /** Every key the chain can resolve, with the value that wins: the parent's
      scope, overridden by the target, overridden by the overlay. This is the
      layered-scope reading of a proxy, stated as one map. */
  function Scope(v: View): Obj
  {
    ParentScope(v.parent) + v.target + v.contextual
  }

  function ParentScope(p: Parent): Obj
  {
    match p
    case NoParent => map[]
    case Plain(o) => o
    case Chained(v) => Scope(v)
  }
}
