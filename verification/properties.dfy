/** Properties that relate several calls of the handler: every write rebinds
    exactly one key of the flattened scope, reads see the write, a key nobody
    owns falls to the end of the chain, and repeating a write changes nothing. */
module Properties {
  import opened Values
  import opened Views
  import opened Proxy

  /** Rebinding a key in a lower layer of a union that an upper layer does
      not cover is rebinding it in the union. */
  lemma RebindBelow(s: Obj, t: Obj, c: Obj, key: string, value: Value)
    requires key !in t && key !in c
    ensures s[key := value] + t + c == (s + t + c)[key := value]
  {
  }

  lemma RebindMiddle(s: Obj, t: Obj, c: Obj, key: string, value: Value)
    requires key !in c
    ensures s + t[key := value] + c == (s + t + c)[key := value]
  {
  }

  lemma RebindTop(s: Obj, t: Obj, c: Obj, key: string, value: Value)
    ensures s + t + c[key := value] == (s + t + c)[key := value]
  {
  }

  /** The layer an ancestor contributes holds `key`: a view's overlay or
      target, or a plain parent object. */
  predicate LayerHolds(p: Parent, key: string)
  {
    match p
    case NoParent => false
    case Plain(o) => key in o
    case Chained(a) => key in a.contextual || key in a.target
  }

  /** An in-place write into the layer that holds `key`: the overlay wins
      over the target, a plain object takes the key itself. */
  function UpdateLayer(p: Parent, key: string, value: Value): Parent
  {
    match p
    case NoParent => NoParent
    case Plain(o) => Plain(o[key := value])
    case Chained(a) =>
      if key in a.contextual then Chained(a.(contextual := a.contextual[key := value]))
      else Chained(a.(target := a.target[key := value]))
  }

  /** Two links of the same chain carry the same data of their own. */
  predicate SameLayer(p: Parent, q: Parent)
  {
    if p.Chained? && q.Chained? then
      p.view.contextual == q.view.contextual && p.view.target == q.view.target
    else p == q
  }

  /** A write of a key the writer does not hold lands on the nearest ancestor
      that holds it: that ancestor's layer is updated in place (and keeps its
      own ancestors), and every ancestor in between keeps its overlay and
      target. */
  lemma {:induction false} WriteLandsAtOwner(v: View, key: string, value: Value, i: nat)
    requires !Reserved(key) && key !in v.contextual && key !in v.target
    requires i < Depth(v.parent) && LayerHolds(Ancestor(v.parent, i), key)
    requires forall j :: 0 <= j < i ==> !LayerHolds(Ancestor(v.parent, j), key)
    ensures var w := Set(v, key, value).view;
      Ancestor(w.parent, i) == UpdateLayer(Ancestor(v.parent, i), key, value)
    ensures var w := Set(v, key, value).view;
      forall j :: 0 <= j < i ==> SameLayer(Ancestor(w.parent, j), Ancestor(v.parent, j))
  {
    if i > 0 {
      assert !LayerHolds(Ancestor(v.parent, 0), key);
      var a := v.parent.view;
      assert Ancestor(a.parent, i - 1) == Ancestor(v.parent, i);
      forall j | 0 <= j < i - 1
        ensures !LayerHolds(Ancestor(a.parent, j), key)
      {
        assert Ancestor(a.parent, j) == Ancestor(v.parent, j + 1);
      }
      WriteLandsAtOwner(a, key, value, i - 1);
      var w := Set(v, key, value).view;
      var wa := Set(a, key, value).view;
      assert w.parent == Chained(wa);
      forall j | 0 <= j < i
        ensures SameLayer(Ancestor(w.parent, j), Ancestor(v.parent, j))
      {
        if j > 0 {
          assert Ancestor(w.parent, j) == Ancestor(wa.parent, j - 1);
          assert Ancestor(v.parent, j) == Ancestor(a.parent, j - 1);
        }
      }
    }
  }

  /** A successful write changes the chain's flattened scope in exactly one
      binding: `key` now maps to `value`, every other key resolves as before. */
  lemma {:induction false} SetRebindsScope(v: View, key: string, value: Value)
    requires !Reserved(key)
    ensures Scope(Set(v, key, value).view) == Scope(v)[key := value]
  {
    var ps := ParentScope(v.parent);
    if key in v.contextual {
      RebindTop(ps, v.target, v.contextual, key, value);
    } else if key in v.target {
      RebindMiddle(ps, v.target, v.contextual, key, value);
    } else {
      match v.parent
      case NoParent =>
        if IsContextualName(key) {
          RebindTop(ps, v.target, v.contextual, key, value);
        } else {
          RebindMiddle(ps, v.target, v.contextual, key, value);
        }
      case Plain(o) =>
        RebindBelow(ps, v.target, v.contextual, key, value);
      case Chained(p) =>
        SetRebindsScope(p, key, value);
        RebindBelow(ps, v.target, v.contextual, key, value);
    }
  }

  /** Read-after-write through the same view: the written key reads back as
      written and is present. */
  lemma ReadAfterWrite(v: View, key: string, value: Value)
    requires !Reserved(key)
    ensures Lookup(Set(v, key, value).view, key) == value
    ensures Has(Set(v, key, value).view, key)
  {
    SetRebindsScope(v, key, value);
  }

  /** A write leaves every other key reading and testing as before. */
  lemma WriteLeavesOtherKeys(v: View, key: string, value: Value, other: string)
    requires !Reserved(key) && !Reserved(other) && other != key
    ensures Lookup(Set(v, key, value).view, other) == Lookup(v, other)
    ensures Has(Set(v, key, value).view, other) == Has(v, other)
  {
    SetRebindsScope(v, key, value);
  }

  /** Writing the same value to the same key twice is the same as writing it
      once: the second write finds the owner the first one made. */
  lemma {:induction false} SetIdempotent(v: View, key: string, value: Value)
    ensures var w := Set(v, key, value).view; Set(w, key, value).view == w
  {
    if Reserved(key) || key in v.contextual || key in v.target {
    } else {
      match v.parent
      case NoParent =>
      case Plain(o) =>
      case Chained(p) =>
        SetIdempotent(p, key, value);
    }
  }

  /** A key no layer of the chain holds is not created by the writing view
      when it has a parent: it travels to the end of the chain. There a plain
      parent object receives it; a last view with no parent creates it in its
      overlay when it is a contextual name and in its target otherwise. Every
      view on the way keeps its own overlay and target. */
  lemma {:induction false} NewKeyLandsAtRoot(v: View, key: string, value: Value)
    requires !Reserved(key) && !Has(v, key)
    ensures var r := Root(v); var r' := Root(Set(v, key, value).view);
      r.parent == NoParent ==> r' == CreateLocal(r, key, value).view
    ensures var r := Root(v); var r' := Root(Set(v, key, value).view);
      r.parent.Plain? ==> r' == r.(parent := Plain(r.parent.obj[key := value]))
    ensures var w := Set(v, key, value).view;
      forall j :: 0 <= j < Depth(v.parent) && Ancestor(v.parent, j).Chained? &&
                  Ancestor(v.parent, j).view.parent.Chained? ==>
        SameLayer(Ancestor(w.parent, j), Ancestor(v.parent, j))
  {
    match v.parent
    case NoParent =>
    case Plain(o) =>
    case Chained(p) =>
      NewKeyLandsAtRoot(p, key, value);
      var w := Set(v, key, value).view;
      var wp := Set(p, key, value).view;
      assert w.parent == Chained(wp);
      forall j | 0 <= j < Depth(v.parent) && Ancestor(v.parent, j).Chained? &&
                 Ancestor(v.parent, j).view.parent.Chained?
        ensures SameLayer(Ancestor(w.parent, j), Ancestor(v.parent, j))
      {
        if j > 0 {
          assert Ancestor(w.parent, j) == Ancestor(wp.parent, j - 1);
          assert Ancestor(v.parent, j) == Ancestor(p.parent, j - 1);
        }
      }
  }

  /** The last entry of `$parents` is the end of the chain: the plain parent
      object if the chain ends in one, otherwise the last view. */
  lemma {:induction false} LastAncestorIsChainEnd(v: View)
    requires v.parent != NoParent
    ensures var ps := Parents(v);
      ps[|ps| - 1] == (if Root(v).parent.Plain? then Root(v).parent else Chained(Root(v)))
  {
    match v.parent
    case Plain(_) =>
    case Chained(p) =>
      if p.parent != NoParent {
        LastAncestorIsChainEnd(p);
      }
  }

  /** A key reads as `undefined` unless the chain has it; conversely a key that
      reads as anything else is present. A present key may still read as
      `undefined` when that is its stored value. */
  lemma PresenceBoundsReads(v: View, key: string)
    requires !Reserved(key)
    ensures !Has(v, key) ==> Lookup(v, key) == Undefined
    ensures Lookup(v, key) != Undefined ==> Has(v, key)
  {
  }

  /** Read precedence layer by layer: the overlay beats the target, the target
      beats the parent, and the parent is consulted only when both miss. */
  lemma ReadPrecedence(v: View, key: string)
    requires !Reserved(key)
    ensures key in v.contextual ==> Lookup(v, key) == v.contextual[key]
    ensures key !in v.contextual && key in v.target ==> Lookup(v, key) == v.target[key]
    ensures key !in v.contextual && key !in v.target ==>
              Lookup(v, key) == Read(ParentScope(v.parent), key)
  {
  }
}
