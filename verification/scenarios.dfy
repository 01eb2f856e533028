/** The cases the repository's test suite walks through, stated over the
    model, plus three chains that show where the write rule sends a key. */
module Scenarios {
  import opened Values
  import opened Views
  import opened Proxy

  /** A target `{ a: 1, b: undefined }` with no parent: `b` is present though
      it reads as `undefined`; `$parent` is absent, `$parents` is empty. */
  lemma BindingWithoutParent()
    ensures var t := map["a" := Num(1), "b" := Undefined];
      var r := CreateDefault(Object(t), NoParent);
      && r.Success?
      && Get(r.value, "a") == Data(Num(1)) && Has(r.value, "a")
      && Get(r.value, "b") == Data(Undefined) && Has(r.value, "b")
      && Get(r.value, "c") == Data(Undefined) && !Has(r.value, "c")
      && Get(r.value, PARENT) == ParentRef(NoParent) && !Has(r.value, PARENT)
      && Has(r.value, THIS)
      && Get(r.value, PARENTS) == Ancestors([]) && Has(r.value, PARENTS)
  {
  }

  /** A target `{ a: 1, b: false }` under a proxy of `{ a: 2, c: 3 }`: the own
      `a` shadows the parent's, `c` falls through, `$this` does not. */
  lemma BindingWithChainedParent()
    ensures var p := View(map["a" := Num(2), "c" := Num(3)], map[], NoParent);
      var t := map["a" := Num(1), "b" := Bool(false)];
      var s := View(t, map[], Chained(p));
      && Get(s, "a") == Data(Num(1))
      && Get(s, "b") == Data(Bool(false))
      && Get(s, "c") == Data(Num(3)) && Has(s, "c")
      && Get(s, THIS) == Wrapped(t) && Read(t, "c") == Undefined
      && Has(s, THIS)
      && Has(s, PARENT) && Get(s, PARENT) == ParentRef(Chained(p))
      && Get(p, "a") == Data(Num(2)) && Has(p, "a")
      && Get(p, "b") == Data(Undefined) && !Has(p, "b")
      && Get(p, "c") == Data(Num(3)) && Has(p, "c")
      && Get(p, PARENT) == ParentRef(NoParent)
      && |Parents(s)| == 1 && Has(s, PARENTS) && Parents(p) == []
  {
  }

  /** The same target under the plain object `{ a: 2, c: 3 }`: reads agree
      with the chained case, and the plain parent has no `$parents`. */
  lemma BindingWithPlainParent()
    ensures var p := map["a" := Num(2), "c" := Num(3)];
      var t := map["a" := Num(1), "b" := Bool(false)];
      var s := View(t, map[], Plain(p));
      && Get(s, "a") == Data(Num(1))
      && Get(s, "b") == Data(Bool(false))
      && Get(s, "c") == Data(Num(3)) && Has(s, "c")
      && Get(s, THIS) == Wrapped(t) && Read(t, "c") == Undefined
      && Has(s, THIS) && Has(s, PARENT) && Get(s, PARENT) == ParentRef(Plain(p))
      && Read(p, "a") == Num(2) && "a" in p
      && Read(p, "b") == Undefined && "b" !in p
      && Read(p, "c") == Num(3) && "c" in p
      && Read(p, PARENT) == Undefined
      && Read(p, PARENTS) == Undefined
      && Parents(s) == [Plain(p)] && Has(s, PARENTS)
  {
  }

  /** Contextual variables `{ $index: 3, $length: 5, b: "override" }` shadow
      the target's `b`; the inherited `a` is found in the target. */
  lemma ContextualVariables()
    ensures var t := map["a" := Num(1), "b" := Bool(false)];
      var c := map["$index" := Num(3), "$length" := Num(5), "b" := Str("override")];
      var r := Create(Object(t), NoParent, c);
      && r.Success?
      && Get(r.value, "a") == Data(Num(1))
      && Get(r.value, "b") == Data(Str("override"))
      && Get(r.value, THIS) == Wrapped(t) && t["b"] == Bool(false)
      && Get(r.value, "c") == Data(Undefined)
      && Get(r.value, "$index") == Data(Num(3))
      && Get(r.value, "$length") == Data(Num(5))
  {
  }

  /** Assignments with no parent: existing keys update the target, a new
      plain key is created in the target, a new `$` key in the overlay, and
      `$this`/`$parent` refuse the write. */
  lemma AssignTargetOrContextual()
    ensures var v0 := View(map["a" := Num(1), "b" := Bool(false)], map[], NoParent);
      var v1 := Set(v0, "a", Num(2)).view;
      var v2 := Set(v1, "b", Bool(true)).view;
      var v3 := Set(v2, "c", Num(1)).view;
      var v4 := Set(v3, "$foo", Num(1)).view;
      && Get(v1, "a") == Data(Num(2))
      && Get(v2, "b") == Data(Bool(true))
      && v2.target == map["a" := Num(2), "b" := Bool(true)]
      && Get(v3, "c") == Data(Num(1))
      && !Set(v3, THIS, Num(1)).ok && !Set(v3, PARENT, Num(1)).ok
      && Get(v4, "$foo") == Data(Num(1))
      && Read(v4.target, "$foo") == Undefined
      && v4.target == map["a" := Num(2), "b" := Bool(true), "c" := Num(1)]
      && Parents(v4) == []
  {
  }

  /** A key the overlay holds is written in the overlay; the target keeps its
      own value. */
  lemma AssignExistingContextualKey()
    ensures var t := map["a" := Num(1), "b" := Bool(false)];
      var v0 := View(t, map["b" := Bool(true), "$bar" := Str("bar")], NoParent);
      var v1 := Set(v0, "b", Num(2)).view;
      && Get(v0, "b") == Data(Bool(true)) && Get(v0, THIS) == Wrapped(t)
      && Get(v1, "b") == Data(Num(2)) && Get(v1, THIS) == Wrapped(t)
      && Parents(v1) == []
  {
  }

  /** Three views `gp`, `p`, `s` over `{ c: "c" }`, `{ b: false }`, `{ a: 1 }`:
      each write lands on the view whose target owns the key. */
  lemma AssignThroughParentChain()
    ensures var gp := View(map["c" := Str("c")], map[], NoParent);
      var p := View(map["b" := Bool(false)], map[], Chained(gp));
      var s0 := View(map["a" := Num(1)], map[], Chained(p));
      var s3 := Set(Set(Set(s0, "a", Num(2)).view, "b", Bool(true)).view, "c", Str("C")).view;
      && s3.target == map["a" := Num(2)]
      && s3.parent.view.target == map["b" := Bool(true)]
      && s3.parent.view.parent.view.target == map["c" := Str("C")]
      && Get(s3, "a") == Data(Num(2))
      && Get(s3, "b") == Data(Bool(true))
      && Get(s3, "c") == Data(Str("C"))
      && !Set(s3, PARENT, Num(1)).ok
      && Get(s3.parent.view, "c") == Data(Str("C"))
      && Get(s3.parent.view.parent.view, "c") == Data(Str("C"))
      && Get(s3.parent.view, "a") == Data(Undefined)
      && |Parents(s3)| == 2 && |Parents(s3.parent.view)| == 1
      && Parents(s3.parent.view.parent.view) == []
      && Lookup(Parents(s3)[0].view, "b") == Bool(true)
      && Lookup(Parents(s3)[0].view, "c") == Str("C")
      && Lookup(Parents(s3)[1].view, "b") == Undefined
      && Lookup(Parents(s3)[1].view, "c") == Str("C")
  {
    var gp := View(map["c" := Str("c")], map[], NoParent);
    var p := View(map["b" := Bool(false)], map[], Chained(gp));
    var s0 := View(map["a" := Num(1)], map[], Chained(p));
    var s1 := Set(s0, "a", Num(2)).view;
    assert s1 == s0.(target := map["a" := Num(2)]);
    var p2 := p.(target := map["b" := Bool(true)]);
    var s2 := Set(s1, "b", Bool(true)).view;
    assert Set(p, "b", Bool(true)).view == p2;
    assert s2 == s1.(parent := Chained(p2));
    var gp3 := gp.(target := map["c" := Str("C")]);
    assert Set(gp, "c", Str("C")).view == gp3;
    assert Set(p2, "c", Str("C")).view == p2.(parent := Chained(gp3));
    var s3 := Set(s2, "c", Str("C")).view;
    assert s3 == s2.(parent := Chained(p2.(parent := Chained(gp3))));
  }

  /** No primitive can be wrapped. */
  lemma PrimitivesRejected()
    ensures CreateDefault(Primitive(Undefined), NoParent) == Failure(InvalidTarget)
    ensures CreateDefault(Primitive(Null), NoParent) == Failure(InvalidTarget)
    ensures CreateDefault(Primitive(Bool(true)), NoParent) == Failure(InvalidTarget)
    ensures CreateDefault(Primitive(Str("foo")), NoParent) == Failure(InvalidTarget)
    ensures CreateDefault(Primitive(Num(7)), NoParent) == Failure(InvalidTarget)
  {
  }

  /** A key no layer holds is handed to a view parent even though that parent
      does not have it either, so it is created in the parent's target and the
      writer's target is left as it was. */
  lemma NewKeyCreatedOnAncestor()
    ensures var p := View(map["a" := Num(1)], map[], NoParent);
      var s := View(map["b" := Num(2)], map[], Chained(p));
      var w := Set(s, "d", Num(4));
      && !Has(s, "d")
      && w.ok
      && w.view.target == s.target
      && w.view.parent == Chained(p.(target := map["a" := Num(1), "d" := Num(4)]))
  {
  }

  /** A contextual name the writer does not hold but its parent view's overlay
      does is written in the parent's overlay, not the writer's. */
  lemma ContextualWriteReachesAncestorOverlay()
    ensures var p := View(map[], map["$i" := Num(1)], NoParent);
      var s := View(map[], map[], Chained(p));
      var w := Set(s, "$i", Num(2));
      && w.view.contextual == map[]
      && w.view.parent == Chained(p.(contextual := map["$i" := Num(2)]))
  {
  }

  /** A new contextual name written through a child view is created in the
      overlay of the last view of the chain. */
  lemma NewContextualNameLandsInRootOverlay()
    ensures var p := View(map[], map[], NoParent);
      var s := View(map[], map[], Chained(p));
      var w := Set(s, "$foo", Num(1));
      && w.view.contextual == map[]
      && w.view.parent == Chained(p.(contextual := map["$foo" := Num(1)]))
  {
  }
}
