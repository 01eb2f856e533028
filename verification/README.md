# contextual-proxy, modelled in Dafny

`contextual-proxy` wraps a target object in a view that resolves names the
way a template engine resolves nested scopes. The view comes from a factory
`proxy(target, parent, contextual)`, and its handler has `get`, `has` and
`set` traps. A read of a name looks in three places, in this order:

1. the view's private overlay of contextual variables (`$index`, `$foo`, ...);
2. the target;
3. the parent, which is either a plain object or another view, so the search
   continues up a chain.

Three names are reserved and answered before that search:

- `$parent` is the direct parent.
- `$parents` is the ancestor list, nearest first.
- `$this` is the raw target.

A write updates the overlay or the target when it already holds the key.
Otherwise the write is handed to the parent, whether or not the parent has
the key. The key is created locally only when there is no parent or the
parent refuses the write: a `$` name goes into the overlay and any other name
into the target. In the model a parent never refuses, so local creation
happens only when there is no parent.

The model is functional. A chain of views is an immutable datatype, the traps
are pure functions, and `set` returns a success flag together with the updated
chain.

- `values.dfy` (module `Values`): property values and plain objects, which are
  maps from string keys to values.
- `views.dfy` (module `Views`): the `Parent`/`View` datatypes and the reference
  definitions the traps are measured against. `Depth` counts the links of the
  chain. `Ancestor` follows parent links. `Root` is the last view of the chain.
  `Scope` is the flattened scope: the parent's scope, overridden by the target,
  overridden by the overlay.
- `proxy.dfy` (module `Proxy`): the reserved names, the `get`, `has` and `set`
  traps, and the factory.
- `properties.dfy` (module `Properties`): lemmas that relate several calls.
- `scenarios.dfy` (module `Scenarios`): the repository's test cases, stated
  over the model.

The central properties:

- Lookup and presence agree with the flattened scope.
- Every successful write rebinds exactly one key of that scope.
- A write the writer cannot place itself lands on the nearest ancestor that
  holds the key, and every layer in between is left as it was.
- `$parents` lists the same thing as following parent links, and its length is
  the depth of the chain.

## How writes travel up the chain

A few consequences of the write rule are easy to miss. The model states each
of them:

- There is no `$contextual` accessor. `$contextual` is an ordinary key.
- `index.js:40` hands any write the writer cannot place itself to a present
  parent, without checking whether the parent holds the key. The write lands
  on the nearest ancestor whose overlay, target or plain object holds the key
  (`Properties.WriteLandsAtOwner`). A key that no layer holds lands at the end
  of the chain, either in a plain parent object or in the last view
  (`Properties.NewKeyLandsAtRoot`, `Scenarios.NewKeyCreatedOnAncestor`).
- A `$` name that an ancestor view's overlay holds is written in that overlay,
  not in the writer's (`Scenarios.ContextualWriteReachesAncestorOverlay`).
- A new `$` name written through a child is created by the last view, in its
  overlay, when the chain ends in a view
  (`Scenarios.NewContextualNameLandsInRootOverlay`). When the chain ends in a
  plain object, that object receives it.

## Model

| member | source | states |
|---|---|---|
| Proxy.Reserved | index.js:1-3 | exactly `$parent`, `$parents` and `$this` are reserved (the names index.js:8, 9, 20 and 37 test for), and each of them starts with `$` |
| Proxy.IsContextualName | index.js:42 | a name counts as a contextual variable iff `$` is a prefix of it, as `key.startsWith("$")` tests |
| Proxy.Get | index.js:7-24 | `$parent` returns the parent, `$parents` returns the ancestors nearest first, one per link of the chain, and `$this` returns the raw target, whatever the overlay or target hold under those names; any other key reads as the flattened scope's value, or `undefined` when the scope lacks it |
| Proxy.Lookup | index.js:21-23 | a non-reserved read (overlay, then target, then parent, else `undefined`) returns exactly the flattened scope's binding for the key |
| Proxy.Has | index.js:25-33 | `$parent` is present iff a parent was given, and `$parents` and `$this` are always present; any other key is present iff the flattened scope has it, by key and not by value |
| Proxy.Parents | index.js:9-17 | `$parents` has one entry per link of the chain, and entry i is the ancestor reached by following i parent links from the direct parent |
| Proxy.CreateLocal | index.js:41-43 | a key created locally holds the written value in the overlay if it starts with `$` and in the target otherwise; every other entry of both maps keeps its value, no other key appears, the parent is untouched, and the write succeeds |
| Proxy.Set | index.js:34-44 | a write succeeds iff the key is not reserved, and a refused write changes nothing; a key the overlay holds is updated only there; a key only the target holds is updated only there; any other key with a plain parent is written into that object, and with a view parent it becomes that parent's own write, leaving the writer's overlay and target unchanged; with no parent the key is created locally; the chain keeps its depth |
| Proxy.Create | index.js:54-64 | the factory succeeds iff the target is an object and otherwise fails with `InvalidTarget`; the new view keeps exactly the given target, overlay and parent, answers `$this` with the target and `$parent` with the parent, and its scope is the parent's, overridden by the target, overridden by the overlay |
| Proxy.CreateDefault | index.js:59-63 | leaving the overlay out is the factory called with a fresh empty overlay: it succeeds iff the target is an object, answers `$this` with the target and `$parent` with the parent, and its scope is the parent's overridden by the target |
| Properties.SetRebindsScope | index.js:34-44 | a write to a non-reserved key changes the chain's flattened scope in exactly one binding: the key now maps to the written value |
| Properties.ReadAfterWrite | index.js:21-44 | after a write through a view, the key reads back as written and is present |
| Properties.WriteLeavesOtherKeys | index.js:21-44 | after a write through a view, every other key reads and tests as before |
| Properties.WriteLandsAtOwner | index.js:38-40 | a write of a key the writer does not hold updates the nearest ancestor layer that holds it in place (overlay before target, or the plain object), and every ancestor in between keeps its overlay and target |
| Properties.SetIdempotent | index.js:37-43 | repeating a write with the same key and value leaves the chain as the first write left it |
| Properties.NewKeyLandsAtRoot | index.js:40-43 | a key no layer holds travels to the end of the chain: a plain parent object receives it, or the last view creates it in its overlay (`$` names) or its target (other names); every view on the way keeps its overlay and target |
| Properties.LastAncestorIsChainEnd | index.js:9-17 | the last entry of `$parents` is the end of the chain: the plain parent object if there is one, otherwise the last view |
| Properties.PresenceBoundsReads | index.js:21-32 | a key that is not present reads as `undefined`, and a key that reads as anything else is present |
| Properties.ReadPrecedence | index.js:21-23 | the overlay beats the target, the target beats the parent, and the parent is consulted only when both miss |
| Scenarios.BindingWithoutParent | test.js:7-21 | `{ a: 1, b: undefined }` with no parent: `b` is present although it reads as `undefined`, `c` is absent, `$parent` is absent and `$parents` is empty |
| Scenarios.BindingWithChainedParent | test.js:23-46 | under a view parent, the own `a` shadows the parent's, `c` falls through, `$this.c` is undefined, `$this` and `$parents` are present, the parent reads `c` and has no `$parent`, and `$parents` has one entry |
| Scenarios.BindingWithPlainParent | test.js:48-71 | under a plain parent, reads agree with the chained case, `$this` and `$parents` are present, `$parent` is the plain object, and the plain parent has neither `$parent` nor `$parents` |
| Scenarios.ContextualVariables | test.js:73-85 | overlay entries shadow the target, and `$this` still shows the target's own `b` |
| Scenarios.AssignTargetOrContextual | test.js:87-104 | with no parent, writes update or create keys in the target, a new `$foo` goes to the overlay, and `$this`/`$parent` refuse writes |
| Scenarios.AssignExistingContextualKey | test.js:106-116 | a key the overlay holds is written in the overlay, and the target keeps its value |
| Scenarios.AssignThroughParentChain | test.js:118-145 | in a three-view chain, each write lands on the target that owns the key, the parent and grandparent both read the new `c`, and `$parents` lists the parent before the grandparent |
| Scenarios.PrimitivesRejected | test.js:200-207 | `undefined`, `null`, `true`, `"foo"` and `7` cannot be wrapped |
| Scenarios.NewKeyCreatedOnAncestor | index.js:40 | a key neither the writer nor its view parent holds is created in the parent's target, not the writer's |
| Scenarios.ContextualWriteReachesAncestorOverlay | index.js:38-40 | a `$` name held only by the parent view's overlay is written in that overlay |
| Scenarios.NewContextualNameLandsInRootOverlay | index.js:40-42 | in a chain that ends in a view, a new `$` name written through a child view is created in the overlay of that last view |

## Left out

- JavaScript `Proxy`/`Reflect` machinery: getters, setters, non-writable or
  frozen properties and prototype chains. The overlay, the target and a plain
  parent are each a flat map: the keys they inherit (from `Object.prototype`
  too) are treated as their own. Every plain object accepts every write. A plain parent
  therefore never refuses a write, so the local-creation fallback after a
  refused delegation (`index.js:40-43`) is reached in the model only when
  there is no parent.
- Symbol keys: keys are strings.
- Object identity and aliasing. Each view owns its target, overlay and
  parent. The model does not express one object wrapped by several views, or
  shared between a target and a parent, or a write through one alias seen
  through another.
- Duck-typed detection of a view parent through an array-valued `$parents`.
  The `Parent` sum type says which kind of parent a view has. A plain parent
  never holds an array, because values here are never arrays.
- A `contextual` argument that is not an object, such as `null`. The handler
  then fails on every non-reserved `get`, `has` and `set` (`index.js:21`, `30`
  and `38`). The overlay is always a map here.
- Falsy parents: `undefined`, `null` and an omitted parent are all
  `NoParent`. Other primitive parents (`7`, `"x"`, `true`) are not modelled.
- Strict-mode `TypeError` for a refused write: modelled as `ok = false`.
- Compound assignment operators (`+=`, `<<=`, ...). Each is one read followed
  by one write over floating-point numbers.
- Values: numbers are integers, and `NaN`, objects and arrays as property
  values are not modelled. Only the difference between `undefined` and any
  other value matters to the traps.
