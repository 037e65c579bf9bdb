/** The middleware chain and the handler it wraps around a job handler. */
module Middleware {
  import opened Options

  // -------------------------------------------------------------------------
  // Layers
  // -------------------------------------------------------------------------

  /** A layer either answers by itself or passes a context on. */
  datatype Decision<!C, !R> = Stop(result: R) | Go(ctx: C)

  /** What a layer does before and after the next one.  `Next` is consumed by its one call, so
      there is nothing else a layer can do with it. */
  datatype Named<!C, !R> = Named(name: string, before: C -> Decision<C, R>, after: (C, R) -> R)

  datatype Event = Enter(name: string) | Leave(name: string) | Handled

  /** The result of a handler with the trace of what ran. */
  type HandlerFn<!C, !R> = C -> (R, seq<Event>)

  function Handle<C, R>(layer: Named<C, R>, next: HandlerFn<C, R>, ctx: C): (R, seq<Event>) {
    match layer.before(ctx)
    case Stop(result) => (result, [Enter(layer.name)])
    case Go(inner) =>
      var (result, trace) := next(inner);
      (layer.after(ctx, result), [Enter(layer.name)] + trace + [Leave(layer.name)])
  }

  function Base<C, R>(handler: C -> R, ctx: C): (R, seq<Event>) {
    (handler(ctx), [Handled])
  }

  /** The first layer is the outermost. */
  function Onion<C, R>(layers: seq<Named<C, R>>, handler: C -> R, ctx: C): (R, seq<Event>)
    decreases |layers|
  {
    if layers == [] then Base(handler, ctx)
    else
      match layers[0].before(ctx)
      case Stop(result) => (result, [Enter(layers[0].name)])
      case Go(inner) =>
        var (result, trace) := Onion(layers[1..], handler, inner);
        (layers[0].after(ctx, result), [Enter(layers[0].name)] + trace + [Leave(layers[0].name)])
  }

  // -------------------------------------------------------------------------
  // The chain
  // -------------------------------------------------------------------------

  /** Position of the first layer with a name. */
  function Position<C, R>(layers: seq<Named<C, R>>, name: string): (p: Option<nat>)
    ensures p.Some? ==> p.value < |layers| && layers[p.value].name == name
    ensures forall k :: 0 <= k < (if p.Some? then p.value else |layers|) ==> layers[k].name != name
  {
    if layers == [] then None
    else if layers[0].name == name then Some(0)
    else
      match Position(layers[1..], name)
      case None => None
      case Some(p) => Some(p + 1)
  }

  function InsertAt<C, R>(layers: seq<Named<C, R>>, at: nat, layer: Named<C, R>): seq<Named<C, R>>
    requires at <= |layers|
  {
    layers[..at] + [layer] + layers[at..]
  }

  /** The layers whose names are not in `names`, in order. */
  function Without<C, R>(layers: seq<Named<C, R>>, names: set<string>): seq<Named<C, R>> {
    if layers == [] then []
    else (if layers[0].name in names then [] else [layers[0]]) + Without(layers[1..], names)
  }

  datatype ChainOp<!C, !R> =
    | Add(layer: Named<C, R>)
    | Prepend(layer: Named<C, R>)
    | InsertBefore(existing: string, layer: Named<C, R>)
    | InsertAfter(existing: string, layer: Named<C, R>)
    | Remove(name: string)

  function Apply<C, R>(layers: seq<Named<C, R>>, op: ChainOp<C, R>): seq<Named<C, R>> {
    match op
    case Add(layer) => InsertAt(layers, |layers|, layer)
    case Prepend(layer) => InsertAt(layers, 0, layer)
    case InsertBefore(existing, layer) =>
      var p := Position(layers, existing);
      InsertAt(layers, if p.Some? then p.value else 0, layer)
    case InsertAfter(existing, layer) =>
      var p := Position(layers, existing);
      InsertAt(layers, if p.Some? then p.value + 1 else |layers|, layer)
    case Remove(name) => Without(layers, {name})
  }

  function Touched<C, R>(op: ChainOp<C, R>): string {
    match op
    case Add(layer) => layer.name
    case Prepend(layer) => layer.name
    case InsertBefore(_, layer) => layer.name
    case InsertAfter(_, layer) => layer.name
    case Remove(name) => name
  }

  /** `at` is where a layer of that name comes first. */
  predicate FirstNamed<C, R>(layers: seq<Named<C, R>>, name: string, at: nat) {
    at < |layers| && layers[at].name == name && forall k :: 0 <= k < at ==> layers[k].name != name
  }

  predicate NoneNamed<C, R>(layers: seq<Named<C, R>>, name: string) {
    forall k :: 0 <= k < |layers| ==> layers[k].name != name
  }

  /** The layer stands before the first one of that name, or in front if there is none. */
  ghost predicate PutBefore<C, R>(was: seq<Named<C, R>>, now: seq<Named<C, R>>, existing: string, layer: Named<C, R>) {
    || (NoneNamed(was, existing) && now == [layer] + was)
    || exists at: nat :: FirstNamed(was, existing, at) && now == was[..at] + ([layer] + was[at..])
  }

  /** The layer stands after the first one of that name, or at the end if there is none. */
  ghost predicate PutAfter<C, R>(was: seq<Named<C, R>>, now: seq<Named<C, R>>, existing: string, layer: Named<C, R>) {
    || (NoneNamed(was, existing) && now == was + [layer])
    || exists at: nat :: FirstNamed(was, existing, at) && now == was[..at + 1] + ([layer] + was[at + 1..])
  }

  /** `at` is the first of that name, or the end if there is none. */
  predicate SearchedTo<C, R>(was: seq<Named<C, R>>, at: nat, existing: string) {
    FirstNamed(was, existing, at) || (at == |was| && NoneNamed(was, existing))
  }

  lemma InsertedBefore<C, R>(was: seq<Named<C, R>>, at: nat, existing: string, layer: Named<C, R>)
    requires SearchedTo(was, at, existing)
    ensures PutBefore(was, InsertAt(was, if at == |was| then 0 else at, layer), existing, layer)
  {
    if at == |was| {
      assert was[..0] + [layer] + was[0..] == [layer] + was;
    } else {
      assert was[..at] + [layer] + was[at..] == was[..at] + ([layer] + was[at..]);
    }
  }

  lemma InsertedAfter<C, R>(was: seq<Named<C, R>>, at: nat, existing: string, layer: Named<C, R>)
    requires SearchedTo(was, at, existing)
    ensures PutAfter(was, InsertAt(was, if at == |was| then |was| else at + 1, layer), existing, layer)
  {
    if at == |was| {
      assert was[..at] + [layer] + was[at..] == was + [layer];
    } else {
      assert was[..at + 1] + [layer] + was[at + 1..] == was[..at + 1] + ([layer] + was[at + 1..]);
    }
  }

  class MiddlewareChain<!C, !R> {
    var middleware: seq<Named<C, R>>

    constructor ()
      ensures middleware == []
    {
      middleware := [];
    }

    method AddLayer(layer: Named<C, R>)
      modifies this
      ensures middleware == Apply(old(middleware), Add(layer))
      ensures middleware == old(middleware) + [layer]
    {
      middleware := middleware + [layer];
      assert middleware == InsertAt(old(middleware), |old(middleware)|, layer);
    }

    method PrependLayer(layer: Named<C, R>)
      modifies this
      ensures middleware == Apply(old(middleware), Prepend(layer))
      ensures middleware == [layer] + old(middleware)
    {
      middleware := [layer] + middleware;
      assert middleware == InsertAt(old(middleware), 0, layer);
    }

    method InsertLayerBefore(existing: string, layer: Named<C, R>)
      modifies this
      ensures middleware == Apply(old(middleware), InsertBefore(existing, layer))
      ensures PutBefore(old(middleware), middleware, existing, layer)
      ensures middleware != [] && Without(middleware, {layer.name}) == Without(old(middleware), {layer.name})
    {
      KeepsOthers(middleware, InsertBefore(existing, layer), {layer.name});
      var pos := 0;
      while pos < |middleware| && middleware[pos].name != existing
        invariant pos <= |middleware|
        invariant forall k :: 0 <= k < pos ==> middleware[k].name != existing
      {
        pos := pos + 1;
      }
      InsertedBefore(middleware, pos, existing, layer);
      if pos == |middleware| {
        pos := 0;
      }
      middleware := middleware[..pos] + [layer] + middleware[pos..];
    }

    method InsertLayerAfter(existing: string, layer: Named<C, R>)
      modifies this
      ensures middleware == Apply(old(middleware), InsertAfter(existing, layer))
      ensures PutAfter(old(middleware), middleware, existing, layer)
      ensures middleware != [] && Without(middleware, {layer.name}) == Without(old(middleware), {layer.name})
    {
      KeepsOthers(middleware, InsertAfter(existing, layer), {layer.name});
      var pos := 0;
      while pos < |middleware| && middleware[pos].name != existing
        invariant pos <= |middleware|
        invariant forall k :: 0 <= k < pos ==> middleware[k].name != existing
      {
        pos := pos + 1;
      }
      InsertedAfter(middleware, pos, existing, layer);
      if pos < |middleware| {
        pos := pos + 1;
      }
      middleware := middleware[..pos] + [layer] + middleware[pos..];
    }

    method RemoveLayer(name: string)
      modifies this
      ensures middleware == Apply(old(middleware), Remove(name))
      ensures forall k :: 0 <= k < |middleware| ==> middleware[k].name != name
    {
      var layers, kept := middleware, [];
      for k := 0 to |layers|
        invariant kept == Without(layers[..k], {name})
        invariant forall j :: 0 <= j < |kept| ==> kept[j].name != name
      {
        assert layers[..k + 1] == layers[..k] + [layers[k]];
        WithoutConcat(layers[..k], [layers[k]], {name});
        if layers[k].name != name {
          kept := kept + [layers[k]];
        }
      }
      assert layers[..|layers|] == layers;
      middleware := kept;
    }

    /** Built from the inside out: the last layer wraps the handler first. */
    method Wrap(handler: C -> R) returns (h: HandlerFn<C, R>)
      ensures forall ctx :: h(ctx) == Onion(middleware, handler, ctx)
    {
      h := ctx => Base(handler, ctx);
      for k := |middleware| downto 0
        invariant forall ctx :: h(ctx) == Onion(middleware[k..], handler, ctx)
      {
        var layer, next := middleware[k], h;
        assert middleware[k..][0] == layer && middleware[k..][1..] == middleware[k + 1..];
        h := ctx => Handle(layer, next, ctx);
        forall ctx ensures h(ctx) == Onion(middleware[k..], handler, ctx) {
          match layer.before(ctx)
          case Stop(_) =>
          case Go(inner) => assert next(inner) == Onion(middleware[k + 1..], handler, inner);
        }
      }
      assert middleware[0..] == middleware;
    }
  }

  // -------------------------------------------------------------------------
  // The order of the layers
  // -------------------------------------------------------------------------

  lemma {:induction false} WithoutConcat<C, R>(a: seq<Named<C, R>>, b: seq<Named<C, R>>, names: set<string>)
    ensures Without(a + b, names) == Without(a, names) + Without(b, names)
  {
    if a == [] {
      assert a + b == b;
    } else {
      assert (a + b)[1..] == a[1..] + b;
      WithoutConcat(a[1..], b, names);
    }
  }

  lemma {:induction false} WithoutTwice<C, R>(layers: seq<Named<C, R>>, m: set<string>, n: set<string>)
    requires m <= n
    ensures Without(Without(layers, m), n) == Without(layers, n)
  {
    if layers != [] {
      var head := if layers[0].name in m then [] else [layers[0]];
      WithoutConcat(head, Without(layers[1..], m), n);
      WithoutTwice(layers[1..], m, n);
    }
  }

  lemma WithoutDropsOne<C, R>(a: seq<Named<C, R>>, x: Named<C, R>, b: seq<Named<C, R>>, names: set<string>)
    requires x.name in names
    ensures Without(a + [x] + b, names) == Without(a + b, names)
  {
    WithoutConcat(a + [x], b, names);
    WithoutConcat(a, [x], names);
    WithoutConcat(a, b, names);
    assert [x][1..] == [];
    assert Without([x], names) == [];
    assert Without(a, names) + [] == Without(a, names);
  }

  lemma InsertKeepsOthers<C, R>(layers: seq<Named<C, R>>, at: nat, layer: Named<C, R>, names: set<string>)
    requires at <= |layers| && layer.name in names
    ensures Without(InsertAt(layers, at, layer), names) == Without(layers, names)
  {
    WithoutDropsOne(layers[..at], layer, layers[at..], names);
    assert layers[..at] + layers[at..] == layers;
  }

  lemma KeepsOthers<C, R>(layers: seq<Named<C, R>>, op: ChainOp<C, R>, names: set<string>)
    requires Touched(op) in names
    ensures Without(Apply(layers, op), names) == Without(layers, names)
  {
    match op
    case Add(layer) => InsertKeepsOthers(layers, |layers|, layer, names);
    case Prepend(layer) => InsertKeepsOthers(layers, 0, layer, names);
    case InsertBefore(existing, layer) =>
      var p := Position(layers, existing);
      InsertKeepsOthers(layers, if p.Some? then p.value else 0, layer, names);
    case InsertAfter(existing, layer) =>
      var p := Position(layers, existing);
      InsertKeepsOthers(layers, if p.Some? then p.value + 1 else |layers|, layer, names);
    case Remove(name) => WithoutTwice(layers, {name}, names);
  }

  function ApplyAll<C, R>(layers: seq<Named<C, R>>, ops: seq<ChainOp<C, R>>): seq<Named<C, R>>
    decreases |ops|
  {
    if ops == [] then layers else ApplyAll(Apply(layers, ops[0]), ops[1..])
  }

  /** Any sequence of operations leaves the layers it does not name in place, in their order. */
  lemma {:induction false} UntouchedKeepOrder<C, R>(
      layers: seq<Named<C, R>>, ops: seq<ChainOp<C, R>>, names: set<string>)
    requires forall k :: 0 <= k < |ops| ==> Touched(ops[k]) in names
    ensures Without(ApplyAll(layers, ops), names) == Without(layers, names)
    decreases |ops|
  {
    if ops != [] {
      KeepsOthers(layers, ops[0], names);
      UntouchedKeepOrder(Apply(layers, ops[0]), ops[1..], names);
    }
  }

  lemma {:induction false} WithoutAbsent<C, R>(layers: seq<Named<C, R>>, names: set<string>)
    requires forall k :: 0 <= k < |layers| ==> layers[k].name !in names
    ensures Without(layers, names) == layers
  {
    if layers != [] {
      WithoutAbsent(layers[1..], names);
    }
  }

  /** Inserting a layer with a fresh name, anywhere, and removing it restores the chain. */
  lemma InsertThenRemove<C, R>(layers: seq<Named<C, R>>, op: ChainOp<C, R>)
    requires !op.Remove? && forall k :: 0 <= k < |layers| ==> layers[k].name != op.layer.name
    ensures Apply(Apply(layers, op), Remove(op.layer.name)) == layers
  {
    KeepsOthers(layers, op, {op.layer.name});
    WithoutAbsent(layers, {op.layer.name});
  }

  // -------------------------------------------------------------------------
  // What a wrapped handler does
  // -------------------------------------------------------------------------

  /** How many layers pass the job on before one answers by itself. */
  function Depth<C, R>(layers: seq<Named<C, R>>, ctx: C): (d: nat)
    ensures d <= |layers|
    decreases |layers|
  {
    if layers == [] then 0
    else
      match layers[0].before(ctx)
      case Stop(_) => 0
      case Go(inner) => 1 + Depth(layers[1..], inner)
  }

  function Enters<C, R>(layers: seq<Named<C, R>>): seq<Event> {
    seq(|layers|, k requires 0 <= k < |layers| => Enter(layers[k].name))
  }

  function Leaves<C, R>(layers: seq<Named<C, R>>): seq<Event> {
    seq(|layers|, k requires 0 <= k < |layers| => Leave(layers[|layers| - 1 - k].name))
  }

  /** The before-parts run in list order, the after-parts in reverse; a layer that answers by
      itself ends the descent, so neither the handler nor any later layer runs. */
  function Path<C, R>(layers: seq<Named<C, R>>, d: nat): seq<Event>
    requires d <= |layers|
  {
    if d == |layers| then Enters(layers) + [Handled] + Leaves(layers)
    else Enters(layers[..d + 1]) + Leaves(layers[..d])
  }

  lemma PathStep<C, R>(layers: seq<Named<C, R>>, d: nat)
    requires layers != [] && d < |layers|
    ensures Path(layers, d + 1) == [Enter(layers[0].name)] + Path(layers[1..], d) + [Leave(layers[0].name)]
  {
    var name := layers[0].name;
    var n := if d + 1 == |layers| then d else d + 1;
    var front := layers[..n + 1];
    assert front[1..] == layers[1..][..n];
    assert Enters(front) == [Enter(name)] + Enters(front[1..]);
    var back := layers[..d + 1];
    assert back[1..] == layers[1..][..d];
    assert Leaves(back) == Leaves(back[1..]) + [Leave(name)];
    if d + 1 == |layers| {
      assert front == layers && back == layers;
    }
  }

  lemma {:induction false} TraceIsPath<C, R>(layers: seq<Named<C, R>>, handler: C -> R, ctx: C)
    ensures Onion(layers, handler, ctx).1 == Path(layers, Depth(layers, ctx))
    decreases |layers|
  {
    if layers != [] {
      match layers[0].before(ctx)
      case Stop(_) =>
        assert Enters(layers[..1]) == [Enter(layers[0].name)];
        assert Leaves(layers[..0]) == [];
      case Go(inner) =>
        TraceIsPath(layers[1..], handler, inner);
        PathStep(layers, Depth(layers[1..], inner));
    } else {
      assert Enters(layers) == [] && Leaves(layers) == [];
    }
  }

  /** The context that reaches layer `k`, or the handler when `k` is the number of layers. */
  function Reaching<C, R>(layers: seq<Named<C, R>>, ctx: C, k: nat): C
    requires k <= Depth(layers, ctx)
    decreases k
  {
    if k == 0 then ctx else Reaching(layers[1..], layers[0].before(ctx).ctx, k - 1)
  }

  /** The after-parts of layers `0..k`, innermost first. */
  function Unwind<C, R>(layers: seq<Named<C, R>>, ctx: C, k: nat, result: R): R
    requires k <= Depth(layers, ctx)
    decreases k
  {
    if k == 0 then result
    else
      var j := k - 1;
      Unwind(layers, ctx, j, layers[j].after(Reaching(layers, ctx, j), result))
  }

  lemma {:induction false} UnwindOuter<C, R>(layers: seq<Named<C, R>>, ctx: C, k: nat, result: R)
    requires 0 < k <= Depth(layers, ctx)
    ensures Unwind(layers, ctx, k, result) ==
            layers[0].after(ctx, Unwind(layers[1..], layers[0].before(ctx).ctx, k - 1, result))
    decreases k
  {
    var inner := layers[0].before(ctx).ctx;
    if k > 1 {
      var j := k - 1;
      assert layers[1..][j - 1] == layers[j];
      UnwindOuter(layers, ctx, j, layers[j].after(Reaching(layers, ctx, j), result));
    }
  }

  /** The answer is the handler's, or that of the layer that stopped, passed outwards through
      every layer that was entered. */
  lemma {:induction false} ResultUnwinds<C, R>(layers: seq<Named<C, R>>, handler: C -> R, ctx: C)
    ensures var d := Depth(layers, ctx);
            var at := Reaching(layers, ctx, d);
            && (d < |layers| ==> layers[d].before(at).Stop?)
            && Onion(layers, handler, ctx).0 ==
               Unwind(layers, ctx, d, if d == |layers| then handler(at) else layers[d].before(at).result)
    decreases |layers|
  {
    if layers != [] && layers[0].before(ctx).Go? {
      var inner := layers[0].before(ctx).ctx;
      var d := Depth(layers[1..], inner);
      ResultUnwinds(layers[1..], handler, inner);
      var at := Reaching(layers[1..], inner, d);
      assert d < |layers[1..]| ==> layers[1..][d] == layers[d + 1];
      UnwindOuter(layers, ctx, d + 1, if d == |layers[1..]| then handler(at) else layers[1..][d].before(at).result);
    }
  }

  // -------------------------------------------------------------------------
  // Where a layer acts
  // -------------------------------------------------------------------------

  /** Removing names keeps exactly the layers with other names, and every sequence law. */
  lemma WithoutIsFilter<C, R>(a: seq<Named<C, R>>, x: Named<C, R>, b: seq<Named<C, R>>, names: set<string>)
    ensures Without(a + [x] + b, names) == Without(a, names) + (if x.name in names then [] else [x]) + Without(b, names)
  {
    WithoutConcat(a + [x], b, names);
    WithoutConcat(a, [x], names);
    assert [x][1..] == [];
    assert Without([x], names) == if x.name in names then [] else [x];
  }

  lemma {:induction false} DepthOfLonger<C, R>(layers: seq<Named<C, R>>, layer: Named<C, R>, ctx: C)
    ensures var d := Depth(layers, ctx);
            if d < |layers| then Depth(layers + [layer], ctx) == d
            else |layers| <= Depth(layers + [layer], ctx)
    decreases |layers|
  {
    var longer := layers + [layer];
    if layers != [] {
      assert longer[1..] == layers[1..] + [layer];
      match layers[0].before(ctx)
      case Stop(_) =>
      case Go(inner) => DepthOfLonger(layers[1..], layer, inner);
    }
  }

  /** An added layer acts last: it is entered after all others, and only if they all pass on. */
  lemma AddedActsLast<C, R>(layers: seq<Named<C, R>>, layer: Named<C, R>, handler: C -> R, ctx: C)
    ensures var trace := Onion(layers + [layer], handler, ctx).1;
            var d := Depth(layers, ctx);
            if d < |layers| then trace == Enters(layers[..d + 1]) + Leaves(layers[..d])
            else |trace| > |layers| && trace[..|layers| + 1] == Enters(layers) + [Enter(layer.name)]
  {
    var longer := layers + [layer];
    var d := Depth(layers, ctx);
    DepthOfLonger(layers, layer, ctx);
    TraceIsPath(longer, handler, ctx);
    if d < |layers| {
      assert longer[..d + 1] == layers[..d + 1] && longer[..d] == layers[..d];
    } else {
      assert Enters(longer) == Enters(layers) + [Enter(layer.name)];
      assert longer[..|layers| + 1] == longer;
    }
  }

  /** A prepended layer acts first: it is entered before all others, and they run inside it. */
  lemma PrependedActsFirst<C, R>(layers: seq<Named<C, R>>, layer: Named<C, R>, handler: C -> R, ctx: C)
    ensures var decision := layer.before(ctx);
            var whole := Onion([layer] + layers, handler, ctx);
            if decision.Stop? then whole == (decision.result, [Enter(layer.name)])
            else
              var part := Onion(layers, handler, decision.ctx);
              whole == (layer.after(ctx, part.0), [Enter(layer.name)] + part.1 + [Leave(layer.name)])
  {
    assert ([layer] + layers)[1..] == layers;
  }
}
