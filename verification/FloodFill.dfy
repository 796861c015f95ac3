/** `connected_component_mask`: the stack-based 4-connected flood fill. */
module FloodFill {
  import opened Collections
  import opened Pixels

  predicate Adjacent(p: Pixel, q: Pixel) {
    (p.x == q.x && (p.y == q.y + 1 || q.y == p.y + 1)) ||
    (p.y == q.y && (p.x == q.x + 1 || q.x == p.x + 1))
  }

  /** `path` walks inside `mask` from `from` to `to`, one 4-neighbour at a time. */
  ghost predicate IsPath(mask: set<Pixel>, path: seq<Pixel>, from: Pixel, to: Pixel) {
    && |path| > 0 && path[0] == from && path[|path| - 1] == to
    && (forall i :: 0 <= i < |path| ==> path[i] in mask)
    && (forall i :: 0 < i < |path| ==> Adjacent(path[i - 1], path[i]))
  }

  ghost predicate Reaches(mask: set<Pixel>, from: Pixel, to: Pixel) {
    exists path :: IsPath(mask, path, from, to)
  }

  /** The 4-connected component of `mask` containing `seed` (empty when the seed is not in it). */
  ghost function Component(mask: set<Pixel>, seed: Pixel): set<Pixel> {
    set p | p in mask && Reaches(mask, seed, p)
  }

  lemma SeedInComponent(mask: set<Pixel>, seed: Pixel)
    requires seed in mask
    ensures seed in Component(mask, seed)
  {
    assert IsPath(mask, [seed], seed, seed);
  }

  lemma ComponentStep(mask: set<Pixel>, seed: Pixel, p: Pixel, q: Pixel)
    requires p in Component(mask, seed) && q in mask && Adjacent(p, q)
    ensures q in Component(mask, seed)
  {
    var path :| IsPath(mask, path, seed, p);
    assert IsPath(mask, path + [q], seed, q);
  }

  ghost predicate ClosedIn(mask: set<Pixel>, s: set<Pixel>) {
    forall p, q :: p in s && q in mask && Adjacent(p, q) ==> q in s
  }

  /** A set that holds the seed and is closed under neighbours holds the whole component. */
  lemma ClosedSetHoldsComponent(mask: set<Pixel>, seed: Pixel, s: set<Pixel>)
    requires ClosedIn(mask, s) && (seed in mask ==> seed in s)
    ensures Component(mask, seed) <= s
  {
    forall p | p in Component(mask, seed) ensures p in s {
      var path :| IsPath(mask, path, seed, p);
      PathStaysIn(mask, s, path, seed, p, |path| - 1);
    }
  }

  lemma {:induction false} PathStaysIn(mask: set<Pixel>, s: set<Pixel>, path: seq<Pixel>, from: Pixel, to: Pixel, k: nat)
    requires ClosedIn(mask, s) && IsPath(mask, path, from, to) && from in s && k < |path|
    ensures path[k] in s
  {
    if k > 0 {
      PathStaysIn(mask, s, path, from, to, k - 1);
      assert Adjacent(path[k - 1], path[k]);
    }
  }

  /** A larger mask has a larger component. */
  lemma ComponentMonotone(small: set<Pixel>, large: set<Pixel>, seed: Pixel)
    requires small <= large
    ensures Component(small, seed) <= Component(large, seed)
  {
    forall p | p in Component(small, seed) ensures p in Component(large, seed) {
      var path :| IsPath(small, path, seed, p);
      assert IsPath(large, path, seed, p);
    }
  }

  /** Seen from inside: a component of a smaller mask that meets a component lies inside it. */
  lemma MeetingComponentIsInside(small: set<Pixel>, smallSeed: Pixel, large: set<Pixel>, seed: Pixel, meet: Pixel)
    requires small <= large
    requires meet in Component(small, smallSeed) && meet in Component(large, seed)
    ensures Component(small, smallSeed) <= Component(large, seed)
  {
    var back :| IsPath(small, back, smallSeed, meet);
    PathEndsTogether(large, seed, back, |back| - 1);
    assert smallSeed in Component(large, seed);
    var s := Component(large, seed);
    forall p, q | p in s && q in small && Adjacent(p, q) ensures q in s {
      ComponentStep(large, seed, p, q);
    }
    ClosedSetHoldsComponent(small, smallSeed, s);
  }

  /** Walking a path backwards from a pixel of the component stays in the component. */
  lemma {:induction false} PathEndsTogether(mask: set<Pixel>, seed: Pixel, path: seq<Pixel>, k: nat)
    requires k < |path| && path[k] in Component(mask, seed)
    requires forall i :: 0 <= i < |path| ==> path[i] in mask
    requires forall i :: 0 < i < |path| ==> Adjacent(path[i - 1], path[i])
    ensures path[0] in Component(mask, seed)
  {
    if k > 0 {
      assert Adjacent(path[k], path[k - 1]);
      ComponentStep(mask, seed, path[k], path[k - 1]);
      PathEndsTogether(mask, seed, path, k - 1);
    }
  }

  /** The component of a component is itself: removing what lies outside changes nothing. */
  lemma ComponentOfBetween(mask: set<Pixel>, between: set<Pixel>, seed: Pixel)
    requires Component(mask, seed) <= between <= mask
    ensures Component(between, seed) == Component(mask, seed)
  {
    ComponentMonotone(between, mask, seed);
    forall p | p in Component(mask, seed) ensures p in Component(between, seed) {
      var path :| IsPath(mask, path, seed, p);
      forall i | 0 <= i < |path| ensures path[i] in between {
        assert IsPath(mask, path[..i + 1], seed, path[i]);
      }
      assert IsPath(between, path, seed, p);
    }
  }

  /** The true pixels of a boolean array. */
  ghost function TruePixels(a: array2<bool>): (r: set<Pixel>)
    reads a
    ensures forall p :: p in r <==> InFrame(p, a.Length0, a.Length1) && a[p.y, p.x]
  {
    set p | p in Frame(a.Length0, a.Length1) && a[p.y, p.x]
  }

  /** Every seen pixel that is not waiting in `open` has all its mask neighbours seen. */
  ghost predicate Expanded(mask: set<Pixel>, seen: set<Pixel>, open: set<Pixel>) {
    forall p, q :: p in seen && p !in open && q in mask && Adjacent(p, q) ==> q in seen
  }

  ghost function Neighbours(p: Pixel): (r: set<Pixel>)
    ensures forall q :: q in r <==> Adjacent(p, q)
  {
    {Pixel(p.y - 1, p.x), Pixel(p.y + 1, p.x), Pixel(p.y, p.x - 1), Pixel(p.y, p.x + 1)}
  }

  lemma OutsideSeedHasNoComponent(mask: set<Pixel>, seed: Pixel)
    requires seed !in mask
    ensures Component(mask, seed) == {}
  {}

  /** One iteration: `p` left the stack and its unmarked mask neighbours entered it. */
  lemma Expansion(mask: set<Pixel>, seed: Pixel, p: Pixel, before: set<Pixel>, after: set<Pixel>,
                  openBefore: set<Pixel>, openAfter: set<Pixel>)
    requires p in before && p in openBefore && before <= Component(mask, seed)
    requires Expanded(mask, before, openBefore)
    requires after == before + mask * Neighbours(p)
    requires openBefore - {p} <= openAfter && after - before <= openAfter
    ensures after <= Component(mask, seed)
    ensures Expanded(mask, after, openAfter)
    ensures |mask - after| <= |mask - before| && (after != before ==> |mask - after| < |mask - before|)
  {
    forall q | q in mask * Neighbours(p) ensures q in Component(mask, seed) {
      ComponentStep(mask, seed, p, q);
    }
    CardinalityMonotone(mask - after, mask - before);
    if after != before {
      assert after - before != {};
      var q :| q in after - before;
      CardinalityMonotone(mask - after, mask - before - {q});
    }
  }

  /** The boolean array `a` is the mask `s`. */
  ghost predicate Marks(a: array2<bool>, s: set<Pixel>)
    reads a
  {
    s == TruePixels(a)
  }

  /** The fill so far: the stack, the marked pixels and how many pushes there were. */
  datatype Fill = Fill(stack: seq<Pixel>, seen: set<Pixel>, pushes: nat)

  /** Marks and pushes `n` unless it is outside the mask or already marked. */
  ghost function Push(mask: set<Pixel>, f: Fill, n: Pixel): Fill {
    if n in mask && n !in f.seen then Fill(f.stack + [n], f.seen + {n}, f.pushes + 1) else f
  }

  ghost function PushAll(mask: set<Pixel>, f: Fill, ns: seq<Pixel>): Fill
    decreases |ns|
  {
    if ns == [] then f else PushAll(mask, Push(mask, f, ns[0]), ns[1..])
  }

  /** `g` continues `f`: what was marked since then is pushed, once each. */
  ghost predicate Continues(f: Fill, g: Fill) {
    && f.seen <= g.seen
    && Elements(g.stack) == Elements(f.stack) + (g.seen - f.seen)
    && g.pushes - f.pushes == |g.seen| - |f.seen|
    && (g.seen == f.seen ==> g == f)
  }

  lemma PushContinues(mask: set<Pixel>, f: Fill, g: Fill, n: Pixel)
    requires Continues(f, g)
    ensures Continues(f, Push(mask, g, n)) && Push(mask, g, n).seen == g.seen + mask * {n}
  {
    if n in mask && n !in g.seen {
      assert Elements(g.stack + [n]) == Elements(g.stack) + {n};
    }
  }

  lemma {:induction false} PushAllContinues(mask: set<Pixel>, f: Fill, g: Fill, ns: seq<Pixel>)
    requires Continues(f, g)
    ensures Continues(f, PushAll(mask, g, ns)) && PushAll(mask, g, ns).seen == g.seen + mask * Elements(ns)
    decreases |ns|
  {
    if ns != [] {
      PushContinues(mask, f, g, ns[0]);
      PushAllContinues(mask, f, Push(mask, g, ns[0]), ns[1..]);
      assert Elements(ns) == {ns[0]} + Elements(ns[1..]);
    }
  }

  function NeighbourList(p: Pixel): seq<Pixel> {
    [Pixel(p.y - 1, p.x), Pixel(p.y + 1, p.x), Pixel(p.y, p.x - 1), Pixel(p.y, p.x + 1)]
  }

  ghost predicate FillInv(mask: set<Pixel>, seed: Pixel, f: Fill) {
    && f.pushes == |f.seen|
    && seed in f.seen && f.seen <= Component(mask, seed) && Elements(f.stack) <= f.seen
    && Expanded(mask, f.seen, Elements(f.stack))
  }

  lemma Iteration(mask: set<Pixel>, seed: Pixel, f: Fill, p: Pixel, rest: seq<Pixel>, g: Fill)
    requires FillInv(mask, seed, f) && f.stack == rest + [p]
    requires g == PushAll(mask, f.(stack := rest), NeighbourList(p))
    ensures FillInv(mask, seed, g)
    ensures |mask - g.seen| <= |mask - f.seen|
    ensures |mask - g.seen| == |mask - f.seen| ==> |g.stack| < |f.stack|
  {
    var popped := f.(stack := rest);
    PushAllContinues(mask, popped, popped, NeighbourList(p));
    assert Elements(NeighbourList(p)) == Neighbours(p);
    assert Elements(f.stack) == Elements(rest) + {p};
    Expansion(mask, seed, p, f.seen, g.seen, Elements(f.stack), Elements(g.stack));
  }

  method Visit(mask: array2<bool>, component: array2<bool>, n: Pixel, stack: seq<Pixel>,
               ghost trueMask: set<Pixel>, ghost f: Fill)
    returns (stack': seq<Pixel>, ghost f': Fill)
    requires mask != component && component.Length0 == mask.Length0 && component.Length1 == mask.Length1
    requires Marks(mask, trueMask) && Marks(component, f.seen) && f.stack == stack
    modifies component
    ensures Marks(mask, trueMask) && Marks(component, f'.seen) && f'.stack == stack'
    ensures f' == Push(trueMask, f, n)
  {
    stack', f' := stack, Push(trueMask, f, n);
    if InFrame(n, mask.Length0, mask.Length1) && mask[n.y, n.x] && !component[n.y, n.x] {
      component[n.y, n.x] := true;
      stack' := stack + [n];
    }
  }

  method VisitAll(mask: array2<bool>, component: array2<bool>, neighbours: seq<Pixel>, stack: seq<Pixel>,
                  ghost trueMask: set<Pixel>, ghost f: Fill)
    returns (stack': seq<Pixel>, ghost f': Fill)
    requires mask != component && component.Length0 == mask.Length0 && component.Length1 == mask.Length1
    requires Marks(mask, trueMask) && Marks(component, f.seen) && f.stack == stack
    modifies component
    ensures Marks(mask, trueMask) && Marks(component, f'.seen) && f'.stack == stack'
    ensures f' == PushAll(trueMask, f, neighbours)
  {
    stack', f' := stack, f;
    for k := 0 to |neighbours|
      invariant Marks(mask, trueMask) && Marks(component, f'.seen) && f'.stack == stack'
      invariant PushAll(trueMask, f', neighbours[k..]) == PushAll(trueMask, f, neighbours)
    {
      stack', f' := Visit(mask, component, neighbours[k], stack', trueMask, f');
    }
  }

  /** One turn of the loop: pop a pixel, visit its four neighbours. */
  method PopAndVisit(mask: array2<bool>, component: array2<bool>, stack: seq<Pixel>,
                     ghost seed: Pixel, ghost trueMask: set<Pixel>, ghost f: Fill)
    returns (stack': seq<Pixel>, ghost f': Fill)
    requires mask != component && component.Length0 == mask.Length0 && component.Length1 == mask.Length1
    requires Marks(mask, trueMask) && Marks(component, f.seen) && f.stack == stack != []
    requires FillInv(trueMask, seed, f)
    modifies component
    ensures Marks(mask, trueMask) && Marks(component, f'.seen) && f'.stack == stack'
    ensures FillInv(trueMask, seed, f')
    ensures |trueMask - f'.seen| <= |trueMask - f.seen|
    ensures |trueMask - f'.seen| == |trueMask - f.seen| ==> |stack'| < |stack|
  {
    var p, rest := stack[|stack| - 1], stack[..|stack| - 1];
    assert stack == rest + [p];
    stack', f' := VisitAll(mask, component, NeighbourList(p), rest, trueMask, f.(stack := rest));
    Iteration(trueMask, seed, f, p, rest, f');
  }

  method ConnectedComponentMask(mask: array2<bool>, seed: Pixel)
    returns (component: array2<bool>, ghost pushes: nat)
    ensures fresh(component) && component.Length0 == mask.Length0 && component.Length1 == mask.Length1
    ensures TruePixels(component) == Component(TruePixels(mask), seed)
    // One push for each pixel of the component: none is pushed twice.
    ensures pushes == |Component(TruePixels(mask), seed)|
  {
    component := new bool[mask.Length0, mask.Length1]((i, j) => false);
    ghost var trueMask := TruePixels(mask);
    pushes := 0;
    if !InFrame(seed, mask.Length0, mask.Length1) || !mask[seed.y, seed.x] {
      OutsideSeedHasNoComponent(trueMask, seed);
      return;
    }
    SeedInComponent(trueMask, seed);
    component[seed.y, seed.x] := true;
    var stack := [seed];
    ghost var f := Fill(stack, {seed}, 1);
    while stack != []
      invariant fresh(component) && component.Length0 == mask.Length0 && component.Length1 == mask.Length1
      invariant Marks(mask, trueMask) && Marks(component, f.seen) && f.stack == stack
      invariant FillInv(trueMask, seed, f)
      decreases |trueMask - f.seen|, |stack|
    {
      stack, f := PopAndVisit(mask, component, stack, seed, trueMask, f);
    }
    ClosedSetHoldsComponent(trueMask, seed, f.seen);
    pushes := f.pushes;
  }
}
