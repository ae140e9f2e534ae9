/** The bounded walks over untrusted JSON: an explicit stack, and a refusal as
    soon as the nodes seen and the nodes waiting exceed the limit. */
module JsonWalk {
  import opened Json

  const NATIVE_MAX_NODES: nat := 16384
  const NATIVE_MAX_DEPTH: nat := 64
  const TRANSCRIPT_MAX_NODES: nat := 65536
  const TRANSCRIPT_MAX_DEPTH: nat := 32

  /** A value without its contents: only what holds what. */
  datatype Tree = Tree(kids: seq<Tree>)

  ghost function Shape(v: Json): Tree
    decreases v
  {
    Tree(seq(|Children(v)|, i requires 0 <= i < |Children(v)| => Shape(Children(v)[i])))
  }

  /** The number of values in a tree, itself included. */
  ghost function Size(t: Tree): (n: nat)
    ensures n >= 1
    decreases t, 1
  {
    1 + SizeOfAll(t.kids)
  }

  ghost function SizeOfAll(ts: seq<Tree>): nat
    decreases ts, 0
  {
    if ts == [] then 0 else Size(ts[0]) + SizeOfAll(ts[1..])
  }

  /** How many levels a tree has below its root. */
  ghost function Height(t: Tree): nat
    decreases t, 1
  {
    HeightOfAll(t.kids)
  }

  /** How many levels the trees have, under a common root. */
  ghost function HeightOfAll(ts: seq<Tree>): nat
    decreases ts, 0
  {
    if ts == [] then 0 else Max(1 + Height(ts[0]), HeightOfAll(ts[1..]))
  }

  function Max(a: nat, b: nat): nat { if a < b then b else a }

  ghost function Nodes(v: Json): nat { Size(Shape(v)) }

  ghost function Depth(v: Json): nat { Height(Shape(v)) }

  /** What both walks decide. */
  ghost predicate Bounded(v: Json, maxNodes: nat, maxDepth: nat) {
    Nodes(v) <= maxNodes && Depth(v) <= maxDepth
  }

  type Stack = seq<(Json, nat)>

  type Trees = seq<(Tree, nat)>

  ghost function Waiting(stack: Trees): nat {
    if stack == [] then 0 else Waiting(stack[..|stack| - 1]) + Size(stack[|stack| - 1].0)
  }

  ghost predicate AllWithin(stack: Trees, maxDepth: nat) {
    forall i :: 0 <= i < |stack| ==> stack[i].1 + Height(stack[i].0) <= maxDepth
  }

  function Pushed(v: Json, depth: nat): (stack: Stack)
    ensures |stack| == |Children(v)|
    ensures forall i :: 0 <= i < |stack| ==> stack[i] == (Children(v)[i], depth + 1)
  {
    seq(|Children(v)|, i requires 0 <= i < |Children(v)| => (Children(v)[i], depth + 1))
  }

  ghost function Kids(ts: seq<Tree>, depth: nat): (stack: Trees)
    ensures |stack| == |ts|
    ensures forall i :: 0 <= i < |stack| ==> stack[i] == (ts[i], depth + 1)
  {
    seq(|ts|, i requires 0 <= i < |ts| => (ts[i], depth + 1))
  }

  // Trees on a stack.

  lemma {:induction false} WaitingAppend(stack: Trees, more: Trees)
    ensures Waiting(stack + more) == Waiting(stack) + Waiting(more)
  {
    if more == [] {
      assert stack + more == stack;
    } else {
      var front := more[..|more| - 1];
      WaitingAppend(stack, front);
      assert (stack + more)[..|stack + more| - 1] == stack + front;
    }
  }

  lemma WaitingOne(entry: (Tree, nat))
    ensures Waiting([entry]) == Size(entry.0)
  {
    var one: Trees := [entry];
    assert one[..|one| - 1] == [];
  }

  lemma {:induction false} WaitingKids(ts: seq<Tree>, depth: nat)
    ensures Waiting(Kids(ts, depth)) == SizeOfAll(ts)
  {
    if ts != [] {
      var first: Trees := [(ts[0], depth + 1)];
      WaitingKids(ts[1..], depth);
      WaitingAppend(first, Kids(ts[1..], depth));
      WaitingOne((ts[0], depth + 1));
      assert Kids(ts, depth) == first + Kids(ts[1..], depth);
    }
  }

  /** A tree waiting is at least one node. */
  lemma {:induction false} WaitingAtLeast(stack: Trees)
    ensures Waiting(stack) >= |stack|
  {
    if stack != [] {
      WaitingAtLeast(stack[..|stack| - 1]);
    }
  }

  lemma AllWithinAppend(stack: Trees, more: Trees, maxDepth: nat)
    ensures AllWithin(stack + more, maxDepth) <==> AllWithin(stack, maxDepth) && AllWithin(more, maxDepth)
  {
    var all := stack + more;
    assert forall i :: 0 <= i < |stack| ==> all[i] == stack[i];
    assert forall i :: 0 <= i < |more| ==> more[i] == all[|stack| + i];
  }

  lemma AllWithinOne(entry: (Tree, nat), maxDepth: nat)
    ensures AllWithin([entry], maxDepth) <==> entry.1 + Height(entry.0) <= maxDepth
  {
    var one: Trees := [entry];
    assert one[0] == entry;
  }

  lemma {:induction false} AllWithinKids(ts: seq<Tree>, depth: nat, maxDepth: nat)
    requires depth <= maxDepth
    ensures AllWithin(Kids(ts, depth), maxDepth) <==> depth + HeightOfAll(ts) <= maxDepth
  {
    if ts != [] {
      var first: Trees := [(ts[0], depth + 1)];
      AllWithinKids(ts[1..], depth, maxDepth);
      AllWithinAppend(first, Kids(ts[1..], depth), maxDepth);
      AllWithinOne((ts[0], depth + 1), maxDepth);
      assert Kids(ts, depth) == first + Kids(ts[1..], depth);
    }
  }

  /** Popping a tree and pushing its kids takes one node away ... */
  lemma ExpandWaiting(rest: Trees, t: Tree, depth: nat)
    ensures Waiting(rest + [(t, depth)]) == 1 + Waiting(rest + Kids(t.kids, depth))
  {
    WaitingAppend(rest, [(t, depth)]);
    WaitingOne((t, depth));
    WaitingAppend(rest, Kids(t.kids, depth));
    WaitingKids(t.kids, depth);
  }

  /** ... and keeps the depth question. */
  lemma ExpandDepth(rest: Trees, t: Tree, depth: nat, maxDepth: nat)
    ensures AllWithin(rest + [(t, depth)], maxDepth) <==>
            depth <= maxDepth && AllWithin(rest + Kids(t.kids, depth), maxDepth)
  {
    AllWithinAppend(rest, [(t, depth)], maxDepth);
    AllWithinOne((t, depth), maxDepth);
    AllWithinAppend(rest, Kids(t.kids, depth), maxDepth);
    if depth <= maxDepth {
      AllWithinKids(t.kids, depth, maxDepth);
    }
  }

  // The walks.

  ghost function Shapes(stack: Stack): (trees: Trees)
    ensures |trees| == |stack|
    ensures forall i :: 0 <= i < |trees| ==> trees[i] == (Shape(stack[i].0), stack[i].1)
  {
    seq(|stack|, i requires 0 <= i < |stack| => (Shape(stack[i].0), stack[i].1))
  }

  lemma ShapesAppend(stack: Stack, more: Stack)
    ensures Shapes(stack + more) == Shapes(stack) + Shapes(more)
  {
  }

  lemma ShapesPushed(v: Json, depth: nat)
    ensures Shapes(Pushed(v, depth)) == Kids(Shape(v).kids, depth)
  {
  }

  /** The invariant of both walks. */
  ghost predicate Walking(root: Tree, trees: Trees, seen: nat, maxDepth: nat) {
    && seen + Waiting(trees) == Size(root)
    && (AllWithin(trees, maxDepth) <==> Height(root) <= maxDepth)
  }

  lemma StartOfWalk(value: Json, maxDepth: nat)
    ensures Walking(Shape(value), Shapes([(value, 0)]), 0, maxDepth)
  {
    var trees := Shapes([(value, 0)]);
    assert trees == [(Shape(value), 0)];
    WaitingOne((Shape(value), 0));
    AllWithinOne((Shape(value), 0), maxDepth);
  }

  /** One tree is taken from the stack and its kids take its place. */
  lemma StepOfTrees(root: Tree, rest: Trees, t: Tree, depth: nat, seen: nat, maxDepth: nat)
    requires Walking(root, rest + [(t, depth)], seen, maxDepth)
    ensures var next := rest + Kids(t.kids, depth);
            && Waiting(next) < Waiting(rest + [(t, depth)])
            && |next| <= Waiting(next)
            && seen + 1 + Waiting(next) == Size(root)
            && (depth > maxDepth ==> Height(root) > maxDepth)
            && (depth <= maxDepth ==> Walking(root, next, seen + 1, maxDepth))
  {
    ExpandWaiting(rest, t, depth);
    ExpandDepth(rest, t, depth, maxDepth);
    WaitingAtLeast(rest + Kids(t.kids, depth));
  }

  lemma TopOfShapes(rest: Stack, item: Json, depth: nat)
    ensures Shapes(rest + [(item, depth)]) == Shapes(rest) + [(Shape(item), depth)]
    ensures Shapes(rest + Pushed(item, depth)) == Shapes(rest) + Kids(Shape(item).kids, depth)
  {
    ShapesAppend(rest, [(item, depth)]);
    ShapesAppend(rest, Pushed(item, depth));
    ShapesPushed(item, depth);
    assert Shapes([(item, depth)]) == [(Shape(item), depth)];
  }

  lemma StepOfWalk(root: Tree, stack: Stack, seen: nat, maxDepth: nat)
    requires stack != [] && Walking(root, Shapes(stack), seen, maxDepth)
    ensures var (item, depth) := stack[|stack| - 1];
            var next := stack[..|stack| - 1] + Pushed(item, depth);
            && Waiting(Shapes(next)) < Waiting(Shapes(stack))
            && |next| <= Waiting(Shapes(next))
            && seen + 1 + Waiting(Shapes(next)) == Size(root)
            && (depth > maxDepth ==> Height(root) > maxDepth)
            && (depth <= maxDepth ==> Walking(root, Shapes(next), seen + 1, maxDepth))
  {
    var (item, depth) := stack[|stack| - 1];
    var rest := stack[..|stack| - 1];
    assert stack == rest + [(item, depth)];
    TopOfShapes(rest, item, depth);
    StepOfTrees(root, Shapes(rest), Shape(item), depth, seen, maxDepth);
  }

  lemma NothingPushed(stack: Stack, v: Json, depth: nat)
    requires !v.Obj? && !v.Arr?
    ensures stack + Pushed(v, depth) == stack
  {
  }

  /** The walk of the native item contract. `peak` is the most values ever
      waiting on the stack. */
  method BoundedJson(value: Json, maxNodes: nat, maxDepth: nat) returns (ok: bool, peak: nat)
    requires maxNodes >= 1
    ensures ok <==> Bounded(value, maxNodes, maxDepth)
    ensures peak <= maxNodes
  {
    var pending: Stack := [(value, 0)];
    var count := 0;
    peak := 1;
    ghost var root := Shape(value);
    StartOfWalk(value, maxDepth);
    while pending != []
      invariant Walking(root, Shapes(pending), count, maxDepth)
      invariant count + |pending| <= maxNodes && peak <= maxNodes
      decreases Waiting(Shapes(pending))
    {
      var (item, depth) := pending[|pending| - 1];
      StepOfWalk(root, pending, count, maxDepth);
      pending := pending[..|pending| - 1];
      count := count + 1;
      if count > maxNodes || depth > maxDepth {
        return false, peak;
      }
      match item {
        case Obj(members) =>
          if count + |pending| + |members| > maxNodes {
            return false, peak;
          }
          pending := pending + Pushed(item, depth);
        case Arr(elements) =>
          if count + |pending| + |elements| > maxNodes {
            return false, peak;
          }
          pending := pending + Pushed(item, depth);
        case _ =>
          NothingPushed(pending, item, depth);
      }
      if |pending| > peak {
        peak := |pending|;
      }
    }
    ok := true;
  }

  /** The walk of the transcription response: the same decision, with the early
      refusal for every value. */
  method WalkResponse(value: Json, maxNodes: nat, maxDepth: nat) returns (ok: bool, peak: nat)
    requires maxNodes >= 1
    ensures ok <==> Bounded(value, maxNodes, maxDepth)
    ensures peak <= maxNodes
  {
    var stack: Stack := [(value, 0)];
    var seen := 0;
    peak := 1;
    ghost var root := Shape(value);
    StartOfWalk(value, maxDepth);
    while stack != []
      invariant Walking(root, Shapes(stack), seen, maxDepth)
      invariant seen + |stack| <= maxNodes && peak <= maxNodes
      decreases Waiting(Shapes(stack))
    {
      var (item, depth) := stack[|stack| - 1];
      StepOfWalk(root, stack, seen, maxDepth);
      stack := stack[..|stack| - 1];
      seen := seen + 1;
      if seen > maxNodes || depth > maxDepth {
        return false, peak;
      }
      var children := match item
        case Obj(members) => |members|
        case Arr(elements) => |elements|
        case _ => 0;
      if seen + |stack| + children > maxNodes {
        return false, peak;
      }
      stack := stack + Pushed(item, depth);
      if |stack| > peak {
        peak := |stack|;
      }
    }
    ok := true;
  }

  /** The limits of a native item. */
  method CheckNative(value: Json) returns (ok: bool)
    ensures ok <==> Nodes(value) <= 16_384 && Depth(value) <= 64
  {
    var peak;
    ok, peak := BoundedJson(value, NATIVE_MAX_NODES, NATIVE_MAX_DEPTH);
  }

  /** The limits of a transcription response. */
  method CheckTranscript(value: Json) returns (ok: bool)
    ensures ok <==> Nodes(value) <= 65_536 && Depth(value) <= 32
  {
    var peak;
    ok, peak := WalkResponse(value, TRANSCRIPT_MAX_NODES, TRANSCRIPT_MAX_DEPTH);
  }
}
