/** Merkle trees: the queue-driven builder, proof extraction and proof evaluation, over an
    arbitrary pair hash. */
module Merkle {
  import opened Types
  import opened Arith

  type PairHash = (int, int) -> int

  /** A node over two leaf values, a node over two nodes, or a bare root standing for a subtree. */
  datatype Node = Pair(first: int, second: int) | Branch(left: Node, right: Node) | Stub(value: int)

  datatype Proof = Proof(position: int, leaves: seq<int>)

  function Root(h: PairHash, n: Node): int {
    match n
    case Pair(a, b) => h(a, b)
    case Branch(a, b) => h(Root(h, a), Root(h, b))
    case Stub(v) => v
  }

  /** The stored leaf values: zero unless the node is a pair of leaves. */
  function LeafVals(n: Node): (int, int) {
    if n.Pair? then (n.first, n.second) else (0, 0)
  }

  function LeftVal(h: PairHash, n: Node): int {
    if n.Branch? then Root(h, n.left) else LeafVals(n).0
  }

  function RightVal(h: PairHash, n: Node): int {
    if n.Branch? then Root(h, n.right) else LeafVals(n).1
  }

  /** No bare roots: what the builder makes. */
  predicate Built(n: Node) {
    match n
    case Pair(_, _) => true
    case Branch(a, b) => Built(a) && Built(b)
    case Stub(_) => false
  }

  /** The leaf values from left to right, repeats included. */
  function Flat(n: Node): seq<int> {
    match n
    case Pair(a, b) => [a, b]
    case Branch(a, b) => Flat(a) + Flat(b)
    case Stub(_) => []
  }

  function FlatAll(nodes: seq<Node>): seq<int> {
    if nodes == [] then [] else Flat(nodes[0]) + FlatAll(nodes[1..])
  }

  // ---- building ----

  /** One level: items taken two at a time, an odd last item paired with itself. */
  function PairUp<T>(s: seq<T>, make: (T, T) -> Node): (r: seq<Node>)
    ensures |r| == (|s| + 1) / 2
  {
    if |s| == 0 then []
    else if |s| == 1 then [make(s[0], s[0])]
    else [make(s[0], s[1])] + PairUp(s[2..], make)
  }

  lemma PairFirst<T>(done: seq<Node>, two: seq<T>, rest: seq<T>, make: (T, T) -> Node)
    requires |two| == 2
    ensures done + PairUp(two + rest, make) == (done + [make(two[0], two[1])]) + PairUp(rest, make)
  {
    assert (two + rest)[2..] == rest;
  }

  lemma PairLast<T>(queue: seq<T>, make: (T, T) -> Node)
    requires |queue| <= 2
    ensures PairUp(queue, make) == if |queue| == 0 then [] else [make(queue[0], queue[|queue| - 1])]
  {
  }

  method PairLevel<T>(items: seq<T>, make: (T, T) -> Node) returns (nodes: seq<Node>)
    ensures nodes == PairUp(items, make)
  {
    hide PairUp;
    ghost var goal := PairUp(items, make);
    nodes := [];
    var queue: seq<T> := [];
    assert queue + items[0..] == items;
    for i := 0 to |items|
      invariant |queue| <= 2
      invariant i > 0 ==> |queue| > 0
      invariant nodes + PairUp(queue + items[i..], make) == goal
    {
      if |queue| < 2 {
        assert queue + items[i..] == queue + [items[i]] + items[i + 1..];
        queue := queue + [items[i]];
      } else {
        PairFirst(nodes, queue, items[i..], make);
        assert items[i..] == [items[i]] + items[i + 1..];
        nodes := nodes + [make(queue[0], queue[1])];
        queue := [items[i]];
      }
    }
    assert queue + items[|items|..] == queue;
    PairLast(queue, make);
    if |queue| > 0 {
      nodes := nodes + [make(queue[0], queue[|queue| - 1])];
    }
  }

  function Collapse(nodes: seq<Node>): Node
    requires |nodes| > 0
    decreases |nodes|
  {
    if |nodes| == 1 then nodes[0] else Collapse(PairUp(nodes, (a, b) => Branch(a, b)))
  }

  function Tree(leaves: seq<int>): Node
    requires |leaves| > 0
  {
    Collapse(PairUp(leaves, (a, b) => Pair(a, b)))
  }

  method MakeTree(leaves: seq<int>) returns (tree: Node)
    requires |leaves| > 0
    ensures tree == Tree(leaves)
  {
    var nodes := PairLevel(leaves, (a, b) => Pair(a, b));
    while |nodes| > 1
      invariant |nodes| > 0
      invariant Collapse(nodes) == Tree(leaves)
      decreases |nodes|
    {
      nodes := PairLevel(nodes, (a, b) => Branch(a, b));
    }
    return nodes[0];
  }

  /** All nodes are built and every root-to-leaf path has `depth` nodes. */
  predicate Even(n: Node, depth: nat)
    decreases n
  {
    match n
    case Pair(_, _) => depth == 1
    case Branch(a, b) => depth > 1 && Even(a, depth - 1) && Even(b, depth - 1)
    case Stub(_) => false
  }

  ghost predicate AllEven(nodes: seq<Node>, depth: nat) {
    forall n :: n in nodes ==> Even(n, depth)
  }

  lemma {:induction false} PairLeaves(s: seq<int>)
    ensures var r := PairUp(s, (a, b) => Pair(a, b)); AllEven(r, 1) && s <= FlatAll(r)
  {
    if |s| > 1 {
      PairLeaves(s[2..]);
      var rest := PairUp(s[2..], (a, b) => Pair(a, b));
      assert FlatAll([Pair(s[0], s[1])] + rest) == [s[0], s[1]] + FlatAll(rest);
      assert s == [s[0], s[1]] + s[2..];
    } else if |s| == 1 {
      assert FlatAll([Pair(s[0], s[0])]) == [s[0], s[0]] + [];
    }
  }

  lemma FlatFront(n: Node, rest: seq<Node>)
    ensures FlatAll([n] + rest) == Flat(n) + FlatAll(rest)
  {
    assert ([n] + rest)[1..] == rest;
  }

  lemma BranchOf(a: Node, b: Node, depth: nat)
    requires depth > 0 && Even(a, depth) && Even(b, depth)
    ensures Even(Branch(a, b), depth + 1) && Flat(Branch(a, b)) == Flat(a) + Flat(b)
  {
  }

  lemma {:induction false} PairNodes(s: seq<Node>, depth: nat)
    requires AllEven(s, depth) && depth > 0
    ensures var r := PairUp(s, (a, b) => Branch(a, b)); AllEven(r, depth + 1) && FlatAll(s) <= FlatAll(r)
  {
    if |s| > 1 {
      PairNodes(s[2..], depth);
      var rest := PairUp(s[2..], (a, b) => Branch(a, b));
      assert PairUp(s, (a, b) => Branch(a, b)) == [Branch(s[0], s[1])] + rest;
      assert s[0] in s && s[1] in s;
      hide Even, Flat, PairUp;
      FlatFront(Branch(s[0], s[1]), rest);
      FlatFront(s[0], s[1..]);
      FlatFront(s[1], s[2..]);
      assert s == [s[0]] + s[1..] && s[1..] == [s[1]] + s[2..];
      BranchOf(s[0], s[1], depth);
      hide FlatAll;
    } else if |s| == 1 {
      assert s[0] in s;
      assert FlatAll([Branch(s[0], s[0])]) == Flat(s[0]) + Flat(s[0]) + [];
      assert FlatAll(s) == Flat(s[0]) + [];
    }
  }

  lemma {:induction false} CollapseCovers(nodes: seq<Node>, depth: nat) returns (d: nat)
    requires |nodes| > 0 && depth > 0 && AllEven(nodes, depth)
    ensures d > 0 && Even(Collapse(nodes), d) && FlatAll(nodes) <= Flat(Collapse(nodes))
    decreases |nodes|
  {
    if |nodes| == 1 {
      d := depth;
      assert FlatAll(nodes) == Flat(nodes[0]) + [];
    } else {
      PairNodes(nodes, depth);
      d := CollapseCovers(PairUp(nodes, (a, b) => Branch(a, b)), depth + 1);
    }
  }

  /** The built tree is even, and its leaves from left to right start with the given ones. */
  lemma TreeCovers(leaves: seq<int>) returns (d: nat)
    requires |leaves| > 0
    ensures d > 0 && Even(Tree(leaves), d) && leaves <= Flat(Tree(leaves))
  {
    PairLeaves(leaves);
    d := CollapseCovers(PairUp(leaves, (a, b) => Pair(a, b)), 1);
  }

  // ---- the root, without the tree ----

  /** The hashes one level up: neighbours hashed in order, an odd last value with itself. */
  ghost function Level(h: PairHash, vs: seq<int>): (r: seq<int>)
    ensures |r| == (|vs| + 1) / 2
  {
    seq((|vs| + 1) / 2, i requires 0 <= i < (|vs| + 1) / 2 => h(vs[2 * i], if 2 * i + 1 < |vs| then vs[2 * i + 1] else vs[2 * i]))
  }

  ghost function LevelRoot(h: PairHash, vs: seq<int>): int
    requires |vs| > 0
    decreases |vs|
  {
    if |vs| == 1 then vs[0] else LevelRoot(h, Level(h, vs))
  }

  ghost function Roots(h: PairHash, nodes: seq<Node>): (r: seq<int>)
    ensures |r| == |nodes|
  {
    seq(|nodes|, i requires 0 <= i < |nodes| => Root(h, nodes[i]))
  }

  lemma {:induction false} PairAt<T>(s: seq<T>, make: (T, T) -> Node, i: nat)
    requires i < (|s| + 1) / 2
    ensures PairUp(s, make)[i] == make(s[2 * i], if 2 * i + 1 < |s| then s[2 * i + 1] else s[2 * i])
  {
    if |s| > 1 && i > 0 {
      PairAt(s[2..], make, i - 1);
    }
  }

  lemma {:induction false} CollapseRoot(h: PairHash, nodes: seq<Node>)
    requires |nodes| > 0
    ensures Root(h, Collapse(nodes)) == LevelRoot(h, Roots(h, nodes))
    decreases |nodes|
  {
    if |nodes| > 1 {
      RootsUp(h, nodes);
      hide Roots, Level, PairUp;
      CollapseRoot(h, PairUp(nodes, (a, b) => Branch(a, b)));
    }
  }

  lemma RootsUp(h: PairHash, nodes: seq<Node>)
    ensures Roots(h, PairUp(nodes, (a, b) => Branch(a, b))) == Level(h, Roots(h, nodes))
  {
    var up := PairUp(nodes, (a, b) => Branch(a, b));
    forall i | 0 <= i < |up| ensures Roots(h, up)[i] == Level(h, Roots(h, nodes))[i] {
      PairAt(nodes, (a, b) => Branch(a, b), i);
    }
  }

  /** The root of a built tree: hash neighbours, left before right, level by level. */
  lemma RootIs(h: PairHash, leaves: seq<int>)
    requires |leaves| > 0
    ensures Root(h, Tree(leaves)) == LevelRoot(h, Level(h, leaves))
  {
    var up := PairUp(leaves, (a, b) => Pair(a, b));
    CollapseRoot(h, up);
    forall i | 0 <= i < |up| ensures Roots(h, up)[i] == Level(h, leaves)[i] {
      PairAt(leaves, (a, b) => Pair(a, b), i);
    }
    assert Roots(h, up) == Level(h, leaves);
  }

  // ---- finding a leaf ----

  /** The search: the nodes from the one holding the needle up to this one, following ancestors. */
  function Find(n: Node, needle: int): Option<seq<Node>> {
    if LeafVals(n).0 == needle || LeafVals(n).1 == needle then Some([n])
    else if !n.Branch? then None
    else
      match Find(n.left, needle)
      case Some(path) => Some(path + [n])
      case None =>
        match Find(n.right, needle)
        case Some(path) => Some(path + [n])
        case None => None
  }

  /** A non-zero needle is found exactly when it is a leaf. */
  lemma {:induction false} FoundIffLeaf(n: Node, needle: int)
    requires Built(n) && needle != 0
    ensures Find(n, needle).Some? <==> needle in Flat(n)
  {
    if n.Branch? {
      FoundIffLeaf(n.left, needle);
      FoundIffLeaf(n.right, needle);
    }
  }

  // ---- extracting a proof ----

  function Sibling(h: PairHash, n: Node, v: int): int {
    if LeftVal(h, n) == v then RightVal(h, n) else LeftVal(h, n)
  }

  function Siblings(h: PairHash, path: seq<Node>, v: int): (r: seq<int>)
    ensures |r| == |path|
  {
    if path == [] then [] else [Sibling(h, path[0], v)] + Siblings(h, path[1..], Root(h, path[0]))
  }

  function Bit(h: PairHash, n: Node, v: int): nat {
    if LeftVal(h, n) == v then 0 else 1
  }

  /** The position bits along a path, the lowest node first. */
  function Bits(h: PairHash, path: seq<Node>, v: int): nat {
    if path == [] then 0 else Bit(h, path[0], v) + 2 * Bits(h, path[1..], Root(h, path[0]))
  }

  /** The extracted proof: every sibling, and the position bits of all nodes but the top one. */
  function Extract(h: PairHash, n: Node, needle: int): Option<Proof> {
    match Find(n, needle)
    case None => None
    case Some(path) =>
      Some(Proof(if path == [] then 0 else Bits(h, path[..|path| - 1], needle), [needle] + Siblings(h, path, needle)))
  }

  lemma {:induction false} FoundPath(n: Node, needle: int)
    requires Find(n, needle).Some?
    ensures var path := Find(n, needle).value; |path| > 0 && path[|path| - 1] == n
  {
  }

  method MakeProof(h: PairHash, n: Node, needle: int) returns (result: Option<Proof>)
    ensures result == Extract(h, n, needle)
  {
    var found := Find(n, needle);
    if found == None {
      return None;
    }
    var path := found.value;
    FoundPath(n, needle);
    var leaves, position, v, i, bit := [needle], 0, needle, 0, 1;
    ghost var top := |path| - 1;
    assert path[0..] == path && path[0..top] == path[..top];
    hide Sibling, Siblings, Bits, Find, Scaled, Root, LeftVal;
    ScaledUnit(Bits(h, path[..top], needle));
    ghost var goal := [needle] + Siblings(h, path, needle);
    while true
      invariant 0 <= i <= top && bit >= 0
      invariant leaves + Siblings(h, path[i..], v) == goal
      invariant position + Scaled(bit, Bits(h, path[i..top], v)) == Bits(h, path[..top], needle)
      decreases top - i
    {
      var node := path[i];
      ghost var before := leaves;
      leaves := leaves + [Sibling(h, node, v)];
      if i + 1 == |path| {
        assert path[i..] == [node] + [] && path[i..top] == [];
        PathTop(h, node, v, bit, before);
        break;
      }
      assert path[i..top] == [node] + path[i + 1..top];
      assert path[i..] == [node] + path[i + 1..];
      PathStep(h, node, path[i + 1..], path[i + 1..top], v, bit, before);
      if LeftVal(h, node) != v {
        position := position + bit;
      }
      v := Root(h, node);
      bit := 2 * bit;
      i := i + 1;
    }
    return Some(Proof(position, leaves));
  }

  function Scaled(bit: nat, x: nat): nat {
    bit * x
  }

  lemma ScaledUnit(x: nat)
    ensures Scaled(1, x) == x
  {
  }

  lemma PathTop(h: PairHash, n: Node, v: int, bit: nat, done: seq<int>)
    ensures done + Siblings(h, [n] + [], v) == done + [Sibling(h, n, v)] && Scaled(bit, Bits(h, [], v)) == 0
  {
    hide LeftVal, Sibling, Root, Siblings, Bits, Scaled;
    PathStep(h, n, [], [], v, bit, done);
    PathStep(h, n, [], [], Root(h, n), bit, done + [Sibling(h, n, v)]);
  }

  lemma PathStep(h: PairHash, n: Node, all: seq<Node>, below: seq<Node>, v: int, bit: nat, done: seq<int>)
    ensures done + Siblings(h, [n] + all, v) == (done + [Sibling(h, n, v)]) + Siblings(h, all, Root(h, n))
    ensures Scaled(bit, Bits(h, [n] + below, v))
         == (if LeftVal(h, n) == v then 0 else bit) + Scaled(2 * bit, Bits(h, below, Root(h, n)))
    ensures Scaled(bit, Bits(h, [], v)) == 0 && done + Siblings(h, [], v) == done
  {
    hide LeftVal, Sibling, Root;
    assert ([n] + all)[1..] == all && ([n] + below)[1..] == below;
    Doubles(bit, Bit(h, n, v), Bits(h, below, Root(h, n)));
  }

  lemma Doubles(b: nat, x: nat, y: nat)
    requires x <= 1
    ensures b * (x + 2 * y) == (if x == 0 then 0 else b) + (2 * b) * y
  {
    assert b * (2 * y) == (2 * b) * y;
    if x == 1 {
      assert b * (1 + 2 * y) == b + b * (2 * y);
    }
  }

  // ---- evaluating a proof ----

  /** Division by two rounding towards zero. */
  function Half(p: int): int {
    if p >= 0 then p / 2 else -((-p) / 2)
  }

  function Climb(h: PairHash, v: int, siblings: seq<int>, position: int): int
    decreases |siblings|
  {
    if siblings == [] then v
    else Climb(h, if position % 2 == 0 then h(v, siblings[0]) else h(siblings[0], v), siblings[1..], Half(position))
  }

  /** The root a proof leads to; an empty proof is refused. */
  function Evaluated(h: PairHash, p: Proof): Option<int> {
    if p.leaves == [] then None else Some(Climb(h, p.leaves[0], p.leaves[1..], p.position))
  }

  lemma ClimbOne(h: PairHash, v: int, siblings: seq<int>, position: int)
    requires |siblings| == 1
    ensures Climb(h, v, siblings, position) == if position % 2 == 0 then h(v, siblings[0]) else h(siblings[0], v)
  {
    assert siblings[1..] == [];
  }

  method TreeFromProof(h: PairHash, p: Proof) returns (tree: Option<Node>)
    ensures tree.None? <==> Evaluated(h, p).None?
    ensures tree.Some? ==> Some(Root(h, tree.value)) == Evaluated(h, p)
  {
    if |p.leaves| == 0 {
      return None;
    }
    var element := p.leaves[0];
    if |p.leaves| == 1 {
      return Some(Stub(element));
    }
    var sibling := p.leaves[1];
    var node := if p.position % 2 == 0 then Pair(element, sibling) else Pair(sibling, element);
    if |p.leaves| == 2 {
      ClimbOne(h, element, p.leaves[1..], p.position);
      return Some(node);
    }
    var position := Half(p.position);
    assert p.leaves[1..][1..] == p.leaves[2..];
    for i := 2 to |p.leaves|
      invariant Climb(h, Root(h, node), p.leaves[i..], position) == Climb(h, element, p.leaves[1..], p.position)
    {
      assert p.leaves[i..][1..] == p.leaves[i + 1..];
      node := if position % 2 == 0 then Branch(node, Stub(p.leaves[i])) else Branch(Stub(p.leaves[i]), node);
      position := Half(position);
    }
    return Some(node);
  }

  // ---- the round trip ----

  /** Each step of a path enters its node from the left or from the right. */
  predicate Enters(h: PairHash, path: seq<Node>, v: int) {
    path == [] ||
    (!path[0].Stub? && (v == LeftVal(h, path[0]) || v == RightVal(h, path[0])) && Enters(h, path[1..], Root(h, path[0])))
  }

  /** The value at the end of a path: the root of its last node, or the value itself. */
  function Last(h: PairHash, path: seq<Node>, v: int): int {
    if path == [] then v else Root(h, path[|path| - 1])
  }

  lemma {:induction false} EntersMore(h: PairHash, path: seq<Node>, n: Node, v: int)
    requires Enters(h, path, v) && !n.Stub?
    requires var u := Last(h, path, v); u == LeftVal(h, n) || u == RightVal(h, n)
    ensures Enters(h, path + [n], v)
  {
    if path == [] {
      assert (path + [n])[1..] == [];
    } else {
      assert (path + [n])[1..] == path[1..] + [n];
      EntersMore(h, path[1..], n, Root(h, path[0]));
    }
  }

  lemma {:induction false} FindEnters(h: PairHash, n: Node, needle: int)
    requires Built(n) && needle != 0 && Find(n, needle).Some?
    ensures Enters(h, Find(n, needle).value, needle)
  {
    if n.Branch? {
      FoundPath(n, needle);
      var child := if Find(n.left, needle).Some? then n.left else n.right;
      FindEnters(h, child, needle);
      FoundPath(child, needle);
      EntersMore(h, Find(child, needle).value, n, needle);
    } else {
      assert [n][1..] == [];
    }
  }

  /** Climbing with every sibling and every bit retraces the path. */
  lemma {:induction false} ClimbPath(h: PairHash, path: seq<Node>, v: int, top: Node)
    requires Enters(h, path + [top], v)
    ensures Climb(h, v, Siblings(h, path + [top], v), Bits(h, path, v))
         == h(Last(h, path, v), Sibling(h, top, Last(h, path, v)))
    decreases |path|
  {
    var all := path + [top];
    if path == [] {
      assert all[1..] == [];
      assert Siblings(h, all, v)[1..] == [];
    } else {
      assert all[1..] == path[1..] + [top];
      var up := Root(h, path[0]);
      ClimbPath(h, path[1..], up, top);
      assert Siblings(h, all, v)[1..] == Siblings(h, all[1..], up);
      StepsTo(h, path[0], v, Bits(h, path[1..], up));
      assert Last(h, path, v) == Last(h, path[1..], up);
    }
  }

  lemma StepsTo(h: PairHash, n: Node, v: int, rest: nat)
    requires !n.Stub? && (v == LeftVal(h, n) || v == RightVal(h, n))
    ensures var p := Bit(h, n, v) + 2 * rest;
            && Half(p) == rest
            && Root(h, n) == if p % 2 == 0 then h(v, Sibling(h, n, v)) else h(Sibling(h, n, v), v)
  {
  }

  /** The half of a tree under its left child. */
  function LeftHalf(n: Node): seq<int>
    requires !n.Stub?
  {
    if n.Pair? then [n.first] else Flat(n.left)
  }

  /** The extracted proof evaluates to the tree's root exactly when the element is in the left half,
      or the pair hash does not tell the two halves' values apart by order. */
  lemma RoundTripIff(h: PairHash, n: Node, needle: int)
    requires Built(n) && needle != 0
    ensures Extract(h, n, needle).None? <==> needle !in Flat(n)
    ensures needle in Flat(n) ==>
            (Evaluated(h, Extract(h, n, needle).value) == Some(Root(h, n)) <==>
             (needle in LeftHalf(n) || h(RightVal(h, n), LeftVal(h, n)) == h(LeftVal(h, n), RightVal(h, n))))
  {
    FoundIffLeaf(n, needle);
    if needle in Flat(n) {
      var path := Find(n, needle).value;
      FoundPath(n, needle);
      FindEnters(h, n, needle);
      var below := path[..|path| - 1];
      assert path == below + [n];
      ClimbPath(h, below, needle, n);
      var leaves := [needle] + Siblings(h, path, needle);
      assert leaves[1..] == Siblings(h, path, needle);
      TopValue(h, n, needle);
    }
  }

  /** The value entering the top node is the left one exactly as far as the hash can tell. */
  lemma TopValue(h: PairHash, n: Node, needle: int)
    requires Built(n) && needle != 0 && Find(n, needle).Some?
    ensures var path := Find(n, needle).value;
            |path| > 0 && Last(h, path[..|path| - 1], needle) == if needle in LeftHalf(n) then LeftVal(h, n) else RightVal(h, n)
  {
    if n.Branch? {
      FoundIffLeaf(n.left, needle);
      var child := if needle in LeftHalf(n) then n.left else n.right;
      FoundPath(child, needle);
      var path := Find(n, needle).value;
      assert path[..|path| - 1] == Find(child, needle).value;
    }
  }

  /** A tree wrapped by pairing it with itself: every extracted proof evaluates to its root. */
  lemma WrappedRoundTrip(h: PairHash, leaves: seq<int>, needle: int)
    requires needle != 0 && needle in leaves
    ensures var top := Branch(Tree(leaves), Tree(leaves));
            Extract(h, top, needle).Some? && Evaluated(h, Extract(h, top, needle).value) == Some(Root(h, top))
  {
    var d := TreeCovers(leaves);
    var tree := Tree(leaves);
    EvenBuilt(tree, d);
    assert needle in Flat(tree);
    RoundTripIff(h, Branch(tree, tree), needle);
  }

  lemma {:induction false} EvenBuilt(n: Node, depth: nat)
    requires Even(n, depth)
    ensures Built(n) && |Flat(n)| == Pow2(depth)
    decreases n
  {
    if n.Branch? {
      EvenBuilt(n.left, depth - 1);
      EvenBuilt(n.right, depth - 1);
    } else {
      assert Pow2(1) == 2 * Pow2(0);
    }
  }

  // ---- the recorded position ----

  ghost predicate Injective(h: PairHash) {
    forall a, b, c, d :: h(a, b) == h(c, d) ==> a == c && b == d
  }

  function First(s: seq<int>, x: int): (i: nat)
    requires x in s
    ensures i < |s| && s[i] == x && x !in s[..i]
  {
    if s[0] == x then 0 else 1 + First(s[1..], x)
  }

  lemma {:induction false} SameRootSameTree(h: PairHash, a: Node, b: Node, depth: nat)
    requires Injective(h) && Even(a, depth) && Even(b, depth) && Root(h, a) == Root(h, b)
    ensures a == b
    decreases a
  {
    if a.Branch? {
      SameRootSameTree(h, a.left, b.left, depth - 1);
      SameRootSameTree(h, a.right, b.right, depth - 1);
    }
  }

  lemma {:induction false} BitsMore(h: PairHash, path: seq<Node>, n: Node, v: int)
    ensures Bits(h, path + [n], v) == Bits(h, path, v) + if LeftVal(h, n) == Last(h, path, v) then 0 else Pow2(|path|)
  {
    if path == [] {
      assert (path + [n])[1..] == [];
    } else {
      assert (path + [n])[1..] == path[1..] + [n];
      var up := Root(h, path[0]);
      BitsMore(h, path[1..], n, up);
      assert Last(h, path, v) == Last(h, path[1..], up);
    }
  }

  lemma {:induction false} FirstIs(s: seq<int>, x: int, i: nat)
    requires i < |s| && s[i] == x && x !in s[..i]
    ensures First(s, x) == i
  {
    if i > 0 {
      assert s[0] in s[..i];
      assert s[1..][..i - 1] == s[..i][1..];
      FirstIs(s[1..], x, i - 1);
    }
  }

  lemma FirstInSum(a: seq<int>, b: seq<int>, x: int)
    requires x in a + b
    ensures First(a + b, x) == if x in a then First(a, x) else |a| + First(b, x)
  {
    if x in a {
      var j := First(a, x);
      assert (a + b)[..j] == a[..j];
      FirstIs(a + b, x, j);
    } else {
      var j := First(b, x);
      assert (a + b)[..|a| + j] == a + b[..j];
      FirstIs(a + b, x, |a| + j);
    }
  }

  /** Under an injective hash the bits of the path spell the needle's first place among the leaves. */
  lemma {:induction false} BitsAreFirst(h: PairHash, n: Node, depth: nat, needle: int)
    requires Injective(h) && Even(n, depth) && needle != 0 && needle in Flat(n)
    ensures Find(n, needle).Some?
    ensures var path := Find(n, needle).value;
            |path| == depth && Bits(h, path, needle) == First(Flat(n), needle)
    decreases n
  {
    if n.Branch? {
      hide Injective, Find, Bits, First, Pow2;
      var child := if needle in Flat(n.left) then n.left else n.right;
      BitsAreFirst(h, child, depth - 1, needle);
      FindThrough(n, depth, needle);
      BitsMore(h, Find(child, needle).value, n, needle);
      FoundPath(child, needle);
      FirstInSum(Flat(n.left), Flat(n.right), needle);
      EvenBuilt(n.left, depth - 1);
      if needle !in Flat(n.left) { HalvesDiffer(h, n, depth, needle); }
    } else {
      assert [n][1..] == [];
    }
  }

  /** The search goes through the left child if it has the needle, and else through the right one. */
  lemma FindThrough(n: Node, depth: nat, needle: int)
    requires n.Branch? && Even(n, depth) && needle != 0 && needle in Flat(n)
    ensures var child := if needle in Flat(n.left) then n.left else n.right;
            Find(child, needle).Some? && Find(n, needle) == Some(Find(child, needle).value + [n])
  {
    EvenBuilt(n, depth);
    FoundIffLeaf(n.left, needle);
    FoundIffLeaf(n.right, needle);
  }

  lemma HalvesDiffer(h: PairHash, n: Node, depth: nat, needle: int)
    requires Injective(h) && n.Branch? && Even(n, depth) && needle in Flat(n.right) && needle !in Flat(n.left)
    ensures Root(h, n.left) != Root(h, n.right)
  {
    hide Injective;
    if Root(h, n.left) == Root(h, n.right) {
      SameRootSameTree(h, n.left, n.right, depth - 1);
      assert false;
    }
  }

  /** On a wrapped tree the recorded position is the index of the element among the leaves. */
  lemma WrappedPosition(h: PairHash, leaves: seq<int>, i: nat)
    requires Injective(h) && i < |leaves| && leaves[i] != 0 && leaves[i] !in leaves[..i]
    ensures var top := Branch(Tree(leaves), Tree(leaves));
            Extract(h, top, leaves[i]).Some? && Extract(h, top, leaves[i]).value.position == i
  {
    hide Injective;
    var d := TreeCovers(leaves);
    var tree, x := Tree(leaves), leaves[i];
    assert Flat(tree)[i] == x;
    BitsAreFirst(h, tree, d, x);
    var below := Find(tree, x).value;
    assert (below + [Branch(tree, tree)])[..|below|] == below;
    assert Flat(tree)[..i] == leaves[..i];
    FirstIs(Flat(tree), x, i);
  }

  /** The round trip does fail in a right half: two leaves, and a hash that sees their order. */
  lemma RoundTripFails()
    ensures var h := (a: int, b: int) => a + 2 * b;
            var n := Pair(1, 2);
            Extract(h, n, 2) == Some(Proof(0, [2, 1])) && Evaluated(h, Proof(0, [2, 1])) == Some(4) && Root(h, n) == 5
  {
    var h := (a: int, b: int) => a + 2 * b;
    var n := Pair(1, 2);
    assert Find(n, 2) == Some([n]);
    assert [n][1..] == [] && [n][..0] == [];
    assert Siblings(h, [n], 2) == [1];
    assert Bits(h, [n][..0], 2) == 0;
    assert [2] + [1] == [2, 1] && [2, 1][1..] == [1];
    ClimbOne(h, 2, [1], 0);
  }
}
