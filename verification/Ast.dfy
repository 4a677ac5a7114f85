/** AST nodes: `src/hpl/ast.py`. */
module Ast {
  import opened Text

  datatype Location = Location(line: int, column: int)

  /** The value of an atom. */
  datatype Value = Sym(name: string) | Int(n: int) | Flt(r: real)

  datatype Node = Atom(value: Value, loc: Option<Location>) | List(items: seq<Node>, loc: Option<Location>)
  {
    /** `node.is_atom and isinstance(node.value, str)` */
    predicate IsSymbol() {
      Atom? && value.Sym?
    }

    predicate IsNumber() {
      Atom? && !value.Sym?
    }

    /** An atom holding this very symbol. */
    predicate Is(name: string) {
      IsSymbol() && value.name == name
    }
  }

  function Size(nodes: seq<Node>): nat
    decreases nodes, 0
  {
    if nodes == [] then 0 else NodeSize(nodes[0]) + Size(nodes[1..])
  }

  function NodeSize(node: Node): (n: nat)
    ensures n > 0
    decreases node, 1
  {
    match node
    case Atom(_, _) => 1
    case List(items, _) => 1 + Size(items)
  }

  /** The nodes of a forest in preorder. */
  function Preorder(nodes: seq<Node>): seq<Node>
    decreases nodes, 0
  {
    if nodes == [] then [] else PreorderOf(nodes[0]) + Preorder(nodes[1..])
  }

  function PreorderOf(node: Node): seq<Node>
    decreases node, 1
  {
    match node
    case Atom(_, _) => [node]
    case List(items, _) => [node] + Preorder(items)
  }

  function Reversed(nodes: seq<Node>): (r: seq<Node>)
    ensures |r| == |nodes|
  {
    if nodes == [] then [] else Reversed(nodes[1..]) + [nodes[0]]
  }

  lemma {:induction false} ReversedAppend(a: seq<Node>, b: seq<Node>)
    ensures Reversed(a + b) == Reversed(b) + Reversed(a)
  {
    if a == [] {
      assert a + b == b;
    } else {
      ReversedAppend(a[1..], b);
      assert (a + b)[1..] == a[1..] + b;
    }
  }

  lemma {:induction false} ReversedTwice(nodes: seq<Node>)
    ensures Reversed(Reversed(nodes)) == nodes
  {
    if nodes != [] {
      ReversedTwice(nodes[1..]);
      ReversedAppend(Reversed(nodes[1..]), [nodes[0]]);
      assert Reversed([nodes[0]]) == [nodes[0]] by { assert [nodes[0]][1..] == []; }
      assert nodes == [nodes[0]] + nodes[1..];
    }
  }

  lemma {:induction false} PreorderAppend(a: seq<Node>, b: seq<Node>)
    ensures Preorder(a + b) == Preorder(a) + Preorder(b)
    ensures Size(a + b) == Size(a) + Size(b)
  {
    if a == [] {
      assert a + b == b;
    } else {
      PreorderAppend(a[1..], b);
      assert (a + b)[1..] == a[1..] + b && (a + b)[0] == a[0];
      var head, tail, rest := PreorderOf(a[0]), Preorder(a[1..]), Preorder(b);
      assert head + (tail + rest) == (head + tail) + rest;
    }
  }

  /** What is left to visit: the stack is popped from its end. */
  function Pending(stack: seq<Node>): seq<Node> {
    Reversed(stack)
  }

  lemma PopPending(stack: seq<Node>)
    requires stack != []
    ensures Pending(stack) == [stack[|stack| - 1]] + Pending(stack[..|stack| - 1])
  {
    var front, last := stack[..|stack| - 1], stack[|stack| - 1];
    assert stack == front + [last];
    ReversedAppend(front, [last]);
    assert Reversed([last]) == [last] by { assert [last][1..] == []; }
  }

  lemma PushPending(stack: seq<Node>, items: seq<Node>)
    ensures Pending(stack + Reversed(items)) == items + Pending(stack)
  {
    ReversedAppend(stack, Reversed(items));
    ReversedTwice(items);
  }

  /** Visiting a node leaves its items to visit before the rest. */
  lemma VisitNext(node: Node, rest: seq<Node>)
    ensures var items := if node.List? then node.items else [];
            && Preorder([node] + rest) == [node] + Preorder(items + rest)
            && Size(items + rest) < Size([node] + rest)
  {
    assert ([node] + rest)[1..] == rest;
    var items := if node.List? then node.items else [];
    PreorderAppend(items, rest);
    assert PreorderOf(node) == [node] + Preorder(items);
  }

  /** `iter_nodes`: the explicit stack visits the nodes in recursive preorder. */
  method IterNodes(node: Node) returns (visited: seq<Node>)
    ensures visited == PreorderOf(node)
  {
    visited := [];
    var stack := [node];
    assert Pending(stack) == [node] by { assert stack[1..] == []; }
    assert Preorder([node]) == PreorderOf(node) by { assert [node][1..] == []; }
    while stack != []
      invariant visited + Preorder(Pending(stack)) == PreorderOf(node)
      decreases Size(Pending(stack))
    {
      PopPending(stack);
      var current := stack[|stack| - 1];
      stack := stack[..|stack| - 1];
      VisitNext(current, Pending(stack));
      PushPending(stack, if current.List? then current.items else []);
      visited := visited + [current];
      if current.List? { stack := stack + Reversed(current.items); }
    }
  }
}
