/**
 * The binary search tree of demo/tree.ts: nodes linked through `left_` and
 * `right_`, and `add`, which walks down from the root and hangs a new leaf
 * where the walk falls off the tree. Each node carries, as ghost state, the
 * objects it reaches and the tree value it stands for.
 */
module BinarySearchTree {

  /** The tree a node stands for. */
  datatype Tree = Leaf | Branch(left: Tree, value: int, right: Tree)

  /** The values of a tree, with their multiplicity. */
  function Elements(t: Tree): multiset<int>
  {
    match t
    case Leaf => multiset{}
    case Branch(l, v, r) => Elements(l) + multiset{v} + Elements(r)
  }

  function Size(t: Tree): nat
  {
    match t
    case Leaf => 0
    case Branch(l, _, r) => Size(l) + 1 + Size(r)
  }

  predicate AllLess(t: Tree, bound: int)
  {
    forall x | x in Elements(t) :: x < bound
  }

  predicate AllAtLeast(t: Tree, bound: int)
  {
    forall x | x in Elements(t) :: bound <= x
  }

  /**
   * The ordering the tree keeps: everything in a left subtree is smaller
   * than its node, everything in a right subtree is equal or greater.
   */
  predicate Ordered(t: Tree)
  {
    match t
    case Leaf => true
    case Branch(l, v, r) => Ordered(l) && Ordered(r) && AllLess(l, v) && AllAtLeast(r, v)
  }

  /**
   * The effect of `add` on the tree value: smaller values go left, equal
   * or greater ones right, and the value becomes a new leaf where an empty
   * child is met.
   */
  function Insert(t: Tree, x: int): (r: Tree)
    ensures r != Leaf
  {
    match t
    case Leaf => Branch(Leaf, x, Leaf)
    case Branch(l, v, r) => if x < v then Branch(Insert(l, x), v, r) else Branch(l, v, Insert(r, x))
  }

  /** Inserting adds exactly the new value. */
  lemma {:induction false} InsertElements(t: Tree, x: int)
    ensures Elements(Insert(t, x)) == Elements(t) + multiset{x}
  {
    match t
    case Leaf =>
    case Branch(l, v, r) =>
      if x < v {
        InsertElements(l, x);
        AddedLeft(Elements(l), multiset{v}, Elements(r), multiset{x});
      } else {
        InsertElements(r, x);
        AddedRight(Elements(l), multiset{v}, Elements(r), multiset{x});
      }
  }

  lemma AddedLeft(a: multiset<int>, b: multiset<int>, c: multiset<int>, d: multiset<int>)
    ensures (a + d) + b + c == a + b + c + d
  {
  }

  lemma AddedRight(a: multiset<int>, b: multiset<int>, c: multiset<int>, d: multiset<int>)
    ensures a + b + (c + d) == a + b + c + d
  {
  }

  /** Inserting adds exactly one node. */
  lemma {:induction false} InsertSize(t: Tree, x: int)
    ensures Size(Insert(t, x)) == Size(t) + 1
  {
    match t
    case Leaf =>
    case Branch(l, v, r) =>
      if x < v {
        InsertSize(l, x);
      } else {
        InsertSize(r, x);
      }
  }

  /** Inserting keeps the ordering. */
  lemma {:induction false} InsertOrdered(t: Tree, x: int)
    requires Ordered(t)
    ensures Ordered(Insert(t, x))
  {
    match t
    case Leaf =>
    case Branch(l, v, r) =>
      if x < v {
        InsertOrdered(l, x);
        InsertLess(l, x, v);
      } else {
        InsertOrdered(r, x);
        InsertAtLeast(r, x, v);
      }
  }

  /** Inserting a value below a bound keeps every value below it. */
  lemma InsertLess(t: Tree, x: int, bound: int)
    requires AllLess(t, bound) && x < bound
    ensures AllLess(Insert(t, x), bound)
  {
    InsertElements(t, x);
  }

  /** Inserting a value at or above a bound keeps every value at or above it. */
  lemma InsertAtLeast(t: Tree, x: int, bound: int)
    requires AllAtLeast(t, bound) && bound <= x
    ensures AllAtLeast(Insert(t, x), bound)
  {
    InsertElements(t, x);
  }

  /**
   * `t` sits inside `u` unchanged: every node of `t` is in `u` at the same
   * place, with the same value; `u` may have more below the leaves of `t`.
   */
  predicate Embeds(t: Tree, u: Tree)
  {
    match t
    case Leaf => true
    case Branch(l, v, r) => u.Branch? && u.value == v && Embeds(l, u.left) && Embeds(r, u.right)
  }

  /** The old tree sits unchanged inside the new one, which has one node more. */
  lemma {:induction false} InsertKeepsNodes(t: Tree, x: int)
    ensures Embeds(t, Insert(t, x)) && Size(Insert(t, x)) == Size(t) + 1
  {
    InsertSize(t, x);
    match t
    case Leaf =>
    case Branch(l, v, r) =>
      if x < v {
        InsertKeepsNodes(l, x);
        EmbedsRefl(r);
      } else {
        InsertKeepsNodes(r, x);
        EmbedsRefl(l);
      }
  }

  lemma {:induction false} EmbedsRefl(t: Tree)
    ensures Embeds(t, t)
  {
    match t
    case Leaf =>
    case Branch(l, _, r) =>
      EmbedsRefl(l);
      EmbedsRefl(r);
  }

  /** A node of the tree. */
  class Node {
    var left: Node?
    var right: Node?
    var value: int
    /** The nodes reachable from this one, itself included. */
    ghost var Repr: set<object>
    /** The tree this node is the root of. */
    ghost var Contents: Tree

    ghost predicate Valid()
      reads this, Repr
      decreases Repr
    {
      this in Repr &&
      (left != null ==> left in Repr && left.Repr <= Repr && this !in left.Repr && left.Valid()) &&
      (right != null ==> right in Repr && right.Repr <= Repr && this !in right.Repr && right.Valid()) &&
      (left != null && right != null ==> left.Repr !! right.Repr) &&
      Contents == Branch(if left == null then Leaf else left.Contents, value, if right == null then Leaf else right.Contents)
    }

    /** A node with no children. */
    constructor(value: int)
      ensures Valid() && fresh(Repr) && Contents == Branch(Leaf, value, Leaf)
    {
      this.left := null;
      this.right := null;
      this.value := value;
      this.Repr := {this};
      this.Contents := Branch(Leaf, value, Leaf);
    }
  }

  /** The tree of a possibly missing node. */
  ghost function TreeOf(n: Node?): Tree
    reads n
  {
    if n == null then Leaf else n.Contents
  }

  class BinarySearchTree {
    var root: Node?
    ghost var Repr: set<object>

    ghost predicate Valid()
      reads this, Repr
    {
      this in Repr &&
      (root != null ==> root in Repr && root.Repr <= Repr && this !in root.Repr && root.Valid())
    }

    /** The tree value held by the whole structure. */
    ghost function Contents(): Tree
      reads this, root
    {
      TreeOf(root)
    }

    constructor()
      ensures Valid() && fresh(Repr) && Contents() == Leaf
    {
      root := null;
      Repr := {this};
    }

    /** `add`: an empty tree gets the value as its root; otherwise the walk starts at the root. */
    method Add(newValue: int)
      requires Valid()
      modifies Repr
      ensures Valid() && fresh(Repr - old(Repr))
      ensures Contents() == Insert(old(Contents()), newValue)
    {
      if root == null {
        root := new Node(newValue);
        Repr := Repr + root.Repr;
        return;
      }
      RecursiveAdd(newValue, root);
      Repr := Repr + root.Repr;
    }

    /**
     * `recursiveAdd`: goes left for a smaller value and right otherwise,
     * and hangs a new node on the first missing child.
     */
    method RecursiveAdd(newValue: int, current: Node)
      requires current.Valid()
      modifies current.Repr
      ensures current.Valid() && fresh(current.Repr - old(current.Repr))
      ensures current.Contents == Insert(old(current.Contents), newValue)
      decreases current.Repr
    {
      if newValue < current.value {
        if current.left == null {
          var n := new Node(newValue);
          current.left := n;
          current.Repr := current.Repr + n.Repr;
        } else {
          RecursiveAdd(newValue, current.left);
          current.Repr := current.Repr + current.left.Repr;
        }
      } else {
        if current.right == null {
          var n := new Node(newValue);
          current.right := n;
          current.Repr := current.Repr + n.Repr;
        } else {
          RecursiveAdd(newValue, current.right);
          current.Repr := current.Repr + current.right.Repr;
        }
      }
      current.Contents := Branch(TreeOf(current.left), current.value, TreeOf(current.right));
    }
  }
}
