/**
  Telling apart a pattern input that only feeds size extraction (a
  `sym_size` node under dynamic-shape tracing) from one that carries an
  activation. Whether a node is a size-extraction node is decided elsewhere;
  here it is the parameter `isSymSizeNode`.
*/
module SymSize {
  import opened Graph

  /** A user that blocks the answer: it lies in the partition and is not a size-extraction node. */
  predicate Blocking(user: Node, partitionNodes: seq<Node>, isSymSizeNode: Node -> bool) {
    user in partitionNodes && !isSymSizeNode(user)
  }

  /**
    The `all(...)` over the users: walks them in order and stops at the first
    blocking one.
  */
  function NoBlockingUser(users: seq<Node>, partitionNodes: seq<Node>, isSymSizeNode: Node -> bool): (r: bool)
    ensures r <==> forall i :: 0 <= i < |users| ==> !Blocking(users[i], partitionNodes, isSymSizeNode)
  {
    if |users| == 0 then true
    else if Blocking(users[0], partitionNodes, isSymSizeNode) then false
    else NoBlockingUser(users[1..], partitionNodes, isSymSizeNode)
  }

  /** `_node_only_used_for_sym_size(node, partition_nodes)` */
  function OnlyUsedForSymSize(node: Node, partitionNodes: seq<Node>, isSymSizeNode: Node -> bool): (r: bool)
    reads node
    ensures isSymSizeNode(node) ==> r
    ensures !isSymSizeNode(node) ==>
      (r <==> forall u :: u in node.users ==> u !in partitionNodes || isSymSizeNode(u))
  {
    if isSymSizeNode(node) then true
    else NoBlockingUser(node.users, partitionNodes, isSymSizeNode)
  }

  /** The answer is false exactly when the node is not a size node and some user blocks. */
  lemma NotOnlySymSizeWitness(node: Node, partitionNodes: seq<Node>, isSymSizeNode: Node -> bool)
    ensures !OnlyUsedForSymSize(node, partitionNodes, isSymSizeNode) <==>
      !isSymSizeNode(node) && exists u :: u in node.users && Blocking(u, partitionNodes, isSymSizeNode)
  {
  }

  /** A node nobody uses counts as used only for size extraction. */
  lemma NoUsersMeansOnlySymSize(node: Node, partitionNodes: seq<Node>, isSymSizeNode: Node -> bool)
    requires node.users == []
    ensures OnlyUsedForSymSize(node, partitionNodes, isSymSizeNode)
  {
  }

  /** Against an empty partition every node counts as used only for size extraction. */
  lemma EmptyPartitionMeansOnlySymSize(node: Node, isSymSizeNode: Node -> bool)
    ensures OnlyUsedForSymSize(node, [], isSymSizeNode)
  {
  }

  /** Shrinking the partition can only turn the answer from false to true. */
  lemma SmallerPartitionKeepsAnswer(node: Node, bigger: seq<Node>, smaller: seq<Node>, isSymSizeNode: Node -> bool)
    requires forall x :: x in smaller ==> x in bigger
    requires OnlyUsedForSymSize(node, bigger, isSymSizeNode)
    ensures OnlyUsedForSymSize(node, smaller, isSymSizeNode)
  {
  }

  /** The walk over users splits over concatenation. */
  lemma {:induction false} NoBlockingUserAppend(a: seq<Node>, b: seq<Node>, partitionNodes: seq<Node>,
                                                isSymSizeNode: Node -> bool)
    ensures NoBlockingUser(a + b, partitionNodes, isSymSizeNode)
         == (NoBlockingUser(a, partitionNodes, isSymSizeNode) && NoBlockingUser(b, partitionNodes, isSymSizeNode))
  {
    if |a| > 0 {
      assert (a + b)[1..] == a[1..] + b;
      NoBlockingUserAppend(a[1..], b, partitionNodes, isSymSizeNode);
    } else {
      assert a + b == b;
    }
  }

  /** The walk depends only on which users there are, not on their order. */
  lemma UsersOrderIrrelevant(a: seq<Node>, b: seq<Node>, partitionNodes: seq<Node>, isSymSizeNode: Node -> bool)
    requires multiset(a) == multiset(b)
    ensures NoBlockingUser(a, partitionNodes, isSymSizeNode) == NoBlockingUser(b, partitionNodes, isSymSizeNode)
  {
    if NoBlockingUser(b, partitionNodes, isSymSizeNode) {
      forall i | 0 <= i < |a| ensures !Blocking(a[i], partitionNodes, isSymSizeNode) {
        assert a[i] in multiset(b);
        var j :| 0 <= j < |b| && b[j] == a[i];
      }
    }
    if NoBlockingUser(a, partitionNodes, isSymSizeNode) {
      forall j | 0 <= j < |b| ensures !Blocking(b[j], partitionNodes, isSymSizeNode) {
        assert b[j] in multiset(a);
        var i :| 0 <= i < |a| && a[i] == b[j];
      }
    }
  }
}
