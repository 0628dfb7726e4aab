/**
 * `find_middle` of middle_of_linked_list/solution.py: the slow pointer moves
 * one node per round and the fast pointer two, so when the fast pointer runs
 * off the end the slow one stands on the middle node (the second of the two
 * middles when the length is even).
 */
module MiddleOfLinkedList {

  /** A node of a singly linked list: a value and the next node, or none. */
  class Node {
    var value: string
    var next: Node?

    constructor (value: string)
      ensures this.value == value && next == null
    {
      this.value := value;
      next := null;
    }
  }

  /**
   * `nodes` lists, in order, the nodes reached from `nodes[0]`: each links
   * to the one after it and the last links to nothing. Such a list cannot
   * be circular.
   */
  ghost predicate IsList(nodes: seq<Node>)
    reads nodes
  {
    && |nodes| >= 1
    && (forall i :: 0 <= i < |nodes| - 1 ==> nodes[i].next == nodes[i + 1])
    && nodes[|nodes| - 1].next == null
  }

  /**
   * The middle position of a list of length n is n / 2: as many nodes come
   * before it as after it, or one more before it when n is even.
   */
  lemma MiddleIndex(n: nat, i: nat)
    requires i < n
    ensures i == n / 2 <==> (i == n - 1 - i || i == n - i)
  {
  }

  /**
   * Returns the node at position |nodes| / 2 of the list headed by `head`.
   * It only reads the list; the check that the slow pointer is a node never
   * fails; and the loop runs exactly |nodes| / 2 rounds (`rounds`).
   */
  method FindMiddle(head: Node, ghost nodes: seq<Node>) returns (mid: Node, ghost rounds: nat)
    requires IsList(nodes) && nodes[0] == head
    ensures mid == nodes[|nodes| / 2]
    ensures rounds == |nodes| / 2
  {
    ghost var n := |nodes|;
    var ptr1: Node? := head;
    var ptr2: Node? := head.next;
    rounds := 0;
    while ptr2 != null
      invariant 2 * rounds <= n
      invariant ptr1 == nodes[rounds]
      invariant 2 * rounds + 1 < n ==> ptr2 == nodes[2 * rounds + 1]
      invariant 2 * rounds + 1 >= n ==> ptr2 == null
      decreases n - rounds
    {
      assert nodes[rounds].next == nodes[rounds + 1];
      ptr1 := ptr1.next;
      assert ptr1 != null;
      if 2 * rounds + 2 < n {
        assert nodes[2 * rounds + 1].next == nodes[2 * rounds + 2];
      }
      ptr2 := ptr2.next;
      ptr2 := if ptr2 != null then ptr2.next else ptr2;
      rounds := rounds + 1;
    }
    mid := ptr1;
  }

  /**
   * The three checks at the end of solution.py, on the list A -> B -> C ->
   * D -> E: from A the middle is node C, from E it is node E, and from D
   * (two nodes) it is node E, one of the two the check allows.
   */
  method FindMiddleExamples() returns (nodeC: Node, nodeD: Node, nodeE: Node, test1: Node, test2: Node, test3: Node)
    ensures nodeC.value == "C" && nodeD.value == "D" && nodeE.value == "E"
    ensures test1 == nodeC
    ensures test2 == nodeE
    ensures test3 == nodeE
  {
    var nodeA := new Node("A");
    var nodeB := new Node("B");
    nodeC := new Node("C");
    nodeD := new Node("D");
    nodeE := new Node("E");
    nodeA.next := nodeB;
    nodeB.next := nodeC;
    nodeC.next := nodeD;
    nodeD.next := nodeE;

    ghost var rounds;
    test1, rounds := FindMiddle(nodeA, [nodeA, nodeB, nodeC, nodeD, nodeE]);
    test2, rounds := FindMiddle(nodeE, [nodeE]);
    test3, rounds := FindMiddle(nodeD, [nodeD, nodeE]);
  }
}
