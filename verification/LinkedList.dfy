/** The sorted singly linked list of linked_list.c, on heap nodes. */
module LinkedList {

  // ---- what the operations compute ----

  function CountLess(s: seq<int>, x: int): (c: nat)
    ensures c <= |s|
  {
    if s == [] then 0 else CountLess(s[..|s| - 1], x) + if s[|s| - 1] < x then 1 else 0
  }

  /** insert puts x behind as many elements as are smaller than x. */
  function Inserted(s: seq<int>, x: int): seq<int> {
    s[..CountLess(s, x)] + [x] + s[CountLess(s, x)..]
  }

  ghost predicate IsFirst(s: seq<int>, x: int, k: nat) {
    k < |s| && s[k] == x && x !in s[..k]
  }

  lemma {:induction false} FirstExists(s: seq<int>, x: int)
    requires x in s
    ensures exists k: nat :: IsFirst(s, x, k)
  {
    var init := s[..|s| - 1];
    if x in init {
      FirstExists(init, x);
      var k: nat :| IsFirst(init, x, k);
      assert init[..k] == s[..k];
      assert IsFirst(s, x, k);
    } else {
      assert IsFirst(s, x, |s| - 1);
    }
  }

  /** The first position of x, or |s|. */
  ghost function Find(s: seq<int>, x: int): (k: nat)
    ensures if x in s then IsFirst(s, x, k) else k == |s|
  {
    if x in s then
      FirstExists(s, x);
      var k: nat :| IsFirst(s, x, k);
      k
    else |s|
  }

  ghost function Deleted(s: seq<int>, x: int): seq<int> {
    var k := Find(s, x);
    if k < |s| then s[..k] + s[k + 1..] else s
  }

  /** The positions of the elements smaller than x. */
  function Smaller(s: seq<int>, x: int): set<nat> {
    set i: nat | i < |s| && s[i] < x
  }

  lemma {:induction false} CountLessCounts(s: seq<int>, x: int)
    ensures CountLess(s, x) == |Smaller(s, x)|
  {
    if s == [] {
      assert Smaller(s, x) == {};
    } else {
      var init, last := s[..|s| - 1], |s| - 1;
      CountLessCounts(init, x);
      assert last !in Smaller(init, x);
      assert Smaller(s, x) == Smaller(init, x) + (if s[last] < x then {last} else {});
    }
  }

  lemma InsertedAtEnds(s: seq<int>, x: int)
    ensures CountLess(s, x) == 0 ==> Inserted(s, x) == [x] + s
    ensures CountLess(s, x) == |s| ==> Inserted(s, x) == s + [x]
  {
  }

  predicate Sorted(s: seq<int>) {
    forall i, j | 0 <= i < j < |s| :: s[i] <= s[j]
  }

  /** On a sorted list the smaller elements come first. */
  lemma {:induction false} SmallerFirst(s: seq<int>, x: int)
    requires Sorted(s)
    ensures forall i | 0 <= i < |s| :: s[i] < x <==> i < CountLess(s, x)
  {
    if s == [] {
    } else {
      var init := s[..|s| - 1];
      SmallerFirst(init, x);
      assert forall i | 0 <= i < |init| :: init[i] == s[i];
      assert CountLess(s, x) == CountLess(init, x) + if s[|s| - 1] < x then 1 else 0;
    }
  }

  lemma BagOfParts(a: seq<int>, x: int, b: seq<int>)
    ensures multiset(a + [x] + b) == multiset(a + b) + multiset{x}
  {
  }

  lemma InsertKeepsOrder(s: seq<int>, x: int)
    requires Sorted(s)
    ensures Sorted(Inserted(s, x))
  {
    SmallerFirst(s, x);
  }

  lemma InsertKeepsSorted(s: seq<int>, x: int)
    requires Sorted(s)
    ensures Sorted(Inserted(s, x))
    ensures multiset(Inserted(s, x)) == multiset(s) + multiset{x}
  {
    InsertKeepsOrder(s, x);
    var a, b := s[..CountLess(s, x)], s[CountLess(s, x)..];
    BagOfParts(a, x, b);
    assert a + b == s;
  }

  lemma DeleteKeepsOrder(s: seq<int>, x: int)
    requires Sorted(s)
    ensures Sorted(Deleted(s, x))
  {
  }

  lemma BagWithout(s: seq<int>, k: nat)
    requires k < |s|
    ensures multiset(s) == multiset(s[..k] + s[k + 1..]) + multiset{s[k]}
  {
    assert s == s[..k] + [s[k]] + s[k + 1..];
    BagOfParts(s[..k], s[k], s[k + 1..]);
  }

  lemma DeletedBag(s: seq<int>, x: int)
    ensures multiset(Deleted(s, x)) == multiset(s) - multiset{x}
  {
    if x in s {
      BagWithout(s, Find(s, x));
    }
  }

  lemma DeleteKeepsSorted(s: seq<int>, x: int)
    requires Sorted(s)
    ensures Sorted(Deleted(s, x))
    ensures multiset(Deleted(s, x)) == multiset(s) - multiset{x}
  {
    DeleteKeepsOrder(s, x);
    DeletedBag(s, x);
  }

  lemma FindIsFirst(s: seq<int>, x: int, k: nat)
    requires IsFirst(s, x, k)
    ensures Find(s, x) == k
  {
  }

  lemma DeletedAt(s: seq<int>, x: int, k: nat)
    requires IsFirst(s, x, k)
    ensures Deleted(s, x) == s[..k] + s[k + 1..] && x in s
  {
    FindIsFirst(s, x, k);
  }

  /** delete(x) right after insert(x) restores the list, duplicates included. */
  lemma DeleteUndoesInsert(s: seq<int>, x: int)
    requires Sorted(s)
    ensures Deleted(Inserted(s, x), x) == s
  {
    SmallerFirst(s, x);
    var c := CountLess(s, x);
    assert Inserted(s, x)[..c] == s[..c];
    FindIsFirst(Inserted(s, x), x, c);
    assert s[..c] + s[c..] == s;
  }

  datatype Op = Insert(x: int) | Delete(x: int)

  ghost function Apply(s: seq<int>, op: Op): seq<int> {
    match op
    case Insert(x) => Inserted(s, x)
    case Delete(x) => Deleted(s, x)
  }

  ghost function ApplyAll(ops: seq<Op>): seq<int> {
    if ops == [] then [] else Apply(ApplyAll(ops[..|ops| - 1]), ops[|ops| - 1])
  }

  /** The bag that the operations should leave. */
  function Bag(ops: seq<Op>): multiset<int> {
    if ops == [] then multiset{}
    else
      var rest := Bag(ops[..|ops| - 1]);
      match ops[|ops| - 1]
      case Insert(x) => rest + multiset{x}
      case Delete(x) => rest - multiset{x}
  }

  /** Every sequence of inserts and deletes from the empty list. */
  lemma {:induction false} AlwaysSorted(ops: seq<Op>)
    ensures Sorted(ApplyAll(ops)) && multiset(ApplyAll(ops)) == Bag(ops)
  {
    if ops == [] {
    } else {
      var s := ApplyAll(ops[..|ops| - 1]);
      AlwaysSorted(ops[..|ops| - 1]);
      match ops[|ops| - 1]
      case Insert(x) => InsertKeepsSorted(s, x);
      case Delete(x) => DeleteKeepsSorted(s, x);
    }
  }

  // ---- the list on the heap ----

  class Node {
    var data: int
    var next: Node?

    constructor (data: int, next: Node?)
      ensures this.data == data && this.next == next
    {
      this.data := data;
      this.next := next;
    }
  }

  /** A loop's pointer after k steps from the first node. */
  ghost function At(nodes: seq<Node>, k: nat): Node? {
    if k < |nodes| then nodes[k] else null
  }

  /** The nodes are linked in this order, the last to null, and hold `values`. */
  ghost predicate Chain(nodes: seq<Node>, values: seq<int>)
    reads nodes
  {
    && |nodes| == |values|
    && forall i | 0 <= i < |nodes| :: nodes[i].next == At(nodes, i + 1) && nodes[i].data == values[i]
  }

  ghost predicate Distinct(nodes: seq<Node>) {
    forall i, j | 0 <= i < j < |nodes| :: nodes[i] != nodes[j]
  }

  lemma DistinctInsert(nodes: seq<Node>, k: nat, n: Node)
    requires Distinct(nodes) && k <= |nodes| && n !in nodes
    ensures Distinct(nodes[..k] + [n] + nodes[k..])
  {
  }

  lemma DistinctRemove(nodes: seq<Node>, k: nat)
    requires Distinct(nodes) && k < |nodes|
    ensures Distinct(nodes[..k] + nodes[k + 1..])
  {
  }

  lemma ChainCons(temp: Node, nodes: seq<Node>, values: seq<int>)
    requires Chain(nodes, values) && temp.next == At(nodes, 0) && Distinct(nodes) && temp !in nodes
    ensures Chain([temp] + nodes, [temp.data] + values) && Distinct([temp] + nodes)
  {
  }

  lemma ChainTail(nodes: seq<Node>, values: seq<int>)
    requires Chain(nodes, values) && nodes != []
    ensures Chain(nodes[1..], values[1..])
  {
  }

  /** After the assignment left.next := temp. */
  lemma ChainInsert(nodes: seq<Node>, values: seq<int>, k: nat, temp: Node)
    requires |nodes| == |values| && 0 < k <= |nodes|
    requires forall i | 0 <= i < |nodes| :: nodes[i].data == values[i]
    requires forall i | 0 <= i < |nodes| && i != k - 1 :: nodes[i].next == At(nodes, i + 1)
    requires nodes[k - 1].next == temp && temp.next == At(nodes, k)
    ensures Chain(nodes[..k] + [temp] + nodes[k..], values[..k] + [temp.data] + values[k..])
  {
  }

  /** After the assignment prev.next := nodes[k].next. */
  lemma ChainRemove(nodes: seq<Node>, values: seq<int>, k: nat)
    requires |nodes| == |values| && 0 < k < |nodes|
    requires forall i | 0 <= i < |nodes| :: nodes[i].data == values[i]
    requires forall i | 0 <= i < |nodes| && i != k - 1 :: nodes[i].next == At(nodes, i + 1)
    requires nodes[k - 1].next == At(nodes, k + 1)
    ensures Chain(nodes[..k] + nodes[k + 1..], values[..k] + values[k + 1..])
  {
  }

  class List {
    var head: Node?
    ghost var spine: seq<Node>    // the nodes from head on
    ghost var Contents: seq<int>  // their data
    ghost var Repr: set<Node>     // these and the freed nodes

    ghost predicate Valid()
      reads this, Repr
    {
      && (forall i | 0 <= i < |spine| :: spine[i] in Repr)
      && head == At(spine, 0) && Chain(spine, Contents) && Distinct(spine)
    }

    constructor ()
      ensures Valid() && Contents == [] && Repr == {}
    {
      head := null;
      spine := [];
      Contents := [];
      Repr := {};
    }

    method Add(num: int)
      requires Valid()
      modifies this
      ensures Valid() && Contents == [num] + old(Contents)
      ensures fresh(Repr - old(Repr))
    {
      var temp := new Node(num, head);
      ChainCons(temp, spine, Contents);
      head := temp;
      spine := [temp] + spine;
      Contents := [num] + Contents;
      Repr := Repr + {temp};
    }

    /** Makes `temp` the node between spine[k - 1] and spine[k]. */
    method Link(left: Node, temp: Node, ghost k: nat)
      requires Valid() && 0 < k <= |spine| && left == spine[k - 1]
      requires temp !in spine && temp.next == At(spine, k)
      modifies this, left
      ensures Valid() && Repr == old(Repr) + {temp}
      ensures Contents == old(Contents)[..k] + [temp.data] + old(Contents)[k..]
    {
      DistinctInsert(spine, k, temp);
      left.next := temp;
      ChainInsert(spine, Contents, k, temp);
      spine := spine[..k] + [temp] + spine[k..];
      Contents := Contents[..k] + [temp.data] + Contents[k..];
      Repr := Repr + {temp};
    }

    /** The source demands a list that is not empty. */
    method Append(num: int)
      requires Valid() && spine != []
      modifies this, Repr
      ensures Valid() && Contents == old(Contents) + [num]
      ensures fresh(Repr - old(Repr))
    {
      var temp := new Node(num, null);
      var right := head;
      ghost var k := 0;
      while right.next != null
        invariant 0 <= k < |spine| && right == spine[k]
        decreases |spine| - k
      {
        right := right.next;
        k := k + 1;
      }
      Link(right, temp, k + 1);
    }

    /** Inserts before the loc-th node, counted from 1, or behind the last one.
        The loop sets `left` only when loc >= 2, and dereferences `right`
        loc - 1 times, so the source demands these bounds. */
    method AddAfter(num: int, loc: int)
      requires Valid() && 2 <= loc <= |spine| + 1
      modifies this, Repr
      ensures Valid() && Contents == old(Contents)[..loc - 1] + [num] + old(Contents)[loc - 1..]
      ensures fresh(Repr - old(Repr))
    {
      var left: Node? := null;
      var right: Node? := head;
      var i := 1;
      while i < loc
        invariant 1 <= i <= loc
        invariant right == At(spine, i - 1)
        invariant i > 1 ==> left == spine[i - 2]
      {
        left := right;
        right := right.next;
        i := i + 1;
      }
      var temp := new Node(num, right);
      Link(left, temp, loc - 1);
    }

    method Count() returns (c: nat)
      requires Valid()
      ensures c == |Contents|
    {
      var n := head;
      c := 0;
      while n != null
        invariant 0 <= c <= |spine| && n == At(spine, c)
        decreases |spine| - c
      {
        n := n.next;
        c := c + 1;
      }
    }

    /** The first loop of insert: how many elements are smaller. */
    method CountSmaller(num: int) returns (c: nat)
      requires Valid()
      ensures c == CountLess(Contents, num)
    {
      var temp := head;
      c := 0;
      ghost var k := 0;
      while temp != null
        invariant 0 <= k <= |spine| && temp == At(spine, k)
        invariant c == CountLess(Contents[..k], num)
        decreases |spine| - k
      {
        assert Contents[..k + 1][..k] == Contents[..k];
        if temp.data < num {
          c := c + 1;
        }
        temp := temp.next;
        k := k + 1;
      }
      assert Contents[..k] == Contents;
    }

    /** Whatever the list holds, addafter is called with 2 <= loc <= count. */
    method Insert(num: int)
      requires Valid()
      modifies this, Repr
      ensures Valid() && Contents == Inserted(old(Contents), num)
      ensures var k := |Smaller(old(Contents), num)|;
        k <= |old(Contents)| && Contents == old(Contents)[..k] + [num] + old(Contents)[k..]
      ensures fresh(Repr - old(Repr))
    {
      CountLessCounts(Contents, num);
      if head == null {
        Add(num);
      } else {
        var c := CountSmaller(num);
        InsertedAtEnds(Contents, num);
        if c == 0 {
          Add(num);
        } else {
          var n := Count();
          if c < n {
            assert 2 <= c + 1 <= |spine|;
            AddAfter(num, c + 1);
          } else {
            Append(num);
          }
        }
      }
    }

    /** Unlinks spine[k]. */
    method Unlink(prev: Node, temp: Node, ghost k: nat)
      requires Valid() && 0 < k < |spine| && prev == spine[k - 1] && temp == spine[k]
      modifies this, prev
      ensures Valid() && Repr == old(Repr)
      ensures Contents == old(Contents)[..k] + old(Contents)[k + 1..]
    {
      DistinctRemove(spine, k);
      prev.next := temp.next;
      ChainRemove(spine, Contents, k);
      spine := spine[..k] + spine[k + 1..];
      Contents := Contents[..k] + Contents[k + 1..];
    }

    method UnlinkHead()
      requires Valid() && spine != []
      modifies this
      ensures Valid() && Contents == old(Contents)[1..]
      ensures Repr == old(Repr)
    {
      ChainTail(spine, Contents);
      head := head.next;
      spine := spine[1..];
      Contents := Contents[1..];
    }

    /** The inner branch of delete. */
    method UnlinkEither(prev: Node?, temp: Node, ghost k: nat)
      requires Valid() && k < |spine| && temp == spine[k] && (k > 0 ==> prev == spine[k - 1])
      modifies this, Repr
      ensures Valid() && Repr == old(Repr)
      ensures Contents == old(Contents)[..k] + old(Contents)[k + 1..]
    {
      if temp == head {
        assert k == 0;
        assert Contents[..0] + Contents[1..] == Contents[1..];
        UnlinkHead();
      } else {
        Unlink(prev, temp, k);
      }
    }

    /** Unlinks the first node with this value; returns 1, or 0 if there is none. */
    method Delete(num: int) returns (r: int)
      requires Valid()
      modifies this, Repr
      ensures Valid() && Contents == Deleted(old(Contents), num)
      ensures r == if num in old(Contents) then 1 else 0
      ensures r == 0 ==> Contents == old(Contents)
      ensures r == 1 ==> exists k: nat :: (
        && k < |old(Contents)| && old(Contents)[k] == num && num !in old(Contents)[..k]
        && Contents == old(Contents)[..k] + old(Contents)[k + 1..])
      ensures Repr == old(Repr)
    {
      var temp := head;
      var prev: Node? := null;
      ghost var k := 0;
      while temp != null
        invariant 0 <= k <= |spine| && temp == At(spine, k)
        invariant k > 0 ==> prev == spine[k - 1]
        invariant num !in Contents[..k]
        decreases |spine| - k
      {
        if temp.data == num {
          DeletedAt(Contents, num, k);
          UnlinkEither(prev, temp, k);
          return 1;
        }
        prev := temp;
        temp := temp.next;
        k := k + 1;
      }
      assert Contents[..k] == Contents;
      return 0;
    }
  }

  /** The loop of main, with the reads from the terminal as its input; it calls
      delete only on a list that is not empty. */
  method Session(ops: seq<Op>) returns (list: List)
    ensures list.Valid() && list.Contents == ApplyAll(ops)
    ensures Sorted(list.Contents) && multiset(list.Contents) == Bag(ops)
  {
    list := new List();
    for k := 0 to |ops|
      invariant fresh(list) && fresh(list.Repr)
      invariant list.Valid() && list.Contents == ApplyAll(ops[..k])
    {
      assert ops[..k + 1][..k] == ops[..k];
      match ops[k]
      case Insert(x) =>
        list.Insert(x);
      case Delete(x) =>
        if list.head != null {
          var r := list.Delete(x);
        }
    }
    assert ops[..|ops|] == ops;
    AlwaysSorted(ops);
  }
}
