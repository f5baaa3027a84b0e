/** The doubly linked list of byte blocks that a data line carries, on the heap. */
module ByteLists {
  import opened Bits
  import opened Source
  import opened LexSpec

  /** A node with its own copy of the bytes it was created with. */
  class ByteNode {
    const data: seq<byte>
    var next: ByteNode?
    var prev: ByteNode?
    ghost var freed: bool

    constructor (bytes: array<byte>, len: nat)
      requires len <= bytes.Length
      ensures data == bytes[..len] && next == null && prev == null && !freed
    {
      data := bytes[..len];
      next, prev, freed := null, null, false;
    }

    /** Gives the node back; it can be given back once. */
    method Destroy()
      requires !freed
      modifies this`freed
      ensures freed
    {
      freed := true;
    }
  }

  /** The node at an index, or none. */
  function NodeOr(nodes: seq<ByteNode>, i: int): ByteNode? {
    if 0 <= i < |nodes| then nodes[i] else null
  }

  /** A node is live, and linked to its neighbours. */
  ghost predicate LinkedAt(nodes: seq<ByteNode>, i: nat)
    requires i < |nodes|
    reads nodes[i]
  {
    !nodes[i].freed && nodes[i].next == NodeOr(nodes, i + 1) && nodes[i].prev == NodeOr(nodes, i - 1)
  }

  /** The nodes form a chain: live, distinct, and each the other end of its neighbours' links. */
  ghost predicate Chain(nodes: seq<ByteNode>)
    reads nodes
  {
    && (forall i, j :: 0 <= i < j < |nodes| ==> nodes[i] != nodes[j])
    && (forall i :: 0 <= i < |nodes| ==> LinkedAt(nodes, i))
  }

  lemma NextInChain(nodes: seq<ByteNode>, i: nat)
    requires Chain(nodes) && i < |nodes|
    ensures nodes[i].next == NodeOr(nodes, i + 1)
  {
    assert LinkedAt(nodes, i);
  }

  function Blocks(nodes: seq<ByteNode>): (blocks: seq<seq<byte>>)
    ensures |blocks| == |nodes| && forall i :: 0 <= i < |nodes| ==> blocks[i] == nodes[i].data
  {
    seq(|nodes|, i requires 0 <= i < |nodes| => nodes[i].data)
  }

  /** A sequence without its element at an index. */
  function Without<T>(s: seq<T>, i: nat): (r: seq<T>)
    requires i < |s|
    ensures |r| == |s| - 1 && forall k :: 0 <= k < |r| ==> r[k] == s[if k < i then k else k + 1]
  {
    s[..i] + s[i + 1..]
  }

  function Reversed<T>(s: seq<T>): (r: seq<T>)
    ensures |r| == |s| && forall i :: 0 <= i < |s| ==> r[i] == s[|s| - 1 - i]
  {
    if s == [] then [] else Reversed(s[1..]) + [s[0]]
  }

  class ByteList {
    var len: int
    var first: ByteNode?
    ghost var nodes: seq<ByteNode>

    /** `first` is the head of the chain. */
    ghost predicate Linked()
      reads this, nodes
    {
      Chain(nodes) && first == NodeOr(nodes, 0)
    }

    ghost predicate Valid()
      reads this, nodes
    {
      Linked() && len == |nodes|
    }

    ghost function Contents(): seq<seq<byte>>
      reads this
    {
      Blocks(nodes)
    }

    constructor ()
      ensures Valid() && nodes == []
    {
      len, first, nodes := 0, null, [];
    }

    method Last() returns (node: ByteNode)
      requires Valid() && nodes != []
      ensures node == nodes[|nodes| - 1]
    {
      ghost var i := 0;
      node := first;
      while node.next != null
        invariant 0 <= i < |nodes| && node == nodes[i] && LinkedAt(nodes, i)
        decreases |nodes| - i
      {
        assert LinkedAt(nodes, i + 1);
        node := node.next;
        i := i + 1;
      }
    }

    method AppendData(data: array?<byte>, count: nat) returns (status: int)
      requires Valid() && (data != null ==> count <= data.Length)
      modifies this, nodes
      ensures Valid()
      ensures data == null ==> status == -1 && nodes == old(nodes)
      ensures data != null ==>
        && status == 0 && |nodes| == old(|nodes|) + 1
        && nodes[..old(|nodes|)] == old(nodes) && fresh(nodes[old(|nodes|)])
        && Contents() == old(Contents()) + [old(data[..count])]
    {
      if data == null {
        return -1;
      }
      var node := new ByteNode(data, count);
      if first == null {
        first := node;
      } else {
        var end := Last();
        end.next := node;
        node.prev := end;
      }
      ghost var was := nodes;
      nodes := nodes + [node];
      len := len + 1;
      forall k | 0 <= k < |nodes|
        ensures LinkedAt(nodes, k)
      {
        assert k < |was| ==> old(LinkedAt(was, k));
      }
      return 0;
    }

    method Get(idx: int) returns (node: ByteNode?)
      requires Valid()
      ensures node == if 0 <= idx < |nodes| then nodes[idx] else null
    {
      if idx < 0 || idx >= len {
        return null;
      }
      node := NodeFrom(nodes, idx);
    }

    /** The node that many links from the first. */
    method NodeFrom(ghost chain: seq<ByteNode>, idx: nat) returns (node: ByteNode)
      requires Chain(chain) && first == NodeOr(chain, 0) && idx < |chain|
      ensures node == chain[idx]
    {
      node := first;
      for i := 0 to idx
        invariant node == chain[i]
      {
        assert LinkedAt(chain, i);
        node := node.next;
      }
    }

    method RemoveEnd()
      requires Valid()
      modifies this, nodes
      ensures Valid()
      ensures nodes == if old(nodes) == [] then [] else old(nodes[..|nodes| - 1])
      ensures old(nodes) != [] ==> old(nodes[|nodes| - 1]).freed
    {
      if first == null {
        return;
      }
      assert LinkedAt(nodes, 0);
      if len == 1 {
        first.Destroy();
        first := null;
      } else {
        var node := Last();
        assert LinkedAt(nodes, |nodes| - 1) && LinkedAt(nodes, |nodes| - 2);
        node := node.prev;
        node.next.Destroy();
        node.next := null;
      }
      ghost var was := nodes;
      nodes := nodes[..|nodes| - 1];
      len := len - 1;
      forall k | 0 <= k < |nodes|
        ensures LinkedAt(nodes, k)
      {
        assert old(LinkedAt(was, k));
      }
    }

    /**
     * Removal by index. It faults, on the missing node behind the one removed, exactly when the index is the last
     * of several; the chain is then relinked but the length no longer its own. An index past the end removes the
     * last node, a negative one nothing, any other its node.
     */
    method RemoveIdx(idx: int) returns (fault: bool)
      requires Valid()
      modifies this, nodes
      ensures fault <==> 1 < old(|nodes|) == idx + 1
      ensures fault ==> Linked() && nodes == old(nodes[..|nodes| - 1]) && len == old(len)
      ensures !fault ==> Valid()
      ensures idx < 0 ==> nodes == old(nodes)
      ensures 0 <= idx < old(|nodes|) ==> nodes == Without(old(nodes), idx) && old(nodes)[idx].freed
      ensures idx >= old(|nodes|) ==> nodes == if old(nodes) == [] then [] else old(nodes[..|nodes| - 1])
    {
      hide Without;
      if idx < 0 || len == 0 || first == null {
        return false;
      }
      if idx >= len {
        RemoveEnd();
        return false;
      }
      assert LinkedAt(nodes, 0);
      ghost var was := nodes;
      nodes := Without(nodes, idx);
      fault := false;
      if idx == 0 && len > 1 {
        assert LinkedAt(was, 1);
        var node := first.next;
        first.Destroy();
        first := node;
        first.prev := null;
      } else if len == 1 {
        first.Destroy();
        first := null;
      } else {
        var node := NodeFrom(was, idx);
        assert LinkedAt(was, idx) && LinkedAt(was, idx - 1);
        var after := node.next;
        node := node.prev;
        node.next.Destroy();
        node.next := after;
        fault := after == null;
        if !fault {
          after.prev := node;
        }
      }
      if !fault {
        len := len - 1;
      }
      forall k | 0 <= k < |nodes|
        ensures LinkedAt(nodes, k)
      {
        assert old(LinkedAt(was, if k < idx then k else k + 1));
      }
    }

    /** The bytes of all blocks together. */
    method TotalBytes() returns (total: nat)
      requires Valid()
      ensures total == LexSpec.TotalBytes(Contents())
    {
      total := 0;
      ghost var i := 0;
      var cur := first;
      while cur != null
        invariant 0 <= i <= |nodes| && cur == NodeOr(nodes, i)
        invariant total == LexSpec.TotalBytes(Blocks(nodes)[..i])
        decreases |nodes| - i
      {
        assert LinkedAt(nodes, i);
        TotalNext(Blocks(nodes), i);
        total := total + |cur.data|;
        cur := cur.next;
        i := i + 1;
      }
      assert Blocks(nodes)[..i] == Blocks(nodes);
    }

    /** Copying appends the other list's blocks in order, and leaves that list alone. */
    method CopyFrom(src: ByteList)
      requires Valid() && src.Valid()
      requires forall n :: n in src.nodes ==> n !in nodes
      modifies this, nodes
      ensures Valid() && src.Valid() && src.nodes == old(src.nodes)
      ensures forall k :: 0 <= k < |nodes| ==> nodes[k] in old(nodes) || fresh(nodes[k])
      ensures Contents() == old(Contents()) + old(src.Contents())
    {
      hide Chain, LinkedAt;
      var cur := src.first;
      ghost var blocks, was := src.Contents(), Contents();
      ghost var i := 0;
      while cur != null
        invariant Valid() && src.Valid() && src.nodes == old(src.nodes)
        invariant forall k :: 0 <= k < |nodes| ==> nodes[k] in old(nodes) || fresh(nodes[k])
        invariant forall k :: 0 <= k < |src.nodes| ==> src.nodes[k] !in nodes
        invariant 0 <= i <= |src.nodes| && cur == NodeOr(src.nodes, i)
        invariant Contents() == was + blocks[..i]
        decreases |src.nodes| - i
      {
        NextInChain(src.nodes, i);
        assert src.nodes[i] !in nodes;
        var bytes := new byte[|cur.data|](j requires 0 <= j < |cur.data| => cur.data[j]);
        assert bytes[..bytes.Length] == cur.data == blocks[i];
        var status := AppendData(bytes, bytes.Length);
        OneMore(was, blocks, i);
        cur := cur.next;
        i := i + 1;
      }
      assert blocks[..i] == blocks;
    }

    /** Gives back every node exactly once, from the last to the first. */
    method Destroy() returns (order: seq<ByteNode>)
      requires Valid()
      modifies nodes
      ensures order == Reversed(nodes)
      ensures forall i :: 0 <= i < |nodes| ==> nodes[i].freed
    {
      hide Reversed, NodeOr;
      order := [];
      if len > 0 {
        var cur := Last();
        ghost var i := |nodes| - 1;
        forall j | 0 <= j < |nodes|
          ensures !nodes[j].freed && nodes[j].prev == NodeOr(nodes, j - 1) && nodes[j].next == NodeOr(nodes, j + 1)
        {
          assert LinkedAt(nodes, j);
        }
        assert order == Reversed(nodes[i + 1..]) by { LastReversed(nodes, i); }
        FirstOf(nodes);
        while cur != first
          invariant 0 <= i < |nodes| && cur == nodes[i]
          invariant forall j :: 0 <= j < |nodes| ==> nodes[j].freed == (j > i)
          invariant forall j :: 0 <= j < |nodes| ==>
            nodes[j].prev == NodeOr(nodes, j - 1) && nodes[j].next == NodeOr(nodes, j + 1)
          invariant order == Reversed(nodes[i + 1..])
          decreases i
        {
          LastReversed(nodes, i);
          Neighbours(nodes, i);
          i := i - 1;
          cur := cur.prev;
          cur.next.Destroy();
          order := order + [cur.next];
        }
        LastReversed(nodes, 0);
        first.Destroy();
        order := order + [first];
      } else {
        LastReversed(nodes, -1);
      }
    }
  }

  lemma FirstOf(nodes: seq<ByteNode>)
    requires nodes != []
    ensures NodeOr(nodes, 0) == nodes[0]
  {
  }

  lemma Neighbours(nodes: seq<ByteNode>, i: nat)
    requires 0 < i < |nodes|
    ensures NodeOr(nodes, i - 1) == nodes[i - 1] && NodeOr(nodes, i - 1 + 1) == nodes[i]
  {
  }

  /** One step of reversing from the end. */
  lemma LastReversed<T>(s: seq<T>, i: int)
    requires -1 <= i < |s|
    ensures i >= 0 ==> Reversed(s[i..]) == Reversed(s[i + 1..]) + [s[i]] && s[0..] == s
    ensures i + 1 == |s| ==> Reversed(s[i + 1..]) == []
    ensures s == [] ==> Reversed(s) == []
  {
    if i >= 0 {
      assert s[i..][1..] == s[i + 1..];
    }
  }

  lemma OneMore<T>(was: seq<T>, more: seq<T>, i: nat)
    requires i < |more|
    ensures was + more[..i] + [more[i]] == was + more[..i + 1]
  {
  }

  /** One more block adds its bytes. */
  lemma TotalNext(blocks: seq<seq<byte>>, i: nat)
    requires i < |blocks|
    ensures LexSpec.TotalBytes(blocks[..i + 1]) == LexSpec.TotalBytes(blocks[..i]) + |blocks[i]|
  {
    assert blocks[..i + 1] == blocks[..i] + [blocks[i]];
    FlattenAppend(blocks[..i], [blocks[i]]);
    assert Flatten([blocks[i]]) == blocks[i] + Flatten([]);
  }
}
