/** The assembler object: walks the lexed lines and pushes their instructions onto a growable vector. */
module Assemblers {
  import opened Bits
  import opened Source
  import opened Vectors
  import opened Encoding
  import opened ByteLists

  /** The byte lists of lines: one list for each, with nodes among these, holding its blocks. */
  ghost predicate Holds(lists: seq<ByteList>, lines: seq<LineInfo>, nodes: set<ByteNode>)
    reads lists, nodes
  {
    && |lists| == |lines|
    && forall i :: 0 <= i < |lists| ==>
         && (forall k :: 0 <= k < |lists[i].nodes| ==> lists[i].nodes[k] in nodes)
         && lists[i].Valid() && lists[i].Contents() == lines[i].blocks
  }

  class Assembler {
    const instrBuf: InstrVector
    var srcRepr: seq<LineInfo>
    var srcLists: seq<ByteList>  // the `byte_list` of each line
    ghost var listNodes: set<ByteNode>

    ghost predicate Valid()
      reads this, instrBuf, instrBuf.buffer
    {
      instrBuf.Valid()
    }

    constructor ()
      ensures Valid() && fresh(instrBuf) && fresh(instrBuf.buffer)
      ensures instrBuf.contents == [] && srcRepr == [] && srcLists == []
    {
      instrBuf := new InstrVector(8);
      srcRepr, srcLists, listNodes := [], [], {};
    }

    method SetRepr(repr: seq<LineInfo>, lists: seq<ByteList>, ghost nodes: set<ByteNode>)
      modifies `srcRepr, `srcLists, `listNodes
      ensures srcRepr == repr && srcLists == lists && listNodes == nodes
    {
      srcRepr, srcLists, listNodes := repr, lists, nodes;
    }

    /** Walks the nodes of a data line's list and emits their bytes, one after the other. */
    method Data(line: LineInfo, list: ByteList)
      modifies instrBuf, instrBuf.buffer
      requires Valid() && list.Valid() && list.Contents() == line.blocks
      ensures Valid() && (instrBuf.buffer == old(instrBuf.buffer) || fresh(instrBuf.buffer))
      ensures instrBuf.contents == old(instrBuf.contents) + DataInstrs(Flatten(line.blocks), line.addr)
    {
      hide DataInstrs, Flatten, Chain, LinkedAt;
      var curAddr := line.addr;
      var curNode := list.Get(0);
      ghost var n := 0;
      ghost var before := instrBuf.contents;
      NothingYet(line.blocks, line.addr);
      while curNode != null
        invariant list.Valid() && list.nodes == old(list.nodes)
        invariant 0 <= n <= |list.nodes| && curNode == NodeOr(list.nodes, n)
        invariant Valid() && (instrBuf.buffer == old(instrBuf.buffer) || fresh(instrBuf.buffer))
        invariant curAddr == line.addr + |Flatten(line.blocks[..n])|
        invariant instrBuf.contents == before + DataInstrs(Flatten(line.blocks[..n]), line.addr)
        decreases |list.nodes| - n
      {
        ghost var done := Flatten(line.blocks[..n]);
        ghost var emitted := DataInstrs(done, line.addr);
        NextInChain(list.nodes, n);
        assert curNode.data == line.blocks[n];
        Block(curNode.data, curAddr);
        DataSplit(done, line.blocks[n], line.addr);
        FlattenNext(line.blocks, n);
        assert (before + emitted) + DataInstrs(line.blocks[n], curAddr)
            == before + (emitted + DataInstrs(line.blocks[n], curAddr));
        curAddr := curAddr + |curNode.data|;
        curNode := curNode.next;
        n := n + 1;
      }
      assert line.blocks[..n] == line.blocks;
    }

    /** Emits one block at the given address. */
    method Block(data: seq<byte>, addr: int)
      modifies instrBuf, instrBuf.buffer
      requires Valid()
      ensures Valid() && (instrBuf.buffer == old(instrBuf.buffer) || fresh(instrBuf.buffer))
      ensures instrBuf.contents == old(instrBuf.contents) + DataInstrs(data, addr)
    {
      var d := 0;
      while d < |data|
        invariant 0 <= d <= |data|
        invariant Valid() && (instrBuf.buffer == old(instrBuf.buffer) || fresh(instrBuf.buffer))
        invariant instrBuf.contents == old(instrBuf.contents) + DataInstrs(data, addr)[..d]
      {
        instrBuf.PushBack(Instr(data[d], WrapAddr(addr + d), 1));
        d := d + 1;
      }
    }

    method AssemLine(line: LineInfo, list: ByteList) returns (status: int)
      modifies instrBuf, instrBuf.buffer
      requires Valid() && TableSafe(line) && list.Valid() && list.Contents() == line.blocks
      ensures Valid() && (instrBuf.buffer == old(instrBuf.buffer) || fresh(instrBuf.buffer))
      ensures var a := Encoding.AssemLine(line);
        status == a.status && instrBuf.contents == old(instrBuf.contents) + a.instrs
    {
      hide Encode;
      status := 0;
      var cur := Instr(0, 0, 1);
      match Encode(line) {
        case Word(word, size) =>
          cur := Instr(word, WrapAddr(line.addr), size);
        case Blocks =>
          Data(line, list);
          return;
        case Unknown =>
          status := -1;
      }
      instrBuf.PushBack(cur);
    }

    /** Assembles every line, stopping at the first that fails; an empty source is taken to succeed. */
    method Assem() returns (status: int)
      modifies instrBuf, instrBuf.buffer
      requires Valid() && AllTableSafe(srcRepr) && Holds(srcLists, srcRepr, listNodes)
      ensures Valid()
      ensures var a := AssemFrom(srcRepr, 0);
        status == a.status && instrBuf.contents == old(instrBuf.contents) + a.instrs
    {
      hide Encode, TableSafe, Encoding.AssemLine, AssemFrom, DoneUpTo;
      status := 0;
      var l := 0;
      ghost var before := instrBuf.contents;
      ghost var done: seq<Instr> := [];
      NothingDone(srcRepr, before);
      while l < |srcRepr|
        invariant 0 <= l <= |srcRepr|
        invariant Valid() && (instrBuf.buffer == old(instrBuf.buffer) || fresh(instrBuf.buffer))
        invariant status == 0 && instrBuf.contents == before + done && Holds(srcLists, srcRepr, listNodes)
        invariant DoneUpTo(srcRepr, l, done)
      {
        ghost var a := Encoding.AssemLine(srcRepr[l]);
        status := AssemLine(srcRepr[l], srcLists[l]);
        Associates(before, done, a.instrs);
        if status < 0 {
          StopsThere(srcRepr, l, done);
          return;
        }
        LineDone(srcRepr, l, done);
        done := done + a.instrs;
        l := l + 1;
      }
      AllDone(srcRepr, done);
    }
  }

  /** The lines before line l are assembled: what they come to stands before what the rest comes to. */
  ghost predicate DoneUpTo(lines: seq<LineInfo>, l: nat, done: seq<Instr>)
    requires AllTableSafe(lines) && l <= |lines|
  {
    var rest := AssemFrom(lines, l);
    AssemFrom(lines, 0) == Assembled(rest.status, done + rest.instrs)
  }

  lemma NothingDone(lines: seq<LineInfo>, before: seq<Instr>)
    requires AllTableSafe(lines)
    ensures DoneUpTo(lines, 0, []) && before + [] == before
  {
    hide AssemFrom;
    assert [] + AssemFrom(lines, 0).instrs == AssemFrom(lines, 0).instrs;
  }

  lemma LineDone(lines: seq<LineInfo>, l: nat, done: seq<Instr>)
    requires AllTableSafe(lines) && l < |lines| && DoneUpTo(lines, l, done)
    requires Encoding.AssemLine(lines[l]).status == 0
    ensures DoneUpTo(lines, l + 1, done + Encoding.AssemLine(lines[l]).instrs)
  {
    hide AssemFrom, Encoding.AssemLine, TableSafe;
    AssemUnfold(lines, l);
    Associates(done, Encoding.AssemLine(lines[l]).instrs, AssemFrom(lines, l + 1).instrs);
  }

  lemma StopsThere(lines: seq<LineInfo>, l: nat, done: seq<Instr>)
    requires AllTableSafe(lines) && l < |lines| && DoneUpTo(lines, l, done)
    requires Encoding.AssemLine(lines[l]).status != 0
    ensures var a := Encoding.AssemLine(lines[l]);
      AssemFrom(lines, 0) == Assembled(a.status, done + a.instrs)
  {
    hide Encoding.AssemLine, TableSafe;
  }

  lemma AllDone(lines: seq<LineInfo>, done: seq<Instr>)
    requires AllTableSafe(lines) && DoneUpTo(lines, |lines|, done)
    ensures AssemFrom(lines, 0) == Assembled(0, done)
  {
    hide Encoding.AssemLine, TableSafe;
    assert done + [] == done;
  }

  lemma DataSplit(xs: seq<byte>, ys: seq<byte>, addr: int)
    ensures DataInstrs(xs + ys, addr) == DataInstrs(xs, addr) + DataInstrs(ys, addr + |xs|)
  {
  }

  lemma NothingYet(blocks: seq<seq<byte>>, addr: int)
    ensures Flatten(blocks[..0]) == [] && DataInstrs([], addr) == []
  {
  }

  lemma FlattenNext(blocks: seq<seq<byte>>, n: nat)
    requires n < |blocks|
    ensures Flatten(blocks[..n + 1]) == Flatten(blocks[..n]) + blocks[n]
  {
    assert blocks[..n + 1] == blocks[..n] + [blocks[n]];
    FlattenAppend(blocks[..n], [blocks[n]]);
    assert Flatten([blocks[n]]) == blocks[n] + Flatten([]);
  }
}
