/** The two growable vectors, with the work of moving elements counted. */
module Vectors {
  import opened Bits

  /** An assembled instruction: its bytes as one number, first byte highest, its address and its size. */
  datatype Instr = Instr(word: nat, addr: word, size: nat)

  class InstrVector {
    var buffer: array<Instr>
    var size: nat
    var capacity: nat
    ghost var contents: seq<Instr>
    ghost var initial: nat  // the capacity at creation
    ghost var copied: nat   // the elements moved by all extensions so far

    ghost predicate Valid()
      reads this, buffer
    {
      && size <= capacity == buffer.Length
      && contents == buffer[..size]
      && 0 < initial <= capacity
      && (capacity == initial || capacity <= 2 * size)
      && copied <= capacity - initial
    }

    constructor (capacity: nat)
      requires capacity > 0
      ensures Valid() && fresh(buffer) && contents == [] && initial == capacity && copied == 0
    {
      this.capacity, size := capacity, 0;
      buffer := new Instr[capacity](_ => Instr(0, 0, 1));
      contents, initial, copied := [], capacity, 0;
    }

    /** Doubling keeps appending cheap: all extensions so far have moved at most twice the present size. */
    method PushBack(instr: Instr)
      modifies this, buffer
      requires Valid()
      ensures Valid() && (buffer == old(buffer) || fresh(buffer))
      ensures contents == old(contents) + [instr] && size == old(size) + 1
      ensures initial == old(initial) && copied <= 2 * size
      ensures capacity == if old(size) < old(capacity) then old(capacity) else 2 * old(capacity)
    {
      if size >= capacity {
        Extend(capacity);
      }
      buffer[size] := instr;
      size := size + 1;
      contents := contents + [instr];
    }

    method Extend(extSize: nat)
      modifies this
      requires Valid()
      ensures fresh(buffer) && size == old(size) && contents == old(contents) && initial == old(initial)
      ensures capacity == buffer.Length == old(capacity) + extSize
      ensures contents == buffer[..size]
      ensures copied == old(copied) + old(size)
    {
      var buf := new Instr[capacity + extSize](_ => Instr(0, 0, 1));
      capacity := capacity + extSize;
      forall i | 0 <= i < size {
        buf[i] := buffer[i];
      }
      copied := copied + size;
      buffer := buf;
    }

    method Get(idx: int) returns (instr: Instr, found: bool)
      requires Valid()
      ensures found <==> 0 <= idx < |contents|
      ensures found ==> instr == contents[idx]
    {
      if idx < 0 || idx >= size {
        return Instr(0, 0, 1), false;
      }
      return buffer[idx], true;
    }
  }

  class ByteVector {
    var data: array<byte>
    var size: nat
    var capacity: nat
    ghost var contents: seq<byte>
    ghost var initial: nat
    ghost var copied: nat

    ghost predicate Valid()
      reads this, data
    {
      && size <= capacity == data.Length
      && contents == data[..size]
      && initial <= capacity
      && (capacity == initial || capacity <= 2 * size)
      && copied <= capacity - initial
    }

    constructor (capacity: nat)
      ensures Valid() && fresh(data) && contents == [] && initial == capacity && copied == 0
    {
      this.capacity, size := capacity, 0;
      data := new byte[capacity](_ => 0);
      contents, initial, copied := [], capacity, 0;
    }

    /**
     * Appends a block; when it fills the vector, the capacity doubles, and grows by the block too if needed.
     * Whatever the lengths, all extensions so far have moved at most twice the present size.
     */
    method PushBack(block: seq<byte>)
      modifies this, data
      requires Valid()
      ensures Valid() && (data == old(data) || fresh(data))
      ensures contents == old(contents) + block && size == old(size) + |block|
      ensures initial == old(initial) && copied <= 2 * size
      ensures var full := old(size) + |block|;
        capacity == if full < old(capacity) then old(capacity)
                    else if full > 2 * old(capacity) then 2 * old(capacity) + |block|
                    else 2 * old(capacity)
    {
      var len := |block|;
      if size + len >= capacity {
        if size + len > 2 * capacity {
          Extend(capacity + len);
        } else {
          Extend(capacity);
        }
      }
      CopyIn(block);
      size := size + len;
      contents := contents + block;
    }

    method CopyIn(block: seq<byte>)
      modifies data
      requires size + |block| <= data.Length
      ensures data[..size + |block|] == old(data[..size]) + block
    {
      forall i | 0 <= i < |block| {
        data[size + i] := block[i];
      }
    }

    method Extend(extSize: nat)
      modifies this
      requires Valid()
      ensures fresh(data) && size == old(size) && contents == old(contents) && initial == old(initial)
      ensures capacity == data.Length == old(capacity) + extSize
      ensures contents == data[..size]
      ensures copied == old(copied) + old(size)
    {
      var mem := new byte[capacity + extSize](_ => 0);
      forall i | 0 <= i < size {
        mem[i] := data[i];
      }
      copied := copied + size;
      data := mem;
      capacity := capacity + extSize;
    }

    method GetVal(idx: int) returns (v: byte)
      requires Valid()
      ensures v == if 0 <= idx < |contents| then contents[idx] else 0
    {
      if idx < 0 || idx >= size {
        return 0;
      }
      return data[idx];
    }
  }

  lemma Associates<T>(a: seq<T>, b: seq<T>, c: seq<T>)
    ensures (a + b) + c == a + (b + c)
  {
  }
}
