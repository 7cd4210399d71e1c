/** Buffered writes to a non-blocking descriptor (src/utils.h). */
module Writers {
  import opened Framing

  lemma {:induction false} FlatFront<T>(blocks: seq<seq<T>>)
    requires blocks != []
    ensures Flat(blocks) == blocks[0] + Flat(blocks[1..])
  {
    var n := |blocks| - 1;
    if n > 0 {
      FlatFront(blocks[..n]);
      assert blocks[..n][1..] == blocks[1..][..n-1];
      assert blocks[1..][n-1] == blocks[n];
      assert Flat(blocks[1..]) == Flat(blocks[1..][..n-1]) + blocks[n];
    } else {
      assert blocks[..0] == [] && blocks[1..] == [];
    }
  }

  class NonblockWriter {
    var buffer: seq<string>
    /** The error callback was called: the descriptor is broken. */
    var broken: bool
    /** What the descriptor has taken so far, and what callers asked to be written so far. */
    ghost var sent: string
    ghost var written: string
    /** Tells the writers of different objects apart. */
    ghost const owner: int

    /** Nothing is lost, duplicated or reordered between the callers and the descriptor. */
    ghost predicate Valid()
      reads this
    {
      sent + Flat(buffer) == written
    }

    constructor (ghost owner: int)
      ensures Valid() && written == "" && buffer == [] && this.owner == owner
    {
      buffer, broken, sent, written := [], false, "", "";
      this.owner := owner;
    }

    /** One write call: the descriptor takes any part of s, or fails and takes nothing. */
    method WriteString(s: string) returns (size: nat)
      modifies this`broken, this`sent
      ensures size <= |s| && sent == old(sent) + s[..size]
      ensures old(broken) ==> broken
    {
      var result :| -1 <= result <= |s|;
      if result < 0 {
        var wouldBlock: bool := *;
        if !wouldBlock {
          broken := true;
        }
        size := 0;
      } else {
        size := result;
      }
      sent := sent + s[..size];
    }

    method Flush() returns (done: bool)
      requires Valid()
      modifies this
      ensures Valid() && written == old(written)
      ensures done <==> buffer == []
      ensures done ==> sent == written
      ensures old(sent) <= sent && |Flat(buffer)| <= |Flat(old(buffer))|
      ensures old(broken) ==> broken
    {
      while buffer != []
        invariant Valid() && written == old(written) && old(sent) <= sent
        invariant old(broken) ==> broken
        decreases |buffer|
      {
        var front := buffer[0];
        FlatFront(buffer);
        var size := WriteString(front);
        if size == |front| {
          buffer := buffer[1..];
        } else {
          buffer := [front[size..]] + buffer[1..];
          FlatFront(buffer);
          assert front[..size] + front[size..] == front;
          return false;
        }
      }
      return true;
    }

    method Write(s: string)
      requires Valid()
      modifies this
      ensures Valid() && written == old(written) + s
      ensures old(sent) <= sent
      ensures old(broken) ==> broken
    {
      buffer := buffer + [s];
      written := written + s;
      FlatAppend(old(buffer), s);
      var _ := Flush();
    }
  }
}
