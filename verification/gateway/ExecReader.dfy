/** Exact reads over a byte stream that arrives in pieces of any size. */
module ExecReader {

  newtype byte = x: int | 0 <= x < 256

  datatype Read = Bytes(taken: seq<byte>) | Incomplete(partial: seq<byte>, expected: nat)

  function Flat(chunks: seq<seq<byte>>): (bytes: seq<byte>) {
    if chunks == [] then [] else chunks[0] + Flat(chunks[1..])
  }

  /** The output of a process: what `receive` will still give, piece by piece. After the last piece it gives nothing.
      A piece may be shorter or longer than the count that was asked for. */
  class ProcessOutput {
    var chunks: seq<seq<byte>>

    constructor (chunks: seq<seq<byte>>)
      requires [] !in chunks
      ensures Valid() && this.chunks == chunks
    {
      this.chunks := chunks;
    }

    ghost predicate Valid()
      reads this
    {
      [] !in chunks
    }

    method Receive(count: nat) returns (chunk: seq<byte>)
      requires Valid()
      modifies this
      ensures Valid()
      ensures chunk == [] <==> old(chunks) == []
      ensures chunk == [] ==> chunks == []
      ensures chunk != [] ==> old(chunks) == [chunk] + chunks
    {
      if chunks == [] {
        return [];
      }
      chunk, chunks := chunks[0], chunks[1..];
    }
  }

  class Reader {
    const process: ProcessOutput
    var buffer: seq<byte>

    constructor (process: ProcessOutput)
      ensures this.process == process && buffer == []
    {
      this.process, buffer := process, [];
    }

    /** Every byte that a read has not taken yet. */
    ghost function Unread(): (bytes: seq<byte>)
      reads this, process
    {
      buffer + Flat(process.chunks)
    }

    /** A read takes exactly the next `count` bytes, however they were cut into pieces; at the end of the output it
        reports all that is left, and leaves it in the buffer. */
    method ReadExactly(count: nat) returns (r: Read)
      requires process.Valid()
      modifies this`buffer, process
      ensures process.Valid()
      ensures r.Bytes? <==> count <= |old(Unread())|
      ensures r.Bytes? ==> |r.taken| == count && old(Unread()) == r.taken + Unread()
      ensures r.Incomplete? ==> r.partial == old(Unread()) == Unread() && r.expected == count
    {
      while |buffer| < count
        invariant process.Valid() && Unread() == old(Unread())
        decreases |process.chunks|
      {
        var chunk := process.Receive(count - |buffer|);
        if chunk == [] {
          return Incomplete(buffer, count);
        }
        buffer := buffer + chunk;
      }
      r := Bytes(buffer[..count]);
      buffer := buffer[count..];
    }

    /** Reads of given lengths cut the output at those lengths only: the pieces leave no trace. */
    method ReadFrames(counts: seq<nat>) returns (frames: seq<seq<byte>>, whole: bool)
      requires process.Valid()
      modifies this`buffer, process
      ensures process.Valid() && old(Unread()) == Flat(frames) + Unread()
      ensures |frames| <= |counts| && forall i :: 0 <= i < |frames| ==> |frames[i]| == counts[i]
      ensures whole <==> |frames| == |counts|
      ensures !whole ==> |Unread()| < counts[|frames|]
    {
      frames, whole := [], true;
      while whole && |frames| < |counts|
        invariant process.Valid() && old(Unread()) == Flat(frames) + Unread()
        invariant |frames| <= |counts| && forall i :: 0 <= i < |frames| ==> |frames[i]| == counts[i]
        invariant !whole ==> |frames| < |counts| && |Unread()| < counts[|frames|]
        decreases whole, |counts| - |frames|
      {
        var r := ReadExactly(counts[|frames|]);
        match r {
          case Bytes(taken) =>
            FlatAppends(frames, taken);
            frames := frames + [taken];
          case Incomplete(_, _) =>
            whole := false;
        }
      }
    }
  }

  lemma {:induction false} FlatAppends(chunks: seq<seq<byte>>, last: seq<byte>)
    ensures Flat(chunks + [last]) == Flat(chunks) + last
  {
    if chunks == [] {
    } else {
      FlatAppends(chunks[1..], last);
      assert (chunks + [last])[1..] == chunks[1..] + [last];
    }
  }
}
