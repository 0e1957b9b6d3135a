/** The last bytes a command wrote (class RollingOutput, src/lib/process.ts). */
module RollingOutput {
  type Byte = bv8

  function Joined(chunks: seq<seq<Byte>>): seq<Byte> {
    if chunks == [] then [] else chunks[0] + Joined(chunks[1..])
  }

  /** The last `n` bytes, or all of them. */
  function Last(bytes: seq<Byte>, n: nat): seq<Byte> {
    if |bytes| <= n then bytes else bytes[|bytes| - n..]
  }

  lemma {:induction false} JoinedAppend(chunks: seq<seq<Byte>>, chunk: seq<Byte>)
    ensures Joined(chunks + [chunk]) == Joined(chunks) + chunk
  {
    if chunks == [] {
      assert Joined([chunk]) == chunk + Joined([chunk][1..]);
    } else {
      assert (chunks + [chunk])[1..] == chunks[1..] + [chunk];
      JoinedAppend(chunks[1..], chunk);
      assert chunks[0] + (Joined(chunks[1..]) + chunk) == (chunks[0] + Joined(chunks[1..])) + chunk;
    }
  }

  /** What was kept of `pushed`, continued by a chunk, keeps the last of both. */
  lemma LastOfBoth(pushed: seq<Byte>, chunk: seq<Byte>, n: nat)
    ensures Last(Last(pushed, n) + chunk, n) == Last(pushed + chunk, n)
  {
  }

  /** Dropping `n` bytes of the first chunk drops the first `n` bytes. */
  lemma DropFront(chunks: seq<seq<Byte>>, n: nat)
    requires chunks != [] && n <= |chunks[0]|
    ensures n == |chunks[0]| ==> Joined(chunks[1..]) == Joined(chunks)[n..]
    ensures Joined([chunks[0][n..]] + chunks[1..]) == Joined(chunks)[n..]
  {
    assert ([chunks[0][n..]] + chunks[1..])[1..] == chunks[1..];
  }

  class Output {
    const limit: nat := 8 * 1024 * 1024
    var chunks: seq<seq<Byte>>
    var size: nat
    var truncated: bool
    /** Every byte pushed so far. */
    ghost var pushed: seq<Byte>

    ghost predicate Valid()
      reads this
    {
      && Joined(chunks) == Last(pushed, limit)
      && size == |Joined(chunks)|
      && (|pushed| > limit ==> truncated)
      && (truncated ==> |pushed| >= limit)
    }

    constructor ()
      ensures Valid() && pushed == [] && !truncated
    {
      chunks, size, truncated, pushed := [], 0, false, [];
    }

    method Push(chunk: seq<Byte>)
      requires Valid()
      modifies this
      ensures Valid() && pushed == old(pushed) + chunk
      ensures truncated <==> old(truncated) || |chunk| >= limit || |Last(old(pushed), limit) + chunk| > limit
    {
      pushed := pushed + chunk;
      if |chunk| >= limit {
        chunks := [chunk[|chunk| - limit..]];
        assert Joined(chunks) == chunks[0] + Joined(chunks[1..]) == chunks[0];
        size := limit;
        truncated := true;
        return;
      }
      JoinedAppend(chunks, chunk);
      LastOfBoth(old(pushed), chunk, limit);
      chunks := chunks + [chunk];
      size := size + |chunk|;
      Trim();
    }

    /** The trimming loop: whole chunks go from the front, then part of one. */
    method Trim()
      requires size == |Joined(chunks)|
      modifies this`chunks, this`size, this`truncated
      ensures Joined(chunks) == Last(old(Joined(chunks)), limit) && size == |Joined(chunks)|
      ensures truncated <==> old(truncated) || old(size) > limit
    {
      ghost var all := Joined(chunks);
      while size > limit
        invariant size == |Joined(chunks)| <= |all|
        invariant Joined(chunks) == all[|all| - size..]
        invariant |all| > limit ==> size >= limit
        invariant |all| <= limit ==> size == |all|
        invariant truncated ==> old(truncated) || |all| > limit
        invariant old(truncated) || size < |all| ==> truncated
        decreases |chunks|, size
      {
        var first := chunks[0];
        var overflow := size - limit;
        DropFront(chunks, if |first| > overflow then overflow else |first|);
        chunks := chunks[1..];
        if |first| > overflow {
          chunks := [first[overflow..]] + chunks;
          size := size - overflow;
        } else {
          size := size - |first|;
        }
        truncated := true;
      }
    }

    /** text(): what was kept, marked when something before it was dropped. */
    method Text() returns (marked: bool, kept: seq<Byte>)
      requires Valid()
      ensures marked == truncated
      ensures kept == if |pushed| <= 8_388_608 then pushed else pushed[|pushed| - 8_388_608..]
    {
      return truncated, Joined(chunks);
    }
  }
}
