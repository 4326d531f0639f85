/** The buffer that collects a command's output (cmd/sandboxd/main.go): it keeps the beginning and counts the rest. */
module CappedBuffer {
  import opened Decimals

  type Byte = bv8

  const MAX_OUTPUT_BYTES: nat := 0x20_0000

  function Min(a: nat, b: nat): nat {
    if a < b then a else b
  }

  /** The part of an output that is kept. */
  function Kept(output: seq<Byte>): seq<Byte> {
    output[..Min(|output|, MAX_OUTPUT_BYTES)]
  }

  class CappedBuffer {
    var b: seq<Byte>
    var dropped: nat
    /** Everything that was ever written. */
    ghost var written: seq<Byte>

    ghost predicate Valid()
      reads this
    {
      b == Kept(written) && dropped == |written| - |b|
    }

    constructor ()
      ensures Valid() && written == []
    {
      b, dropped, written := [], 0, [];
    }

    /** Whatever is dropped, the writer is told that all was written. */
    method Write(p: seq<Byte>) returns (n: nat)
      requires Valid()
      modifies this
      ensures Valid() && written == old(written) + p && n == |p|
    {
      var room := MAX_OUTPUT_BYTES - |b|;
      if room > 0 {
        if |p| < room {
          room := |p|;
        }
        b := b + p[..room];
        dropped := dropped + |p| - room;
      } else {
        dropped := dropped + |p|;
      }
      written := written + p;
      return |p|;
    }

    /** What the caller sees: the kept bytes, and a notice if and only if some were dropped. */
    method Contents() returns (kept: seq<Byte>, notice: string)
      requires Valid()
      ensures kept == Kept(written)
      ensures notice == if |written| <= MAX_OUTPUT_BYTES then ""
                        else "\n... [" + Print(|written| - MAX_OUTPUT_BYTES) + " bytes truncated]"
    {
      if dropped > 0 {
        return b, "\n... [" + Print(dropped) + " bytes truncated]";
      }
      return b, "";
    }
  }

  // --- refinement of the whole output by single writes ---

  datatype Buffer = Buffer(b: seq<Byte>, dropped: nat)

  function Written(c: Buffer, p: seq<Byte>): Buffer
    requires |c.b| <= MAX_OUTPUT_BYTES
  {
    var room := Min(MAX_OUTPUT_BYTES - |c.b|, |p|);
    Buffer(c.b + p[..room], c.dropped + |p| - room)
  }

  function Concat(writes: seq<seq<Byte>>): seq<Byte> {
    if writes == [] then [] else Concat(writes[..|writes| - 1]) + writes[|writes| - 1]
  }

  ghost function WrittenAll(writes: seq<seq<Byte>>): (c: Buffer)
    ensures |c.b| <= MAX_OUTPUT_BYTES
  {
    if writes == [] then Buffer([], 0) else Written(WrittenAll(writes[..|writes| - 1]), writes[|writes| - 1])
  }

  /** However an output is cut into writes, the buffer holds its first bytes, and has dropped exactly the others. */
  lemma {:induction false} WritesDoNotMatter(writes: seq<seq<Byte>>)
    ensures WrittenAll(writes) == Buffer(Kept(Concat(writes)), |Concat(writes)| - |Kept(Concat(writes))|)
    ensures Kept(Concat(writes)) <= Concat(writes)
    ensures |Kept(Concat(writes))| == Min(|Concat(writes)|, MAX_OUTPUT_BYTES)
  {
    if writes != [] {
      var front, p := writes[..|writes| - 1], writes[|writes| - 1];
      WritesDoNotMatter(front);
      var before := Concat(front);
      if |before| >= MAX_OUTPUT_BYTES {
        assert Kept(before + p) == Kept(before);
      } else {
        assert before[..|before|] == before;
      }
    }
  }
}
