/**
 * The PS2 controller link (src/ps2.py): a bit-banged full-duplex byte exchange, least significant
 * bit first, framed by the select line, and the active-low button word with its edge predicates.
 *
 * The data line is an input: `shift_io` is given the eight levels it will sample, one per clock.
 * Each falling clock edge is recorded with the command and select levels at that moment.
 */
module Ps2 {
  import opened Common

  /** `1 << i` for a bit position of a byte. */
  function Mask(i: nat): bv8
    requires i < 8
  {
    if i == 0 then 0x01 else if i == 1 then 0x02 else if i == 2 then 0x04 else if i == 3 then 0x08
    else if i == 4 then 0x10 else if i == 5 then 0x20 else if i == 6 then 0x40 else 0x80
  }

  /** Bit `i` of a byte is set. */
  predicate Bit(b: bv8, i: nat)
    requires i < 8
  {
    b & Mask(i) != 0
  }

  /** The bits of a byte, least significant first. */
  function ByteBits(b: bv8): (bits: seq<bool>)
    ensures |bits| == 8
  {
    seq(8, i requires 0 <= i < 8 => Bit(b, i))
  }

  /** The byte whose bit `i` is `bits[i]` (bits past the end are 0). */
  function BitsToByte(bits: seq<bool>): bv8
    requires |bits| <= 8
    decreases |bits|
  {
    if bits == [] then 0
    else BitsToByte(bits[..|bits| - 1]) | (if bits[|bits| - 1] then Mask(|bits| - 1) else 0)
  }

  /** Bit `i` of the assembled byte is the `i`-th level, and 0 past the levels given. */
  lemma {:induction false} BitsToByteBit(bits: seq<bool>, i: nat)
    requires |bits| <= 8 && i < 8
    ensures Bit(BitsToByte(bits), i) == (i < |bits| && bits[i])
    decreases |bits|
  {
    if bits != [] {
      var n := |bits| - 1;
      BitsToByteBit(bits[..n], i);
      assert forall k :: 0 <= k < n ==> bits[..n][k] == bits[k];
    }
  }

  /** Assembling one more level sets that bit, if the level is high. */
  lemma BitsToByteStep(bits: seq<bool>, i: nat, acc: bv8)
    requires i < |bits| <= 8 && acc == BitsToByte(bits[..i])
    ensures bits[i] ==> BitsToByte(bits[..i + 1]) == acc | Mask(i)
    ensures !bits[i] ==> BitsToByte(bits[..i + 1]) == acc
  {
    assert bits[..i + 1][..i] == bits[..i];
  }

  /** Two bytes with the same eight bits are equal. */
  lemma SameBits(x: bv8, y: bv8)
    requires forall i :: 0 <= i < 8 ==> Bit(x, i) == Bit(y, i)
    ensures x == y
  {
    assert Bit(x, 0) == Bit(y, 0) && Bit(x, 1) == Bit(y, 1) && Bit(x, 2) == Bit(y, 2) && Bit(x, 3) == Bit(y, 3);
    assert Bit(x, 4) == Bit(y, 4) && Bit(x, 5) == Bit(y, 5) && Bit(x, 6) == Bit(y, 6) && Bit(x, 7) == Bit(y, 7);
  }

  /** Splitting a byte into bits and assembling them gives the byte back. */
  lemma ByteBitsRoundTrip(b: bv8)
    ensures BitsToByte(ByteBits(b)) == b
  {
    forall i | 0 <= i < 8 ensures Bit(BitsToByte(ByteBits(b)), i) == Bit(b, i) {
      BitsToByteBit(ByteBits(b), i);
    }
    SameBits(BitsToByte(ByteBits(b)), b);
  }

  /** Assembling eight levels and splitting the byte gives the levels back. */
  lemma BitsRoundTrip(bits: seq<bool>)
    requires |bits| == 8
    ensures ByteBits(BitsToByte(bits)) == bits
  {
    forall i | 0 <= i < 8 ensures ByteBits(BitsToByte(bits))[i] == bits[i] {
      BitsToByteBit(bits, i);
    }
  }

  /** The command and select levels at a falling clock edge. */
  datatype Clock = Clock(cmd: bool, sel: bool)

  /** The clock edges of one byte exchanged with select at `sel`: the byte's bits, low bit first. */
  function ByteClocks(b: bv8, sel: bool): (cs: seq<Clock>)
    ensures |cs| == 8 && forall i :: 0 <= i < 8 ==> cs[i] == Clock(ByteBits(b)[i], sel)
  {
    seq(8, i requires 0 <= i < 8 => Clock(ByteBits(b)[i], sel))
  }

  /** The clock edges of a command sent under a low select line. */
  function Frames(bytes: seq<bv8>): seq<Clock>
    decreases |bytes|
  {
    if bytes == [] then [] else Frames(bytes[..|bytes| - 1]) + ByteClocks(bytes[|bytes| - 1], false)
  }

  /** Byte `k` of a command occupies clock edges `8k` to `8k+7`, low bit first, all with select low. */
  lemma {:induction false} FramesLayout(bytes: seq<bv8>)
    ensures |Frames(bytes)| == 8 * |bytes|
    ensures forall k, i :: 0 <= k < |bytes| && 0 <= i < 8 ==> Frames(bytes)[8 * k + i] == Clock(ByteBits(bytes[k])[i], false)
    decreases |bytes|
  {
    if bytes != [] {
      var n := |bytes| - 1;
      FramesLayout(bytes[..n]);
      forall k, i | 0 <= k < |bytes| && 0 <= i < 8
        ensures Frames(bytes)[8 * k + i] == Clock(ByteBits(bytes[k])[i], false)
      {
        if k < n {
          assert bytes[..n][k] == bytes[k];
        }
      }
    }
  }

  class Ps2Protocol {
    var cmd: bool
    var clk: bool
    var sel: bool
    var clocks: seq<Clock>

    /** The three output lines start high. */
    constructor ()
      ensures cmd && clk && sel && clocks == []
    {
      cmd := true;
      clk := true;
      sel := true;
      clocks := [];
    }

    /**
     * `shift_io`: for each bit, low bit first, put it on the command line, pull the clock low,
     * sample the data line into that bit of the result, and raise the clock; then raise the
     * command line.
     */
    method ShiftIo(byteOut: bv8, dat: seq<bool>) returns (byteIn: bv8)
      requires |dat| == 8
      modifies this`cmd, this`clk, this`clocks
      ensures byteIn == BitsToByte(dat)
      ensures clocks == old(clocks) + ByteClocks(byteOut, sel)
      ensures cmd && clk
    {
      ghost var edges := ByteClocks(byteOut, sel);
      byteIn := 0;
      for i := 0 to 8
        invariant byteIn == BitsToByte(dat[..i])
        invariant clocks == old(clocks) + edges[..i]
        invariant i > 0 ==> clk
      {
        cmd := byteOut & Mask(i) != 0;
        assert edges[i] == Clock(cmd, sel);
        clk := false;
        clocks := clocks + [Clock(cmd, sel)];
        BitsToByteStep(dat, i, byteIn);
        if dat[i] {
          byteIn := byteIn | Mask(i);
        }
        clk := true;
        assert edges[..i + 1] == edges[..i] + [edges[i]];
      }
      assert dat[..8] == dat && edges[..8] == edges;
      cmd := true;
    }

    /** `start`: select the controller. */
    method Start()
      modifies this`sel
      ensures !sel
    {
      sel := false;
    }

    /** `end`: deselect it. */
    method End()
      modifies this`sel
      ensures sel
    {
      sel := true;
    }

    /**
     * `send_cmd`: select, exchange the command bytes in order collecting one response byte each,
     * deselect. `dat[k]` holds the levels the data line shows during byte `k`.
     */
    method SendCmd(cmdBytes: seq<bv8>, dat: seq<seq<bool>>) returns (res: seq<bv8>)
      requires |dat| == |cmdBytes| && forall k :: 0 <= k < |dat| ==> |dat[k]| == 8
      modifies this
      ensures |res| == |cmdBytes| && forall k :: 0 <= k < |res| ==> res[k] == BitsToByte(dat[k])
      ensures clocks == old(clocks) + Frames(cmdBytes)
      ensures sel
    {
      Start();
      res := [];
      for k := 0 to |cmdBytes|
        invariant |res| == k && forall j :: 0 <= j < k ==> res[j] == BitsToByte(dat[j])
        invariant clocks == old(clocks) + Frames(cmdBytes[..k])
        invariant !sel
      {
        var b := ShiftIo(cmdBytes[k], dat[k]);
        res := res + [b];
        assert cmdBytes[..k + 1][..k] == cmdBytes[..k];
      }
      assert cmdBytes[..|cmdBytes|] == cmdBytes;
      End();
    }
  }
}
