/** The in-memory sink, and why the whole-file check at the end cannot fail. */
module Storage {
  import opened Blocks
  import opened Prelude
  import Crc

  /** `MemSink` */
  class MemSink {
    var buf: seq<byte>

    constructor ()
      ensures buf == []
    {
      buf := [];
    }

    method Allocate(len: nat)
      modifies this
      ensures |buf| == len && forall k :: 0 <= k < len ==> buf[k] == 0
    {
      buf := [];
      buf := buf + seq(len, _ => 0);
    }

    /** Overwrites in place, growing first if the write ends past the end. */
    method WriteAllAt(off: nat, data: seq<byte>)
      modifies this
      ensures buf == WriteAt(old(buf), off, data)
    {
      var end := off + |data|;
      if end > |buf| {
        buf := buf + seq(end - |buf|, _ => 0);
      }
      buf := buf[..off] + data + buf[end..];
    }

    /** The checksum of the buffer, which is what appending it piece by piece gives, wherever
        it is cut. */
    method ReadCrc() returns (crc: Option<bv32>)
      ensures crc == Some(Crc.Crc32c(buf))
      ensures forall k :: 0 <= k <= |buf| ==> crc == Some(Crc.Append(Crc.Append(0, buf[..k]), buf[k..]))
    {
      hide Crc.Append;
      crc := Some(Crc.Append(0, buf));
      forall k | 0 <= k <= |buf|
        ensures Crc.Append(Crc.Append(0, buf[..k]), buf[k..]) == Crc.Append(0, buf)
      {
        Crc.AppendJoin(0, buf[..k], buf[k..]);
        assert buf[..k] + buf[k..] == buf;
      }
    }
  }

  /** Receives blocks of `src` in the order given, repeats allowed, into a fresh sink of
      the negotiated size, and compares checksums as the receiver's last act does: when
      no block is missing the sink holds the source and the comparison succeeds. */
  method ReceiveAll(src: seq<byte>, bs: nat, order: seq<nat>) returns (sink: MemSink, ok: bool)
    requires bs > 0
    requires forall k :: 0 <= k < |order| ==> order[k] < NumBlocks(|src|, bs)
    ensures (forall i: nat :: i < NumBlocks(|src|, bs) ==> i in order) ==> sink.buf == src && ok
    ensures fresh(sink)
  {
    hide Crc.Crc32c;
    sink := new MemSink();
    sink.Allocate(|src|);
    ghost var zeros := sink.buf;
    for k := 0 to |order|
      invariant fresh(sink)
      invariant sink.buf == WriteBlocks(zeros, src, bs, order[..k])
    {
      BlockBounds(|src|, bs, order[k]);
      assert order[..k + 1][..k] == order[..k];
      sink.WriteAllAt(order[k] * bs, Block(src, bs, order[k]));
    }
    assert order[..|order|] == order;
    if forall i: nat :: i < NumBlocks(|src|, bs) ==> i in order {
      AnyOrderRebuilds(zeros, src, bs, order);
    }
    var want := Crc.StreamCrc(src);
    var got := sink.ReadCrc();
    ok := got == Some(want);
  }
}
