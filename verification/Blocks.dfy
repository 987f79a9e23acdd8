/** How a file is cut into fixed-size blocks, and what positional writes of
    those blocks do to a destination of the same length. */
module Blocks {
  type byte = x: int | 0 <= x < 256

  /** Sizes are `i64`, offsets are `u64`. */
  const MAX_SIZE: nat := 0x7FFF_FFFF_FFFF_FFFF
  const U64_LIMIT: nat := 0x1_0000_0000_0000_0000

  /** `num_blocks`: zero for an empty (or negative) size, else the ceiling division. */
  function NumBlocks(size: int, bs: nat): (n: nat)
    requires bs > 0
    ensures size <= 0 ==> n == 0
    ensures size > 0 ==> (n - 1) * bs < size <= n * bs
  {
    if size <= 0 then 0
    else
      DivModLaw(size, bs);
      var q, r := size / bs, size % bs;
      if r > 0 then q + 1 else q
  }

  lemma DivModLaw(a: nat, d: nat)
    requires d > 0
    ensures a == (a / d) * d + a % d
    ensures 0 <= a % d < d
    ensures (a / d + 1) * d == (a / d) * d + d
    ensures (a / d - 1) * d == (a / d) * d - d
  {
  }

  /** Payload length of block `sn`: `block_size`, cut short by what remains of the file. */
  function BlockLen(size: nat, bs: nat, sn: nat): int {
    var rem := size - sn * bs;
    if rem < bs then rem else bs
  }

  /** Every block of a file starts inside it and carries between 1 and `bs` bytes;
      all but the last are full, and no offset leaves the `i64` range. */
  lemma BlockBounds(size: nat, bs: nat, sn: nat)
    requires bs > 0 && sn < NumBlocks(size, bs)
    ensures 0 <= sn * bs < size
    ensures 1 <= BlockLen(size, bs, sn) <= bs
    ensures sn * bs + BlockLen(size, bs, sn) <= size
    ensures sn + 1 < NumBlocks(size, bs) ==> BlockLen(size, bs, sn) == bs
    ensures sn + 1 == NumBlocks(size, bs) ==> sn * bs + BlockLen(size, bs, sn) == size
    ensures size <= MAX_SIZE && bs <= 65455 ==> sn * bs + bs < U64_LIMIT
  {
    var n := NumBlocks(size, bs);
    MulMono(sn, n - 1, bs);
    if sn + 1 < n {
      MulMono(sn + 1, n - 1, bs);
      assert (sn + 1) * bs == sn * bs + bs;
    } else {
      assert (sn + 1) * bs == sn * bs + bs;
    }
  }

  lemma MulMono(a: nat, b: nat, d: nat)
    requires a <= b
    ensures a * d <= b * d
  {
  }

  /** Distinct blocks do not overlap. */
  lemma BlocksDisjoint(size: nat, bs: nat, i: nat, j: nat)
    requires bs > 0 && i < j < NumBlocks(size, bs)
    ensures i * bs + BlockLen(size, bs, i) <= j * bs
  {
    MulMono(i + 1, j, bs);
    assert (i + 1) * bs == i * bs + bs;
  }

  /** Every byte of the file lies in the block its offset divided by `bs` names. */
  lemma BlocksCover(size: nat, bs: nat, p: nat)
    requires bs > 0 && p < size
    ensures p / bs < NumBlocks(size, bs)
    ensures (p / bs) * bs <= p < (p / bs) * bs + BlockLen(size, bs, p / bs)
  {
    DivModLaw(p, bs);
    var q, n := p / bs, NumBlocks(size, bs);
    if q >= n {
      MulMono(n, q, bs);
    }
  }

  /** The bytes of block `sn`. */
  function Block(src: seq<byte>, bs: nat, sn: nat): (b: seq<byte>)
    requires bs > 0 && sn < NumBlocks(|src|, bs)
    ensures |b| == BlockLen(|src|, bs, sn) && 1 <= |b| <= bs
  {
    BlockBounds(|src|, bs, sn);
    src[sn * bs..sn * bs + BlockLen(|src|, bs, sn)]
  }

  /** Two files that agree block by block are the same file. */
  lemma SameBlocksSameFile(a: seq<byte>, b: seq<byte>, bs: nat)
    requires bs > 0 && |a| == |b|
    requires forall i: nat :: i < NumBlocks(|a|, bs) ==> Block(a, bs, i) == Block(b, bs, i)
    ensures a == b
  {
    hide Block, NumBlocks, BlockLen;
    forall p | 0 <= p < |a|
      ensures a[p] == b[p]
    {
      BlocksCover(|a|, bs, p);
      var i := p / bs;
      ByteOfBlock(a, bs, i, p);
      ByteOfBlock(b, bs, i, p);
    }
  }

  lemma ByteOfBlock(a: seq<byte>, bs: nat, i: nat, p: nat)
    requires bs > 0 && i < NumBlocks(|a|, bs)
    requires i * bs <= p < i * bs + BlockLen(|a|, bs, i)
    ensures p < |a| && Block(a, bs, i)[p - i * bs] == a[p]
  {
    BlockBounds(|a|, bs, i);
  }

  /** `write_all_at` on a destination held in memory: overwrite in place, growing
      with zeros when the write ends past the end. */
  function WriteAt(dst: seq<byte>, off: nat, data: seq<byte>): (r: seq<byte>)
    ensures |r| == if off + |data| > |dst| then off + |data| else |dst|
    ensures r[off..off + |data|] == data
    ensures forall k :: 0 <= k < |dst| && !(off <= k < off + |data|) ==> r[k] == dst[k]
  {
    var grown := if off + |data| > |dst| then dst + seq(off + |data| - |dst|, _ => 0) else dst;
    grown[..off] + data + grown[off + |data|..]
  }

  /** Writing any prefix of block `i` leaves every other block alone. */
  lemma WriteLeavesOthers(dst: seq<byte>, bs: nat, i: nat, data: seq<byte>, j: nat)
    requires bs > 0 && i < NumBlocks(|dst|, bs) && j < NumBlocks(|dst|, bs) && i != j
    requires |data| <= BlockLen(|dst|, bs, i)
    ensures |WriteAt(dst, i * bs, data)| == |dst|
    ensures Block(WriteAt(dst, i * bs, data), bs, j) == Block(dst, bs, j)
  {
    BlockBounds(|dst|, bs, i);
    BlockBounds(|dst|, bs, j);
    if i < j {
      BlocksDisjoint(|dst|, bs, i, j);
    } else {
      BlocksDisjoint(|dst|, bs, j, i);
    }
  }

  /** Writing all of block `i` puts exactly those bytes there. */
  lemma WriteFillsBlock(dst: seq<byte>, bs: nat, i: nat, data: seq<byte>)
    requires bs > 0 && i < NumBlocks(|dst|, bs)
    requires |data| == BlockLen(|dst|, bs, i)
    ensures |WriteAt(dst, i * bs, data)| == |dst|
    ensures Block(WriteAt(dst, i * bs, data), bs, i) == data
  {
    BlockBounds(|dst|, bs, i);
  }

  /** Writing the first bytes of block `i` puts them in front of what was there. */
  lemma WriteStartsBlock(dst: seq<byte>, bs: nat, i: nat, data: seq<byte>)
    requires bs > 0 && i < NumBlocks(|dst|, bs)
    requires |data| <= BlockLen(|dst|, bs, i)
    ensures |WriteAt(dst, i * bs, data)| == |dst|
    ensures Block(WriteAt(dst, i * bs, data), bs, i) == data + Block(dst, bs, i)[|data|..]
  {
    BlockBounds(|dst|, bs, i);
    var off, len := i * bs, BlockLen(|dst|, bs, i);
    var r := WriteAt(dst, off, data);
    assert r[off..off + len] == r[off..off + |data|] + r[off + |data|..off + len];
    assert r[off + |data|..off + len] == dst[off + |data|..off + len];
    assert dst[off..off + len][|data|..] == dst[off + |data|..off + len];
  }

  /** The destination after writing the given blocks of `src`, one after another. */
  function WriteBlocks(dst: seq<byte>, src: seq<byte>, bs: nat, order: seq<nat>): seq<byte>
    requires bs > 0 && |dst| == |src|
    requires forall k :: 0 <= k < |order| ==> order[k] < NumBlocks(|src|, bs)
    ensures |WriteBlocks(dst, src, bs, order)| == |src|
    decreases |order|
  {
    if order == [] then dst
    else
      var last := order[|order| - 1];
      BlockBounds(|src|, bs, last);
      WriteAt(WriteBlocks(dst, src, bs, order[..|order| - 1]), last * bs, Block(src, bs, last))
  }

  lemma {:induction false} WrittenBlocksMatch(dst: seq<byte>, src: seq<byte>, bs: nat, order: seq<nat>, i: nat)
    requires bs > 0 && |dst| == |src|
    requires forall k :: 0 <= k < |order| ==> order[k] < NumBlocks(|src|, bs)
    requires i in order
    ensures Block(WriteBlocks(dst, src, bs, order), bs, i) == Block(src, bs, i)
    decreases |order|
  {
    var init, last := order[..|order| - 1], order[|order| - 1];
    var mid := WriteBlocks(dst, src, bs, init);
    if last == i {
      WriteFillsBlock(mid, bs, i, Block(src, bs, i));
    } else {
      assert i in init;
      WrittenBlocksMatch(dst, src, bs, init, i);
      WriteLeavesOthers(mid, bs, last, Block(src, bs, last), i);
    }
  }

  /** Writing every block at least once, in any order and with any repeats, into any
      destination of the right length rebuilds the source byte for byte. */
  lemma AnyOrderRebuilds(dst: seq<byte>, src: seq<byte>, bs: nat, order: seq<nat>)
    requires bs > 0 && |dst| == |src|
    requires forall k :: 0 <= k < |order| ==> order[k] < NumBlocks(|src|, bs)
    requires forall i: nat :: i < NumBlocks(|src|, bs) ==> i in order
    ensures WriteBlocks(dst, src, bs, order) == src
  {
    var out := WriteBlocks(dst, src, bs, order);
    forall i: nat | i < NumBlocks(|src|, bs)
      ensures Block(out, bs, i) == Block(src, bs, i)
    {
      WrittenBlocksMatch(dst, src, bs, order, i);
    }
    SameBlocksSameFile(out, src, bs);
  }

  /** Bytes carried by blocks `0..n` whose number is in `got`. */
  function BytesIn(src: seq<byte>, bs: nat, got: set<nat>, n: nat): (total: nat)
    requires bs > 0 && n <= NumBlocks(|src|, bs)
    decreases n
  {
    if n == 0 then 0
    else BytesIn(src, bs, got, n - 1) + if n - 1 in got then |Block(src, bs, n - 1)| else 0
  }

  lemma {:induction false} BytesInInsert(src: seq<byte>, bs: nat, got: set<nat>, n: nat, x: nat)
    requires bs > 0 && n <= NumBlocks(|src|, bs)
    requires x !in got && x < NumBlocks(|src|, bs)
    ensures BytesIn(src, bs, got + {x}, n)
         == BytesIn(src, bs, got, n) + if x < n then |Block(src, bs, x)| else 0
    decreases n
  {
    if n > 0 {
      BytesInInsert(src, bs, got, n - 1, x);
    }
  }

  /** All the blocks together carry exactly the file. */
  lemma {:induction false} BytesInAll(src: seq<byte>, bs: nat, got: set<nat>, n: nat)
    requires bs > 0 && n <= NumBlocks(|src|, bs)
    requires forall i: nat :: i < n ==> i in got
    ensures BytesIn(src, bs, got, n) == if n == NumBlocks(|src|, bs) then |src| else n * bs
    decreases n
  {
    hide NumBlocks, BlockLen, Block;
    if n > 0 {
      BytesInAll(src, bs, got, n - 1);
      BlockBounds(|src|, bs, n - 1);
      OneMore(n - 1, bs);
    } else {
      NoBlocks(|src|, bs);
    }
  }

  lemma OneMore(n: nat, bs: nat)
    ensures n * bs + bs == (n + 1) * bs
  {
  }

  lemma NoBlocks(size: nat, bs: nat)
    requires bs > 0
    ensures NumBlocks(size, bs) == 0 ==> size == 0
    ensures 0 * bs == 0
  {
  }
}
