/** How the sender fills DATA datagrams, freshly or again, how it seals them, and what
    the receiver gets out of them. */
module Pdus {
  import opened Blocks
  import opened Prelude
  import opened Wire
  import Crc

  const TAG_LEN: nat := 16
  const NONCE_LEN: nat := 12
  const MAX_BLOCK: nat := 65455

  /** An AEAD as a pair of functions: nonce and plaintext to ciphertext and tag, and back. */
  datatype Aead = Aead(
    seal: (seq<byte>, seq<byte>) -> (seq<byte>, seq<byte>),
    open: (seq<byte>, seq<byte>, seq<byte>) -> Option<seq<byte>>)

  /** What is assumed of the cipher: sealing keeps the length, and so does opening, which
      undoes sealing. */
  ghost predicate Sound(a: Aead) {
    && (forall n, pt :: var (ct, tag) := a.seal(n, pt);
         |ct| == |pt| && |tag| == TAG_LEN && a.open(n, ct, tag) == Some(pt))
    && (forall n, ct, tag :: a.open(n, ct, tag).Some? ==> |a.open(n, ct, tag).value| == |ct|)
  }

  /** One transfer: the source's bytes now, the size that was negotiated, and the rest of
      what both ends agreed on. The source may have become shorter than `size`. */
  datatype Job = Job(src: seq<byte>, size: nat, bs: nat, session: u32, crypto: Option<Aead>)

  ghost predicate ValidJob(j: Job) {
    && 0 < j.bs <= MAX_BLOCK && j.size <= MAX_SIZE && |j.src| <= MAX_SIZE
    && (j.crypto.Some? ==> Sound(j.crypto.value))
  }

  predicate InFile(j: Job, sn: nat) {
    0 < j.bs <= MAX_BLOCK && j.size <= MAX_SIZE && sn < NumBlocks(j.size, j.bs)
  }

  /** Can block `sn` still be read in full? */
  predicate Readable(j: Job, sn: nat)
    requires InFile(j, sn)
  {
    sn * j.bs + BlockLen(j.size, j.bs, sn) <= |j.src|
  }

  // ---- nonces ----

  function BlockNonce(sn: u64): (n: seq<byte>)
    ensures |n| == NONCE_LEN
  {
    [0, 0, 0, 0] + Le(sn, 8)
  }

  /** One key never meets a nonce twice: distinct blocks have distinct nonces. */
  lemma NoncesDistinct(a: u64, b: u64)
    requires BlockNonce(a) == BlockNonce(b)
    ensures a == b
  {
    assert BlockNonce(a)[4..] == Le(a, 8) && BlockNonce(b)[4..] == Le(b, 8);
    Pow256Values();
    LeRoundTrip(a, 8);
    LeRoundTrip(b, 8);
  }

  // ---- what goes on the wire ----

  lemma FitsWire(j: Job, sn: nat)
    requires InFile(j, sn)
    ensures sn < 0x8000_0000_0000_0000 && 1 <= BlockLen(j.size, j.bs, sn) <= j.bs < 0x1_0000
  {
    hide NumBlocks, BlockLen;
    BlockBounds(j.size, j.bs, sn);
    MulMono(1, j.bs, sn);
  }

  function Payload(j: Job, sn: nat): (p: seq<byte>)
    requires InFile(j, sn) && Readable(j, sn)
    ensures 1 <= |p| == BlockLen(j.size, j.bs, sn) <= j.bs
  {
    FitsWire(j, sn);
    j.src[sn * j.bs..sn * j.bs + BlockLen(j.size, j.bs, sn)]
  }

  /** From an unshortened source every block is readable, and its payload is the block. */
  lemma PayloadIsBlock(j: Job, sn: nat)
    requires InFile(j, sn) && |j.src| == j.size
    ensures Readable(j, sn) && Payload(j, sn) == Block(j.src, j.bs, sn)
  {
    BlockBounds(j.size, j.bs, sn);
  }

  function Checksum(b: seq<byte>): u32 { Crc.Crc32c(b) as int }

  function Header(j: Job, sn: nat, again: bool): DataHeader
    requires InFile(j, sn) && Readable(j, sn)
  {
    FitsWire(j, sn);
    var b := Payload(j, sn);
    DataHeader(
      (if again then FLAG_RETRANSMIT else 0) + (if sn == NumBlocks(j.size, j.bs) - 1 then FLAG_LAST_BLOCK else 0),
      |b|, j.session, sn, 0, if again then sn else 0,
      if j.crypto.None? then Checksum(b) else 0)
  }

  /** What is sent of a block's bytes: they themselves, or their ciphertext and tag. */
  function Sealed(j: Job, sn: u64, bytes: seq<byte>): seq<byte> {
    match j.crypto
    case None => bytes
    case Some(a) =>
      var (ct, tag) := a.seal(BlockNonce(sn), bytes);
      ct + tag
  }

  /** The bytes after the header. */
  function Body(j: Job, sn: nat): seq<byte>
    requires InFile(j, sn) && Readable(j, sn)
  {
    FitsWire(j, sn);
    Sealed(j, sn, Payload(j, sn))
  }

  function Pdu(j: Job, sn: nat, again: bool): seq<byte>
    requires InFile(j, sn) && Readable(j, sn)
  {
    DataBytes(Header(j, sn, again)) + Body(j, sn)
  }

  // ---- in-place sealing and opening ----

  method CopyIn(buf: array<byte>, off: nat, data: seq<byte>)
    requires off + |data| <= buf.Length
    modifies buf
    ensures buf[off..off + |data|] == data
    ensures buf[..off] == old(buf[..off]) && buf[off + |data|..] == old(buf[off + |data|..])
  {
    for i := 0 to |data|
      invariant buf[off..off + i] == data[..i]
      invariant buf[..off] == old(buf[..off]) && buf[off + |data|..] == old(buf[off + |data|..])
    {
      ghost var done := buf[off..off + i];
      buf[off + i] := data[i];
      assert buf[off..off + i + 1] == done + [data[i]];
      assert data[..i + 1] == data[..i] + [data[i]];
    }
    assert data[..|data|] == data;
  }

  /** Encrypts `buf[hdr..hdr + plen]` in place and appends the tag; the header stays. */
  method SealData(a: Aead, buf: array<byte>, hdr: nat, plen: nat, sn: u64) returns (len: nat)
    requires Sound(a) && hdr + plen + TAG_LEN <= buf.Length
    modifies buf
    ensures len == hdr + plen + TAG_LEN
    ensures buf[..hdr] == old(buf[..hdr]) && buf[len..] == old(buf[len..])
    ensures var (ct, tag) := a.seal(BlockNonce(sn), old(buf[hdr..hdr + plen])); buf[hdr..len] == ct + tag
  {
    ghost var before, after := buf[..hdr], buf[hdr + plen..];
    var (ct, tag) := a.seal(BlockNonce(sn), buf[hdr..hdr + plen]);
    CopyIn(buf, hdr, ct);
    CopyIn(buf, hdr + plen, tag);
    len := hdr + plen + TAG_LEN;
    assert buf[..hdr] == buf[..hdr + plen][..hdr];
    assert buf[len..] == after[TAG_LEN..];
    assert buf[hdr..hdr + plen] == buf[..hdr + plen][hdr..];
    assert buf[hdr..len] == buf[hdr..hdr + plen] + buf[hdr + plen..len];
  }

  /** The plaintext of a sealed payload of `plen` bytes, if the payload is long enough and
      the tag is right. */
  function Opened(a: Aead, payload: seq<byte>, plen: nat, sn: u64): Option<seq<byte>> {
    if plen + TAG_LEN > |payload| then None
    else Unseal(a, BlockNonce(sn), payload[..plen], payload[plen..plen + TAG_LEN])
  }

  function Unseal(a: Aead, nonce: seq<byte>, ct: seq<byte>, tag: seq<byte>): (pt: Option<seq<byte>>)
    ensures Sound(a) && pt.Some? ==> |pt.value| == |ct|
  {
    a.open(nonce, ct, tag)
  }

  /** Decrypts `buf[at..]` in place: on success the plaintext replaces the ciphertext and
      nothing else changes, on failure nothing does. */
  method OpenData(a: Aead, buf: array<byte>, at: nat, end: nat, plen: nat, sn: u64) returns (n: Option<nat>)
    requires Sound(a) && at <= end <= buf.Length
    modifies buf
    ensures n == if Opened(a, old(buf[at..end]), plen, sn).Some? then Some(plen) else None
    ensures n.Some? ==> at + plen <= end && buf[at..at + plen] == Opened(a, old(buf[at..end]), plen, sn).value
    ensures n.Some? ==> buf[..at] == old(buf[..at]) && buf[at + plen..] == old(buf[at + plen..])
    ensures n.None? ==> buf[..] == old(buf[..])
  {
    if plen + TAG_LEN > end - at {
      return None;
    }
    var payload := buf[at..end];
    var ct, tag := payload[..plen], payload[plen..plen + TAG_LEN];
    var res := Unseal(a, BlockNonce(sn), ct, tag);
    if res.None? {
      return None;
    }
    CopyIn(buf, at, res.value);
    return Some(plen);
  }

  // ---- filling ----

  /** `read_exact_at` of a source in memory, into `buf[at..at + n]`. */
  method ReadExactAt(src: seq<byte>, off: nat, buf: array<byte>, at: nat, n: nat) returns (ok: bool)
    requires at + n <= buf.Length
    modifies buf
    ensures ok <==> off + n <= |src|
    ensures ok ==> buf[at..at + n] == src[off..off + n]
    ensures buf[..at] == old(buf[..at]) && buf[at + n..] == old(buf[at + n..])
    ensures !ok ==> buf[..] == old(buf[..])
  {
    if off + n > |src| {
      return false;
    }
    CopyIn(buf, at, src[off..off + n]);
    return true;
  }

  /** Writes the header in front of the plaintext already in the buffer, and seals it. */
  method Finish(j: Job, buf: array<byte>, h: DataHeader) returns (size: nat)
    requires ValidJob(j) && h.payloadLen <= j.bs
    requires buf.Length >= j.bs + DATA_HEADER_SIZE + TAG_LEN
    modifies buf
    ensures size <= buf.Length
    ensures buf[..size] == DataBytes(h)
              + Sealed(j, h.blockSeq, old(buf[DATA_HEADER_SIZE..DATA_HEADER_SIZE + h.payloadLen]))
  {
    hide DataBytes;
    var plen := h.payloadLen;
    ghost var bytes := buf[36..36 + plen];
    ghost var tail := buf[36..];
    assert tail[..plen] == bytes;
    EncodeDataHeader(buf, h);
    assert buf[36..36 + plen] == buf[36..][..plen];
    match j.crypto
    case None =>
      size := DATA_HEADER_SIZE + plen;
    case Some(a) =>
      size := SealData(a, buf, DATA_HEADER_SIZE, plen, h.blockSeq);
    assert buf[36..size] == Sealed(j, h.blockSeq, bytes);
    assert buf[..size] == buf[..36] + buf[36..size];
  }

  /** The body of `prefetch`'s loop for one block: nothing when the read fails. */
  method FillNew(j: Job, buf: array<byte>, sn: nat) returns (size: Option<nat>)
    requires ValidJob(j) && InFile(j, sn)
    requires buf.Length >= j.bs + DATA_HEADER_SIZE + TAG_LEN
    modifies buf
    ensures size.Some? <==> Readable(j, sn)
    ensures size.Some? ==> size.value <= buf.Length && buf[..size.value] == Pdu(j, sn, false)
  {
    hide DataBytes, Sealed, Checksum, NumBlocks;
    BlockBounds(j.size, j.bs, sn);
    FitsWire(j, sn);
    var off := sn * j.bs;
    var plen := j.bs;
    var rem := j.size - off;
    if rem < plen {
      plen := rem;
    }
    var ok := ReadExactAt(j.src, off, buf, DATA_HEADER_SIZE, plen);
    if !ok {
      return None;
    }
    var flags: u8 := 0;
    if sn == NumBlocks(j.size, j.bs) - 1 {
      flags := FLAG_LAST_BLOCK;
    }
    var crc: u32 := if j.crypto.None? then Checksum(buf[DATA_HEADER_SIZE..DATA_HEADER_SIZE + plen]) else 0;
    var n := Finish(j, buf, DataHeader(flags, plen, j.session, sn, 0, 0, crc));
    size := Some(n);
  }

  // ---- resending, for any number on the wire ----

  /** `seq * block_size` in 64 bits. */
  function Offset(j: Job, sn: u64): u64 { sn * j.bs % U64_LIMIT }

  function LengthAt(j: Job, off: nat): nat
    requires off <= j.size
  {
    if j.size - off < j.bs then j.size - off else j.bs
  }

  /** Does `fill_retransmit` find anything to send for this number? */
  predicate Serves(j: Job, sn: u64) {
    Offset(j, sn) < j.size && Offset(j, sn) + LengthAt(j, Offset(j, sn)) <= |j.src|
  }

  /** What it then sends. */
  function AgainPdu(j: Job, sn: u64): seq<byte>
    requires 0 < j.bs <= MAX_BLOCK && Serves(j, sn)
  {
    var off := Offset(j, sn);
    var bytes := j.src[off..off + LengthAt(j, off)];
    var last := NumBlocks(j.size, j.bs) > 0 && sn == NumBlocks(j.size, j.bs) - 1;
    DataBytes(DataHeader(
      FLAG_RETRANSMIT + (if last then FLAG_LAST_BLOCK else 0), |bytes|, j.session, sn, 0, AsI64(sn),
      if j.crypto.None? then Checksum(bytes) else 0)) + Sealed(j, sn, bytes)
  }

  /** Numbers whose offset does not overflow are served exactly if they are blocks that can
      be read, and get the block's own datagram. */
  lemma ServesBlocks(j: Job, sn: u64)
    requires ValidJob(j) && sn * j.bs < U64_LIMIT
    ensures Serves(j, sn) <==> InFile(j, sn) && Readable(j, sn)
    ensures Serves(j, sn) ==> AgainPdu(j, sn) == Pdu(j, sn, true)
  {
    hide DataBytes, Sealed, Checksum, NumBlocks, Offset;
    PastEnd(j.size, j.bs, sn);
    OffsetInRange(j, sn);
    if sn < NumBlocks(j.size, j.bs) {
      BlockBounds(j.size, j.bs, sn);
      FitsWire(j, sn);
    }
  }

  lemma OffsetInRange(j: Job, sn: u64)
    requires sn * j.bs < U64_LIMIT
    ensures Offset(j, sn) == sn * j.bs
  {
    WholeMod(sn * j.bs, U64_LIMIT);
  }

  lemma WholeMod(x: nat, m: nat)
    requires x < m
    ensures x % m == x
  {
  }

  /** Other numbers are no blocks of the file, and yet some are served: 2^49 blocks of 32 KiB
      make an offset of 2^64, which is 0 again. */
  lemma OverflowServes(j: Job)
    requires ValidJob(j) && j.bs == 32768 && 0 < j.size <= |j.src|
    ensures Serves(j, 0x2_0000_0000_0000) && !InFile(j, 0x2_0000_0000_0000)
  {
    hide NumBlocks;
    PastEnd(j.size, j.bs, 0x2_0000_0000_0000);
  }

  /** The remainder `file_size - off as i64` in 64 bits. */
  function Remaining(size: nat, off: u64): i64
    requires size <= MAX_SIZE
  {
    AsI64((size - AsI64(off)) % U64_LIMIT)
  }

  /** It is what is left of the file, and past the end it is not positive or the read that
      follows is past the end of any source. */
  lemma RemainingMeans(size: nat, off: u64)
    requires size <= MAX_SIZE
    ensures off <= MAX_SIZE ==> Remaining(size, off) == size - off
    ensures off < size ==> Remaining(size, off) > 0
  {
  }

  /** `fill_retransmit`, for every number a NACK can carry: nothing past the end of the file
      or when the read fails. */
  method FillAgain(j: Job, buf: array<byte>, sn: u64) returns (size: Option<nat>)
    requires ValidJob(j)
    requires buf.Length >= j.bs + DATA_HEADER_SIZE + TAG_LEN
    modifies buf
    ensures size.Some? <==> Serves(j, sn)
    ensures size.Some? ==> size.value <= buf.Length && buf[..size.value] == AgainPdu(j, sn)
    ensures sn * j.bs < U64_LIMIT ==> (size.Some? <==> InFile(j, sn) && Readable(j, sn))
    ensures sn * j.bs < U64_LIMIT && size.Some? ==> buf[..size.value] == Pdu(j, sn, true)
  {
    hide DataBytes, Sealed, Checksum, NumBlocks, Remaining, Pdu, Offset;
    if sn * j.bs < U64_LIMIT {
      ServesBlocks(j, sn);
    }
    var off := Offset(j, sn);
    var plen := j.bs;
    var rem: int := Remaining(j.size, off);
    RemainingMeans(j.size, off);
    if rem < plen {
      plen := if rem > 0 then rem else 0;
    }
    if plen == 0 || rem <= 0 {
      return None;
    }
    var ok := ReadExactAt(j.src, off, buf, DATA_HEADER_SIZE, plen);
    if !ok {
      return None;
    }
    var flags := FLAG_RETRANSMIT;
    if NumBlocks(j.size, j.bs) > 0 && sn == NumBlocks(j.size, j.bs) - 1 {
      flags := flags + FLAG_LAST_BLOCK;
    }
    var crc: u32 := if j.crypto.None? then Checksum(buf[DATA_HEADER_SIZE..DATA_HEADER_SIZE + plen]) else 0;
    var n := Finish(j, buf, DataHeader(flags, plen, j.session, sn, 0, AsI64(sn), crc));
    size := Some(n);
  }

  lemma PastEnd(size: nat, bs: nat, sn: nat)
    requires bs > 0
    ensures sn * bs < size <==> sn < NumBlocks(size, bs)
  {
    if sn < NumBlocks(size, bs) {
      BlockBounds(size, bs, sn);
    } else {
      MulMono(NumBlocks(size, bs), sn, bs);
    }
  }

  /** A retransmission carries the very bytes of the first transmission after the header,
      and the same length, session, number and checksum in it. */
  lemma RetransmitSame(j: Job, sn: nat)
    requires ValidJob(j) && InFile(j, sn) && Readable(j, sn)
    ensures Pdu(j, sn, true)[DATA_HEADER_SIZE..] == Pdu(j, sn, false)[DATA_HEADER_SIZE..]
    ensures Header(j, sn, true)
         == Header(j, sn, false).(flags := Header(j, sn, false).flags + FLAG_RETRANSMIT, rexIndex := sn)
  {
    FitsWire(j, sn);
    assert Pdu(j, sn, true)[36..] == Body(j, sn) && Pdu(j, sn, false)[36..] == Body(j, sn);
  }

  // ---- the receiver's end ----

  /** The checks of `handle_packet` on a DATA datagram: what block, with what bytes. */
  function Received(j: Job, pkt: seq<byte>): Option<(nat, seq<byte>)>
    requires j.bs > 0
  {
    match DecodeData(pkt)
    case None => None
    case Some(h) =>
      if h.session != j.session || h.blockSeq >= NumBlocks(j.size, j.bs) || h.payloadLen > j.bs then None
      else
        var body := pkt[DATA_HEADER_SIZE..];
        match j.crypto
        case Some(a) =>
          (match Opened(a, body, h.payloadLen, h.blockSeq)
           case None => None
           case Some(pt) => Some((h.blockSeq, pt)))
        case None =>
          if h.payloadLen > |body| || Checksum(body[..h.payloadLen]) != h.payloadCrc then None
          else Some((h.blockSeq, body[..h.payloadLen]))
  }

  /** A datagram with the sender's body is received as the sender's payload, whatever its
      flags, tick and retransmit index say. */
  lemma BodyReceived(j: Job, sn: nat, pkt: seq<byte>, h: DataHeader)
    requires ValidJob(j) && InFile(j, sn) && Readable(j, sn)
    requires DecodeData(pkt) == Some(h) && pkt[DATA_HEADER_SIZE..] == Body(j, sn)
    requires h.session == j.session && h.blockSeq == sn && h.payloadLen == BlockLen(j.size, j.bs, sn)
    requires j.crypto.None? ==> h.payloadCrc == Checksum(Payload(j, sn))
    ensures Received(j, pkt) == Some((sn, Payload(j, sn)))
  {
    hide DecodeData, NumBlocks, Checksum;
    var b, body := Payload(j, sn), Body(j, sn);
    match j.crypto
    case None =>
      assert body[..|b|] == b;
    case Some(a) =>
      var (ct, tag) := a.seal(BlockNonce(sn), b);
      assert body[..|b|] == ct && body[|b|..|b| + TAG_LEN] == tag;
  }

  /** What the sender puts on the wire, first time or again, sealed or not, is accepted as
      exactly that block of the file. */
  lemma PduReceived(j: Job, sn: nat, again: bool)
    requires ValidJob(j) && |j.src| == j.size && sn < NumBlocks(j.size, j.bs)
    ensures Readable(j, sn)
    ensures Received(j, Pdu(j, sn, again)) == Some((sn, Block(j.src, j.bs, sn)))
  {
    hide Received, DecodeData, DataBytes, Payload;
    PayloadIsBlock(j, sn);
    FitsWire(j, sn);
    var h := Header(j, sn, again);
    DataRoundTrip(h, Body(j, sn));
    assert Pdu(j, sn, again)[36..] == Body(j, sn);
    BodyReceived(j, sn, Pdu(j, sn, again), h);
  }

  /** In clear text, damage to any one payload byte is noticed. */
  lemma DamageRejected(j: Job, sn: nat, again: bool, i: nat, b: byte)
    requires ValidJob(j) && j.crypto.None? && InFile(j, sn) && Readable(j, sn)
    requires i < BlockLen(j.size, j.bs, sn) && b != Payload(j, sn)[i]
    ensures Received(j, DataBytes(Header(j, sn, again)) + Body(j, sn)[i := b]) == None
  {
    hide DecodeData, DataBytes, NumBlocks, Crc.Crc32c, Payload;
    FitsWire(j, sn);
    var h, block := Header(j, sn, again), Payload(j, sn);
    var pkt := DataBytes(h) + block[i := b];
    DataRoundTrip(h, block[i := b]);
    Crc.OneByteShows(block, i, b);
    assert pkt[36..] == block[i := b];
    assert block[i := b][..|block|] == block[i := b];
    ChecksumApart(block, block[i := b]);
  }

  // ---- a damaged block number ----

  /** Block `sn`'s datagram with the number changed to `to` on the way. */
  function Renumbered(j: Job, sn: nat, again: bool, to: u64): seq<byte>
    requires InFile(j, sn) && Readable(j, sn)
  {
    DataBytes(Header(j, sn, again).(blockSeq := to)) + Body(j, sn)
  }

  /** In clear text the checksum covers the payload only, so a changed number goes unnoticed:
      the bytes of the one block are taken for the other. */
  lemma RenumberedInClear(j: Job, sn: nat, again: bool, to: u64)
    requires ValidJob(j) && j.crypto.None? && InFile(j, sn) && Readable(j, sn) && InFile(j, to)
    ensures Received(j, Renumbered(j, sn, again, to)) == Some((to, Payload(j, sn)))
  {
    hide DecodeData, DataBytes, NumBlocks, Checksum, Payload;
    FitsWire(j, sn);
    var h := Header(j, sn, again).(blockSeq := to);
    DataRoundTrip(h, Body(j, sn));
    assert Renumbered(j, sn, again, to)[36..] == Body(j, sn);
    assert Body(j, sn)[..h.payloadLen] == Payload(j, sn);
  }

  /** What is asked of a cipher besides: it opens nothing under one nonce that was sealed
      under another. */
  ghost predicate Separates(a: Aead) {
    forall n, m, pt :: |n| == |m| == NONCE_LEN && n != m ==> var (ct, tag) := a.seal(n, pt); a.open(m, ct, tag).None?
  }

  /** Under such a cipher a changed number is always noticed. */
  lemma RenumberedSealed(j: Job, sn: nat, again: bool, to: u64)
    requires ValidJob(j) && j.crypto.Some? && Separates(j.crypto.value)
    requires InFile(j, sn) && Readable(j, sn) && to != sn
    ensures Received(j, Renumbered(j, sn, again, to)) == None
  {
    hide DecodeData, DataBytes, NumBlocks, BlockNonce, Payload, Sound, Separates, Body;
    FitsWire(j, sn);
    var a, b, body := j.crypto.value, Payload(j, sn), Body(j, sn);
    var h := Header(j, sn, again).(blockSeq := to);
    DataRoundTrip(h, body);
    assert Renumbered(j, sn, again, to)[36..] == body;
    SealedHalves(j, a, sn);
    var (ct, tag) := a.seal(BlockNonce(sn), b);
    assert body[..|b|] == ct && body[|b|..|b| + TAG_LEN] == tag;
    OtherNonce(a, sn, to, b);
  }

  lemma SealedHalves(j: Job, a: Aead, sn: nat)
    requires ValidJob(j) && j.crypto == Some(a) && InFile(j, sn) && Readable(j, sn)
    ensures sn < U64_LIMIT
    ensures var (ct, tag) := a.seal(BlockNonce(sn), Payload(j, sn));
      |ct| == |Payload(j, sn)| && |tag| == TAG_LEN && Body(j, sn) == ct + tag
  {
    hide Payload, BlockNonce;
    FitsWire(j, sn);
    var n, b := BlockNonce(sn), Payload(j, sn);
    assert var (x, y) := a.seal(n, b); a.open(n, x, y) == Some(b);
  }

  lemma OtherNonce(a: Aead, sn: u64, to: u64, pt: seq<byte>)
    requires Separates(a) && to != sn
    ensures var (ct, tag) := a.seal(BlockNonce(sn), pt); a.open(BlockNonce(to), ct, tag).None?
  {
    hide BlockNonce;
    if BlockNonce(sn) == BlockNonce(to) {
      NoncesDistinct(sn, to);
    }
  }

  /** There are such ciphers: one that writes the nonce into the tag is sound and separates. */
  lemma SomeCipherSeparates() returns (a: Aead)
    ensures Sound(a) && Separates(a)
  {
    a := Aead((n, pt) => (pt, NonceTag(n)), (n, ct, tag) => if tag == NonceTag(n) then Some(ct) else None);
    forall n, m | |n| == |m| == NONCE_LEN && n != m
      ensures NonceTag(n) != NonceTag(m)
    {
      assert NonceTag(n)[..NONCE_LEN] == n && NonceTag(m)[..NONCE_LEN] == m;
    }
  }

  function NonceTag(n: seq<byte>): (tag: seq<byte>)
    ensures |tag| == TAG_LEN
  {
    if |n| == NONCE_LEN then n + [0, 0, 0, 0] else seq(TAG_LEN, _ => 0)
  }

  lemma ChecksumApart(a: seq<byte>, b: seq<byte>)
    requires Crc.Crc32c(a) != Crc.Crc32c(b)
    ensures Checksum(a) != Checksum(b)
  {
    hide Crc.Crc32c;
    WordsApart(Crc.Crc32c(a), Crc.Crc32c(b));
  }

  lemma WordsApart(x: bv32, y: bv32)
    requires x != y
    ensures x as int != y as int
  {
    assert (x as int) as bv32 == x;
  }
}
