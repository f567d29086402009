/** The two 24-byte headers in front of authentication data, packed into and read from byte buffers. */
module Framing {
  import opened Options
  import opened Bits
  import opened Bytes
  import opened ConnIds

  const HEAD_SIZE: nat := 24
  const CONN_HEAD_SIZE: nat := 24
  const TWO64: int := 0x1_0000_0000_0000_0000
  const MAGIC_NUMBER: nat := 0xBABE_FACE
  const AUTH_SOCKET_MAX_DATA_LEN: nat := 65536

  newtype Int64 = x: int | -0x8000_0000_0000_0000 <= x < 0x8000_0000_0000_0000
  newtype Uint32 = x: int | 0 <= x < 0x1_0000_0000

  function ToInt64(u: int): Int64
    requires 0 <= u < TWO64
  {
    if u < 0x8000_0000_0000_0000 then u as Int64 else (u - TWO64) as Int64
  }

  function ToUint64(i: Int64): (u: int)
    ensures 0 <= u < TWO64
  {
    if i >= 0 then i as int else i as int + TWO64
  }

  /** AuthDataHead with its data type first, or SocketPktHead with its magic number first. */
  datatype Head = Head(first: Uint32, moduleId: Int32, seqNum: Int64, flag: Int32, len: Uint32)

  // ------------------------------------------------------ the header as bytes

  function EncodeHead(h: Head): (b: Data)
    ensures |b| == HEAD_SIZE
  {
    ToLe(h.first as int, 4) + ToLe(LowHalf(h.moduleId), 4) + ToLe(ToUint64(h.seqNum), 8)
    + ToLe(LowHalf(h.flag), 4) + ToLe(h.len as int, 4)
  }

  function Word(b: Data, at: nat): (n: int)
    requires at + 4 <= |b|
    ensures 0 <= n < TWO32
  {
    Pow256Of4();
    FromLe(b[at..at + 4])
  }

  function LongWord(b: Data, at: nat): (n: int)
    requires at + 8 <= |b|
    ensures 0 <= n < TWO64
  {
    Pow256Of8();
    FromLe(b[at..at + 8])
  }

  function DecodeHead(b: Data): Head
    requires |b| >= HEAD_SIZE
  {
    Head(Word(b, 0) as Uint32, ToInt32(Word(b, 4)), ToInt64(LongWord(b, 8)), ToInt32(Word(b, 16)),
         Word(b, 20) as Uint32)
  }

  lemma HeadParts(h: Head, rest: Data)
    ensures var b := EncodeHead(h) + rest;
      && b[0..4] == ToLe(h.first as int, 4) && b[4..8] == ToLe(LowHalf(h.moduleId), 4)
      && b[8..16] == ToLe(ToUint64(h.seqNum), 8) && b[16..20] == ToLe(LowHalf(h.flag), 4)
      && b[20..24] == ToLe(h.len as int, 4) && b[24..] == rest
  {
    hide ToLe;
  }

  /** Every header survives, whatever follows it. */
  lemma HeadRoundTrip(h: Head, rest: Data)
    ensures DecodeHead(EncodeHead(h) + rest) == h
  {
    hide ToLe, FromLe, EncodeHead;
    HeadParts(h, rest);
    Le32(h.first as int);
    Le32(LowHalf(h.moduleId));
    Le64(ToUint64(h.seqNum));
    Le32(LowHalf(h.flag));
    Le32(h.len as int);
  }

  lemma WordBytes(b: Data, at: nat)
    requires at + 4 <= |b|
    ensures ToLe(Word(b, at), 4) == b[at..at + 4]
  {
    LeOfBytes(b[at..at + 4]);
  }

  /** Every 24 bytes are the encoding of the header they decode to. */
  lemma HeadOfBytes(b: Data)
    requires |b| >= HEAD_SIZE
    ensures EncodeHead(DecodeHead(b)) == b[..HEAD_SIZE]
  {
    hide ToLe, FromLe, Word, LongWord;
    WordBytes(b, 0);
    WordBytes(b, 4);
    WordBytes(b, 16);
    WordBytes(b, 20);
    LongBytes(b, 8);
    assert b[..24] == b[0..4] + b[4..8] + b[8..16] + b[16..20] + b[20..24];
  }

  lemma LongBytes(b: Data, at: nat)
    requires at + 8 <= |b|
    ensures ToLe(LongWord(b, at), 8) == b[at..at + 8]
  {
    LeOfBytes(b[at..at + 8]);
  }

  // ------------------------------------------------------ packets

  /** GetAuthDataSize and GetSocketPktSize, which wrap around. */
  function PacketSize(len: int): nat
  {
    Wrap32(HEAD_SIZE + len)
  }

  /** The codes of PackAuthData, and the case in which it stores its header past the end of the buffer. */
  datatype PackResult = Packed | NoEnoughData | CopyFailed | PastTheEnd

  /** PackAuthData and PackSocketPkt, as the code they return. */
  function PackResultOf(len: int, size: nat): PackResult
  {
    if size < PacketSize(len) then NoEnoughData
    else if size < HEAD_SIZE then PastTheEnd
    else if Copies(size - HEAD_SIZE, len) then Packed else CopyFailed
  }

  /** UnpackAuthData: the header, if the data it announces is there. */
  function Unpack(b: Data): Option<Head>
  {
    if |b| < PacketSize(0) then None
    else
      var h := DecodeHead(b);
      var dataLen := PacketSize(h.len as int);
      if |b| < dataLen || dataLen < PacketSize(0) then None else Some(h)
  }

  /** Whatever the bytes, a header is returned exactly if the whole body lies inside the buffer. */
  lemma UnpackedBodyIsInside(b: Data)
    requires |b| < U32
    ensures Unpack(b).Some? <==> |b| >= HEAD_SIZE && HEAD_SIZE + DecodeHead(b).len as int <= |b|
  {
    hide DecodeHead;
  }

  /**
   A packet whose size fits in 32 bits is read back, header and payload, whatever follows it; it can be
   packed exactly if its buffer is within the limit of memcpy_s.
   */
  lemma PackedDataTravels(h: Head, payload: Data, more: Data)
    requires |payload| == h.len as int > 0 && HEAD_SIZE + |payload| + |more| < U32
    ensures var b := EncodeHead(h) + payload + more;
      && Unpack(b) == Some(h) && b[HEAD_SIZE..][..h.len] == payload
      && (PackResultOf(h.len as int, |b|) == Packed <==> |payload| + |more| <= MAX_COPY)
  {
    hide DecodeHead, EncodeHead;
    var b := EncodeHead(h) + payload + more;
    assert b == EncodeHead(h) + (payload + more);
    HeadRoundTrip(h, payload + more);
  }

  /** An empty payload fails in a buffer of exactly its size: there is no room to copy into. */
  lemma EmptyPayloadFails(size: nat)
    ensures PackResultOf(0, size) == Packed <==> HEAD_SIZE < size <= HEAD_SIZE + MAX_COPY
  {
  }

  /** Every size the check lets through has room for the header if and only if the packet size does not wrap. */
  lemma CheckedSizesHoldTheHeader(len: int)
    requires 0 <= len < U32
    ensures (forall size: nat :: size < U32 ==> PackResultOf(len, size) != PastTheEnd) <==> len < U32 - HEAD_SIZE
  {
    if len >= U32 - HEAD_SIZE { assert PackResultOf(len, PacketSize(len)) == PastTheEnd; }
  }

  /** SocketPostBytes allocates exactly the computed size; for every length, what packing into that comes to. */
  lemma SocketPackets(len: int)
    requires 0 <= len < U32
    ensures PackResultOf(len, PacketSize(len))
         == if len == 0 then CopyFailed else if len <= MAX_COPY then Packed
            else if len < U32 - HEAD_SIZE then CopyFailed else PastTheEnd
  {
  }

  /** The block PostCommData allocates: a connection header of 24 bytes and the packet, added with a second wrap. */
  function Block(len: int): nat
  {
    Wrap32(CONN_HEAD_SIZE + PacketSize(len))
  }

  /** PostCommData packs behind the connection header, and gives out for room the rest of the block, wrapped again. */
  function PostResultOf(len: int): PackResult
  {
    var claimed := Wrap32(Block(len) as int - CONN_HEAD_SIZE);
    if PackResultOf(len, claimed) == NoEnoughData then NoEnoughData
    else if Block(len) < CONN_HEAD_SIZE + HEAD_SIZE then PastTheEnd
    else PackResultOf(len, claimed)
  }

  /**
   For every length, what posting comes to. The room given out is the packet size whatever the block, so the
   check never refuses, and the header lies in the block if and only if neither sum wraps.
   */
  lemma PostedPackets(len: int)
    requires 0 <= len < U32
    ensures PostResultOf(len)
         == if len == 0 then CopyFailed else if len <= MAX_COPY then Packed
            else if len < U32 - CONN_HEAD_SIZE - HEAD_SIZE then CopyFailed else PastTheEnd
    ensures Wrap32(Block(len) as int - CONN_HEAD_SIZE) == PacketSize(len)
    ensures CONN_HEAD_SIZE + HEAD_SIZE <= Block(len) <==> len < U32 - CONN_HEAD_SIZE - HEAD_SIZE
  {
  }

  lemma LeStep(m: nat, k: nat)
    requires k > 0
    ensures ToLe(m, k)[0] == (m % 256) as Byte && ToLe(m, k)[1..] == ToLe(m / 256, k - 1)
  {
  }

  /** Stores the k low bytes of n at an offset. */
  method PutLe(buf: array<Byte>, offset: nat, n: nat, k: nat)
    requires offset + k <= buf.Length
    modifies buf
    ensures buf[..] == old(buf[..offset]) + ToLe(n, k) + old(buf[offset + k..])
  {
    hide ToLe;
    ghost var was, le := buf[..], ToLe(n, k);
    var i, m := 0, n;
    while i < k
      invariant i <= k && buf[..] == was[..offset] + le[..i] + was[offset + i..]
      invariant ToLe(m, k - i) == le[i..]
    {
      LeStep(m, k - i);
      assert le[i] == le[i..][0] && le[i..][1..] == le[i + 1..];
      buf[offset + i] := (m % 256) as Byte;
      assert le[..i + 1] == le[..i] + [le[i]];
      m := m / 256;
      i := i + 1;
    }
    assert le[..k] == le;
  }

  lemma EncodeHeadIs(h: Head)
    ensures EncodeHead(h) == [] + ToLe(h.first as int, 4) + ToLe(LowHalf(h.moduleId), 4) + ToLe(ToUint64(h.seqNum), 8)
                             + ToLe(LowHalf(h.flag), 4) + ToLe(h.len as int, 4)
  {
    hide ToLe;
  }

  /** The header fields, stored one after the other. */
  method PutHead(h: Head, buf: array<Byte>)
    requires buf.Length >= HEAD_SIZE
    modifies buf
    ensures buf[..] == EncodeHead(h) + old(buf[HEAD_SIZE..])
  {
    hide ToLe, EncodeHead;
    EncodeHeadIs(h);
    ghost var was := buf[..];
    var offset := 0;
    ghost var p := [];
    offset, p := PutNext(buf, offset, h.first as int, 4, was, p);
    offset, p := PutNext(buf, offset, LowHalf(h.moduleId), 4, was, p);
    offset, p := PutNext(buf, offset, ToUint64(h.seqNum), 8, was, p);
    offset, p := PutNext(buf, offset, LowHalf(h.flag), 4, was, p);
    offset, p := PutNext(buf, offset, h.len as int, 4, was, p);
  }

  /** The next field, behind those that fill the buffer so far. */
  method PutNext(buf: array<Byte>, offset: nat, n: nat, k: nat, ghost was: Data, ghost p: Data)
    returns (next: nat, ghost q: Data)
    requires |p| == offset && offset + k <= |was| == buf.Length && buf[..] == p + was[offset..]
    modifies buf
    ensures next == offset + k && q == p + ToLe(n, k) && buf[..] == q + was[next..]
  {
    PutLe(buf, offset, n, k);
    next := offset + k;
    q := p + ToLe(n, k);
  }

  /** Copies the first n bytes behind a header that is in place. */
  method CopyBehind(ghost head: Data, data: Data, n: nat, buf: array<Byte>, ghost was: Data)
    requires |head| == HEAD_SIZE && n <= |data| && HEAD_SIZE + n <= |was| == buf.Length
    requires buf[..] == head + was[HEAD_SIZE..]
    modifies buf
    ensures buf[..] == head + data[..n] + was[HEAD_SIZE + n..]
  {
    for i := 0 to n
      invariant buf[..] == head + data[..i] + was[HEAD_SIZE + i..]
    {
      buf[HEAD_SIZE + i] := data[i];
    }
  }

  /** PackAuthData and PackSocketPkt. The caller vouches for the buffer's size and for the payload's length. */
  method Pack(h: Head, data: Data, buf: array<Byte>, size: nat) returns (r: PackResult)
    requires size <= buf.Length && |data| >= h.len as int
    modifies buf
    ensures r == PackResultOf(h.len as int, size)
    ensures r.NoEnoughData? ==> buf[..] == old(buf[..])
    ensures r.Packed? ==> buf[..] == EncodeHead(h) + data[..h.len] + old(buf[HEAD_SIZE + h.len as int..])
    ensures r.CopyFailed? ==> buf[..HEAD_SIZE] == EncodeHead(h)
  {
    hide EncodeHead;
    if size < PacketSize(h.len as int) { return NoEnoughData; }
    if size < HEAD_SIZE { return PastTheEnd; }
    ghost var was := buf[..];
    PutHead(h, buf);
    if !Copies(size - HEAD_SIZE, h.len as int) { return CopyFailed; }
    CopyBehind(EncodeHead(h), data, h.len as int, buf, was);
    return Packed;
  }

  // ------------------------------------------------------ WiFi

  const MODULE_TRUST_ENGINE: Int32 := 1
  const MODULE_AUTH_SDK: Int32 := 3
  const MODULE_AUTH_CONNECTION: Int32 := 5
  const DATA_TYPE_AUTH: Uint32 := 0xFFFF_0001
  const DATA_TYPE_DEVICE_INFO: Uint32 := 0xFFFF_0002
  const DATA_TYPE_DEVICE_ID: Uint32 := 0xFFFF_0003
  const DATA_TYPE_CONNECTION: Uint32 := 0xFFFF_0004

  function ModuleToDataType(m: Int32): Uint32
  {
    if m == MODULE_TRUST_ENGINE then DATA_TYPE_DEVICE_ID
    else if m == MODULE_AUTH_SDK then DATA_TYPE_AUTH
    else if m == MODULE_AUTH_CONNECTION then DATA_TYPE_DEVICE_INFO
    else DATA_TYPE_CONNECTION
  }

  /** What a session sends: device ids, Hichain data and device info, each under its own module. */
  predicate SessionHead(h: Head)
  {
    || (h.first == DATA_TYPE_DEVICE_ID && h.moduleId == MODULE_TRUST_ENGINE)
    || (h.first == DATA_TYPE_AUTH && h.moduleId == MODULE_AUTH_SDK)
    || (h.first == DATA_TYPE_DEVICE_INFO && h.moduleId == MODULE_AUTH_CONNECTION)
  }

  /** SocketPostBytes: on a socket the magic number takes the place of the data type. */
  function SocketHead(h: Head): Head
  {
    h.(first := MAGIC_NUMBER as Uint32)
  }

  /** The header checks of ProcessSocketInEvent, and the header handed on; all but 24 bytes is payload. */
  function ReceiveHead(b: Data): Option<Head>
  {
    if |b| < HEAD_SIZE then None
    else
      var h := DecodeHead(b);
      if h.len == 0 || h.len as int > AUTH_SOCKET_MAX_DATA_LEN || h.first as int != MAGIC_NUMBER then None
      else Some(h.(first := ModuleToDataType(h.moduleId)))
  }

  /** A header is taken from a socket exactly if it is whole, has the magic number and announces 1 to 65536 bytes. */
  lemma ReceivedExactly(b: Data)
    ensures ReceiveHead(b).Some? <==> |b| >= 24 && Word(b, 0) == 0xBABE_FACE && 1 <= Word(b, 20) <= 65536
    ensures ReceiveHead(b).Some? ==>
      var h := ReceiveHead(b).value;
      && h.len as int == Word(b, 20) && h.moduleId == ToInt32(Word(b, 4)) && h.flag == ToInt32(Word(b, 16))
      && h.seqNum == ToInt64(LongWord(b, 8))
  {
    hide Word, LongWord;
  }

  /** Over WiFi a session message arrives with its data type exactly if its size is from 1 to 65536. */
  lemma SessionHeadTravels(h: Head, rest: Data)
    requires SessionHead(h)
    ensures ReceiveHead(EncodeHead(SocketHead(h)) + rest)
         == if 1 <= h.len as int <= AUTH_SOCKET_MAX_DATA_LEN then Some(h) else None
  {
    hide DecodeHead, EncodeHead;
    HeadRoundTrip(SocketHead(h), rest);
  }
}
