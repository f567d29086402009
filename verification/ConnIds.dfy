/** Connection ids: the link type in the high half, a socket or connection number in the low half. */
module ConnIds {
  const TWO32: int := 0x1_0000_0000
  const AUTH_LINK_TYPE_WIFI: int := 1
  const AUTH_INVALID_FD: int := -1

  newtype Int32 = x: int | -0x8000_0000 <= x < 0x8000_0000

  type ConnId = x: int | 0 <= x < 0x1_0000_0000_0000_0000

  /** The cast of a 32-bit pattern to int32_t. */
  function ToInt32(u: int): Int32
    requires 0 <= u < TWO32
  {
    if u < 0x8000_0000 then u as Int32 else (u - TWO32) as Int32
  }

  /** The cast of an int32_t to uint64_t, masked to its low half. */
  function LowHalf(i: Int32): (u: int)
    ensures 0 <= u < TWO32
  {
    if i >= 0 then i as int else i as int + TWO32
  }

  function GenConnId(connType: Int32, id: Int32): ConnId
  {
    LowHalf(connType) * TWO32 + LowHalf(id)
  }

  function GetConnType(connId: ConnId): Int32
  {
    ToInt32(connId / TWO32)
  }

  function GetFd(connId: ConnId): Int32
  {
    ToInt32(connId % TWO32)
  }

  function UpdateFd(connId: ConnId, id: Int32): ConnId
  {
    connId - connId % TWO32 + LowHalf(id)
  }

  /** Type and number come back from every connection id, also negative ones; the type is the high half. */
  lemma ConnIdRoundTrip(connType: Int32, id: Int32)
    ensures connType >= 0 ==> GenConnId(connType, id) / 0x1_0000_0000 == connType as int
    ensures GetConnType(GenConnId(connType, id)) == connType && GetFd(GenConnId(connType, id)) == id
  {
    assert GenConnId(connType, id) / TWO32 == LowHalf(connType);
    assert GenConnId(connType, id) % TWO32 == LowHalf(id);
  }

  /** Every connection id is the one its parts generate. */
  lemma ConnIdFromParts(connId: ConnId)
    ensures GenConnId(GetConnType(connId), GetFd(connId)) == connId
  {
  }

  lemma UpdateFdKeepsType(connId: ConnId, id: Int32)
    ensures UpdateFd(connId, id) == GenConnId(GetConnType(connId), id)
    ensures GetConnType(UpdateFd(connId, id)) == GetConnType(connId) && GetFd(UpdateFd(connId, id)) == id
  {
    ConnIdRoundTrip(GetConnType(connId), id);
  }
}
