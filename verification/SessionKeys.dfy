/** The window of session keys, and encryption under the latest or an indexed key. */
module SessionKeys {
  import opened Options
  import opened Bits
  import opened Bytes
  import opened ConnIds

  const SESSION_KEY_MAX_NUM: nat := 10
  const SESSION_KEY_LENGTH: nat := 32
  const ENCRYPT_INDEX_LEN: nat := 4
  const GCM_IV_LEN: nat := 12
  const TAG_LEN: nat := 16
  const OVERHEAD_LEN: nat := 28
  const ENCRYPT_OVER_HEAD_LEN: nat := 32

  datatype Item = Item(index: Int32, key: Data)

  /**
   AES-GCM as sections 7.1 and 7.2 of NIST SP 800-38D describe it: `seal` is given a key, a nonce and a
   plaintext and yields nonce, ciphertext and tag; `open` is given a key and those.
   */
  datatype Cipher = Cipher(seal: (Data, Data, Data) -> Data, open: (Data, Data) -> Option<Data>)

  ghost predicate Inverse(c: Cipher)
  {
    forall key, iv, p :: |iv| == GCM_IV_LEN ==>
      |c.seal(key, iv, p)| == |p| + OVERHEAD_LEN && c.open(key, c.seal(key, iv, p)) == Some(p)
  }

  // ------------------------------------------------------ the window

  /** AddSessionKey: append, then drop the oldest beyond ten. */
  function Added(items: seq<Item>, x: Item): seq<Item>
  {
    var more := items + [x];
    if |more| > SESSION_KEY_MAX_NUM then more[1..] else more
  }

  function AddAll(items: seq<Item>, xs: seq<Item>): seq<Item>
  {
    if xs == [] then items else Added(AddAll(items, xs[..|xs| - 1]), xs[|xs| - 1])
  }

  /** The last ten, or all if fewer. */
  function Window(xs: seq<Item>): seq<Item>
  {
    if |xs| <= SESSION_KEY_MAX_NUM then xs else xs[|xs| - SESSION_KEY_MAX_NUM..]
  }

  /** After any additions to an empty list it holds exactly the last ten of them, in order. */
  lemma {:induction false} ListIsWindow(xs: seq<Item>)
    ensures AddAll([], xs) == Window(xs)
  {
    if xs != [] {
      var n := |xs| - 1;
      ListIsWindow(xs[..n]);
      assert xs == xs[..n] + [xs[n]];
    }
  }

  /** GetSessionKeyByIndex: the first item with the index. */
  function Find(items: seq<Item>, index: Int32): Option<Data>
  {
    if items == [] then None else if items[0].index == index then Some(items[0].key) else Find(items[1..], index)
  }

  function Without(items: seq<Item>, index: Int32): seq<Item>
  {
    if items == [] then []
    else if items[0].index == index then items[1..] else [items[0]] + Without(items[1..], index)
  }

  predicate DistinctIndices(xs: seq<Item>)
  {
    forall i, j :: 0 <= i < j < |xs| ==> xs[i].index != xs[j].index
  }

  lemma {:induction false} FindAt(items: seq<Item>, k: nat)
    requires k < |items| && forall i :: 0 <= i < k ==> items[i].index != items[k].index
    ensures Find(items, items[k].index) == Some(items[k].key)
  {
    if k > 0 { FindAt(items[1..], k - 1); }
  }

  lemma {:induction false} FindNone(items: seq<Item>, index: Int32)
    requires forall i :: 0 <= i < |items| ==> items[i].index != index
    ensures Find(items, index) == None
  {
    if items != [] { FindNone(items[1..], index); }
  }

  /** A key is found exactly as long as at most nine newer ones have been added. */
  lemma KeyStaysForNine(xs: seq<Item>, p: nat)
    requires DistinctIndices(xs) && p < |xs|
    ensures Find(AddAll([], xs), xs[p].index) == if |xs| - 1 - p <= 9 then Some(xs[p].key) else None
  {
    hide AddAll, Find, Window;
    ListIsWindow(xs);
    WindowAt(xs);
    var w := Window(xs);
    var from: int := |xs| - |w|;
    if p >= from {
      assert w[p - from] == xs[p];
      FindAt(w, p - from);
    } else {
      FindNone(w, xs[p].index);
    }
  }

  lemma WindowAt(xs: seq<Item>)
    ensures var w := Window(xs);
      && |w| == (if |xs| <= SESSION_KEY_MAX_NUM then |xs| else SESSION_KEY_MAX_NUM)
      && forall i :: 0 <= i < |w| ==> w[i] == xs[|xs| - |w| + i]
  {
    if |xs| > SESSION_KEY_MAX_NUM {
      var k := |xs| - SESSION_KEY_MAX_NUM;
      assert forall i :: 0 <= i < |xs[k..]| ==> xs[k..][i] == xs[k + i];
    }
  }

  /** With distinct indices, removal takes out that key and no other. */
  lemma {:induction false} RemovedIsGone(items: seq<Item>, index: Int32, other: Int32)
    requires DistinctIndices(items)
    ensures Find(Without(items, index), other) == if other == index then None else Find(items, other)
  {
    if items != [] {
      if items[0].index == index {
        if other == index { FindNone(items[1..], index); }
      } else {
        RemovedIsGone(items[1..], index, other);
      }
    }
  }

  // ------------------------------------------------------ encryption

  /** EncryptData. `iv` is random, `sealOk` says that the library succeeds. */
  function Encrypt(c: Cipher, items: seq<Item>, plain: Data, outLen: nat, iv: Data, sealOk: bool): Result<Data>
  {
    if plain == [] || outLen < Wrap32(|plain| + ENCRYPT_OVER_HEAD_LEN) then Err(InvalidParam)
    else if items == [] then Err(EncryptError)
    else
      var x := items[|items| - 1];
      if |x.key| > SESSION_KEY_LENGTH then Err(MemError)
      else if !sealOk then Err(EncryptError)
      else Ok(ToLe(LowHalf(x.index), ENCRYPT_INDEX_LEN) + c.seal(x.key, iv, plain))
  }

  function Decrypt(c: Cipher, items: seq<Item>, data: Data, outLen: nat): Result<Data>
  {
    if |data| <= ENCRYPT_OVER_HEAD_LEN || outLen < |data| - ENCRYPT_OVER_HEAD_LEN then Err(InvalidParam)
    else
      match Find(items, IndexOf(data))
      case None => Err(DecryptError)
      case Some(key) =>
        if |key| > SESSION_KEY_LENGTH then Err(MemError)
        else match c.open(key, data[ENCRYPT_INDEX_LEN..])
          case None => Err(DecryptError)
          case Some(plain) => Ok(plain)
  }

  function IndexOf(data: Data): Int32
    requires |data| >= ENCRYPT_INDEX_LEN
  {
    Pow256Of4();
    ToInt32(FromLe(data[..ENCRYPT_INDEX_LEN]))
  }

  lemma IndexTravels(index: Int32, rest: Data)
    ensures IndexOf(ToLe(LowHalf(index), ENCRYPT_INDEX_LEN) + rest) == index
  {
    var head := ToLe(LowHalf(index), ENCRYPT_INDEX_LEN);
    assert (head + rest)[..ENCRYPT_INDEX_LEN] == head;
    Le32(LowHalf(index));
  }

  /**
   Data encrypted under the latest key of one side is 32 bytes longer, and decrypts to the original on
   the other side exactly as long as that side has added at most nine newer keys.
   */
  lemma EncryptedDataTravels(c: Cipher, mine: seq<Item>, theirs: seq<Item>, p: nat, plain: Data, iv: Data, outLen: nat,
                             inLen: nat)
    requires Inverse(c) && mine != [] && DistinctIndices(theirs) && p < |theirs| && theirs[p] == mine[|mine| - 1]
    requires |iv| == GCM_IV_LEN && plain != [] && |plain| + 32 < U32 && outLen >= |plain| + 32 && inLen >= |plain|
    requires |theirs[p].key| <= SESSION_KEY_LENGTH
    ensures var e := Encrypt(c, AddAll([], mine), plain, outLen, iv, true);
      && e.Ok? && |e.value| == |plain| + 32
      && Decrypt(c, AddAll([], theirs), e.value, inLen)
         == if |theirs| - 1 - p <= 9 then Ok(plain) else Err(DecryptError)
  {
    hide AddAll, ToLe, FromLe, IndexOf, Find;
    var x := theirs[p];
    assert AddAll([], mine) != [] && AddAll([], mine)[|AddAll([], mine)| - 1] == x by { ListIsWindow(mine); }
    var sealed := c.seal(x.key, iv, plain);
    IndexTravels(x.index, sealed);
    KeyStaysForNine(theirs, p);
    var data := ToLe(LowHalf(x.index), ENCRYPT_INDEX_LEN) + sealed;
    assert data[ENCRYPT_INDEX_LEN..] == sealed;
  }

  /** Opening yields 28 bytes less than it is given, as section 7.2 of NIST SP 800-38D has it. */
  ghost predicate Shortens(c: Cipher)
  {
    forall key, d :: c.open(key, d).Some? ==> |c.open(key, d).value| + OVERHEAD_LEN == |d|
  }

  /** What is decrypted is 32 bytes shorter and fits its buffer, and it was opened with the key its index names. */
  lemma DecryptedFits(c: Cipher, items: seq<Item>, data: Data, outLen: nat)
    requires Shortens(c) && Decrypt(c, items, data, outLen).Ok?
    ensures var plain := Decrypt(c, items, data, outLen).value;
      && |plain| == |data| - 32 > 0 && |plain| <= outLen
      && exists k :: 0 <= k < |items| && items[k].index == IndexOf(data) && |items[k].key| <= SESSION_KEY_LENGTH
           && c.open(items[k].key, data[4..]) == Some(plain)
  {
    hide IndexOf;
    var k := FoundAt(items, IndexOf(data));
  }

  lemma {:induction false} FoundAt(items: seq<Item>, index: Int32) returns (k: nat)
    requires Find(items, index).Some?
    ensures k < |items| && items[k].index == index && Find(items, index) == Some(items[k].key)
  {
    if items[0].index == index {
      k := 0;
    } else {
      k := FoundAt(items[1..], index);
      k := k + 1;
    }
  }

  /**
   What an accepted call produces fits the buffer it was given if and only if adding 32 to the payload's
   length does not wrap around.
   */
  lemma AcceptedFitsExactly(c: Cipher, items: seq<Item>, plain: Data, outLen: nat, iv: Data, sealOk: bool)
    requires Inverse(c) && |iv| == GCM_IV_LEN && |plain| < U32 && outLen < U32
    requires Encrypt(c, items, plain, outLen, iv, sealOk).Ok?
    ensures |Encrypt(c, items, plain, outLen, iv, sealOk).value| <= outLen <==> |plain| < U32 - ENCRYPT_OVER_HEAD_LEN
  {
    var x := items[|items| - 1];
    assert |c.seal(x.key, iv, plain)| == |plain| + OVERHEAD_LEN;
  }

  /** The checks of the mbedtls back end: room, the copies of nonce and tag, and a positive int32_t result. */
  predicate MbedtlsSeals(len: nat)
  {
    var outLen := Wrap32(len + OVERHEAD_LEN);
    && len != 0
    && Copies(outLen, GCM_IV_LEN)
    && Copies(Wrap32(outLen as int - GCM_IV_LEN - len), TAG_LEN)
    && 0 < outLen < 0x8000_0000
  }

  /** It seals up to 2^31 - 29 bytes and, of the lengths that wrap, exactly the last sixteen. */
  lemma MbedtlsSealsExactly(len: nat)
    requires len < U32
    ensures MbedtlsSeals(len) <==> 1 <= len <= 0x7FFF_FFE3 || len >= U32 - 16
  {
  }

  /** With that back end, all that is accepted fits if and only if the payload is shorter than 2^32 - 16 bytes. */
  lemma MbedtlsFitsExactly(c: Cipher, x: Item, plain: Data, iv: Data)
    requires Inverse(c) && |iv| == GCM_IV_LEN && |x.key| <= SESSION_KEY_LENGTH && |plain| < U32
    ensures (forall outLen: nat :: outLen < U32 && Encrypt(c, [x], plain, outLen, iv, MbedtlsSeals(|plain|)).Ok? ==>
               |Encrypt(c, [x], plain, outLen, iv, MbedtlsSeals(|plain|)).value| <= outLen)
       <==> |plain| < U32 - 16
  {
    hide MbedtlsSeals, ToLe;
    var sealOk := MbedtlsSeals(|plain|);
    if |plain| >= U32 - ENCRYPT_OVER_HEAD_LEN { MbedtlsSealsExactly(|plain|); }
    if |plain| >= U32 - 16 {
      var tight := Wrap32(|plain| + ENCRYPT_OVER_HEAD_LEN);
      assert Encrypt(c, [x], plain, tight, iv, sealOk).Ok?;
      AcceptedFitsExactly(c, [x], plain, tight, iv, sealOk);
    } else {
      forall outLen: nat | outLen < U32 && Encrypt(c, [x], plain, outLen, iv, sealOk).Ok?
        ensures |Encrypt(c, [x], plain, outLen, iv, sealOk).value| <= outLen
      {
        AcceptedFitsExactly(c, [x], plain, outLen, iv, sealOk);
      }
    }
  }

  /** Such a call: 2^32 - 1 bytes are accepted, and sealed by that back end, with a buffer of 31. */
  lemma AcceptedWithoutRoom(c: Cipher, x: Item, iv: Data) returns (plain: Data)
    requires Inverse(c) && |iv| == GCM_IV_LEN && |x.key| <= SESSION_KEY_LENGTH
    ensures |plain| == U32 - 1 && MbedtlsSeals(|plain|)
    ensures var r := Encrypt(c, [x], plain, 31, iv, MbedtlsSeals(|plain|)); r.Ok? && |r.value| == U32 + 31
  {
    plain := seq(U32 - 1, i => 0 as Byte);
    assert |c.seal(x.key, iv, plain)| == |plain| + OVERHEAD_LEN;
  }

  // ------------------------------------------------------ the list as the source keeps it

  class SessionKeyList {
    var items: seq<Item>

    constructor ()
      ensures items == []
    {
      items := [];
    }

    method RemoveOldKey()
      modifies this
      ensures items == if |old(items)| > SESSION_KEY_MAX_NUM then old(items)[1..] else old(items)
    {
      var num := 0;
      for i := 0 to |items|
        invariant num == i
      {
        num := num + 1;
      }
      if num <= SESSION_KEY_MAX_NUM { return; }
      items := items[1..];
    }

    method AddSessionKey(index: Int32, key: Data)
      modifies this
      ensures items == Added(old(items), Item(index, key))
    {
      items := items + [Item(index, key)];
      RemoveOldKey();
    }

    method GetLatestSessionKey() returns (x: Option<Item>)
      ensures x.None? <==> items == []
      ensures x.Some? ==> x.value == items[|items| - 1]
    {
      if items == [] { return None; }
      return Some(items[|items| - 1]);
    }

    method GetSessionKeyByIndex(index: Int32) returns (key: Option<Data>)
      ensures key == Find(items, index)
    {
      for i := 0 to |items|
        invariant Find(items, index) == Find(items[i..], index)
      {
        assert items[i..][1..] == items[i + 1..];
        if items[i].index == index { return Some(items[i].key); }
      }
      return None;
    }

    method RemoveSessionkeyByIndex(index: Int32)
      modifies this
      ensures items == Without(old(items), index)
    {
      var i := 0;
      while i < |items|
        invariant i <= |items| && items == old(items)
        invariant Without(items, index) == items[..i] + Without(items[i..], index)
      {
        assert items[i..][1..] == items[i + 1..];
        if items[i].index == index {
          items := items[..i] + items[i + 1..];
          return;
        }
        i := i + 1;
      }
    }

    method EncryptData(c: Cipher, plain: Data, outLen: nat, iv: Data, sealOk: bool) returns (r: Result<Data>)
      ensures r == Encrypt(c, items, plain, outLen, iv, sealOk)
    {
      if |plain| == 0 || outLen < Wrap32(|plain| + ENCRYPT_OVER_HEAD_LEN) { return Err(InvalidParam); }
      var latest := GetLatestSessionKey();
      if latest.None? { return Err(EncryptError); }
      var head := ToLe(LowHalf(latest.value.index), ENCRYPT_INDEX_LEN);
      if |latest.value.key| > SESSION_KEY_LENGTH { return Err(MemError); }
      if !sealOk { return Err(EncryptError); }
      return Ok(head + c.seal(latest.value.key, iv, plain));
    }

    method DecryptData(c: Cipher, data: Data, outLen: nat) returns (r: Result<Data>)
      ensures r == Decrypt(c, items, data, outLen)
    {
      if |data| <= ENCRYPT_OVER_HEAD_LEN || outLen < |data| - ENCRYPT_OVER_HEAD_LEN { return Err(InvalidParam); }
      var key := GetSessionKeyByIndex(IndexOf(data));
      if key.None? { return Err(DecryptError); }
      if |key.value| > SESSION_KEY_LENGTH { return Err(MemError); }
      var plain := c.open(key.value, data[ENCRYPT_INDEX_LEN..]);
      if plain.None? { return Err(DecryptError); }
      return Ok(plain.value);
    }
  }
}
