/** Byte sequences and little-endian integers. */
module Bytes {
  newtype Byte = x: int | 0 <= x < 256

  type Data = seq<Byte>

  datatype Result<T> = Ok(value: T) | Err(error: Error)

  datatype Error = InvalidParam | MemError | EncryptError | DecryptError | InvalidData

  const MAX_COPY: nat := 0x7FFF_FFFF

  /** When memcpy_s copies: into a buffer of 1 to 0x7FFFFFFF bytes that is large enough. */
  predicate Copies(destMax: int, count: int)
  {
    0 < destMax <= MAX_COPY && count <= destMax
  }

  function Pow256(k: nat): (r: nat)
    ensures r > 0
  {
    if k == 0 then 1 else 256 * Pow256(k - 1)
  }

  /** The k low bytes of n, least significant first. */
  function ToLe(n: nat, k: nat): (b: Data)
    ensures |b| == k
  {
    if k == 0 then [] else [(n % 256) as Byte] + ToLe(n / 256, k - 1)
  }

  function FromLe(b: Data): (n: nat)
    ensures n < Pow256(|b|)
  {
    if b == [] then 0 else b[0] as int + 256 * FromLe(b[1..])
  }

  lemma {:induction false} LeRoundTrip(n: nat, k: nat)
    requires n < Pow256(k)
    ensures FromLe(ToLe(n, k)) == n
  {
    if k > 0 {
      LeRoundTrip(n / 256, k - 1);
      assert ToLe(n, k)[1..] == ToLe(n / 256, k - 1);
    }
  }

  lemma {:induction false} LeOfBytes(b: Data)
    ensures ToLe(FromLe(b), |b|) == b
  {
    hide Pow256;
    if b != [] {
      LeOfBytes(b[1..]);
      LowByte(b[0] as int, FromLe(b[1..]));
      assert b == [b[0]] + b[1..];
    }
  }

  lemma LowByte(low: int, high: int)
    requires 0 <= low < 256
    ensures (low + 256 * high) % 256 == low && (low + 256 * high) / 256 == high
  {
  }

  lemma Pow256Of4()
    ensures Pow256(4) == 0x1_0000_0000
  {
    assert Pow256(2) == 65536;
  }

  lemma Pow256Of8()
    ensures Pow256(8) == 0x1_0000_0000_0000_0000
  {
    Pow256Of4();
    assert Pow256(6) == 65536 * Pow256(4);
  }

  lemma Le32(n: nat)
    requires n < 0x1_0000_0000
    ensures FromLe(ToLe(n, 4)) == n
  {
    Pow256Of4();
    LeRoundTrip(n, 4);
  }

  lemma Le64(n: nat)
    requires n < 0x1_0000_0000_0000_0000
    ensures FromLe(ToLe(n, 8)) == n
  {
    Pow256Of8();
    LeRoundTrip(n, 8);
  }
}
