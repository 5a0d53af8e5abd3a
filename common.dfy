/** Shared vocabulary: octets, big-endian 16-bit fields, and the optional and
    fallible results that stand in for the source's `Option`, `Result` and panics. */
module Common {

  /** One octet, the source's `u8`. */
  type Byte = b: int | 0 <= b < 256

  datatype Option<T> = None | Some(value: T)

  datatype Result<T, E> = Ok(value: T) | Err(error: E)

  /** A two-byte field read big-endian, `hi * 256 + lo`, as every length and
      type field of a TLS record and a SOCKS5 port is read. */
  function Be16(hi: Byte, lo: Byte): (n: nat)
    ensures n < 0x1_0000
  {
    hi * 256 + lo
  }

  /** The two bytes, high byte first, that carry a 16-bit value. */
  function ToBe16(n: nat): (bs: seq<Byte>)
    requires n < 0x1_0000
    ensures |bs| == 2 && Be16(bs[0], bs[1]) == n
  {
    [n / 256, n % 256]
  }

  /** Reading a field and writing it back gives the same two bytes. */
  lemma ToBe16OfBe16(hi: Byte, lo: Byte)
    ensures ToBe16(Be16(hi, lo)) == [hi, lo]
  {
    var n := Be16(hi, lo);
    assert n / 256 == hi && n % 256 == lo;
  }

  /** `n` zero bytes: the unused tail of a zero-initialised receive buffer. */
  function Zeros(n: nat): (z: seq<Byte>)
    ensures |z| == n && forall k :: 0 <= k < n ==> z[k] == 0
  {
    seq(n, _ => 0)
  }
}
