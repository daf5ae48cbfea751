/** 16-bit words and the wrapping conversions of the Rust source. Every
    `u16` addition and subtraction of the model wraps modulo 2^16 (the
    behaviour of a release build). */
module Words {
  import opened Bits

  type u16 = x: int | 0 <= x < 0x1_0000

  /** `x as u16` for any integer: reduction modulo 2^16. */
  function Wrap16(x: int): (r: u16)
    ensures 0 <= x < 0x1_0000 ==> r == x
    ensures 0x1_0000 <= x < 0x2_0000 ==> r == x - 0x1_0000
    ensures -0x1_0000 <= x < 0 ==> r == x + 0x1_0000
  {
    x % 0x1_0000
  }

  /** `b as i8`: the two's-complement value of a byte. */
  function SignedByte(b: u8): (r: int)
    ensures -128 <= r < 128
    ensures r == b || r == b - 0x100
  {
    if b < 0x80 then b else b - 0x100
  }

  /** `b as i8 as i16 as u16`: sign extension of a byte to a word. */
  function SignExtend16(b: u8): (r: u16)
    ensures r == Wrap16(SignedByte(b))
    ensures r % 0x100 == b && r % 0x10 == b % 0x10
  {
    if b < 0x80 then b else b + 0xFF00
  }

  /** `u16::from_be_bytes([hi, lo])`. */
  function FromBytes(hi: u8, lo: u8): (r: u16)
    ensures r / 0x100 == hi && r % 0x100 == lo
  {
    hi * 0x100 + lo
  }

  /** The high byte of `u16::to_be_bytes(v)`. */
  function High(v: u16): u8 {
    v / 0x100
  }

  /** The low byte of `u16::to_be_bytes(v)`. */
  function Low(v: u16): u8 {
    v % 0x100
  }

  /** Splitting a word into its bytes and joining them back is the identity,
      and joining then splitting gives back the bytes. */
  lemma {:induction false} BytesRoundTrip(v: u16, hi: u8, lo: u8)
    ensures FromBytes(High(v), Low(v)) == v
    ensures High(FromBytes(hi, lo)) == hi && Low(FromBytes(hi, lo)) == lo
  {
  }
}
