/** Rust's fixed-width integers and the `as` casts the library performs between them. */
module Ints {

  newtype i8 = x: int | -0x80 <= x < 0x80
  newtype i16 = x: int | -0x8000 <= x < 0x8000
  newtype i32 = x: int | -0x8000_0000 <= x < 0x8000_0000
  newtype i64 = x: int | -0x8000_0000_0000_0000 <= x < 0x8000_0000_0000_0000
  newtype u8 = x: int | 0 <= x < 0x100
  /** `usize` and `isize` on a 64-bit target. */
  newtype usize = x: int | 0 <= x < 0x1_0000_0000_0000_0000
  newtype isize = x: int | -0x8000_0000_0000_0000 <= x < 0x8000_0000_0000_0000

  /** `c_char` is `i8` on the targets the library is written for. */
  type CChar = i8

  /** `b as i8`: reinterpret the byte in two's complement. */
  function U8AsI8(b: u8): (c: i8)
    ensures 0 <= c ==> c as int == b as int
    ensures c < 0 ==> c as int == b as int - 0x100
  {
    if b < 0x80 then b as int as i8 else (b as int - 0x100) as i8
  }

  /** `c as u8`: reinterpret the signed byte as unsigned. */
  function I8AsU8(c: i8): (b: u8)
    ensures (b as int - c as int) % 0x100 == 0
  {
    if c < 0 then (c as int + 0x100) as u8 else c as int as u8
  }

  /** `b as char`: the character whose code point is the byte (U+0000..U+00FF). */
  function U8AsChar(b: u8): (ch: char)
    ensures ch as int == b as int
  {
    b as int as char
  }

  /** `ch as i8`: keep the low eight bits of the code point, then reinterpret them as signed. */
  function CharAsI8(ch: char): (c: i8)
    ensures I8AsU8(c) as int == ch as int % 0x100
  {
    U8AsI8((ch as int % 0x100) as u8)
  }

  /** The two byte casts are mutually inverse: no value is lost in either direction. */
  lemma ByteCastsInverse(b: u8, c: i8)
    ensures I8AsU8(U8AsI8(b)) == b
    ensures U8AsI8(I8AsU8(c)) == c
  {
  }

  /** Zero is the only byte that casts to a zero `c_char`, and back. */
  lemma ZeroCasts(b: u8, c: i8)
    ensures U8AsI8(b) == 0 <==> b == 0
    ensures I8AsU8(c) == 0 <==> c == 0
  {
  }
}
