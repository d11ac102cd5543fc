/**
 * The earlier, vector-based copy of the C-string codec. `from_cstr` reads through a raw pointer,
 * modelled as a block of memory and an offset into it; `to_cstr` casts each character with
 * `as c_char`, which keeps only the low eight bits of its code point, so the codec is faithful
 * for ASCII text only.
 */
module Cstr {
  import opened Ints
  import Cbox

  /** `to_cstr`: each character cast to a `c_char`, then a NUL. */
  function ToCStr(s: string): (v: seq<CChar>)
    ensures |v| == |s| + 1 && v[|s|] == 0
  {
    seq(|s|, i requires 0 <= i < |s| => CharAsI8(s[i])) + [0]
  }

  /**
   * `from_cstr`: read the memory from offset `p` on until the first NUL at or after `p`, one
   * character per cell. The result is what the buffer-based reader gives for the memory from `p`.
   */
  method FromCStr(mem: array<CChar>, p: nat) returns (s: string)
    requires p <= mem.Length && 0 in mem[p..]
    ensures s == Cbox.Decode(mem[p..])
    ensures p + |s| < mem.Length && mem[p + |s|] == 0
    ensures forall j :: p <= j < p + |s| ==> mem[j] != 0
  {
    ghost var stop := Cbox.FirstZero(mem[p..]);
    s := "";
    var pos := 0;
    while mem[p + pos] != 0
      invariant pos <= stop
      invariant forall j :: p <= j < p + pos ==> mem[j] != 0
      invariant s == Cbox.AsChars(mem[p..p + pos])
      decreases stop - pos
    {
      assert mem[p..p + pos + 1] == mem[p..p + pos] + [mem[p + pos]];
      s := s + [U8AsChar(I8AsU8(mem[p + pos]))];
      pos := pos + 1;
    }
    assert mem[p..p + pos] == mem[p..][..stop];
  }

  /** An ASCII character is stored as its code point. */
  lemma AsciiCell(s: string, i: nat)
    requires i < |s| && s[i] as int < 0x80
    ensures ToCStr(s)[i] as int == s[i] as int
  {
  }

  /**
   * When no character of `s` has a zero low byte, the final NUL is the only zero in `to_cstr(s)`,
   * and reading the result back gives, for each character, the character of its low byte.
   */
  lemma LowByteRoundTrip(s: string)
    requires forall i :: 0 <= i < |s| ==> s[i] as int % 0x100 != 0
    ensures forall i :: 0 <= i < |s| ==> ToCStr(s)[i] != 0
    ensures 0 in ToCStr(s) && Cbox.FirstZero(ToCStr(s)) == |s|
    ensures Cbox.Decode(ToCStr(s)) == seq(|s|, i requires 0 <= i < |s| => (s[i] as int % 0x100) as char)
  {
    var v := ToCStr(s);
    forall i | 0 <= i < |s|
      ensures v[i] != 0
    {
      ZeroCasts(0, v[i]);
    }
    assert v[|s|] == 0;
  }

  /** Round trip: an ASCII string without NUL comes back unchanged. */
  lemma AsciiRoundTrip(s: string)
    requires forall i :: 0 <= i < |s| ==> 0 < s[i] as int < 0x80
    ensures Cbox.Decode(ToCStr(s)) == s
  {
    LowByteRoundTrip(s);
  }

  /**
   * A character outside ASCII can have a zero low byte: U+0100 contains no NUL but is stored
   * as one, so the string reads back empty.
   */
  lemma NonAsciiStoredAsNul()
    ensures ToCStr("\U{100}")[0] == 0
    ensures Cbox.Decode(ToCStr("\U{100}")) == ""
  {
    assert ToCStr("\U{100}")[0] == 0;
  }

  /** On ASCII text both copies of the codec write the same cells. */
  lemma AgreesWithCbox(s: string)
    requires forall i :: 0 <= i < |s| ==> s[i] as int < 0x80
    ensures ToCStr(s) == Cbox.Encode(Cbox.AsciiBytes(s))
  {
  }
}
