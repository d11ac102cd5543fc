/**
 * The single-owner handle over a C-allocated block (`CBox<T>`) and the NUL-terminated string
 * codec built on it. The block is an array; the handle keeps no length of its own, so indexing is
 * only defined inside the block, which callers must respect. Release through `free` is tracked
 * by a ghost flag: a released handle may not be used or released again.
 */
module Cbox {
  import opened Ints

  class CBox<T(0)> {
    /** The block the wrapped pointer points to. */
    var cells: array<T>
    /** Whether `free` has been called on the block. */
    ghost var released: bool

    /** `CBox::new(size)`: a fresh block of `size` cells whose contents are unspecified. */
    constructor New(size: nat)
      ensures fresh(cells) && cells.Length == size && !released
    {
      cells := new T[size];
      released := false;
    }

    /** `CBox::from_raw` and `CBox::from_raw_mut`: take over a block that already exists. */
    constructor FromRaw(p: array<T>)
      ensures cells == p && !released
    {
      cells := p;
      released := false;
    }

    /** `get_raw` and `get_raw_mut`: the wrapped pointer. */
    function GetRaw(): array<T>
      reads this
    {
      cells
    }

    /** `Index::index`: read one cell of the block. */
    method Index(i: nat) returns (x: T)
      requires !released && i < cells.Length
      ensures x == cells[i]
    {
      x := cells[i];
    }

    /** `IndexMut::index_mut` followed by a store: only cell `i` changes, and it now holds `v`. */
    method IndexMut(i: nat, v: T)
      requires !released && i < cells.Length
      modifies cells
      ensures cells[..] == old(cells[..])[i := v]
    {
      cells[i] := v;
    }

    /** `Drop::drop`: the block is handed back to `free`, exactly once. */
    method Drop()
      requires !released
      modifies this
      ensures released && cells == old(cells)
    {
      released := true;
    }
  }

  /** The position of the first NUL in a buffer that holds one. */
  function FirstZero(buf: seq<CChar>): (k: nat)
    requires 0 in buf
    ensures k < |buf| && buf[k] == 0
    ensures forall j :: 0 <= j < k ==> buf[j] != 0
  {
    if buf[0] == 0 then 0 else 1 + FirstZero(buf[1..])
  }

  /** One character per `c_char`, through `c as u8 as char`. */
  function AsChars(cs: seq<CChar>): string
  {
    seq(|cs|, i requires 0 <= i < |cs| => U8AsChar(I8AsU8(cs[i])))
  }

  /** One character per byte, through `b as char`. */
  function BytesAsChars(bytes: seq<u8>): string
  {
    seq(|bytes|, i requires 0 <= i < |bytes| => U8AsChar(bytes[i]))
  }

  /** What `from_cstr` reads from a buffer: the characters of the cells before the first NUL. */
  function Decode(buf: seq<CChar>): string
    requires 0 in buf
  {
    AsChars(buf[..FirstZero(buf)])
  }

  /** What `to_cstr` writes for the bytes of a string: each byte as a `c_char`, then a NUL. */
  function Encode(bytes: seq<u8>): seq<CChar>
  {
    seq(|bytes|, i requires 0 <= i < |bytes| => U8AsI8(bytes[i])) + [0]
  }

  /** The bytes of a string all of whose characters are ASCII: its UTF-8 encoding. */
  function AsciiBytes(s: string): seq<u8>
    requires forall i :: 0 <= i < |s| ==> s[i] as int < 0x80
  {
    seq(|s|, i requires 0 <= i < |s| => s[i] as int as u8)
  }

  /**
   * `from_cstr`: read cells from the start of the block until the first NUL, one character per
   * cell. The loop never reads past that NUL.
   */
  method FromCStr(box: CBox<CChar>) returns (s: string)
    requires !box.released && 0 in box.cells[..]
    ensures s == Decode(box.cells[..])
    ensures |s| == FirstZero(box.cells[..])
  {
    ghost var stop := FirstZero(box.cells[..]);
    s := "";
    var pos := 0;
    var c := box.Index(pos);
    while c != 0
      invariant pos <= stop
      invariant forall j :: 0 <= j < pos ==> box.cells[j] != 0
      invariant c == box.cells[pos]
      invariant s == AsChars(box.cells[..pos])
      decreases stop - pos
    {
      s := s + [U8AsChar(I8AsU8(c))];
      pos := pos + 1;
      assert box.cells[..pos] == box.cells[..pos - 1] + [c];
      c := box.Index(pos);
    }
    assert box.cells[..pos] == box.cells[..][..stop];
  }

  /**
   * `to_cstr`: allocate `|bytes| + 1` cells, store each byte in turn, then a NUL at the end.
   * The caller owns the new block.
   */
  method ToCStr(bytes: seq<u8>) returns (box: CBox<CChar>)
    ensures fresh(box) && fresh(box.cells) && !box.released
    ensures box.cells.Length == |bytes| + 1
    ensures forall i :: 0 <= i < |bytes| ==> box.cells[i] == U8AsI8(bytes[i])
    ensures box.cells[|bytes|] == 0
    ensures box.cells[..] == Encode(bytes)
  {
    var raw := new CChar[|bytes| + 1];
    box := new CBox.FromRaw(raw);
    for pos := 0 to |bytes|
      invariant box.cells == raw && !box.released
      invariant forall j :: 0 <= j < pos ==> raw[j] == U8AsI8(bytes[j])
    {
      box.IndexMut(pos, U8AsI8(bytes[pos]));
    }
    box.IndexMut(|bytes|, 0);
  }

  /** With no NUL among the bytes, the terminator written by `to_cstr` is the first NUL. */
  lemma FirstZeroOfEncode(bytes: seq<u8>)
    requires 0 !in bytes
    ensures 0 in Encode(bytes) && FirstZero(Encode(bytes)) == |bytes|
  {
    var buf := Encode(bytes);
    assert buf[|bytes|] == 0;
    forall j | 0 <= j < |bytes|
      ensures buf[j] != 0
    {
      ZeroCasts(bytes[j], 0);
    }
  }

  /**
   * Round trip: decoding the encoding of NUL-free bytes gives one character per byte, each with
   * the byte's value as its code point.
   */
  lemma RoundTrip(bytes: seq<u8>)
    requires 0 !in bytes
    ensures Decode(Encode(bytes)) == BytesAsChars(bytes)
  {
    FirstZeroOfEncode(bytes);
    var buf := Encode(bytes);
    forall i | 0 <= i < |bytes|
      ensures Decode(buf)[i] == BytesAsChars(bytes)[i]
    {
      ByteCastsInverse(bytes[i], 0);
    }
  }

  /** Round trip for text: an ASCII string without NUL comes back unchanged. */
  lemma AsciiRoundTrip(s: string)
    requires forall i :: 0 <= i < |s| ==> 0 < s[i] as int < 0x80
    ensures Decode(Encode(AsciiBytes(s))) == s
  {
    var bytes := AsciiBytes(s);
    assert 0 !in bytes by {
      forall i | 0 <= i < |bytes| ensures bytes[i] != 0 { }
    }
    RoundTrip(bytes);
  }

  /**
   * The library's own check of `IndexMut`: after `to_cstr("Blah")` cell 0 is `B`; after storing
   * `c` there it no longer is.
   */
  method TestOnIndexMut() returns (before: CChar, after: CChar)
    ensures before == 'B' as int as CChar
    ensures after == 'c' as int as CChar && after != before
  {
    var box := ToCStr(AsciiBytes("Blah"));
    before := box.Index(0);
    box.IndexMut(0, 'c' as int as CChar);
    after := box.Index(0);
  }
}
