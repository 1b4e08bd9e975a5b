/**
 * The resolution table of X-Wing Alliance. Each of the four selectable
 * screen modes is set up by a 10-byte instruction pair at a fixed offset
 * of the executable: `mov eax, <width>` (opcode 0xb8 and a little-endian
 * 32-bit immediate) followed by `mov ecx, <height>` (opcode 0xb9 and its
 * immediate). Redirecting a mode rewrites the two immediates.
 */
module Resolution {
  import opened ByteIO

  /** The number of redirectable modes. */
  const NUM_RES := 4

  /** The length of one mode's instruction pair. */
  const SLOT_LEN := 10

  const MOV_EAX: Byte := 0xb8
  const MOV_ECX: Byte := 0xb9

  /** Where a mode's instruction pair lies, and the mode it originally sets up. */
  datatype ResDesc = ResDesc(offset: nat, width: nat, height: nat)

  const RESDES: seq<ResDesc> := [
    ResDesc(0x10a334, 800, 600),
    ResDesc(0x10a37c, 1152, 864),
    ResDesc(0x10a3bb, 1600, 1200),
    ResDesc(0x10a3dd, 640, 480)
  ]

  /**
   * What a mode is currently mapped to; a side whose opcode is not where it
   * is expected reads as -1.
   */
  datatype Mapping = Mapping(width: int, height: int)

  /**
   * Decodes an instruction pair. The immediates are 32-bit unsigned values
   * stored into `int`s, so values of 2^31 and above come out negative.
   */
  function DecodeSlot(b: seq<Byte>): (m: Mapping)
    requires |b| == SLOT_LEN
    ensures -TWO_31 <= m.width < TWO_31 && -TWO_31 <= m.height < TWO_31
    ensures b[0] != MOV_EAX ==> m.width == -1
    ensures b[5] != MOV_ECX ==> m.height == -1
  {
    Mapping(if b[0] == MOV_EAX then AsInt32(RL32(b[1..5])) else -1,
            if b[5] == MOV_ECX then AsInt32(RL32(b[6..10])) else -1)
  }

  /** The instruction pair that maps a mode to `w` x `h`. */
  function EncodeSlot(w: nat, h: nat): (b: seq<Byte>)
    requires w < TWO_32 && h < TWO_32
    ensures |b| == SLOT_LEN && b[0] == MOV_EAX && b[5] == MOV_ECX
  {
    [MOV_EAX] + LE32(w) + [MOV_ECX] + LE32(h)
  }

  /** Decoding an encoded pair gives back any width and height that fit a signed 32-bit value. */
  lemma DecodeEncode(w: nat, h: nat)
    requires w < TWO_31 && h < TWO_31
    ensures DecodeSlot(EncodeSlot(w, h)) == Mapping(w, h)
  {
    var b := EncodeSlot(w, h);
    assert b[1..5] == LE32(w) && b[6..10] == LE32(h);
    RL32OfLE32(w);
    RL32OfLE32(h);
  }

  /** A pair whose both sides were recognised is exactly the encoding of what it decodes to. */
  lemma EncodeDecode(b: seq<Byte>)
    requires |b| == SLOT_LEN
    requires DecodeSlot(b).width >= 0 && DecodeSlot(b).height >= 0
    ensures EncodeSlot(DecodeSlot(b).width, DecodeSlot(b).height) == b
  {
    var m := DecodeSlot(b);
    LE32OfRL32(b[1..5]);
    LE32OfRL32(b[6..10]);
    assert b[1..5][..4] == b[1..5] && b[6..10][..4] == b[6..10];
    assert b == [b[0]] + b[1..5] + [b[5]] + b[6..10];
  }

  /** What the tool reports mode `i` to be mapped to in the file. */
  function CurrentMapping(file: seq<Byte>, i: nat): Mapping
    requires i < NUM_RES
  {
    DecodeSlot(ReadRegion(file, RESDES[i].offset, SLOT_LEN))
  }

  /**
   * Reads the four instruction pairs. A read that comes up short is not an
   * error: the missing bytes read as zeros, so the side reads as -1.
   */
  method ReadResolutions(buffer: array<Byte>, f: BinaryFile) returns (res: seq<Mapping>)
    requires buffer.Length == BUFFER_SZ
    modifies buffer
    ensures |res| == NUM_RES
    ensures forall i | 0 <= i < NUM_RES :: res[i] == CurrentMapping(f.contents, i)
  {
    res := [];
    var i := 0;
    while i < NUM_RES
      invariant 0 <= i <= NUM_RES && |res| == i
      invariant forall j | 0 <= j < i :: res[j] == CurrentMapping(f.contents, j)
    {
      var _ := ReadBuffer(buffer, f, RESDES[i].offset, SLOT_LEN);
      var width, height := -1, -1;
      if buffer[0] == MOV_EAX {
        width := AsInt32(RL32(buffer[1..5]));
      }
      if buffer[5] == MOV_ECX {
        height := AsInt32(RL32(buffer[6..10]));
      }
      assert buffer[..SLOT_LEN][1..5] == buffer[1..5] && buffer[..SLOT_LEN][6..10] == buffer[6..10];
      res := res + [Mapping(width, height)];
      i := i + 1;
    }
  }

  /**
   * Redirects mode `num` to `w` x `h`. The arguments are the parsed command
   * line values, -1 standing for one that did not parse or was out of
   * range. Nothing is written when an argument is invalid or when the
   * current mapping of the mode was not recognised; otherwise the mode's
   * instruction pair is rewritten from the scratch buffer.
   */
  method SetResolution(buffer: array<Byte>, f: BinaryFile, res: seq<Mapping>, num: int, w: int, h: int)
    returns (ok: bool)
    requires buffer.Length == BUFFER_SZ && |res| == NUM_RES
    requires -1 <= num < NUM_RES && -1 <= w < 10000 && -1 <= h < 10000
    modifies buffer, f
    ensures ok <==> num >= 0 && w >= 0 && h >= 0 && res[num].width >= 0 && res[num].height >= 0
    ensures ok ==> f.contents == Overwrite(old(f.contents), RESDES[num].offset, EncodeSlot(w, h))
    ensures !ok ==> f.contents == old(f.contents)
  {
    if num < 0 || w < 0 || h < 0 {
      return false;
    }
    if res[num].width < 0 || res[num].height < 0 {
      return false;
    }
    buffer[0] := MOV_EAX;
    buffer[5] := MOV_ECX;
    WL32(buffer, 1, w);
    WL32(buffer, 6, h);
    assert buffer[..SLOT_LEN] == EncodeSlot(w, h);
    WriteBuffer(buffer[..], f, RESDES[num].offset, SLOT_LEN);
    return true;
  }

  /**
   * The `-r <n> <w> <h>` path of the tool: the four modes are read from the
   * file first, then mode `num` is redirected. The redirect is refused,
   * with the file left alone, exactly when an argument is invalid or a
   * side of the mode as read from the file was not recognised.
   */
  method Redirect(buffer: array<Byte>, f: BinaryFile, num: int, w: int, h: int) returns (ok: bool)
    requires buffer.Length == BUFFER_SZ
    requires -1 <= num < NUM_RES && -1 <= w < 10000 && -1 <= h < 10000
    modifies buffer, f
    ensures ok <==> (num >= 0 && w >= 0 && h >= 0 &&
                     CurrentMapping(old(f.contents), num).width >= 0 && CurrentMapping(old(f.contents), num).height >= 0)
    ensures ok ==> f.contents == Overwrite(old(f.contents), RESDES[num].offset, EncodeSlot(w, h))
    ensures !ok ==> f.contents == old(f.contents)
  {
    var res := ReadResolutions(buffer, f);
    ok := SetResolution(buffer, f, res, num, w, h);
  }

  /** The instruction pairs of different modes do not overlap. */
  lemma SlotsDisjoint(i: nat, j: nat)
    requires i < NUM_RES && j < NUM_RES && i != j
    ensures RESDES[i].offset + SLOT_LEN <= RESDES[j].offset || RESDES[j].offset + SLOT_LEN <= RESDES[i].offset
  {
  }

  /** After a redirect, the mode reads back as the new width and height. */
  lemma SetThenRead(file: seq<Byte>, num: nat, w: nat, h: nat)
    requires num < NUM_RES && w < 10000 && h < 10000
    ensures CurrentMapping(Overwrite(file, RESDES[num].offset, EncodeSlot(w, h)), num) == Mapping(w, h)
  {
    ReadBackWritten(file, RESDES[num].offset, EncodeSlot(w, h));
    DecodeEncode(w, h);
  }

  /** A redirect leaves what every other mode reads as unchanged. */
  lemma SetKeepsOthers(file: seq<Byte>, num: nat, w: nat, h: nat, j: nat)
    requires num < NUM_RES && j < NUM_RES && num != j && w < 10000 && h < 10000
    ensures CurrentMapping(Overwrite(file, RESDES[num].offset, EncodeSlot(w, h)), j) == CurrentMapping(file, j)
  {
    SlotsDisjoint(num, j);
    ReadElsewhere(file, RESDES[num].offset, EncodeSlot(w, h), RESDES[j].offset, SLOT_LEN);
  }
}
