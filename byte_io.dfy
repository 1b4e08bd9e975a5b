/**
 * The byte layer of the patcher: the open executable as a random-access
 * byte file, the bounded read and write of a region of it, and the
 * little-endian 32-bit load and store used on instruction immediates.
 */
module ByteIO {

  /** An unsigned 8-bit value (`uint8_t`). */
  newtype Byte = b: int | 0 <= b < 256

  /** Size of the scratch buffer every read goes through. */
  const BUFFER_SZ := 1024

  const TWO_32 := 0x1_0000_0000
  const TWO_31 := 0x8000_0000

  /**
   * The open executable (`FILE *`, opened "r+b"). Its contents are the
   * whole file; reads and writes address it by absolute offset.
   */
  class BinaryFile {
    var contents: seq<Byte>

    constructor (initial: seq<Byte>)
      ensures contents == initial
    {
      contents := initial;
    }
  }

  function Zeros(n: nat): (z: seq<Byte>)
    ensures |z| == n
    ensures forall i | 0 <= i < n :: z[i] == 0
  {
    seq(n, _ => 0)
  }

  function Min(a: nat, b: nat): nat { if a <= b then a else b }

  function Max(a: nat, b: nat): nat { if a <= b then b else a }

  /**
   * What a read of `size` bytes at `offset` leaves in the buffer: the bytes
   * of the file that exist from `offset` on, then the zeros the buffer was
   * cleared to. Seeking past the end of the file succeeds and reads nothing.
   */
  function ReadRegion(file: seq<Byte>, offset: nat, size: nat): (r: seq<Byte>)
    ensures |r| == size
    ensures forall i | 0 <= i < size :: r[i] == if offset + i < |file| then file[offset + i] else 0
    ensures offset + size <= |file| ==> r == file[offset..offset + size]
  {
    if |file| <= offset then Zeros(size)
    else
      var avail := Min(size, |file| - offset);
      file[offset..offset + avail] + Zeros(size - avail)
  }

  /** A read succeeds exactly when all `size` bytes are there (an empty read always succeeds). */
  predicate ReadSucceeds(file: seq<Byte>, offset: nat, size: nat)
  {
    size == 0 || offset + size <= |file|
  }

  /**
   * The file after writing `data` at `offset`: the written range holds
   * `data`, a write past the end extends the file, and a gap between the
   * old end and `offset` reads as zeros. Writing no bytes leaves the file
   * as it is, wherever the offset lies.
   */
  function Overwrite(file: seq<Byte>, offset: nat, data: seq<Byte>): (r: seq<Byte>)
    ensures |r| == if |data| == 0 then |file| else Max(|file|, offset + |data|)
  {
    if |data| == 0 then file
    else if offset <= |file| then
      file[..offset] + data + (if offset + |data| < |file| then file[offset + |data|..] else [])
    else
      file + Zeros(offset - |file|) + data
  }

  /** A write of no bytes changes nothing, even at an offset past the end of the file. */
  lemma EmptyWriteKeepsFile(file: seq<Byte>, offset: nat)
    ensures Overwrite(file, offset, []) == file
  {
  }

  /** Byte by byte: the written range holds `data`, the rest of the old file is kept, the gap is zeros. */
  lemma OverwriteBytes(file: seq<Byte>, offset: nat, data: seq<Byte>)
    ensures var r := Overwrite(file, offset, data);
      forall i | 0 <= i < |r| ::
        r[i] == if offset <= i < offset + |data| then data[i - offset]
                else if i < |file| then file[i] else 0
  {
    var r := Overwrite(file, offset, data);
    if |data| == 0 {
      assert r == file;
    } else if offset <= |file| {
      var tail := if offset + |data| < |file| then file[offset + |data|..] else [];
      assert r == file[..offset] + data + tail;
      forall i | 0 <= i < |r|
        ensures r[i] == if offset <= i < offset + |data| then data[i - offset] else file[i]
      {
        if offset + |data| <= i {
          assert r[i] == tail[i - offset - |data|];
        }
      }
    } else {
      assert r == file + Zeros(offset - |file|) + data;
    }
  }

  /** A write that stays inside the file keeps its length and leaves `data` in the written range. */
  lemma OverwriteInside(file: seq<Byte>, offset: nat, data: seq<Byte>)
    requires offset + |data| <= |file|
    ensures |Overwrite(file, offset, data)| == |file|
    ensures Overwrite(file, offset, data)[offset..offset + |data|] == data
  {
    OverwriteBytes(file, offset, data);
    var r := Overwrite(file, offset, data);
    forall i | 0 <= i < |data| ensures r[offset..offset + |data|][i] == data[i] {
      assert r[offset + i] == data[i];
    }
  }

  /** A write leaves every range of the file it does not overlap as it was. */
  lemma OverwriteElsewhere(file: seq<Byte>, offset: nat, data: seq<Byte>, at: nat, n: nat)
    requires at + n <= |file|
    requires offset + |data| <= at || at + n <= offset
    ensures at + n <= |Overwrite(file, offset, data)|
    ensures Overwrite(file, offset, data)[at..at + n] == file[at..at + n]
  {
    OverwriteBytes(file, offset, data);
    var r := Overwrite(file, offset, data);
    forall i | at <= i < at + n ensures r[i] == file[i] {
    }
  }

  /** Writing the bytes a range already holds changes nothing. */
  lemma OverwriteUnchanged(file: seq<Byte>, offset: nat, data: seq<Byte>)
    requires offset + |data| <= |file| && file[offset..offset + |data|] == data
    ensures Overwrite(file, offset, data) == file
  {
    OverwriteBytes(file, offset, data);
    var r := Overwrite(file, offset, data);
    forall i | 0 <= i < |file| ensures r[i] == file[i] {
      if offset <= i < offset + |data| {
        assert file[offset..offset + |data|][i - offset] == file[i];
      }
    }
  }

  /** Writing back the bytes a write replaced undoes the write. */
  lemma OverwriteUndo(file: seq<Byte>, offset: nat, data: seq<Byte>)
    requires offset + |data| <= |file|
    ensures Overwrite(Overwrite(file, offset, data), offset, file[offset..offset + |data|]) == file
  {
    var once := Overwrite(file, offset, data);
    var back := Overwrite(once, offset, file[offset..offset + |data|]);
    OverwriteBytes(file, offset, data);
    OverwriteBytes(once, offset, file[offset..offset + |data|]);
    forall i | 0 <= i < |file| ensures back[i] == file[i] {
      if offset <= i < offset + |data| {
        assert file[offset..offset + |data|][i - offset] == file[i];
      }
    }
  }

  /** Reading back the range just written yields the written bytes, wherever the write landed. */
  lemma ReadBackWritten(file: seq<Byte>, offset: nat, data: seq<Byte>)
    ensures ReadSucceeds(Overwrite(file, offset, data), offset, |data|)
    ensures ReadRegion(Overwrite(file, offset, data), offset, |data|) == data
  {
    OverwriteBytes(file, offset, data);
    var r := Overwrite(file, offset, data);
    var back := ReadRegion(r, offset, |data|);
    forall i | 0 <= i < |data| ensures back[i] == data[i] {
      assert r[offset + i] == data[i];
    }
  }

  /** What a read of a range the write does not overlap yields is not changed by the write. */
  lemma ReadElsewhere(file: seq<Byte>, offset: nat, data: seq<Byte>, at: nat, n: nat)
    requires offset + |data| <= at || at + n <= offset
    ensures ReadRegion(Overwrite(file, offset, data), at, n) == ReadRegion(file, at, n)
  {
    OverwriteBytes(file, offset, data);
    var r := Overwrite(file, offset, data);
    var before, after := ReadRegion(file, at, n), ReadRegion(r, at, n);
    forall i | 0 <= i < n ensures after[i] == before[i] {
      if at + i < |r| {
        assert r[at + i] == if at + i < |file| then file[at + i] else 0;
      }
    }
  }

  /**
   * `read_buffer`: clears the first `size` bytes of the buffer, then reads
   * as many of the `size` bytes at `offset` as the file holds; reports
   * success only when all of them were read. The file is not changed.
   */
  method ReadBuffer(buffer: array<Byte>, f: BinaryFile, offset: nat, size: nat) returns (ok: bool)
    requires buffer.Length == BUFFER_SZ && size <= BUFFER_SZ
    modifies buffer
    ensures ok <==> ReadSucceeds(f.contents, offset, size)
    ensures buffer[..size] == ReadRegion(f.contents, offset, size)
    ensures buffer[size..] == old(buffer[size..])
  {
    var i := 0;
    while i < size
      invariant 0 <= i <= size
      invariant forall k | 0 <= k < i :: buffer[k] == 0
      invariant buffer[size..] == old(buffer[size..])
    {
      buffer[i] := 0;
      i := i + 1;
    }
    var n := 0;
    while n < size && offset + n < |f.contents|
      invariant 0 <= n <= size
      invariant n > 0 ==> offset + n <= |f.contents|
      invariant forall k | 0 <= k < n :: buffer[k] == f.contents[offset + k]
      invariant forall k | n <= k < size :: buffer[k] == 0
      invariant buffer[size..] == old(buffer[size..])
    {
      buffer[n] := f.contents[offset + n];
      n := n + 1;
    }
    ok := n == size;
    assert buffer[..size] == ReadRegion(f.contents, offset, size);
  }

  /**
   * `write_buffer`: writes the first `size` bytes of `data` at `offset`.
   * The write is modelled as always completing.
   */
  method WriteBuffer(data: seq<Byte>, f: BinaryFile, offset: nat, size: nat)
    requires size <= BUFFER_SZ && size <= |data|
    modifies f
    ensures f.contents == Overwrite(old(f.contents), offset, data[..size])
  {
    f.contents := Overwrite(f.contents, offset, data[..size]);
  }

  /** `RL32`: the unsigned little-endian 32-bit value of the first four bytes. */
  function RL32(p: seq<Byte>): (v: nat)
    requires |p| >= 4
    ensures v < TWO_32
  {
    (p[3] as int) * 0x100_0000 + (p[2] as int) * 0x1_0000 + (p[1] as int) * 0x100 + p[0] as int
  }

  /** The four bytes `WL32` stores for `v`: each is `v` shifted right and truncated to 8 bits. */
  function LE32(v: nat): (b: seq<Byte>)
    requires v < TWO_32
    ensures |b| == 4
  {
    [(v % 0x100) as Byte, (v / 0x100 % 0x100) as Byte,
     (v / 0x1_0000 % 0x100) as Byte, (v / 0x100_0000 % 0x100) as Byte]
  }

  /** Loading what was stored gives back the stored value. */
  lemma {:induction false} RL32OfLE32(v: nat)
    requires v < TWO_32
    ensures RL32(LE32(v)) == v
  {
    var q1, r0 := v / 0x100, v % 0x100;
    var q2, r1 := q1 / 0x100, q1 % 0x100;
    var q3, r2 := q2 / 0x100, q2 % 0x100;
    assert v == q1 * 0x100 + r0;
    assert q1 == q2 * 0x100 + r1;
    assert q2 == q3 * 0x100 + r2;
    assert v == q2 * 0x1_0000 + (r1 * 0x100 + r0);
    assert v / 0x1_0000 == q2;
    assert v == q3 * 0x100_0000 + (r2 * 0x1_0000 + r1 * 0x100 + r0);
    assert v / 0x100_0000 == q3;
    assert q3 < 0x100;
    assert LE32(v) == [r0 as Byte, r1 as Byte, r2 as Byte, q3 as Byte];
  }

  /** Storing what was loaded gives back the same four bytes. */
  lemma {:induction false} LE32OfRL32(p: seq<Byte>)
    requires |p| >= 4
    ensures LE32(RL32(p)) == p[..4]
  {
    var b0, b1, b2, b3 := p[0] as int, p[1] as int, p[2] as int, p[3] as int;
    var hi := b3 * 0x100 + b2;
    var mid := hi * 0x100 + b1;
    var v := mid * 0x100 + b0;
    assert v == RL32(p);
    DivMod256(mid, b0);
    DivMod256(hi, b1);
    DivMod256(b3, b2);
    assert v == hi * 0x1_0000 + (b1 * 0x100 + b0);
    assert v / 0x1_0000 == hi;
    assert v == b3 * 0x100_0000 + (b2 * 0x1_0000 + b1 * 0x100 + b0);
    assert v / 0x100_0000 == b3;
  }

  lemma DivMod256(a: nat, b: nat)
    requires b < 0x100
    ensures (a * 0x100 + b) / 0x100 == a && (a * 0x100 + b) % 0x100 == b
  {
  }

  /** `WL32`: stores `v` little-endian into `buffer[at..at + 4]`, most significant byte first. */
  method WL32(buffer: array<Byte>, at: nat, v: nat)
    requires at + 4 <= buffer.Length && v < TWO_32
    modifies buffer
    ensures buffer[..] == old(buffer[..at]) + LE32(v) + old(buffer[at + 4..])
  {
    buffer[at + 3] := (v / 0x100_0000 % 0x100) as Byte;
    buffer[at + 2] := (v / 0x1_0000 % 0x100) as Byte;
    buffer[at + 1] := (v / 0x100 % 0x100) as Byte;
    buffer[at] := (v % 0x100) as Byte;
  }

  /**
   * The `int` a `uint32_t` becomes when assigned to a 32-bit signed
   * variable: values of 2^31 and above wrap to negative numbers.
   */
  function AsInt32(v: nat): (r: int)
    requires v < TWO_32
    ensures -TWO_31 <= r < TWO_31
    ensures (r + TWO_32) % TWO_32 == v
    ensures r >= 0 <==> v < TWO_31
  {
    if v < TWO_31 then v else v - TWO_32
  }
}
