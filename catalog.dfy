/**
 * The static patch catalog: every known patch (an offset, a length, whether
 * it is the unmodified original, and its bytes), the patch groups of each
 * supported executable (the alternative states of one code location), the
 * named collections, and the table of supported executables. All of it is
 * constant; the lemmas at the end establish, by evaluating the tables, the
 * table invariants the engine relies on.
 */
module Catalog {
  import opened Wrappers
  import opened ByteIO

  const NUM_PATCHES := 57

  /** A patch number (`enum PATCHES` without its NO_PATCH sentinel). */
  type PatchId = p: int | 0 <= p < NUM_PATCHES

  const PATCH_16BIT_FB: PatchId := 0
  const PATCH_32BIT_FB: PatchId := 1
  const PATCH_ZDEPTH_AUTO: PatchId := 2
  const PATCH_ZDEPTH_16: PatchId := 3
  const PATCH_ZDEPTH_24: PatchId := 4
  const PATCH_ZDEPTH_32: PatchId := 5
  const PATCH_BLT_CLEAR: PatchId := 6
  const PATCH_CLEAR2: PatchId := 7
  const PATCH_CLEAR_Z_16: PatchId := 8
  const PATCH_CLEAR_Z_24: PatchId := 9
  const PATCH_CLEAR_Z_32: PatchId := 10
  const PATCH_CLEAR_Z_F: PatchId := 11
  const PATCH_STARS_ON: PatchId := 12
  const PATCH_STARS_OFF: PatchId := 13
  const PATCH_STAR_16_1: PatchId := 14
  const PATCH_STAR_32_1: PatchId := 15
  const PATCH_STAR_32_1_2: PatchId := 16
  const PATCH_STAR_16_2: PatchId := 17
  const PATCH_STAR_32_2: PatchId := 18
  const PATCH_STAR_16_3: PatchId := 19
  const PATCH_STAR_32_3: PatchId := 20
  const PATCH_STAR_16_4: PatchId := 21
  const PATCH_STAR_32_4: PatchId := 22
  const PATCH_STAR_16_5: PatchId := 23
  const PATCH_STAR_32_5: PatchId := 24
  const PATCH_STAR_16_6: PatchId := 25
  const PATCH_STAR_32_6: PatchId := 26
  const PATCH_STAR_16_7: PatchId := 27
  const PATCH_STAR_32_7: PatchId := 28
  const PATCH_STAR_16_8: PatchId := 29
  const PATCH_STAR_32_8: PatchId := 30
  const PATCH_STAR_16_9: PatchId := 31
  const PATCH_STAR_32_9: PatchId := 32
  const PATCH_STAR_16_10: PatchId := 33
  const PATCH_STAR_32_10: PatchId := 34
  const PATCH_STAR_16_11: PatchId := 35
  const PATCH_STAR_32_11: PatchId := 36
  const PATCH_STAR_16_12: PatchId := 37
  const PATCH_STAR_32_12: PatchId := 38
  const PATCH_STAR_16_13: PatchId := 39
  const PATCH_STAR_32_13: PatchId := 40
  const PATCH_CD_CHECK: PatchId := 41
  const PATCH_NO_CD_CHECK: PatchId := 42
  const PATCH_CD_VOICE: PatchId := 43
  const PATCH_HD_VOICE: PatchId := 44
  const PATCH_SELECT_RES: PatchId := 45
  const PATCH_FORCE_RES: PatchId := 46
  const PATCH_PRTSCR_8_1: PatchId := 47
  const PATCH_PRTSCR_32_1: PatchId := 48
  const PATCH_PRTSCR_8_2: PatchId := 49
  const PATCH_PRTSCR_32_2: PatchId := 50
  const PATCH_TIE95_BLT_CLEAR: PatchId := 51
  const PATCH_TIE95_CLEAR2: PatchId := 52
  const PATCH_XWING95_BLT_CLEAR: PatchId := 53
  const PATCH_XWING95_CLEAR2: PatchId := 54
  const PATCH_XVTBOP_BLT_CLEAR: PatchId := 55
  const PATCH_XVTBOP_CLEAR2: PatchId := 56

  // The descriptor table `patchdescs`, one column per field: a patch writes
  // `Len(p)` bytes `Value(p)` at absolute file offset `Offset(p)`. Each column
  // is a decision tree over the patch number, so a lookup takes a handful of
  // comparisons.

  /** The file offset a patch starts at (`patchdescs[p].offset`). */
  function Offset(p: PatchId): nat
  {
    if p < PATCH_STAR_16_8 then
      if p < PATCH_STAR_32_1 then
        if p < PATCH_CLEAR_Z_16 then
          if p < PATCH_ZDEPTH_24 then
            if p == PATCH_16BIT_FB then 0x1a90a4
            else if p == PATCH_32BIT_FB then 0x1a90a4
            else if p == PATCH_ZDEPTH_AUTO then 0x19833c
            else 0x19833c // PATCH_ZDEPTH_16
          else
            if p == PATCH_ZDEPTH_24 then 0x19833c
            else if p == PATCH_ZDEPTH_32 then 0x19833c
            else if p == PATCH_BLT_CLEAR then 0x197410
            else 0x197410 // PATCH_CLEAR2
        else
          if p < PATCH_STARS_ON then
            if p == PATCH_CLEAR_Z_16 then 0x1973ce
            else if p == PATCH_CLEAR_Z_24 then 0x1973ce
            else if p == PATCH_CLEAR_Z_32 then 0x1973ce
            else 0x1973ce // PATCH_CLEAR_Z_F
          else
            if p == PATCH_STARS_ON then 0x10c8b7
            else if p == PATCH_STARS_OFF then 0x10c8b7
            else 0x0dc86b // PATCH_STAR_16_1
      else
        if p < PATCH_STAR_32_4 then
          if p < PATCH_STAR_16_3 then
            if p == PATCH_STAR_32_1 then 0x0dc86b
            else if p == PATCH_STAR_32_1_2 then 0x0dc86b
            else if p == PATCH_STAR_16_2 then 0x0dd14c
            else 0x0dd14c // PATCH_STAR_32_2
          else
            if p == PATCH_STAR_16_3 then 0x0dd176
            else if p == PATCH_STAR_32_3 then 0x0dd176
            else 0x0dd2b3 // PATCH_STAR_16_4
        else
          if p < PATCH_STAR_32_6 then
            if p == PATCH_STAR_32_4 then 0x0dd2b3
            else if p == PATCH_STAR_16_5 then 0x0dd2dd
            else if p == PATCH_STAR_32_5 then 0x0dd2dd
            else 0x0dd4c0 // PATCH_STAR_16_6
          else
            if p == PATCH_STAR_32_6 then 0x0dd4c0
            else if p == PATCH_STAR_16_7 then 0x0dd4ea
            else 0x0dd4ea // PATCH_STAR_32_7
    else
      if p < PATCH_CD_VOICE then
        if p < PATCH_STAR_32_11 then
          if p < PATCH_STAR_16_10 then
            if p == PATCH_STAR_16_8 then 0x0dd5d8
            else if p == PATCH_STAR_32_8 then 0x0dd5d8
            else if p == PATCH_STAR_16_9 then 0x0dd607
            else 0x0dd607 // PATCH_STAR_32_9
          else
            if p == PATCH_STAR_16_10 then 0x0dd636
            else if p == PATCH_STAR_32_10 then 0x0dd636
            else 0x0dd65b // PATCH_STAR_16_11
        else
          if p < PATCH_STAR_32_13 then
            if p == PATCH_STAR_32_11 then 0x0dd65b
            else if p == PATCH_STAR_16_12 then 0x0dd67b
            else if p == PATCH_STAR_32_12 then 0x0dd67b
            else 0x0dd653 // PATCH_STAR_16_13
          else
            if p == PATCH_STAR_32_13 then 0x0dd653
            else if p == PATCH_CD_CHECK then 0x12a3e5
            else 0x12a3e5 // PATCH_NO_CD_CHECK
      else
        if p < PATCH_PRTSCR_32_2 then
          if p < PATCH_PRTSCR_8_1 then
            if p == PATCH_CD_VOICE then 0x15772e
            else if p == PATCH_HD_VOICE then 0x15772e
            else if p == PATCH_SELECT_RES then 0x10a327
            else 0x10a327 // PATCH_FORCE_RES
          else
            if p == PATCH_PRTSCR_8_1 then 0x136a42
            else if p == PATCH_PRTSCR_32_1 then 0x136a42
            else 0x136bd3 // PATCH_PRTSCR_8_2
        else
          if p < PATCH_XWING95_CLEAR2 then
            if p == PATCH_PRTSCR_32_2 then 0x136bd3
            else if p == PATCH_TIE95_BLT_CLEAR then 0x0c76b8
            else if p == PATCH_TIE95_CLEAR2 then 0x0c76b8
            else 0x0b318b // PATCH_XWING95_BLT_CLEAR
          else
            if p == PATCH_XWING95_CLEAR2 then 0x0b318b
            else if p == PATCH_XVTBOP_BLT_CLEAR then 0x0b5e2b
            else 0x0b5e2b // PATCH_XVTBOP_CLEAR2
  }

  /** The number of bytes a patch covers (`patchdescs[p].len`). */
  function Len(p: PatchId): nat
  {
    if p < PATCH_STAR_16_8 then
      if p < PATCH_STAR_32_1 then
        if p < PATCH_CLEAR_Z_16 then
          if p < PATCH_ZDEPTH_24 then
            if p == PATCH_16BIT_FB then 16
            else if p == PATCH_32BIT_FB then 16
            else if p == PATCH_ZDEPTH_AUTO then 12
            else 12 // PATCH_ZDEPTH_16
          else
            if p == PATCH_ZDEPTH_24 then 12
            else if p == PATCH_ZDEPTH_32 then 12
            else if p == PATCH_BLT_CLEAR then 31
            else 31 // PATCH_CLEAR2
        else
          if p < PATCH_STARS_ON then
            if p == PATCH_CLEAR_Z_16 then 7
            else if p == PATCH_CLEAR_Z_24 then 7
            else if p == PATCH_CLEAR_Z_32 then 7
            else 7 // PATCH_CLEAR_Z_F
          else
            if p == PATCH_STARS_ON then 18
            else if p == PATCH_STARS_OFF then 18
            else 21 // PATCH_STAR_16_1
      else
        if p < PATCH_STAR_32_4 then
          if p < PATCH_STAR_16_3 then
            if p == PATCH_STAR_32_1 then 21
            else if p == PATCH_STAR_32_1_2 then 21
            else if p == PATCH_STAR_16_2 then 5
            else 5 // PATCH_STAR_32_2
          else
            if p == PATCH_STAR_16_3 then 51
            else if p == PATCH_STAR_32_3 then 51
            else 5 // PATCH_STAR_16_4
        else
          if p < PATCH_STAR_32_6 then
            if p == PATCH_STAR_32_4 then 5
            else if p == PATCH_STAR_16_5 then 51
            else if p == PATCH_STAR_32_5 then 51
            else 5 // PATCH_STAR_16_6
          else
            if p == PATCH_STAR_32_6 then 5
            else if p == PATCH_STAR_16_7 then 51
            else 51 // PATCH_STAR_32_7
    else
      if p < PATCH_CD_VOICE then
        if p < PATCH_STAR_32_11 then
          if p < PATCH_STAR_16_10 then
            if p == PATCH_STAR_16_8 then 13
            else if p == PATCH_STAR_32_8 then 13
            else if p == PATCH_STAR_16_9 then 26
            else 26 // PATCH_STAR_32_9
          else
            if p == PATCH_STAR_16_10 then 23
            else if p == PATCH_STAR_32_10 then 23
            else 11 // PATCH_STAR_16_11
        else
          if p < PATCH_STAR_32_13 then
            if p == PATCH_STAR_32_11 then 11
            else if p == PATCH_STAR_16_12 then 8
            else if p == PATCH_STAR_32_12 then 8
            else 4 // PATCH_STAR_16_13
          else
            if p == PATCH_STAR_32_13 then 4
            else if p == PATCH_CD_CHECK then 11
            else 11 // PATCH_NO_CD_CHECK
      else
        if p < PATCH_PRTSCR_32_2 then
          if p < PATCH_PRTSCR_8_1 then
            if p == PATCH_CD_VOICE then 4
            else if p == PATCH_HD_VOICE then 4
            else if p == PATCH_SELECT_RES then 13
            else 13 // PATCH_FORCE_RES
          else
            if p == PATCH_PRTSCR_8_1 then 3
            else if p == PATCH_PRTSCR_32_1 then 3
            else 32 // PATCH_PRTSCR_8_2
        else
          if p < PATCH_XWING95_CLEAR2 then
            if p == PATCH_PRTSCR_32_2 then 32
            else if p == PATCH_TIE95_BLT_CLEAR then 30
            else if p == PATCH_TIE95_CLEAR2 then 30
            else 31 // PATCH_XWING95_BLT_CLEAR
          else
            if p == PATCH_XWING95_CLEAR2 then 31
            else if p == PATCH_XVTBOP_BLT_CLEAR then 28
            else 28 // PATCH_XVTBOP_CLEAR2
  }

  /** Whether a patch is the unmodified code (`patchdescs[p].original`). */
  function IsOriginal(p: PatchId): bool
  {
    if p < PATCH_STAR_16_8 then
      if p < PATCH_STAR_32_1 then
        if p < PATCH_CLEAR_Z_16 then
          if p < PATCH_ZDEPTH_24 then
            if p == PATCH_16BIT_FB then true
            else if p == PATCH_32BIT_FB then false
            else if p == PATCH_ZDEPTH_AUTO then true
            else false // PATCH_ZDEPTH_16
          else
            if p == PATCH_ZDEPTH_24 then false
            else if p == PATCH_ZDEPTH_32 then false
            else if p == PATCH_BLT_CLEAR then true
            else false // PATCH_CLEAR2
        else
          if p < PATCH_STARS_ON then
            if p == PATCH_CLEAR_Z_16 then true
            else if p == PATCH_CLEAR_Z_24 then false
            else if p == PATCH_CLEAR_Z_32 then false
            else false // PATCH_CLEAR_Z_F
          else
            if p == PATCH_STARS_ON then true
            else if p == PATCH_STARS_OFF then false
            else true // PATCH_STAR_16_1
      else
        if p < PATCH_STAR_32_4 then
          if p < PATCH_STAR_16_3 then
            if p == PATCH_STAR_32_1 then false
            else if p == PATCH_STAR_32_1_2 then false
            else if p == PATCH_STAR_16_2 then true
            else false // PATCH_STAR_32_2
          else
            if p == PATCH_STAR_16_3 then true
            else if p == PATCH_STAR_32_3 then false
            else true // PATCH_STAR_16_4
        else
          if p < PATCH_STAR_32_6 then
            if p == PATCH_STAR_32_4 then false
            else if p == PATCH_STAR_16_5 then true
            else if p == PATCH_STAR_32_5 then false
            else true // PATCH_STAR_16_6
          else
            if p == PATCH_STAR_32_6 then false
            else if p == PATCH_STAR_16_7 then true
            else false // PATCH_STAR_32_7
    else
      if p < PATCH_CD_VOICE then
        if p < PATCH_STAR_32_11 then
          if p < PATCH_STAR_16_10 then
            if p == PATCH_STAR_16_8 then true
            else if p == PATCH_STAR_32_8 then false
            else if p == PATCH_STAR_16_9 then true
            else false // PATCH_STAR_32_9
          else
            if p == PATCH_STAR_16_10 then true
            else if p == PATCH_STAR_32_10 then false
            else true // PATCH_STAR_16_11
        else
          if p < PATCH_STAR_32_13 then
            if p == PATCH_STAR_32_11 then false
            else if p == PATCH_STAR_16_12 then true
            else if p == PATCH_STAR_32_12 then false
            else true // PATCH_STAR_16_13
          else
            if p == PATCH_STAR_32_13 then false
            else if p == PATCH_CD_CHECK then true
            else false // PATCH_NO_CD_CHECK
      else
        if p < PATCH_PRTSCR_32_2 then
          if p < PATCH_PRTSCR_8_1 then
            if p == PATCH_CD_VOICE then true
            else if p == PATCH_HD_VOICE then false
            else if p == PATCH_SELECT_RES then true
            else false // PATCH_FORCE_RES
          else
            if p == PATCH_PRTSCR_8_1 then true
            else if p == PATCH_PRTSCR_32_1 then false
            else true // PATCH_PRTSCR_8_2
        else
          if p < PATCH_XWING95_CLEAR2 then
            if p == PATCH_PRTSCR_32_2 then false
            else if p == PATCH_TIE95_BLT_CLEAR then true
            else if p == PATCH_TIE95_CLEAR2 then false
            else true // PATCH_XWING95_BLT_CLEAR
          else
            if p == PATCH_XWING95_CLEAR2 then false
            else if p == PATCH_XVTBOP_BLT_CLEAR then true
            else false // PATCH_XVTBOP_CLEAR2
  }

  const BYTES_16BIT_FB: seq<Byte> := [
    0x00, 0x00, 0xf0, 0x3e, 0x01, 0x00, 0x00, 0x00,
    0x02, 0x00, 0x00, 0x00, 0x00, 0x00, 0x80, 0x3f]
  const BYTES_32BIT_FB: seq<Byte> := [
    0x00, 0x00, 0xf0, 0x3e, 0x01, 0x00, 0x00, 0x00,
    0x04, 0x00, 0x00, 0x00, 0x00, 0x00, 0x80, 0x3f]
  const BYTES_ZDEPTH_AUTO: seq<Byte> := [
    0x74, 0x0f, 0x8b, 0x15, 0x30, 0x1d, 0x7b, 0x00,
    0xc7, 0x42, 0x20, 0x20]
  const BYTES_ZDEPTH_16: seq<Byte> := [
    0x90, 0x90, 0x8b, 0x15, 0x30, 0x1d, 0x7b, 0x00,
    0xc7, 0x42, 0x20, 0x10]
  const BYTES_ZDEPTH_24: seq<Byte> := [
    0x90, 0x90, 0x8b, 0x15, 0x30, 0x1d, 0x7b, 0x00,
    0xc7, 0x42, 0x20, 0x18]
  const BYTES_ZDEPTH_32: seq<Byte> := [
    0x90, 0x90, 0x8b, 0x15, 0x30, 0x1d, 0x7b, 0x00,
    0xc7, 0x42, 0x20, 0x20]
  const BYTES_BLT_CLEAR: seq<Byte> := [
    0x50, 0x68, 0x00, 0x00, 0x00, 0x03, 0x6a, 0x00,
    0x6a, 0x00, 0x8d, 0x4d, 0x88, 0x51, 0x8b, 0x15,
    0xa4, 0xe7, 0xb0, 0x00, 0x52, 0xa1, 0xa4, 0xe7,
    0xb0, 0x00, 0x8b, 0x08, 0xff, 0x51, 0x14]
  const BYTES_CLEAR2: seq<Byte> := [
    0x90, 0x6a, 0x00, 0xff, 0x75, 0xec, 0x6a, 0x00,
    0x6a, 0x02, 0x8d, 0x4d, 0x88, 0x51, 0x90, 0x90,
    0x90, 0x90, 0x6a, 0x01, 0xa1, 0xbc, 0x15, 0x7b,
    0x00, 0x50, 0x8b, 0x08, 0xff, 0x51, 0x50]
  const BYTES_CLEAR_Z_16: seq<Byte> := [
    0xc7, 0x45, 0xec, 0xff, 0xff, 0x00, 0x00]
  const BYTES_CLEAR_Z_24: seq<Byte> := [
    0xc7, 0x45, 0xec, 0xff, 0xff, 0xff, 0x00]
  const BYTES_CLEAR_Z_32: seq<Byte> := [
    0xc7, 0x45, 0xec, 0xff, 0xff, 0xff, 0xff]
  const BYTES_CLEAR_Z_F: seq<Byte> := [
    0xc7, 0x45, 0xec, 0x00, 0x00, 0x80, 0x3f]
  const BYTES_STARS_ON: seq<Byte> := [
    0xa1, 0x48, 0x33, 0x77, 0x00, 0x6a, 0x00, 0x8d,
    0x4c, 0x24, 0x10, 0x6a, 0x00, 0x8b, 0x10, 0x51,
    0x6a, 0x00]
  const BYTES_STARS_OFF: seq<Byte> := [
    0xa1, 0x48, 0x33, 0x77, 0x00, 0x6a, 0x00, 0x8d,
    0x4c, 0x24, 0x10, 0x6a, 0x10, 0x8b, 0x10, 0x51,
    0x6a, 0x00]
  const BYTES_STAR_16_1: seq<Byte> := [
    0x74, 0x15, 0x66, 0xb8, 0x21, 0x04, 0x66, 0xc7,
    0x05, 0xdc, 0x1d, 0x76, 0x00, 0x00, 0x7c, 0x66,
    0xa3, 0xd8, 0x1d, 0x76, 0x00]
  const BYTES_STAR_32_1: seq<Byte> := [
    0x90, 0xb8, 0x08, 0x08, 0x08, 0x00, 0x66, 0xc7,
    0x05, 0xdc, 0x1d, 0x76, 0x00, 0x00, 0xff, 0x90,
    0xa3, 0xd8, 0x1d, 0x76, 0x00]
  const BYTES_STAR_32_1_2: seq<Byte> := [
    0x90, 0xb8, 0x08, 0x08, 0x08, 0x00, 0x66, 0xc7,
    0x05, 0xdc, 0x1d, 0x76, 0x00, 0x00, 0xf8, 0x90,
    0xa3, 0xd8, 0x1d, 0x76, 0x00]
  const BYTES_STAR_16_2: seq<Byte> := [
    0x03, 0xcf, 0x8d, 0x04, 0x41]
  const BYTES_STAR_32_2: seq<Byte> := [
    0x03, 0xcf, 0x8d, 0x04, 0x81]
  const BYTES_STAR_16_3: seq<Byte> := [
    0x33, 0xc9, 0x8a, 0x8e, 0xd8, 0x6b, 0x75, 0x00,
    0x8b, 0x0c, 0x8f, 0x33, 0xff, 0x66, 0x8b, 0x3c,
    0x75, 0xd8, 0xd5, 0x74, 0x00, 0x8b, 0x69, 0x08,
    0x8b, 0x49, 0x04, 0x03, 0xfd, 0x66, 0x8b, 0x0c,
    0x79, 0x66, 0x8b, 0x3c, 0x75, 0xd8, 0x75, 0x75,
    0x00, 0x51, 0x50, 0x66, 0x03, 0xf9, 0x52, 0x56,
    0x66, 0x89, 0x38]
  const BYTES_STAR_32_3: seq<Byte> := [
    0x0f, 0xb6, 0x8e, 0xd8, 0x6b, 0x75, 0x00, 0x8b,
    0x0c, 0x8f, 0x0f, 0xb7, 0xbc, 0x36, 0xd8, 0xd5,
    0x74, 0x00, 0x8b, 0x69, 0x08, 0x8b, 0x49, 0x04,
    0x03, 0xfd, 0x66, 0x8b, 0x0c, 0x79, 0x66, 0x8b,
    0x3c, 0x75, 0xd8, 0x75, 0x75, 0x00, 0x51, 0x50,
    0x03, 0xf9, 0x52, 0x56, 0x66, 0x89, 0x38, 0x66,
    0x89, 0x78, 0x02]
  const BYTES_STAR_16_4: seq<Byte> := [
    0x03, 0xce, 0x8d, 0x04, 0x41]
  const BYTES_STAR_32_4: seq<Byte> := [
    0x03, 0xce, 0x8d, 0x04, 0x81]
  const BYTES_STAR_16_5: seq<Byte> := [
    0x33, 0xc9, 0x8a, 0x8d, 0xd8, 0x6b, 0x75, 0x00,
    0x8b, 0x0c, 0x8e, 0x33, 0xf6, 0x66, 0x8b, 0x34,
    0x6d, 0xd8, 0xd5, 0x74, 0x00, 0x8b, 0x59, 0x08,
    0x8b, 0x49, 0x04, 0x03, 0xf3, 0x66, 0x8b, 0x0c,
    0x71, 0x66, 0x8b, 0x34, 0x6d, 0xd8, 0x75, 0x75,
    0x00, 0x51, 0x50, 0x66, 0x03, 0xf1, 0x52, 0x55,
    0x66, 0x89, 0x30]
  const BYTES_STAR_32_5: seq<Byte> := [
    0x0f, 0xb6, 0x8d, 0xd8, 0x6b, 0x75, 0x00, 0x8b,
    0x0c, 0x8e, 0x0f, 0xb7, 0xb4, 0x2d, 0xd8, 0xd5,
    0x74, 0x00, 0x8b, 0x59, 0x08, 0x8b, 0x49, 0x04,
    0x03, 0xf3, 0x66, 0x8b, 0x0c, 0x71, 0x66, 0x8b,
    0x34, 0x6d, 0xd8, 0x75, 0x75, 0x00, 0x51, 0x50,
    0x03, 0xf1, 0x52, 0x55, 0x66, 0x89, 0x30, 0x66,
    0x89, 0x70, 0x02]
  const BYTES_STAR_16_6: seq<Byte> := [
    0x03, 0xcf, 0x8d, 0x04, 0x41]
  const BYTES_STAR_32_6: seq<Byte> := [
    0x03, 0xcf, 0x8d, 0x04, 0x81]
  const BYTES_STAR_16_7: seq<Byte> := [
    0x33, 0xc9, 0x8a, 0x8e, 0xd8, 0x6b, 0x75, 0x00,
    0x8b, 0x0c, 0x8f, 0x33, 0xff, 0x66, 0x8b, 0x3c,
    0x75, 0xd8, 0xd5, 0x74, 0x00, 0x8b, 0x69, 0x08,
    0x8b, 0x49, 0x04, 0x03, 0xfd, 0x66, 0x8b, 0x0c,
    0x79, 0x66, 0x8b, 0x3c, 0x75, 0xd8, 0x75, 0x75,
    0x00, 0x51, 0x50, 0x66, 0x03, 0xf9, 0x52, 0x56,
    0x66, 0x89, 0x38]
  const BYTES_STAR_32_7: seq<Byte> := [
    0x0f, 0xb6, 0x8e, 0xd8, 0x6b, 0x75, 0x00, 0x8b,
    0x0c, 0x8f, 0x0f, 0xb7, 0xbc, 0x36, 0xd8, 0xd5,
    0x74, 0x00, 0x8b, 0x69, 0x08, 0x8b, 0x49, 0x04,
    0x03, 0xfd, 0x66, 0x8b, 0x0c, 0x79, 0x66, 0x8b,
    0x3c, 0x75, 0xd8, 0x75, 0x75, 0x00, 0x51, 0x50,
    0x03, 0xf9, 0x52, 0x56, 0x66, 0x89, 0x38, 0x66,
    0x89, 0x78, 0x02]
  const BYTES_STAR_16_8: seq<Byte> := [
    0x66, 0x89, 0x41, 0x02, 0x66, 0x85, 0xd2, 0x76,
    0x04, 0x66, 0x89, 0x41, 0xfe]
  const BYTES_STAR_32_8: seq<Byte> := [
    0x90, 0x89, 0x41, 0x04, 0x66, 0x85, 0xd2, 0x76,
    0x04, 0x90, 0x89, 0x41, 0xfc]
  const BYTES_STAR_16_9: seq<Byte> := [
    0xd1, 0xee, 0x66, 0x89, 0x04, 0x71, 0x66, 0x85,
    0xd2, 0x76, 0x72, 0x8b, 0x15, 0x58, 0xdc, 0x80,
    0x00, 0xd1, 0xfa, 0xd1, 0xe2, 0x2b, 0xca, 0x66,
    0x89, 0x01]
  const BYTES_STAR_32_9: seq<Byte> := [
    0x83, 0xe6, 0xfc, 0x89, 0x04, 0x31, 0x66, 0x85,
    0xd2, 0x76, 0x72, 0x8b, 0x15, 0x58, 0xdc, 0x80,
    0x00, 0x83, 0xe2, 0xfc, 0x90, 0x2b, 0xca, 0x90,
    0x89, 0x01]
  const BYTES_STAR_16_10: seq<Byte> := [
    0x66, 0x89, 0x41, 0xfe, 0x76, 0x48, 0x8b, 0x15,
    0x58, 0xdc, 0x80, 0x00, 0x8b, 0xf1, 0xd1, 0xfa,
    0xd1, 0xe2, 0x2b, 0xf2, 0x66, 0x89, 0x06]
  const BYTES_STAR_32_10: seq<Byte> := [
    0x90, 0x89, 0x41, 0xfc, 0x76, 0x48, 0x8b, 0x15,
    0x58, 0xdc, 0x80, 0x00, 0x8b, 0xf1, 0x83, 0xe2,
    0xfc, 0x90, 0x2b, 0xf2, 0x90, 0x89, 0x06]
  const BYTES_STAR_16_11: seq<Byte> := [
    0xd1, 0xfa, 0x8d, 0x54, 0x12, 0x02, 0x2b, 0xca,
    0x66, 0x89, 0x01]
  const BYTES_STAR_32_11: seq<Byte> := [
    0x83, 0xe2, 0xfc, 0x90, 0x90, 0x90, 0x2b, 0xca,
    0x89, 0x41, 0xfc]
  const BYTES_STAR_16_12: seq<Byte> := [
    0xd1, 0xf9, 0xd1, 0xe1, 0x2b, 0xd1, 0x66, 0x89]
  const BYTES_STAR_32_12: seq<Byte> := [
    0x83, 0xe1, 0xfc, 0x90, 0x2b, 0xd1, 0x90, 0x89]
  const BYTES_STAR_16_13: seq<Byte> := [
    0x2b, 0xc2, 0x8b, 0x15]
  const BYTES_STAR_32_13: seq<Byte> := [
    0x90, 0x90, 0x8b, 0x15]
  const BYTES_CD_CHECK: seq<Byte> := [
    0x83, 0xec, 0x50, 0x84, 0xc0, 0x56, 0x57, 0x75,
    0x08, 0x33, 0xc0]
  const BYTES_NO_CD_CHECK: seq<Byte> := [
    0x83, 0xec, 0x50, 0x84, 0xc0, 0x56, 0x57, 0x33,
    0xc0, 0x40, 0x90]
  const BYTES_CD_VOICE: seq<Byte> := [
    0x75, 0x32, 0xe8, 0xdb]
  const BYTES_HD_VOICE: seq<Byte> := [
    0x90, 0x90, 0xe8, 0xdb]
  const BYTES_SELECT_RES: seq<Byte> := [
    0x0f, 0x87, 0xb0, 0x00, 0x00, 0x00, 0xff, 0x24,
    0x85, 0xa0, 0xb5, 0x50, 0x00]
  const BYTES_FORCE_RES: seq<Byte> := [
    0x90, 0x90, 0x90, 0x90, 0x90, 0x90, 0x90, 0x90,
    0x90, 0x90, 0x90, 0x90, 0x90]
  const BYTES_PRTSCR_8_1: seq<Byte> := [
    0x83, 0xfb, 0x08]
  const BYTES_PRTSCR_32_1: seq<Byte> := [
    0x83, 0xfb, 0x20]
  const BYTES_PRTSCR_8_2: seq<Byte> := [
    0x8a, 0x14, 0x3b, 0x33, 0xc0, 0x8a, 0x44, 0x95,
    0x00, 0x50, 0x56, 0xe8, 0x3d, 0x37, 0xff, 0xff,
    0x0f, 0xbf, 0xc0, 0x83, 0xc4, 0x08, 0x85, 0xc0,
    0x0f, 0x84, 0x38, 0x01, 0x00, 0x00, 0x33, 0xc9]
  const BYTES_PRTSCR_32_2: seq<Byte> := [
    0x8d, 0x04, 0x9f, 0x90, 0x90, 0x56, 0x6a, 0x01,
    0x6a, 0x03, 0x50, 0xe8, 0x7d, 0x44, 0x06, 0x00,
    0x0f, 0xbf, 0xc0, 0x83, 0xc4, 0x10, 0x85, 0xc0,
    0x0f, 0x84, 0x38, 0x01, 0x00, 0x00, 0xeb, 0x3e]
  const BYTES_TIE95_BLT_CLEAR: seq<Byte> := [
    0xa1, 0x04, 0x1e, 0x6b, 0x00, 0x8d, 0x54, 0x24,
    0x14, 0x52, 0x68, 0x00, 0x00, 0x00, 0x03, 0x8b,
    0x08, 0x6a, 0x00, 0x8d, 0x54, 0x24, 0x10, 0x6a,
    0x00, 0x52, 0x50, 0xff, 0x51, 0x14]
  const BYTES_TIE95_CLEAR2: seq<Byte> := [
    0xa1, 0x1c, 0xc1, 0x58, 0x00, 0x8d, 0x54, 0x24,
    0x14, 0x6a, 0x00, 0x6a, 0x00, 0x6a, 0x00, 0x8b,
    0x08, 0x6a, 0x02, 0x8d, 0x54, 0x24, 0x14, 0x52,
    0x6a, 0x01, 0x50, 0xff, 0x51, 0x50]
  const BYTES_XWING95_BLT_CLEAR: seq<Byte> := [
    0x8d, 0x44, 0x24, 0x14, 0x8d, 0x4c, 0x24, 0x04,
    0x50, 0x8b, 0x15, 0xa4, 0xce, 0x63, 0x00, 0x68,
    0x00, 0x00, 0x00, 0x03, 0x6a, 0x00, 0x6a, 0x00,
    0x8b, 0x02, 0x51, 0x52, 0xff, 0x50, 0x14]
  const BYTES_XWING95_CLEAR2: seq<Byte> := [
    0x31, 0xc0, 0x90, 0x90, 0x8d, 0x4c, 0x24, 0x04,
    0x50, 0x8b, 0x15, 0x24, 0x70, 0x56, 0x00, 0x90,
    0x6a, 0x00, 0x6a, 0x00, 0x6a, 0x02, 0x51, 0x6a,
    0x01, 0x8b, 0x02, 0x52, 0xff, 0x50, 0x50]
  const BYTES_XVTBOP_BLT_CLEAR: seq<Byte> := [
    0x50, 0x68, 0x00, 0x00, 0x00, 0x03, 0x6a, 0x00,
    0x6a, 0x00, 0x6a, 0x00, 0xa1, 0xcc, 0xee, 0x64,
    0x00, 0x50, 0xa1, 0xcc, 0xee, 0x64, 0x00, 0x8b,
    0x00, 0xff, 0x50, 0x14]
  const BYTES_XVTBOP_CLEAR2: seq<Byte> := [
    0x6a, 0x00, 0x6a, 0x00, 0x6a, 0x00, 0x6a, 0x02,
    0x6a, 0x00, 0x6a, 0x00, 0xa1, 0x44, 0xee, 0x64,
    0x00, 0x50, 0xa1, 0x44, 0xee, 0x64, 0x00, 0x8b,
    0x00, 0xff, 0x50, 0x50]

  /** The bytes a patch consists of (`patchdescs[p].value`). */
  function Value(p: PatchId): seq<Byte>
  {
    ValueBehind(p, true)
  }

  /**
   * The table of patch bytes, reached through one recursive step: proofs
   * about a patch known only by name see its bytes as a whole, instead of
   * all 57 entries of the table; a patch given by number still evaluates.
   */
  function ValueBehind(p: PatchId, hidden: bool): seq<Byte>
    decreases hidden
  {
    if hidden then ValueBehind(p, false) else
    if p < PATCH_STAR_16_8 then
      if p < PATCH_STAR_32_1 then
        if p < PATCH_CLEAR_Z_16 then
          if p < PATCH_ZDEPTH_24 then
            if p == PATCH_16BIT_FB then BYTES_16BIT_FB
            else if p == PATCH_32BIT_FB then BYTES_32BIT_FB
            else if p == PATCH_ZDEPTH_AUTO then BYTES_ZDEPTH_AUTO
            else BYTES_ZDEPTH_16 // PATCH_ZDEPTH_16
          else
            if p == PATCH_ZDEPTH_24 then BYTES_ZDEPTH_24
            else if p == PATCH_ZDEPTH_32 then BYTES_ZDEPTH_32
            else if p == PATCH_BLT_CLEAR then BYTES_BLT_CLEAR
            else BYTES_CLEAR2 // PATCH_CLEAR2
        else
          if p < PATCH_STARS_ON then
            if p == PATCH_CLEAR_Z_16 then BYTES_CLEAR_Z_16
            else if p == PATCH_CLEAR_Z_24 then BYTES_CLEAR_Z_24
            else if p == PATCH_CLEAR_Z_32 then BYTES_CLEAR_Z_32
            else BYTES_CLEAR_Z_F // PATCH_CLEAR_Z_F
          else
            if p == PATCH_STARS_ON then BYTES_STARS_ON
            else if p == PATCH_STARS_OFF then BYTES_STARS_OFF
            else BYTES_STAR_16_1 // PATCH_STAR_16_1
      else
        if p < PATCH_STAR_32_4 then
          if p < PATCH_STAR_16_3 then
            if p == PATCH_STAR_32_1 then BYTES_STAR_32_1
            else if p == PATCH_STAR_32_1_2 then BYTES_STAR_32_1_2
            else if p == PATCH_STAR_16_2 then BYTES_STAR_16_2
            else BYTES_STAR_32_2 // PATCH_STAR_32_2
          else
            if p == PATCH_STAR_16_3 then BYTES_STAR_16_3
            else if p == PATCH_STAR_32_3 then BYTES_STAR_32_3
            else BYTES_STAR_16_4 // PATCH_STAR_16_4
        else
          if p < PATCH_STAR_32_6 then
            if p == PATCH_STAR_32_4 then BYTES_STAR_32_4
            else if p == PATCH_STAR_16_5 then BYTES_STAR_16_5
            else if p == PATCH_STAR_32_5 then BYTES_STAR_32_5
            else BYTES_STAR_16_6 // PATCH_STAR_16_6
          else
            if p == PATCH_STAR_32_6 then BYTES_STAR_32_6
            else if p == PATCH_STAR_16_7 then BYTES_STAR_16_7
            else BYTES_STAR_32_7 // PATCH_STAR_32_7
    else
      if p < PATCH_CD_VOICE then
        if p < PATCH_STAR_32_11 then
          if p < PATCH_STAR_16_10 then
            if p == PATCH_STAR_16_8 then BYTES_STAR_16_8
            else if p == PATCH_STAR_32_8 then BYTES_STAR_32_8
            else if p == PATCH_STAR_16_9 then BYTES_STAR_16_9
            else BYTES_STAR_32_9 // PATCH_STAR_32_9
          else
            if p == PATCH_STAR_16_10 then BYTES_STAR_16_10
            else if p == PATCH_STAR_32_10 then BYTES_STAR_32_10
            else BYTES_STAR_16_11 // PATCH_STAR_16_11
        else
          if p < PATCH_STAR_32_13 then
            if p == PATCH_STAR_32_11 then BYTES_STAR_32_11
            else if p == PATCH_STAR_16_12 then BYTES_STAR_16_12
            else if p == PATCH_STAR_32_12 then BYTES_STAR_32_12
            else BYTES_STAR_16_13 // PATCH_STAR_16_13
          else
            if p == PATCH_STAR_32_13 then BYTES_STAR_32_13
            else if p == PATCH_CD_CHECK then BYTES_CD_CHECK
            else BYTES_NO_CD_CHECK // PATCH_NO_CD_CHECK
      else
        if p < PATCH_PRTSCR_32_2 then
          if p < PATCH_PRTSCR_8_1 then
            if p == PATCH_CD_VOICE then BYTES_CD_VOICE
            else if p == PATCH_HD_VOICE then BYTES_HD_VOICE
            else if p == PATCH_SELECT_RES then BYTES_SELECT_RES
            else BYTES_FORCE_RES // PATCH_FORCE_RES
          else
            if p == PATCH_PRTSCR_8_1 then BYTES_PRTSCR_8_1
            else if p == PATCH_PRTSCR_32_1 then BYTES_PRTSCR_32_1
            else BYTES_PRTSCR_8_2 // PATCH_PRTSCR_8_2
        else
          if p < PATCH_XWING95_CLEAR2 then
            if p == PATCH_PRTSCR_32_2 then BYTES_PRTSCR_32_2
            else if p == PATCH_TIE95_BLT_CLEAR then BYTES_TIE95_BLT_CLEAR
            else if p == PATCH_TIE95_CLEAR2 then BYTES_TIE95_CLEAR2
            else BYTES_XWING95_BLT_CLEAR // PATCH_XWING95_BLT_CLEAR
          else
            if p == PATCH_XWING95_CLEAR2 then BYTES_XWING95_CLEAR2
            else if p == PATCH_XVTBOP_BLT_CLEAR then BYTES_XVTBOP_BLT_CLEAR
            else BYTES_XVTBOP_CLEAR2 // PATCH_XVTBOP_CLEAR2
  }

  /** The patch groups of X-Wing Alliance 2.02, in declaration order. */
  const XWA_PATCHGROUPS: seq<seq<PatchId>> := [
    [PATCH_16BIT_FB, PATCH_32BIT_FB],
    [PATCH_ZDEPTH_AUTO, PATCH_ZDEPTH_16, PATCH_ZDEPTH_24, PATCH_ZDEPTH_32],
    [PATCH_BLT_CLEAR, PATCH_CLEAR2],
    [PATCH_CLEAR_Z_16, PATCH_CLEAR_Z_24, PATCH_CLEAR_Z_32, PATCH_CLEAR_Z_F],
    [PATCH_STARS_ON, PATCH_STARS_OFF],
    [PATCH_STAR_16_1, PATCH_STAR_32_1, PATCH_STAR_32_1_2],
    [PATCH_STAR_16_2, PATCH_STAR_32_2],
    [PATCH_STAR_16_3, PATCH_STAR_32_3],
    [PATCH_STAR_16_4, PATCH_STAR_32_4],
    [PATCH_STAR_16_5, PATCH_STAR_32_5],
    [PATCH_STAR_16_6, PATCH_STAR_32_6],
    [PATCH_STAR_16_7, PATCH_STAR_32_7],
    [PATCH_STAR_16_8, PATCH_STAR_32_8],
    [PATCH_STAR_16_9, PATCH_STAR_32_9],
    [PATCH_STAR_16_10, PATCH_STAR_32_10],
    [PATCH_STAR_16_11, PATCH_STAR_32_11],
    [PATCH_STAR_16_12, PATCH_STAR_32_12],
    [PATCH_STAR_16_13, PATCH_STAR_32_13],
    [PATCH_CD_CHECK, PATCH_NO_CD_CHECK],
    [PATCH_CD_VOICE, PATCH_HD_VOICE],
    [PATCH_SELECT_RES, PATCH_FORCE_RES],
    [PATCH_PRTSCR_8_1, PATCH_PRTSCR_32_1],
    [PATCH_PRTSCR_8_2, PATCH_PRTSCR_32_2]
  ]

  const TIE95_PATCHGROUPS: seq<seq<PatchId>> := [[PATCH_TIE95_BLT_CLEAR, PATCH_TIE95_CLEAR2]]

  const XWING95_PATCHGROUPS: seq<seq<PatchId>> := [[PATCH_XWING95_BLT_CLEAR, PATCH_XWING95_CLEAR2]]

  const XVTBOP_PATCHGROUPS: seq<seq<PatchId>> := [[PATCH_XVTBOP_BLT_CLEAR, PATCH_XVTBOP_CLEAR2]]

  /** A named list of patches applied together for one feature. */
  datatype Collection = Collection(name: string, patches: seq<PatchId>)

  /** The patches of the "16 bit rendering" collection, in application order. */
  const RENDER_16BIT_PATCHES: seq<PatchId> :=
    [PATCH_16BIT_FB, PATCH_STAR_16_1, PATCH_STAR_16_2, PATCH_STAR_16_3, PATCH_STAR_16_4,
     PATCH_STAR_16_5, PATCH_STAR_16_6, PATCH_STAR_16_7, PATCH_STAR_16_8, PATCH_STAR_16_9,
     PATCH_STAR_16_10, PATCH_STAR_16_11, PATCH_STAR_16_12, PATCH_STAR_16_13,
     PATCH_PRTSCR_8_1, PATCH_PRTSCR_8_2]

  /** The patches of the "32 bit rendering" collection, in application order. */
  const RENDER_32BIT_PATCHES: seq<PatchId> :=
    [PATCH_32BIT_FB, PATCH_STAR_32_1_2, PATCH_STAR_32_2, PATCH_STAR_32_3, PATCH_STAR_32_4,
     PATCH_STAR_32_5, PATCH_STAR_32_6, PATCH_STAR_32_7, PATCH_STAR_32_8, PATCH_STAR_32_9,
     PATCH_STAR_32_10, PATCH_STAR_32_11, PATCH_STAR_32_12, PATCH_STAR_32_13,
     PATCH_PRTSCR_32_1, PATCH_PRTSCR_32_2]

  const ORIGINAL_ZCLEAR_PATCHES: seq<PatchId> := [PATCH_BLT_CLEAR, PATCH_CLEAR_Z_16]

  const FIXED_ZCLEAR_PATCHES: seq<PatchId> := [PATCH_CLEAR2, PATCH_CLEAR_Z_F]

  /** `xwa_collections`, without its NULL-named terminator. */
  const XWA_COLLECTIONS: seq<Collection> := [
    Collection("16 bit rendering", RENDER_16BIT_PATCHES),
    Collection("32 bit rendering", RENDER_32BIT_PATCHES),
    Collection("original Z-buffer clear", ORIGINAL_ZCLEAR_PATCHES),
    Collection("fixed Z-buffer clear", FIXED_ZCLEAR_PATCHES)
  ]

  /**
   * A supported executable: its name, its usual file name, its patch groups,
   * and its collections (None where the source has a NULL pointer).
   */
  datatype Binary = Binary(name: string, filename: string, patchgroups: seq<seq<PatchId>>,
                           collections: Option<seq<Collection>>)

  const BINARIES: seq<Binary> := [
    Binary("X-Wing Alliance 2.02", "xwingalliance.exe", XWA_PATCHGROUPS, Some(XWA_COLLECTIONS)),
    Binary("TIE Fighter 95", "TIE95.EXE", TIE95_PATCHGROUPS, None),
    Binary("X-Wing 95", "XWING95.EXE", XWING95_PATCHGROUPS, None),
    Binary("X-Wing vs. TIE Fighter Balance of Power", "Z_XVT__.EXE", XVTBOP_PATCHGROUPS, None)
  ]

  // ---------------------------------------------------------------------
  // Table invariants

  /** A descriptor fits the scratch buffer and its bytes are exactly `len` long. */
  predicate ValidDesc(p: PatchId)
  {
    0 < Len(p) <= BUFFER_SZ && |Value(p)| == Len(p)
  }

  /** Two patches cover the same bytes of the file. */
  predicate SameRange(a: PatchId, b: PatchId)
  {
    Offset(a) == Offset(b) && Len(a) == Len(b)
  }

  /** The byte ranges of two patches do not overlap. */
  predicate Disjoint(a: PatchId, b: PatchId)
  {
    Offset(a) + Len(a) <= Offset(b) || Offset(b) + Len(b) <= Offset(a)
  }

  /** A patch group's layout: two or more alternatives, all covering the same range. */
  predicate GroupLayout(g: seq<PatchId>)
  {
    |g| >= 2 && forall k | 0 <= k < |g| :: SameRange(g[k], g[0])
  }

  /** The alternatives of a group have pairwise different bytes, so at most one is present at a time. */
  predicate GroupValuesDistinct(g: seq<PatchId>)
  {
    forall j, k | 0 <= j < k < |g| :: Value(g[j]) != Value(g[k])
  }

  /** Every group has a layout, and no two groups of the profile overlap. */
  predicate ProfileLayout(groups: seq<seq<PatchId>>)
  {
    && (forall i | 0 <= i < |groups| :: GroupLayout(groups[i]))
    && (forall i, j | 0 <= i < j < |groups| :: Disjoint(groups[i][0], groups[j][0]))
  }

  /** A profile whose groups do not overlap and whose alternatives can be told apart. */
  predicate ProfileWellFormed(groups: seq<seq<PatchId>>)
  {
    ProfileLayout(groups) && forall i | 0 <= i < |groups| :: GroupValuesDistinct(groups[i])
  }

  /** No two patches of the list overlap. */
  predicate PairwiseDisjoint(patches: seq<PatchId>)
  {
    forall j, k | 0 <= j < k < |patches| :: Disjoint(patches[j], patches[k])
  }

  /** Every patch of the list belongs to a group of the profile, and no two of them overlap. */
  predicate CollectionWellFormed(groups: seq<seq<PatchId>>, patches: seq<PatchId>)
  {
    && (forall k | 0 <= k < |patches| :: exists i | 0 <= i < |groups| :: patches[k] in groups[i])
    && PairwiseDisjoint(patches)
  }

  // ---------------------------------------------------------------------
  // The tables satisfy the invariants

  /** Every descriptor fits the scratch buffer and carries exactly `len` bytes. */
  lemma DescsValid()
    ensures forall p: PatchId :: ValidDesc(p)
  {
  }

  /** Each of the first twelve groups of X-Wing Alliance covers one range with two or more alternatives. */
  lemma XwaGroupLayouts()
    ensures forall i | 0 <= i < 12 :: GroupLayout(XWA_PATCHGROUPS[i])
  {
  }

  /** Each of the remaining groups of X-Wing Alliance covers one range with two or more alternatives. */
  lemma XwaGroupLayoutsTail()
    ensures forall i | 12 <= i < 23 :: GroupLayout(XWA_PATCHGROUPS[i])
  {
  }

  /** None of the first six X-Wing Alliance groups overlaps a later group. */
  lemma XwaLeadingGroupsDisjoint()
    ensures forall i, j | 0 <= i < 6 && i < j < |XWA_PATCHGROUPS| :: Disjoint(XWA_PATCHGROUPS[i][0], XWA_PATCHGROUPS[j][0])
  {
  }

  /** No two of the remaining X-Wing Alliance groups overlap. */
  lemma XwaTrailingGroupsDisjoint()
    ensures forall i, j | 6 <= i < j < |XWA_PATCHGROUPS| :: Disjoint(XWA_PATCHGROUPS[i][0], XWA_PATCHGROUPS[j][0])
  {
  }

  /** No two X-Wing Alliance groups overlap. */
  lemma XwaGroupsDisjoint()
    ensures forall i, j | 0 <= i < j < |XWA_PATCHGROUPS| :: Disjoint(XWA_PATCHGROUPS[i][0], XWA_PATCHGROUPS[j][0])
  {
    XwaLeadingGroupsDisjoint();
    XwaTrailingGroupsDisjoint();
  }

  lemma XwaProfileLayout()
    ensures ProfileLayout(XWA_PATCHGROUPS)
  {
    XwaGroupLayouts();
    XwaGroupLayoutsTail();
    XwaGroupsDisjoint();
  }

  /** The alternatives of the frame buffer, Z-buffer depth, Z-clear method, Z-clear value and starfield on/off groups of X-Wing Alliance have pairwise different bytes. */
  lemma XwaRenderingValuesDistinct()
    ensures forall i | 0 <= i < 5 :: GroupValuesDistinct(XWA_PATCHGROUPS[i])
  {
    forall i | 0 <= i < 5 ensures GroupValuesDistinct(XWA_PATCHGROUPS[i]) {
      if i == 0 {
        assert XWA_PATCHGROUPS[0] == [PATCH_16BIT_FB, PATCH_32BIT_FB];
        assert Value(PATCH_16BIT_FB)[8] != Value(PATCH_32BIT_FB)[8];
      } else if i == 1 {
        assert XWA_PATCHGROUPS[1] == [PATCH_ZDEPTH_AUTO, PATCH_ZDEPTH_16, PATCH_ZDEPTH_24, PATCH_ZDEPTH_32];
        assert Value(PATCH_ZDEPTH_AUTO)[11] != Value(PATCH_ZDEPTH_16)[11];
        assert Value(PATCH_ZDEPTH_AUTO)[11] != Value(PATCH_ZDEPTH_24)[11];
        assert Value(PATCH_ZDEPTH_AUTO)[1] != Value(PATCH_ZDEPTH_32)[1];
        assert Value(PATCH_ZDEPTH_16)[11] != Value(PATCH_ZDEPTH_24)[11];
        assert Value(PATCH_ZDEPTH_16)[11] != Value(PATCH_ZDEPTH_32)[11];
        assert Value(PATCH_ZDEPTH_24)[11] != Value(PATCH_ZDEPTH_32)[11];
      } else if i == 2 {
        assert XWA_PATCHGROUPS[2] == [PATCH_BLT_CLEAR, PATCH_CLEAR2];
        assert Value(PATCH_BLT_CLEAR)[30] != Value(PATCH_CLEAR2)[30];
      } else if i == 3 {
        assert XWA_PATCHGROUPS[3] == [PATCH_CLEAR_Z_16, PATCH_CLEAR_Z_24, PATCH_CLEAR_Z_32, PATCH_CLEAR_Z_F];
        assert Value(PATCH_CLEAR_Z_16)[5] != Value(PATCH_CLEAR_Z_24)[5];
        assert Value(PATCH_CLEAR_Z_16)[6] != Value(PATCH_CLEAR_Z_32)[6];
        assert Value(PATCH_CLEAR_Z_16)[6] != Value(PATCH_CLEAR_Z_F)[6];
        assert Value(PATCH_CLEAR_Z_24)[6] != Value(PATCH_CLEAR_Z_32)[6];
        assert Value(PATCH_CLEAR_Z_24)[6] != Value(PATCH_CLEAR_Z_F)[6];
        assert Value(PATCH_CLEAR_Z_32)[6] != Value(PATCH_CLEAR_Z_F)[6];
      } else {
        assert XWA_PATCHGROUPS[4] == [PATCH_STARS_ON, PATCH_STARS_OFF];
        assert Value(PATCH_STARS_ON)[12] != Value(PATCH_STARS_OFF)[12];
      }
    }
  }

  /** The alternatives of the first starfield groups of X-Wing Alliance have pairwise different bytes. */
  lemma XwaStarfieldValuesDistinct()
    ensures forall i | 5 <= i < 12 :: GroupValuesDistinct(XWA_PATCHGROUPS[i])
  {
    forall i | 5 <= i < 12 ensures GroupValuesDistinct(XWA_PATCHGROUPS[i]) {
      if i == 5 {
        assert XWA_PATCHGROUPS[5] == [PATCH_STAR_16_1, PATCH_STAR_32_1, PATCH_STAR_32_1_2];
        assert Value(PATCH_STAR_16_1)[15] != Value(PATCH_STAR_32_1)[15];
        assert Value(PATCH_STAR_16_1)[15] != Value(PATCH_STAR_32_1_2)[15];
        assert Value(PATCH_STAR_32_1)[14] != Value(PATCH_STAR_32_1_2)[14];
      } else if i == 6 {
        assert XWA_PATCHGROUPS[6] == [PATCH_STAR_16_2, PATCH_STAR_32_2];
        assert Value(PATCH_STAR_16_2)[4] != Value(PATCH_STAR_32_2)[4];
      } else if i == 7 {
        assert XWA_PATCHGROUPS[7] == [PATCH_STAR_16_3, PATCH_STAR_32_3];
        assert Value(PATCH_STAR_16_3)[50] != Value(PATCH_STAR_32_3)[50];
      } else if i == 8 {
        assert XWA_PATCHGROUPS[8] == [PATCH_STAR_16_4, PATCH_STAR_32_4];
        assert Value(PATCH_STAR_16_4)[4] != Value(PATCH_STAR_32_4)[4];
      } else if i == 9 {
        assert XWA_PATCHGROUPS[9] == [PATCH_STAR_16_5, PATCH_STAR_32_5];
        assert Value(PATCH_STAR_16_5)[50] != Value(PATCH_STAR_32_5)[50];
      } else if i == 10 {
        assert XWA_PATCHGROUPS[10] == [PATCH_STAR_16_6, PATCH_STAR_32_6];
        assert Value(PATCH_STAR_16_6)[4] != Value(PATCH_STAR_32_6)[4];
      } else {
        assert XWA_PATCHGROUPS[11] == [PATCH_STAR_16_7, PATCH_STAR_32_7];
        assert Value(PATCH_STAR_16_7)[50] != Value(PATCH_STAR_32_7)[50];
      }
    }
  }

  /** The alternatives of the remaining starfield groups of X-Wing Alliance have pairwise different bytes. */
  lemma XwaStarfieldTailValuesDistinct()
    ensures forall i | 12 <= i < 18 :: GroupValuesDistinct(XWA_PATCHGROUPS[i])
  {
    forall i | 12 <= i < 18 ensures GroupValuesDistinct(XWA_PATCHGROUPS[i]) {
      if i == 12 {
        assert XWA_PATCHGROUPS[12] == [PATCH_STAR_16_8, PATCH_STAR_32_8];
        assert Value(PATCH_STAR_16_8)[12] != Value(PATCH_STAR_32_8)[12];
      } else if i == 13 {
        assert XWA_PATCHGROUPS[13] == [PATCH_STAR_16_9, PATCH_STAR_32_9];
        assert Value(PATCH_STAR_16_9)[23] != Value(PATCH_STAR_32_9)[23];
      } else if i == 14 {
        assert XWA_PATCHGROUPS[14] == [PATCH_STAR_16_10, PATCH_STAR_32_10];
        assert Value(PATCH_STAR_16_10)[20] != Value(PATCH_STAR_32_10)[20];
      } else if i == 15 {
        assert XWA_PATCHGROUPS[15] == [PATCH_STAR_16_11, PATCH_STAR_32_11];
        assert Value(PATCH_STAR_16_11)[10] != Value(PATCH_STAR_32_11)[10];
      } else if i == 16 {
        assert XWA_PATCHGROUPS[16] == [PATCH_STAR_16_12, PATCH_STAR_32_12];
        assert Value(PATCH_STAR_16_12)[6] != Value(PATCH_STAR_32_12)[6];
      } else {
        assert XWA_PATCHGROUPS[17] == [PATCH_STAR_16_13, PATCH_STAR_32_13];
        assert Value(PATCH_STAR_16_13)[1] != Value(PATCH_STAR_32_13)[1];
      }
    }
  }

  /** The alternatives of the CD, voice, resolution and screenshot groups of X-Wing Alliance have pairwise different bytes. */
  lemma XwaSystemValuesDistinct()
    ensures forall i | 18 <= i < 23 :: GroupValuesDistinct(XWA_PATCHGROUPS[i])
  {
    forall i | 18 <= i < 23 ensures GroupValuesDistinct(XWA_PATCHGROUPS[i]) {
      if i == 18 {
        assert XWA_PATCHGROUPS[18] == [PATCH_CD_CHECK, PATCH_NO_CD_CHECK];
        assert Value(PATCH_CD_CHECK)[10] != Value(PATCH_NO_CD_CHECK)[10];
      } else if i == 19 {
        assert XWA_PATCHGROUPS[19] == [PATCH_CD_VOICE, PATCH_HD_VOICE];
        assert Value(PATCH_CD_VOICE)[1] != Value(PATCH_HD_VOICE)[1];
      } else if i == 20 {
        assert XWA_PATCHGROUPS[20] == [PATCH_SELECT_RES, PATCH_FORCE_RES];
        assert Value(PATCH_SELECT_RES)[12] != Value(PATCH_FORCE_RES)[12];
      } else if i == 21 {
        assert XWA_PATCHGROUPS[21] == [PATCH_PRTSCR_8_1, PATCH_PRTSCR_32_1];
        assert Value(PATCH_PRTSCR_8_1)[2] != Value(PATCH_PRTSCR_32_1)[2];
      } else {
        assert XWA_PATCHGROUPS[22] == [PATCH_PRTSCR_8_2, PATCH_PRTSCR_32_2];
        assert Value(PATCH_PRTSCR_8_2)[31] != Value(PATCH_PRTSCR_32_2)[31];
      }
    }
  }

  /** The X-Wing Alliance profile is well formed. */
  lemma XwaProfileWellFormed()
    ensures ProfileWellFormed(XWA_PATCHGROUPS)
  {
    XwaProfileLayout();
    XwaRenderingValuesDistinct();
    XwaStarfieldValuesDistinct();
    XwaStarfieldTailValuesDistinct();
    XwaSystemValuesDistinct();
  }

  /** The single group of each of the three older games is well formed. */
  lemma OlderProfilesWellFormed()
    ensures ProfileWellFormed(TIE95_PATCHGROUPS)
    ensures ProfileWellFormed(XWING95_PATCHGROUPS)
    ensures ProfileWellFormed(XVTBOP_PATCHGROUPS)
  {
    assert Value(PATCH_TIE95_BLT_CLEAR)[29] != Value(PATCH_TIE95_CLEAR2)[29];
    assert Value(PATCH_XWING95_BLT_CLEAR)[30] != Value(PATCH_XWING95_CLEAR2)[30];
    assert Value(PATCH_XVTBOP_BLT_CLEAR)[27] != Value(PATCH_XVTBOP_CLEAR2)[27];
  }

  /** Every profile of the executable table is well formed. */
  lemma ProfilesWellFormed()
    ensures forall b | 0 <= b < |BINARIES| :: ProfileWellFormed(BINARIES[b].patchgroups)
  {
    XwaProfileWellFormed();
    OlderProfilesWellFormed();
  }

  /**
   * A list whose patches sit at the given places (group, position) of a
   * profile, with strictly increasing groups, is a well-formed collection of it
   * when the profile's groups do not overlap: every alternative of a group
   * covers the group's range.
   */
  lemma {:induction false} CollectionOfDistinctGroups(groups: seq<seq<PatchId>>, patches: seq<PatchId>, places: seq<(nat, nat)>)
    requires ProfileLayout(groups)
    requires |places| == |patches|
    requires forall k | 0 <= k < |patches| ::
      places[k].0 < |groups| && places[k].1 < |groups[places[k].0]| && groups[places[k].0][places[k].1] == patches[k]
    requires forall k | 0 < k < |places| :: places[k - 1].0 < places[k].0
    ensures CollectionWellFormed(groups, patches)
  {
    IncreasingPairwise(places);
    forall k | 0 <= k < |patches| ensures exists i | 0 <= i < |groups| :: patches[k] in groups[i] {
      assert patches[k] in groups[places[k].0];
    }
    forall j, k | 0 <= j < k < |patches| ensures Disjoint(patches[j], patches[k]) {
      var gj, gk := groups[places[j].0], groups[places[k].0];
      assert SameRange(gj[places[j].1], gj[0]) && SameRange(gk[places[k].1], gk[0]);
      assert Disjoint(gj[0], gk[0]);
    }
  }

  /** Places whose groups increase step by step have increasing groups between any two positions. */
  lemma {:induction false} IncreasingPairwise(places: seq<(nat, nat)>)
    requires forall k | 0 < k < |places| :: places[k - 1].0 < places[k].0
    ensures forall j, k | 0 <= j < k < |places| :: places[j].0 < places[k].0
  {
    if |places| > 1 {
      var init := places[..|places| - 1];
      IncreasingPairwise(init);
      forall j, k | 0 <= j < k < |places| ensures places[j].0 < places[k].0 {
        if k < |places| - 1 {
          assert init[j].0 < init[k].0;
        } else if j < k - 1 {
          assert init[j].0 < init[k - 1].0;
        }
      }
    }
  }

  /** Where each patch of the "16 bit rendering" collection sits in the X-Wing Alliance groups: (group, position). */
  ghost const RENDER_16BIT_PLACES: seq<(nat, nat)> := [(0, 0), (5, 0), (6, 0), (7, 0), (8, 0), (9, 0), (10, 0), (11, 0), (12, 0), (13, 0), (14, 0), (15, 0), (16, 0), (17, 0), (21, 0), (22, 0)]

  lemma Render16BitPlaces()
    ensures |RENDER_16BIT_PLACES| == |RENDER_16BIT_PATCHES|
    ensures forall k | 0 <= k < |RENDER_16BIT_PATCHES| ::
      RENDER_16BIT_PLACES[k].0 < |XWA_PATCHGROUPS| && RENDER_16BIT_PLACES[k].1 < |XWA_PATCHGROUPS[RENDER_16BIT_PLACES[k].0]| &&
      XWA_PATCHGROUPS[RENDER_16BIT_PLACES[k].0][RENDER_16BIT_PLACES[k].1] == RENDER_16BIT_PATCHES[k]
  {
  }

  lemma Render16BitPlacesOrdered()
    ensures forall k | 0 < k < |RENDER_16BIT_PLACES| :: RENDER_16BIT_PLACES[k - 1].0 < RENDER_16BIT_PLACES[k].0
  {
  }

  /** The "16 bit rendering" collection is a well-formed collection of the X-Wing Alliance profile. */
  lemma Render16BitCollectionWellFormed()
    ensures CollectionWellFormed(XWA_PATCHGROUPS, RENDER_16BIT_PATCHES)
  {
    XwaProfileLayout();
    Render16BitPlaces();
    Render16BitPlacesOrdered();
    CollectionOfDistinctGroups(XWA_PATCHGROUPS, RENDER_16BIT_PATCHES, RENDER_16BIT_PLACES);
  }

  /** Where each patch of the "32 bit rendering" collection sits in the X-Wing Alliance groups: (group, position). */
  ghost const RENDER_32BIT_PLACES: seq<(nat, nat)> := [(0, 1), (5, 2), (6, 1), (7, 1), (8, 1), (9, 1), (10, 1), (11, 1), (12, 1), (13, 1), (14, 1), (15, 1), (16, 1), (17, 1), (21, 1), (22, 1)]

  lemma Render32BitPlaces()
    ensures |RENDER_32BIT_PLACES| == |RENDER_32BIT_PATCHES|
    ensures forall k | 0 <= k < |RENDER_32BIT_PATCHES| ::
      RENDER_32BIT_PLACES[k].0 < |XWA_PATCHGROUPS| && RENDER_32BIT_PLACES[k].1 < |XWA_PATCHGROUPS[RENDER_32BIT_PLACES[k].0]| &&
      XWA_PATCHGROUPS[RENDER_32BIT_PLACES[k].0][RENDER_32BIT_PLACES[k].1] == RENDER_32BIT_PATCHES[k]
  {
  }

  lemma Render32BitPlacesOrdered()
    ensures forall k | 0 < k < |RENDER_32BIT_PLACES| :: RENDER_32BIT_PLACES[k - 1].0 < RENDER_32BIT_PLACES[k].0
  {
  }

  /** The "32 bit rendering" collection is a well-formed collection of the X-Wing Alliance profile. */
  lemma Render32BitCollectionWellFormed()
    ensures CollectionWellFormed(XWA_PATCHGROUPS, RENDER_32BIT_PATCHES)
  {
    XwaProfileLayout();
    Render32BitPlaces();
    Render32BitPlacesOrdered();
    CollectionOfDistinctGroups(XWA_PATCHGROUPS, RENDER_32BIT_PATCHES, RENDER_32BIT_PLACES);
  }

  /** Where each patch of the "original Z-buffer clear" collection sits in the X-Wing Alliance groups: (group, position). */
  ghost const ORIGINAL_ZCLEAR_PLACES: seq<(nat, nat)> := [(2, 0), (3, 0)]

  lemma OriginalZClearPlaces()
    ensures |ORIGINAL_ZCLEAR_PLACES| == |ORIGINAL_ZCLEAR_PATCHES|
    ensures forall k | 0 <= k < |ORIGINAL_ZCLEAR_PATCHES| ::
      ORIGINAL_ZCLEAR_PLACES[k].0 < |XWA_PATCHGROUPS| && ORIGINAL_ZCLEAR_PLACES[k].1 < |XWA_PATCHGROUPS[ORIGINAL_ZCLEAR_PLACES[k].0]| &&
      XWA_PATCHGROUPS[ORIGINAL_ZCLEAR_PLACES[k].0][ORIGINAL_ZCLEAR_PLACES[k].1] == ORIGINAL_ZCLEAR_PATCHES[k]
  {
  }

  lemma OriginalZClearPlacesOrdered()
    ensures forall k | 0 < k < |ORIGINAL_ZCLEAR_PLACES| :: ORIGINAL_ZCLEAR_PLACES[k - 1].0 < ORIGINAL_ZCLEAR_PLACES[k].0
  {
  }

  /** The "original Z-buffer clear" collection is a well-formed collection of the X-Wing Alliance profile. */
  lemma OriginalZClearCollectionWellFormed()
    ensures CollectionWellFormed(XWA_PATCHGROUPS, ORIGINAL_ZCLEAR_PATCHES)
  {
    XwaProfileLayout();
    OriginalZClearPlaces();
    OriginalZClearPlacesOrdered();
    CollectionOfDistinctGroups(XWA_PATCHGROUPS, ORIGINAL_ZCLEAR_PATCHES, ORIGINAL_ZCLEAR_PLACES);
  }

  /** Where each patch of the "fixed Z-buffer clear" collection sits in the X-Wing Alliance groups: (group, position). */
  ghost const FIXED_ZCLEAR_PLACES: seq<(nat, nat)> := [(2, 1), (3, 3)]

  lemma FixedZClearPlaces()
    ensures |FIXED_ZCLEAR_PLACES| == |FIXED_ZCLEAR_PATCHES|
    ensures forall k | 0 <= k < |FIXED_ZCLEAR_PATCHES| ::
      FIXED_ZCLEAR_PLACES[k].0 < |XWA_PATCHGROUPS| && FIXED_ZCLEAR_PLACES[k].1 < |XWA_PATCHGROUPS[FIXED_ZCLEAR_PLACES[k].0]| &&
      XWA_PATCHGROUPS[FIXED_ZCLEAR_PLACES[k].0][FIXED_ZCLEAR_PLACES[k].1] == FIXED_ZCLEAR_PATCHES[k]
  {
  }

  lemma FixedZClearPlacesOrdered()
    ensures forall k | 0 < k < |FIXED_ZCLEAR_PLACES| :: FIXED_ZCLEAR_PLACES[k - 1].0 < FIXED_ZCLEAR_PLACES[k].0
  {
  }

  /** The "fixed Z-buffer clear" collection is a well-formed collection of the X-Wing Alliance profile. */
  lemma FixedZClearCollectionWellFormed()
    ensures CollectionWellFormed(XWA_PATCHGROUPS, FIXED_ZCLEAR_PATCHES)
  {
    XwaProfileLayout();
    FixedZClearPlaces();
    FixedZClearPlacesOrdered();
    CollectionOfDistinctGroups(XWA_PATCHGROUPS, FIXED_ZCLEAR_PATCHES, FIXED_ZCLEAR_PLACES);
  }

  /** The unmodified code is a group's first alternative, and no other alternative is unmodified. */
  predicate OriginalFirst(g: seq<PatchId>)
  {
    forall k | 0 <= k < |g| :: IsOriginal(g[k]) <==> k == 0
  }

  /** The first twelve X-Wing Alliance groups list the unmodified code first, and only there. */
  lemma XwaLeadingOriginalsFirst()
    ensures forall i | 0 <= i < 12 :: OriginalFirst(XWA_PATCHGROUPS[i])
  {
  }

  /** So do the remaining eleven groups. */
  lemma XwaTrailingOriginalsFirst()
    ensures forall i | 12 <= i < |XWA_PATCHGROUPS| :: OriginalFirst(XWA_PATCHGROUPS[i])
  {
  }

  /** Every group of every known profile lists the unmodified code first, and only there. */
  lemma GroupsStartWithOriginal()
    ensures forall b, i | 0 <= b < |BINARIES| && 0 <= i < |BINARIES[b].patchgroups| :: OriginalFirst(BINARIES[b].patchgroups[i])
  {
    XwaLeadingOriginalsFirst();
    XwaTrailingOriginalsFirst();
    assert OriginalFirst(TIE95_PATCHGROUPS[0]);
    assert OriginalFirst(XWING95_PATCHGROUPS[0]);
    assert OriginalFirst(XVTBOP_PATCHGROUPS[0]);
  }

  /** Every X-Wing Alliance collection is a well-formed collection of that profile. */
  lemma CollectionsWellFormed()
    ensures forall c | 0 <= c < |XWA_COLLECTIONS| :: CollectionWellFormed(XWA_PATCHGROUPS, XWA_COLLECTIONS[c].patches)
  {
    Render16BitCollectionWellFormed();
    Render32BitCollectionWellFormed();
    OriginalZClearCollectionWellFormed();
    FixedZClearCollectionWellFormed();
  }
}
