/**
 * Recognising the executable: every known binary's profile is counted
 * against the file, and the binary with the most matching patches wins;
 * on a tie the earlier binary of the table is kept, and a file that
 * matches nothing is taken to be the first binary of the table.
 */
module Detection {
  import opened ByteIO
  import opened Catalog
  import opened Engine

  /** The number of each binary's patches the file holds, in table order. */
  function Counts(file: seq<Byte>, binaries: seq<Binary>): (cs: seq<nat>)
    ensures |cs| == |binaries|
  {
    seq(|binaries|, b requires 0 <= b < |binaries| => CountMatches(file, binaries[b].patchgroups))
  }

  /**
   * The binary the detection settles on: the first one whose count is the
   * greatest (a later binary replaces the current choice only with a
   * strictly greater count).
   */
  function Best(counts: seq<nat>): (r: nat)
    requires |counts| > 0
    ensures r < |counts|
    ensures forall b | 0 <= b < |counts| :: counts[b] <= counts[r]
    ensures forall b | 0 <= b < r :: counts[b] < counts[r]
  {
    if |counts| == 1 then 0
    else
      var r := Best(counts[..|counts| - 1]);
      if counts[|counts| - 1] > counts[r] then |counts| - 1 else r
  }

  /** Extending the counts by one binary: it is chosen only when its count is strictly greater. */
  lemma BestStep(counts: seq<nat>, i: nat)
    requires 0 < i < |counts|
    ensures Best(counts[..i + 1]) == if counts[i] > counts[Best(counts[..i])] then i else Best(counts[..i])
  {
    assert counts[..i + 1][..i] == counts[..i];
  }

  /** A file no binary's profile matches at all is taken to be the first binary. */
  lemma NothingMatchedMeansFirst(counts: seq<nat>)
    requires |counts| > 0
    requires forall b | 0 <= b < |counts| :: counts[b] == 0
    ensures Best(counts) == 0
  {
  }

  /**
   * In the profiles of the known binaries no group contributes more than
   * one match, so each count is the number of that binary's patch groups
   * the file is recognised in.
   */
  lemma CountsAreRecognizedGroups(file: seq<Byte>)
    ensures forall b | 0 <= b < |BINARIES| ::
      Counts(file, BINARIES)[b] == Recognized(file, BINARIES[b].patchgroups) <= |BINARIES[b].patchgroups|
  {
    ProfilesWellFormed();
    forall b | 0 <= b < |BINARIES|
      ensures Counts(file, BINARIES)[b] == Recognized(file, BINARIES[b].patchgroups) <= |BINARIES[b].patchgroups|
    {
      CountIsRecognized(file, BINARIES[b].patchgroups);
    }
  }

  /**
   * The detection loop of the tool: counts every binary's patches in turn
   * and keeps the first binary with the greatest count, starting from the
   * first binary with a count of zero.
   */
  method DetectBinary(buffer: array<Byte>, f: BinaryFile, binaries: seq<Binary>) returns (best: nat, bestCount: nat)
    requires buffer.Length == BUFFER_SZ && |binaries| > 0
    modifies buffer
    ensures best == Best(Counts(f.contents, binaries))
    ensures bestCount == Counts(f.contents, binaries)[best]
  {
    ghost var counts := Counts(f.contents, binaries);
    best, bestCount := 0, 0;
    var i := 0;
    while i < |binaries|
      invariant 0 <= i <= |binaries|
      invariant i == 0 ==> best == 0 && bestCount == 0
      invariant i > 0 ==> best == Best(counts[..i]) && bestCount == counts[best]
    {
      var count := CountPatches(buffer, f, binaries[i].patchgroups);
      assert count == counts[i];
      if i > 0 {
        BestStep(counts, i);
      }
      if count > bestCount {
        best, bestCount := i, count;
      }
      i := i + 1;
    }
    assert counts[..i] == counts;
  }

  /**
   * The report printed when no option is given: every patch of the catalog
   * is checked against the file, whatever the detected binary.
   */
  method DetectPatches(buffer: array<Byte>, f: BinaryFile) returns (detected: seq<bool>)
    requires buffer.Length == BUFFER_SZ
    modifies buffer
    ensures |detected| == NUM_PATCHES
    ensures forall p: PatchId :: detected[p] == Matches(f.contents, p)
  {
    detected := [];
    var p := 0;
    while p < NUM_PATCHES
      invariant 0 <= p <= NUM_PATCHES && |detected| == p
      invariant forall q | 0 <= q < p :: detected[q] == Matches(f.contents, q as PatchId)
    {
      var m := CheckPatch(buffer, f, p as PatchId);
      detected := detected + [m];
      p := p + 1;
    }
  }
}
