/**
 * The patch engine: recognising which alternative of a patch group a file
 * holds, counting recognised patches, switching a group to another
 * alternative, and applying a collection of patches in order.
 *
 * The file is a `BinaryFile`; every check reads through the scratch buffer
 * of `BUFFER_SZ` bytes, as the tool does.
 */
module Engine {
  import opened Wrappers
  import opened ByteIO
  import opened Catalog

  // ---------------------------------------------------------------------
  // check_patch

  /**
   * Whether the file currently holds patch `p`: its range lies inside the
   * file and holds exactly its bytes. A range that runs past the end of the
   * file never matches.
   */
  predicate Matches(file: seq<Byte>, p: PatchId)
  {
    Offset(p) + Len(p) <= |file| && file[Offset(p)..Offset(p) + Len(p)] == Value(p)
  }

  /** Reads the patch's range into the scratch buffer and compares it with the patch's bytes. */
  method CheckPatch(buffer: array<Byte>, f: BinaryFile, p: PatchId) returns (m: bool)
    requires buffer.Length == BUFFER_SZ
    modifies buffer
    ensures m == Matches(f.contents, p)
  {
    DescsValid();
    var ok := ReadBuffer(buffer, f, Offset(p), Len(p));
    if !ok {
      return false;
    }
    m := buffer[..Len(p)] == Value(p);
  }

  // ---------------------------------------------------------------------
  // count_patches

  /** The number of alternatives of `g` the file currently holds. */
  function GroupMatches(file: seq<Byte>, g: seq<PatchId>): (n: nat)
    ensures n <= |g|
  {
    if |g| == 0 then 0
    else GroupMatches(file, g[..|g| - 1]) + (if Matches(file, g[|g| - 1]) then 1 else 0)
  }

  /** A group contributes nothing exactly when none of its alternatives is present. */
  lemma {:induction false} NoMatchesInGroup(file: seq<Byte>, g: seq<PatchId>)
    ensures GroupMatches(file, g) == 0 <==> !Present(file, g)
  {
    if |g| > 0 {
      var init := g[..|g| - 1];
      NoMatchesInGroup(file, init);
      if Present(file, init) {
        var k :| 0 <= k < |init| && Matches(file, init[k]);
        assert g[k] == init[k];
      }
      if Present(file, g) && !Matches(file, g[|g| - 1]) {
        var k :| 0 <= k < |g| && Matches(file, g[k]);
        assert g[k] == init[k];
      }
    }
  }

  /** The number of patches of the profile the file currently holds, summed over its groups. */
  function CountMatches(file: seq<Byte>, groups: seq<seq<PatchId>>): nat
  {
    if |groups| == 0 then 0
    else CountMatches(file, groups[..|groups| - 1]) + GroupMatches(file, groups[|groups| - 1])
  }

  /** Some alternative of the group is present in the file. */
  predicate Present(file: seq<Byte>, g: seq<PatchId>)
  {
    exists k | 0 <= k < |g| :: Matches(file, g[k])
  }

  /** The number of groups of the profile of which the file holds some alternative. */
  function Recognized(file: seq<Byte>, groups: seq<seq<PatchId>>): (n: nat)
    ensures n <= |groups|
  {
    if |groups| == 0 then 0
    else Recognized(file, groups[..|groups| - 1]) + (if Present(file, groups[|groups| - 1]) then 1 else 0)
  }

  /** Every group of the profile is recognised exactly when the count reaches the number of groups. */
  lemma {:induction false} AllRecognized(file: seq<Byte>, groups: seq<seq<PatchId>>)
    ensures Recognized(file, groups) == |groups| <==> forall i | 0 <= i < |groups| :: Present(file, groups[i])
  {
    if |groups| > 0 {
      var init := groups[..|groups| - 1];
      AllRecognized(file, init);
      assert forall i | 0 <= i < |init| :: init[i] == groups[i];
    }
  }

  /** No two different positions of `g` are present at once. */
  predicate AtMostOnePresent(file: seq<Byte>, g: seq<PatchId>)
  {
    forall j, k | 0 <= j < |g| && 0 <= k < |g| && Matches(file, g[j]) && Matches(file, g[k]) :: j == k
  }

  /** Alternatives over one range with different bytes cannot be present at once. */
  lemma DistinctAlternatives(file: seq<Byte>, g: seq<PatchId>)
    requires GroupLayout(g) && GroupValuesDistinct(g)
    ensures AtMostOnePresent(file, g)
  {
    forall j, k | 0 <= j < |g| && 0 <= k < |g| && Matches(file, g[j]) && Matches(file, g[k])
      ensures j == k
    {
      assert SameRange(g[j], g[0]) && SameRange(g[k], g[0]);
      assert Value(g[j]) == Value(g[k]);
    }
  }

  /** A group of which at most one alternative is present contributes 1 when present and 0 otherwise. */
  lemma {:induction false} GroupMatchesOneOrNone(file: seq<Byte>, g: seq<PatchId>)
    requires AtMostOnePresent(file, g)
    ensures GroupMatches(file, g) == if Present(file, g) then 1 else 0
  {
    if |g| > 0 {
      var init := g[..|g| - 1];
      assert AtMostOnePresent(file, init) by {
        forall j, k | 0 <= j < |init| && 0 <= k < |init| && Matches(file, init[j]) && Matches(file, init[k])
          ensures j == k
        {
          assert init[j] == g[j] && init[k] == g[k];
        }
      }
      GroupMatchesOneOrNone(file, init);
      if Matches(file, g[|g| - 1]) {
        forall k | 0 <= k < |init| ensures !Matches(file, init[k]) {
          assert init[k] == g[k];
        }
      } else if Present(file, g) {
        var k :| 0 <= k < |g| && Matches(file, g[k]);
        assert init[k] == g[k];
      }
    }
  }

  /**
   * In a well-formed profile every group contributes at most one match, so the
   * count of matching patches is the number of recognised groups, and at most
   * the number of groups.
   */
  lemma {:induction false} CountIsRecognized(file: seq<Byte>, groups: seq<seq<PatchId>>)
    requires ProfileWellFormed(groups)
    ensures CountMatches(file, groups) == Recognized(file, groups) <= |groups|
  {
    if |groups| > 0 {
      var init := groups[..|groups| - 1];
      assert ProfileWellFormed(init) by {
        assert forall i | 0 <= i < |init| :: init[i] == groups[i];
      }
      CountIsRecognized(file, init);
      var last := groups[|groups| - 1];
      DistinctAlternatives(file, last);
      GroupMatchesOneOrNone(file, last);
    }
  }

  lemma CountMatchesStep(file: seq<Byte>, groups: seq<seq<PatchId>>, i: nat)
    requires i < |groups|
    ensures CountMatches(file, groups[..i + 1]) == CountMatches(file, groups[..i]) + GroupMatches(file, groups[i])
  {
    assert groups[..i + 1][..i] == groups[..i];
  }

  lemma GroupMatchesStep(file: seq<Byte>, g: seq<PatchId>, k: nat)
    requires k < |g|
    ensures GroupMatches(file, g[..k + 1]) == GroupMatches(file, g[..k]) + (if Matches(file, g[k]) then 1 else 0)
  {
    assert g[..k + 1][..k] == g[..k];
  }

  /** Checks every alternative of one group, counting those present. */
  method CountGroup(buffer: array<Byte>, f: BinaryFile, g: seq<PatchId>) returns (n: nat)
    requires buffer.Length == BUFFER_SZ
    modifies buffer
    ensures n == GroupMatches(f.contents, g)
  {
    n := 0;
    var k := 0;
    while k < |g|
      invariant 0 <= k <= |g|
      invariant n == GroupMatches(f.contents, g[..k])
    {
      var m := CheckPatch(buffer, f, g[k]);
      GroupMatchesStep(f.contents, g, k);
      if m {
        n := n + 1;
      }
      k := k + 1;
    }
    assert g[..k] == g;
  }

  /** `count_patches`: checks every alternative of every group, counting those present. */
  method CountPatches(buffer: array<Byte>, f: BinaryFile, groups: seq<seq<PatchId>>) returns (count: nat)
    requires buffer.Length == BUFFER_SZ
    modifies buffer
    ensures count == CountMatches(f.contents, groups)
  {
    count := 0;
    var i := 0;
    while i < |groups|
      invariant 0 <= i <= |groups|
      invariant count == CountMatches(f.contents, groups[..i])
    {
      var n := CountGroup(buffer, f, groups[i]);
      CountMatchesStep(f.contents, groups, i);
      count := count + n;
      i := i + 1;
    }
    assert groups[..i] == groups;
  }

  // ---------------------------------------------------------------------
  // find_patchgroup

  /** The index of the first group of the profile that contains `p`, if any. */
  function GroupOf(groups: seq<seq<PatchId>>, p: PatchId): (r: Option<nat>)
    ensures r.Some? ==> r.value < |groups| && p in groups[r.value]
    ensures r.Some? ==> forall i | 0 <= i < r.value :: p !in groups[i]
    ensures r.None? <==> forall i | 0 <= i < |groups| :: p !in groups[i]
  {
    if |groups| == 0 then None
    else
      var r := GroupOf(groups[..|groups| - 1], p);
      if r.Some? then r
      else if p in groups[|groups| - 1] then Some(|groups| - 1)
      else None
  }

  /** Walks the groups in order and returns the first one that contains `p`. */
  method FindPatchGroup(groups: seq<seq<PatchId>>, p: PatchId) returns (r: Option<nat>)
    ensures r == GroupOf(groups, p)
  {
    var i := 0;
    while i < |groups|
      invariant 0 <= i <= |groups|
      invariant forall j | 0 <= j < i :: p !in groups[j]
    {
      var g := groups[i];
      var k := 0;
      while k < |g|
        invariant 0 <= k <= |g|
        invariant p !in g[..k]
      {
        if g[k] == p {
          var found := GroupOf(groups, p);
          assert found.Some? && found.value == i;
          return Some(i);
        }
        assert g[..k + 1] == g[..k] + [g[k]];
        k := k + 1;
      }
      assert g[..k] == g;
      i := i + 1;
    }
    return None;
  }

  /**
   * In a profile whose groups do not overlap, a patch belongs to one group
   * only: the group `find_patchgroup` returns is the one it lies in.
   */
  lemma OnlyGroup(groups: seq<seq<PatchId>>, p: PatchId, i: nat)
    requires ProfileLayout(groups)
    requires i < |groups| && p in groups[i]
    ensures GroupOf(groups, p) == Some(i)
  {
    var r := GroupOf(groups, p);
    if r.value < i {
      assert false;
    }
  }

  // ---------------------------------------------------------------------
  // apply_patch

  /** The position of the first alternative of `g` the file holds, if any. */
  function FirstMatch(file: seq<Byte>, g: seq<PatchId>): (r: Option<nat>)
    ensures r.Some? ==> r.value < |g| && Matches(file, g[r.value])
    ensures r.Some? ==> forall k | 0 <= k < r.value :: !Matches(file, g[k])
    ensures r.None? <==> forall k | 0 <= k < |g| :: !Matches(file, g[k])
  {
    if |g| == 0 then None
    else
      var r := FirstMatch(file, g[..|g| - 1]);
      if r.Some? then r
      else if Matches(file, g[|g| - 1]) then Some(|g| - 1)
      else None
  }

  /** What applying a patch comes to. */
  datatype Outcome =
    | Patched(previous: PatchId, file: seq<Byte>)  // the group held `previous`; `file` is the result
    | NoPreviousState                               // no alternative of the group is present; nothing written
    | NotInProfile                                  // the patch belongs to no group of the profile

  /**
   * `apply_patch` as written: the patch must lie in some group (the source
   * asserts it). The first alternative of that group the file holds is the
   * previous state; the patch's bytes are then written over its range.
   */
  function ApplyAsWritten(file: seq<Byte>, groups: seq<seq<PatchId>>, patch: PatchId): (r: Outcome)
    requires GroupOf(groups, patch).Some?
    ensures !r.NotInProfile?
    ensures r.NoPreviousState? <==> forall k | 0 <= k < |groups[GroupOf(groups, patch).value]| ::
      !Matches(file, groups[GroupOf(groups, patch).value][k])
  {
    var g := groups[GroupOf(groups, patch).value];
    var k := FirstMatch(file, g);
    if k.None? then NoPreviousState
    else Patched(g[k.value], Overwrite(file, Offset(patch), Value(patch)))
  }

  /** `apply_patch` with a patch outside the profile refused instead of asserted on. */
  function Apply(file: seq<Byte>, groups: seq<seq<PatchId>>, patch: PatchId): (r: Outcome)
    ensures r.NotInProfile? <==> forall i | 0 <= i < |groups| :: patch !in groups[i]
  {
    if GroupOf(groups, patch).None? then NotInProfile else ApplyAsWritten(file, groups, patch)
  }

  /** Once the patch's group and the first alternative present in it are known, so is the outcome. */
  lemma ApplyAt(file: seq<Byte>, groups: seq<seq<PatchId>>, patch: PatchId, i: nat, k: nat)
    requires GroupOf(groups, patch) == Some(i) && FirstMatch(file, groups[i]) == Some(k)
    ensures Apply(file, groups, patch) == Patched(groups[i][k], Overwrite(file, Offset(patch), Value(patch)))
  {
  }

  /** In a group whose alternatives can be told apart, the alternative present is the first one present. */
  lemma PresentIsFirst(file: seq<Byte>, g: seq<PatchId>, a: nat)
    requires GroupLayout(g) && GroupValuesDistinct(g)
    requires a < |g| && Matches(file, g[a])
    ensures FirstMatch(file, g) == Some(a)
  {
    DistinctAlternatives(file, g);
  }

  /** Writing a patch over a range that lies inside the file puts the patch in place and keeps the length. */
  lemma PatchInPlace(file: seq<Byte>, p: PatchId)
    requires Offset(p) + Len(p) <= |file|
    ensures |Overwrite(file, Offset(p), Value(p))| == |file|
    ensures Matches(Overwrite(file, Offset(p), Value(p)), p)
  {
    DescsValid();
    assert ValidDesc(p);
    OverwriteInside(file, Offset(p), Value(p));
  }

  /** Writing `patch` over the alternative `prev` the file holds, then `prev` back, gives the file back. */
  lemma UndoSwitch(file: seq<Byte>, patch: PatchId, prev: PatchId)
    requires SameRange(prev, patch) && Matches(file, prev)
    ensures Overwrite(Overwrite(file, Offset(patch), Value(patch)), Offset(prev), Value(prev)) == file
  {
    DescsValid();
    assert ValidDesc(patch);
    OverwriteUndo(file, Offset(patch), Value(patch));
  }

  /**
   * A successful patch leaves the file's length alone, puts the patch's
   * bytes in place and changes nothing outside its range; the previous
   * state it reports is the first alternative of the patch's own group
   * the file held.
   */
  lemma ApplyWritesTarget(file: seq<Byte>, groups: seq<seq<PatchId>>, patch: PatchId)
    requires ProfileLayout(groups)
    requires Apply(file, groups, patch).Patched?
    ensures var r := Apply(file, groups, patch);
      && var i := GroupOf(groups, patch).value;
      && r.previous == groups[i][FirstMatch(file, groups[i]).value]
      && Matches(file, r.previous)
      && SameRange(r.previous, patch)
      && |r.file| == |file|
      && Matches(r.file, patch)
      && forall j | 0 <= j < |file| && !(Offset(patch) <= j < Offset(patch) + Len(patch)) :: r.file[j] == file[j]
  {
    var i := GroupOf(groups, patch).value;
    var g := groups[i];
    var k := FirstMatch(file, g).value;
    ApplyAt(file, groups, patch, i, k);
    var a :| 0 <= a < |g| && g[a] == patch;
    assert SameRange(g[k], g[0]) && SameRange(g[a], g[0]);
    DescsValid();
    assert ValidDesc(patch);
    OverwriteInside(file, Offset(patch), Value(patch));
    OverwriteBytes(file, Offset(patch), Value(patch));
  }

  /**
   * Switching a group from one alternative to another and back restores
   * the file exactly, and the way back reports the patch as its previous
   * state.
   */
  lemma ApplyRestores(file: seq<Byte>, groups: seq<seq<PatchId>>, patch: PatchId)
    requires ProfileWellFormed(groups)
    requires Apply(file, groups, patch).Patched?
    ensures var r := Apply(file, groups, patch);
      Apply(r.file, groups, r.previous) == Patched(patch, file)
  {
    var i := GroupOf(groups, patch).value;
    var g := groups[i];
    var k := FirstMatch(file, g).value;
    ApplyAt(file, groups, patch, i, k);
    var a :| 0 <= a < |g| && g[a] == patch;
    assert SameRange(g[k], g[0]) && SameRange(g[a], g[0]);
    PatchInPlace(file, patch);
    var after := Overwrite(file, Offset(patch), Value(patch));
    PresentIsFirst(after, g, a);
    OnlyGroup(groups, g[k], i);
    ApplyAt(after, groups, g[k], i, a);
    UndoSwitch(file, patch, g[k]);
  }

  /** Applying a patch that is already in place succeeds, reports it as the previous state and changes nothing. */
  lemma ApplyIdempotent(file: seq<Byte>, groups: seq<seq<PatchId>>, patch: PatchId)
    requires ProfileWellFormed(groups)
    requires Apply(file, groups, patch).Patched?
    ensures var r := Apply(file, groups, patch);
      Apply(r.file, groups, patch) == Patched(patch, r.file)
  {
    var i := GroupOf(groups, patch).value;
    var g := groups[i];
    var k := FirstMatch(file, g).value;
    ApplyAt(file, groups, patch, i, k);
    var a :| 0 <= a < |g| && g[a] == patch;
    assert SameRange(g[k], g[0]) && SameRange(g[a], g[0]);
    PatchInPlace(file, patch);
    var after := Overwrite(file, Offset(patch), Value(patch));
    PresentIsFirst(after, g, a);
    ApplyAt(after, groups, patch, i, a);
    DescsValid();
    assert ValidDesc(patch);
    OverwriteUnchanged(after, Offset(patch), Value(patch));
  }

  /**
   * In every known profile, a group the file is recognised in can be switched
   * back to the unmodified code: the group's first alternative is the
   * original one, and applying it succeeds and puts it in place.
   */
  lemma RevertToOriginal(file: seq<Byte>, b: nat, i: nat)
    requires b < |BINARIES| && i < |BINARIES[b].patchgroups|
    requires Present(file, BINARIES[b].patchgroups[i])
    ensures var groups := BINARIES[b].patchgroups;
      var orig := groups[i][0];
      && IsOriginal(orig)
      && Apply(file, groups, orig).Patched?
      && Matches(Apply(file, groups, orig).file, orig)
  {
    var groups := BINARIES[b].patchgroups;
    ProfilesWellFormed();
    GroupsStartWithOriginal();
    assert OriginalFirst(groups[i]);
    var orig := groups[i][0];
    OnlyGroup(groups, orig, i);
    var k :| 0 <= k < |groups[i]| && Matches(file, groups[i][k]);
    assert FirstMatch(file, groups[i]).Some?;
    ApplyWritesTarget(file, groups, orig);
  }

  /** Checks the alternatives of a group in order and stops at the first one the file holds. */
  method FindPrevious(buffer: array<Byte>, f: BinaryFile, group: seq<PatchId>) returns (k: Option<nat>)
    requires buffer.Length == BUFFER_SZ
    modifies buffer
    ensures k == FirstMatch(f.contents, group)
  {
    var i := 0;
    while i < |group|
      invariant 0 <= i <= |group|
      invariant forall j | 0 <= j < i :: !Matches(f.contents, group[j])
    {
      var m := CheckPatch(buffer, f, group[i]);
      if m {
        return Some(i);
      }
      i := i + 1;
    }
    return None;
  }

  /**
   * Looks up the patch's group, finds the alternative the file holds, and
   * writes the patch's bytes over that range. Nothing is written when the
   * patch is in no group or no alternative is present.
   */
  method ApplyPatch(buffer: array<Byte>, f: BinaryFile, groups: seq<seq<PatchId>>, patch: PatchId) returns (ok: bool)
    requires buffer.Length == BUFFER_SZ
    modifies buffer, f
    ensures ok == Apply(old(f.contents), groups, patch).Patched?
    ensures f.contents == if ok then Apply(old(f.contents), groups, patch).file else old(f.contents)
  {
    var gi := FindPatchGroup(groups, patch);
    if gi.None? {
      return false;
    }
    var previous := FindPrevious(buffer, f, groups[gi.value]);
    if previous.None? {
      return false;
    }
    DescsValid();
    assert ValidDesc(patch);
    WriteBuffer(Value(patch), f, Offset(patch), Len(patch));
    assert Value(patch)[..Len(patch)] == Value(patch);
    return true;
  }

  // ---------------------------------------------------------------------
  // apply_collection

  /**
   * Applies `step` to the patches in order and stops at the first one that
   * does not patch; the result says whether all patched and what the file
   * then holds (the patches before a failure stay applied).
   */
  function Run(step: (seq<Byte>, PatchId) -> Outcome, file: seq<Byte>, ps: seq<PatchId>): (bool, seq<Byte>)
    decreases |ps|
  {
    if |ps| == 0 then (true, file)
    else
      var o := step(file, ps[0]);
      if o.Patched? then Run(step, o.file, ps[1..]) else (false, file)
  }

  /** Applying a list of patches to a profile, one `apply_patch` after another. */
  function ApplyAll(file: seq<Byte>, groups: seq<seq<PatchId>>, ps: seq<PatchId>): (bool, seq<Byte>)
  {
    Run((f: seq<Byte>, p: PatchId) => Apply(f, groups, p), file, ps)
  }

  /** The first step of a run: it either patches and the rest follows, or it fails and the run stops unchanged. */
  lemma RunHead(step: (seq<Byte>, PatchId) -> Outcome, file: seq<Byte>, ps: seq<PatchId>)
    requires |ps| > 0
    ensures var o := step(file, ps[0]);
      Run(step, file, ps) == if o.Patched? then Run(step, o.file, ps[1..]) else (false, file)
  {
  }

  /** A run succeeds exactly when every step, taken from the state its predecessors left, patches. */
  lemma {:induction false} RunSucceeds(step: (seq<Byte>, PatchId) -> Outcome, file: seq<Byte>, ps: seq<PatchId>)
    ensures Run(step, file, ps).0 <==>
      forall k | 0 <= k < |ps| :: step(Run(step, file, ps[..k]).1, ps[k]).Patched?
    decreases |ps|
  {
    if |ps| > 0 {
      RunHead(step, file, ps);
      var o := step(file, ps[0]);
      assert ps[..0] == [];
      if o.Patched? {
        RunSucceeds(step, o.file, ps[1..]);
        forall k | 1 <= k <= |ps|
          ensures Run(step, file, ps[..k]) == Run(step, o.file, ps[1..][..k - 1])
        {
          assert ps[..k][0] == ps[0];
          assert ps[..k][1..] == ps[1..][..k - 1];
          RunHead(step, file, ps[..k]);
        }
        assert forall k | 1 <= k < |ps| :: ps[k] == ps[1..][k - 1];
      }
    }
  }

  /**
   * When a run fails at patch `k`, the patches before it have been applied
   * and stay applied, and the step for patch `k` did not patch.
   */
  lemma {:induction false} RunStops(step: (seq<Byte>, PatchId) -> Outcome, file: seq<Byte>, ps: seq<PatchId>)
    requires !Run(step, file, ps).0
    ensures exists k | 0 <= k < |ps| ::
      && Run(step, file, ps[..k]) == (true, Run(step, file, ps).1)
      && !step(Run(step, file, ps).1, ps[k]).Patched?
    decreases |ps|
  {
    var result := Run(step, file, ps).1;
    RunHead(step, file, ps);
    var o := step(file, ps[0]);
    if o.Patched? {
      var rest := ps[1..];
      RunStops(step, o.file, rest);
      var k :| 0 <= k < |rest| && Run(step, o.file, rest[..k]) == (true, result)
        && !step(result, rest[k]).Patched?;
      assert ps[..k + 1][0] == ps[0] && ps[..k + 1][1..] == rest[..k];
      RunHead(step, file, ps[..k + 1]);
      assert ps[k + 1] == rest[k];
    } else {
      assert ps[..0] == [];
    }
  }

  /** A successful patch leaves in place every patch whose range it does not touch. */
  lemma ApplyKeeps(file: seq<Byte>, groups: seq<seq<PatchId>>, patch: PatchId, q: PatchId)
    requires ProfileLayout(groups)
    requires Apply(file, groups, patch).Patched?
    requires Disjoint(patch, q) && Matches(file, q)
    ensures Matches(Apply(file, groups, patch).file, q)
  {
    ApplyWritesTarget(file, groups, patch);
    DescsValid();
    assert ValidDesc(patch);
    OverwriteElsewhere(file, Offset(patch), Value(patch), Offset(q), Len(q));
  }

  /** A successful collection is its first patch followed by the rest of the collection. */
  lemma ApplyAllFirst(file: seq<Byte>, groups: seq<seq<PatchId>>, ps: seq<PatchId>)
    requires |ps| > 0 && ApplyAll(file, groups, ps).0
    ensures Apply(file, groups, ps[0]).Patched?
    ensures ApplyAll(file, groups, ps) == ApplyAll(Apply(file, groups, ps[0]).file, groups, ps[1..])
  {
    RunHead((f: seq<Byte>, p: PatchId) => Apply(f, groups, p), file, ps);
  }

  /** The rest of a list of non-overlapping patches does not overlap itself or the first patch. */
  lemma DisjointTail(ps: seq<PatchId>)
    requires PairwiseDisjoint(ps) && |ps| > 0
    ensures PairwiseDisjoint(ps[1..])
    ensures forall k | 0 <= k < |ps| - 1 :: Disjoint(ps[1..][k], ps[0])
  {
    forall k | 0 <= k < |ps| - 1 ensures Disjoint(ps[1..][k], ps[0]) {
      assert ps[1..][k] == ps[k + 1];
    }
    forall j, k | 0 <= j < k < |ps| - 1 ensures Disjoint(ps[1..][j], ps[1..][k]) {
      assert ps[1..][j] == ps[j + 1] && ps[1..][k] == ps[k + 1];
    }
  }

  /**
   * After a successful collection whose patches do not overlap, every
   * patch of the collection is present and the file has kept its length.
   */
  lemma {:induction false} CollectionRealized(file: seq<Byte>, groups: seq<seq<PatchId>>, ps: seq<PatchId>)
    requires ProfileLayout(groups) && PairwiseDisjoint(ps)
    requires ApplyAll(file, groups, ps).0
    decreases |ps|
    ensures |ApplyAll(file, groups, ps).1| == |file|
    ensures forall k | 0 <= k < |ps| :: Matches(ApplyAll(file, groups, ps).1, ps[k])
  {
    if |ps| > 0 {
      ApplyAllFirst(file, groups, ps);
      var next := Apply(file, groups, ps[0]).file;
      var rest := ps[1..];
      var last := ApplyAll(next, groups, rest).1;
      DisjointTail(ps);
      CollectionRealized(next, groups, rest);
      ApplyWritesTarget(file, groups, ps[0]);
      ApplyAllKeeps(next, groups, rest, ps[0]);
      forall k | 1 <= k < |ps| ensures Matches(last, ps[k]) {
        assert ps[k] == rest[k - 1];
      }
    }
  }

  /** After any X-Wing Alliance collection succeeds, all of its patches are present. */
  lemma XwaCollectionRealized(file: seq<Byte>, c: nat)
    requires c < |XWA_COLLECTIONS|
    requires ApplyAll(file, XWA_PATCHGROUPS, XWA_COLLECTIONS[c].patches).0
    ensures var ps := XWA_COLLECTIONS[c].patches;
      forall k | 0 <= k < |ps| :: Matches(ApplyAll(file, XWA_PATCHGROUPS, ps).1, ps[k])
  {
    XwaProfileLayout();
    CollectionsWellFormed();
    CollectionRealized(file, XWA_PATCHGROUPS, XWA_COLLECTIONS[c].patches);
  }

  /** A successful run of patches none of which overlaps `q` leaves `q` in place. */
  lemma {:induction false} ApplyAllKeeps(file: seq<Byte>, groups: seq<seq<PatchId>>, ps: seq<PatchId>, q: PatchId)
    requires ProfileLayout(groups)
    requires ApplyAll(file, groups, ps).0 && Matches(file, q)
    requires forall k | 0 <= k < |ps| :: Disjoint(ps[k], q)
    decreases |ps|
    ensures Matches(ApplyAll(file, groups, ps).1, q)
  {
    if |ps| > 0 {
      ApplyAllFirst(file, groups, ps);
      var next := Apply(file, groups, ps[0]).file;
      ApplyKeeps(file, groups, ps[0], q);
      forall k | 0 <= k < |ps| - 1 ensures Disjoint(ps[1..][k], q) {
        assert ps[1..][k] == ps[k + 1];
      }
      ApplyAllKeeps(next, groups, ps[1..], q);
    }
  }

  // ---------------------------------------------------------------------
  // num_collections

  /**
   * `num_collections` as written: it counts the entries of the binary's
   * collection table without checking that the binary has one. Where the
   * table exists, it agrees with the corrected count.
   */
  function NumCollectionsAsWritten(cs: Option<seq<Collection>>): (n: nat)
    requires cs.Some?
    ensures n == NumCollections(cs)
  {
    |cs.value|
  }

  /** The number of collections a binary offers; a binary without a collection table offers none. */
  function NumCollections(cs: Option<seq<Collection>>): (n: nat)
    ensures cs.None? ==> n == 0
    ensures cs.Some? ==> n == |cs.value|
  {
    if cs.None? then 0 else |cs.value|
  }

  /** X-Wing Alliance offers its four collections; the three older binaries offer none. */
  lemma CollectionCounts()
    ensures NumCollections(BINARIES[0].collections) == 4
    ensures forall b | 1 <= b < |BINARIES| :: NumCollections(BINARIES[b].collections) == 0
  {
  }

  /** An index the collection count admits names an existing collection. */
  lemma CollectionIndexValid(binary: Binary, c: nat)
    requires c < NumCollections(binary.collections)
    ensures binary.collections.Some? && c < |binary.collections.value|
  {
  }

  /**
   * Three of the four known binaries have no collection table, so counting
   * their collections as written reads through a missing table.
   */
  lemma OlderBinariesLackCollections()
    ensures forall b | 1 <= b < |BINARIES| :: BINARIES[b].collections.None?
  {
  }

  /**
   * A patch number the command line accepts need not belong to the
   * detected binary's profile: the TIE Fighter 95 clear patch lies in no
   * X-Wing Alliance group, so `apply_patch` as written fails its assertion.
   */
  lemma PatchOutsideProfile(file: seq<Byte>)
    ensures GroupOf(XWA_PATCHGROUPS, PATCH_TIE95_BLT_CLEAR).None?
    ensures Apply(file, XWA_PATCHGROUPS, PATCH_TIE95_BLT_CLEAR) == NotInProfile
  {
  }

  /**
   * `apply_collection`: applies collection `c` of the binary's profile in
   * order, stopping at the first patch that fails; patches applied before
   * the failure are not undone.
   */
  method ApplyCollection(buffer: array<Byte>, f: BinaryFile, binary: Binary, c: nat) returns (ok: bool)
    requires buffer.Length == BUFFER_SZ
    requires c < NumCollections(binary.collections)
    modifies buffer, f
    ensures (ok, f.contents) == ApplyAll(old(f.contents), binary.patchgroups, binary.collections.value[c].patches)
  {
    var ps := binary.collections.value[c].patches;
    var groups := binary.patchgroups;
    var i := 0;
    while i < |ps|
      invariant 0 <= i <= |ps|
      invariant ApplyAll(old(f.contents), groups, ps) == ApplyAll(f.contents, groups, ps[i..])
    {
      assert ps[i..][0] == ps[i] && ps[i..][1..] == ps[i + 1..];
      var done := ApplyPatch(buffer, f, groups, ps[i]);
      if !done {
        return false;
      }
      i := i + 1;
    }
    return true;
  }
}
