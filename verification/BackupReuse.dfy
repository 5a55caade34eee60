/** When a repeated backup may leave an earlier copy of a segment standing: always, unless that copy is
    of the segment the run that made it found at the end of the log (`copy_log` of `src/backup.rs`). */
module BackupReuse {
  import opened Options
  import opened LogFiles
  import opened SegmentCopy
  import opened Backup

  /** No copy is left standing that is the highest the target holds. */
  predicate Guarded(w: World) {
    forall b :: b in w.segments && Reuses(Bytes(w.segments), w.target.files, b) ==> !Highest(w.target.files.Keys, b)
  }

  ghost predicate GuardedRun(w: World, run: seq<Step>, w': World)
    decreases |run|
  {
    if run == [] then w' == w
    else Enabled(w, run[0]) && (run[0].List? ==> Guarded(w)) && GuardedRun(Next(w, run[0]), run[1..], w')
  }

  // ----- the invariant -----------------------------------------------------

  function After(segments: map<nat, Segment>, b: nat): nat
    requires b in segments
  {
    b + |Read(segments[b].bytes)|
  }

  /** Each segment begins where the one before it ends. */
  predicate Linked(segments: map<nat, Segment>, active: nat) {
    && 0 in segments
    && (forall b :: b in segments && b < active ==> After(segments, b) in segments && b < After(segments, b))
    && (forall b, c :: b in segments && c in segments && b < c ==> After(segments, b) <= c)
  }

  /** The copy of a sealed segment, whole. */
  predicate Full(w: World, b: nat) {
    b in w.segments && b < w.active && b in w.target.files && w.target.files[b] == w.segments[b].bytes
  }

  predicate Below(w: World) {
    forall b :: b in w.target.files ==> Full(w, b) || Highest(w.target.files.Keys, b)
  }

  /** Up to what was committed when the highest file was measured, its bytes do not change. */
  predicate GotRight(w: World, name: nat)
    requires w.phase.Copying?
  {
    && name in w.segments && |w.phase.got| <= |w.segments[name].bytes|
    && forall i :: 0 <= i < |w.phase.got| && (name == w.phase.top ==> i < w.phase.floor) ==>
         w.phase.got[i] == w.segments[name].bytes[i]
  }

  /** What the listed run will hold. */
  ghost predicate ListedOk(w: World)
    requires w.phase.Copying?
  {
    var top := w.phase.top;
    && top in w.segments && top <= w.active && (top in w.phase.todo || top in w.target.files)
    && (forall b :: b in w.segments && b < top ==> b in w.phase.todo || b in w.target.files)
    && (forall b :: b in w.phase.todo ==> b in w.segments && b <= top)
    && (forall b :: b in w.target.files ==> b <= top && (Full(w, b) || b in w.phase.todo || b == top))
  }

  predicate TopOk(w: World)
    requires w.phase.Copying?
  {
    var top, floor := w.phase.top, w.phase.floor;
    && top in w.segments && floor <= w.segments[top].committed <= |w.segments[top].bytes| && floor <= w.phase.prefix
    && w.phase.before <= top + |Read(w.segments[top].bytes[..floor])|
    && (top in w.target.files && top !in w.phase.todo ==> SameTo(w.segments[top].bytes, w.target.files[top], floor))
  }

  ghost predicate ReachOk(w: World) {
    && (w.phase.Copying? ==> ListedOk(w) && TopOk(w) && forall name :: Lowest(w.phase.todo, name) ==> GotRight(w, name))
    && (w.phase.Snapped? ==> w.phase.before <= Head(w.target))
  }

  ghost predicate Reusable(w: World) {
    Linked(w.segments, w.active) && Below(w) && ReachOk(w)
  }

  // ----- the writer --------------------------------------------------------

  /** Sealed segments stay as they are, and segments are added at the end. */
  predicate SealedStay(w: World, w': World) {
    && w.active <= w'.active && (forall b :: b in w'.segments && b !in w.segments ==> w.active < b)
    && forall b :: b in w.segments ==> b in w'.segments && (b < w.active ==> w'.segments[b] == w.segments[b])
  }

  lemma LinkedGrows(segments: map<nat, Segment>, active: nat, after: Segment)
    requires Linked(segments, active) && active in segments && forall b :: b in segments ==> b <= active
    requires |Read(segments[active].bytes)| <= |Read(after.bytes)|
    ensures Linked(segments[active := after], active)
  {
    hide Read;
    var segments' := segments[active := after];
    forall b | b in segments && b < active ensures After(segments', b) == After(segments, b) {}
  }

  lemma LinkedRoll(segments: map<nat, Segment>, active: nat, size: nat)
    requires Linked(segments, active) && active in segments && forall b :: b in segments ==> b <= active
    requires Read(segments[active].bytes) != []
    ensures Linked(segments[After(segments, active) := Empty(size)], After(segments, active))
  {
    hide Read, Empty;
    var next := After(segments, active);
    var segments' := segments[next := Empty(size)];
    forall b | b in segments ensures b < next && After(segments', b) == After(segments, b) {}
  }

  lemma Topmost(w: World)
    requires LogOk(w)
    ensures w.active in w.segments && (forall b :: b in w.segments ==> b <= w.active) && Sound(w.segments[w.active])
    ensures After(w.segments, w.active) == |w.log|
  {
  }

  lemma LinkedOn(w: World, step: Step)
    requires LogOk(w) && Linked(w.segments, w.active) && Enabled(w, step)
      && (step.Scribble? || step.Append? || step.Roll?)
    ensures Linked(Next(w, step).segments, Next(w, step).active)
  {
    Topmost(w);
    hide LogOk, Linked, Read, Sound;
    if step.Scribble? {
      ScratchReads(w.segments[w.active], step.tail);
      LinkedGrows(w.segments, w.active, Scratch(w.segments[w.active], step.tail));
    } else if step.Append? {
      CommitReads(w.segments[w.active], step.batch);
      LinkedGrows(w.segments, w.active, Commit(w.segments[w.active], step.batch));
    } else {
      LinkedRoll(w.segments, w.active, step.size);
    }
  }

  lemma SealedOn(w: World, step: Step)
    requires LogOk(w) && Enabled(w, step) && (step.Scribble? || step.Append? || step.Roll?)
    ensures SealedStay(w, Next(w, step)) && Next(w, step).target == w.target && Next(w, step).phase == w.phase
  {
    Topmost(w);
    hide LogOk, Read, Sound, Scratch, Commit, Fits, Uncommitted, Empty;
  }

  lemma BelowStays(w: World, w': World)
    requires SealedStay(w, w') && w'.target == w.target
    ensures Below(w) ==> Below(w')
    ensures w.phase.Copying? && w'.phase == w.phase && ListedOk(w) ==> ListedOk(w')
  {
    forall b | b in w.target.files && Full(w, b) ensures Full(w', b) {}
  }

  lemma WriterReach(w: World, w': World)
    requires Below(w) && ReachOk(w) && SealedStay(w, w') && Extends(w, w')
    requires w'.target == w.target && w'.phase == w.phase
    ensures Below(w') && ReachOk(w')
  {
    BelowStays(w, w');
    hide Read, ReadLog, Lowest, Below, SealedStay, Extends, GotRight, ListedOk, TopOk;
    if w.phase.Copying? {
      TopStays(w, w');
      forall name | Lowest(w.phase.todo, name) ensures GotRight(w', name) {
        GotStays(w, w', name);
      }
    }
  }

  lemma GrownBytes(before: Segment, after: Segment, i: nat)
    requires Grown(before, after) && i < before.committed
    ensures after.bytes[i] == before.bytes[i]
  {
    assert after.bytes[i] == after.bytes[..before.committed][i] == before.bytes[..before.committed][i];
  }

  lemma TopStays(w: World, w': World)
    requires w.phase.Copying? && TopOk(w) && Extends(w, w') && w'.target == w.target && w'.phase == w.phase
    ensures TopOk(w')
  {
    var before, after, floor := w.segments[w.phase.top], w'.segments[w.phase.top], w.phase.floor;
    assert Grown(before, after);
    forall i | 0 <= i < floor ensures after.bytes[i] == before.bytes[i] { GrownBytes(before, after, i); }
    assert after.bytes[..floor] == before.bytes[..floor];
    hide Read;
  }

  lemma GotStays(w: World, w': World, name: nat)
    requires w.phase.Copying? && ListedOk(w) && TopOk(w) && Lowest(w.phase.todo, name) && GotRight(w, name)
    requires SealedStay(w, w') && Extends(w, w') && w'.phase == w.phase
    ensures GotRight(w', name)
  {
    hide Read, Full;
    var before, after := w.segments[name], w'.segments[name];
    assert Grown(before, after);
    if name == w.phase.top {
      forall i | 0 <= i < w.phase.floor ensures after.bytes[i] == before.bytes[i] { GrownBytes(before, after, i); }
    } else {
      assert name < w.active;
    }
  }

  // ----- the backup --------------------------------------------------------

  /** What is committed is read without what stands above it. */
  lemma CommittedReads(segment: Segment)
    requires Sound(segment)
    ensures Read(segment.bytes[..segment.committed]) == Read(segment.bytes)
  {
    var c := segment.committed;
    ReadsOver(segment.bytes, segment.bytes[..c], 0, c);
    UnmarkedReads(segment.bytes[..c], c);
  }

  lemma ListTop(w: World, step: Step)
    requires Inv(w) && step.List? && Enabled(w, step)
    ensures TopOk(Next(w, step)) && Highest(Bytes(w.segments).Keys, w.active)
    ensures Next(w, step).target.files == w.target.files && forall b :: b in w.target.files ==> b in w.segments
  {
    InvParts(w);
    Topmost(w);
    assert Copies(w.target.files, w.log, w.segments) && w.phase.before <= |w.log|;
    hide LogOk, Inv, KeysOk, PhaseOk, TrueCopy, Read, ReadsAs;
    CommittedReads(w.segments[w.active]);
    SoundFits(w.segments[w.active]);
    hide Sound, Todo;
    assert w.active !in Next(w, step).phase.todo ==> w.active !in w.target.files by { hide Extent; ActiveMoves(w); }
  }

  /** The file being appended to is always copied. */
  lemma ActiveMoves(w: World)
    requires w.active in w.segments && forall b :: b in w.segments ==> b <= w.active
    ensures w.active in Todo(w) && Highest(Bytes(w.segments).Keys, w.active)
  {
    hide Extent;
    assert forall b :: b in w.segments <==> b in Bytes(w.segments);
  }

  lemma ListReach(w: World, step: Step)
    requires Inv(w) && Reusable(w) && step.List? && Enabled(w, step) && Guarded(w)
    ensures Reusable(Next(w, step))
  {
    var w' := Next(w, step);
    ListTop(w, step);
    hide Inv, TopOk, Linked, Read, ReadLog, Reuses;
    assert Below(w');
    ListsAll(w, w');
    hide ListedOk, Below;
    forall name | Lowest(w'.phase.todo, name) ensures GotRight(w', name) {}
  }

  lemma ListsAll(w: World, w': World)
    requires Below(w) && Guarded(w) && w'.phase.Copying? && w'.phase.todo == Todo(w) && w'.phase.top == w.active
    requires w'.segments == w.segments && w'.target.files == w.target.files && w'.active == w.active
    requires Highest(Bytes(w.segments).Keys, w.active) && forall b :: b in w.target.files ==> b in w.segments
    ensures ListedOk(w')
  {
    assert forall b :: b in w.segments <==> b in Bytes(w.segments);
    hide Extent, Read;
  }

  lemma ReadReach(w: World, step: Step)
    requires Reusable(w) && step.ReadByte? && Enabled(w, step)
    ensures Reusable(Next(w, step))
  {
    var w' := Next(w, step);
    hide Read, ReadLog, Linked, PrefixOf, SameTo;
    assert GotRight(w, step.name);
    BelowSame(w, w');
    hide Below, ListedOk, Full;
    forall name | Lowest(w'.phase.todo, name) ensures name == step.name {}
    assert GotRight(w', step.name);
    assert TopOk(w');
  }

  lemma BelowSame(w: World, w': World)
    requires w'.segments == w.segments && w'.active == w.active && w'.target.files == w.target.files
    ensures Below(w') <==> Below(w)
    ensures w.phase.Copying? && w'.phase.Copying? && w'.phase.todo == w.phase.todo && w'.phase.top == w.phase.top ==>
      (ListedOk(w') <==> ListedOk(w))
  {
    assert forall b :: Full(w', b) == Full(w, b);
  }

  lemma SealedCopy(got: File, file: File)
    requires |got| <= |file| && Extent(file) <= |got| && forall i :: 0 <= i < |got| ==> got[i] == file[i]
    ensures got + Zeros(|file| - |got|) == file
  {
    ExtentLeast(file, |got|);
  }

  /** A file placed is whole, or the highest listed and whole up to what was committed. */
  lemma PlacedRight(w: World, step: Step)
    requires Reusable(w) && step.Place? && Enabled(w, step)
    ensures
      var w', name := Next(w, step), step.name;
      if name == w.phase.top then SameTo(w.segments[name].bytes, w'.target.files[name], w.phase.floor)
      else Full(w', name)
  {
    hide Read, ReadLog, Linked, Below, Extent;
    var got, file := w.phase.got, w.segments[step.name].bytes;
    assert GotRight(w, step.name);
    if step.name != w.phase.top {
      SealedCopy(got, file);
    }
  }

  lemma PlaceFull(w: World, step: Step, b: nat)
    requires step.Place? && Enabled(w, step) && b != step.name
    ensures Full(Next(w, step), b) <==> Full(w, b)
  {
    hide PrefixOf, Zeros, Lowest;
  }

  lemma PlaceListed(w: World, step: Step)
    requires Reusable(w) && step.Place? && Enabled(w, step)
    ensures ListedOk(Next(w, step))
  {
    var w', name := Next(w, step), step.name;
    PlacedRight(w, step);
    hide Read, ReadLog, Linked, Extent, SameTo, TopOk, GotRight, PrefixOf, Zeros, Below, Full;
    forall b | b in w.target.files && b != name ensures Full(w', b) == Full(w, b) { PlaceFull(w, step, b); }
  }

  lemma PlaceBelow(w: World, step: Step)
    requires Reusable(w) && step.Place? && Enabled(w, step)
    ensures Below(Next(w, step))
  {
    var w', name := Next(w, step), step.name;
    PlacedRight(w, step);
    hide Read, ReadLog, Linked, Extent, SameTo, TopOk, GotRight, PrefixOf, Zeros, Full;
    forall b | b in w'.target.files ensures Full(w', b) || Highest(w'.target.files.Keys, b) {
      if b != name {
        PlaceFull(w, step, b);
        if !Full(w, b) {
          assert Highest(w.target.files.Keys, b) && (b in w.phase.todo || b == w.phase.top);
          assert name <= b;
        }
      }
    }
  }

  lemma PlaceTop(w: World, step: Step)
    requires Reusable(w) && step.Place? && Enabled(w, step)
    ensures TopOk(Next(w, step))
  {
    var w', name := Next(w, step), step.name;
    PlacedRight(w, step);
    hide Read, ReadLog, Linked, Extent, SameTo, GotRight, PrefixOf, Zeros, Below, Full;
  }

  lemma PlaceReach(w: World, step: Step)
    requires Reusable(w) && step.Place? && Enabled(w, step)
    ensures Reusable(Next(w, step))
  {
    var w', name := Next(w, step), step.name;
    PlaceListed(w, step);
    PlaceBelow(w, step);
    PlaceTop(w, step);
    hide Read, ReadLog, Linked, TopOk, PrefixOf, Zeros, Below, Full;
    forall other | Lowest(w'.phase.todo, other) ensures GotRight(w', other) {}
  }

  /** Whole copies of all the segments below a file lead a reader to that file. */
  lemma {:induction false} FilesReach(files: map<nat, File>, segments: map<nat, Segment>, active: nat, base: nat,
                                      top: nat)
    requires Linked(segments, active) && base in segments && top in segments && base <= top <= active && top in files
    requires forall b :: b in segments && base <= b < top ==> b in files && files[b] == segments[b].bytes
    ensures top + |Read(files[top])| <= base + |ReadLog(files, base)|
    decreases top - base
  {
    hide Read;
    if base < top {
      FilesReach(files - {base}, segments, active, After(segments, base), top);
    }
  }

  lemma CopyReaches(w: World)
    requires w.phase.Copying? && w.phase.todo == {} && ListedOk(w) && TopOk(w) && Linked(w.segments, w.active)
    ensures w.phase.before <= Head(w.target)
  {
    var top, floor := w.phase.top, w.phase.floor;
    var copy, file := w.target.files[top], w.segments[top].bytes;
    hide ReadLog, Read;
    assert 0 in w.segments;
    forall b | b in w.segments && 0 <= b < top ensures b in w.target.files && w.target.files[b] == w.segments[b].bytes {
      assert Full(w, b);
    }
    hide ListedOk, Full;
    FilesReach(w.target.files, w.segments, w.active, 0, top);
    assert copy[..floor] == file[..floor];
    FloorReads(copy, floor);
  }

  lemma FloorReads(copy: File, floor: nat)
    requires floor <= |copy|
    ensures |Read(copy[..floor])| <= |Read(copy)|
  {
    ShorterReads(copy[..floor], copy, 0);
  }

  lemma SnapshotReach(w: World, step: Step)
    requires Reusable(w) && step.Snapshot? && Enabled(w, step)
    ensures Reusable(Next(w, step))
  {
    CopyReaches(w);
    BelowSame(w, Next(w, step));
    hide Linked, ListedOk, TopOk, Below, ReadLog;
  }

  lemma OtherReach(w: World, step: Step)
    requires Reusable(w) && Enabled(w, step)
    requires OnKeys(step) || step.Claim? || step.ClampSnapshot? || step.Install? || step.Finish? || step.Die?
    ensures Reusable(Next(w, step))
  {
    var w' := Next(w, step);
    BelowSame(w, w');
    hide Linked, Clamp, Read, ReadLog, SameTo, Below, Full, ListedOk, TopOk;
  }

  lemma StepReach(w: World, step: Step)
    requires Inv(w) && Reusable(w) && Enabled(w, step) && (step.List? ==> Guarded(w))
    ensures Reusable(Next(w, step)) && Inv(Next(w, step))
  {
    hide *;
    StepKeeps(w, step);
    if step.List? {
      ListReach(w, step);
    } else if step.ReadByte? {
      ReadReach(w, step);
    } else if step.Place? {
      PlaceReach(w, step);
    } else if step.Snapshot? {
      SnapshotReach(w, step);
    } else if step.Scribble? || step.Append? || step.Roll? {
      InvParts(w);
      Splits(w);
      LinkedOn(w, step);
      SealedOn(w, step);
      WriterReach(w, Next(w, step));
      Joined(Next(w, step));
    } else {
      OtherOnly(step);
      OtherReach(w, step);
    }
  }

  lemma Splits(w: World)
    requires Reusable(w)
    ensures Linked(w.segments, w.active) && Below(w) && ReachOk(w)
  {
  }

  lemma Joined(w: World)
    requires Linked(w.segments, w.active) && Below(w) && ReachOk(w)
    ensures Reusable(w)
  {
  }

  lemma OtherOnly(step: Step)
    requires !step.List? && !step.ReadByte? && !step.Place? && !step.Snapshot? && !step.Scribble? && !step.Append?
      && !step.Roll?
    ensures OnKeys(step) || step.Claim? || step.ClampSnapshot? || step.Install? || step.Finish? || step.Die?
  {
  }

  // ----- over every run ----------------------------------------------------

  lemma {:induction false} GuardedKeeps(w: World, run: seq<Step>, w': World)
    requires Inv(w) && Reusable(w) && GuardedRun(w, run, w')
    ensures Inv(w') && Reusable(w')
    decreases |run|
  {
    if run != [] {
      hide Inv, Reusable, Enabled, Next, Guarded;
      StepReach(w, run[0]);
      GuardedKeeps(Next(w, run[0]), run[1..], w');
    }
  }

  lemma FreshReusable(size: nat)
    ensures Reusable(Fresh(size))
  {
    hide Read;
  }

  /** Where no run leaves the highest copy it finds standing, every copy below the highest is the sealed
      segment byte for byte, however runs die and the writer goes on; */
  lemma HeldSealed(size: nat, run: seq<Step>, w: World, b: nat)
    requires GuardedRun(Fresh(size), run, w) && b in w.target.files && !Highest(w.target.files.Keys, b)
    ensures b in w.segments && b < w.active && w.target.files[b] == w.segments[b].bytes
  {
    FreshInv(size);
    FreshReusable(size);
    hide Inv, ReachOk, Linked, Fresh;
    GuardedKeeps(Fresh(size), run, w);
  }

  /** and no run that copies the log to its end is refused: the copied log reaches the head the source
      had when the run began. */
  lemma NeverRefused(size: nat, run: seq<Step>, w: World)
    requires GuardedRun(Fresh(size), run, w) && w.phase.Snapped?
    ensures w.phase.before <= |ReadLog(w.target.files, 0)| && Enabled(w, ClampSnapshot)
  {
    FreshInv(size);
    FreshReusable(size);
    hide Inv, Below, Linked, Fresh, ReadLog;
    GuardedKeeps(Fresh(size), run, w);
  }
}
