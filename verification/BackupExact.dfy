/** Which runs of a backup are refused for the copies they leave standing: exactly those where one of
    them reads on neither to the next file's name nor to the head read at the start (`src/backup.rs`). */
module BackupExact {
  import opened Options
  import opened LogFiles
  import opened SegmentCopy
  import opened Backup
  import opened BackupReuse

  /** The copies a listing leaves standing. */
  function Kept(w: World): map<nat, File> {
    map b | b in w.segments && b in w.target.files && Reuses(Bytes(w.segments), w.target.files, b) :: w.target.files[b]
  }

  /** A reader of the copy comes to the next file's name, or as far as the run has to. */
  predicate ReadsThrough(segments: map<nat, Segment>, before: nat, b: nat, copy: File) {
    b in segments && (b + |Read(copy)| >= before || b + |Read(copy)| == After(segments, b))
  }

  predicate AllRead(segments: map<nat, Segment>, before: nat, kept: map<nat, File>) {
    forall b :: b in kept ==> ReadsThrough(segments, before, b, kept[b])
  }

  // ----- what a run copies -------------------------------------------------

  /** A file done with: one that was left standing, the highest up to what was committed, or a whole copy. */
  predicate Done(w: World, kept: map<nat, File>, b: nat)
    requires w.phase.Copying? && b in w.segments
  {
    b in w.target.files &&
    if b in kept then w.target.files[b] == kept[b]
    else if b == w.phase.top then SameTo(w.segments[b].bytes, w.target.files[b], w.phase.floor)
    else w.target.files[b] == w.segments[b].bytes
  }

  predicate TopRight(w: World)
    requires w.phase.Copying?
  {
    var top, floor := w.phase.top, w.phase.floor;
    && top in w.segments && top <= w.active && floor <= w.segments[top].committed <= |w.segments[top].bytes|
    && floor <= w.phase.prefix && w.phase.before <= top + |Read(w.segments[top].bytes[..floor])|
  }

  /** The files listed that are not still to be copied are done with. */
  ghost predicate FilesDone(w: World, kept: map<nat, File>)
    requires w.phase.Copying?
  {
    && (forall b :: b in kept ==> b in w.segments && b < w.phase.top && b !in w.phase.todo)
    && (forall b :: b in w.phase.todo ==> b in w.segments && b <= w.phase.top)
    && (forall b :: b in w.segments && b <= w.phase.top && b !in w.phase.todo ==> Done(w, kept, b))
  }

  ghost predicate Going(w: World, kept: map<nat, File>)
    requires w.phase.Copying?
  {
    TopRight(w) && FilesDone(w, kept) && forall name :: Lowest(w.phase.todo, name) ==> GotRight(w, name)
  }

  predicate KeptIn(segments: map<nat, Segment>, active: nat, kept: map<nat, File>) {
    forall b :: b in kept ==> b in segments && b < active
  }

  /** During the run, and after its snapshot. */
  ghost predicate PhaseCourse(w: World, before: nat, kept: map<nat, File>) {
    && !w.phase.Claimed?
    && (w.phase.Copying? ==> w.phase.before == before && Going(w, kept))
    && (w.phase.Snapped? ==>
          w.phase.before == before && (before <= Head(w.target) <==> AllRead(w.segments, before, kept)))
  }

  ghost predicate OnCourse(w: World, before: nat, kept: map<nat, File>) {
    Linked(w.segments, w.active) && KeptIn(w.segments, w.active, kept) && PhaseCourse(w, before, kept)
  }

  // ----- the writer meanwhile ----------------------------------------------

  lemma TopRightStays(w: World, w': World)
    requires w.phase.Copying? && TopRight(w) && Extends(w, w') && w.active <= w'.active && w'.phase == w.phase
    ensures TopRight(w')
    ensures forall i :: 0 <= i < w.phase.floor ==> SameAt(w.segments[w.phase.top], w'.segments[w.phase.top], i)
  {
    var before, after, floor := w.segments[w.phase.top], w'.segments[w.phase.top], w.phase.floor;
    assert Grown(before, after);
    forall i | 0 <= i < floor ensures after.bytes[i] == before.bytes[i] { GrownBytes(before, after, i); }
    assert after.bytes[..floor] == before.bytes[..floor];
    hide Read;
  }

  lemma DoneStays(w: World, w': World, kept: map<nat, File>)
    requires w.phase.Copying? && FilesDone(w, kept) && SealedStay(w, w') && w.phase.top <= w.active
    requires w'.target == w.target && w'.phase == w.phase && w.phase.top in w.segments
    requires forall i :: 0 <= i < w.phase.floor ==> SameAt(w.segments[w.phase.top], w'.segments[w.phase.top], i)
    requires |w'.segments[w.phase.top].bytes| == |w.segments[w.phase.top].bytes|
    ensures FilesDone(w', kept)
  {
    var before, after := w.segments[w.phase.top], w'.segments[w.phase.top];
    forall i | 0 <= i < w.phase.floor
      ensures i < |before.bytes| && i < |after.bytes| && after.bytes[i] == before.bytes[i]
    {
      assert SameAt(before, after, i);
    }
    forall b | b in w'.segments && b <= w.phase.top && b !in w.phase.todo ensures Done(w', kept, b) {
      assert b in w.segments && Done(w, kept, b);
    }
  }

  predicate SameAt(before: Segment, after: Segment, i: nat) {
    i < |before.bytes| && i < |after.bytes| && after.bytes[i] == before.bytes[i]
  }

  lemma GoingStays(w: World, w': World, kept: map<nat, File>)
    requires w.phase.Copying? && Going(w, kept) && SealedStay(w, w') && Extends(w, w')
    requires w'.target == w.target && w'.phase == w.phase
    ensures Going(w', kept)
  {
    TopRightStays(w, w');
    TopIn(w);
    assert Grown(w.segments[w.phase.top], w'.segments[w.phase.top]);
    hide Read, TopRight, Lowest;
    DoneStays(w, w', kept);
    hide FilesDone;
    forall name: nat | Lowest(w.phase.todo, name) ensures GotRight(w', name) {
      assert name <= w.phase.top by { LowestIn(w, kept, name); }
      GotOn(w, w', name);
    }
  }

  lemma LowestIn(w: World, kept: map<nat, File>, name: nat)
    requires w.phase.Copying? && FilesDone(w, kept) && Lowest(w.phase.todo, name)
    ensures name <= w.phase.top
  {
  }

  lemma TopIn(w: World)
    requires w.phase.Copying? && TopRight(w)
    ensures w.phase.top in w.segments && w.phase.top <= w.active
  {
    hide Read;
  }

  lemma GotOn(w: World, w': World, name: nat)
    requires w.phase.Copying? && GotRight(w, name) && name <= w.phase.top <= w.active && w'.phase == w.phase
    requires SealedStay(w, w') && Extends(w, w') && w.phase.top in w.segments
    requires forall i :: 0 <= i < w.phase.floor ==> SameAt(w.segments[w.phase.top], w'.segments[w.phase.top], i)
    ensures GotRight(w', name)
  {
    assert Grown(w.segments[name], w'.segments[name]);
    if name == w.phase.top {
      var before, after := w.segments[name], w'.segments[name];
      forall i | 0 <= i < w.phase.floor
        ensures i < |before.bytes| && i < |after.bytes| && after.bytes[i] == before.bytes[i]
      {
        assert SameAt(before, after, i);
      }
    }
  }

  lemma AllReadStays(w: World, w': World, before: nat, kept: map<nat, File>)
    requires SealedStay(w, w') && KeptIn(w.segments, w.active, kept)
    ensures AllRead(w'.segments, before, kept) <==> AllRead(w.segments, before, kept)
    ensures KeptIn(w'.segments, w'.active, kept)
  {
    hide Read;
    forall b | b in kept
      ensures ReadsThrough(w'.segments, before, b, kept[b]) == ReadsThrough(w.segments, before, b, kept[b])
    {
    }
  }

  lemma PhaseStays(w: World, w': World, before: nat, kept: map<nat, File>)
    requires PhaseCourse(w, before, kept) && SealedStay(w, w') && Extends(w, w') && KeptIn(w.segments, w.active, kept)
    requires w'.target == w.target && w'.phase == w.phase
    ensures PhaseCourse(w', before, kept)
  {
    AllReadStays(w, w', before, kept);
    hide Going, AllRead, Head, SealedStay, Extends, KeptIn;
    if w.phase.Copying? { GoingStays(w, w', kept); }
  }

  lemma WriterCourse(w: World, step: Step, before: nat, kept: map<nat, File>)
    requires Inv(w) && OnCourse(w, before, kept) && Enabled(w, step) && (step.Scribble? || step.Append? || step.Roll?)
    ensures OnCourse(Next(w, step), before, kept)
    ensures AllRead(Next(w, step).segments, before, kept) <==> AllRead(w.segments, before, kept)
  {
    var w' := Next(w, step);
    hide *;
    InvParts(w);
    CourseParts(w, before, kept);
    LinkedOn(w, step);
    SealedOn(w, step);
    WriterMoves(w, step);
    AllReadStays(w, w', before, kept);
    PhaseStays(w, w', before, kept);
    CourseJoins(w', before, kept);
  }

  lemma CourseParts(w: World, before: nat, kept: map<nat, File>)
    requires OnCourse(w, before, kept)
    ensures Linked(w.segments, w.active) && KeptIn(w.segments, w.active, kept) && PhaseCourse(w, before, kept)
  {
  }

  lemma CourseJoins(w: World, before: nat, kept: map<nat, File>)
    requires Linked(w.segments, w.active) && KeptIn(w.segments, w.active, kept) && PhaseCourse(w, before, kept)
    ensures OnCourse(w, before, kept)
  {
  }

  // ----- the backup --------------------------------------------------------

  /** The same files, and as many of them done with. */
  lemma DoneSame(w: World, w': World, kept: map<nat, File>)
    requires w.phase.Copying? && w'.phase.Copying? && w'.segments == w.segments && w'.target.files == w.target.files
    requires w'.phase.top == w.phase.top && w'.phase.floor == w.phase.floor && w'.phase.todo == w.phase.todo
    ensures FilesDone(w, kept) <==> FilesDone(w', kept)
  {
    assert forall b :: b in w.segments ==> Done(w', kept, b) == Done(w, kept, b);
  }

  lemma ReadCourse(w: World, step: Step, before: nat, kept: map<nat, File>)
    requires OnCourse(w, before, kept) && step.ReadByte? && Enabled(w, step)
    ensures OnCourse(Next(w, step), before, kept)
  {
    var w' := Next(w, step);
    DoneSame(w, w', kept);
    hide Linked, KeptIn, Read, PrefixOf, AllRead, FilesDone;
    assert GotRight(w, step.name) && TopRight(w');
    hide TopRight;
    forall name | Lowest(w'.phase.todo, name) ensures name == step.name {}
    assert GotRight(w', step.name);
  }

  lemma PlacedDone(w: World, step: Step, kept: map<nat, File>)
    requires w.phase.Copying? && Going(w, kept) && step.Place? && Enabled(w, step)
    ensures Done(Next(w, step), kept, step.name)
  {
    hide Read, Extent, Zeros;
    var got, file := w.phase.got, w.segments[step.name].bytes;
    assert GotRight(w, step.name);
    if step.name != w.phase.top {
      SealedCopy(got, file);
    } else {
      TopPlaced(got, file, w.phase.floor);
    }
  }

  lemma TopPlaced(got: File, file: File, floor: nat)
    requires floor <= |got| <= |file| && forall i :: 0 <= i < floor ==> got[i] == file[i]
    ensures SameTo(file, got + Zeros(|file| - |got|), floor)
  {
  }

  lemma PlaceDone(w: World, step: Step, kept: map<nat, File>)
    requires w.phase.Copying? && Going(w, kept) && step.Place? && Enabled(w, step)
    ensures FilesDone(Next(w, step), kept)
  {
    var w' := Next(w, step);
    PlacedDone(w, step, kept);
    hide TopRight, GotRight, PrefixOf, SameTo, Zeros;
    forall b | b in w'.segments && b <= w'.phase.top && b !in w'.phase.todo ensures Done(w', kept, b) {
      if b != step.name { assert Done(w, kept, b); }
    }
  }

  lemma PlaceCourse(w: World, step: Step, before: nat, kept: map<nat, File>)
    requires OnCourse(w, before, kept) && step.Place? && Enabled(w, step)
    ensures OnCourse(Next(w, step), before, kept)
  {
    var w' := Next(w, step);
    PlaceDone(w, step, kept);
    hide Linked, KeptIn, Read, PrefixOf, Zeros, AllRead;
    assert TopRight(w');
    LowestListed(w', kept);
    hide TopRight, FilesDone;
  }

  lemma LowestListed(w: World, kept: map<nat, File>)
    requires w.phase.Copying? && FilesDone(w, kept) && w.phase.got == []
    ensures forall name :: Lowest(w.phase.todo, name) ==> GotRight(w, name)
  {
  }

  // ----- what a reader finds -----------------------------------------------

  predicate ReadOn(segments: map<nat, Segment>, before: nat, kept: map<nat, File>, base: nat) {
    forall b :: b in kept && base <= b ==> ReadsThrough(segments, before, b, kept[b])
  }

  lemma ThroughStep(segments: map<nat, Segment>, active: nat, before: nat, kept: map<nat, File>, base: nat)
    requires Linked(segments, active) && base in segments && base < active && KeptIn(segments, active, kept)
    requires base in kept ==> base + |Read(kept[base])| == After(segments, base)
    ensures ReadOn(segments, before, kept, base) <==> ReadOn(segments, before, kept, After(segments, base))
  {
    hide Read;
    var next := After(segments, base);
    if ReadOn(segments, before, kept, next) {
      forall b | b in kept && base <= b ensures ReadsThrough(segments, before, b, kept[b]) {
        if b != base { assert next <= b; }
      }
    }
  }

  lemma ShortStep(segments: map<nat, Segment>, active: nat, before: nat, kept: map<nat, File>, base: nat)
    requires Linked(segments, active) && base in kept && base < active && KeptIn(segments, active, kept)
    requires base + |Read(kept[base])| < After(segments, base)
    ensures ReadOn(segments, before, kept, base) <==> before <= base + |Read(kept[base])|
  {
    hide Read;
    if before <= base + |Read(kept[base])| {
      forall b | b in kept && base <= b ensures ReadsThrough(segments, before, b, kept[b]) {
        if b != base { assert After(segments, base) <= b; }
      }
    } else {
      assert !ReadsThrough(segments, before, base, kept[base]);
    }
  }

  lemma ShortEnds(files: map<nat, File>, segments: map<nat, Segment>, active: nat, base: nat)
    requires Linked(segments, active) && base in files && forall b :: b in files ==> b in segments
    requires base + |Read(files[base])| < After(segments, base)
    ensures |ReadLog(files, base)| == |Read(files[base])|
  {
    hide Read;
    var next := base + |Read(files[base])|;
    assert next !in files - {base};
    assert ReadLog(files - {base}, next) == [];
  }

  lemma LogNext(files: map<nat, File>, base: nat)
    requires base in files
    ensures |ReadLog(files, base)| == |Read(files[base])| + |ReadLog(files - {base}, base + |Read(files[base])|)|
  {
    hide Read;
  }

  /** Whole copies between `base` and `top`, but for those left standing. */
  predicate Spread(files: map<nat, File>, segments: map<nat, Segment>, kept: map<nat, File>, base: nat, top: nat) {
    forall b :: b in segments && base <= b < top ==> Standing(files, segments, kept, b)
  }

  predicate Standing(files: map<nat, File>, segments: map<nat, Segment>, kept: map<nat, File>, b: nat)
    requires b in segments
  {
    && b in files && |Read(files[b])| <= |Read(segments[b].bytes)|
    && if b in kept then files[b] == kept[b] else files[b] == segments[b].bytes
  }

  /** A reader of these files gets as far as `before` exactly when each copy left standing lets it on. */
  lemma {:induction false} ReachExactly(files: map<nat, File>, segments: map<nat, Segment>, active: nat,
                                        kept: map<nat, File>, base: nat, top: nat, before: nat)
    requires Linked(segments, active) && base in segments && top in segments && base <= top <= active && top in files
    requires (forall b :: b in files ==> b in segments) && KeptIn(segments, top, kept)
      && Spread(files, segments, kept, base, top)
    requires before <= top + |Read(files[top])|
    ensures before <= base + |ReadLog(files, base)| <==> ReadOn(segments, before, kept, base)
    decreases top - base
  {
    hide *;
    if base == top {
      LogNext(files, base);
      NoneOn(segments, before, kept, top);
    } else {
      Here(files, segments, active, kept, base, top);
      var next := base + |Read(files[base])|;
      if next == After(segments, base) {
        SpreadOn(files, segments, kept, base, next, top);
        ThroughStep(segments, active, before, kept, base);
        LogNext(files, base);
        ReachExactly(files - {base}, segments, active, kept, next, top, before);
      } else {
        ShortStep(segments, active, before, kept, base);
        ShortEnds(files, segments, active, base);
      }
    }
  }

  /** The file at `base`, below the highest. */
  lemma Here(files: map<nat, File>, segments: map<nat, Segment>, active: nat, kept: map<nat, File>, base: nat, top: nat)
    requires Linked(segments, active) && base in segments && top in segments && base < top <= active
    requires KeptIn(segments, top, kept) && Spread(files, segments, kept, base, top)
    ensures KeptIn(segments, active, kept) && base in files && base < After(segments, base) <= top
      && After(segments, base) in segments
    ensures base + |Read(files[base])| <= After(segments, base)
    ensures if base in kept then files[base] == kept[base] else base + |Read(files[base])| == After(segments, base)
  {
    hide Read;
    assert Standing(files, segments, kept, base);
  }

  lemma NoneOn(segments: map<nat, Segment>, before: nat, kept: map<nat, File>, top: nat)
    requires KeptIn(segments, top, kept)
    ensures ReadOn(segments, before, kept, top)
  {
  }

  lemma SpreadOn(files: map<nat, File>, segments: map<nat, Segment>, kept: map<nat, File>, base: nat, next: nat,
                 top: nat)
    requires Spread(files, segments, kept, base, top) && base < next
    ensures Spread(files - {base}, segments, kept, next, top)
  {
    hide Read;
    forall b | b in segments && next <= b < top ensures Standing(files - {base}, segments, kept, b) {
      assert Standing(files, segments, kept, b);
    }
  }

  lemma SnapshotCourse(w: World, step: Step, before: nat, kept: map<nat, File>)
    requires Inv(w) && OnCourse(w, before, kept) && step.Snapshot? && Enabled(w, step)
    ensures OnCourse(Next(w, step), before, kept)
  {
    CourseEnds(w, kept);
    hide Inv, Going, ReadLog, Read, Linked, KeptIn, AllRead;
  }

  lemma CopiesSpread(w: World, kept: map<nat, File>)
    requires Copies(w.target.files, w.log, w.segments) && w.phase.Copying? && w.phase.todo == {} && FilesDone(w, kept)
    requires forall b :: b in w.segments ==> Sound(w.segments[b])
    ensures Spread(w.target.files, w.segments, kept, 0, w.phase.top) && KeptIn(w.segments, w.phase.top, kept)
  {
    hide Read, TrueCopy, Sound, ReadsAs;
    forall b | b in w.segments && b < w.phase.top ensures Standing(w.target.files, w.segments, kept, b) {
      assert Done(w, kept, b);
      CopyReads(w.target.files[b], w.segments[b]);
    }
  }

  lemma CourseEnds(w: World, kept: map<nat, File>)
    requires Inv(w) && w.phase.Copying? && w.phase.todo == {} && Going(w, kept) && Linked(w.segments, w.active)
    ensures w.phase.before <= Head(w.target) <==> AllRead(w.segments, w.phase.before, kept)
  {
    InvParts(w);
    var top, floor := w.phase.top, w.phase.floor;
    var copy, file := w.target.files[top], w.segments[top].bytes;
    assert Copies(w.target.files, w.log, w.segments) && forall b :: b in w.segments ==> Sound(w.segments[b]);
    hide Inv, LogOk, KeysOk, PhaseOk, ReadLog, Read, TrueCopy, Sound, ReadsAs;
    CopiesSpread(w, kept);
    assert top in w.segments && Done(w, kept, top) && top !in kept;
    assert copy[..floor] == file[..floor];
    FloorReads(copy, floor);
    assert 0 in w.segments;
    hide FilesDone, Spread;
    ReachExactly(w.target.files, w.segments, w.active, kept, 0, top, w.phase.before);
  }

  predicate Others(step: Step) {
    OnKeys(step) || step.ClampSnapshot? || step.Install? || step.Finish? || step.Die?
  }

  lemma OtherSame(w: World, step: Step)
    requires Enabled(w, step) && Others(step)
    ensures
      var w' := Next(w, step);
      && w'.segments == w.segments && w'.active == w.active && w'.target.files == w.target.files
      && (w'.phase.Claimed? || w'.phase.Copying? || w'.phase.Snapped? ==> w'.phase == w.phase)
  {
    hide Clamp, ReadLog;
  }

  lemma OtherPhase(w: World, w': World, before: nat, kept: map<nat, File>)
    requires PhaseCourse(w, before, kept)
    requires w'.segments == w.segments && w'.active == w.active && w'.target.files == w.target.files
    requires w'.phase.Claimed? || w'.phase.Copying? || w'.phase.Snapped? ==> w'.phase == w.phase
    ensures PhaseCourse(w', before, kept)
  {
    if w'.phase.Copying? {
      DoneSame(w, w', kept);
      TopSame(w, w');
    }
    hide Read, ReadLog, FilesDone, AllRead, TopRight;
  }

  lemma TopSame(w: World, w': World)
    requires w.phase.Copying? && w'.phase == w.phase && w'.segments == w.segments
    ensures w'.active == w.active ==> (TopRight(w') <==> TopRight(w))
  {
    hide Read;
  }

  lemma OtherCourse(w: World, step: Step, before: nat, kept: map<nat, File>)
    requires OnCourse(w, before, kept) && Enabled(w, step) && Others(step)
    ensures OnCourse(Next(w, step), before, kept)
  {
    hide *;
    CourseParts(w, before, kept);
    OtherSame(w, step);
    OtherPhase(w, Next(w, step), before, kept);
    CourseJoins(Next(w, step), before, kept);
  }

  // ----- over every run ----------------------------------------------------

  lemma StepCourse(w: World, step: Step, before: nat, kept: map<nat, File>)
    requires Inv(w) && OnCourse(w, before, kept) && Enabled(w, step) && !step.Claim?
    ensures Inv(Next(w, step)) && OnCourse(Next(w, step), before, kept)
    ensures AllRead(Next(w, step).segments, before, kept) <==> AllRead(w.segments, before, kept)
  {
    hide *;
    StepKeeps(w, step);
    NotListed(w, step, before, kept);
    if step.ReadByte? {
      ReadCourse(w, step, before, kept);
    } else if step.Place? {
      PlaceCourse(w, step, before, kept);
    } else if step.Snapshot? {
      SnapshotCourse(w, step, before, kept);
    } else if step.Scribble? || step.Append? || step.Roll? {
      WriterCourse(w, step, before, kept);
    } else {
      OthersOnly(step);
      OtherCourse(w, step, before, kept);
    }
  }

  lemma NotListed(w: World, step: Step, before: nat, kept: map<nat, File>)
    requires OnCourse(w, before, kept) && Enabled(w, step) && !step.Claim?
    ensures !step.List? && (step.Scribble? || step.Append? || step.Roll? || Next(w, step).segments == w.segments)
  {
    hide Linked, KeptIn, Going, AllRead, ReadLog, Clamp, Read;
  }

  lemma OthersOnly(step: Step)
    requires !step.Claim? && !step.List? && !step.ReadByte? && !step.Place? && !step.Snapshot?
    requires !step.Scribble? && !step.Append? && !step.Roll?
    ensures Others(step)
  {
  }

  lemma {:induction false} RunCourse(w: World, run: seq<Step>, w': World, before: nat, kept: map<nat, File>)
    requires Inv(w) && OnCourse(w, before, kept) && Reaches(w, run, w') && Claim !in run
    ensures OnCourse(w', before, kept) && (AllRead(w'.segments, before, kept) <==> AllRead(w.segments, before, kept))
    decreases |run|
  {
    if run != [] {
      hide Inv, OnCourse, Enabled, Next, AllRead;
      StepCourse(w, run[0], before, kept);
      RunCourse(Next(w, run[0]), run[1..], w', before, kept);
    }
  }

  lemma ListCourse(w: World, prefix: nat)
    requires Inv(w) && Linked(w.segments, w.active) && Enabled(w, List(prefix))
    ensures OnCourse(Next(w, List(prefix)), w.phase.before, Kept(w))
  {
    var w' := Next(w, List(prefix));
    InvParts(w);
    Topmost(w);
    ListTop(w, List(prefix));
    ActiveMoves(w);
    hide Inv, LogOk, KeysOk, Copies, PhaseOk, Linked, Read, Sound;
    ListDone(w, w');
    assert TopRight(w');
    LowestListed(w', Kept(w));
    hide FilesDone, TopRight;
  }

  lemma ListDone(w: World, w': World)
    requires w.active in w.segments && (forall b :: b in w.segments ==> b <= w.active) && w.active in Todo(w)
    requires w'.phase.Copying? && w'.phase.todo == Todo(w) && w'.phase.top == w.active
    requires w'.segments == w.segments && w'.target.files == w.target.files
    ensures FilesDone(w', Kept(w)) && KeptIn(w.segments, w.active, Kept(w))
  {
    assert forall b :: b in w.segments <==> b in Bytes(w.segments);
    hide Extent, SameTo;
  }

  lemma {:induction false} AlwaysLinked(w: World, run: seq<Step>, w': World)
    requires Inv(w) && Linked(w.segments, w.active) && Reaches(w, run, w')
    ensures Inv(w') && Linked(w'.segments, w'.active)
    decreases |run|
  {
    if run != [] {
      StepLinked(w, run[0]);
      hide Inv, Linked, Enabled, Next;
      AlwaysLinked(Next(w, run[0]), run[1..], w');
    }
  }

  lemma StepLinked(w: World, step: Step)
    requires Inv(w) && Linked(w.segments, w.active) && Enabled(w, step)
    ensures Inv(Next(w, step)) && Linked(Next(w, step).segments, Next(w, step).active)
  {
    StepKeeps(w, step);
    InvParts(w);
    hide Inv, Linked, LogOk;
    if step.Scribble? || step.Append? || step.Roll? {
      hide Enabled, Next;
      LinkedOn(w, step);
    }
  }

  /** Whatever happened before a run lists the files, and whatever the writer does while it copies: it is
      refused at its end exactly when some copy it left standing reads on neither to the next file's
      name nor to the head it has to reach. That can be told when the files are listed. */
  lemma RefusedExactly(size: nat, history: seq<Step>, w: World, prefix: nat, run: seq<Step>, w': World)
    requires Reaches(Fresh(size), history, w) && Enabled(w, List(prefix))
    requires Reaches(Next(w, List(prefix)), run, w') && Claim !in run && w'.phase.Snapped?
    ensures Enabled(w', ClampSnapshot) <==> AllRead(w.segments, w.phase.before, Kept(w))
  {
    assert Next(w, List(prefix)).segments == w.segments;
    hide *;
    FreshInv(size);
    FreshReusable(size);
    Splits(Fresh(size));
    AlwaysLinked(Fresh(size), history, w);
    ListCourse(w, prefix);
    StepKeeps(w, List(prefix));
    RunCourse(Next(w, List(prefix)), run, w', w.phase.before, Kept(w));
    CourseSnapped(w', w.phase.before, Kept(w));
  }

  lemma CourseSnapped(w: World, before: nat, kept: map<nat, File>)
    requires OnCourse(w, before, kept) && w.phase.Snapped?
    ensures Enabled(w, ClampSnapshot) <==> AllRead(w.segments, before, kept)
  {
    hide AllRead, ReadLog;
  }
}
