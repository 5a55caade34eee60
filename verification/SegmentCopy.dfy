/** Copying a log's files from under their writer: where the data of a preallocated segment ends, what
    a copy holds, and when an earlier copy may stand (`src/backup.rs`). */
module SegmentCopy {
  import opened Options
  import opened LogFiles

  /** One past the last byte that is not zero. */
  function Extent(file: File): (end: nat)
    ensures end <= |file|
  {
    if file == [] then 0
    else if file[|file| - 1] != Zero then |file|
    else Extent(file[..|file| - 1])
  }

  predicate ZeroFrom(file: File, end: nat) {
    forall i :: end <= i < |file| ==> file[i] == Zero
  }

  /** The extent is the least bound past every byte that is not zero. */
  lemma {:induction false} ExtentLeast(file: File, end: nat)
    requires end <= |file|
    ensures ZeroFrom(file, end) <==> Extent(file) <= end
    decreases |file|
  {
    if file != [] {
      var last := |file| - 1;
      if file[last] == Zero && end <= last {
        ExtentLeast(file[..last], end);
        assert ZeroFrom(file, end) <==> ZeroFrom(file[..last], end) by {
          forall i | end <= i < last ensures file[i] == file[..last][i] {}
        }
      }
    }
  }

  /** The last index below `span` whose byte is not zero. */
  method LastNonZero(buf: seq<Byte>) returns (index: Option<nat>)
    ensures index.Some? ==> index.value < |buf| && buf[index.value] != Zero
    ensures forall i :: (if index.Some? then index.value + 1 else 0) <= i < |buf| ==> buf[i] == Zero
  {
    var at := |buf|;
    while at > 0
      invariant 0 <= at <= |buf| && forall i :: at <= i < |buf| ==> buf[i] == Zero
    {
      at := at - 1;
      if buf[at] != Zero {
        return Some(at);
      }
    }
    index := None;
  }

  /** Scan a file backwards, a chunk at a time, for where its data ends. */
  method CommittedExtent(file: File, chunk: nat) returns (end: nat)
    requires chunk > 0
    ensures end == Extent(file)
  {
    end := |file|;
    while end > 0
      invariant end <= |file| && ZeroFrom(file, end)
    {
      var start := if end < chunk then 0 else end - chunk;
      var buf := file[start..end];
      var index := LastNonZero(buf);
      if index.Some? {
        var found := start + index.value + 1;
        assert buf[index.value] == file[found - 1];
        forall i | found <= i < end ensures file[i] == Zero { assert buf[i - start] == file[i]; }
        ExtentIs(file, found);
        return found;
      }
      forall i | start <= i < end ensures file[i] == Zero { assert buf[i - start] == file[i]; }
      end := start;
    }
    ExtentIs(file, 0);
  }

  lemma ExtentIs(file: File, end: nat)
    requires end <= |file| && ZeroFrom(file, end) && (end > 0 ==> file[end - 1] != Zero)
    ensures Extent(file) == end
  {
    ExtentLeast(file, end);
    if end > 0 { ExtentLeast(file, end - 1); }
  }

  // ----- one file, while it is written -------------------------------------

  /** What a file holds at each moment. A segment has its full length from the start. */
  type View = nat -> File

  ghost predicate Steady(view: View) {
    forall m :: |view(m)| == |view(0)|
  }

  /** A copy of the first `prefix` bytes, each as it was at some moment of the copying. */
  ghost predicate ReadDuring(view: View, prefix: nat, start: nat, end: nat, copy: File) {
    && |copy| == |view(0)| && ZeroFrom(copy, prefix)
    && forall i :: 0 <= i < prefix && i < |copy| ==> Seen(view, start, end, i, copy[i])
  }

  /** The file held this byte at some moment. */
  ghost predicate Seen(view: View, start: nat, end: nat, i: nat, byte: Byte) {
    exists m :: start <= m < end && i < |view(m)| && byte == view(m)[i]
  }

  /** Copy the first `prefix` bytes, a chunk at a time, and give the copy the full length. */
  method CopyPrefix(view: View, prefix: nat, chunk: nat, start: nat) returns (dest: File, end: nat)
    requires chunk > 0 && Steady(view) && prefix <= |view(0)|
    ensures start <= end && ReadDuring(view, prefix, start, end, dest)
  {
    dest, end := [], start;
    while |dest| < prefix
      invariant start <= end && |dest| <= prefix
      invariant forall i :: 0 <= i < |dest| ==> Seen(view, start, end, i, dest[i])
    {
      var done := |dest|;
      var span := if prefix - done < chunk then prefix - done else chunk;
      assert |view(end)| == |view(0)|;
      ghost var before := dest;
      dest := dest + view(end)[done..done + span];
      forall i | 0 <= i < |dest| ensures Seen(view, start, end + 1, i, dest[i]) {
        if i < done {
          assert dest[i] == before[i] && Seen(view, start, end, i, before[i]);
        } else {
          assert dest[i] == view(end)[i];
        }
      }
      end := end + 1;
    }
    ghost var data := dest;
    dest := dest + Zeros(|view(0)| - prefix);
    hide Seen;
    forall i | 0 <= i < prefix && i < |dest| ensures Seen(view, start, end, i, dest[i]) { assert dest[i] == data[i]; }
  }

  /** A file that does not change meanwhile is copied whole, if the prefix reaches its extent. */
  lemma SettledCopy(view: View, prefix: nat, start: nat, end: nat, copy: File, file: File)
    requires ReadDuring(view, prefix, start, end, copy) && |view(0)| == |file|
    requires (forall m :: start <= m < end ==> view(m) == file) && Extent(file) <= prefix
    ensures copy == file
  {
    if prefix <= |file| {
      ExtentLeast(file, prefix);
    }
    forall i | 0 <= i < |copy| ensures copy[i] == file[i] {
      if i < prefix { assert Seen(view, start, end, i, copy[i]); }
    }
  }

  /** One state of a segment after another: what was committed has stayed. */
  predicate Grown(before: Segment, after: Segment) {
    && |after.bytes| == |before.bytes| && before.committed <= after.committed <= |after.bytes|
    && after.bytes[..before.committed] == before.bytes[..before.committed]
  }

  /** A segment being written is copied truly, whichever moment each byte is from. */
  lemma GrowingCopy(states: nat -> Segment, prefix: nat, start: nat, end: nat, copy: File, now: Segment)
    requires ReadDuring((m: nat) => states(m).bytes, prefix, start, end, copy) && |states(0).bytes| == |now.bytes|
    requires forall m :: start <= m < end ==> Sound(states(m)) && Grown(states(m), now)
    ensures TrueCopy(copy, now)
  {
    forall i | 0 <= i < |copy| && copy[i].Mark? ensures i < now.committed && copy[i] == now.bytes[i] {
      assert i < prefix && Seen((m: nat) => states(m).bytes, start, end, i, copy[i]);
      var m: nat :| start <= m < end && i < |states(m).bytes| && copy[i] == states(m).bytes[i];
      assert i < states(m).committed;
      assert now.bytes[i] == now.bytes[..states(m).committed][i] == states(m).bytes[..states(m).committed][i];
    }
  }

  // ----- a directory of segments -------------------------------------------

  class Directory {
    var files: map<nat, File>

    constructor (files: map<nat, File>)
      ensures this.files == files
    {
      this.files := files;
    }
  }

  /** The file being appended to: the one of the highest base. */
  predicate Highest(names: set<nat>, name: nat) {
    name in names && forall other :: other in names ==> other <= name
  }

  /** A copy that is there already stands: same length, same extent, and not the file being appended to. */
  predicate Reuses(source: map<nat, File>, held: map<nat, File>, name: nat) {
    && name in source && name in held && !Highest(source.Keys, name)
    && |held[name]| == |source[name]| && Extent(held[name]) == Extent(source[name])
  }

  /** What a log copy moves, each file with its extent. */
  function Planned(source: map<nat, File>, held: map<nat, File>): map<nat, nat> {
    map name | name in source && !Reuses(source, held, name) :: Extent(source[name])
  }

  lemma {:induction false} LeastIn(names: set<nat>) returns (least: nat)
    requires names != {}
    ensures least in names && forall other :: other in names ==> least <= other
  {
    var some :| some in names;
    if names == {some} {
      least := some;
    } else {
      assert names == {some} + (names - {some});
      var rest := LeastIn(names - {some});
      least := if some < rest then some else rest;
    }
  }

  method ActiveSegment(names: set<nat>) returns (active: Option<nat>)
    ensures active.None? <==> names == {}
    ensures active.Some? ==> Highest(names, active.value)
  {
    active := None;
    var rest := names;
    while rest != {}
      invariant rest <= names
      invariant active.None? ==> rest == names
      invariant active.Some? ==> Highest(names - rest, active.value)
    {
      var name :| name in rest;
      assert names - (rest - {name}) == (names - rest) + {name};
      rest := rest - {name};
      if active.None? || active.value < name {
        active := Some(name);
      }
    }
    assert names - rest == names;
  }

  method Plan(source: map<nat, File>, held: map<nat, File>, chunk: nat) returns (planned: map<nat, nat>)
    requires chunk > 0
    ensures planned == Planned(source, held)
  {
    planned := map[];
    var active := ActiveSegment(source.Keys);
    var rest := source.Keys;
    while rest != {}
      invariant rest <= source.Keys
      invariant planned ==
        map name | name in source && name !in rest && !Reuses(source, held, name) :: Extent(source[name])
    {
      var name :| name in rest;
      rest := rest - {name};
      var prefix := CommittedExtent(source[name], chunk);
      var reused := false;
      if Some(name) != active && name in held && |held[name]| == |source[name]| {
        var there := CommittedExtent(held[name], chunk);
        reused := there == prefix;
      }
      assert reused <==> Reuses(source, held, name);
      if !reused {
        planned := planned[name := prefix];
      }
    }
  }

  /** A log's directory at each moment: files are added, none goes, and none changes its length. */
  type Live = nat -> map<nat, File>

  ghost predicate Growing(live: Live) {
    forall m, name {:trigger name in live(m)} :: name in live(0) ==>
      name in live(m) && |live(m)[name]| == |live(0)[name]|
  }

  function ViewOf(live: Live, name: nat): View {
    (m: nat) => if name in live(m) then live(m)[name] else []
  }

  /** Each file as an earlier copy had it, or read during this one. */
  ghost predicate CopiedDuring(live: Live, held: map<nat, File>, end: nat, files: map<nat, File>) {
    && files.Keys == live(0).Keys
    && forall name :: name in live(0) ==>
         if Reuses(live(0), held, name) then files[name] == held[name]
         else ReadDuring(ViewOf(live, name), Extent(live(0)[name]), 0, end, files[name])
  }

  /** Copy every file listed whose copy may not stand, and drop what the source does not hold. Files
      are listed and measured at moment 0; the writer goes on meanwhile. */
  method CopyLog(live: Live, target: Directory, chunk: nat) returns (end: nat)
    requires chunk > 0 && Growing(live)
    modifies target
    ensures CopiedDuring(live, old(target.files), end, target.files)
    ensures forall name :: name in live(0) ==> |target.files[name]| == |live(0)[name]|
    ensures forall name, other :: other in live(0) && name < other && name in live(0) && name in old(target.files) ==>
      |old(target.files)[name]| == |live(0)[name]| && Extent(old(target.files)[name]) == Extent(live(0)[name]) ==>
        target.files[name] == old(target.files)[name]
  {
    var held := target.files;
    var planned := Plan(live(0), held, chunk);
    target.files := map name | name in target.files && name in live(0) :: target.files[name];
    end := CopyFiles(live, planned, target, chunk);
    hide ReadDuring, Reuses, Growing, ViewOf;
    assert target.files.Keys == live(0).Keys;
    forall name | name in live(0) && Reuses(live(0), held, name) ensures target.files[name] == held[name] {
      assert name !in planned;
    }
    forall name | name in live(0) && !Reuses(live(0), held, name)
      ensures ReadDuring(ViewOf(live, name), Extent(live(0)[name]), 0, end, target.files[name]) {
      assert name in planned;
    }
  }

  lemma LaterReads(view: View, prefix: nat, start: nat, end: nat, later: nat, copy: File)
    requires ReadDuring(view, prefix, start, end, copy) && end <= later
    ensures ReadDuring(view, prefix, 0, later, copy)
  {
    forall i | 0 <= i < prefix && i < |copy| ensures Seen(view, 0, later, i, copy[i]) {
      assert Seen(view, start, end, i, copy[i]);
    }
  }

  /** The planned files, lowest first, copied over what is there. */
  method CopyFiles(live: Live, planned: map<nat, nat>, target: Directory, chunk: nat) returns (end: nat)
    requires chunk > 0 && Growing(live)
    requires forall name :: name in planned ==> name in live(0) && planned[name] <= |live(0)[name]|
    modifies target
    ensures target.files.Keys == old(target.files).Keys + planned.Keys
    ensures forall name :: name in target.files && name !in planned ==> target.files[name] == old(target.files)[name]
    ensures forall name :: name in planned ==> ReadDuring(ViewOf(live, name), planned[name], 0, end, target.files[name])
  {
    end := 0;
    var left := planned.Keys;
    while left != {}
      invariant left <= planned.Keys && target.files.Keys == old(target.files).Keys + (planned.Keys - left)
      invariant forall name :: name in target.files && name !in planned.Keys - left ==>
        target.files[name] == old(target.files)[name]
      invariant forall name :: name in planned.Keys - left ==>
        ReadDuring(ViewOf(live, name), planned[name], 0, end, target.files[name])
    {
      ghost var least := LeastIn(left);
      var name :| name in left && forall other :: other in left ==> name <= other;
      var copy, later := CopyPrefix(ViewOf(live, name), planned[name], chunk, end);
      forall other | other in planned.Keys - left
        ensures ReadDuring(ViewOf(live, other), planned[other], 0, later, target.files[other]) {
        LaterReads(ViewOf(live, other), planned[other], 0, end, later, target.files[other]);
      }
      LaterReads(ViewOf(live, name), planned[name], end, later, later, copy);
      target.files := target.files[name := copy];
      left := left - {name};
      end := later;
    }
  }

  // ----- when an earlier copy may stand ------------------------------------

  /** No byte below the extent a copy recorded has changed at the source. */
  ghost predicate Unchanged(copy: File, now: File) {
    |copy| == |now| && forall i :: 0 <= i < Extent(copy) && i < |now| ==> now[i] == copy[i]
  }

  /** Where recorded bytes do not change, equal lengths and extents mean equal bytes. */
  lemma SameExtentSameBytes(copy: File, now: File)
    requires Unchanged(copy, now) && Extent(copy) == Extent(now)
    ensures copy == now
  {
    ExtentLeast(copy, Extent(copy));
    ExtentLeast(now, Extent(now));
    forall i | 0 <= i < |copy| ensures copy[i] == now[i] {}
  }

  /** So a repeated copy of a log nobody writes, over one whose recorded bytes have not changed, is the log. */
  lemma RepeatedCopy(live: Live, held: map<nat, File>, end: nat, files: map<nat, File>)
    requires CopiedDuring(live, held, end, files) && forall m: nat :: m < end ==> live(m) == live(0)
    requires forall name :: Reuses(live(0), held, name) ==> Unchanged(held[name], live(0)[name])
    ensures files == live(0)
  {
    forall name | name in live(0) ensures files[name] == live(0)[name] {
      if Reuses(live(0), held, name) {
        SameExtentSameBytes(held[name], live(0)[name]);
      } else {
        SettledCopy(ViewOf(live, name), Extent(live(0)[name]), 0, end, files[name], live(0)[name]);
      }
    }
  }

  datatype Change = Batch(batch: seq<Event>) | Partial(tail: File)

  predicate Allows(segment: Segment, change: Change) {
    match change
    case Batch(batch) => batch != [] && Fits(segment, batch)
    case Partial(tail) => Uncommitted(segment, tail)
  }

  function Changed(segment: Segment, change: Change): Segment
    requires Allows(segment, change)
  {
    match change
    case Batch(batch) => Commit(segment, batch)
    case Partial(tail) => Scratch(segment, tail)
  }

  ghost predicate Becomes(segment: Segment, changes: seq<Change>, later: Segment)
    decreases |changes|
  {
    if changes == [] then later == segment
    else Allows(segment, changes[0]) && Becomes(Changed(segment, changes[0]), changes[1..], later)
  }

  lemma ChangeGrows(segment: Segment, change: Change)
    requires Sound(segment) && Allows(segment, change)
    ensures Sound(Changed(segment, change)) && Grown(segment, Changed(segment, change))
  {
    hide Framed;
    match change
    case Batch(batch) => CommitReads(segment, batch);
    case Partial(tail) => ScratchReads(segment, tail);
  }

  lemma GrownAgain(a: Segment, b: Segment, c: Segment)
    requires Grown(a, b) && Grown(b, c)
    ensures Grown(a, c)
  {
    assert c.bytes[..a.committed] == c.bytes[..b.committed][..a.committed];
    assert b.bytes[..a.committed] == b.bytes[..b.committed][..a.committed];
  }

  lemma {:induction false} BecomesGrown(segment: Segment, changes: seq<Change>, later: Segment)
    requires Sound(segment) && Becomes(segment, changes, later)
    ensures Sound(later) && Grown(segment, later)
    decreases |changes|
  {
    if changes != [] {
      var next := Changed(segment, changes[0]);
      ChangeGrows(segment, changes[0]);
      hide Sound, Grown, Allows, Changed;
      BecomesGrown(next, changes[1..], later);
      GrownAgain(segment, next, later);
    }
  }

  /** A copy made now may stand for good: whenever the segment, sealed with a batch in it, has the
      copy's length and extent, it has its bytes. */
  ghost predicate SafeForEver(segment: Segment) {
    forall changes, later :: Becomes(segment, changes, later) ==>
      (later.committed > 0 && Extent(later.bytes) == Extent(segment.bytes) ==> later.bytes == segment.bytes)
  }

  /** A committed segment's extent covers its batches. */
  lemma ExtentCovers(segment: Segment)
    requires Sound(segment)
    ensures segment.committed <= Extent(segment.bytes) && segment.committed != 1
    ensures segment.committed > 0 ==> segment.bytes[segment.committed - 1].Mark?
  {
    if segment.committed > 0 {
      LastMark(segment.bytes, 0, segment.committed);
      ExtentLeast(segment.bytes, segment.committed - 1);
    }
  }

  lemma {:induction false} LastMark(file: File, at: nat, end: nat)
    requires at < end <= |file| && Framed(file, at, end)
    ensures file[end - 1].Mark? && end > at + 1
    decreases end - at
  {
    var mark := at + Records(file, at);
    if mark + 1 < end { LastMark(file, mark + 1, end); }
  }

  /** Bytes no batch has claimed may be rolled back and others of the same length written. */
  lemma RolledBack(segment: Segment) returns (change: Change, later: Segment)
    requires Sound(segment) && segment.committed < Extent(segment.bytes)
    ensures Allows(segment, change) && later == Changed(segment, change) && later.committed == segment.committed
    ensures Extent(later.bytes) == Extent(segment.bytes) && later.bytes != segment.bytes
  {
    var c, e := segment.committed, Extent(segment.bytes);
    var other := if segment.bytes[e - 1] == Part(Event({})) then Part(Event({0})) else Part(Event({}));
    var tail := Zeros(e - 1 - c) + [other] + Zeros(|segment.bytes| - e);
    change := Partial(tail);
    later := Scratch(segment, tail);
    assert later.bytes[e - 1] == other;
    ExtentIs(later.bytes, e);
  }

  /** The first batch may end exactly where a tail ended that was rolled back. */
  lemma RolledBackFirst(segment: Segment) returns (changes: seq<Change>, later: Segment)
    requires Sound(segment) && segment.committed == 0 && Extent(segment.bytes) > 1
    ensures Becomes(segment, changes, later) && later.committed > 0
    ensures Extent(later.bytes) == Extent(segment.bytes) && later.bytes != segment.bytes
  {
    var e, size := Extent(segment.bytes), |segment.bytes|;
    var batch := seq(e - 1, _ => Event({}));
    var cleared := Scratch(segment, Zeros(size));
    later := Commit(cleared, batch);
    changes := [Partial(Zeros(size)), Batch(batch)];
    assert changes[1..] == [Batch(batch)] && changes[1..][1..] == [];
    assert Becomes(later, [], later) && Becomes(cleared, changes[1..], later);
    assert later.bytes[e - 1] == Mark(batch);
    ExtentIs(later.bytes, e);
  }

  /** Exactly when the copied extent does not pass what was committed: whatever is above may be rolled
      back, and different bytes of the same length commit. (One byte is too short for a batch.) */
  lemma SafeExactly(segment: Segment)
    requires Sound(segment)
    ensures SafeForEver(segment) <==> Extent(segment.bytes) <= segment.committed || Extent(segment.bytes) <= 1
  {
    var e, c := Extent(segment.bytes), segment.committed;
    if e <= c || e <= 1 {
      forall changes, later | Becomes(segment, changes, later) && later.committed > 0 && Extent(later.bytes) == e
        ensures later.bytes == segment.bytes {
        BecomesGrown(segment, changes, later);
        SafeOne(segment, later);
      }
    } else if c == 0 {
      var changes, later := RolledBackFirst(segment);
      assert !SafeForEver(segment);
    } else {
      var change, later := RolledBack(segment);
      assert [change][1..] == [] && Becomes(later, [], later);
      assert Becomes(segment, [change], later);
      assert !SafeForEver(segment);
    }
  }

  lemma SafeOne(segment: Segment, later: Segment)
    requires Sound(segment) && Sound(later) && Grown(segment, later) && later.committed > 0
    requires Extent(later.bytes) == Extent(segment.bytes)
    requires Extent(segment.bytes) <= segment.committed || Extent(segment.bytes) <= 1
    ensures later.bytes == segment.bytes
  {
    ExtentCovers(segment);
    ExtentCovers(later);
    var c := segment.committed;
    ExtentLeast(segment.bytes, c);
    ExtentLeast(later.bytes, c);
    forall i | 0 <= i < |later.bytes| ensures later.bytes[i] == segment.bytes[i] {
      if i < c { assert later.bytes[i] == later.bytes[..c][i] == segment.bytes[..c][i]; }
    }
  }
}
