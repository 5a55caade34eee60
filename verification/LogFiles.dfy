/** The files of a log: segments that are preallocated, filled batch by batch and never changed below
    their last commit marker, and what a reader makes of such a file or of a copy of one (the rules
    `src/backup.rs` relies on). */
module LogFiles {

  /** An event, by the key generations its content is sealed under. */
  datatype Event = Event(keys: set<nat>)

  /** What one place in a file holds. A marker closes a batch and, like its checksums, fits no other. */
  datatype Byte = Zero | Part(event: Event) | Mark(batch: seq<Event>)

  type File = seq<Byte>

  function Zeros(n: nat): File { seq(n, _ => Zero) }

  function Parts(batch: seq<Event>): File { seq(|batch|, i requires 0 <= i < |batch| => Part(batch[i])) }

  // ----- reading -----------------------------------------------------------

  /** How many records stand from `at` on. */
  function Records(file: File, at: nat): (n: nat)
    requires at <= |file|
    ensures at + n <= |file| && forall i :: at <= i < at + n ==> file[i].Part?
    ensures at + n < |file| ==> !file[at + n].Part?
    decreases |file| - at
  {
    if at < |file| && file[at].Part? then 1 + Records(file, at + 1) else 0
  }

  /** The records at `at`, one or more, end in the marker that fits them. */
  predicate Batched(file: File, at: nat)
    requires at <= |file|
  {
    var end := at + Records(file, at);
    at < end < |file| && file[end].Mark? && Parts(file[end].batch) == file[at..end]
  }

  /** The events of the batches from `at` on, up to the first that does not validate. */
  function ReadFrom(file: File, at: nat): seq<Event>
    requires at <= |file|
    decreases |file| - at
  {
    if Batched(file, at) then
      var end := at + Records(file, at);
      file[end].batch + ReadFrom(file, end + 1)
    else []
  }

  function Read(file: File): seq<Event> { ReadFrom(file, 0) }

  /** A log, file after file: a file is named by the position of the event before its first. */
  function ReadLog(files: map<nat, File>, base: nat): seq<Event>
    decreases files.Keys
  {
    if base !in files then []
    else
      var events := Read(files[base]);
      events + ReadLog(files - {base}, base + |events|)
  }

  // ----- a segment ---------------------------------------------------------

  /** A segment: its bytes, and where its committed batches end. */
  datatype Segment = Segment(bytes: File, committed: nat)

  predicate Framed(file: File, at: nat, end: nat)
    requires at <= end <= |file|
    decreases end - at
  {
    at == end ||
    (Batched(file, at) && at + Records(file, at) < end && Framed(file, at + Records(file, at) + 1, end))
  }

  predicate Unmarked(file: File, at: nat) {
    forall i :: at <= i < |file| ==> !file[i].Mark?
  }

  /** Batches up to `committed`, and above it nothing that commits. */
  predicate Sound(segment: Segment) {
    && segment.committed <= |segment.bytes|
    && Framed(segment.bytes, 0, segment.committed) && Unmarked(segment.bytes, segment.committed)
  }

  predicate Fits(segment: Segment, batch: seq<Event>) {
    batch != [] && segment.committed + |batch| + 1 <= |segment.bytes|
  }

  /** Append a batch over whatever an unfinished one has left. */
  function Commit(segment: Segment, batch: seq<Event>): Segment
    requires Fits(segment, batch)
  {
    var c, end := segment.committed, segment.committed + |batch| + 1;
    Segment(segment.bytes[..c] + Parts(batch) + [Mark(batch)] + segment.bytes[end..], end)
  }

  /** Bytes of a batch not yet committed, or rolled back: anything that holds no marker. */
  predicate Uncommitted(segment: Segment, tail: File) {
    segment.committed <= |segment.bytes| && |tail| == |segment.bytes| - segment.committed && Unmarked(tail, 0)
  }

  function Scratch(segment: Segment, tail: File): Segment
    requires Uncommitted(segment, tail)
  {
    segment.(bytes := segment.bytes[..segment.committed] + tail)
  }

  function Empty(size: nat): Segment { Segment(Zeros(size), 0) }

  // ----- what reading gives ------------------------------------------------

  predicate SameTo(file: File, other: File, end: nat) {
    end <= |file| && end <= |other| && forall i :: 0 <= i < end ==> file[i] == other[i]
  }

  lemma {:induction false} RecordsSame(file: File, other: File, at: nat, end: nat)
    requires at <= end && SameTo(file, other, end)
    requires at + Records(file, at) < end
    ensures Records(other, at) == Records(file, at)
    decreases end - at
  {
    if file[at].Part? { RecordsSame(file, other, at + 1, end); }
  }

  lemma BatchedSame(file: File, other: File, at: nat, end: nat)
    requires at <= end && SameTo(file, other, end)
    requires Batched(file, at) && at + Records(file, at) < end
    ensures Batched(other, at) && Records(other, at) == Records(file, at)
    ensures other[at + Records(file, at)] == file[at + Records(file, at)]
  {
    var mark := at + Records(file, at);
    RecordsSame(file, other, at, end);
    assert file[at..mark] == other[at..mark];
  }

  /** The first events, then the others. */
  predicate Joins(all: seq<Event>, first: seq<Event>, others: seq<Event>) { all == first + others }

  predicate Starts(short: seq<Event>, long: seq<Event>) { short <= long }

  /** A batch, and then what is read behind it. */
  lemma ReadNext(file: File, at: nat)
    requires at <= |file| && Batched(file, at)
    ensures
      var mark := at + Records(file, at);
      Joins(ReadFrom(file, at), file[mark].batch, ReadFrom(file, mark + 1))
  {
  }

  lemma ReadNothing(file: File, at: nat, events: seq<Event>)
    requires at <= |file| && !Batched(file, at)
    ensures Starts(ReadFrom(file, at), events)
  {
  }

  lemma JoinsOn(batch: seq<Event>, all: seq<Event>, first: seq<Event>, all': seq<Event>, first': seq<Event>,
                others: seq<Event>)
    requires Joins(all, batch, all') && Joins(first, batch, first') && Joins(all', first', others)
    ensures Joins(all, first, others)
  {
    assert batch + (first' + others) == batch + first' + others;
  }

  lemma StartsOn(batch: seq<Event>, short: seq<Event>, long: seq<Event>, short': seq<Event>, long': seq<Event>)
    requires Joins(short, batch, short') && Joins(long, batch, long') && Starts(short', long')
    ensures Starts(short, long)
  {
  }

  lemma FramedNext(file: File, at: nat, end: nat)
    requires at < end <= |file|
    ensures
      var mark := at + Records(file, at);
      Framed(file, at, end) <==> Batched(file, at) && mark < end && Framed(file, mark + 1, end)
  {
  }

  lemma OverNothing(file: File, other: File, at: nat)
    requires SameTo(file, other, at) && Unmarked(file, at)
    ensures Framed(other, at, at) && Joins(ReadFrom(other, at), ReadFrom(file, at), ReadFrom(other, at))
  {
    UnmarkedReads(file, at);
  }

  /** A file that is the same up to where the other ends its last batch reads on from there. */
  lemma {:induction false} ReadsOver(file: File, other: File, at: nat, end: nat)
    requires at <= end <= |file| && end <= |other| && SameTo(file, other, end) && Framed(file, at, end)
    requires Unmarked(file, end)
    ensures Framed(other, at, end) && Joins(ReadFrom(other, at), ReadFrom(file, at), ReadFrom(other, end))
    decreases end - at
  {
    hide *;
    if at == end {
      OverNothing(file, other, end);
    } else {
      FramedNext(file, at, end);
      BatchedSame(file, other, at, end);
      var mark := at + Records(file, at);
      ReadNext(file, at);
      ReadNext(other, at);
      ReadsOver(file, other, mark + 1, end);
      JoinsOn(file[mark].batch, ReadFrom(other, at), ReadFrom(file, at), ReadFrom(other, mark + 1),
        ReadFrom(file, mark + 1), ReadFrom(other, end));
      FramedNext(other, at, end);
    }
  }

  lemma {:induction false} FramedOn(file: File, at: nat, mid: nat, end: nat)
    requires at <= mid <= end <= |file| && Framed(file, at, mid) && Framed(file, mid, end)
    ensures Framed(file, at, end)
    decreases mid - at
  {
    if at < mid { FramedOn(file, at + Records(file, at) + 1, mid, end); }
  }

  lemma UnmarkedReads(file: File, at: nat)
    requires at <= |file| && Unmarked(file, at)
    ensures ReadFrom(file, at) == []
  {
  }

  /** What is not committed is not read, whatever it is. */
  lemma ScratchReads(segment: Segment, tail: File)
    requires Sound(segment) && Uncommitted(segment, tail)
    ensures Sound(Scratch(segment, tail)) && Read(Scratch(segment, tail).bytes) == Read(segment.bytes)
  {
    var c, after := segment.committed, Scratch(segment, tail).bytes;
    assert SameTo(segment.bytes, after, c);
    forall i | c <= i < |after| ensures !after[i].Mark? { assert after[i] == tail[i - c]; }
    ReadsOver(segment.bytes, after, 0, c);
    UnmarkedReads(after, c);
  }

  lemma {:induction false} PartsRecords(file: File, at: nat, n: nat)
    requires at + n < |file| && (forall i :: at <= i < at + n ==> file[i].Part?) && !file[at + n].Part?
    ensures Records(file, at) == n
    decreases n
  {
    if n > 0 { PartsRecords(file, at + 1, n - 1); }
  }

  lemma CommitBytes(segment: Segment, batch: seq<Event>)
    requires Sound(segment) && Fits(segment, batch)
    ensures
      var c, after := segment.committed, Commit(segment, batch).bytes;
      var mark := c + |batch|;
      && SameTo(segment.bytes, after, c) && after[c..mark] == Parts(batch) && after[mark] == Mark(batch)
      && |after| == |segment.bytes| && Unmarked(after, mark + 1)
  {
    var c, after := segment.committed, Commit(segment, batch).bytes;
    forall i | c + |batch| + 1 <= i < |after| ensures !after[i].Mark? { assert after[i] == segment.bytes[i]; }
  }

  lemma FrameBatched(file: File, at: nat, batch: seq<Event>)
    requires batch != [] && at + |batch| < |file| && file[at..at + |batch|] == Parts(batch)
      && file[at + |batch|] == Mark(batch)
    ensures Batched(file, at) && Records(file, at) == |batch|
  {
    forall i | at <= i < at + |batch| ensures file[i].Part? { assert file[i] == file[at..at + |batch|][i - at]; }
    PartsRecords(file, at, |batch|);
  }

  lemma FrameReads(file: File, at: nat, batch: seq<Event>)
    requires batch != [] && at + |batch| < |file| && file[at..at + |batch|] == Parts(batch)
      && file[at + |batch|] == Mark(batch)
    requires Unmarked(file, at + |batch| + 1)
    ensures Framed(file, at, at + |batch| + 1) && ReadFrom(file, at) == batch
  {
    var end := at + |batch| + 1;
    FrameBatched(file, at, batch);
    UnmarkedReads(file, end);
    hide Batched, Parts, Records, Unmarked;
    assert Framed(file, end, end);
    assert ReadFrom(file, at) == batch + ReadFrom(file, end);
  }

  lemma OneMore(file: File, after: File, c: nat, batch: seq<Event>)
    requires batch != [] && c <= |file| && Framed(file, 0, c) && Unmarked(file, c)
    requires c + |batch| < |after| && SameTo(file, after, c) && Unmarked(after, c + |batch| + 1)
    requires after[c..c + |batch|] == Parts(batch) && after[c + |batch|] == Mark(batch)
    ensures Framed(after, 0, c + |batch| + 1) && ReadFrom(after, 0) == ReadFrom(file, 0) + batch
  {
    hide Parts, ReadFrom, Framed, Unmarked;
    FrameReads(after, c, batch);
    ReadsOver(file, after, 0, c);
    FramedOn(after, 0, c, c + |batch| + 1);
  }

  /** A committed batch is read after those before it. */
  lemma CommitReads(segment: Segment, batch: seq<Event>)
    requires Sound(segment) && Fits(segment, batch)
    ensures Sound(Commit(segment, batch)) && Read(Commit(segment, batch).bytes) == Read(segment.bytes) + batch
  {
    CommitBytes(segment, batch);
    hide Parts, ReadFrom, Framed, Unmarked;
    OneMore(segment.bytes, Commit(segment, batch).bytes, segment.committed, batch);
  }

  // ----- what a copy reads as ----------------------------------------------

  /** Every marker in a copy is one the segment has committed, in the same place. Nothing else of a
      copy is promised: its other bytes may come from different moments. */
  predicate TrueCopy(copy: File, segment: Segment) {
    && |copy| == |segment.bytes|
    && forall i :: 0 <= i < |copy| && copy[i].Mark? ==> i < segment.committed && copy[i] == segment.bytes[i]
  }

  /** A marker reaches back to the one before it and no further. */
  lemma {:induction false} MarkSpan(file: File, at: nat, end: nat, mark: nat)
    requires at <= mark < end <= |file| && Framed(file, at, end) && file[mark].Mark?
    ensures |file[mark].batch| <= mark - at
    ensures |file[mark].batch| == mark - at ==> Records(file, at) == mark - at
    decreases end - at
  {
    var first := at + Records(file, at);
    if mark > first {
      MarkSpan(file, first + 1, end, mark);
    } else {
      assert |Parts(file[mark].batch)| == |file[at..mark]|;
    }
  }

  lemma CopyBatched(copy: File, segment: Segment, at: nat)
    requires TrueCopy(copy, segment) && at <= segment.committed <= |copy| == |segment.bytes|
    requires Framed(segment.bytes, at, segment.committed) && Batched(copy, at)
    ensures
      var mark := at + Records(copy, at);
      && mark < segment.committed && segment.bytes[mark] == copy[mark] && Batched(segment.bytes, at)
      && Records(segment.bytes, at) == Records(copy, at) && Framed(segment.bytes, mark + 1, segment.committed)
  {
    var mark := at + Records(copy, at);
    assert |Parts(copy[mark].batch)| == |copy[at..mark]|;
    MarkSpan(segment.bytes, at, segment.committed, mark);
  }

  lemma {:induction false} CopyReadsFrom(copy: File, segment: Segment, at: nat)
    requires TrueCopy(copy, segment) && at <= segment.committed <= |copy| == |segment.bytes|
    requires Framed(segment.bytes, at, segment.committed)
    ensures Starts(ReadFrom(copy, at), ReadFrom(segment.bytes, at))
    decreases |copy| - at
  {
    hide *;
    if Batched(copy, at) {
      var mark := at + Records(copy, at);
      CopyBatched(copy, segment, at);
      ReadNext(copy, at);
      ReadNext(segment.bytes, at);
      CopyReadsFrom(copy, segment, mark + 1);
      StartsOn(copy[mark].batch, ReadFrom(copy, at), ReadFrom(segment.bytes, at),
               ReadFrom(copy, mark + 1), ReadFrom(segment.bytes, mark + 1));
    } else {
      ReadNothing(copy, at, ReadFrom(segment.bytes, at));
    }
  }

  /** So a copy reads as the segment does, up to some batch. */
  lemma CopyReads(copy: File, segment: Segment)
    requires Sound(segment) && TrueCopy(copy, segment)
    ensures Read(copy) <= Read(segment.bytes)
  {
    CopyReadsFrom(copy, segment, 0);
  }

  lemma PrefixBatched(short: File, file: File, at: nat)
    requires short <= file && at <= |short| && Batched(short, at)
    ensures Batched(file, at) && Records(file, at) == Records(short, at)
    ensures at + Records(short, at) < |short| && file[at + Records(short, at)] == short[at + Records(short, at)]
  {
    BatchedSame(short, file, at, |short|);
  }

  lemma {:induction false} ShorterReads(short: File, file: File, at: nat)
    requires short <= file && at <= |short|
    ensures Starts(ReadFrom(short, at), ReadFrom(file, at))
    decreases |short| - at
  {
    hide *;
    if Batched(short, at) {
      var mark := at + Records(short, at);
      PrefixBatched(short, file, at);
      ReadNext(short, at);
      ReadNext(file, at);
      ShorterReads(short, file, mark + 1);
      StartsOn(short[mark].batch, ReadFrom(short, at), ReadFrom(file, at), ReadFrom(short, mark + 1),
        ReadFrom(file, mark + 1));
    } else {
      ReadNothing(short, at, ReadFrom(file, at));
    }
  }

  // ----- logs --------------------------------------------------------------

  /** These are the log's events from `base` on. */
  predicate ReadsAs(log: seq<Event>, base: nat, events: seq<Event>) {
    base + |events| <= |log| && log[base..base + |events|] == events
  }

  lemma ReadsOn(log: seq<Event>, base: nat, events: seq<Event>, more: seq<Event>)
    requires ReadsAs(log, base, events) && ReadsAs(log, base + |events|, more)
    ensures ReadsAs(log, base, events + more)
  {
    var mid, end := base + |events|, base + |events| + |more|;
    assert log[base..mid] + log[mid..end] == log[base..end];
  }

  lemma ReadsPrefix(log: seq<Event>, base: nat, events: seq<Event>, less: seq<Event>)
    requires ReadsAs(log, base, events) && less <= events
    ensures ReadsAs(log, base, less)
  {
    assert less == events[..|less|] == log[base..base + |events|][..|less|];
  }

  /** True copies of some of a log's segments. */
  predicate Copies(files: map<nat, File>, log: seq<Event>, segments: map<nat, Segment>) {
    forall b :: b in files ==>
      b in segments && Sound(segments[b]) && ReadsAs(log, b, Read(segments[b].bytes)) && TrueCopy(files[b], segments[b])
  }

  lemma CopiesFirst(files: map<nat, File>, base: nat, log: seq<Event>, segments: map<nat, Segment>)
    requires Copies(files, log, segments) && base in files
    ensures
      var events := Read(files[base]);
      ReadsAs(log, base, events) && base + |events| <= |log| && Copies(files - {base}, log, segments)
  {
    hide Read, Sound, TrueCopy;
    CopyReads(files[base], segments[base]);
    ReadsPrefix(log, base, Read(segments[base].bytes), Read(files[base]));
  }

  /** They read as a prefix of the log, whichever files they are and whenever each of their bytes was read. */
  lemma {:induction false} CopiesRead(files: map<nat, File>, base: nat, log: seq<Event>, segments: map<nat, Segment>)
    requires base <= |log| && Copies(files, log, segments)
    ensures ReadsAs(log, base, ReadLog(files, base))
    decreases files.Keys
  {
    if base in files {
      hide Copies, ReadsAs, Read;
      var events := Read(files[base]);
      CopiesFirst(files, base, log, segments);
      CopiesRead(files - {base}, base + |events|, log, segments);
      ReadsOn(log, base, events, ReadLog(files - {base}, base + |events|));
    }
  }
}
