/** A run in which a complete backup's copy of a segment goes stale and is left standing, so that the next
    backup cannot reach the log's head and is refused. */
module BackupStale {
  import opened Options
  import opened LogFiles
  import opened SegmentCopy
  import opened Backup
  import opened BackupReuse

  const EVENT := Event({})

  /** The first segment with a batch that is about to be rolled back, */
  const BEFORE: File := [Part(Event({7})), Part(Event({7})), Zero]

  /** and with the batch of the same length that took its place. */
  const SINCE: File := [Part(EVENT), Mark([EVENT]), Zero]

  const NOTHING := OpState({}, map[], map[])

  function First(files: map<nat, File>, complete: bool, phase: Phase): World {
    World([], map[0 := Segment(BEFORE, 0)], 0, NOTHING, {}, map[], Target(files, NOTHING, {}, complete), phase)
  }

  function Second(files: map<nat, File>, complete: bool, phase: Phase): World {
    World([EVENT], map[0 := Segment(SINCE, 2), 1 := Empty(3)], 1, NOTHING, {}, map[0 := {}],
          Target(files, NOTHING, {}, complete), phase)
  }

  function Scene(k: nat): World {
    var held := map[0 := BEFORE];
    match k
    case 0 => Fresh(3)
    case 1 => First(map[], false, Idle)
    case 2 => First(map[], false, Claimed(0))
    case 3 => First(map[], false, Copying(0, 0, 2, 0, {0}, []))
    case 4 => First(map[], false, Copying(0, 0, 2, 0, {0}, BEFORE[..1]))
    case 5 => First(map[], false, Copying(0, 0, 2, 0, {0}, BEFORE[..2]))
    case 6 => First(held, false, Copying(0, 0, 2, 0, {}, []))
    case 7 => First(held, false, Snapped(0, NOTHING, {}))
    case 8 => First(held, false, Clamped(0, NOTHING, {}))
    case 9 => First(held, false, Installed(0))
    case 10 => First(held, true, Idle)
    case 11 => Second(held, true, Idle).(segments := map[0 := Segment(SINCE, 2)], active := 0)
    case 12 => Second(held, true, Idle)
    case 13 => Second(held, false, Claimed(1))
    case 14 => Second(held, false, Copying(1, 1, 0, 0, {1}, []))
    case 15 => Second(held[1 := Zeros(3)], false, Copying(1, 1, 0, 0, {}, []))
    case _ => Refused()
  }

  function Refused(): World {
    Second(map[0 := BEFORE, 1 := Zeros(3)], false, Snapped(1, NOTHING, {}))
  }

  function Script(): (run: seq<Step>)
    ensures |run| == 16
  {
    [Scribble(BEFORE), Claim, List(2), ReadByte(0), ReadByte(0), Place(0), Snapshot, ClampSnapshot, Install, Finish,
     Append(0, [EVENT]), Roll(3), Claim, List(0), Place(1), Snapshot]
  }

  predicate Plays(k: nat)
    requires k < 16
  {
    Enabled(Scene(k), Script()[k]) && Next(Scene(k), Script()[k]) == Scene(k + 1)
  }

  lemma {:induction false} PlaysReach(k: nat)
    requires k <= 16 && forall i: nat :: k <= i < 16 ==> Plays(i)
    ensures Reaches(Scene(k), Script()[k..], Scene(16))
    decreases 16 - k
  {
    var run := Script();
    if k < 16 {
      assert Plays(k);
      hide Next, Enabled, Scene, Script;
      assert run[k..][0] == run[k] && run[k..][1..] == run[k + 1..];
      PlaysReach(k + 1);
    }
  }

  // ----- what its files hold -----------------------------------------------

  lemma Extents()
    ensures Extent(BEFORE) == 2 && Extent(SINCE) == 2 && Extent(Zeros(3)) == 0
  {
    ExtentIs(BEFORE, 2);
    ExtentIs(SINCE, 2);
    ExtentIs(Zeros(3), 0);
  }

  lemma StaleReads()
    ensures Read(BEFORE) == [] && ReadLog(map[0 := BEFORE], 0) == []
      && ReadLog(map[0 := BEFORE, 1 := Zeros(3)], 0) == []
  {
    UnmarkedReads(BEFORE, 0);
    hide Read;
    assert map[0 := BEFORE] - {0} == map[];
    var both := map[0 := BEFORE, 1 := Zeros(3)];
    assert 0 !in both - {0};
  }

  lemma SinceReads()
    ensures Read(SINCE) == [EVENT]
  {
    assert SINCE[0..1] == Parts([EVENT]);
    FrameReads(SINCE, 0, [EVENT]);
  }

  // ----- the steps ---------------------------------------------------------

  lemma Begins(k: nat)
    requires k < 2
    ensures Plays(k)
  {
    StaleReads();
    assert ReadLog(map[], 0) == [];
    assert Zeros(3)[..0] + BEFORE == BEFORE;
    assert map[0 := Empty(3)][0 := Segment(BEFORE, 0)] == map[0 := Segment(BEFORE, 0)];
    hide Read;
  }

  lemma Lists()
    ensures Plays(2)
  {
    var w := Scene(2);
    ActiveMoves(w);
    assert Todo(w) == {0};
    assert Next(w, List(2)).target.files == map[];
    hide Extent;
  }

  lemma ReadsBytes(k: nat)
    requires 3 <= k < 5
    ensures Plays(k)
  {
    assert BEFORE[..1] == [BEFORE[0]] && BEFORE[..2] == [BEFORE[0]] + [BEFORE[1]];
    assert [] + [BEFORE[0]] == [BEFORE[0]];
    hide Extent;
  }

  lemma Places()
    ensures Plays(5)
  {
    var w := Scene(5);
    assert BEFORE[..2] + Zeros(1) == BEFORE;
    assert w.phase.todo - {0} == {};
    assert w.target.files[0 := BEFORE] == map[0 := BEFORE];
    hide Extent;
  }

  lemma Completes(k: nat)
    requires 6 <= k < 10
    ensures Plays(k)
  {
    StaleReads();
    ClampLowers(NOTHING, 0);
    assert Within(NOTHING, 0);
    hide ReadLog, Clamp, Within;
  }

  lemma Appends()
    ensures Plays(10)
  {
    var w := Scene(10);
    assert BEFORE[..0] + Parts([EVENT]) + [Mark([EVENT])] + BEFORE[2..] == SINCE;
    assert Commit(w.segments[0], [EVENT]) == Segment(SINCE, 2);
    assert [] + [EVENT] == [EVENT];
    assert w.segments[0 := Segment(SINCE, 2)] == map[0 := Segment(SINCE, 2)];
    assert w.sealing[0 := {}] == map[0 := {}];
    hide Commit;
  }

  lemma Rolls(k: nat)
    requires 11 <= k < 13
    ensures Plays(k)
  {
    StaleReads();
    SinceReads();
    hide Read, ReadLog;
    assert map[0 := Segment(SINCE, 2)][1 := Empty(3)] == map[0 := Segment(SINCE, 2), 1 := Empty(3)];
  }

  /** The stale copy has the length and the extent of what is there now. */
  lemma Stands()
    ensures Reuses(Bytes(Scene(13).segments), Scene(13).target.files, 0) && Todo(Scene(13)) == {1}
    ensures !Guarded(Scene(13))
  {
    var w := Scene(13);
    Extents();
    ActiveMoves(w);
    hide Extent;
    var source := Bytes(w.segments);
    assert source[0] == SINCE && source[1] == Zeros(3) && 1 in source.Keys;
    assert Highest(w.target.files.Keys, 0);
  }

  lemma ListsAgain()
    ensures Plays(13)
  {
    var w := Scene(13);
    Stands();
    hide Todo, Reuses, Guarded;
    assert (map b | b in w.target.files && b in w.segments :: w.target.files[b]) == w.target.files;
  }

  lemma Ends(k: nat)
    requires 14 <= k < 16
    ensures Plays(k)
  {
    assert [] + Zeros(3) == Zeros(3) && {1} - {1} == {};
    assert map[0 := BEFORE][1 := Zeros(3)] == map[0 := BEFORE, 1 := Zeros(3)];
    hide Extent;
  }

  lemma AllPlay()
    ensures forall k: nat :: k < 16 ==> Plays(k)
  {
    hide Plays;
    forall k: nat | k < 16 ensures Plays(k) {
      if k < 2 { Begins(k); }
      else if k == 2 { Lists(); }
      else if k < 5 { ReadsBytes(k); }
      else if k == 5 { Places(); }
      else if k < 10 { Completes(k); }
      else if k == 10 { Appends(); }
      else if k < 13 { Rolls(k); }
      else if k == 13 { ListsAgain(); }
      else { Ends(k); }
    }
  }

  lemma Reached()
    ensures Reaches(Fresh(3), Script(), Refused())
  {
    assert Script()[0..] == Script() && Scene(0) == Fresh(3) && Scene(16) == Refused();
    hide *;
    AllPlay();
    PlaysReach(0);
  }

  lemma Differ()
    ensures Refused().target.files[0] != Refused().segments[0].bytes && Refused().log == [EVENT]
  {
    assert 7 in BEFORE[0].event.keys && 7 !in SINCE[0].event.keys;
  }

  lemma RefusedShort()
    ensures Refused().phase.Snapped? && |ReadLog(Refused().target.files, 0)| < Refused().phase.before
    ensures !Enabled(Refused(), ClampSnapshot)
  {
    StaleReads();
    hide ReadLog;
  }

  /** A first backup, complete, copies the segment at the log's end while a batch in it is being rolled
      back. Another batch of the same length commits there and the segment is sealed. The next backup
      leaves the copy standing, though its bytes are not the source's; the copied log stops short of
      the head read at the start, and the run is refused. */
  lemma StaleRefused()
    ensures Reaches(Fresh(3), Script(), Refused()) && Scene(10).target.complete
    ensures Refused().target.files[0] != Refused().segments[0].bytes && Refused().log == [EVENT]
    ensures Refused().phase.Snapped? && |ReadLog(Refused().target.files, 0)| < Refused().phase.before
    ensures !Enabled(Refused(), ClampSnapshot)
  {
    RefusedShort();
    Differ();
    Reached();
    assert Scene(10).target.complete;
    hide *;
  }
}
