/** The steps of workers, the publisher and restarts keep the invariant, so every run does. */
module LaneSteps {
  import opened Options
  import opened LaneSpec
  import opened LaneRuns
  import opened LaneInvariants

  // ----- what a step keeps by leaving its fields alone ----------------------

  lemma KeepsQueues(log: Log, w: World, w': World)
    requires w'.s.queues == w.s.queues && w'.s.inflight == w.s.inflight
    requires Ordered(log, w) && Inflight(w)
    ensures Ordered(log, w') && Inflight(w')
  {
    forall l, g ensures Holds(w'.s, l, g) <==> Holds(w.s, l, g) {}
  }

  lemma KeepsOwners(log: Log, w: World, w': World)
    requires w'.s.queues == w.s.queues && w'.owner == w.owner && w'.retired == w.retired && w'.base == w.base
    requires Front(w') == Front(w) && w.terminal <= w'.terminal
    requires Owned(w) && Answered(log, w) && Ranged(w) && Apart(log, w)
    ensures Owned(w') && Answered(log, w') && Ranged(w') && Apart(log, w')
  {
    hide Front;
    forall l, g ensures Holds(w'.s, l, g) <==> Holds(w.s, l, g) {}
    forall p | p in w.owner ensures AnsweredFor(log, w', p) {
      assert AnsweredFor(log, w, p);
      if w.owner[p] !in w.retired {
        var g :| Holds(w.s, log(p).value.lane, g) && g.hi == w.owner[p];
        assert Holds(w'.s, log(p).value.lane, g);
      }
    }
    forall lo: nat, hi: nat ensures IsRange(w, lo, hi) <==> IsRange(w', lo, hi) {}
    forall h: nat ensures Runs(w, h) <==> Runs(w', h) {}
  }

  lemma KeepsOpen(log: Log, w: World, w': World)
    requires w'.s.queues == w.s.queues && w'.owner == w.owner && w'.s.blind == w.s.blind
    requires forall key :: key in w'.s.latest ==>
      key in w.s.latest && w'.s.latest[key] == w.s.latest[key] && w.s.latest[key] !in w'.invoked
    requires Open(log, w)
    ensures Open(log, w')
  {
    forall l, g ensures Holds(w'.s, l, g) <==> Holds(w.s, l, g) {}
  }

  lemma KeepsGuards(log: Log, w: World, w': World)
    requires w'.owner == w.owner && w'.base == w.base && w'.baseRows == w.baseRows && w'.baseBegun == w.baseBegun
    requires w'.s.high == w.s.high && w'.s.begun == w.s.begun && w'.s.blind == w.s.blind && w'.invoked == w.invoked
    requires Front(w') == Front(w) && Floor(w) <= Floor(w')
    requires Unfolded(log, w) && Guarded(log, w) && Seeded(w) && ReadThrough(log, w)
    ensures Unfolded(log, w') && Guarded(log, w') && Seeded(w') && ReadThrough(log, w')
  {
    hide Front, Floor;
  }

  lemma KeepsOrder(log: Log, w: World, w': World)
    requires w'.s.queues == w.s.queues && w'.retired == w.retired && w'.owing <= w.owing && w'.baseRows == w.baseRows
    requires forall l :: l in w'.table ==> l in w.table && w'.table[l] == w.table[l]
    requires Ascending(log, w)
    ensures Ascending(log, w')
  {
    forall l, g ensures Holds(w'.s, l, g) <==> Holds(w.s, l, g) {}
  }

  lemma KeepsRows(log: Log, w: World, w': World)
    requires w'.mark == w.mark && w'.table == w.table && w'.base == w.base && w'.baseRows == w.baseRows
    requires w'.invoked == w.invoked && w'.seen == w.seen && w.terminal <= w'.terminal
    requires w'.terminal == w.terminal || w'.terminal <= w.invoked
    requires NothingLost(log, w) && NothingAbandoned(log, w)
    ensures NothingLost(log, w') && NothingAbandoned(log, w')
  {
    forall p: nat | Discharged(log, w, p) ensures Discharged(log, w', p) {}
  }

  lemma KeepsMarks(w: World, w': World)
    requires w'.mark == w.mark && w'.base == w.base && w'.cursor == w.cursor && w'.seen == w.seen
    requires w'.s.scanned == w.s.scanned && w'.s.inflight == w.s.inflight && Marked(w)
    ensures Marked(w')
  {
  }

  lemma KeepsWork(w: World, w': World)
    requires w'.handed == w.handed && w'.s.queues == w.s.queues && w'.s.latest == w.s.latest && Frozen(w)
    ensures Frozen(w')
  {
  }

  /** Two moments with the same queues, owners, cursor and mark. */
  ghost predicate SameSchedule(w: World, w': World) {
    && w'.s.queues == w.s.queues && w'.s.inflight == w.s.inflight && w'.s.latest == w.s.latest
    && w'.s.blind == w.s.blind && w'.s.scanned == w.s.scanned
    && w'.handed == w.handed && w'.owner == w.owner && w'.retired == w.retired && w'.base == w.base
    && w'.mark == w.mark && w'.cursor == w.cursor && w'.seen == w.seen
    && w'.invoked == w.invoked && w.terminal <= w'.terminal
  }

  lemma KeepsSchedule(log: Log, w: World, w': World)
    requires SameSchedule(w, w')
    requires Ordered(log, w) && Inflight(w) && Owned(w) && Answered(log, w) && Ranged(w) && Apart(log, w)
    requires Open(log, w) && Marked(w) && Frozen(w)
    ensures Ordered(log, w') && Inflight(w') && Owned(w') && Answered(log, w') && Ranged(w') && Apart(log, w')
    ensures Open(log, w') && Marked(w') && Frozen(w')
  {
    KeepsOpen(log, w, w') by { assert Open(log, w); }
    hide Ordered, Owned, Answered, Ranged, Apart, Inflight, Open, Marked, Frozen;
    KeepsMarks(w, w');
    KeepsWork(w, w');
    KeepsQueues(log, w, w');
    KeepsOwners(log, w, w');
  }

  // ----- steps that only move lanes between places, cursors and marks ------

  lemma PlacesKeep(log: Log, w: World, s: Lanes)
    requires s == w.s.(place := s.place, deferred := s.deferred, skipPromoted := s.skipPromoted)
    requires Inv(log, w)
    ensures Inv(log, w.(s := s))
  {
    var w' := w.(s := s);
    hide Ordered, Owned, Answered, Ranged, Apart, Inflight, Open, Unfolded, Guarded, Seeded, ReadThrough, Marked,
      Frozen, Ascending, NothingLost, NothingAbandoned;
    KeepsSchedule(log, w, w');
    KeepsGuards(log, w, w');
    KeepsOrder(log, w, w');
    KeepsRows(log, w, w');
  }

  /** Recording how far the reader got, and re-subscribing from the mark, leave the front where it was. */
  lemma FrontKeeps(log: Log, w: World, cursor: nat, scanned: nat)
    requires Inside(log, w) && w.s.scanned <= scanned && Max(scanned, cursor) == Front(w)
    requires cursor == w.cursor || cursor == w.mark
    ensures Inside(log, w.(cursor := cursor, s := SetScanned(w.s, scanned)))
  {
    var w' := w.(cursor := cursor, s := SetScanned(w.s, scanned));
    assert Marked(w') && Frozen(w') && Floor(w) <= Floor(w');
    KeepsOpen(log, w, w');
    hide Ordered, Owned, Answered, Ranged, Apart, Inflight, Open, Unfolded, Guarded, Seeded, ReadThrough, Marked,
      Frozen, Ascending, NothingLost, NothingAbandoned;
    KeepsQueues(log, w, w');
    KeepsOwners(log, w, w');
    KeepsGuards(log, w, w');
    KeepsOrder(log, w, w');
    KeepsRows(log, w, w');
  }

  lemma ReadKeeps(log: Log, w: World, to: nat)
    requires WellRouted(log) && Inv(log, w) && w.cursor <= to
    ensures Inv(log, Next(log, w, Read(to)))
  {
    DeliverToInside(log, w, to);
    var read := DeliverTo(log, w, to);
    hide Inside;
    FrontKeeps(log, read, read.cursor, Max(read.s.scanned, to));
    assert SetScanned(read.s, Max(read.s.scanned, to)) == SetScanned(read.s, to);
  }

  lemma ResubscribeKeeps(log: Log, w: World)
    requires Inv(log, w)
    ensures Inv(log, Next(log, w, Resubscribe))
  {
    assert w.mark <= w.s.scanned;
    hide Inside;
    FrontKeeps(log, w, w.mark, w.s.scanned);
    assert SetScanned(w.s, w.s.scanned) == SetScanned(w.s, w.mark);
  }

  // ----- the workers' steps ------------------------------------------------

  function HeadTaken(w: World, lane: LaneId): World {
    var queue := QueueOf(w.s, lane);
    if queue == [] then w
    else w.(s := w.s.(latest := Freeze(w.s.latest, lane, queue[0])), handed := w.handed[lane := WorkOf(queue[0])])
  }

  lemma TakeHeadKeeps(log: Log, w: World, lane: LaneId)
    requires Inv(log, w)
    ensures Inv(log, Next(log, w, TakeHead(lane)))
  {
    hide Ordered, Owned, Answered, Ranged, Apart, Inflight, Open, Unfolded, Guarded, Seeded, ReadThrough, Marked,
      Frozen, Ascending, NothingLost, NothingAbandoned;
    var w' := HeadTaken(w, lane);
    assert Next(log, w, TakeHead(lane)) == w';
    hide Next;
    TakeHeadFreezes(log, w, lane);
    KeepsQueues(log, w, w');
    KeepsOwners(log, w, w');
    KeepsMarks(w, w');
    KeepsGuards(log, w, w');
    KeepsOrder(log, w, w');
    KeepsRows(log, w, w');
  }

  lemma TakeHeadFreezes(log: Log, w: World, lane: LaneId)
    requires Frozen(w) && Open(log, w)
    ensures Frozen(HeadTaken(w, lane)) && Open(log, HeadTaken(w, lane))
  {
    var w' := HeadTaken(w, lane);
    assert forall key :: key in w'.s.latest ==> key in w.s.latest && w'.s.latest[key] == w.s.latest[key];
    KeepsOpen(log, w, w') by { hide Frozen; }
    hide Open;
  }

  /** The work a lane has out: a queued group's own position, newer than every row and the mark. */
  lemma OutIsNew(log: Log, w: World, lane: LaneId)
    requires Ordered(log, w) && Owned(w) && Ranged(w) && Inflight(w) && Marked(w) && Frozen(w) && Ascending(log, w)
    requires ReadThrough(log, w) && lane in w.handed
    ensures
      var h := w.handed[lane].position;
      && lane in w.s.queues && w.s.queues[lane] != [] && w.handed[lane] == WorkOf(w.s.queues[lane][0])
      && h == w.s.queues[lane][0].hi && Runs(w, h) && h !in w.retired
      && OnArm(log, h, lane, w.s.queues[lane][0].arm)
      && w.mark < h <= w.seen && !HadRow(log, w.table, h) && !HadRow(log, w.baseRows, h)
  {
    var g := w.s.queues[lane][0];
    assert Holds(w.s, lane, g);
    assert IsRange(w, g.lo, g.hi);
    assert OnArm(log, g.hi, lane, g.arm);
  }

  lemma BeginKeeps(log: Log, w: World, lane: LaneId)
    requires Inv(log, w) && lane in w.handed
    ensures Inv(log, Next(log, w, Begin(lane)))
  {
    hide Ordered, Owned, Answered, Ranged, Apart, Inflight, Open, Unfolded, Guarded, Seeded, ReadThrough, Marked,
      Frozen, Ascending, NothingLost, NothingAbandoned;
    var w' := Next(log, w, Begin(lane));
    var h := w.handed[lane].position;
    OutIsNew(log, w, lane);
    BeginOpen(log, w, lane);
    BeginRows(log, w, h);
    BeginUnfolded(log, w, h);
    KeepsQueues(log, w, w');
    KeepsOwners(log, w, w');
    KeepsMarks(w, w');
    KeepsWork(w, w');
    BeginGuards(log, w, w');
    KeepsOrder(log, w, w');
  }

  lemma BeginGuards(log: Log, w: World, w': World)
    requires w' == w.(invoked := w'.invoked) && Guarded(log, w) && Seeded(w) && ReadThrough(log, w)
    ensures Guarded(log, w') && Seeded(w') && ReadThrough(log, w')
  {
    assert w'.s == w.s && Front(w') == Front(w) && Floor(w') == Floor(w);
  }

  /** Beginning work whose group is frozen touches no group still open to folding. */
  lemma BeginOpen(log: Log, w: World, lane: LaneId)
    requires Ordered(log, w) && Open(log, w) && Frozen(w) && lane in w.handed
    ensures Open(log, w.(invoked := w.invoked + {w.handed[lane].position}))
  {
    var g := w.s.queues[lane][0];
    assert Holds(w.s, lane, g);
    KeepsOpen(log, w, w.(invoked := w.invoked + {g.hi}));
  }

  lemma BeginUnfolded(log: Log, w: World, h: nat)
    requires Unfolded(log, w) && Runs(w, h)
    ensures Unfolded(log, w.(invoked := w.invoked + {h}))
  {
    assert Front(w.(invoked := w.invoked + {h})) == Front(w);
  }

  lemma BeginRows(log: Log, w: World, h: nat)
    requires NothingLost(log, w) && NothingAbandoned(log, w)
    requires w.mark < h <= w.seen && log(h).Some? && !HadRow(log, w.table, h) && !HadRow(log, w.baseRows, h)
    ensures var w' := w.(invoked := w.invoked + {h}); NothingLost(log, w') && NothingAbandoned(log, w')
  {
    var w' := w.(invoked := w.invoked + {h});
    forall p: nat | Discharged(log, w, p) ensures Discharged(log, w', p) {}
  }

  lemma FinishKeeps(log: Log, w: World, lane: LaneId)
    requires Inv(log, w) && lane in w.handed && w.handed[lane].position in w.invoked
    ensures Inv(log, Next(log, w, Finish(lane)))
  {
    var w' := w.(terminal := w.terminal + {w.handed[lane].position});
    hide Ordered, Owned, Answered, Ranged, Apart, Inflight, Open, Unfolded, Guarded, Seeded, ReadThrough, Marked,
      Frozen, Ascending, NothingLost, NothingAbandoned;
    assert Next(log, w, Finish(lane)) == w';
    hide Next;
    KeepsSchedule(log, w, w');
    KeepsGuards(log, w, w');
    KeepsOrder(log, w, w');
    KeepsRows(log, w, w') by { assert NothingAbandoned(log, w); BegunBefore(log, w); }
  }

  lemma BegunBefore(log: Log, w: World)
    requires NothingAbandoned(log, w)
    ensures w.terminal <= w.invoked
  {
  }

  // ----- retiring a position -----------------------------------------------

  /** The queues after the head of `lane` is popped. */
  ghost predicate Popped(s: Lanes, s': Lanes, lane: LaneId, g: Pending) {
    && (forall l, h :: Holds(s', l, h) <==> Holds(s, l, h) && !(l == lane && h == g))
    && (forall l :: l in s'.queues ==> l in s.queues && Increasing(s'.queues[l]) && s'.queues[l] != [])
    && (forall l :: l in s.queues && l != lane ==> l in s'.queues && s'.queues[l] == s.queues[l])
  }

  lemma CompletePops(s: Lanes, lane: LaneId)
    requires lane in s.queues && s.queues[lane] != []
    requires forall l :: l in s.queues ==> Increasing(s.queues[l]) && s.queues[l] != []
    ensures Popped(s, Complete(s, lane, s.queues[lane][0].hi), lane, s.queues[lane][0])
  {
    var queue := s.queues[lane];
    var s' := Complete(s, lane, queue[0].hi);
    assert queue == [queue[0]] + queue[1..];
    forall h ensures Holds(s', lane, h) <==> Holds(s, lane, h) && h != queue[0] {
      if h in queue[1..] {
        var i :| 0 <= i < |queue[1..]| && queue[1..][i] == h;
        assert queue[0].hi < queue[i + 1].hi;
      }
    }
  }

  lemma RetireInflight(log: Log, w: World, w': World, lane: LaneId, g: Pending)
    requires Popped(w.s, w'.s, lane, g) && Holds(w.s, lane, g) && w'.s.inflight == w.s.inflight - {g.lo}
    requires Sound(w.s) && Inflight(w) && Ranged(w)
    ensures Inflight(w')
  {
    assert IsRange(w, g.lo, g.hi);
    forall l, h | Holds(w'.s, l, h) ensures Holds(w.s, l, h) && h.lo != g.lo {
      assert IsRange(w, h.lo, h.hi);
    }
    forall k | k in w'.s.inflight
      ensures exists h :: Holds(w'.s, w'.s.inflight[k], h) && h.lo == k
    {
      var h :| Holds(w.s, w.s.inflight[k], h) && h.lo == k;
      assert Holds(w'.s, w.s.inflight[k], h);
    }
  }

  lemma RetireQueues(log: Log, w: World, w': World, lane: LaneId, g: Pending)
    requires Popped(w.s, w'.s, lane, g) && Holds(w.s, lane, g) && w'.s.inflight == w.s.inflight - {g.lo}
    requires Sound(w.s) && Ordered(log, w) && Inflight(w) && Ranged(w)
    ensures Ordered(log, w') && Inflight(w')
  {
    RetireInflight(log, w, w', lane, g);
    hide Inflight, Ranged;
  }

  lemma RetireAnswered(log: Log, w: World, w': World, lane: LaneId, g: Pending)
    requires Popped(w.s, w'.s, lane, g) && Holds(w.s, lane, g)
    requires w'.retired == w.retired[g.hi := g.lo] && w'.owner == w.owner && Answered(log, w)
    ensures Answered(log, w')
  {
    forall p | p in w.owner ensures AnsweredFor(log, w', p) {
      assert AnsweredFor(log, w, p);
      if w.owner[p] !in w'.retired {
        var h :| Holds(w.s, log(p).value.lane, h) && h.hi == w.owner[p];
        assert Holds(w'.s, log(p).value.lane, h);
      }
    }
  }

  lemma RetireRanged(w: World, w': World, lane: LaneId, g: Pending)
    requires Popped(w.s, w'.s, lane, g) && Holds(w.s, lane, g) && g.hi in w.terminal && w'.terminal == w.terminal
    requires w'.retired == w.retired[g.hi := g.lo] && w'.owner == w.owner && Sound(w.s) && Ranged(w)
    ensures Ranged(w')
  {
    assert IsRange(w, g.lo, g.hi);
    forall lo: nat, hi: nat | IsRange(w, lo, hi) ensures IsRange(w', lo, hi) {}
    forall l, h | Holds(w'.s, l, h) ensures Holds(w.s, l, h) && h.hi != g.hi {}
  }

  lemma RetireOwners(log: Log, w: World, w': World, lane: LaneId, g: Pending)
    requires Popped(w.s, w'.s, lane, g) && Holds(w.s, lane, g) && g.hi in w.terminal && w'.terminal == w.terminal
    requires w'.retired == w.retired[g.hi := g.lo] && w'.owner == w.owner && w'.base == w.base && Front(w') == Front(w)
    requires Sound(w.s)
    requires Owned(w) && Answered(log, w) && Ranged(w) && Apart(log, w)
    ensures Owned(w') && Answered(log, w') && Ranged(w') && Apart(log, w')
  {
    hide Front, Popped, Sound, Holds, Ranged, Answered;
    RetireAnswered(log, w, w', lane, g);
    RetireRanged(w, w', lane, g);
    forall h: nat ensures Runs(w, h) <==> Runs(w', h) {}
  }

  lemma RetireOrder(log: Log, w: World, w': World, lane: LaneId, g: Pending)
    requires Popped(w.s, w'.s, lane, g) && Holds(w.s, lane, g) && lane in w.s.queues && w.s.queues[lane][0] == g
    requires Increasing(w.s.queues[lane]) && OnArm(log, g.hi, lane, g.arm)
    requires w'.retired == w.retired[g.hi := g.lo] && w'.owing <= w.owing + {(lane, g.hi)}
    requires w'.table == w.table && w'.baseRows == w.baseRows && Ascending(log, w)
    ensures Ascending(log, w')
  {
    forall h | Holds(w'.s, lane, h) ensures g.hi < h.hi {
      assert Holds(w.s, lane, h);
      var i :| 0 <= i < |w.s.queues[lane]| && w.s.queues[lane][i] == h;
      assert i != 0;
    }
    forall l, p: nat | Ran(log, w, l, p) ensures Ran(log, w', l, p) {}
    assert Ran(log, w', lane, g.hi);
  }

  lemma RetireWork(log: Log, w: World, w': World, lane: LaneId, g: Pending)
    requires Frozen(w) && Open(log, w) && Holds(w.s, lane, g) && lane in w.s.queues && g == w.s.queues[lane][0]
    requires Sound(w.s) && lane in w.handed
    requires Popped(w.s, w'.s, lane, g) && w'.handed == w.handed - {lane} && w'.s.latest == w.s.latest
    requires w'.owner == w.owner && w'.s.blind == w.s.blind && w'.invoked == w.invoked
    ensures Frozen(w') && Open(log, w')
  {
    forall key | key in w'.s.latest
      ensures exists h :: Holds(w'.s, key.0, h) && h.hi == w'.s.latest[key] && h.arm == key.1
    {
      var h :| Holds(w.s, key.0, h) && h.hi == w.s.latest[key] && h.arm == key.1;
      assert !(key.0 == lane && h == g);
      assert Holds(w'.s, key.0, h);
    }
  }

  ghost function Retired(w: World, lane: LaneId, g: Pending): World {
    var s := Complete(w.s, lane, g.hi);
    w.(s := s, handed := w.handed - {lane}, retired := w.retired[g.hi := g.lo],
       owing := if Owed(s, g.hi) then w.owing + {(lane, g.hi)} else w.owing)
  }

  /** Retiring the work a lane has out pops its head and touches little else. */
  ghost predicate Retires(w: World, w': World, lane: LaneId, g: Pending) {
    && Popped(w.s, w'.s, lane, g) && w'.s.inflight == w.s.inflight - {g.lo} && w'.s.latest == w.s.latest
    && w'.s == w.s.(queues := w'.s.queues, inflight := w'.s.inflight, skipPromoted := w'.s.skipPromoted)
    && w' == w.(s := w'.s, handed := w.handed - {lane}, retired := w.retired[g.hi := g.lo], owing := w'.owing)
    && w'.owing <= w.owing + {(lane, g.hi)}
  }

  lemma RetiresHead(log: Log, w: World, lane: LaneId)
    requires Ordered(log, w) && Frozen(w) && lane in w.handed
    ensures lane in w.s.queues && w.s.queues[lane] != []
    ensures Next(log, w, Retire(lane)) == Retired(w, lane, w.s.queues[lane][0])
    ensures Retires(w, Next(log, w, Retire(lane)), lane, w.s.queues[lane][0])
  {
    var g := w.s.queues[lane][0];
    assert Holds(w.s, lane, g);
    assert Next(log, w, Retire(lane)) == Retired(w, lane, g);
    hide Ordered, Frozen, Next;
    CompletePops(w.s, lane) by { assert Ordered(log, w); OrderedSound(log, w); }
  }

  /** The fields a retirement leaves alone, one by one. */
  ghost predicate RetiresBeside(w: World, w': World) {
    && w'.owner == w.owner && w'.base == w.base && w'.baseRows == w.baseRows && w'.baseBegun == w.baseBegun
    && w'.mark == w.mark && w'.table == w.table && w'.cursor == w.cursor && w'.seen == w.seen
    && w'.invoked == w.invoked && w'.terminal == w.terminal
    && w'.s.high == w.s.high && w'.s.begun == w.s.begun && w'.s.blind == w.s.blind
    && w'.s.scanned == w.s.scanned && w'.s.latest == w.s.latest
    && Front(w') == Front(w) && Floor(w') == Floor(w)
  }

  /** The fields a retirement changes. */
  ghost predicate RetiresGroup(w: World, w': World, lane: LaneId, g: Pending) {
    && Popped(w.s, w'.s, lane, g) && w'.s.inflight == w.s.inflight - {g.lo}
    && w'.handed == w.handed - {lane} && w'.retired == w.retired[g.hi := g.lo]
    && w'.owing <= w.owing + {(lane, g.hi)}
  }

  lemma RetiresFields(w: World, w': World, lane: LaneId, g: Pending)
    requires Retires(w, w', lane, g)
    ensures RetiresBeside(w, w') && RetiresGroup(w, w', lane, g)
  {
    hide Popped;
  }

  lemma RetireQueuesKeep(log: Log, w: World, w': World, lane: LaneId, g: Pending)
    requires RetiresBeside(w, w') && RetiresGroup(w, w', lane, g) && Sound(w.s) && Holds(w.s, lane, g)
    requires g.hi in w.terminal
    requires Ordered(log, w) && Owned(w) && Answered(log, w) && Ranged(w) && Apart(log, w) && Inflight(w)
    ensures Ordered(log, w') && Owned(w') && Answered(log, w') && Ranged(w') && Apart(log, w') && Inflight(w')
  {
    hide Ordered, Owned, Answered, Ranged, Apart, Inflight, Popped, Sound, Front, Floor, Holds;
    RetireQueues(log, w, w', lane, g);
    RetireOwners(log, w, w', lane, g);
  }

  lemma RetireRestKeep(log: Log, w: World, w': World, lane: LaneId, g: Pending)
    requires RetiresBeside(w, w') && RetiresGroup(w, w', lane, g) && Sound(w.s) && Holds(w.s, lane, g)
    requires lane in w.s.queues && w.s.queues[lane] != [] && w.s.queues[lane][0] == g && lane in w.handed
    requires OnArm(log, g.hi, lane, g.arm)
    requires Open(log, w) && Frozen(w) && Ascending(log, w) && Marked(w) && NothingLost(log, w)
      && NothingAbandoned(log, w)
    requires Unfolded(log, w) && Guarded(log, w) && Seeded(w) && ReadThrough(log, w)
    ensures Open(log, w') && Frozen(w') && Ascending(log, w') && Marked(w') && NothingLost(log, w')
      && NothingAbandoned(log, w')
    ensures Unfolded(log, w') && Guarded(log, w') && Seeded(w') && ReadThrough(log, w')
  {
    assert Increasing(w.s.queues[lane]);
    hide Open, Frozen, Ascending, Marked, NothingLost, NothingAbandoned, Unfolded, Guarded, Seeded, ReadThrough,
      Popped, Sound, Front, Floor, Holds, OnArm, Increasing;
    RetireOrder(log, w, w', lane, g);
    RetireWork(log, w, w', lane, g);
    RetireMarked(w, w', g);
    KeepsGuards(log, w, w');
    KeepsRows(log, w, w');
  }

  /** What a lane's head is when its work comes back done. */
  lemma RetiredHead(log: Log, w: World, lane: LaneId)
    requires Ordered(log, w) && Owned(w) && Ranged(w) && Inflight(w) && Marked(w) && Frozen(w) && Ascending(log, w)
    requires ReadThrough(log, w) && lane in w.handed && w.handed[lane].position in w.terminal
    ensures Sound(w.s) && lane in w.s.queues && w.s.queues[lane] != []
    ensures
      var g := w.s.queues[lane][0];
      && Holds(w.s, lane, g) && g.hi in w.terminal && OnArm(log, g.hi, lane, g.arm)
      && RetiresBeside(w, Next(log, w, Retire(lane))) && RetiresGroup(w, Next(log, w, Retire(lane)), lane, g)
  {
    OutIsNew(log, w, lane);
    hide Owned, Ranged, Inflight, Marked, Ascending, ReadThrough;
    OrderedSound(log, w);
    RetiresHead(log, w, lane);
    hide Ordered, Frozen, Next, Retires, Popped, Sound, RetiresBeside, RetiresGroup;
    RetiresFields(w, Next(log, w, Retire(lane)), lane, w.s.queues[lane][0]);
  }

  lemma RetireKeeps(log: Log, w: World, lane: LaneId)
    requires Inv(log, w) && lane in w.handed && w.handed[lane].position in w.terminal
    ensures Inv(log, Next(log, w, Retire(lane)))
  {
    hide Ordered, Owned, Answered, Ranged, Apart, Inflight, Open, Unfolded, Guarded, Seeded, ReadThrough, Marked,
      Frozen, Ascending, NothingLost, NothingAbandoned, Next, RetiresGroup, Sound, Holds, OnArm;
    RetiredHead(log, w, lane);
    var w' := Next(log, w, Retire(lane));
    var g := w.s.queues[lane][0];
    RetireQueuesKeep(log, w, w', lane, g);
    RetireRestKeep(log, w, w', lane, g);
  }

  lemma RetireMarked(w: World, w': World, g: Pending)
    requires w'.mark == w.mark && w'.base == w.base && w'.cursor == w.cursor && w'.seen == w.seen
    requires w'.s.scanned == w.s.scanned && w'.s.inflight == w.s.inflight - {g.lo} && Marked(w)
    ensures Marked(w')
  {
  }
}
