/** What every run keeps, however often it re-subscribes and whatever it forgets: enough that neither the
    mark nor a lane row ever passes over work that is lost. Nothing is asked of a position at or below
    the mark, where a subscription the mark has overtaken may deliver again. */
module LaneAlways {
  import opened Options
  import opened LaneSpec
  import opened LaneRuns
  import opened LaneInvariants
  import opened LaneSteps
  import opened LaneDurability

  // ----- the invariant, one fact at a time ---------------------------------

  /** A group's oldest position is of its lane and arm, in flight, and no other group's. */
  ghost predicate Low(log: Log, w: World) {
    && (forall l, g :: Holds(w.s, l, g) ==> OnArm(log, g.lo, l, g.arm) && g.lo in w.s.inflight)
    && (forall l, g, h :: Holds(w.s, l, g) && Holds(w.s, l, h) && g.lo == h.lo ==> g == h)
  }

  /** What is queued was read: by this subscription if the mark has passed it, and otherwise its lane
      still guards it. */
  ghost predicate Near(w: World) {
    forall l, g :: Holds(w.s, l, g) ==>
      g.hi <= Front(w) && if g.hi <= w.mark then g.hi <= w.cursor else AlreadyOffered(w.s, l, g.hi)
  }

  /** A high-water is what was read, or what an earlier process finished. */
  ghost predicate Topped(w: World) {
    && (forall l :: l in w.s.high ==> w.s.high[l] <= Front(w) || (l in w.baseRows && w.s.high[l] <= w.baseRows[l]))
    && (forall l :: l in w.baseRows ==> w.baseRows[l] <= Front(w) || (l in w.s.high && w.baseRows[l] <= w.s.high[l]))
  }

  ghost predicate Waits(log: Log, w: World, p: nat) {
    log(p).Some? && IsQueued(w.s, log(p).value.lane, p)
  }

  /** Everything read above the mark is done with, or waits in its lane as itself. */
  ghost predicate Accounted(log: Log, w: World) {
    forall p :: w.mark < p <= Front(w) && log(p).Some? ==> Discharged(log, w, p) || Waits(log, w, p)
  }

  /** Everything read above the mark is guarded, and everything read was admitted or had been finished. */
  ghost predicate Offered(log: Log, w: World) {
    && (forall p :: w.mark < p <= Front(w) && log(p).Some? ==> AlreadyOffered(w.s, log(p).value.lane, p))
    && (forall p :: w.base < p <= Front(w) && log(p).Some? ==> p in w.owner || HadRow(log, w.baseRows, p))
  }

  /** A row that is owed names nothing that is not done with. */
  ghost predicate OwesDone(log: Log, w: World) {
    forall owed, p: nat :: owed in w.owing && log(p).Some? && log(p).value.lane == owed.0 && p <= owed.1 ==>
      Discharged(log, w, p)
  }

  ghost predicate Bounds(w: World) {
    w.base <= w.mark <= w.s.scanned && Front(w) <= w.seen
  }

  ghost predicate Always(log: Log, w: World) {
    && Ordered(log, w) && Low(log, w) && Near(w) && Topped(w) && Accounted(log, w) && Offered(log, w)
    && OwesDone(log, w) && NothingLost(log, w) && Bounds(w) && Frozen(w)
  }

  /** Between steps the cursor has not run ahead of what was recorded as scanned. */
  ghost predicate AlwaysInv(log: Log, w: World) {
    Always(log, w) && w.cursor <= w.s.scanned
  }

  // ----- reading -----------------------------------------------------------

  /** A position that is admitted goes behind all its lane has queued. */
  lemma AdmittedLast(log: Log, w: World)
    requires Admits(log, w) && Near(w)
    ensures forall g :: Holds(w.s, log(w.cursor + 1).value.lane, g) ==> g.hi <= w.cursor
  {
  }

  /** The queues after an admission, and what the new group stands for. */
  ghost predicate Joined(log: Log, w: World, w': World, r: Route, p: nat, g0: Pending, open: Option<nat>) {
    && Touched(log, w, w', r, p) && p == w.cursor + 1 && log(p) == Some(r) && !AlreadyOffered(w.s, r.lane, p)
    && g0.hi == p && g0.arm == r.arm && open == OpenOf(w.s, r)
    && TookGroups(w, w', r.lane, g0, open)
    && (forall l :: l in w'.s.queues ==> Increasing(w'.s.queues[l]) && w'.s.queues[l] != [])
    && (forall g :: Holds(w.s, r.lane, g) ==> g.lo <= g.hi <= w.cursor)
    && (open.Some? ==> r.declared && Holds(w.s, r.lane, Pending(g0.lo, open.value, r.arm)))
    && (open.None? ==> g0.lo == p)
  }

  lemma AdmissionJoins(log: Log, w: World)
    requires Admits(log, w) && Ordered(log, w) && Near(w)
    ensures
      var r := log(w.cursor + 1).value;
      Joined(log, w, Deliver(log, w), r, w.cursor + 1, Queues(w.s, r, w.cursor + 1), OpenOf(w.s, r))
  {
    var p := w.cursor + 1;
    var r := log(p).value;
    AdmitsIs(log, w);
    hide *;
    AdmittedLast(log, w);
    OrderedSound(log, w);
    TouchedBy(log, w);
    AdmitHolds(w.s, r, p);
    JoinsOpen(log, w, r, p);
  }

  lemma AdmitsIs(log: Log, w: World)
    requires Admits(log, w)
    ensures log(w.cursor + 1).Some? && !AlreadyOffered(w.s, log(w.cursor + 1).value.lane, w.cursor + 1)
  {
  }

  lemma JoinsOpen(log: Log, w: World, r: Route, p: nat)
    requires Ordered(log, w) && p == w.cursor + 1 && log(p) == Some(r) && !AlreadyOffered(w.s, r.lane, p)
    requires Touched(log, w, Deliver(log, w), r, p)
    requires Deliver(log, w).s == Admit(w.s, r.lane, p, r.arm, r.declared).0
    requires forall g :: Holds(w.s, r.lane, g) ==> g.hi <= w.cursor
    requires
      var s' := Admit(w.s, r.lane, p, r.arm, r.declared).0;
      && (forall l :: l in s'.queues ==> Increasing(s'.queues[l]) && s'.queues[l] != [])
      && (forall l, g :: Holds(s', l, g) <==>
            (l == r.lane && g == Queues(w.s, r, p)) || (Holds(w.s, l, g) && Some(g.hi) != OpenOf(w.s, r)))
    ensures Joined(log, w, Deliver(log, w), r, p, Queues(w.s, r, p), OpenOf(w.s, r))
  {
    hide Deliver, LaneSpec.Admit, Increasing, Touched;
    var at := Superseded(w.s, r.lane, r.arm, r.declared);
    if at.Some? { assert Holds(w.s, r.lane, w.s.queues[r.lane][at.value]); }
  }

  lemma JoinedOrdered(log: Log, w: World, w': World, r: Route, p: nat, g0: Pending, open: Option<nat>)
    requires Joined(log, w, w', r, p, g0, open) && Ordered(log, w) && Low(log, w)
    ensures Ordered(log, w') && Low(log, w')
  {
    assert OnArm(log, p, r.lane, r.arm);
    if open.Some? { assert Holds(w.s, r.lane, Pending(g0.lo, open.value, r.arm)); }
  }

  lemma JoinedNear(log: Log, w: World, w': World, r: Route, p: nat, g0: Pending, open: Option<nat>)
    requires Joined(log, w, w', r, p, g0, open) && Near(w) && Topped(w) && Bounds(w)
    ensures Near(w') && Topped(w') && Bounds(w')
  {
  }

  /** What the open group ran for is made redundant by what it folds into. */
  lemma FoldedAway(log: Log, w: World, w': World, r: Route, p: nat, g0: Pending, open: Option<nat>)
    requires WellRouted(log) && Joined(log, w, w', r, p, g0, open) && Ordered(log, w) && open.Some?
    ensures Discharged(log, w', open.value)
  {
    assert Holds(w.s, r.lane, Pending(g0.lo, open.value, r.arm));
    assert OnArm(log, open.value, r.lane, r.arm) && SameArm(log, open.value, p);
  }

  lemma DischargedStill(log: Log, w: World, w': World)
    requires w.terminal <= w'.terminal && w.seen <= w'.seen
    ensures forall p: nat :: Discharged(log, w, p) ==> Discharged(log, w', p)
  {
  }

  lemma JoinedAccounted(log: Log, w: World, w': World, r: Route, p: nat, g0: Pending, open: Option<nat>)
    requires WellRouted(log) && Joined(log, w, w', r, p, g0, open) && Ordered(log, w) && Accounted(log, w) && Bounds(w)
    ensures Accounted(log, w')
  {
    DischargedStill(log, w, w');
    if open.Some? { FoldedAway(log, w, w', r, p, g0, open); }
    JoinedWaits(log, w, w', r, p, g0, open);
    assert Front(w') <= Max(Front(w), p);
    hide Discharged, Waits, Joined, Front, Ordered, WellRouted;
  }

  lemma JoinedOffered(log: Log, w: World, w': World, r: Route, p: nat, g0: Pending, open: Option<nat>)
    requires Joined(log, w, w', r, p, g0, open) && Offered(log, w) && Bounds(w)
    ensures Offered(log, w')
  {
    hide TookGroups, HadRow;
  }

  lemma JoinedWaits(log: Log, w: World, w': World, r: Route, p: nat, g0: Pending, open: Option<nat>)
    requires Joined(log, w, w', r, p, g0, open)
    ensures Waits(log, w', p) && forall q: nat :: Waits(log, w, q) ==> Waits(log, w', q) || Some(q) == open
  {
    assert Holds(w'.s, r.lane, g0);
    forall q: nat | Waits(log, w, q) ensures Waits(log, w', q) || Some(q) == open {
      var g :| Holds(w.s, log(q).value.lane, g) && g.hi == q;
      assert Holds(w'.s, log(q).value.lane, g) || Some(q) == open;
    }
  }

  lemma JoinedFrozen(log: Log, w: World)
    requires Admits(log, w) && Frozen(w) && Near(w) && Ordered(log, w)
    ensures Frozen(Deliver(log, w))
  {
    AdmittedLast(log, w);
    TouchedBy(log, w);
    hide Deliver, LaneSpec.Admit, Near;
    var r := log(w.cursor + 1).value;
    forall l | l in w.handed
      ensures var q := Deliver(log, w).s.queues; l in q && q[l] != [] && q[l][0] == w.s.queues[l][0]
      ensures var latest := Deliver(log, w).s.latest;
        !((l, w.s.queues[l][0].arm) in latest && latest[(l, w.s.queues[l][0].arm)] == w.s.queues[l][0].hi)
    {
      assert Holds(w.s, l, w.s.queues[l][0]);
      HeadStays(w.s, r, w.cursor + 1, l);
      if l != r.lane { OtherHeadStays(w.s, r, w.cursor + 1, l); }
    }
  }

  lemma OtherHeadStays(s: Lanes, r: Route, p: nat, l: LaneId)
    requires !AlreadyOffered(s, r.lane, p) && l != r.lane
    ensures
      var s' := Admit(s, r.lane, p, r.arm, r.declared).0;
      forall arm: nat :: (l, arm) in s'.latest ==> (l, arm) in s.latest && s'.latest[(l, arm)] == s.latest[(l, arm)]
  {
  }

  /** What the rows promise survives reading on. */
  lemma ReadingRows(log: Log, w: World, w': World)
    requires NothingLost(log, w) && OwesDone(log, w) && w.seen <= w'.seen && w'.terminal == w.terminal
    requires w'.mark == w.mark && w'.table == w.table && w'.base == w.base && w'.baseRows == w.baseRows
      && w'.owing == w.owing
    ensures NothingLost(log, w') && OwesDone(log, w')
  {
    DischargedStill(log, w, w');
    hide Discharged;
  }

  lemma AdmitAlways(log: Log, w: World)
    requires WellRouted(log) && Always(log, w) && Admits(log, w)
    ensures Always(log, Deliver(log, w))
  {
    hide *;
    AdmitsIs(log, w);
    var r := log(w.cursor + 1).value;
    var w', p, g0, open := Deliver(log, w), w.cursor + 1, Queues(w.s, r, w.cursor + 1), OpenOf(w.s, r);
    Parts(log, w);
    AdmissionJoins(log, w);
    JoinedFrozen(log, w);
    JoinedOrdered(log, w, w', r, p, g0, open);
    JoinedNear(log, w, w', r, p, g0, open);
    JoinedAccounted(log, w, w', r, p, g0, open);
    JoinedOffered(log, w, w', r, p, g0, open);
    JoinedBeside(log, w, w', r, p, g0, open);
    ReadingRows(log, w, w');
    Whole(log, w');
  }

  lemma Parts(log: Log, w: World)
    requires Always(log, w)
    ensures Ordered(log, w) && Low(log, w) && Near(w) && Topped(w) && Accounted(log, w) && Offered(log, w)
    ensures OwesDone(log, w) && NothingLost(log, w) && Bounds(w) && Frozen(w)
  {
  }

  lemma Whole(log: Log, w: World)
    requires Ordered(log, w) && Low(log, w) && Near(w) && Topped(w) && Accounted(log, w) && Offered(log, w)
    requires OwesDone(log, w) && NothingLost(log, w) && Bounds(w) && Frozen(w)
    ensures Always(log, w)
  {
  }

  lemma JoinedBeside(log: Log, w: World, w': World, r: Route, p: nat, g0: Pending, open: Option<nat>)
    requires Joined(log, w, w', r, p, g0, open)
    ensures w.seen <= w'.seen && w'.terminal == w.terminal && w'.mark == w.mark && w'.table == w.table
    ensures w'.base == w.base && w'.baseRows == w.baseRows && w'.owing == w.owing
  {
  }

  lemma SkipAlways(log: Log, w: World)
    requires Always(log, w) && !Admits(log, w)
    ensures Always(log, Deliver(log, w))
  {
    var w' := Deliver(log, w);
    assert w' == w.(cursor := w.cursor + 1, seen := Max(w.seen, w.cursor + 1));
    SkipNear(log, w, w');
    SkipAccounted(log, w, w');
    SkipOffered(log, w, w');
    ReadingRows(log, w, w');
    hide Near, Topped, Accounted, Offered, OwesDone, NothingLost, Bounds, Discharged;
  }

  lemma SkipNear(log: Log, w: World, w': World)
    requires w' == w.(cursor := w.cursor + 1, seen := Max(w.seen, w.cursor + 1)) && Near(w) && Topped(w) && Bounds(w)
    ensures Near(w') && Topped(w') && Bounds(w')
  {
  }

  lemma SkipAccounted(log: Log, w: World, w': World)
    requires w' == w.(cursor := w.cursor + 1, seen := Max(w.seen, w.cursor + 1)) && !Admits(log, w)
    requires Accounted(log, w) && Topped(w) && NothingLost(log, w) && Bounds(w)
    ensures Accounted(log, w')
  {
    DischargedStill(log, w, w');
    var p := w.cursor + 1;
    if p > Front(w) && log(p).Some? {
      assert HadRow(log, w.baseRows, p) && Discharged(log, w, p);
    }
    hide Discharged, NothingLost;
    forall q: nat ensures Waits(log, w', q) <==> Waits(log, w, q) {}
  }

  lemma SkipOffered(log: Log, w: World, w': World)
    requires w' == w.(cursor := w.cursor + 1, seen := Max(w.seen, w.cursor + 1)) && !Admits(log, w)
    requires Offered(log, w) && Topped(w)
    ensures Offered(log, w')
  {
  }

  lemma DeliverAlways(log: Log, w: World)
    requires WellRouted(log) && Always(log, w)
    ensures Always(log, Deliver(log, w))
  {
    hide *;
    if Admits(log, w) { AdmitAlways(log, w); } else { SkipAlways(log, w); }
  }

  lemma {:induction false} DeliverToAlways(log: Log, w: World, to: nat)
    requires WellRouted(log) && Always(log, w)
    ensures Always(log, DeliverTo(log, w, to)) && DeliverTo(log, w, to).cursor == Max(w.cursor, to)
    decreases if w.cursor < to then to - w.cursor else 0
  {
    hide Always, WellRouted;
    if w.cursor < to {
      DeliverAlways(log, w);
      DeliverToAlways(log, Deliver(log, w), to);
    }
  }

  // ----- what a step keeps by leaving its fields alone ----------------------

  /** The same queues and marks, and no more forgotten. */
  ghost predicate SameReading(w: World, w': World) {
    && w'.s.queues == w.s.queues && w'.s.inflight == w.s.inflight && w'.s.high == w.s.high && w'.mark == w.mark
    && w'.base == w.base && w'.baseRows == w.baseRows && w'.owner == w.owner && w'.seen == w.seen
    && w'.s.scanned >= w.s.scanned && w.terminal <= w'.terminal && Front(w') == Front(w)
  }

  lemma SameHolds(w: World, w': World)
    requires w'.s.queues == w.s.queues
    ensures forall l, g :: Holds(w'.s, l, g) <==> Holds(w.s, l, g)
    ensures forall l, p: nat :: IsQueued(w'.s, l, p) <==> IsQueued(w.s, l, p)
  {
    forall l, g ensures Holds(w'.s, l, g) <==> Holds(w.s, l, g) {}
    forall l, p: nat ensures IsQueued(w'.s, l, p) <==> IsQueued(w.s, l, p) {}
  }

  lemma KeepsReading(log: Log, w: World, w': World)
    requires SameReading(w, w') && (w'.cursor == w.cursor || w'.cursor == w.mark)
    requires Ordered(log, w) && Low(log, w) && Near(w) && Topped(w) && Accounted(log, w) && Offered(log, w) && Bounds(w)
    ensures Ordered(log, w') && Low(log, w') && Near(w') && Topped(w') && Accounted(log, w') && Offered(log, w')
      && Bounds(w')
  {
    SameHolds(w, w');
    DischargedStill(log, w, w');
    hide Discharged, Holds, IsQueued, Front;
    forall p: nat | Waits(log, w, p) ensures Waits(log, w', p) {}
  }

  /** Rows, owed rows and the mark where they were. */
  lemma KeepsPromises(log: Log, w: World, w': World)
    requires w'.mark == w.mark && w'.base == w.base && w'.baseRows == w.baseRows && w'.owing <= w.owing
    requires w.seen <= w'.seen && w.terminal <= w'.terminal
    requires forall l :: l in w'.table ==> l in w.table && w'.table[l] == w.table[l]
    requires NothingLost(log, w) && OwesDone(log, w)
    ensures NothingLost(log, w') && OwesDone(log, w')
  {
    DischargedStill(log, w, w');
    hide Discharged;
  }

  lemma KeepsAlways(log: Log, w: World, w': World)
    requires AlwaysInv(log, w) && SameReading(w, w') && (w'.cursor == w.cursor || w'.cursor == w.mark)
    requires w'.owing <= w.owing && Frozen(w')
    requires forall l :: l in w'.table ==> l in w.table && w'.table[l] == w.table[l]
    ensures AlwaysInv(log, w')
  {
    assert w'.cursor <= w'.s.scanned by { assert Bounds(w); }
    hide Ordered, Low, Near, Topped, Accounted, Offered, OwesDone, NothingLost, Bounds, Frozen, SameReading;
    assert SameReading(w, w');
    KeepsReading(log, w, w');
    KeepsPromises(log, w, w') by { SameMarks(w, w'); }
  }

  lemma SameMarks(w: World, w': World)
    requires SameReading(w, w')
    ensures w'.mark == w.mark && w'.base == w.base && w'.baseRows == w.baseRows && w.seen <= w'.seen
      && w.terminal <= w'.terminal
  {
  }

  // ----- steps that touch neither queues nor rows ---------------------------

  predicate Quiet(step: Step) {
    || step.Resubscribe? || step.Take? || step.Begin? || step.Finish? || step.GiveBack?
    || step.Park? || step.PromoteDue? || step.PromoteSkips? || step.SweepTo?
  }

  /** The same moment, but for the cursor and what promises less. */
  ghost predicate Calm(w: World, w': World) {
    && SameReading(w, w') && (w'.cursor == w.cursor || w'.cursor == w.mark) && w'.owing <= w.owing && Frozen(w')
    && forall l :: l in w'.table ==> l in w.table && w'.table[l] == w.table[l]
  }

  lemma PlacesCalm(w: World, s: Lanes)
    requires s == w.s.(place := s.place, deferred := s.deferred, skipPromoted := s.skipPromoted) && Frozen(w)
    ensures Calm(w, w.(s := s))
  {
  }

  lemma RecordsCalm(log: Log, w: World, step: Step)
    requires step.Resubscribe? || step.Begin? || step.Finish? || step.SweepTo?
    requires Bounds(w) && Frozen(w) && w.cursor <= w.s.scanned
    ensures Calm(w, Next(log, w, step))
  {
    hide DeliverTo, Complete, Wake, Due, Wanted, Skips;
  }

  lemma MovesPlaces(log: Log, w: World, step: Step)
    requires Quiet(step) && !step.Resubscribe? && !step.Begin? && !step.Finish? && !step.SweepTo?
    ensures
      var s := Next(log, w, step).s;
      && Next(log, w, step) == w.(s := s)
      && s == w.s.(place := s.place, deferred := s.deferred, skipPromoted := s.skipPromoted)
  {
    if step.PromoteDue? {
      WakesPlaces(w.s, Due(w.s, step.now));
    } else if step.PromoteSkips? {
      WakesPlaces(w.s, Wanted(w.s, step.wanted));
    }
    hide DeliverTo, Complete, Wake, Skips, Due, Wanted;
  }

  lemma WakesPlaces(s: Lanes, due: set<(nat, LaneId)>)
    ensures Wake(s, due) == s.(place := Wake(s, due).place, deferred := Wake(s, due).deferred)
  {
  }

  lemma QuietCalm(log: Log, w: World, step: Step)
    requires Quiet(step) && Bounds(w) && Frozen(w) && w.cursor <= w.s.scanned
    ensures Calm(w, Next(log, w, step))
  {
    hide *;
    if step.Resubscribe? || step.Begin? || step.Finish? || step.SweepTo? {
      RecordsCalm(log, w, step);
    } else {
      MovesPlaces(log, w, step);
      PlacesCalm(w, Next(log, w, step).s);
    }
  }

  lemma QuietKeeps(log: Log, w: World, step: Step)
    requires AlwaysInv(log, w) && Quiet(step)
    ensures AlwaysInv(log, Next(log, w, step))
  {
    QuietCalm(log, w, step);
    hide AlwaysInv, SameReading, Frozen, Next, Quiet;
    KeepsAlways(log, w, Next(log, w, step));
  }

  lemma HeadFrozen(w: World, lane: LaneId)
    requires Frozen(w)
    ensures Frozen(HeadTaken(w, lane))
  {
  }

  lemma TakeHeadAlways(log: Log, w: World, lane: LaneId)
    requires AlwaysInv(log, w)
    ensures AlwaysInv(log, Next(log, w, TakeHead(lane)))
  {
    var w' := HeadTaken(w, lane);
    assert Next(log, w, TakeHead(lane)) == w';
    hide Ordered, Low, Near, Topped, Accounted, Offered, OwesDone, NothingLost, Bounds, Next;
    HeadFrozen(w, lane);
    assert SameReading(w, w');
    hide AlwaysInv, SameReading, Frozen;
    KeepsAlways(log, w, w');
  }

  lemma ReadAlways(log: Log, w: World, to: nat)
    requires WellRouted(log) && AlwaysInv(log, w) && w.cursor <= to
    ensures AlwaysInv(log, Next(log, w, Read(to)))
  {
    DeliverToAlways(log, w, to);
    var read := DeliverTo(log, w, to);
    var w' := Next(log, w, Read(to));
    assert w' == read.(s := SetScanned(read.s, to));
    hide Next, DeliverTo;
    assert SameReading(read, w') && Frozen(w');
    hide SameReading, Frozen;
    KeepsReading(log, read, w');
    KeepsPromises(log, read, w');
  }

  // ----- publishing, forgetting, restarting --------------------------------

  /** The mark passes nothing that still waits. */
  lemma PassesDone(log: Log, w: World, to: nat, p: nat)
    requires Ordered(log, w) && Low(log, w) && Accounted(log, w) && WellRouted(log) && log(p).Some?
    requires w.mark < p <= to <= LowWater(w.s) && p <= Front(w)
    ensures Discharged(log, w, p)
  {
    MarkBelow(w.s);
    hide LowWater, Discharged;
    forall l, g | Holds(w.s, l, g) ensures to < g.lo <= g.hi {
      assert OnArm(log, g.lo, l, g.arm);
    }
  }

  lemma PublishAlways(log: Log, w: World, to: nat)
    requires WellRouted(log) && AlwaysInv(log, w) && w.mark <= to <= LowWater(w.s)
    ensures AlwaysInv(log, Next(log, w, Publish(to)))
  {
    var w' := w.(mark := to);
    assert Next(log, w, Publish(to)) == w';
    MarkBelow(w.s);
    hide Next;
    forall p: nat | w.mark < p <= to && log(p).Some? ensures Discharged(log, w, p) { PassesDone(log, w, to, p); }
    PublishNear(log, w, to);
    hide LowWater, WellRouted, Ordered, Low, Near, Topped, Accounted, Offered;
    PublishPromises(log, w, w');
  }

  lemma PublishNear(log: Log, w: World, to: nat)
    requires WellRouted(log) && Always(log, w) && w.mark <= to <= LowWater(w.s)
    ensures
      var w' := w.(mark := to);
      && Ordered(log, w') && Low(log, w') && Near(w') && Topped(w') && Accounted(log, w') && Offered(log, w')
      && Bounds(w')
  {
    var w' := w.(mark := to);
    MarkBelow(w.s);
    hide LowWater;
    SameHolds(w, w');
    forall l, g | Holds(w.s, l, g) ensures to < g.lo <= g.hi {
      assert OnArm(log, g.lo, l, g.arm) && g.lo != 0;
    }
    PublishAccounted(log, w, w');
    hide Discharged, Accounted, OwesDone, NothingLost;
  }

  lemma PublishAccounted(log: Log, w: World, w': World)
    requires w' == w.(mark := w'.mark) && w.mark <= w'.mark && Accounted(log, w)
    ensures Accounted(log, w')
  {
    DischargedStill(log, w, w');
    hide Discharged;
    forall p: nat | Waits(log, w, p) ensures Waits(log, w', p) {}
  }

  lemma PublishPromises(log: Log, w: World, w': World)
    requires w' == w.(mark := w'.mark) && NothingLost(log, w) && OwesDone(log, w)
    requires forall p: nat :: w.mark < p <= w'.mark && log(p).Some? ==> Discharged(log, w, p)
    ensures NothingLost(log, w') && OwesDone(log, w')
  {
    DischargedStill(log, w, w');
    hide Discharged;
  }

  /** Forgetting up to the mark loses no guard that anything above the mark needs. */
  lemma ForgetAlways(log: Log, w: World, to: nat)
    requires AlwaysInv(log, w) && to <= w.mark
    ensures AlwaysInv(log, Next(log, w, ForgetTo(to)))
  {
    var w' := w.(s := Forget(w.s, to));
    assert Next(log, w, ForgetTo(to)) == w';
    hide Next;
    SameHolds(w, w');
    assert Frozen(w');
    ForgetAccounted(log, w, to);
    assert Offered(log, w') by { hide Accounted, NothingLost, OwesDone; }
    hide Discharged, Frozen, Accounted, Offered;
    KeepsPromises(log, w, w');
  }

  lemma ForgetAccounted(log: Log, w: World, to: nat)
    requires Accounted(log, w) && to <= w.mark
    ensures Accounted(log, w.(s := Forget(w.s, to)))
  {
    var w' := w.(s := Forget(w.s, to));
    DischargedStill(log, w, w');
    hide Discharged;
    forall p: nat | Waits(log, w, p) ensures Waits(log, w', p) {}
  }

  lemma CrashAlways(log: Log, w: World, begun: set<nat>, blind: bool)
    requires AlwaysInv(log, w)
    ensures AlwaysInv(log, Next(log, w, Crash(begun, blind)))
  {
    var w' := Resumed(w, begun, blind);
    assert Next(log, w, Crash(begun, blind)) == w';
    hide Next;
    DischargedStill(log, w, w');
    hide Discharged;
  }

  lemma BootAlways(log: Log)
    requires WellRouted(log)
    ensures AlwaysInv(log, Boot())
  {
  }

  // ----- retiring and saving rows ------------------------------------------

  /** What a lane has out is the group at its head. */
  lemma OutIsHead(log: Log, w: World, lane: LaneId)
    requires Ordered(log, w) && Frozen(w) && lane in w.handed
    ensures lane in w.s.queues && w.s.queues[lane] != [] && w.handed[lane] == WorkOf(w.s.queues[lane][0])
    ensures Holds(w.s, lane, w.s.queues[lane][0]) && Sound(w.s) && Increasing(w.s.queues[lane])
    ensures
      var g := w.s.queues[lane][0];
      OnArm(log, g.hi, lane, g.arm) && Retires(w, Next(log, w, Retire(lane)), lane, g)
  {
    assert Holds(w.s, lane, w.s.queues[lane][0]);
    OrderedSound(log, w);
    RetiresHead(log, w, lane);
    hide Next, Retires, Popped;
  }

  lemma RetireQueued(log: Log, w: World, w': World, lane: LaneId, g: Pending)
    requires Ordered(log, w) && Low(log, w) && Near(w) && Topped(w) && Bounds(w)
    requires RetiresBeside(w, w') && RetiresGroup(w, w', lane, g) && Holds(w.s, lane, g)
    ensures Ordered(log, w') && Low(log, w') && Near(w') && Topped(w') && Bounds(w')
  {
    forall l, h | Holds(w'.s, l, h) ensures Holds(w.s, l, h) && h.lo != g.lo {
      assert OnArm(log, h.lo, l, h.arm) && OnArm(log, g.lo, lane, g.arm);
    }
  }

  lemma RetireAccounted(log: Log, w: World, w': World, lane: LaneId, g: Pending)
    requires Accounted(log, w) && RetiresBeside(w, w') && RetiresGroup(w, w', lane, g) && g.hi in w.terminal
    ensures Accounted(log, w')
  {
    DischargedStill(log, w, w');
    assert Discharged(log, w', g.hi);
    hide Discharged, Front, Floor;
    forall q: nat | Waits(log, w, q) ensures Waits(log, w', q) || q == g.hi {
      var h :| Holds(w.s, log(q).value.lane, h) && h.hi == q;
      assert Holds(w'.s, log(q).value.lane, h) || h == g;
    }
  }

  lemma RetireOffered(log: Log, w: World, w': World)
    requires Offered(log, w) && RetiresBeside(w, w')
    ensures Offered(log, w')
  {
    hide Front, Floor;
  }

  /** Of its lane, nothing at or below the head's position still waits once the head has ended. */
  lemma BelowHead(log: Log, w: World, lane: LaneId, p: nat)
    requires Near(w) && Accounted(log, w) && NothingLost(log, w) && Ordered(log, w)
    requires lane in w.s.queues && w.s.queues[lane] != [] && w.s.queues[lane][0].hi in w.terminal
    requires Increasing(w.s.queues[lane]) && log(p).Some? && log(p).value.lane == lane && p <= w.s.queues[lane][0].hi
    ensures Discharged(log, w, p)
  {
    var g := w.s.queues[lane][0];
    assert Holds(w.s, lane, g);
    forall h | Holds(w.s, lane, h) ensures g.hi <= h.hi {
      var i :| 0 <= i < |w.s.queues[lane]| && w.s.queues[lane][i] == h;
      assert i == 0 || g.hi < h.hi;
    }
  }

  lemma RetireOwes(log: Log, w: World, w': World, lane: LaneId, g: Pending)
    requires NothingLost(log, w) && OwesDone(log, w) && RetiresBeside(w, w') && RetiresGroup(w, w', lane, g)
    requires forall p: nat :: log(p).Some? && log(p).value.lane == lane && p <= g.hi ==> Discharged(log, w, p)
    ensures NothingLost(log, w') && OwesDone(log, w')
  {
    DischargedStill(log, w, w');
    hide Discharged;
  }

  lemma RetireFrozen(w: World, w': World, lane: LaneId, g: Pending)
    requires Frozen(w) && RetiresBeside(w, w') && RetiresGroup(w, w', lane, g)
    ensures Frozen(w')
  {
    hide Front, Floor;
  }

  lemma RetireAlways(log: Log, w: World, lane: LaneId)
    requires AlwaysInv(log, w) && lane in w.handed && w.handed[lane].position in w.terminal
    ensures AlwaysInv(log, Next(log, w, Retire(lane)))
  {
    var w' := Next(log, w, Retire(lane));
    hide Next, Retires, RetiresBeside, RetiresGroup;
    OutIsHead(log, w, lane);
    var g := w.s.queues[lane][0];
    RetiresFields(w, w', lane, g);
    hide Sound, Increasing, Holds, Ordered, Low, Near, Topped, Accounted, Offered, OwesDone, NothingLost, Bounds,
      Frozen, Discharged;
    forall p: nat | log(p).Some? && log(p).value.lane == lane && p <= g.hi ensures Discharged(log, w, p) {
      BelowHead(log, w, lane, p);
    }
    assert Offered(log, w') by { RetireOffered(log, w, w'); }
    RetireQueued(log, w, w', lane, g);
    RetireAccounted(log, w, w', lane, g);
    RetireOwes(log, w, w', lane, g);
    RetireFrozen(w, w', lane, g);
    RetireCursor(w, w');
  }

  lemma RetireCursor(w: World, w': World)
    requires RetiresBeside(w, w')
    ensures w'.cursor == w.cursor && w'.s.scanned == w.s.scanned
  {
  }

  lemma SaveAlways(log: Log, w: World, lane: LaneId, position: nat)
    requires AlwaysInv(log, w) && (lane, position) in w.owing
    ensures AlwaysInv(log, Next(log, w, SaveRow(lane, position)))
  {
    var w' := RowSaved(w, lane, position);
    assert Next(log, w, SaveRow(lane, position)) == w';
    hide Next;
    assert SameReading(w, w') && Frozen(w');
    SavePromises(log, w, lane, position);
    hide SameReading, Frozen, NothingLost, OwesDone;
    KeepsReading(log, w, w');
  }

  lemma SavePromises(log: Log, w: World, lane: LaneId, position: nat)
    requires NothingLost(log, w) && OwesDone(log, w) && (lane, position) in w.owing
    ensures NothingLost(log, RowSaved(w, lane, position)) && OwesDone(log, RowSaved(w, lane, position))
  {
    var w' := RowSaved(w, lane, position);
    DischargedStill(log, w, w');
    hide Discharged;
    forall p: nat | HadRow(log, w'.table, p) ensures Discharged(log, w', p) {
      if !HadRow(log, w.table, p) { assert log(p).value.lane == (lane, position).0 && p <= (lane, position).1; }
    }
  }

  // ----- every run ---------------------------------------------------------

  lemma StepAlways(log: Log, w: World, step: Step)
    requires WellRouted(log) && AlwaysInv(log, w) && Enabled(log, w, step)
    ensures AlwaysInv(log, Next(log, w, step))
  {
    hide AlwaysInv, LowWater;
    match step
    case Read(to) => ReadAlways(log, w, to);
    case TakeHead(lane) => TakeHeadAlways(log, w, lane);
    case Retire(lane) => RetireAlways(log, w, lane);
    case SaveRow(lane, position) => SaveAlways(log, w, lane, position);
    case Publish(to) => PublishAlways(log, w, to);
    case ForgetTo(to) => ForgetAlways(log, w, to);
    case Crash(begun, blind) => CrashAlways(log, w, begun, blind);
    case _ => QuietKeeps(log, w, step);
  }

  /** Every step of a run was enabled where it was taken. */
  ghost predicate EnabledRun(log: Log, w: World, run: seq<Step>)
    decreases |run|
  {
    run == [] || (Enabled(log, w, run[0]) && EnabledRun(log, Next(log, w, run[0]), run[1..]))
  }

  lemma {:induction false} RunAlways(log: Log, w: World, run: seq<Step>)
    requires WellRouted(log) && AlwaysInv(log, w) && EnabledRun(log, w, run)
    ensures AlwaysInv(log, After(log, w, run))
    decreases |run|
  {
    if run != [] {
      hide AlwaysInv, Enabled, Next;
      StepAlways(log, w, run[0]);
      RunAlways(log, Next(log, w, run[0]), run[1..]);
    }
  }
}
