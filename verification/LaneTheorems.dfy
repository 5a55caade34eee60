/** What the lane scheduler promises: over every run, over every run that forgets nothing folded away
    that may be delivered again, and over every run that keeps its guards. */
module LaneTheorems {
  import opened Options
  import opened LaneSpec
  import opened LaneRuns
  import opened LaneInvariants
  import opened LaneSteps
  import opened LaneDurability
  import opened LaneAlways
  import opened LaneTame

  // ----- the mark a per-position set would give ----------------------------

  /** The admitted positions whose invocation has not retired. */
  ghost function Outstanding(w: World): set<nat> {
    set p | p in w.owner && w.owner[p] !in w.retired
  }

  /** The mark, had every outstanding position been tracked on its own. */
  ghost function PositionMark(w: World): nat {
    if Outstanding(w) == {} then w.s.scanned
    else
      var oldest := Least(Outstanding(w));
      Min(if oldest == 0 then 0 else oldest - 1, w.s.scanned)
  }

  lemma InflightOutstanding(log: Log, w: World)
    requires Answered(log, w) && Ranged(w) && Inflight(w)
    ensures w.s.inflight.Keys <= Outstanding(w)
    ensures forall p :: p in Outstanding(w) ==> exists k :: k in w.s.inflight && k <= p
  {
    forall k | k in w.s.inflight ensures k in Outstanding(w) {
      var g :| Holds(w.s, w.s.inflight[k], g) && g.lo == k;
      assert IsRange(w, g.lo, g.hi);
    }
    forall p | p in Outstanding(w) ensures exists k :: k in w.s.inflight && k <= p {
      assert AnsweredFor(log, w, p);
      var g :| Holds(w.s, log(p).value.lane, g) && g.hi == w.owner[p];
      assert IsRange(w, g.lo, g.hi);
      assert g.lo in w.s.inflight;
    }
  }

  lemma SameLeast(w: World)
    requires w.s.inflight.Keys <= Outstanding(w)
    requires forall p :: p in Outstanding(w) ==> exists k :: k in w.s.inflight && k <= p
    ensures LowWater(w.s) == PositionMark(w)
  {
    hide Outstanding, Least;
    var positions := Outstanding(w);
    if positions != {} {
      var k :| k in w.s.inflight && k <= Least(positions);
      LeastOfFewer(w.s.inflight.Keys, positions, k);
    }
  }

  lemma LeastOfFewer(fewer: set<nat>, all: set<nat>, k: nat)
    requires fewer <= all && all != {} && k in fewer && k <= Least(all)
    ensures Least(fewer) == Least(all)
  {
    hide Least;
    assert Least(fewer) in all;
  }

  /** Tracking one entry a group loses nothing: the mark is the one a per-position set would give. */
  lemma MarkRefines(log: Log, w: World)
    requires Inv(log, w)
    ensures LowWater(w.s) == PositionMark(w)
  {
    hide LowWater, PositionMark;
    InflightOutstanding(log, w);
    hide Inv;
    SameLeast(w);
  }

  // ----- coverage ----------------------------------------------------------

  /** The invocation at `hi`, queued or finished, answers for `p`. */
  ghost predicate Covers(log: Log, w: World, hi: nat, p: nat) {
    && SameArm(log, p, hi)
    && ((exists g :: Holds(w.s, log(hi).value.lane, g) && g.hi == hi && g.lo <= p <= hi)
        || (hi in w.retired && w.retired[hi] <= p <= hi))
  }

  /** Every admitted position lies in exactly one range of its own lane and arm, and in a finished
      one if the mark has reached it. */
  lemma CoveredOnce(log: Log, w: World, p: nat)
    requires Inv(log, w) && p in w.owner
    ensures forall hi: nat :: Covers(log, w, hi, p) <==> hi == w.owner[p]
    ensures w.owner[p] in w.retired ==> !IsQueued(w.s, log(p).value.lane, w.owner[p])
    ensures p <= LowWater(w.s) ==> w.owner[p] in w.retired && w.owner[p] in w.terminal
  {
    hide LowWater, Ordered, Owned, Answered, Apart, Inflight, Open, Unfolded, Guarded, Seeded, ReadThrough, Marked,
      Frozen, Ascending, NothingLost, NothingAbandoned, Covers;
    CoveredByOwner(log, w, p);
    forall hi: nat | Covers(log, w, hi, p) ensures hi == w.owner[p] { CoveredByOne(log, w, hi, p); }
    if w.owner[p] !in w.retired { PassedIsDone(log, w, p); }
  }

  /** The mark stays below every position whose invocation has not retired. */
  lemma PassedIsDone(log: Log, w: World, p: nat)
    requires Answered(log, w) && Ranged(w) && Inflight(w) && Marked(w) && p in w.owner && w.owner[p] !in w.retired
    ensures LowWater(w.s) < p
  {
    MarkBelow(w.s);
    hide LowWater;
    InflightOutstanding(log, w);
    assert p in Outstanding(w);
  }

  lemma CoveredByOwner(log: Log, w: World, p: nat)
    requires Answered(log, w) && Ranged(w) && Owned(w) && p in w.owner
    ensures Covers(log, w, w.owner[p], p)
  {
    assert AnsweredFor(log, w, p);
    if w.owner[p] in w.retired {
      assert IsRange(w, w.retired[w.owner[p]], w.owner[p]);
    } else {
      var g :| Holds(w.s, log(p).value.lane, g) && g.hi == w.owner[p];
      assert IsRange(w, g.lo, g.hi);
    }
  }

  lemma CoveredByOne(log: Log, w: World, hi: nat, p: nat)
    requires Answered(log, w) && Ranged(w) && Apart(log, w) && Owned(w) && p in w.owner && Covers(log, w, hi, p)
    ensures hi == w.owner[p]
  {
    var lo: nat;
    if hi in w.retired && w.retired[hi] <= p <= hi {
      lo := w.retired[hi];
    } else {
      var g :| Holds(w.s, log(hi).value.lane, g) && g.hi == hi && g.lo <= p <= hi;
      lo := g.lo;
    }
    assert IsRange(w, lo, hi);
    assert AnsweredFor(log, w, lo);
    assert SameArm(log, lo, p);
  }

  // ----- the mark over a run -----------------------------------------------

  lemma LowWaterGrows(s: Lanes, s': Lanes)
    requires s.scanned <= s'.scanned
    requires forall k :: k in s'.inflight ==> k in s.inflight || s.scanned < k
    ensures LowWater(s) <= LowWater(s')
  {
    if s'.inflight.Keys != {} {
      var k := Least(s'.inflight.Keys);
      assert k in s'.inflight;
    }
  }

  ghost predicate ReadFrom(w: World, w': World) {
    && w'.base == w.base && w'.baseRows == w.baseRows && w'.retired == w.retired && w'.terminal == w.terminal
    && w'.invoked == w.invoked && w'.s.blind == w.s.blind && w'.s.scanned == w.s.scanned
    && w'.mark == w.mark && w'.handed == w.handed
  }

  /** What reading leaves alone. */
  lemma {:induction false} DeliverFrame(log: Log, w: World, to: nat)
    ensures
      var w' := DeliverTo(log, w, to);
      ReadFrom(w, w') && w'.seen <= Max(w.seen, to) && w'.cursor == Max(w.cursor, to)
    decreases if w.cursor < to then to - w.cursor else 0
  {
    if w.cursor < to {
      DeliveredFrom(log, w);
      hide Deliver;
      DeliverFrame(log, Deliver(log, w), to);
    }
  }

  lemma DeliveredFrom(log: Log, w: World)
    ensures ReadFrom(w, Deliver(log, w)) && Deliver(log, w).cursor == w.cursor + 1
    ensures Deliver(log, w).seen == Max(w.seen, w.cursor + 1)
  {
    hide Superseded, AlreadyOffered, LatestAfter, Reown, OpenOf;
  }

  lemma {:induction false} DeliveredInflight(log: Log, w: World, to: nat)
    requires WellRouted(log) && Inside(log, w)
    ensures DeliverTo(log, w, to).s.scanned == w.s.scanned
    ensures forall k :: k in DeliverTo(log, w, to).s.inflight ==> k in w.s.inflight || w.s.scanned < k
    decreases if w.cursor < to then to - w.cursor else 0
  {
    if w.cursor < to {
      DeliverInside(log, w);
      DeliverMarks(log, w);
      hide Inside, Deliver;
      DeliveredInflight(log, Deliver(log, w), to);
    }
  }

  lemma DeliverMarks(log: Log, w: World)
    requires Ordered(log, w) && Owned(w) && Ranged(w) && Guarded(log, w)
    ensures Deliver(log, w).s.scanned == w.s.scanned && Deliver(log, w).cursor == w.cursor + 1
    ensures forall k :: k in Deliver(log, w).s.inflight ==> k in w.s.inflight || w.s.scanned < k
  {
    if Admits(log, w) {
      Newest(log, w);
      TouchedBy(log, w);
    }
  }

  predicate Places(step: Step) {
    step.Take? || step.TakeHead? || step.GiveBack? || step.Park? || step.PromoteDue? || step.PromoteSkips?
  }

  predicate Records(step: Step) {
    step.Begin? || step.Finish? || step.SaveRow? || step.Publish? || step.ForgetTo? || step.SweepTo?
  }

  lemma PlacesInflight(log: Log, w: World, step: Step)
    requires Places(step)
    ensures Next(log, w, step).s.inflight == w.s.inflight && Next(log, w, step).s.scanned == w.s.scanned
  {
    if step.TakeHead? {
      assert Next(log, w, step) == HeadTaken(w, step.lane);
    } else {
      MovesPlaces(log, w, step);
    }
    hide Next;
  }

  lemma RecordsInflight(log: Log, w: World, step: Step)
    requires Records(step)
    ensures Next(log, w, step).s.inflight == w.s.inflight && Next(log, w, step).s.scanned == w.s.scanned
  {
    hide DeliverTo, Complete, Resumed;
  }

  /** What a step adds in flight is newer than anything scanned before it. */
  lemma StepInflight(log: Log, w: World, step: Step)
    requires WellRouted(log) && Inside(log, w) && !step.Crash?
    ensures w.s.scanned <= Next(log, w, step).s.scanned
    ensures forall k :: k in Next(log, w, step).s.inflight ==> k in w.s.inflight || w.s.scanned < k
  {
    hide Inside, DeliverTo, Complete, Resumed;
    if Places(step) {
      hide Next;
      PlacesInflight(log, w, step);
    } else if Records(step) {
      hide Next;
      RecordsInflight(log, w, step);
    } else if step.Read? {
      DeliveredInflight(log, w, step.to);
    } else if step.Retire? && step.lane in w.handed {
      CompleteInflight(w.s, step.lane, w.handed[step.lane].position);
    }
  }

  lemma CompleteInflight(s: Lanes, lane: LaneId, position: nat)
    ensures Complete(s, lane, position).scanned == s.scanned
    ensures Complete(s, lane, position).inflight.Keys <= s.inflight.Keys
  {
  }

  lemma StepMark(log: Log, w: World, step: Step)
    requires Enabled(log, w, step)
    ensures w.mark <= Next(log, w, step).mark
  {
    if step.Read? { DeliverFrame(log, w, step.to); }
    hide LowWater, DeliverTo;
  }

  lemma MarkIsLow(w: World)
    requires Marked(w)
    ensures w.mark <= LowWater(w.s)
  {
    hide Least;
  }

  lemma CrashMark(s: Lanes)
    requires s.inflight == map[]
    ensures LowWater(s) == s.scanned
  {
    assert s.inflight.Keys == {};
  }

  /** Within one process the mark never falls, whatever is read, re-read, forgotten or completed. */
  lemma MarkNeverFalls(log: Log, w: World, step: Step)
    requires WellRouted(log) && Inv(log, w) && Enabled(log, w, step)
    ensures w.mark <= Next(log, w, step).mark && w.mark <= LowWater(w.s)
    ensures !step.Crash? ==> LowWater(w.s) <= LowWater(Next(log, w, step).s)
    ensures step.Crash? ==> LowWater(Next(log, w, step).s) == w.mark
  {
    hide LowWater, Enabled, Ordered, Owned, Answered, Ranged, Apart, Inflight, Open, Unfolded, Guarded, Seeded,
      ReadThrough, Marked, Frozen, Ascending, NothingLost, NothingAbandoned;
    StepMark(log, w, step) by { hide Next; }
    MarkIsLow(w);
    if step.Crash? {
      CrashMark(Next(log, w, step).s);
    } else {
      hide Next;
      StepInflight(log, w, step);
      LowWaterGrows(w.s, Next(log, w, step).s);
    }
  }

  /** Over any run, restarts and re-subscriptions included, the published mark never falls. */
  lemma {:induction false} MarkOverRun(log: Log, w: World, run: seq<Step>)
    requires EnabledRun(log, w, run)
    ensures w.mark <= After(log, w, run).mark
    decreases |run|
  {
    if run != [] {
      hide Enabled, Next;
      StepMark(log, w, run[0]);
      MarkOverRun(log, Next(log, w, run[0]), run[1..]);
    }
  }

  /** While forgets keep their guards, nor does the low-water of one process. */
  lemma {:induction false} LowWaterOverRun(log: Log, w: World, run: seq<Step>)
    requires WellRouted(log) && Inv(log, w) && Allowed(log, w, run) && forall step :: step in run ==> !step.Crash?
    ensures LowWater(w.s) <= LowWater(After(log, w, run).s)
    decreases |run|
  {
    if run != [] {
      hide Inv, Enabled, Next, Safe, LowWater;
      assert run[0] in run && forall step :: step in run[1..] ==> step in run;
      MarkNeverFalls(log, w, run[0]);
      StepKeeps(log, w, run[0]);
      LowWaterOverRun(log, Next(log, w, run[0]), run[1..]);
    }
  }

  // ----- nothing twice, nothing skipped ------------------------------------

  /** A position is admitted at most once, never at or below the mark, and never once a row names it. */
  lemma AdmittedOnce(log: Log, w: World)
    requires WellRouted(log) && Inside(log, w) && Admits(log, w)
    ensures w.cursor + 1 !in w.owner && w.mark < w.cursor + 1 && !HadRow(log, w.baseRows, w.cursor + 1)
    ensures w.cursor + 1 in Deliver(log, w).owner
  {
    Newest(log, w);
    DeliverInside(log, w);
    TouchedBy(log, w);
    assert ReadThrough(log, Deliver(log, w));
  }

  /** Of what lies between where the process resumed and what it has read, everything it answers was
      admitted, but for what an earlier process finished. */
  lemma NothingSkipped(log: Log, w: World, p: nat)
    requires Inv(log, w) && w.base < p <= w.s.scanned && log(p).Some?
    ensures p in w.owner <==> !HadRow(log, w.baseRows, p)
    ensures p !in w.owner ==> Discharged(log, w, p)
  {
  }

  // ----- frozen groups and order -------------------------------------------

  ghost predicate LeavesOut(run: seq<Step>, lane: LaneId) {
    forall step :: step in run ==> !step.Crash? && step != Retire(lane)
  }

  /** Once a lane's head is handed out, every later head of that lane is the same work until it retires. */
  lemma {:induction false} FrozenHead(log: Log, w: World, run: seq<Step>, lane: LaneId)
    requires WellRouted(log) && AlwaysInv(log, w) && lane in w.handed && EnabledRun(log, w, run) && LeavesOut(run, lane)
    ensures
      var w' := After(log, w, run);
      lane in w'.handed && w'.handed[lane] == w.handed[lane] && Head(w'.s, lane).1 == Some(w.handed[lane])
    decreases |run|
  {
    if run == [] {
      assert Frozen(w);
    } else {
      assert run[0] in run && forall step :: step in run[1..] ==> step in run;
      StillHanded(log, w, run[0], lane);
      hide AlwaysInv, Enabled, Next, Head;
      StepAlways(log, w, run[0]);
      FrozenHead(log, Next(log, w, run[0]), run[1..], lane);
    }
  }

  lemma StillHanded(log: Log, w: World, step: Step, lane: LaneId)
    requires Frozen(w) && lane in w.handed && !step.Crash? && step != Retire(lane)
    ensures lane in Next(log, w, step).handed && Next(log, w, step).handed[lane] == w.handed[lane]
  {
    if step.Read? { DeliverFrame(log, w, step.to); }
    hide DeliverTo;
  }

  /** A lane starts strictly ascending positions, across restarts as far as its row reaches: what it has
      out and has not ended is newer than all it completed and than its row. */
  lemma CompletesInOrder(log: Log, w: World, lane: LaneId, earlier: nat)
    requires Tame(log, w) && lane in w.handed && w.handed[lane].position !in w.terminal && Ran(log, w, lane, earlier)
    ensures earlier < w.handed[lane].position
    ensures !HadRow(log, w.table, w.handed[lane].position)
  {
    HeadIsQueued(log, w, lane);
    assert Ranked(log, w);
    hide TameAt, Always, Ranked;
    assert Newer(log, w, lane, w.handed[lane].position);
  }

  lemma HeadIsQueued(log: Log, w: World, lane: LaneId)
    requires Frozen(w) && lane in w.handed
    ensures IsQueued(w.s, lane, w.handed[lane].position)
  {
    assert Holds(w.s, lane, w.s.queues[lane][0]);
  }

  /** While forgets keep their guards, a lane completes strictly ascending positions. */
  lemma RetiresInOrder(log: Log, w: World, lane: LaneId, earlier: nat)
    requires Inv(log, w) && lane in w.handed && Ran(log, w, lane, earlier)
    ensures earlier < w.handed[lane].position
    ensures !HadRow(log, w.table, w.handed[lane].position)
  {
    OutIsNew(log, w, lane);
    assert Holds(w.s, lane, w.s.queues[lane][0]);
  }

  /** What has begun, or does not collapse, or reached a blind dispatcher, runs itself and is in nobody else's range. */
  lemma NeverFoldedAway(log: Log, w: World, p: nat)
    requires Inv(log, w) && p in w.owner && (p in w.invoked || w.s.blind || !Collapses(log, p))
    ensures w.owner[p] == p && forall hi: nat :: Covers(log, w, hi, p) ==> hi == p
  {
    hide LowWater, Covers;
    CoveredOnce(log, w, p);
  }

  lemma OwedBelow(s: Lanes, h: nat)
    requires 0 < h <= s.scanned && h !in s.inflight
    ensures Owed(s, h) <==> LowWater(s) < h
  {
    hide Least;
    if Owed(s, h) {
      var k :| k in s.inflight && k < h;
      assert k in s.inflight.Keys;
    }
    if s.inflight.Keys != {} { assert Least(s.inflight.Keys) in s.inflight; }
  }

  /** A row is owed exactly when the mark stays below the position that ran. */
  lemma RowOwedExactly(log: Log, w: World, lane: LaneId)
    requires Inv(log, w) && lane in w.handed
    ensures
      var h := w.handed[lane].position;
      var s := Complete(w.s, lane, h);
      Owed(s, h) <==> LowWater(s) < h
  {
    hide Ordered, Owned, Answered, Ranged, Apart, Inflight, Open, Unfolded, Guarded, Seeded, ReadThrough, Marked,
      Frozen, Ascending, NothingLost, NothingAbandoned;
    RetiredIsScanned(log, w, lane);
    hide Owed, LowWater;
    OwedBelow(Complete(w.s, lane, w.handed[lane].position), w.handed[lane].position);
  }

  lemma RetiredIsScanned(log: Log, w: World, lane: LaneId)
    requires Ordered(log, w) && Owned(w) && Ranged(w) && Inflight(w) && Marked(w) && Frozen(w) && Ascending(log, w)
    requires ReadThrough(log, w) && lane in w.handed && w.cursor <= w.s.scanned
    ensures
      var h := w.handed[lane].position;
      var s := Complete(w.s, lane, h);
      0 < h <= w.s.scanned && s.scanned == w.s.scanned && h !in s.inflight
  {
    OutIsNew(log, w, lane);
    var h := w.handed[lane].position;
    hide Marked, Frozen, Ascending, ReadThrough;
    if h in w.s.inflight {
      var g :| Holds(w.s, w.s.inflight[h], g) && g.lo == h;
      assert IsRange(w, g.lo, g.hi);
      OrderedSound(log, w);
      assert Holds(w.s, lane, w.s.queues[lane][0]);
    }
  }

  // ----- crash and restart -------------------------------------------------

  /** Nothing of its arm follows `p` in the log up to `to`. */
  ghost predicate NewestOfArm(log: Log, p: nat, to: nat) {
    log(p).Some? && p <= to && forall q: nat :: p < q <= to ==> !SameArm(log, p, q)
  }

  /** Whatever rows and mark a dying process left, the newest position of every lane and arm has
      ended or still stands above the mark and above its lane's row. */
  lemma NewestSurvives(log: Log, w: World, p: nat, to: nat)
    requires AlwaysInv(log, w) && w.seen <= to && NewestOfArm(log, p, to)
    ensures p in w.terminal || (w.mark < p && !HadRow(log, w.table, p))
  {
    assert NothingLost(log, w);
    hide AlwaysInv, HadRow;
  }

  ghost function Restarted(log: Log, w: World, begun: set<nat>, blind: bool, to: nat): World {
    After(log, w, [Crash(begun, blind), Read(to)])
  }

  lemma RestartSteps(log: Log, w: World, begun: set<nat>, blind: bool, to: nat)
    ensures Restarted(log, w, begun, blind, to) == Next(log, Resumed(w, begun, blind), Read(to))
  {
    var run := [Crash(begun, blind), Read(to)];
    var w1 := Next(log, w, run[0]);
    var w2 := Next(log, w1, run[1]);
    hide Next;
    assert run[1..] == [Read(to)] && run[1..][1..] == [];
    assert After(log, w, run) == After(log, w1, run[1..]);
    assert After(log, w1, run[1..]) == After(log, w2, []);
  }

  /** What a restart has admitted once it read up to `to`: all it answers above the mark and the rows. */
  lemma RestartReads(log: Log, w: World, begun: set<nat>, blind: bool, to: nat)
    requires WellRouted(log) && AlwaysInv(log, w) && ReadsBack(log, w, begun, blind) && w.mark <= to
    ensures
      var w' := Restarted(log, w, begun, blind, to);
      && AlwaysInv(log, w') && w'.mark == w.mark && w'.baseRows == w.table && w'.retired == map[]
      && w'.terminal == w.terminal && w'.invoked == w.invoked && Front(w') == to && w'.seen <= Max(w.seen, to)
      && forall p: nat :: log(p).Some? && w.mark < p <= to && !HadRow(log, w.table, p) ==> p in w'.owner
    ensures Tame(log, w) ==> Tame(log, Restarted(log, w, begun, blind, to))
    ensures Inv(log, w) ==> Inv(log, Restarted(log, w, begun, blind, to))
  {
    var w1 := Resumed(w, begun, blind);
    assert Next(log, w, Crash(begun, blind)) == w1;
    RestartSteps(log, w, begun, blind, to);
    hide AlwaysInv, Tame, Inv, Next, Restarted, DeliverTo, HadRow, ReadsBack, WellRouted;
    CrashAlways(log, w, begun, blind);
    ReadAlways(log, w1, to);
    ReadFrame(log, w1, to);
    OfferedIs(log, Next(log, w1, Read(to)));
    if Tame(log, w) { CrashTame(log, w, begun, blind); ReadTame(log, w1, to); }
    if Inv(log, w) { CrashKeeps(log, w, begun, blind); ReadKeeps(log, w1, to); }
  }

  lemma OfferedIs(log: Log, w: World)
    requires AlwaysInv(log, w)
    ensures forall p :: w.base < p <= Front(w) && log(p).Some? ==> p in w.owner || HadRow(log, w.baseRows, p)
  {
    assert Offered(log, w);
    hide AlwaysInv;
  }

  lemma ReadFrame(log: Log, w: World, to: nat)
    requires w.cursor == w.s.scanned <= to
    ensures
      var w' := Next(log, w, Read(to));
      && w'.mark == w.mark && w'.base == w.base && w'.baseRows == w.baseRows && w'.retired == w.retired
      && w'.terminal == w.terminal && w'.invoked == w.invoked && Front(w') == to && w'.seen <= Max(w.seen, to)
  {
    DeliverFrame(log, w, to);
    hide DeliverTo;
  }

  /** ... and the next process, once it has read that far, has it queued to run as itself. */
  lemma NewestRunsAgain(log: Log, w: World, begun: set<nat>, blind: bool, p: nat, to: nat)
    requires WellRouted(log) && AlwaysInv(log, w) && ReadsBack(log, w, begun, blind) && w.seen <= to
    requires NewestOfArm(log, p, to) && p !in w.terminal
    ensures IsQueued(Restarted(log, w, begun, blind, to).s, log(p).value.lane, p)
  {
    var w' := Restarted(log, w, begun, blind, to);
    NewestSurvives(log, w, p, to);
    assert w.mark <= to by { assert Bounds(w); }
    RestartReads(log, w, begun, blind, to);
    assert Accounted(log, w');
    hide AlwaysInv, Restarted, ReadsBack, WellRouted;
    assert !Discharged(log, w', p);
  }

  /** An invocation that began and did not end is queued again as itself after a restart. */
  lemma BegunRunsAgain(log: Log, w: World, begun: set<nat>, blind: bool, p: nat, to: nat)
    requires WellRouted(log) && Tame(log, w) && ReadsBack(log, w, begun, blind) && w.seen <= to
    requires p in w.invoked && p !in w.terminal
    ensures log(p).Some? && IsQueued(Restarted(log, w, begun, blind, to).s, log(p).value.lane, p)
  {
    var w' := Restarted(log, w, begun, blind, to);
    TameInv(log, w);
    TameParts(log, w);
    assert w.mark <= to by { assert Bounds(w); }
    assert p <= w.seen;
    hide Tame, AlwaysInv, Restarted, ReadsBack, WellRouted, TameAt, Always;
    RestartReads(log, w, begun, blind, to);
    TameInv(log, w');
    TameParts(log, w');
    assert StillToRun(log, w', p);
  }

  /** A position of an arm that never collapses has ended once the mark or its lane's row reaches it. */
  lemma RowsAreHonest(log: Log, w: World, p: nat)
    requires AlwaysInv(log, w) && log(p).Some? && !Collapses(log, p) && (p <= w.mark || HadRow(log, w.table, p))
    ensures p in w.terminal
  {
    assert Discharged(log, w, p);
  }

  /** Runs that keep their guards are harmless, so what holds of the latter holds of them. */
  lemma {:induction false} AllowedIsTame(log: Log, w: World, run: seq<Step>)
    requires Allowed(log, w, run)
    ensures TameRun(log, w, run) && EnabledRun(log, w, run)
    decreases |run|
  {
    if run != [] {
      assert Mild(log, w, run[0]);
      hide Enabled, Next, Safe, Mild;
      AllowedIsTame(log, Next(log, w, run[0]), run[1..]);
    }
  }

  // ----- rows and guards ---------------------------------------------------

  /** A lane's row never falls: it is raised to each position recorded, and goes only where a sweep reaches
      it; then it goes for good. */
  lemma RowsNeverFall(log: Log, w: World, step: Step, lane: LaneId)
    requires Enabled(log, w, step) && lane in w.table
    ensures
      var table := Next(log, w, step).table;
      if step.SweepTo? && w.table[lane] <= step.to then lane !in table
      else lane in table && table[lane] >= w.table[lane]
    ensures step.SaveRow? && step.lane == lane ==> Next(log, w, step).table[lane] >= step.position
  {
    if step.Read? { ReadTable(log, w, step.to); }
    hide Claim, Head, Complete, Release, Defer, Promote, PromoteMatching, DeliverTo, LowWater;
  }

  lemma {:induction false} ReadTable(log: Log, w: World, to: nat)
    ensures DeliverTo(log, w, to).table == w.table
    decreases if w.cursor < to then to - w.cursor else 0
  {
    if w.cursor < to {
      hide Admit, OpenOf, Reown;
      ReadTable(log, Deliver(log, w), to);
    }
  }

  /** The memory of one process is given up exactly so far: what lies above the mark it forgot to stays. */
  lemma ForgetsExactly(log: Log, w: World, to: nat, lane: LaneId, p: nat)
    ensures
      var s := Next(log, w, ForgetTo(to)).s;
      && (lane in s.high <==> lane in w.s.high && w.s.high[lane] > to)
      && (lane in s.high ==> s.high[lane] == w.s.high[lane])
      && (p in s.begun <==> p in w.s.begun && p > to)
    ensures
      var s := Next(log, w, SweepTo(to)).s;
      && (lane in s.rows <==> lane in w.s.rows && w.s.rows[lane] > to)
      && (lane in s.rows ==> s.rows[lane] == w.s.rows[lane])
  {
  }
}
