/** The steps that touch the durable rows, and restarts, keep the invariant; so every run does. */
module LaneDurability {
  import opened Options
  import opened LaneSpec
  import opened LaneRuns
  import opened LaneInvariants
  import opened LaneSteps

  /** What an admitted position comes to: it ended, or something newer of its arm runs for it, or it
      waits in its lane. */
  lemma Fate(log: Log, w: World, p: nat)
    requires Owned(w) && Answered(log, w) && Ranged(w) && Unfolded(log, w) && Marked(w) && p in w.owner
    ensures w.owner[p] in w.retired || w.owner[p] != p ==> Discharged(log, w, p)
    ensures p in w.invoked ==> w.owner[p] == p
    ensures w.owner[p] in w.retired && w.owner[p] == p ==> p in w.terminal
    ensures w.owner[p] !in w.retired ==>
      log(p).Some? && exists g :: Holds(w.s, log(p).value.lane, g) && g.hi == w.owner[p] && g.lo <= p
  {
    assert AnsweredFor(log, w, p);
    assert Runs(w, w.owner[p]);
    var h := w.owner[p];
    if h in w.retired { assert IsRange(w, w.retired[h], h); }
    if h != p { assert SameArm(log, p, h) && p < h <= w.seen; }
    if h !in w.retired {
      var g :| Holds(w.s, log(p).value.lane, g) && g.hi == h;
      assert IsRange(w, g.lo, g.hi);
    }
  }

  /** A position the mark could pass, or a row of its lane could name, is discharged. */
  lemma PassedOver(log: Log, w: World, p: nat, row: nat)
    requires Owned(w) && Answered(log, w) && Ranged(w) && Unfolded(log, w) && Marked(w) && Inflight(w)
      && Ascending(log, w)
    requires ReadThrough(log, w) && NothingLost(log, w) && NothingAbandoned(log, w) && log(p).Some?
    requires p <= Front(w)
    requires (forall k :: k in w.s.inflight ==> p < k) || (Ran(log, w, log(p).value.lane, row) && p <= row)
    ensures Discharged(log, w, p) && (p in w.invoked ==> p in w.terminal)
  {
    if p <= w.base || HadRow(log, w.baseRows, p) {
      assert Discharged(log, w, p);
    } else {
      hide Discharged;
      Fate(log, w, p);
      if w.owner[p] !in w.retired {
        var g :| Holds(w.s, log(p).value.lane, g) && g.hi == w.owner[p] && g.lo <= p;
        assert g.lo in w.s.inflight;
      }
    }
  }

  function RowSaved(w: World, lane: LaneId, position: nat): World {
    w.(table := RecordRow(w.s.(rows := w.table), lane, position).rows, s := RecordRow(w.s, lane, position))
  }

  lemma SaveRowRows(log: Log, w: World, lane: LaneId, position: nat)
    requires Owned(w) && Answered(log, w) && Ranged(w) && Unfolded(log, w) && Marked(w) && Inflight(w)
      && Ascending(log, w)
    requires ReadThrough(log, w) && NothingLost(log, w) && NothingAbandoned(log, w)
    requires Ran(log, w, lane, position)
    ensures
      var w' := RowSaved(w, lane, position);
      NothingLost(log, w') && NothingAbandoned(log, w') && Ascending(log, w')
  {
    var w' := RowSaved(w, lane, position);
    assert IsRange(w, w.retired[position], position) && position <= Front(w);
    forall p: nat | HadRow(log, w'.table, p) && !HadRow(log, w.table, p)
      ensures Discharged(log, w, p) && (p in w.invoked ==> p in w.terminal)
    {
      PassedOver(log, w, p, position);
    }
    SavedRows(log, w, w', lane, position);
  }

  lemma SavedRows(log: Log, w: World, w': World, lane: LaneId, position: nat)
    requires w' == RowSaved(w, lane, position) && Ran(log, w, lane, position)
    requires Ascending(log, w) && NothingLost(log, w) && NothingAbandoned(log, w) && 0 < position
    requires forall p: nat :: HadRow(log, w'.table, p) && !HadRow(log, w.table, p) ==>
      Discharged(log, w, p) && (p in w.invoked ==> p in w.terminal)
    ensures NothingLost(log, w') && NothingAbandoned(log, w') && Ascending(log, w')
  {
    forall p: nat ensures Discharged(log, w, p) <==> Discharged(log, w', p) {}
    forall l, g ensures Holds(w'.s, l, g) <==> Holds(w.s, l, g) {}
    forall l, p: nat | Ran(log, w, l, p) ensures Ran(log, w', l, p) {}
    assert w'.table == w.table[lane := w'.table[lane]];
  }

  lemma OwedRan(log: Log, w: World, lane: LaneId, position: nat)
    requires Ascending(log, w) && (lane, position) in w.owing
    ensures Ran(log, w, lane, position)
  {
    hide Ran;
  }

  lemma SaveRowKeeps(log: Log, w: World, lane: LaneId, position: nat)
    requires Inv(log, w) && (lane, position) in w.owing
    ensures Inv(log, Next(log, w, SaveRow(lane, position)))
  {
    hide Ordered, Owned, Answered, Ranged, Apart, Inflight, Open, Unfolded, Guarded, Seeded, ReadThrough, Marked,
      Frozen, Ascending, NothingLost, NothingAbandoned, Ran;
    var w' := RowSaved(w, lane, position);
    assert Next(log, w, SaveRow(lane, position)) == w';
    hide Next;
    OwedRan(log, w, lane, position);
    SaveRowRows(log, w, lane, position);
    assert SameSchedule(w, w');
    KeepsSchedule(log, w, w');
    KeepsGuards(log, w, w');
  }

  // ----- publishing and sweeping -------------------------------------------

  /** The mark is below everything in flight and no further than what was read. */
  lemma MarkBelow(s: Lanes)
    ensures LowWater(s) <= s.scanned
    ensures forall k :: k in s.inflight && 0 < k ==> LowWater(s) < k
  {
  }

  lemma PublishRows(log: Log, w: World, to: nat)
    requires Owned(w) && Answered(log, w) && Ranged(w) && Unfolded(log, w) && Marked(w) && Inflight(w)
      && Ascending(log, w)
    requires ReadThrough(log, w) && NothingLost(log, w) && NothingAbandoned(log, w)
    requires w.mark <= to <= LowWater(w.s)
    ensures var w' := w.(mark := to); NothingLost(log, w') && NothingAbandoned(log, w') && Marked(w')
  {
    var w' := w.(mark := to);
    MarkBelow(w.s);
    hide LowWater;
    forall p: nat | p <= to && log(p).Some?
      ensures Discharged(log, w, p) && (p in w.invoked ==> p in w.terminal)
    {
      PassedOver(log, w, p, 0);
    }
    hide Owned, Answered, Ranged, Unfolded, Inflight, Ascending, ReadThrough;
    forall p: nat ensures Discharged(log, w, p) <==> Discharged(log, w', p) {}
  }

  lemma PublishKeeps(log: Log, w: World, to: nat)
    requires Inv(log, w) && w.mark <= to <= LowWater(w.s)
    ensures Inv(log, Next(log, w, Publish(to)))
  {
    var w' := w.(mark := to);
    assert Next(log, w, Publish(to)) == w';
    KeepsWork(w, w');
    KeepsOpen(log, w, w');
    assert Floor(w) <= Floor(w') && Front(w) == Front(w');
    hide Ordered, Owned, Answered, Ranged, Apart, Inflight, Open, Unfolded, Guarded, Seeded, ReadThrough, Marked,
      Frozen, Ascending, NothingLost, NothingAbandoned, Next, LowWater, Front, Floor;
    PublishRows(log, w, to);
    KeepsQueues(log, w, w');
    KeepsOwners(log, w, w');
    KeepsGuards(log, w, w');
    KeepsOrder(log, w, w');
  }

  lemma ForgetGuards(log: Log, w: World, to: nat)
    requires Unfolded(log, w) && Guarded(log, w) && Seeded(w) && ReadThrough(log, w) && Marked(w)
    requires to <= w.mark && SafeForget(log, w, to)
    ensures
      var w' := w.(s := Forget(w.s, to));
      Unfolded(log, w') && Guarded(log, w') && Seeded(w') && ReadThrough(log, w')
  {
    var w' := w.(s := Forget(w.s, to));
    assert Front(w') == Front(w) && Floor(w') == Floor(w) && to <= Front(w);
  }

  lemma ForgetKeeps(log: Log, w: World, to: nat)
    requires Inv(log, w) && to <= w.mark && SafeForget(log, w, to)
    ensures Inv(log, Next(log, w, ForgetTo(to)))
  {
    var w' := w.(s := Forget(w.s, to));
    assert Next(log, w, ForgetTo(to)) == w';
    hide Ordered, Owned, Answered, Ranged, Apart, Inflight, Open, Unfolded, Guarded, Seeded, ReadThrough, Marked,
      Frozen, Ascending, NothingLost, NothingAbandoned, Next, SafeForget;
    KeepsSchedule(log, w, w');
    ForgetGuards(log, w, to);
    KeepsOrder(log, w, w');
    KeepsRows(log, w, w');
  }

  lemma SweepKeeps(log: Log, w: World, to: nat)
    requires Inv(log, w)
    ensures Inv(log, Next(log, w, SweepTo(to)))
  {
    var w' := w.(table := Above(w.table, to), s := PruneRows(w.s, to));
    assert Next(log, w, SweepTo(to)) == w';
    hide Ordered, Owned, Answered, Ranged, Apart, Inflight, Open, Unfolded, Guarded, Seeded, ReadThrough, Marked,
      Frozen, Ascending, NothingLost, NothingAbandoned, Next;
    SweepRows(log, w, w');
    KeepsSchedule(log, w, w');
    KeepsGuards(log, w, w');
    KeepsOrder(log, w, w');
  }

  /** Fewer rows promise less. */
  lemma SweepRows(log: Log, w: World, w': World)
    requires w' == w.(table := w'.table, s := w'.s)
    requires forall l :: l in w'.table ==> l in w.table && w'.table[l] == w.table[l]
    requires NothingLost(log, w) && NothingAbandoned(log, w)
    ensures NothingLost(log, w') && NothingAbandoned(log, w')
  {
    forall p: nat ensures Discharged(log, w, p) <==> Discharged(log, w', p) {}
  }

  // ----- restarts ----------------------------------------------------------

  lemma CrashKeeps(log: Log, w: World, begun: set<nat>, blind: bool)
    requires Inv(log, w) && ReadsBack(log, w, begun, blind)
    ensures Inv(log, Resumed(w, begun, blind))
  {
    var w' := Resumed(w, begun, blind);
    assert Marked(w);
    CrashRows(log, w, begun, blind);
    hide Ordered, Owned, Answered, Ranged, Apart, Inflight, Open, Unfolded, Guarded, Seeded, ReadThrough, Marked,
      Frozen, Ascending, NothingLost, NothingAbandoned;
    CrashFresh(log, w', w);
  }

  lemma CrashRows(log: Log, w: World, begun: set<nat>, blind: bool)
    requires Marked(w) && NothingLost(log, w) && NothingAbandoned(log, w) && ReadsBack(log, w, begun, blind)
    ensures var w' := Resumed(w, begun, blind); NothingLost(log, w') && NothingAbandoned(log, w') && Unfolded(log, w')
  {
    var w' := Resumed(w, begun, blind);
    forall p: nat ensures Discharged(log, w, p) <==> Discharged(log, w', p) {}
  }

  lemma CrashFresh(log: Log, w': World, w: World)
    requires exists begun, blind :: w' == Resumed(w, begun, blind)
    requires w.mark <= w.seen
    ensures Ordered(log, w') && Owned(w') && Answered(log, w') && Ranged(w') && Apart(log, w') && Inflight(w')
    ensures Open(log, w') && Guarded(log, w') && Seeded(w') && ReadThrough(log, w') && Marked(w') && Frozen(w')
    ensures Ascending(log, w') && w'.cursor <= w'.s.scanned
  {
  }

  lemma BootInv(log: Log)
    requires WellRouted(log)
    ensures Inv(log, Boot())
  {
    var w: World := World(LaneSpec.Resuming(0, map[], {}, false), 0, map[], {}, 0, map[], {}, {}, 0, map[], {}, map[],
      map[], 0);
    assert w == Resumed(w, {}, false);
    hide Ordered, Owned, Answered, Ranged, Apart, Inflight, Open, Guarded, Seeded, ReadThrough, Marked, Frozen,
      Ascending;
    CrashFresh(log, w, w);
  }

  // ----- every run ---------------------------------------------------------

  ghost predicate Safe(log: Log, w: World, step: Step) {
    step.ForgetTo? ==> SafeForget(log, w, step.to)
  }

  lemma StepKeeps(log: Log, w: World, step: Step)
    requires WellRouted(log) && Inv(log, w) && Enabled(log, w, step) && Safe(log, w, step)
    ensures Inv(log, Next(log, w, step))
  {
    hide Inv, SafeForget, LowWater;
    match step
    case Read(to) => ReadKeeps(log, w, to);
    case Resubscribe => ResubscribeKeeps(log, w);
    case Take(lane) => PlacesKeep(log, w, Claim(w.s, lane).0);
    case TakeHead(lane) => TakeHeadKeeps(log, w, lane);
    case Begin(lane) => BeginKeeps(log, w, lane);
    case Finish(lane) => FinishKeeps(log, w, lane);
    case Retire(lane) => RetireKeeps(log, w, lane);
    case SaveRow(lane, position) => SaveRowKeeps(log, w, lane, position);
    case GiveBack(lane) => PlacesKeep(log, w, Release(w.s, lane).0);
    case Park(lane, deadline) => PlacesKeep(log, w, Defer(w.s, lane, deadline));
    case PromoteDue(now) => PlacesKeep(log, w, Promote(w.s, now));
    case PromoteSkips(wanted) => PlacesKeep(log, w, PromoteMatching(w.s, wanted));
    case Publish(to) => PublishKeeps(log, w, to);
    case ForgetTo(to) => ForgetKeeps(log, w, to);
    case SweepTo(to) => SweepKeeps(log, w, to);
    case Crash(begun, blind) => CrashKeeps(log, w, begun, blind);
  }

  /** Every step of a run was enabled where it was taken, and forgot nothing still to be redelivered. */
  ghost predicate Allowed(log: Log, w: World, run: seq<Step>)
    decreases |run|
  {
    run == [] || (Enabled(log, w, run[0]) && Safe(log, w, run[0]) && Allowed(log, Next(log, w, run[0]), run[1..]))
  }

  ghost function After(log: Log, w: World, run: seq<Step>): World
    decreases |run|
  {
    if run == [] then w else After(log, Next(log, w, run[0]), run[1..])
  }

  lemma {:induction false} RunKeeps(log: Log, w: World, run: seq<Step>)
    requires WellRouted(log) && Inv(log, w) && Allowed(log, w, run)
    ensures Inv(log, After(log, w, run))
    decreases |run|
  {
    if run != [] {
      hide Inv, Enabled, Next, Safe;
      StepKeeps(log, w, run[0]);
      RunKeeps(log, Next(log, w, run[0]), run[1..]);
    }
  }
}
