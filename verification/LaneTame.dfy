/** When re-subscribing costs no more than a second look: exactly when nothing that was folded away can
    be delivered again. Then lanes still complete in order and what began still runs again. */
module LaneTame {
  import opened Options
  import opened LaneSpec
  import opened LaneRuns
  import opened LaneInvariants
  import opened LaneSteps
  import opened LaneDurability
  import opened LaneAlways

  // ----- exactly when forgetting is harmless -------------------------------

  /** Forgetting up to `to` leaves this position without a guard. */
  ghost predicate Unguarded(log: Log, w: World, to: nat, p: nat) {
    log(p).Some? && !(log(p).value.lane in w.s.high && w.s.high[log(p).value.lane] > to)
  }

  /** Whatever the subscription may deliver again for want of a guard has ended: none of it was folded
      into another invocation. */
  ghost predicate Harmless(log: Log, w: World, to: nat) {
    forall p: nat :: w.cursor < p <= to && Unguarded(log, w, to, p) ==> p in w.terminal
  }

  /** No later read of the subscription queues at or below `to` a position that has not ended. */
  ghost predicate QueuesEnded(log: Log, w: World, to: nat) {
    forall n: nat :: w.cursor <= n ==> NewEnded(w, Next(log, Next(log, w, ForgetTo(to)), Read(n)), to)
  }

  ghost predicate NewEnded(w: World, w': World, to: nat) {
    forall l, g :: Holds(w'.s, l, g) && g.hi <= to && !Holds(w.s, l, g) ==> g.hi in w.terminal
  }

  /** Every position up to `to` that has not ended is still guarded. */
  ghost predicate GuardsOpen(log: Log, w: World, to: nat) {
    forall p: nat :: w.cursor < p <= to && log(p).Some? && p !in w.terminal ==>
      AlreadyOffered(w.s, log(p).value.lane, p)
  }

  lemma DeliverEnded(log: Log, w: World, w0: World, to: nat)
    requires Always(log, w) && GuardsOpen(log, w, to) && NewEnded(w0, w, to) && w.terminal == w0.terminal
    ensures GuardsOpen(log, Deliver(log, w), to) && NewEnded(w0, Deliver(log, w), to)
      && Deliver(log, w).terminal == w0.terminal
  {
    var w' := Deliver(log, w);
    if Admits(log, w) {
      Parts(log, w);
      AdmissionJoins(log, w);
      var r := log(w.cursor + 1).value;
      hide Always, Ordered, Low, Near, Topped, Accounted, Offered, OwesDone, NothingLost, Bounds, Frozen, Deliver;
      JoinedEnded(log, w, w', r, w.cursor + 1, Queues(w.s, r, w.cursor + 1), OpenOf(w.s, r), w0, to);
    } else {
      assert w' == w.(cursor := w.cursor + 1, seen := Max(w.seen, w.cursor + 1));
      hide Always, Deliver;
    }
  }

  lemma JoinedEnded(log: Log, w: World, w': World, r: Route, p: nat, g0: Pending, open: Option<nat>, w0: World, to: nat)
    requires Joined(log, w, w', r, p, g0, open) && GuardsOpen(log, w, to) && NewEnded(w0, w, to)
      && w.terminal == w0.terminal
    ensures GuardsOpen(log, w', to) && NewEnded(w0, w', to) && w'.terminal == w0.terminal
  {
  }

  lemma {:induction false} DeliverToEnded(log: Log, w: World, w0: World, to: nat, n: nat)
    requires WellRouted(log) && Always(log, w) && GuardsOpen(log, w, to) && NewEnded(w0, w, to)
      && w.terminal == w0.terminal
    ensures NewEnded(w0, DeliverTo(log, w, n), to)
    decreases if w.cursor < n then n - w.cursor else 0
  {
    hide Always, GuardsOpen, NewEnded, WellRouted;
    if w.cursor < n {
      DeliverAlways(log, w);
      DeliverEnded(log, w, w0, to);
      DeliverToEnded(log, Deliver(log, w), w0, to, n);
    }
  }

  lemma HarmlessQueuesEnded(log: Log, w: World, to: nat)
    requires WellRouted(log) && AlwaysInv(log, w) && to <= w.mark && Harmless(log, w, to)
    ensures QueuesEnded(log, w, to)
  {
    var w1 := w.(s := Forget(w.s, to));
    assert Next(log, w, ForgetTo(to)) == w1;
    ForgetAlways(log, w, to);
    assert GuardsOpen(log, w1, to);
    assert NewEnded(w, w1, to) by { SameHolds(w, w1); }
    hide AlwaysInv, GuardsOpen, NewEnded, Harmless;
    assert Always(log, w1) by { InvIs(log, w1); }
    forall n: nat | w.cursor <= n ensures NewEnded(w, Next(log, w1, Read(n)), to) {
      DeliverToEnded(log, w1, w, to, n);
      ReadQueues(log, w1, n);
      SameNew(w, DeliverTo(log, w1, n), Next(log, w1, Read(n)), to);
    }
  }

  lemma InvIs(log: Log, w: World)
    requires AlwaysInv(log, w)
    ensures Always(log, w) && w.cursor <= w.s.scanned
  {
  }

  lemma ReadQueues(log: Log, w: World, n: nat)
    ensures Next(log, w, Read(n)).s.queues == DeliverTo(log, w, n).s.queues
  {
    hide DeliverTo;
  }

  lemma SameNew(w0: World, w: World, w': World, to: nat)
    requires w'.s.queues == w.s.queues && NewEnded(w0, w, to)
    ensures NewEnded(w0, w', to)
  {
    SameHolds(w, w');
  }

  /** Reading up to just before a position raises its lane's high-water no further. */
  lemma {:induction false} StaysUnoffered(log: Log, w: World, n: nat, p: nat)
    requires log(p).Some? && !AlreadyOffered(w.s, log(p).value.lane, p) && w.cursor <= n < p
    ensures !AlreadyOffered(DeliverTo(log, w, n).s, log(p).value.lane, p) && DeliverTo(log, w, n).cursor == n
    decreases if w.cursor < n then n - w.cursor else 0
  {
    if w.cursor < n {
      DeliverUnoffered(log, w, p);
      hide Deliver, AlreadyOffered;
      StaysUnoffered(log, Deliver(log, w), n, p);
    }
  }

  lemma DeliverUnoffered(log: Log, w: World, p: nat)
    requires log(p).Some? && !AlreadyOffered(w.s, log(p).value.lane, p) && w.cursor + 1 < p
    ensures !AlreadyOffered(Deliver(log, w).s, log(p).value.lane, p) && Deliver(log, w).cursor == w.cursor + 1
  {
  }

  lemma {:induction false} DeliverToSplits(log: Log, w: World, to: nat)
    requires w.cursor < to
    ensures DeliverTo(log, w, to) == Deliver(log, DeliverTo(log, w, to - 1))
    decreases if w.cursor < to then to - w.cursor else 0
  {
    DeliverOne(log, w);
    hide Deliver;
    if w.cursor < to - 1 {
      DeliverToSplits(log, Deliver(log, w), to);
    }
  }

  lemma DeliverOne(log: Log, w: World)
    ensures Deliver(log, w).cursor == w.cursor + 1
  {
  }

  /** Delivering a position its lane does not guard queues it. */
  lemma DeliverQueues(log: Log, w: World)
    requires Admits(log, w)
    ensures exists l, g :: Holds(Deliver(log, w).s, l, g) && g.hi == w.cursor + 1
  {
    var r := log(w.cursor + 1).value;
    var after := Deliver(log, w);
    assert after.s == Admit(w.s, r.lane, w.cursor + 1, r.arm, r.declared).0;
    var queue := after.s.queues[r.lane];
    assert Holds(after.s, r.lane, queue[|queue| - 1]) && queue[|queue| - 1].hi == w.cursor + 1;
  }

  lemma HarmQueues(log: Log, w: World, to: nat, p: nat)
    requires AlwaysInv(log, w) && to <= w.mark && w.cursor < p <= to && Unguarded(log, w, to, p) && p !in w.terminal
    ensures !NewEnded(w, Next(log, Next(log, w, ForgetTo(to)), Read(p)), to)
  {
    var w1 := w.(s := Forget(w.s, to));
    assert Next(log, w, ForgetTo(to)) == w1;
    assert !AlreadyOffered(w1.s, log(p).value.lane, p);
    assert forall l, g :: Holds(w.s, l, g) ==> g.hi != p by { assert Near(w); }
    hide AlwaysInv, Next, Unguarded, AlreadyOffered;
    UnofferedQueues(log, w1, p);
    var after := Next(log, w1, Read(p));
    var l, g :| Holds(after.s, l, g) && g.hi == p;
    assert !Holds(w.s, l, g);
  }

  lemma UnofferedQueues(log: Log, w: World, p: nat)
    requires w.cursor < p && log(p).Some? && !AlreadyOffered(w.s, log(p).value.lane, p)
    ensures exists l, g :: Holds(Next(log, w, Read(p)).s, l, g) && g.hi == p
  {
    StaysUnoffered(log, w, p - 1, p);
    DeliverToSplits(log, w, p);
    var before := DeliverTo(log, w, p - 1);
    assert Admits(log, before);
    hide DeliverTo, Deliver, Next, AlreadyOffered;
    DeliverQueues(log, before);
    ReadQueues(log, w, p);
    SameHolds(Deliver(log, before), Next(log, w, Read(p)));
  }

  /** After forgetting up to `to`, what the subscription queues again at or below it has ended, in every
      later read, exactly when every answered position ahead of it that loses its guard has ended. */
  lemma HarmlessExactly(log: Log, w: World, to: nat)
    requires WellRouted(log) && AlwaysInv(log, w) && to <= w.mark
    ensures Harmless(log, w, to) <==> QueuesEnded(log, w, to)
  {
    if Harmless(log, w, to) {
      HarmlessQueuesEnded(log, w, to);
    } else {
      var p: nat :| w.cursor < p <= to && Unguarded(log, w, to, p) && p !in w.terminal;
      hide AlwaysInv, Next, NewEnded;
      HarmQueues(log, w, to, p);
      assert !QueuesEnded(log, w, to);
    }
  }

  /** Of those, what has not ended was folded away: a later position of its collapsing arm stands for it. */
  lemma HarmIsFolded(log: Log, w: World, to: nat, p: nat)
    requires AlwaysInv(log, w) && to <= w.mark && w.cursor < p <= to && Unguarded(log, w, to, p) && p !in w.terminal
    ensures Collapses(log, p) && exists q :: p < q <= w.seen && SameArm(log, p, q)
  {
    assert NothingLost(log, w) && Discharged(log, w, p);
  }

  // ----- what a tame run keeps ---------------------------------------------

  /** Ahead of the cursor and behind the mark, only what has ended is unguarded. */
  ghost predicate Ahead(log: Log, w: World) {
    forall p :: w.cursor < p <= w.mark && log(p).Some? && p !in w.terminal ==> AlreadyOffered(w.s, log(p).value.lane, p)
  }

  ghost predicate EndedBelow(w: World) {
    forall l, g :: Holds(w.s, l, g) && g.hi <= w.mark ==> g.hi in w.terminal
  }

  /** The group open to folding is of the arm it is open for, and was read. */
  ghost predicate Latest(log: Log, w: World) {
    forall key :: key in w.s.latest ==> OnArm(log, w.s.latest[key], key.0, key.1) && w.s.latest[key] <= Front(w)
  }

  /** No later position will fold `p` away. */
  ghost predicate Kept(log: Log, w: World, p: nat) {
    w.s.blind || !Collapses(log, p) || forall key :: key in w.s.latest ==> w.s.latest[key] != p
  }

  /** `p` waits in its lane for itself, or will when it is read. */
  ghost predicate StillToRun(log: Log, w: World, p: nat) {
    if p <= Front(w) then Waits(log, w, p) && Kept(log, w, p)
    else w.s.blind || !Collapses(log, p) || p in w.s.begun
  }

  ghost predicate Unpassed(log: Log, w: World, p: nat) {
    w.mark < p && !HadRow(log, w.table, p) && !HadRow(log, w.baseRows, p)
  }

  /** What began and has not ended is above the mark and its lane's row, and will run as itself. */
  ghost predicate Resumable(log: Log, w: World) {
    && w.terminal <= w.invoked
    && (forall p :: p in w.invoked ==> log(p).Some? && p <= w.seen)
    && (forall p :: p in w.invoked && p !in w.terminal ==> Unpassed(log, w, p) && StillToRun(log, w, p))
  }

  /** `p` is newer than all its lane has completed, owes a row for, or has one for. */
  ghost predicate Newer(log: Log, w: World, lane: LaneId, p: nat) {
    && !HadRow(log, w.table, p) && !HadRow(log, w.baseRows, p)
    && (forall owed :: owed in w.owing && owed.0 == lane ==> owed.1 < p)
    && (forall h :: h in w.retired && log(h).Some? && log(h).value.lane == lane ==> h < p)
  }

  ghost predicate Ranked(log: Log, w: World) {
    forall l, g :: Holds(w.s, l, g) && g.hi !in w.terminal ==> Newer(log, w, l, g.hi)
  }

  /** What was completed was read, and rows name nothing else, or what an earlier process finished. */
  ghost predicate RowsRead(w: World) {
    && (forall l :: l in w.table ==> w.table[l] <= Front(w) || (l in w.baseRows && w.table[l] <= w.baseRows[l]))
    && (forall owed :: owed in w.owing ==> owed.1 <= Front(w))
    && (forall h :: h in w.retired ==> h <= Front(w))
  }

  ghost predicate TameAt(log: Log, w: World) {
    && Always(log, w) && Ahead(log, w) && EndedBelow(w) && Latest(log, w)
    && Resumable(log, w) && Ranked(log, w) && RowsRead(w)
  }

  ghost predicate Tame(log: Log, w: World) {
    TameAt(log, w) && w.cursor <= w.s.scanned
  }

  // ----- reading -----------------------------------------------------------

  /** What is admitted and has not ended is newer than everything read before. */
  lemma OpenIsNew(log: Log, w: World)
    requires Admits(log, w) && Ahead(log, w) && Offered(log, w) && w.cursor + 1 !in w.terminal
    ensures Front(w) < w.cursor + 1
  {
  }

  lemma JoinedTame(log: Log, w: World, w': World, r: Route, p: nat, g0: Pending, open: Option<nat>)
    requires Joined(log, w, w', r, p, g0, open) && Admits(log, w)
    requires Ahead(log, w) && EndedBelow(w) && Latest(log, w) && RowsRead(w) && Bounds(w) && Offered(log, w)
    ensures Ahead(log, w') && EndedBelow(w') && Latest(log, w') && RowsRead(w')
    ensures p !in w.terminal ==> Front(w) < p
  {
    if p !in w.terminal { OpenIsNew(log, w); }
    hide Latest, Offered, Ahead, EndedBelow, RowsRead, Joined, Front, Bounds, Admits;
    JoinedLatest(log, w, w', r, p, g0, open);
    JoinedAhead(log, w, w', r, p, g0, open);
    JoinedEnds(log, w, w', r, p, g0, open);
  }

  lemma JoinedAhead(log: Log, w: World, w': World, r: Route, p: nat, g0: Pending, open: Option<nat>)
    requires Joined(log, w, w', r, p, g0, open) && Ahead(log, w) && RowsRead(w)
    ensures Ahead(log, w') && RowsRead(w')
  {
    hide TookGroups;
  }

  lemma JoinedEnds(log: Log, w: World, w': World, r: Route, p: nat, g0: Pending, open: Option<nat>)
    requires Joined(log, w, w', r, p, g0, open) && EndedBelow(w) && Bounds(w) && (p !in w.terminal ==> Front(w) < p)
    ensures EndedBelow(w')
  {
  }

  lemma JoinedLatest(log: Log, w: World, w': World, r: Route, p: nat, g0: Pending, open: Option<nat>)
    requires Joined(log, w, w', r, p, g0, open) && Latest(log, w)
    ensures Latest(log, w')
  {
    hide TookGroups;
  }

  lemma JoinedRanked(log: Log, w: World, w': World, r: Route, p: nat, g0: Pending, open: Option<nat>)
    requires Joined(log, w, w', r, p, g0, open) && Ranked(log, w) && RowsRead(w) && Topped(w)
    requires p !in w.terminal ==> Front(w) < p
    ensures Ranked(log, w')
  {
    forall l, g | Holds(w'.s, l, g) && g.hi !in w'.terminal ensures Newer(log, w', l, g.hi) {
      if l != r.lane || g != g0 { assert Newer(log, w, l, g.hi); }
    }
  }

  /** What will run as itself is not the group a newcomer folds into. */
  lemma KeptApart(log: Log, w: World, w': World, r: Route, p: nat, g0: Pending, open: Option<nat>, q: nat)
    requires WellRouted(log) && Joined(log, w, w', r, p, g0, open) && Ordered(log, w) && Kept(log, w, q)
    ensures open != Some(q)
  {
    if open == Some(q) {
      assert Holds(w.s, r.lane, Pending(g0.lo, q, r.arm));
      assert OnArm(log, q, r.lane, r.arm) && SameArm(log, q, p);
    }
  }

  lemma JoinedStill(log: Log, w: World, w': World, r: Route, p: nat, g0: Pending, open: Option<nat>, q: nat)
    requires WellRouted(log) && Joined(log, w, w', r, p, g0, open) && Ordered(log, w) && Latest(log, w) && Bounds(w)
    requires StillToRun(log, w, q) && Unpassed(log, w, q) && log(q).Some? && Offered(log, w)
    ensures StillToRun(log, w', q)
  {
    JoinedWaits(log, w, w', r, p, g0, open);
    if q <= Front(w) { KeptApart(log, w, w', r, p, g0, open, q); }
    hide Waits, TookGroups, Ordered;
  }

  lemma JoinedResumable(log: Log, w: World, w': World, r: Route, p: nat, g0: Pending, open: Option<nat>)
    requires WellRouted(log) && Joined(log, w, w', r, p, g0, open) && Ordered(log, w) && Latest(log, w) && Bounds(w)
    requires Resumable(log, w) && Offered(log, w)
    ensures Resumable(log, w')
  {
    JoinedBeside(log, w, w', r, p, g0, open);
    assert w'.invoked == w.invoked;
    hide Joined, StillToRun, Ordered, Latest, Bounds, Offered;
    forall q | q in w.invoked && q !in w.terminal ensures Unpassed(log, w', q) && StillToRun(log, w', q) {
      assert Unpassed(log, w, q);
      JoinedStill(log, w, w', r, p, g0, open, q);
    }
  }

  lemma AdmitTame(log: Log, w: World)
    requires WellRouted(log) && TameAt(log, w) && Admits(log, w)
    ensures TameAt(log, Deliver(log, w))
  {
    hide *;
    AdmitsIs(log, w);
    var r := log(w.cursor + 1).value;
    var w', p, g0, open := Deliver(log, w), w.cursor + 1, Queues(w.s, r, w.cursor + 1), OpenOf(w.s, r);
    TameParts(log, w);
    Parts(log, w);
    AdmitAlways(log, w);
    AdmissionJoins(log, w);
    JoinedSame(log, w, w', r, p, g0, open);
    JoinedTame(log, w, w', r, p, g0, open);
    JoinedRanked(log, w, w', r, p, g0, open);
    JoinedResumable(log, w, w', r, p, g0, open);
    TameWhole(log, w');
  }

  lemma JoinedSame(log: Log, w: World, w': World, r: Route, p: nat, g0: Pending, open: Option<nat>)
    requires Joined(log, w, w', r, p, g0, open)
    ensures w'.terminal == w.terminal && w'.invoked == w.invoked
  {
  }

  lemma TameParts(log: Log, w: World)
    requires TameAt(log, w)
    ensures Always(log, w) && Ahead(log, w) && EndedBelow(w) && Latest(log, w)
    ensures Resumable(log, w) && Ranked(log, w) && RowsRead(w)
  {
  }

  lemma TameWhole(log: Log, w: World)
    requires Always(log, w) && Ahead(log, w) && EndedBelow(w) && Latest(log, w)
    requires Resumable(log, w) && Ranked(log, w) && RowsRead(w)
    ensures TameAt(log, w)
  {
  }

  lemma SkipResumable(log: Log, w: World, w': World)
    requires w' == w.(cursor := w.cursor + 1, seen := Max(w.seen, w.cursor + 1)) && !Admits(log, w)
    requires Resumable(log, w) && Topped(w) && Bounds(w)
    ensures Resumable(log, w')
  {
    forall q | q in w.invoked && q !in w.terminal ensures StillToRun(log, w', q) {
      assert Unpassed(log, w, q) && StillToRun(log, w, q);
      if q <= Front(w) { SameHolds(w, w'); }
    }
  }

  lemma SkipTame(log: Log, w: World)
    requires WellRouted(log) && TameAt(log, w) && !Admits(log, w)
    ensures TameAt(log, Deliver(log, w))
  {
    var w' := Deliver(log, w);
    assert w' == w.(cursor := w.cursor + 1, seen := Max(w.seen, w.cursor + 1));
    SkipAlways(log, w);
    assert Topped(w) && Bounds(w);
    SkipResumable(log, w, w');
    hide Always, Resumable, Deliver;
    SkipRanked(log, w, w');
  }

  lemma SkipRanked(log: Log, w: World, w': World)
    requires w' == w.(cursor := w.cursor + 1, seen := Max(w.seen, w.cursor + 1)) && Ranked(log, w)
    ensures Ranked(log, w')
  {
    forall l, g | Holds(w'.s, l, g) && g.hi !in w'.terminal ensures Newer(log, w', l, g.hi) {
      assert Holds(w.s, l, g) && Newer(log, w, l, g.hi);
    }
  }

  lemma {:induction false} DeliverToTame(log: Log, w: World, to: nat)
    requires WellRouted(log) && TameAt(log, w)
    ensures TameAt(log, DeliverTo(log, w, to)) && DeliverTo(log, w, to).cursor == Max(w.cursor, to)
    decreases if w.cursor < to then to - w.cursor else 0
  {
    hide TameAt, WellRouted;
    if w.cursor < to {
      if Admits(log, w) { AdmitTame(log, w); } else { SkipTame(log, w); }
      DeliverToTame(log, Deliver(log, w), to);
    }
  }

  // ----- every step --------------------------------------------------------

  /** The same queues, no more forgotten and no more open, and no more promised. */
  ghost predicate SameWork(w: World, w': World) {
    && w'.s.queues == w.s.queues && w'.s.high == w.s.high && w'.s.blind == w.s.blind && w'.s.begun == w.s.begun
    && (forall key :: key in w'.s.latest ==> key in w.s.latest && w'.s.latest[key] == w.s.latest[key])
    && w'.mark == w.mark && (w'.cursor == w.cursor || w'.cursor == w.mark) && Front(w') == Front(w)
    && w'.baseRows == w.baseRows && w'.seen == w.seen && w'.retired == w.retired && w'.owing <= w.owing
    && (forall l :: l in w'.table ==> l in w.table && w'.table[l] == w.table[l])
    && w'.invoked == w.invoked && w.terminal <= w'.terminal
  }

  lemma KeepsOpenWork(log: Log, w: World, w': World)
    requires SameWork(w, w') && Ahead(log, w) && EndedBelow(w) && Latest(log, w) && RowsRead(w)
    ensures Ahead(log, w') && EndedBelow(w') && Latest(log, w') && RowsRead(w')
  {
    SameHolds(w, w');
    hide Front, Holds;
  }

  lemma KeepsResumable(log: Log, w: World, w': World)
    requires SameWork(w, w') && Resumable(log, w) && w'.terminal <= w.invoked
    ensures Resumable(log, w')
  {
    SameHolds(w, w');
    hide Front, IsQueued;
    forall p | p in w.invoked && p !in w'.terminal ensures Unpassed(log, w', p) && StillToRun(log, w', p) {
      assert Unpassed(log, w, p) && StillToRun(log, w, p);
    }
  }

  lemma KeepsRanked(log: Log, w: World, w': World)
    requires SameWork(w, w') && Ranked(log, w)
    ensures Ranked(log, w')
  {
    SameHolds(w, w');
    hide Front, Holds;
    forall l, g | Holds(w'.s, l, g) && g.hi !in w'.terminal ensures Newer(log, w', l, g.hi) {
      assert Newer(log, w, l, g.hi);
    }
  }

  lemma KeepsTame(log: Log, w: World, w': World)
    requires TameAt(log, w) && SameWork(w, w') && w'.terminal <= w.invoked && Always(log, w')
    ensures TameAt(log, w')
  {
    hide *;
    TameParts(log, w);
    KeepsOpenWork(log, w, w');
    KeepsResumable(log, w, w');
    KeepsRanked(log, w, w');
    TameWhole(log, w');
  }

  predicate Still(step: Step) {
    || step.Resubscribe? || step.Take? || step.TakeHead? || step.Finish? || step.GiveBack?
    || step.Park? || step.PromoteDue? || step.PromoteSkips? || step.SweepTo?
  }

  lemma StillSame(log: Log, w: World, step: Step)
    requires Still(step) && Bounds(w) && w.cursor <= w.s.scanned && w.terminal <= w.invoked && Enabled(log, w, step)
    ensures SameWork(w, Next(log, w, step)) && Next(log, w, step).terminal <= w.invoked
  {
    hide Next, Enabled, SameWork, Bounds;
    if step.Resubscribe? || step.Finish? || step.SweepTo? {
      RecordsSame(log, w, step);
    } else if step.TakeHead? {
      HeadSame(log, w, step.lane);
    } else {
      MovesPlaces(log, w, step);
      PlacesSame(w, Next(log, w, step).s);
    }
  }

  lemma RecordsSame(log: Log, w: World, step: Step)
    requires step.Resubscribe? || step.Finish? || step.SweepTo?
    requires Bounds(w) && w.cursor <= w.s.scanned && w.terminal <= w.invoked && Enabled(log, w, step)
    ensures SameWork(w, Next(log, w, step)) && Next(log, w, step).terminal <= w.invoked
  {
    var w' := Next(log, w, step);
    assert if step.Resubscribe? then w' == w.(cursor := w.mark, s := SetScanned(w.s, w.mark))
      else if step.Finish? then w' == w.(terminal := w.terminal + {w.handed[step.lane].position})
      else w' == w.(table := Above(w.table, step.to), s := PruneRows(w.s, step.to)) by { hide Bounds; }
    assert step.Finish? ==> w.handed[step.lane].position in w.invoked;
    hide Next, Enabled;
  }

  lemma HeadSame(log: Log, w: World, lane: LaneId)
    ensures SameWork(w, Next(log, w, TakeHead(lane))) && Next(log, w, TakeHead(lane)).terminal == w.terminal
  {
    var w' := HeadTaken(w, lane);
    assert Next(log, w, TakeHead(lane)) == w';
    hide Next;
  }

  lemma PlacesSame(w: World, s: Lanes)
    requires s == w.s.(place := s.place, deferred := s.deferred, skipPromoted := s.skipPromoted)
    ensures SameWork(w, w.(s := s))
  {
  }

  lemma StillTame(log: Log, w: World, step: Step)
    requires WellRouted(log) && Tame(log, w) && Still(step) && Enabled(log, w, step)
    ensures Tame(log, Next(log, w, step))
  {
    TameInv(log, w);
    hide AlwaysInv, Enabled, Next;
    StepAlways(log, w, step);
    assert Bounds(w) && w.terminal <= w.invoked;
    hide TameAt, Still;
    StillSame(log, w, step);
    InvIs(log, Next(log, w, step));
    KeepsTame(log, w, Next(log, w, step));
  }

  lemma TameInv(log: Log, w: World)
    requires Tame(log, w)
    ensures AlwaysInv(log, w) && TameAt(log, w)
  {
  }

  lemma TameAgain(log: Log, w: World)
    requires TameAt(log, w) && AlwaysInv(log, w)
    ensures Tame(log, w)
  {
  }

  /** The work a lane has out may begin: it is above the mark and its row, and no longer open. */
  lemma OutRuns(log: Log, w: World, lane: LaneId)
    requires Ordered(log, w) && Near(w) && Frozen(w) && EndedBelow(w) && Latest(log, w) && Ranked(log, w) && Bounds(w)
    requires lane in w.handed
    ensures
      var h := w.handed[lane].position;
      log(h).Some? && h <= w.seen && (h !in w.terminal ==> Unpassed(log, w, h) && StillToRun(log, w, h))
  {
    var g := w.s.queues[lane][0];
    assert Holds(w.s, lane, g) && OnArm(log, g.hi, lane, g.arm);
    if g.hi !in w.terminal { assert Newer(log, w, lane, g.hi); }
  }

  lemma BeginTame(log: Log, w: World, lane: LaneId)
    requires WellRouted(log) && Tame(log, w) && Enabled(log, w, Begin(lane))
    ensures Tame(log, Next(log, w, Begin(lane)))
  {
    var w' := w.(invoked := w.invoked + {w.handed[lane].position});
    assert Next(log, w, Begin(lane)) == w';
    TameInv(log, w);
    hide AlwaysInv, Enabled, Next;
    StepAlways(log, w, Begin(lane));
    InvIs(log, w');
    TameParts(log, w);
    Parts(log, w);
    hide Always, TameAt;
    OutRuns(log, w, lane);
    BeginResumable(log, w, w', w.handed[lane].position);
    hide Frozen, Ordered, Near, Topped, Accounted, Offered, OwesDone, NothingLost, Bounds;
    BeginRest(log, w, w');
    TameWhole(log, w');
  }

  lemma BeginRest(log: Log, w: World, w': World)
    requires w' == w.(invoked := w'.invoked)
    requires Ahead(log, w) && EndedBelow(w) && Latest(log, w) && RowsRead(w) && Ranked(log, w)
    ensures Ahead(log, w') && EndedBelow(w') && Latest(log, w') && RowsRead(w') && Ranked(log, w')
  {
    forall l, g | Holds(w'.s, l, g) && g.hi !in w'.terminal ensures Newer(log, w', l, g.hi) {
      assert Holds(w.s, l, g) && Newer(log, w, l, g.hi);
    }
  }

  lemma BeginResumable(log: Log, w: World, w': World, h: nat)
    requires w' == w.(invoked := w.invoked + {h}) && Resumable(log, w) && log(h).Some? && h <= w.seen
    requires h !in w.terminal ==> Unpassed(log, w, h) && StillToRun(log, w, h)
    ensures Resumable(log, w')
  {
    forall p: nat | StillToRun(log, w, p) ensures StillToRun(log, w', p) { SameHolds(w, w'); }
    hide StillToRun;
  }

  lemma PublishTame(log: Log, w: World, to: nat)
    requires WellRouted(log) && Tame(log, w) && Enabled(log, w, Publish(to))
    ensures Tame(log, Next(log, w, Publish(to)))
  {
    var w' := w.(mark := to);
    assert Next(log, w, Publish(to)) == w';
    TameInv(log, w);
    hide AlwaysInv, Next;
    StepAlways(log, w, Publish(to));
    InvIs(log, w');
    TameParts(log, w);
    Parts(log, w);
    AllAboveMark(log, w, to);
    MarkBelow(w.s);
    hide Always, TameAt, Enabled, LowWater, Ordered, Low, Near, Topped, Accounted, OwesDone, NothingLost, Frozen;
    PublishRest(log, w, w');
    TameWhole(log, w');
  }

  /** Everything queued is above a mark that may be published. */
  lemma AllAboveMark(log: Log, w: World, to: nat)
    requires WellRouted(log) && Ordered(log, w) && Low(log, w) && to <= LowWater(w.s)
    ensures forall l, g :: Holds(w.s, l, g) ==> to < g.lo <= g.hi
  {
    MarkBelow(w.s);
    hide LowWater;
    forall l, g | Holds(w.s, l, g) ensures to < g.lo <= g.hi { assert OnArm(log, g.lo, l, g.arm); }
  }

  lemma PublishRest(log: Log, w: World, w': World)
    requires w' == w.(mark := w'.mark) && w.mark <= w'.mark <= Front(w)
    requires forall l, g :: Holds(w.s, l, g) ==> w'.mark < g.lo <= g.hi
    requires Ahead(log, w) && EndedBelow(w) && Latest(log, w) && RowsRead(w) && Ranked(log, w) && Resumable(log, w)
    requires Offered(log, w)
    ensures Ahead(log, w') && EndedBelow(w') && Latest(log, w') && RowsRead(w') && Ranked(log, w') && Resumable(log, w')
  {
    SameHolds(w, w');
    forall l, g | Holds(w'.s, l, g) && g.hi !in w'.terminal ensures Newer(log, w', l, g.hi) {
      assert Holds(w.s, l, g) && Newer(log, w, l, g.hi);
    }
    forall p | p in w.invoked && p !in w.terminal ensures Unpassed(log, w', p) && StillToRun(log, w', p) {
      assert Unpassed(log, w, p) && StillToRun(log, w, p);
    }
  }

  lemma ForgetTame(log: Log, w: World, to: nat)
    requires WellRouted(log) && Tame(log, w) && Enabled(log, w, ForgetTo(to)) && Harmless(log, w, to)
    ensures Tame(log, Next(log, w, ForgetTo(to)))
  {
    hide *;
    var w' := w.(s := Forget(w.s, to));
    ForgetIs(log, w, to);
    TameInv(log, w);
    TameParts(log, w);
    Parts(log, w);
    ForgetAlways(log, w, to);
    InvIs(log, w');
    ForgetAhead(log, w, to);
    ForgetRest(log, w, w', to);
    TameWhole(log, w');
    TameAgain(log, w');
  }

  lemma ForgetIs(log: Log, w: World, to: nat)
    requires Enabled(log, w, ForgetTo(to))
    ensures Next(log, w, ForgetTo(to)) == w.(s := Forget(w.s, to)) && to <= w.mark
  {
  }

  lemma ForgetAhead(log: Log, w: World, to: nat)
    requires Ahead(log, w) && Harmless(log, w, to)
    ensures Ahead(log, w.(s := Forget(w.s, to)))
  {
    var w' := w.(s := Forget(w.s, to));
    forall p: nat | w.cursor < p <= w.mark && log(p).Some? && p !in w.terminal
      ensures AlreadyOffered(w'.s, log(p).value.lane, p)
    {
      if p <= to { assert !Unguarded(log, w, to, p); }
    }
  }

  lemma ForgetRest(log: Log, w: World, w': World, to: nat)
    requires w' == w.(s := Forget(w.s, to)) && to <= w.mark && Bounds(w)
    requires EndedBelow(w) && Latest(log, w) && RowsRead(w) && Ranked(log, w) && Resumable(log, w)
    ensures EndedBelow(w') && Latest(log, w') && RowsRead(w') && Ranked(log, w') && Resumable(log, w')
  {
    SameHolds(w, w');
    forall l, g | Holds(w'.s, l, g) && g.hi !in w'.terminal ensures Newer(log, w', l, g.hi) {
      assert Holds(w.s, l, g) && Newer(log, w, l, g.hi);
    }
    forall p | p in w.invoked && p !in w.terminal ensures Unpassed(log, w', p) && StillToRun(log, w', p) {
      assert Unpassed(log, w, p) && StillToRun(log, w, p);
    }
  }

  lemma CrashTame(log: Log, w: World, begun: set<nat>, blind: bool)
    requires WellRouted(log) && Tame(log, w) && ReadsBack(log, w, begun, blind)
    ensures Tame(log, Next(log, w, Crash(begun, blind)))
  {
    var w' := Resumed(w, begun, blind);
    assert Next(log, w, Crash(begun, blind)) == w';
    TameInv(log, w);
    hide AlwaysInv, Next;
    CrashAlways(log, w, begun, blind);
    InvIs(log, w');
    TameParts(log, w);
    hide Always, TameAt;
    CrashResumable(log, w, begun, blind);
    hide Resumable;
    TameWhole(log, w');
  }

  lemma CrashResumable(log: Log, w: World, begun: set<nat>, blind: bool)
    requires Resumable(log, w) && ReadsBack(log, w, begun, blind)
    ensures Resumable(log, Resumed(w, begun, blind))
  {
    var w' := Resumed(w, begun, blind);
    forall p | p in w.invoked && p !in w.terminal ensures Unpassed(log, w', p) && StillToRun(log, w', p) {
      assert Unpassed(log, w, p);
    }
  }

  lemma RetireTame(log: Log, w: World, lane: LaneId)
    requires WellRouted(log) && Tame(log, w) && Enabled(log, w, Retire(lane))
    ensures Tame(log, Next(log, w, Retire(lane)))
  {
    var w' := Next(log, w, Retire(lane));
    TameInv(log, w);
    TameParts(log, w);
    Parts(log, w);
    hide Always, TameAt, AlwaysInv, Next, Retires, RetiresBeside, RetiresGroup;
    StepAlways(log, w, Retire(lane));
    InvIs(log, w');
    OutIsHead(log, w, lane);
    var g := w.s.queues[lane][0];
    RetiresFields(w, w', lane, g);
    assert g.hi <= Front(w) by { assert Holds(w.s, lane, g); }
    hide Ordered, Low, Topped, Accounted, Offered, OwesDone, NothingLost, Bounds, Frozen, Near, Enabled;
    RetireRest(log, w, w', lane, g);
    RetireRanked(log, w, w', lane, g);
    RetireResumable(log, w, w', lane, g);
    TameWhole(log, w');
  }

  lemma RetireRest(log: Log, w: World, w': World, lane: LaneId, g: Pending)
    requires RetiresBeside(w, w') && RetiresGroup(w, w', lane, g) && g.hi <= Front(w)
    requires Ahead(log, w) && EndedBelow(w) && Latest(log, w) && RowsRead(w)
    ensures Ahead(log, w') && EndedBelow(w') && Latest(log, w') && RowsRead(w')
  {
    hide Front, Floor;
  }

  lemma RetireRanked(log: Log, w: World, w': World, lane: LaneId, g: Pending)
    requires RetiresBeside(w, w') && RetiresGroup(w, w', lane, g) && OnArm(log, g.hi, lane, g.arm) && Ranked(log, w)
    requires lane in w.s.queues && w.s.queues[lane] != [] && w.s.queues[lane][0] == g && Increasing(w.s.queues[lane])
    ensures Ranked(log, w')
  {
    hide Front, Floor;
    forall l, h | Holds(w'.s, l, h) && h.hi !in w'.terminal ensures Newer(log, w', l, h.hi) {
      assert Holds(w.s, l, h) && Newer(log, w, l, h.hi);
      if l == lane {
        var i :| 0 <= i < |w.s.queues[lane]| && w.s.queues[lane][i] == h;
        assert i != 0;
      }
    }
  }

  lemma RetireResumable(log: Log, w: World, w': World, lane: LaneId, g: Pending)
    requires RetiresBeside(w, w') && RetiresGroup(w, w', lane, g) && g.hi in w.terminal && Resumable(log, w)
    ensures Resumable(log, w')
  {
    hide Front, Floor;
    forall p | p in w.invoked && p !in w.terminal ensures Unpassed(log, w', p) && StillToRun(log, w', p) {
      assert Unpassed(log, w, p) && StillToRun(log, w, p);
      if p <= Front(w) {
        var h :| Holds(w.s, log(p).value.lane, h) && h.hi == p;
        assert Holds(w'.s, log(p).value.lane, h);
      }
    }
  }

  lemma SaveTame(log: Log, w: World, lane: LaneId, position: nat)
    requires WellRouted(log) && Tame(log, w) && Enabled(log, w, SaveRow(lane, position))
    ensures Tame(log, Next(log, w, SaveRow(lane, position)))
  {
    var w' := RowSaved(w, lane, position);
    assert Next(log, w, SaveRow(lane, position)) == w' && (lane, position) in w.owing;
    hide *;
    TameInv(log, w);
    TameParts(log, w);
    Parts(log, w);
    SaveAlways(log, w, lane, position);
    InvIs(log, w');
    SaveOther(log, w, w', lane, position);
    SaveRanked(log, w, w', lane, position);
    SaveResumable(log, w, w', lane, position);
    TameWhole(log, w');
    TameAgain(log, w');
  }

  lemma SaveOther(log: Log, w: World, w': World, lane: LaneId, position: nat)
    requires w' == RowSaved(w, lane, position) && (lane, position) in w.owing
    requires Ahead(log, w) && EndedBelow(w) && Latest(log, w) && RowsRead(w)
    ensures Ahead(log, w') && EndedBelow(w') && Latest(log, w') && RowsRead(w')
  {
    SameHolds(w, w');
    assert (lane, position).1 <= Front(w);
  }

  lemma SaveRanked(log: Log, w: World, w': World, lane: LaneId, position: nat)
    requires w' == RowSaved(w, lane, position) && (lane, position) in w.owing && Ranked(log, w) && Ordered(log, w)
    ensures Ranked(log, w')
  {
    forall l, g | Holds(w'.s, l, g) && g.hi !in w'.terminal ensures Newer(log, w', l, g.hi) {
      assert Holds(w.s, l, g) && Newer(log, w, l, g.hi) && OnArm(log, g.hi, l, g.arm);
      assert (lane, position).0 == l ==> (lane, position).1 < g.hi;
    }
  }

  lemma SaveResumable(log: Log, w: World, w': World, lane: LaneId, position: nat)
    requires w' == RowSaved(w, lane, position) && (lane, position) in w.owing
    requires Ranked(log, w) && Resumable(log, w) && RowsRead(w)
    ensures Resumable(log, w')
  {
    SameHolds(w, w');
    forall p | p in w.invoked && p !in w.terminal ensures Unpassed(log, w', p) && StillToRun(log, w', p) {
      assert Unpassed(log, w, p) && StillToRun(log, w, p);
      if p <= Front(w) {
        var g :| Holds(w.s, log(p).value.lane, g) && g.hi == p;
        assert Newer(log, w, log(p).value.lane, g.hi);
      }
      assert (lane, position).0 == log(p).value.lane ==> (lane, position).1 < p;
    }
  }

  lemma ReadTame(log: Log, w: World, to: nat)
    requires WellRouted(log) && Tame(log, w) && w.cursor <= to
    ensures Tame(log, Next(log, w, Read(to)))
  {
    TameInv(log, w);
    hide AlwaysInv, Tame;
    ReadAlways(log, w, to);
    DeliverToTame(log, w, to);
    var read := DeliverTo(log, w, to);
    var w' := Next(log, w, Read(to));
    assert w' == read.(s := SetScanned(read.s, to));
    hide Next, DeliverTo;
    assert SameWork(read, w');
    InvIs(log, w');
    assert read.terminal <= read.invoked by { TameParts(log, read); }
    hide TameAt, SameWork;
    KeepsTame(log, read, w');
    TameAgain(log, w');
  }

  // ----- every tame run ----------------------------------------------------

  lemma BootTame(log: Log)
    requires WellRouted(log)
    ensures Tame(log, Boot())
  {
    BootAlways(log);
    InvIs(log, Boot());
    hide Always, AlwaysInv;
  }

  /** Each forget is harmless where it is taken. */
  ghost predicate Mild(log: Log, w: World, step: Step) {
    step.ForgetTo? ==> Harmless(log, w, step.to)
  }

  lemma StepTame(log: Log, w: World, step: Step)
    requires WellRouted(log) && Tame(log, w) && Enabled(log, w, step) && Mild(log, w, step)
    ensures Tame(log, Next(log, w, step))
  {
    hide Tame, LowWater, Harmless;
    match step
    case Read(to) => ReadTame(log, w, to);
    case Begin(lane) => BeginTame(log, w, lane);
    case Retire(lane) => RetireTame(log, w, lane);
    case SaveRow(lane, position) => SaveTame(log, w, lane, position);
    case Publish(to) => PublishTame(log, w, to);
    case ForgetTo(to) => ForgetTame(log, w, to);
    case Crash(begun, blind) => CrashTame(log, w, begun, blind);
    case _ => StillTame(log, w, step);
  }

  ghost predicate TameRun(log: Log, w: World, run: seq<Step>)
    decreases |run|
  {
    run == [] || (Enabled(log, w, run[0]) && Mild(log, w, run[0]) && TameRun(log, Next(log, w, run[0]), run[1..]))
  }

  lemma {:induction false} RunTame(log: Log, w: World, run: seq<Step>)
    requires WellRouted(log) && Tame(log, w) && TameRun(log, w, run)
    ensures Tame(log, After(log, w, run))
    decreases |run|
  {
    if run != [] {
      hide Tame, Enabled, Next, Mild;
      StepTame(log, w, run[0]);
      RunTame(log, Next(log, w, run[0]), run[1..]);
    }
  }
}
