/** A collapsing arm really collapses: what `src/lanes.rs` queues for one lane and arm stays one invocation
    for as long as no worker was handed it, over every run of the scheduler. */
module LaneCollapse {
  import opened Options
  import opened LaneSpec
  import opened LaneRuns
  import opened LaneInvariants
  import opened LaneSteps
  import opened LaneDurability

  /** The group that answers for `p` can still be taken over, and nothing the last process left begun is
      still to come on its arm. */
  ghost predicate Takes(log: Log, w: World, lane: LaneId, arm: nat, p: nat) {
    && p in w.owner && OnArm(log, p, lane, arm) && !w.s.blind
    && (lane, arm) in w.s.latest && w.s.latest[(lane, arm)] == w.owner[p]
    && forall x :: x in w.s.begun && OnArm(log, x, lane, arm) ==> x <= p
  }

  /** The step hands no worker the work that answers for `p`, and the process lives on. */
  ghost predicate Spares(w: World, step: Step, lane: LaneId, p: nat) {
    && !step.Crash?
    && (step == TakeHead(lane) && QueueOf(w.s, lane) != [] ==> QueueOf(w.s, lane)[0].hi < p)
  }

  ghost predicate SparedBy(log: Log, w: World, run: seq<Step>, lane: LaneId, p: nat)
    decreases |run|
  {
    run == [] || (Spares(w, run[0], lane, p) && SparedBy(log, Next(log, w, run[0]), run[1..], lane, p))
  }

  // ----- one delivery ------------------------------------------------------

  /** The group that is open is in the queue, and it is the one the next of its arm supersedes. */
  lemma OpenIsFound(log: Log, w: World, lane: LaneId, arm: nat, p: nat)
    requires WellRouted(log) && Open(log, w) && Takes(log, w, lane, arm, p)
    ensures Collapses(log, p)
    ensures OpenOf(w.s, Route(lane, arm, true)) == Some(w.owner[p])
  {
    var h := w.s.latest[(lane, arm)];
    assert SameArm(log, p, h);
    var g :| Holds(w.s, lane, g) && g.hi == h && g.arm == arm;
    var at := IndexOf(w.s.queues[lane], h, arm);
    assert at.Some?;
  }

  /** The next position of the arm is answered for by one invocation together with `p`, and nothing more
      goes in flight. */
  lemma DeliverTakesOver(log: Log, w: World, lane: LaneId, arm: nat, p: nat)
    requires WellRouted(log) && Open(log, w) && Takes(log, w, lane, arm, p)
    requires OnArm(log, w.cursor + 1, lane, arm) && !AlreadyOffered(w.s, lane, w.cursor + 1)
    ensures
      var q, w' := w.cursor + 1, Deliver(log, w);
      && p in w'.owner && w'.owner[p] == q && q in w'.owner && w'.owner[q] == q
      && w'.s.inflight == w.s.inflight
  {
    var q := w.cursor + 1;
    OpenIsFound(log, w, lane, arm, p);
    assert SameArm(log, q, p);
    assert log(q).value == Route(lane, arm, true);
    hide Superseded, LatestAfter, Open, AlreadyOffered;
    assert OpenOf(w.s, log(q).value) == Some(w.owner[p]);
  }

  lemma DeliverTakesMore(log: Log, w: World, lane: LaneId, arm: nat, p: nat)
    requires WellRouted(log) && Open(log, w) && Takes(log, w, lane, arm, p)
    requires OnArm(log, w.cursor + 1, lane, arm) && !AlreadyOffered(w.s, lane, w.cursor + 1) && p < w.cursor + 1
    ensures Takes(log, Deliver(log, w), lane, arm, p)
  {
    var q := w.cursor + 1;
    DeliverTakesOver(log, w, lane, arm, p);
    OpenIsFound(log, w, lane, arm, p);
    assert SameArm(log, q, p) && q !in w.s.begun;
    hide Superseded, OpenOf, AlreadyOffered, Open, Reown;
    assert Deliver(log, w).s.latest == w.s.latest[(lane, arm) := q];
  }

  /** What a position of another lane or arm takes over does not answer for `p`. */
  lemma OthersOpen(log: Log, w: World, r: Route, lane: LaneId, arm: nat, p: nat)
    requires Open(log, w) && Ordered(log, w) && Takes(log, w, lane, arm, p)
    requires (r.lane, r.arm) != (lane, arm)
    ensures OpenOf(w.s, r) != Some(w.owner[p])
  {
    var superseded := Superseded(w.s, r.lane, r.arm, r.declared);
    assert OnArm(log, w.s.latest[(lane, arm)], lane, arm);
    if superseded.Some? {
      var g := w.s.queues[r.lane][superseded.value];
      assert Holds(w.s, r.lane, g) && OnArm(log, g.hi, r.lane, r.arm);
    }
  }

  /** A position of another lane or arm touches neither the group nor who answers for `p`. */
  lemma DeliverBeside(log: Log, w: World, lane: LaneId, arm: nat, p: nat)
    requires Open(log, w) && Ordered(log, w) && Takes(log, w, lane, arm, p)
    requires !OnArm(log, w.cursor + 1, lane, arm) && w.cursor + 1 != p
    ensures Takes(log, Deliver(log, w), lane, arm, p)
  {
    var q := w.cursor + 1;
    hide Open, Ordered, Superseded, OpenOf;
    if log(q).Some? && !AlreadyOffered(w.s, log(q).value.lane, q) {
      var r := log(q).value;
      OthersOpen(log, w, r, lane, arm, p);
      ReownsOthers(w.owner, OpenOf(w.s, r), q, p);
      LatestBeside(w.s, r, q, (lane, arm));
      hide Reown, LatestAfter;
      assert Deliver(log, w).owner == Reown(w.owner, OpenOf(w.s, r), q);
      assert Deliver(log, w).s.latest == LatestAfter(w.s, r.lane, q, r.arm, r.declared);
    }
  }

  lemma ReownsOthers(owner: map<nat, nat>, open: Option<nat>, q: nat, p: nat)
    requires p in owner && open != Some(owner[p]) && p != q
    ensures p in Reown(owner, open, q) && Reown(owner, open, q)[p] == owner[p]
  {
  }

  lemma LatestBeside(s: Lanes, r: Route, q: nat, key: (LaneId, nat))
    requires key in s.latest && key != (r.lane, r.arm)
    ensures
      var latest := LatestAfter(s, r.lane, q, r.arm, r.declared);
      key in latest && latest[key] == s.latest[key]
  {
  }

  lemma ReadBefore(log: Log, w: World, p: nat)
    requires Owned(w) && Guarded(log, w) && p in w.owner
    ensures p <= Front(w)
    ensures
      var q := w.cursor + 1;
      log(q).Some? && q <= Front(w) ==> AlreadyOffered(w.s, log(q).value.lane, q)
  {
  }

  lemma DeliverSpares(log: Log, w: World, lane: LaneId, arm: nat, p: nat)
    requires WellRouted(log) && Inside(log, w) && Takes(log, w, lane, arm, p)
    ensures Takes(log, Deliver(log, w), lane, arm, p)
  {
    hide Ordered, Owned, Answered, Ranged, Apart, Inflight, Open, Unfolded, Guarded, Seeded, ReadThrough, Marked,
      Frozen, Ascending, NothingLost, NothingAbandoned, Front, WellRouted, Superseded;
    var q := w.cursor + 1;
    ReadBefore(log, w, p);
    hide Inside;
    if OnArm(log, q, lane, arm) {
      hide Deliver;
      if AlreadyOffered(w.s, lane, q) {
        DeliverNothing(log, w);
      } else {
        DeliverTakesMore(log, w, lane, arm, p);
      }
    } else {
      hide Deliver;
      DeliverBeside(log, w, lane, arm, p);
    }
  }

  lemma DeliverNothing(log: Log, w: World)
    requires log(w.cursor + 1).Some? && AlreadyOffered(w.s, log(w.cursor + 1).value.lane, w.cursor + 1)
    ensures Deliver(log, w) == w.(cursor := w.cursor + 1, seen := Max(w.seen, w.cursor + 1))
  {
  }

  lemma {:induction false} DeliverToSpares(log: Log, w: World, to: nat, lane: LaneId, arm: nat, p: nat)
    requires WellRouted(log) && Inside(log, w) && Takes(log, w, lane, arm, p)
    ensures Takes(log, DeliverTo(log, w, to), lane, arm, p)
    decreases if w.cursor < to then to - w.cursor else 0
  {
    hide Inside, Takes;
    if w.cursor < to {
      DeliverInside(log, w);
      DeliverSpares(log, w, lane, arm, p);
      hide Deliver;
      DeliverToSpares(log, Deliver(log, w), to, lane, arm, p);
    }
  }

  // ----- every run ---------------------------------------------------------

  lemma StepSpares(log: Log, w: World, step: Step, lane: LaneId, arm: nat, p: nat)
    requires WellRouted(log) && Inv(log, w) && Enabled(log, w, step) && Takes(log, w, lane, arm, p)
    requires Spares(w, step, lane, p)
    ensures Takes(log, Next(log, w, step), lane, arm, p)
  {
    hide Ordered, Owned, Answered, Ranged, Apart, Inflight, Open, Unfolded, Guarded, Seeded, ReadThrough, Marked,
      Frozen, Ascending, NothingLost, NothingAbandoned, Takes, WellRouted;
    match step
    case Read(to) => DeliverToSpares(log, w, to, lane, arm, p); ReadIs(log, w, to, lane, arm, p);
    case TakeHead(l) => TakeHeadSpares(log, w, l, lane, arm, p);
    case Retire(l) => RetireSpares(log, w, l, lane, arm, p);
    case _ => QuietSpares(log, w, step, lane, arm, p);
  }

  lemma ReadIs(log: Log, w: World, to: nat, lane: LaneId, arm: nat, p: nat)
    requires Takes(log, DeliverTo(log, w, to), lane, arm, p)
    ensures Takes(log, Next(log, w, Read(to)), lane, arm, p)
  {
    hide DeliverTo;
  }

  lemma QuietSpares(log: Log, w: World, step: Step, lane: LaneId, arm: nat, p: nat)
    requires Takes(log, w, lane, arm, p)
    requires !step.Read? && !step.TakeHead? && !step.Retire? && !step.Crash?
    ensures Takes(log, Next(log, w, step), lane, arm, p)
  {
    hide OnArm;
  }

  lemma TakeHeadSpares(log: Log, w: World, l: LaneId, lane: LaneId, arm: nat, p: nat)
    requires Owned(w) && Takes(log, w, lane, arm, p) && Spares(w, TakeHead(l), lane, p)
    ensures Takes(log, Next(log, w, TakeHead(l)), lane, arm, p)
  {
    assert p <= w.owner[p];
  }

  /** What a worker has out is no group that is open. */
  lemma RetireSpares(log: Log, w: World, l: LaneId, lane: LaneId, arm: nat, p: nat)
    requires Frozen(w) && Takes(log, w, lane, arm, p)
    ensures Takes(log, Next(log, w, Retire(l)), lane, arm, p)
  {
  }

  lemma {:induction false} RunSpares(log: Log, w: World, run: seq<Step>, lane: LaneId, arm: nat, p: nat)
    requires WellRouted(log) && Inv(log, w) && Allowed(log, w, run) && Takes(log, w, lane, arm, p)
    requires SparedBy(log, w, run, lane, p)
    ensures Inv(log, After(log, w, run)) && Takes(log, After(log, w, run), lane, arm, p)
    decreases |run|
  {
    hide Inv, Enabled, Next, Safe, Takes, Spares;
    if run != [] {
      StepKeeps(log, w, run[0]);
      StepSpares(log, w, run[0], lane, arm, p);
      RunSpares(log, Next(log, w, run[0]), run[1..], lane, arm, p);
    }
  }

  /** A position of a collapsing arm, admitted by a process that reads its journal, is open to be taken over. */
  lemma AdmittedOpen(log: Log, w: World)
    requires
      var p := w.cursor + 1;
      && Collapses(log, p) && !w.s.blind && !AlreadyOffered(w.s, log(p).value.lane, p)
      && forall x :: x in w.s.begun && SameArm(log, x, p) ==> x < p
    ensures
      var p := w.cursor + 1;
      Takes(log, Next(log, w, Read(p)), log(p).value.lane, log(p).value.arm, p)
  {
    var p := w.cursor + 1;
    var r := log(p).value;
    assert DeliverTo(log, w, p) == Deliver(log, w);
    assert SameArm(log, p, p);
    hide Superseded, AlreadyOffered, OpenOf;
    assert Deliver(log, w).s.latest == w.s.latest[(r.lane, r.arm) := p];
  }

  /** The next of an arm that is open is read as one invocation with what is open. */
  lemma ReadTakesOver(log: Log, w: World, lane: LaneId, arm: nat, p: nat)
    requires WellRouted(log) && Inv(log, w) && Takes(log, w, lane, arm, p)
    requires OnArm(log, w.cursor + 1, lane, arm) && !AlreadyOffered(w.s, lane, w.cursor + 1)
    ensures
      var q, w' := w.cursor + 1, Next(log, w, Read(w.cursor + 1));
      && p in w'.owner && w'.owner[p] == q && q in w'.owner && w'.owner[q] == q
      && w'.s.inflight == w.s.inflight
  {
    hide *;
    OpenParts(log, w);
    ReadsOne(log, w);
    DeliverTakesOver(log, w, lane, arm, p);
  }

  lemma OpenParts(log: Log, w: World)
    requires Inv(log, w)
    ensures Open(log, w)
  {
  }

  lemma ReadsOne(log: Log, w: World)
    ensures
      var read := Next(log, w, Read(w.cursor + 1));
      read.owner == Deliver(log, w).owner && read.s.inflight == Deliver(log, w).s.inflight
  {
    assert DeliverTo(log, w, w.cursor + 1) == Deliver(log, w) by { DeliverNext(log, w); hide Deliver; }
    hide Deliver, DeliverTo;
  }

  lemma DeliverNext(log: Log, w: World)
    ensures Deliver(log, w).cursor == w.cursor + 1
  {
    hide AlreadyOffered, OpenOf, Superseded;
  }

  /** What a process admits next can be collapsed: its arm is declared, the journal could be read, and no
      later position of the arm was left begun by the process before. */
  ghost predicate Collapsible(log: Log, w: World, p: nat) {
    && p == w.cursor + 1 && Collapses(log, p) && !w.s.blind && !AlreadyOffered(w.s, log(p).value.lane, p)
    && forall x :: x in w.s.begun && SameArm(log, x, p) ==> x < p
  }

  /** A burst is one invocation. Whatever else the scheduler does meanwhile, two admitted positions of a
      collapsing arm of one lane are answered for by one run, of the newer, and are one entry in flight,
      unless a worker was handed the older one's work first or the process ended. */
  lemma BurstIsOne(log: Log, w: World, p: nat, run: seq<Step>, w': World, q: nat)
    requires WellRouted(log) && Inv(log, w) && Collapsible(log, w, p)
    requires Allowed(log, Next(log, w, Read(p)), run) && w' == After(log, Next(log, w, Read(p)), run)
    requires SparedBy(log, Next(log, w, Read(p)), run, log(p).value.lane, p)
    requires q == w'.cursor + 1 && SameArm(log, q, p) && !AlreadyOffered(w'.s, log(p).value.lane, q)
    ensures
      var after := Next(log, w', Read(q));
      && p in after.owner && after.owner[p] == q && q in after.owner && after.owner[q] == q
      && after.s.inflight == w'.s.inflight
  {
    hide Inv, Next, Allowed, SparedBy, After, WellRouted, Takes, AlreadyOffered;
    AdmittedOpen(log, w);
    ReadKept(log, w, p);
    RunSpares(log, Next(log, w, Read(p)), run, log(p).value.lane, log(p).value.arm, p);
    ReadTakesOver(log, w', log(p).value.lane, log(p).value.arm, p);
  }

  lemma ReadKept(log: Log, w: World, p: nat)
    requires WellRouted(log) && Inv(log, w) && w.cursor <= p
    ensures Inv(log, Next(log, w, Read(p)))
  {
    hide Inv, Next;
    StepKeeps(log, w, Read(p));
  }
}
