/** When forgetting a lane's high-water is safe. A driver that re-subscribes starts again from the
    persisted mark while `forget` already drops every entry the mark has passed, so the mark may
    overtake the new subscription and the guard against redelivery with it. */
module LaneResubscribe {
  import opened Options
  import opened LaneSpec
  import opened LaneRuns
  import opened LaneInvariants
  import opened LaneSteps
  import opened LaneDurability
  import opened LaneAlways
  import opened LaneTame
  import opened LaneTheorems

  lemma SubscribedOnce(log: Log, w: World, step: Step)
    requires w.cursor == w.s.scanned && w.mark <= w.s.scanned && Enabled(log, w, step) && !step.Resubscribe?
    ensures Next(log, w, step).cursor == Next(log, w, step).s.scanned && Safe(log, w, step)
  {
    if Places(step) {
      PlacesInflight(log, w, step);
      hide Wake, Due, Wanted, Skips, DeliverTo, Complete, LowWater;
    } else if step.Read? {
      DeliverFrame(log, w, step.to);
      DeliveredCursor(log, w, step.to);
      hide DeliverTo, LowWater;
    } else if step.Retire? && step.lane in w.handed {
      CompleteInflight(w.s, step.lane, w.handed[step.lane].position);
      hide Complete;
    }
  }

  lemma {:induction false} DeliveredCursor(log: Log, w: World, to: nat)
    ensures DeliverTo(log, w, to).cursor == Max(w.cursor, to)
    decreases if w.cursor < to then to - w.cursor else 0
  {
    if w.cursor < to { DeliveredCursor(log, Deliver(log, w), to); }
  }

  /** A process that never re-subscribes forgets nothing it could be offered again: every run it
      can take keeps the invariant. */
  lemma {:induction false} OneSubscriptionIsSafe(log: Log, w: World, run: seq<Step>)
    requires WellRouted(log) && Inv(log, w) && w.cursor == w.s.scanned && EnabledRun(log, w, run)
    requires forall step :: step in run ==> !step.Resubscribe?
    ensures Allowed(log, w, run) && Inv(log, After(log, w, run))
    decreases |run|
  {
    if run != [] {
      assert run[0] in run && forall step :: step in run[1..] ==> step in run;
      assert w.mark <= w.s.scanned by { assert Marked(w); }
      hide Inv, Enabled, Next, Safe;
      SubscribedOnce(log, w, run[0]);
      StepKeeps(log, w, run[0]);
      OneSubscriptionIsSafe(log, Next(log, w, run[0]), run[1..]);
    }
  }

  // ----- exactly when forgetting is safe -----------------------------------

  /** Nothing at or below `to` is queued. */
  ghost predicate AllAbove(s: Lanes, to: nat) {
    forall l, g :: Holds(s, l, g) ==> to < g.hi
  }

  /** No later read of the same subscription queues a position that was forgotten. */
  ghost predicate NeverReadmits(log: Log, w: World, to: nat) {
    forall n: nat :: w.cursor <= n ==> AllAbove(Next(log, Next(log, w, ForgetTo(to)), Read(n)).s, to)
  }

  lemma SafeNeverReadmits(log: Log, w: World, to: nat)
    requires WellRouted(log) && Inv(log, w) && to <= w.mark && SafeForget(log, w, to)
    ensures NeverReadmits(log, w, to)
  {
    ForgetKeeps(log, w, to);
    var w1 := Next(log, w, ForgetTo(to));
    assert w1.mark == w.mark && w1.cursor == w.cursor;
    hide Inv, SafeForget;
    forall n: nat | w.cursor <= n ensures AllAbove(Next(log, w1, Read(n)).s, to) {
      ReadKeeps(log, w1, n);
      DeliverFrame(log, w1, n);
      AboveMark(log, Next(log, w1, Read(n)));
    }
  }

  lemma AboveMark(log: Log, w: World)
    requires Inv(log, w)
    ensures AllAbove(w.s, w.mark)
  {
    assert Marked(w) && Inflight(w) && Ordered(log, w);
  }

  /** Positions whose lane still guards them are passed over. */
  lemma {:induction false} PassesOver(log: Log, w: World, to: nat)
    requires forall q :: w.cursor < q <= to && log(q).Some? ==> AlreadyOffered(w.s, log(q).value.lane, q)
    ensures DeliverTo(log, w, to).s == w.s && DeliverTo(log, w, to).cursor == Max(w.cursor, to)
    decreases if w.cursor < to then to - w.cursor else 0
  {
    if w.cursor < to { PassesOver(log, Deliver(log, w), to); }
  }

  /** The first position after the cursor whose guard would be forgotten. */
  lemma {:induction false} FirstUnguarded(log: Log, w: World, to: nat, p: nat) returns (first: nat)
    requires w.cursor < p <= to && Unguarded(log, w, to, p)
    ensures w.cursor < first <= to && Unguarded(log, w, to, first)
    ensures forall q :: w.cursor < q < first ==> !Unguarded(log, w, to, q)
  {
    if q: nat :| w.cursor < q < p && Unguarded(log, w, to, q) {
      first := FirstUnguarded(log, w, to, q);
    } else {
      first := p;
    }
  }

  lemma UnsafeReadmits(log: Log, w: World, to: nat, p: nat)
    requires w.cursor < p <= to && Unguarded(log, w, to, p)
    requires forall q :: w.cursor < q < p ==> !Unguarded(log, w, to, q)
    ensures !AllAbove(Next(log, Next(log, w, ForgetTo(to)), Read(p)).s, to)
  {
    var w1 := w.(s := Forget(w.s, to));
    assert Next(log, w, ForgetTo(to)) == w1;
    forall q: nat | w.cursor < q < p && log(q).Some? ensures AlreadyOffered(w1.s, log(q).value.lane, q) {
      assert !Unguarded(log, w, to, q);
    }
    PassesOver(log, w1, p - 1);
    DeliverToSplits(log, w1, p);
    var before := DeliverTo(log, w1, p - 1);
    assert before.s == w1.s && before.cursor + 1 == p && Admits(log, before);
    var read := Next(log, w1, Read(p));
    assert read.s.queues == DeliverTo(log, w1, p).s.queues;
    hide DeliverTo, Deliver, Next;
    DeliverQueues(log, before);
    var l, g :| Holds(Deliver(log, before).s, l, g) && g.hi == p;
    assert Holds(read.s, l, g);
  }

  /** Forgetting up to `to` is safe exactly when every position the subscription may still deliver
      at or below `to` belongs to a lane offered something newer than `to`. In particular it is safe
      up to the subscription's own cursor, and the mark never queues anything twice then. */
  lemma ForgetSafeExactly(log: Log, w: World, to: nat)
    requires WellRouted(log) && Inv(log, w) && to <= w.mark
    ensures SafeForget(log, w, to) <==> NeverReadmits(log, w, to)
    ensures to <= w.cursor ==> SafeForget(log, w, to)
  {
    if SafeForget(log, w, to) {
      SafeNeverReadmits(log, w, to);
    } else {
      hide Inv, Next;
      var p: nat :| w.cursor < p <= to && log(p).Some?
                    && !(log(p).value.lane in w.s.high && w.s.high[log(p).value.lane] > to);
      assert Unguarded(log, w, to, p);
      var first := FirstUnguarded(log, w, to, p);
      UnsafeReadmits(log, w, to, first);
      assert !NeverReadmits(log, w, to);
    }
  }

  // ----- runs acted out scene by scene -------------------------------------

  ghost predicate Follows(log: Log, scene: nat -> World, run: seq<Step>, k: nat)
    requires k < |run|
  {
    Enabled(log, scene(k), run[k]) && Next(log, scene(k), run[k]) == scene(k + 1)
  }

  lemma {:induction false} ScenesFollow(log: Log, scene: nat -> World, run: seq<Step>, k: nat)
    requires k <= |run| && forall i: nat :: k <= i < |run| ==> Follows(log, scene, run, i)
    ensures After(log, scene(k), run[k..]) == scene(|run|)
    ensures EnabledRun(log, scene(k), run[k..])
    decreases |run| - k
  {
    if k < |run| {
      assert Follows(log, scene, run, k);
      hide Next, Enabled;
      assert run[k..][0] == run[k] && run[k..][1..] == run[k + 1..];
      ScenesFollow(log, scene, run, k + 1);
    }
  }

  /** Reading one position further is delivering it. */
  lemma ReadsOne(log: Log, w: World)
    ensures
      var read := Deliver(log, w);
      Next(log, w, Read(w.cursor + 1)) == read.(s := SetScanned(read.s, w.cursor + 1))
  {
    DeliverOne(log, w);
    hide Deliver;
    assert DeliverTo(log, w, w.cursor + 1) == Deliver(log, w);
  }

  // ----- a run that re-admits a finished position --------------------------

  function OneEvent(p: nat): Option<Route> {
    if p == 2 then Some(Route("a", 0, false)) else None
  }

  /** Position 2 runs to its end, the driver re-subscribes from mark 0, and the mark moves to 2
      while the new subscription has only redelivered position 1. */
  function Overtaken(): (run: seq<Step>)
    ensures |run| == 12
  {
    [Read(2), Take("a"), TakeHead("a"), Begin("a"), Finish("a"), Retire("a"), GiveBack("a"),
     Resubscribe, Read(1), Publish(2), ForgetTo(2), Read(2)]
  }

  /** A world of that run: lane "a" at `place`, its one group queued or not, its work handed out or not. */
  function Moment(cursor: nat, mark: nat, guarded: bool, place: map<LaneId, Place>, queued: bool, out: bool,
                  invoked: set<nat>, terminal: set<nat>, retired: map<nat, nat>): World {
    World(Lanes(if queued then map["a" := [Pending(2, 2, 0)]] else map[], map[],
                if guarded then map["a" := 2] else map[], place, {},
                if queued then map[2 := "a"] else map[], 2, map[], {}, false, {}),
          cursor, if out then map["a" := Work(2, None)] else map[], {}, mark, map[], invoked, terminal,
          0, map[], {}, map[2 := 2], retired, 2)
  }

  function Scene(k: nat): World {
    var queued, running, idle: map<LaneId, Place> := map["a" := Queued], map["a" := Running], map[];
    var over := map[2 := 2];
    if k == 0 then Boot()
    else if k == 1 then Moment(2, 0, true, queued, true, false, {}, {}, map[])
    else if k == 2 then Moment(2, 0, true, running, true, false, {}, {}, map[])
    else if k == 3 then Moment(2, 0, true, running, true, true, {}, {}, map[])
    else if k == 4 then Moment(2, 0, true, running, true, true, {2}, {}, map[])
    else if k == 5 then Moment(2, 0, true, running, true, true, {2}, {2}, map[])
    else if k == 6 then Moment(2, 0, true, running, false, false, {2}, {2}, over)
    else if k == 7 then Moment(2, 0, true, idle, false, false, {2}, {2}, over)
    else if k == 8 then Moment(0, 0, true, idle, false, false, {2}, {2}, over)
    else if k == 9 then Moment(1, 0, true, idle, false, false, {2}, {2}, over)
    else if k == 10 then Moment(1, 2, true, idle, false, false, {2}, {2}, over)
    else if k == 11 then Moment(1, 2, false, idle, false, false, {2}, {2}, over)
    else Moment(2, 2, true, queued, true, false, {2}, {2}, over)
  }

  ghost predicate Acted(log: Log, k: nat)
    requires k < 12
  {
    Follows(log, Scene, Overtaken(), k)
  }

  lemma FirstReadFollows(log: Log)
    requires forall p: nat :: log(p) == OneEvent(p)
    ensures Acted(log, 0)
  {
    var w1 := Deliver(log, Boot());
    assert w1 == Boot().(cursor := 1, seen := 1);
    assert [] + [Pending(2, 2, 0)] == [Pending(2, 2, 0)];
    assert Reown(map[], None, 2) == map[2 := 2];
    assert DeliverTo(log, Boot(), 2) == Deliver(log, w1);
  }

  lemma SecondReadFollows(log: Log)
    requires forall p: nat :: log(p) == OneEvent(p)
    ensures Acted(log, 8)
  {
    ReadsOne(log, Scene(8));
    hide DeliverTo;
  }

  lemma ThirdReadFollows(log: Log)
    requires forall p: nat :: log(p) == OneEvent(p)
    ensures Acted(log, 11)
  {
    assert [] + [Pending(2, 2, 0)] == [Pending(2, 2, 0)];
    assert Reown(map[2 := 2], None, 2) == map[2 := 2];
    ReadsOne(log, Scene(11));
    hide DeliverTo, Next;
  }

  lemma WorkFollows(log: Log, k: nat)
    requires 1 <= k < 5
    ensures Acted(log, k)
  {
    hide DeliverTo, Complete;
  }

  lemma RetireFollows(log: Log)
    ensures Acted(log, 5)
  {
    hide DeliverTo;
  }

  lemma RestFollows(log: Log, k: nat)
    requires 6 <= k < 12 && k != 8 && k != 11
    ensures Acted(log, k)
  {
    if k == 9 { CrashMark(Scene(9).s); }
    hide DeliverTo, Complete;
  }

  /** Re-subscription may forget a guard it still needs: this run, every step of it enabled, queues position 2
      a second time although it is terminal and at the mark, and the low-water falls below the mark. */
  lemma RedeliversFinished(log: Log)
    requires forall p: nat :: log(p) == OneEvent(p)
    ensures WellRouted(log) && EnabledRun(log, Boot(), Overtaken())
    ensures
      var w := After(log, Boot(), Overtaken());
      2 in w.terminal && w.mark == 2 && IsQueued(w.s, "a", 2) && LowWater(w.s) < w.mark
  {
    hide After, EnabledRun, Next, Enabled, Follows, Overtaken;
    FirstReadFollows(log);
    SecondReadFollows(log);
    ThirdReadFollows(log);
    RetireFollows(log);
    forall k: nat | 1 <= k < 5 ensures Acted(log, k) { WorkFollows(log, k); }
    forall k: nat | 6 <= k < 12 && k != 8 && k != 11 ensures Acted(log, k) { RestFollows(log, k); }
    forall i: nat | i < |Overtaken()| ensures Follows(log, Scene, Overtaken(), i) { assert Acted(log, i); }
    ScenesFollow(log, Scene, Overtaken(), 0);
    assert Overtaken()[0..] == Overtaken();
    assert Holds(Scene(12).s, "a", Pending(2, 2, 0));
    assert Scene(12).s.inflight.Keys == {2};
  }
}
