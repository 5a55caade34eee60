/** A run in which a superseded position fires after the newer one that stood for it, and is then
    abandoned by a restart. A folded position has no invocation row, so when a subscription the mark
    has overtaken delivers it again, beginning it inserts one and dispatches it. */
module LaneRefire {
  import opened Options
  import opened LaneSpec
  import opened LaneRuns
  import opened LaneInvariants
  import opened LaneDurability
  import opened LaneAlways
  import opened LaneTame
  import opened LaneTheorems
  import opened LaneResubscribe

  /** Positions 2 and 3 are answered by one collapsing arm of lane "a". */
  function TwoEvents(p: nat): Option<Route> {
    if p == 2 || p == 3 then Some(Route("a", 0, true)) else None
  }

  /** Position 3 stands for 2 and runs to its end, the driver re-subscribes from mark 0, the mark moves
      to 3 while the new subscription has only redelivered position 1, and position 2 comes again. */
  function Refired(): (run: seq<Step>)
    ensures |run| == 15
  {
    [Read(3), Take("a"), TakeHead("a"), Begin("a"), Finish("a"), Retire("a"), GiveBack("a"),
     Resubscribe, Read(1), Publish(3), ForgetTo(3), Read(2), Take("a"), TakeHead("a"), Begin("a")]
  }

  function Waiting(hi: nat): map<LaneId, seq<Pending>> { map["a" := [Pending(2, hi, 0)]] }

  /** A world of that run, once position 3 has been read. */
  function Moment(cursor: nat, mark: nat, queues: map<LaneId, seq<Pending>>, latest: map<(LaneId, nat), nat>,
                  high: map<LaneId, nat>, place: map<LaneId, Place>, handed: map<LaneId, Work>,
                  invoked: set<nat>, terminal: set<nat>, owner: map<nat, nat>): World {
    World(Lanes(queues, latest, high, place, {},
                if queues == map[] then map[] else map[2 := "a"], 3, map[], {}, false, {}),
          cursor, handed, {}, mark, map[], invoked, terminal, 0, map[], {}, owner,
          if queues == Waiting(3) then map[] else map[3 := 2], 3)
  }

  function Placed(place: Place): map<LaneId, Place> { map["a" := place] }

  /** Up to where position 3 is completed. */
  function Early(k: nat): World {
    var own, work := map[2 := 3, 3 := 3], map["a" := Work(3, Some(2))];
    var open := map[("a", 0) := 3];
    if k == 0 then Boot()
    else if k == 1 then Moment(3, 0, Waiting(3), open, map["a" := 3], Placed(Queued), map[], {}, {}, own)
    else if k == 2 then Moment(3, 0, Waiting(3), open, map["a" := 3], Placed(Running), map[], {}, {}, own)
    else if k == 3 then Moment(3, 0, Waiting(3), map[], map["a" := 3], Placed(Running), work, {}, {}, own)
    else if k == 4 then Moment(3, 0, Waiting(3), map[], map["a" := 3], Placed(Running), work, {3}, {}, own)
    else Moment(3, 0, Waiting(3), map[], map["a" := 3], Placed(Running), work, {3}, {3}, own)
  }

  /** From there, while nothing waits. */
  function Between(k: nat): World {
    var own := map[2 := 3, 3 := 3];
    if k == 6 then Moment(3, 0, map[], map[], map["a" := 3], Placed(Running), map[], {3}, {3}, own)
    else if k == 7 then Moment(3, 0, map[], map[], map["a" := 3], map[], map[], {3}, {3}, own)
    else if k == 8 then Moment(0, 0, map[], map[], map["a" := 3], map[], map[], {3}, {3}, own)
    else if k == 9 then Moment(1, 0, map[], map[], map["a" := 3], map[], map[], {3}, {3}, own)
    else if k == 10 then Moment(1, 3, map[], map[], map["a" := 3], map[], map[], {3}, {3}, own)
    else Moment(1, 3, map[], map[], map[], map[], map[], {3}, {3}, own)
  }

  /** And from where position 2 is queued again. */
  function Late(k: nat): World {
    var own, work := map[2 := 2, 3 := 3], map["a" := Work(2, None)];
    if k == 12 then Moment(2, 3, Waiting(2), map[("a", 0) := 2], map["a" := 2], Placed(Queued), map[], {3}, {3}, own)
    else if k == 13 then Moment(2, 3, Waiting(2), map[("a", 0) := 2], map["a" := 2], Placed(Running), map[], {3}, {3},
      own)
    else if k == 14 then Moment(2, 3, Waiting(2), map[], map["a" := 2], Placed(Running), work, {3}, {3}, own)
    else Moment(2, 3, Waiting(2), map[], map["a" := 2], Placed(Running), work, {3, 2}, {3}, own)
  }

  function Scene(k: nat): World {
    if k <= 5 then Early(k) else if k <= 11 then Between(k) else Late(k)
  }

  ghost predicate Acted(log: Log, k: nat)
    requires k < 15
  {
    Follows(log, Scene, Refired(), k)
  }

  // ----- each step ---------------------------------------------------------

  /** Position 2 admitted alone. */
  function OneRead(): World {
    Boot().(s := Boot().s.(queues := Waiting(2), latest := map[("a", 0) := 2], high := map["a" := 2],
                           place := Placed(Queued), inflight := map[2 := "a"]),
            cursor := 2, seen := 2, owner := map[2 := 2])
  }

  lemma SecondAdmitted(log: Log)
    requires forall p: nat :: log(p) == TwoEvents(p)
    ensures Deliver(log, Deliver(log, Boot())) == OneRead()
  {
    var w1 := Deliver(log, Boot());
    assert w1 == Boot().(cursor := 1, seen := 1);
    assert [] + [Pending(2, 2, 0)] == [Pending(2, 2, 0)];
    assert Reown(map[], None, 2) == map[2 := 2];
    hide Reown;
  }

  lemma ThirdJoins()
    ensures Superseded(OneRead().s, "a", 0, true) == Some(0) && !AlreadyOffered(OneRead().s, "a", 3)
    ensures Admit(OneRead().s, "a", 3, 0, true).0 == Scene(1).s.(scanned := 0)
  {
    var queue := OneRead().s.queues["a"];
    assert Superseded(OneRead().s, "a", 0, true) == Some(0);
    assert queue[..0] + queue[1..] + [Pending(2, 3, 0)] == [Pending(2, 3, 0)];
    hide Superseded;
  }

  lemma ThirdFolds(log: Log)
    requires forall p: nat :: log(p) == TwoEvents(p)
    ensures
      var w := OneRead();
      Deliver(log, w).s == Scene(1).s.(scanned := 0) && Deliver(log, w) == Scene(1).(s := Deliver(log, w).s)
  {
    ThirdJoins();
    assert Reown(map[2 := 2], Some(2), 3) == map[2 := 3, 3 := 3];
    hide Reown, Superseded, LaneSpec.Admit;
  }

  lemma FirstReadFollows(log: Log)
    requires forall p: nat :: log(p) == TwoEvents(p)
    ensures Acted(log, 0)
  {
    SecondAdmitted(log);
    ThirdFolds(log);
    DeliverOne(log, Boot());
    DeliverOne(log, Deliver(log, Boot()));
    DeliverOne(log, OneRead());
    hide Deliver;
    var w1 := Deliver(log, Boot());
    assert DeliverTo(log, Boot(), 3) == DeliverTo(log, w1, 3);
    assert DeliverTo(log, w1, 3) == DeliverTo(log, OneRead(), 3);
    assert DeliverTo(log, OneRead(), 3) == Deliver(log, OneRead());
  }

  lemma SecondReadFollows(log: Log)
    requires forall p: nat :: log(p) == TwoEvents(p)
    ensures Acted(log, 8)
  {
    ReadsOne(log, Scene(8));
    hide DeliverTo;
  }

  lemma ThirdReadFollows(log: Log)
    requires forall p: nat :: log(p) == TwoEvents(p)
    ensures Acted(log, 11)
  {
    assert [] + [Pending(2, 2, 0)] == [Pending(2, 2, 0)];
    assert Reown(map[2 := 3, 3 := 3], None, 2) == map[2 := 2, 3 := 3];
    ReadsOne(log, Scene(11));
    hide DeliverTo, Next, Reown;
  }

  lemma WorkFollows(log: Log, k: nat)
    requires 1 <= k < 5
    ensures Acted(log, k)
  {
    hide DeliverTo, Complete, Between, Late;
  }

  lemma AgainFollows(log: Log, k: nat)
    requires 12 <= k < 15
    ensures Acted(log, k)
  {
    hide DeliverTo, Complete, Early, Between;
  }

  lemma PublishFollows(log: Log)
    ensures Acted(log, 9)
  {
    CrashMark(Scene(9).s);
    hide DeliverTo, Complete, Early, Late, LowWater;
  }

  lemma RetireFollows(log: Log)
    ensures Acted(log, 5)
  {
    hide DeliverTo, Late;
  }

  lemma RestFollows(log: Log, k: nat)
    requires k == 6 || k == 7 || k == 10
    ensures Acted(log, k)
  {
    hide DeliverTo, Complete, Early, Late;
  }

  lemma Reached(log: Log)
    requires forall p: nat :: log(p) == TwoEvents(p)
    ensures EnabledRun(log, Boot(), Refired()) && After(log, Boot(), Refired()) == Scene(15)
  {
    hide After, EnabledRun, Next, Enabled, Follows, Refired;
    FirstReadFollows(log);
    SecondReadFollows(log);
    ThirdReadFollows(log);
    RetireFollows(log);
    PublishFollows(log);
    forall k: nat | 1 <= k < 5 ensures Acted(log, k) { WorkFollows(log, k); }
    forall k: nat | 12 <= k < 15 ensures Acted(log, k) { AgainFollows(log, k); }
    forall k: nat | k == 6 || k == 7 || k == 10 ensures Acted(log, k) { RestFollows(log, k); }
    forall i: nat | i < |Refired()| ensures Follows(log, Scene, Refired(), i) { assert Acted(log, i); }
    ScenesFollow(log, Scene, Refired(), 0);
    assert Refired()[0..] == Refired();
  }

  // ----- what it comes to --------------------------------------------------

  /** Every step of this run is enabled, and it begins position 2 although 3, the newer one of its arm,
      was completed before it: the lane runs out of order, and what began is behind the mark. */
  lemma RefiresSuperseded(log: Log)
    requires forall p: nat :: log(p) == TwoEvents(p)
    ensures WellRouted(log) && EnabledRun(log, Boot(), Refired())
    ensures
      var w := After(log, Boot(), Refired());
      && SameArm(log, 2, 3) && Ran(log, w, "a", 3) && "a" in w.handed && w.handed["a"].position == 2
      && 2 in w.invoked && 2 !in w.terminal && 2 <= w.mark && !NothingAbandoned(log, w)
  {
    hide After, EnabledRun, Refired;
    Reached(log);
    assert Waiting(2)["a"][0] != Waiting(3)["a"][0];
  }

  /** ... so a restart, however far it reads, never takes position 2 up again. */
  lemma AbandonsRefired(log: Log, to: nat)
    requires forall p: nat :: log(p) == TwoEvents(p)
    ensures
      var w := After(log, Boot(), Refired());
      ReadsBack(log, w, {}, false) && !IsQueued(Restarted(log, w, {}, false, to).s, "a", 2)
  {
    hide After, EnabledRun, Refired, Restarted;
    Reached(log);
    var w := Scene(15);
    RestartSteps(log, w, {}, false, to);
    var w1 := Resumed(w, {}, false);
    PassesOver(log, w1, to);
    ReadQueues(log, w1, to);
    hide Next, DeliverTo;
    assert Next(log, w1, Read(to)).s.queues == map[];
  }

  /** The forget that allowed it was not harmless: position 2 was folded away, ahead of the cursor. */
  lemma ForgetHarms(log: Log)
    requires forall p: nat :: log(p) == TwoEvents(p)
    ensures Follows(log, Scene, Refired(), 10) && Refired()[10] == ForgetTo(3) && !Harmless(log, Scene(10), 3)
  {
    RestFollows(log, 10);
    assert Unguarded(log, Scene(10), 3, 2);
    hide Follows;
  }
}
