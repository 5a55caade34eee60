/** The code that drives one effect's schedule, method by method: each is a run of the steps that
    LaneRuns interleaves, every one of them enabled (`src/effect.rs`). */
module LaneDriver {
  import opened Options
  import opened LaneSpec
  import opened LaneRuns
  import opened LaneDurability
  import opened LaneAlways
  import opened LaneTame
  import Schedule = LaneState

  /** How an attempt at a position came out; `saved` is whether a lane row it owes could be written. */
  datatype Attempted =
    | Done(saved: bool)
    | Backoff(deadline: nat, began: bool)
    | Halt(began: bool)
    | Quarantined                // completed, and then its replay differed: the position stays at the head

  /** One step more at the end of a run. */
  lemma {:induction false} RunOn(log: Log, w: World, run: seq<Step>, step: Step)
    requires EnabledRun(log, w, run) && Enabled(log, After(log, w, run), step)
    ensures EnabledRun(log, w, run + [step])
    ensures After(log, w, run + [step]) == Next(log, After(log, w, run), step)
    decreases |run|
  {
    var longer := run + [step];
    hide Enabled, Next;
    if run == [] {
      assert longer[1..] == [];
    } else {
      assert longer[1..] == run[1..] + [step];
      RunOn(log, Next(log, w, run[0]), run[1..], step);
    }
  }

  lemma Nothing(log: Log, w: World)
    ensures EnabledRun(log, w, []) && After(log, w, []) == w
  {
  }

  lemma Three(log: Log, w: World, a: Step, b: Step, c: Step)
    requires Enabled(log, w, a) && Enabled(log, Next(log, w, a), b) && Enabled(log, Next(log, Next(log, w, a), b), c)
    ensures EnabledRun(log, w, [a, b, c])
    ensures After(log, w, [a, b, c]) == Next(log, Next(log, Next(log, w, a), b), c)
  {
    hide Enabled, Next;
    Nothing(log, w);
    RunOn(log, w, [], a);
    RunOn(log, w, [a], b);
    RunOn(log, w, [a, b], c);
    assert [] + [a] == [a] && [a] + [b] == [a, b] && [a, b] + [c] == [a, b, c];
  }

  /** Delivering a position is admitting it, and admission arms a lane that has no place. */
  lemma DeliverIs(log: Log, w: World)
    ensures
      var p := w.cursor + 1;
      var w' := Deliver(log, w);
      && w'.mark == w.mark && w'.table == w.table && (log(p).None? ==> w'.s == w.s)
      && (log(p).Some? ==>
            var r := log(p).value;
            var (s, admitted) := Admit(w.s, r.lane, p, r.arm, r.declared);
            && w'.s == s && s.rows == w.s.rows
            && (admitted.armed ==> r.lane !in w.s.place)
            && s.place == if admitted.armed then w.s.place[r.lane := Queued] else w.s.place)
  {
    hide Superseded, LatestAfter, Reown, OpenOf;
  }

  class Driver {
    const lanes: Schedule.LaneState
    const log: Log
    var mark: nat
    var table: map<LaneId, nat>
    ghost var w: World

    /** What the process holds is what the run says, and its memory of the lane rows is the table's. */
    ghost predicate Valid()
      reads this, lanes
    {
      lanes.View() == w.s && mark == w.mark && table == w.table == w.s.rows
    }

    constructor (lanes: Schedule.LaneState, log: Log)
      requires lanes.View() == Boot().s
      ensures Valid() && w == Boot() && this.lanes == lanes && this.log == log
    {
      this.lanes, this.log, mark, table, w := lanes, log, 0, map[], Boot();
    }

    /** Offer one position to the schedule; its lane may become runnable. */
    method AdmitNext(p: nat) returns (armed: Option<LaneId>)
      requires Valid() && p == w.cursor + 1
      modifies this`w, lanes
      ensures Valid() && w == Deliver(log, old(w))
      ensures lanes.place == if armed.Some? then old(lanes.place)[armed.value := Queued] else old(lanes.place)
      ensures armed.Some? ==> armed.value !in old(lanes.place)
    {
      var route := log(p);
      armed := None;
      DeliverIs(log, w);
      w := Deliver(log, w);
      hide Deliver, Admit;
      if route.Some? {
        var admitted := lanes.Admit(route.value.lane, p, route.value.arm, route.value.declared);
        if admitted.armed {
          armed := Some(route.value.lane);
        }
      }
    }

    /** Queue what a batch brought and record how far it scanned, in one critical section; the lanes
        that became runnable are the ones that had no place before. */
    method AdmitBatch(from: nat, to: nat) returns (armed: seq<LaneId>)
      requires Valid() && from == w.cursor <= to
      modifies this`w, lanes
      ensures Valid() && w == Next(log, old(w), Read(to))
      ensures forall lane :: lane in armed <==> lane in lanes.place && lane !in old(lanes.place)
      ensures forall i, j :: 0 <= i < j < |armed| ==> armed[i] != armed[j]
      ensures forall lane :: lane in old(lanes.place) ==>
        lane in lanes.place && lanes.place[lane] == old(lanes.place)[lane]
    {
      armed := [];
      for p := from to to
        invariant Valid() && w.cursor == p && DeliverTo(log, old(w), to) == DeliverTo(log, w, to)
        invariant forall lane :: lane in armed <==> lane in lanes.place && lane !in old(lanes.place)
        invariant forall i, j :: 0 <= i < j < |armed| ==> armed[i] != armed[j]
        invariant forall lane :: lane in old(lanes.place) ==>
          lane in lanes.place && lanes.place[lane] == old(lanes.place)[lane]
      {
        DeliverOne(log, w);
        var next := AdmitNext(p + 1);
        hide Deliver;
        if next.Some? {
          armed := armed + [next.value];
        }
      }
      hide Deliver;
      lanes.SetScanned(to);
      w := w.(s := SetScanned(w.s, to));
    }

    /** Publish the low-water mark if it moved, forget what it passed, and sweep the rows it reached. */
    method PublishMark() returns (ghost run: seq<Step>)
      requires Valid()
      modifies this, lanes
      ensures Valid() && EnabledRun(log, old(w), run) && w == After(log, old(w), run)
      ensures mark == Max(old(mark), LowWater(old(w).s))
      ensures var to := LowWater(old(w).s);
        run == if to <= old(mark) then [] else [Publish(to), ForgetTo(to), SweepTo(to)]
    {
      run := [];
      var to := lanes.LowWater();
      hide After, EnabledRun;
      Nothing(log, w);
      if to <= mark {
        return;
      }
      mark := to;
      w := Next(log, w, Publish(to));
      lanes.Forget(to);
      w := Next(log, w, ForgetTo(to));
      var sweep := lanes.RowsToSweep(to);
      if sweep {
        table := map lane | lane in table && table[lane] > to :: table[lane];
        lanes.PruneRows(to);
      } else {
        assert Above(table, to) == table;
      }
      w := Next(log, w, SweepTo(to));
      run := [Publish(to), ForgetTo(to), SweepTo(to)];
      Three(log, old(w), Publish(to), ForgetTo(to), SweepTo(to));
    }

    /** One more step of the run this call makes. */
    ghost method Did(step: Step, was: World, run: seq<Step>) returns (longer: seq<Step>)
      requires EnabledRun(log, was, run) && w == After(log, was, run) && Enabled(log, w, step)
      modifies this`w
      ensures w == Next(log, old(w), step) && longer == run + [step]
      ensures EnabledRun(log, was, longer) && w == After(log, was, longer)
    {
      hide Enabled, Next;
      RunOn(log, was, run, step);
      w := Next(log, w, step);
      longer := run + [step];
    }

    /** The invocation begins and ends; its lane has not moved on. */
    method Performed(lane: LaneId, ghost was: World, ghost run: seq<Step>) returns (ghost longer: seq<Step>)
      requires Valid() && Owns(w, lane) && lane in w.handed && EnabledRun(log, was, run) && w == After(log, was, run)
      modifies this`w
      ensures Valid() && EnabledRun(log, was, longer) && w == After(log, was, longer)
      ensures w.s == old(w.s) && w.handed == old(w.handed) && Owns(w, lane)
      ensures lane in w.handed && w.handed[lane].position in w.terminal && w.handed[lane].position in w.invoked
    {
      hide EnabledRun, After;
      longer := Did(Begin(lane), was, run);
      longer := Did(Finish(lane), was, longer);
    }

    /** A completed attempt: its invocation began and ended, the position retires, and its lane's row is
        written if it owes one and the write goes through. */
    method Completed(lane: LaneId, work: Work, saved: bool, ghost was: World, ghost run: seq<Step>)
      returns (ghost longer: seq<Step>)
      requires Valid() && Owns(w, lane) && lane in w.handed && w.handed[lane] == work
      requires QueueOf(w.s, lane) != [] && QueueOf(w.s, lane)[0].hi == work.position
      requires EnabledRun(log, was, run) && w == After(log, was, run)
      modifies this, lanes
      ensures Valid() && Owns(w, lane) && EnabledRun(log, was, longer) && w == After(log, was, longer)
      ensures |QueueOf(w.s, lane)| < |old(QueueOf(w.s, lane))|
    {
      hide EnabledRun, After;
      ghost var s := w.s;
      longer := Performed(lane, was, run);
      assert w.s == s && w.handed[lane] == work;
      Shorter(s, lane, work.position);
      var owed := lanes.Complete(lane, work.position);
      longer := Did(Retire(lane), was, longer);
      hide Complete, Owed;
      if owed && saved {
        longer := SaveOwed(lane, work.position, was, longer);
      }
    }

    /** What one attempt at the lane's head comes to: the lane goes on, is parked, or stops. */
    method Handle(lane: LaneId, work: Work, attempted: Attempted, ghost was: World, ghost run: seq<Step>)
      returns (parked: bool, going: bool, ghost longer: seq<Step>)
      requires Valid() && Owns(w, lane) && lane in w.handed && w.handed[lane] == work
      requires QueueOf(w.s, lane) != [] && QueueOf(w.s, lane)[0].hi == work.position
      requires EnabledRun(log, was, run) && w == After(log, was, run)
      modifies this, lanes
      ensures Valid() && EnabledRun(log, was, longer) && w == After(log, was, longer)
      ensures if parked then lane in w.s.place && w.s.place[lane].Deferred? && !going else Owns(w, lane)
      ensures going ==> |QueueOf(w.s, lane)| < |old(QueueOf(w.s, lane))|
    {
      hide EnabledRun, After;
      parked, going, longer := false, false, run;
      match attempted {
        case Done(saved) =>
          longer := Completed(lane, work, saved, was, longer);
          going := true;
        case Backoff(deadline, began) =>
          if began { longer := Did(Begin(lane), was, longer); }
          lanes.Defer(lane, deadline);
          longer := Did(Park(lane, deadline), was, longer);
          parked := true;
        case Halt(began) =>
          if began { longer := Did(Begin(lane), was, longer); }
        case Quarantined =>
          longer := Performed(lane, was, longer);
      }
    }

    /** Take the lane's next work, freezing its group. */
    method TakeNext(lane: LaneId, ghost was: World, ghost run: seq<Step>)
        returns (next: Option<Work>, ghost longer: seq<Step>)
      requires Valid() && Owns(w, lane) && EnabledRun(log, was, run) && w == After(log, was, run)
      modifies this, lanes
      ensures Valid() && Owns(w, lane) && EnabledRun(log, was, longer) && w == After(log, was, longer)
      ensures QueueOf(w.s, lane) == old(QueueOf(w.s, lane))
      ensures next.Some? ==> lane in w.handed && w.handed[lane] == next.value
      ensures next.Some? ==> QueueOf(w.s, lane) != [] && QueueOf(w.s, lane)[0].hi == next.value.position
    {
      hide EnabledRun, After;
      next := lanes.Head(lane);
      longer := Did(TakeHead(lane), was, run);
    }

    /** Write the row a completion owes. */
    method SaveOwed(lane: LaneId, position: nat, ghost was: World, ghost run: seq<Step>)
        returns (ghost longer: seq<Step>)
      requires Valid() && (lane, position) in w.owing && EnabledRun(log, was, run) && w == After(log, was, run)
      modifies this, lanes
      ensures Valid() && EnabledRun(log, was, longer) && w == After(log, was, longer)
      ensures w.s.queues == old(w.s.queues) && w.s.place == old(w.s.place)
    {
      hide EnabledRun, After;
      longer := Did(SaveRow(lane, position), was, run);
      table := table[lane := if lane in table && table[lane] > position then table[lane] else position];
      lanes.RecordRow(lane, position);
    }

    /** Run one lane until it empties, backs off or the effect stops taking work. However its attempts
        come out, what it did is a run of enabled steps, and it owns the lane no longer: the lane is
        parked under a deadline, or given back, and offered again exactly when work is left in it. */
    method RunLane(lane: LaneId, attempts: nat -> Attempted, runnable: nat -> bool)
        returns (rearmed: bool, ghost run: seq<Step>)
      requires Valid()
      modifies this, lanes
      ensures Valid() && EnabledRun(log, old(w), run) && w == After(log, old(w), run)
      ensures !old(lane in lanes.place && lanes.place[lane] == Queued) ==> w == old(w) && !rearmed
      ensures old(lane in lanes.place && lanes.place[lane] == Queued) ==>
        !Owns(w, lane) && (rearmed <==> lane in lanes.place && lanes.place[lane] == Queued)
        && (rearmed ==> lane in lanes.queues) && (lane in lanes.queues ==> lane in lanes.place)
    {
      Nothing(log, w);
      hide EnabledRun, After, Complete;
      rearmed := false;
      var claimed := lanes.Claim(lane);
      run := Did(Take(lane), w, []);
      if !claimed {
        return;
      }
      var parked, going, n := false, true, 0;
      while going
        invariant Valid() && EnabledRun(log, old(w), run) && w == After(log, old(w), run)
        invariant if parked then lane in w.s.place && w.s.place[lane].Deferred? && !going else Owns(w, lane)
        decreases going, |QueueOf(w.s, lane)|
      {
        if !runnable(n) {
          going := false;
        } else {
          var next: Option<Work>;
          next, run := TakeNext(lane, old(w), run);
          if next.None? {
            going := false;
          } else {
            parked, going, run := Handle(lane, next.value, attempts(n), old(w), run);
          }
        }
        n := n + 1;
      }
      if !parked {
        rearmed := lanes.Release(lane);
        run := Did(GiveBack(lane), old(w), run);
      }
    }
  }

  lemma Shorter(s: Lanes, lane: LaneId, position: nat)
    requires QueueOf(s, lane) != [] && QueueOf(s, lane)[0].hi == position
    ensures |QueueOf(Complete(s, lane, position), lane)| < |QueueOf(s, lane)|
    ensures Complete(s, lane, position).place == s.place && Complete(s, lane, position).rows == s.rows
  {
  }
}
