/** One effect's scheduling state, updated in place as `src/lanes.rs` updates it. Every method
    ties the new schedule to the function of LaneSpec that the run theorems are about. */
module LaneState {
  import opened Options
  import S = LaneSpec

  class LaneState {
    var queues: map<S.LaneId, seq<S.Pending>>
    var latest: map<(S.LaneId, nat), nat>
    var high: map<S.LaneId, nat>
    var place: map<S.LaneId, S.Place>
    var deferred: set<(nat, S.LaneId)>
    var inflight: map<nat, S.LaneId>
    var scanned: nat
    var rows: map<S.LaneId, nat>
    var begun: set<nat>
    var blind: bool
    var skipPromoted: set<(S.LaneId, nat)>

    ghost function View(): S.Lanes
      reads this
    {
      S.Lanes(queues, latest, high, place, deferred, inflight, scanned, rows, begun, blind, skipPromoted)
    }

    constructor Resuming(scanned: nat, rows: map<S.LaneId, nat>, begun: set<nat>, blind: bool)
      ensures View() == S.Resuming(scanned, rows, begun, blind)
    {
      this.queues, this.latest, this.place := map[], map[], map[];
      this.deferred, this.inflight, this.skipPromoted := {}, map[], {};
      // What an earlier process finished is also the furthest this one has offered a lane.
      this.high := rows;
      this.scanned, this.rows, this.begun, this.blind := scanned, rows, begun, blind;
    }

    method RecordRow(lane: S.LaneId, position: nat)
      modifies this`rows
      ensures View() == S.RecordRow(old(View()), lane, position)
    {
      var held := if lane in rows then rows[lane] else 0;
      rows := rows[lane := if held < position then position else held];
    }

    method RowsToSweep(mark: nat) returns (any: bool)
      ensures any <==> exists lane :: lane in rows && rows[lane] <= mark
    {
      any := false;
      var rest := rows.Keys;
      while rest != {}
        invariant rest <= rows.Keys
        invariant any <==> exists lane :: lane in rows && lane !in rest && rows[lane] <= mark
      {
        var lane :| lane in rest;
        any := any || rows[lane] <= mark;
        rest := rest - {lane};
      }
    }

    /** The group queued for the arm that `position` supersedes leaves the queue, and its range
        passes to the new group. */
    method TakeOver(lane: S.LaneId, position: nat, arm: nat, declared: bool)
      returns (rest: seq<S.Pending>, group: S.Pending, folded: bool)
      ensures
        var at := S.Superseded(View(), lane, arm, declared);
        var queue := S.QueueOf(View(), lane);
        && folded == at.Some?
        && rest == (if at.Some? then queue[..at.value] + queue[at.value + 1..] else queue)
        && group == S.Pending(if at.Some? then queue[at.value].lo else position, position, arm)
    {
      rest := if lane in queues then queues[lane] else [];
      group, folded := S.Pending(position, position, arm), false;
      if declared && !blind && (lane, arm) in latest && lane in queues {
        var at := S.IndexOf(rest, latest[(lane, arm)], arm);
        if at.Some? {
          group, folded := S.Pending(rest[at.value].lo, position, arm), true;
          rest := rest[..at.value] + rest[at.value + 1..];
        }
      }
    }

    method Admit(lane: S.LaneId, position: nat, arm: nat, declared: bool) returns (admitted: S.Admitted)
      modifies this`queues, this`latest, this`high, this`place, this`inflight
      ensures (View(), admitted) == S.Admit(old(View()), lane, position, arm, declared)
    {
      var collapsible := declared && !blind;
      if lane in high && high[lane] >= position {
        return S.Admitted(false, false);
      }
      var rest, group, folded := TakeOver(lane, position, arm, declared);
      hide S.Superseded;
      high := high[lane := position];
      if !folded {
        // A group that superseded another keeps that group's in-flight entry: it answers for
        // the same oldest position.
        inflight := inflight[position := lane];
      }
      if collapsible && position !in begun {
        latest := latest[(lane, arm) := position];
      } else if collapsible {
        latest := latest - {(lane, arm)};
      }
      queues := queues[lane := rest + [group]];
      var armed := lane !in place;
      if armed {
        place := place[lane := S.Queued];
      }
      admitted := S.Admitted(armed, folded);
    }

    method SetScanned(to: nat)
      modifies this`scanned
      ensures View() == S.SetScanned(old(View()), to)
    {
      scanned := if scanned < to then to else scanned;
    }

    method LowWater() returns (mark: nat)
      ensures mark == S.LowWater(View())
    {
      if inflight.Keys == {} {
        return scanned;
      }
      ghost var least := S.Least(inflight.Keys);
      assert least in inflight && forall k :: k in inflight ==> least <= k;
      var oldest: nat :| oldest in inflight && forall k :: k in inflight ==> oldest <= k;
      mark := if oldest == 0 then 0 else oldest - 1;
      mark := if mark < scanned then mark else scanned;
    }

    /** The lane holding the mark down and the position that lane runs next. */
    method PinnedBy() returns (pinned: Option<(S.LaneId, nat)>)
      ensures pinned.None? <==> inflight == map[]
      ensures pinned.Some? ==> inflight.Keys != {}
      ensures pinned.Some? ==>
        var oldest := S.Least(inflight.Keys);
        var queue := S.QueueOf(View(), inflight[oldest]);
        pinned.value == (inflight[oldest], if queue == [] then oldest else queue[0].hi)
    {
      if inflight.Keys == {} {
        return None;
      }
      ghost var least := S.Least(inflight.Keys);
      assert least in inflight && forall k :: k in inflight ==> least <= k;
      var oldest: nat :| oldest in inflight && forall k :: k in inflight ==> oldest <= k;
      var lane := inflight[oldest];
      var position := if lane in queues && queues[lane] != [] then queues[lane][0].hi else oldest;
      pinned := Some((lane, position));
    }

    method Claim(lane: S.LaneId) returns (claimed: bool)
      modifies this`place
      ensures (View(), claimed) == S.Claim(old(View()), lane)
    {
      if lane !in place || place[lane] != S.Queued {
        return false;
      }
      place := place[lane := S.Running];
      claimed := true;
    }

    method Head(lane: S.LaneId) returns (work: Option<S.Work>)
      modifies this`latest
      ensures (View(), work) == S.Head(old(View()), lane)
    {
      if lane !in queues || queues[lane] == [] {
        return None;
      }
      var group := queues[lane][0];
      if (lane, group.arm) in latest && latest[(lane, group.arm)] == group.hi {
        latest := latest - {(lane, group.arm)};
      }
      work := Some(S.Work(group.hi, if group.lo < group.hi then Some(group.lo) else None));
    }

    method Complete(lane: S.LaneId, position: nat) returns (owed: bool)
      modifies this`queues, this`latest, this`inflight, this`skipPromoted
      ensures View() == S.Complete(old(View()), lane, position)
      ensures owed <==> S.Owed(View(), position)
    {
      var retired := position;
      if lane in queues && queues[lane] != [] && queues[lane][0].hi == position {
        var group := queues[lane][0];
        retired := group.lo;
        if |queues[lane]| == 1 {
          queues := queues - {lane};
        } else {
          queues := queues[lane := queues[lane][1..]];
        }
        if (lane, group.arm) in latest && latest[(lane, group.arm)] == group.hi {
          latest := latest - {(lane, group.arm)};
        }
      }
      inflight := inflight - {retired};
      skipPromoted := skipPromoted - {(lane, position)};
      owed := false;
      if inflight.Keys != {} {
        ghost var least := S.Least(inflight.Keys);
        assert least in inflight && forall k :: k in inflight ==> least <= k;
        var oldest: nat :| oldest in inflight && forall k :: k in inflight ==> oldest <= k;
        owed := oldest < position;
      }
    }

    method Release(lane: S.LaneId) returns (rearmed: bool)
      modifies this`place
      ensures (View(), rearmed) == S.Release(old(View()), lane)
    {
      place := place - {lane};
      rearmed := lane in queues;
      if rearmed {
        place := place[lane := S.Queued];
        assert place == old(place)[lane := S.Queued];
      }
    }

    method Defer(lane: S.LaneId, deadline: nat)
      modifies this`place, this`deferred
      ensures View() == S.Defer(old(View()), lane, deadline)
    {
      place := place[lane := S.Deferred(deadline)];
      deferred := deferred + {(deadline, lane)};
    }

    /** Take every entry of `due` out, waking the lanes parked under exactly that deadline. */
    method Wake(due: set<(nat, S.LaneId)>) returns (woken: seq<S.LaneId>)
      modifies this`place, this`deferred
      ensures View() == S.Wake(old(View()), due)
      ensures forall lane :: lane in woken <==> lane in S.Woken(old(View()), due)
      ensures forall i, j :: 0 <= i < j < |woken| ==> woken[i] != woken[j]
    {
      woken := [];
      var rest := due;
      ghost var was := View();
      ghost var done := {};
      while rest != {}
        invariant done == due - rest && rest <= due
        invariant deferred == was.deferred - done
        invariant place.Keys == was.place.Keys
        invariant forall lane :: lane in place ==>
          place[lane] == if lane in S.Woken(was, done) then S.Queued else was.place[lane]
        invariant forall lane :: lane in woken <==> lane in S.Woken(was, done)
        invariant forall i, j :: 0 <= i < j < |woken| ==> woken[i] != woken[j]
      {
        var entry :| entry in rest;
        deferred := deferred - {entry};
        rest := rest - {entry};
        done := done + {entry};
        // Only the deadline the lane is parked under may wake it.
        if entry.1 in place && place[entry.1] == S.Deferred(entry.0) {
          place := place[entry.1 := S.Queued];
          woken := woken + [entry.1];
        }
      }
      assert done == due;
      assert place == S.Wake(was, due).place;
    }

    method Promote(now: nat) returns (woken: seq<S.LaneId>)
      modifies this`place, this`deferred
      ensures View() == S.Promote(old(View()), now)
      ensures forall lane, deadline: nat ::
        lane in old(place) && old(place)[lane] == S.Deferred(deadline) && (deadline, lane) in old(deferred) ==>
          (lane in woken <==> deadline <= now)
      ensures forall lane :: lane in woken ==> lane in old(place) && old(place)[lane].Deferred?
      ensures forall entry :: entry in deferred <==> entry in old(deferred) && now < entry.0
      ensures forall i, j :: 0 <= i < j < |woken| ==> woken[i] != woken[j]
    {
      var due := set entry | entry in deferred && entry.0 <= now;
      woken := Wake(due);
    }

    /** Wake parked lanes whose next position an operator asked to skip, once per position. */
    method PromoteMatching(wanted: set<nat>) returns (woken: seq<S.LaneId>)
      modifies this`place, this`deferred, this`skipPromoted
      ensures View() == S.PromoteMatching(old(View()), wanted)
      ensures forall lane, deadline: nat ::
        lane in old(place) && old(place)[lane] == S.Deferred(deadline) && (deadline, lane) in old(deferred) ==>
          (lane in woken <==>
            && lane in queues && queues[lane] != [] && queues[lane][0].hi in wanted
            && (lane, queues[lane][0].hi) !in old(skipPromoted))
      ensures forall lane :: lane in woken ==> lane in old(place) && old(place)[lane].Deferred?
      ensures forall lane :: lane in woken ==>
        lane in queues && queues[lane] != [] && (lane, queues[lane][0].hi) in skipPromoted
      ensures forall entry :: entry in deferred <==>
        && entry in old(deferred)
        && !(entry.1 in queues && queues[entry.1] != [] && queues[entry.1][0].hi in wanted
             && (entry.1, queues[entry.1][0].hi) !in old(skipPromoted))
      ensures forall i, j :: 0 <= i < j < |woken| ==> woken[i] != woken[j]
    {
      var due := set entry | entry in deferred && entry.1 in queues && queues[entry.1] != []
                             && (entry.1, queues[entry.1][0].hi) !in skipPromoted
                             && queues[entry.1][0].hi in wanted;
      assert due == S.Wanted(View(), wanted);
      ghost var was := View();
      woken := Wake(due);
      ghost var seen: set<S.LaneId> := {};
      for next := 0 to |woken|
        modifies this`skipPromoted
        invariant forall lane :: lane in seen <==> lane in woken[..next]
        invariant skipPromoted == was.skipPromoted + S.Skips(was, seen)
      {
        var lane := woken[next];
        seen := seen + {lane};
        if lane in queues && queues[lane] != [] {
          skipPromoted := skipPromoted + {(lane, queues[lane][0].hi)};
        }
      }
      assert seen == S.Woken(was, due);
    }

    method PruneRows(mark: nat)
      modifies this`rows
      ensures View() == S.PruneRows(old(View()), mark)
    {
      rows := map lane | lane in rows && rows[lane] > mark :: rows[lane];
    }

    method Forget(mark: nat)
      modifies this`high, this`begun
      ensures View() == S.Forget(old(View()), mark)
    {
      high := map lane | lane in high && high[lane] > mark :: high[lane];
      begun := set position | position in begun && position > mark;
    }
  }
}
