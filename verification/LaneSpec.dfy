/** The schedule of one effect, as a value: what each operation of `src/lanes.rs` turns one
    schedule into. The class in LaneState.dfy is proved against these functions, and
    LaneRuns.dfy proves what they keep over whole runs. */
module LaneSpec {
  import opened Options

  type LaneId = string

  datatype Place = Queued | Running | Deferred(deadline: nat)

  /** One queued unit of work: `hi` is the position that runs, `lo` the oldest position it answers for. */
  datatype Pending = Pending(lo: nat, hi: nat, arm: nat)

  datatype Work = Work(position: nat, collapsedFrom: Option<nat>)

  datatype Admitted = Admitted(armed: bool, folded: bool)

  datatype Lanes = Lanes(
    queues: map<LaneId, seq<Pending>>,
    latest: map<(LaneId, nat), nat>,
    high: map<LaneId, nat>,
    place: map<LaneId, Place>,
    deferred: set<(nat, LaneId)>,
    inflight: map<nat, LaneId>,
    scanned: nat,
    rows: map<LaneId, nat>,
    begun: set<nat>,
    blind: bool,
    skipPromoted: set<(LaneId, nat)>)

  // ----- reading a schedule ------------------------------------------------

  function QueueOf(s: Lanes, lane: LaneId): seq<Pending> {
    if lane in s.queues then s.queues[lane] else []
  }

  ghost predicate Holds(s: Lanes, lane: LaneId, g: Pending) {
    lane in s.queues && g in s.queues[lane]
  }

  ghost function Least(keys: set<nat>): (r: nat)
    requires keys != {}
    ensures r in keys && forall k :: k in keys ==> r <= k
  {
    var k :| k in keys;
    if keys == {k} then k
    else
      assert keys == {k} + (keys - {k});
      var rest := Least(keys - {k});
      if k < rest then k else rest
  }

  /** The highest position every event at or below is finished with. */
  ghost function LowWater(s: Lanes): nat {
    if s.inflight.Keys == {} then s.scanned
    else
      var oldest := Least(s.inflight.Keys);
      var below := if oldest == 0 then 0 else oldest - 1;
      if below < s.scanned then below else s.scanned
  }

  function WorkOf(g: Pending): Work {
    Work(g.hi, if g.lo < g.hi then Some(g.lo) else None)
  }

  /** The index of the queued group that runs at `hi` for `arm`. */
  function IndexOf(queue: seq<Pending>, hi: nat, arm: nat): (r: Option<nat>)
    ensures r.Some? ==> r.value < |queue| && queue[r.value].hi == hi && queue[r.value].arm == arm
    ensures r.None? ==> forall g :: g in queue ==> !(g.hi == hi && g.arm == arm)
  {
    if queue == [] then None
    else if queue[0].hi == hi && queue[0].arm == arm then Some(0)
    else
      match IndexOf(queue[1..], hi, arm)
      case Some(at) => Some(at + 1)
      case None => assert queue == [queue[0]] + queue[1..]; None
  }

  // ----- operations --------------------------------------------------------

  function Resuming(scanned: nat, rows: map<LaneId, nat>, begun: set<nat>, blind: bool): Lanes {
    Lanes(map[], map[], rows, map[], {}, map[], scanned, rows, begun, blind, {})
  }

  /** Where in the lane's queue the group that `position` would supersede sits. */
  function Superseded(s: Lanes, lane: LaneId, arm: nat, declared: bool): (r: Option<nat>)
    ensures r.Some? ==> lane in s.queues && r.value < |s.queues[lane]|
                        && (lane, arm) in s.latest
                        && s.queues[lane][r.value].hi == s.latest[(lane, arm)]
                        && s.queues[lane][r.value].arm == arm
  {
    if declared && !s.blind && (lane, arm) in s.latest && lane in s.queues
    then IndexOf(s.queues[lane], s.latest[(lane, arm)], arm)
    else None
  }

  predicate AlreadyOffered(s: Lanes, lane: LaneId, position: nat) {
    lane in s.high && s.high[lane] >= position
  }

  function LatestAfter(s: Lanes, lane: LaneId, position: nat, arm: nat, declared: bool): map<(LaneId, nat), nat> {
    if declared && !s.blind && position !in s.begun then s.latest[(lane, arm) := position]
    else if declared && !s.blind then s.latest - {(lane, arm)}
    else s.latest
  }

  function Admit(s: Lanes, lane: LaneId, position: nat, arm: nat, declared: bool): (Lanes, Admitted) {
    if AlreadyOffered(s, lane, position) then (s, Admitted(false, false))
    else
      var superseded := Superseded(s, lane, arm, declared);
      var queue := QueueOf(s, lane);
      var kept := if superseded.Some? then queue[..superseded.value] + queue[superseded.value + 1..] else queue;
      var lo := if superseded.Some? then queue[superseded.value].lo else position;
      var armed := lane !in s.place;
      (s.(high := s.high[lane := position],
          queues := s.queues[lane := kept + [Pending(lo, position, arm)]],
          inflight := if superseded.Some? then s.inflight else s.inflight[position := lane],
          latest := LatestAfter(s, lane, position, arm, declared),
          place := if armed then s.place[lane := Queued] else s.place),
       Admitted(armed, superseded.Some?))
  }

  function SetScanned(s: Lanes, scanned: nat): Lanes {
    s.(scanned := if s.scanned < scanned then scanned else s.scanned)
  }

  function Claim(s: Lanes, lane: LaneId): (Lanes, bool) {
    if lane in s.place && s.place[lane] == Queued then (s.(place := s.place[lane := Running]), true)
    else (s, false)
  }

  /** The open group of `arm` stops being open if it is the one running at `hi`. */
  function Freeze(latest: map<(LaneId, nat), nat>, lane: LaneId, g: Pending): map<(LaneId, nat), nat> {
    if (lane, g.arm) in latest && latest[(lane, g.arm)] == g.hi then latest - {(lane, g.arm)} else latest
  }

  function Head(s: Lanes, lane: LaneId): (Lanes, Option<Work>) {
    var queue := QueueOf(s, lane);
    if queue == [] then (s, None)
    else (s.(latest := Freeze(s.latest, lane, queue[0])), Some(WorkOf(queue[0])))
  }

  /** The schedule after retiring `position`; see `Owed` for the answer. */
  function Complete(s: Lanes, lane: LaneId, position: nat): Lanes {
    var queue := QueueOf(s, lane);
    if queue != [] && queue[0].hi == position then
      s.(queues := if |queue| == 1 then s.queues - {lane} else s.queues[lane := queue[1..]],
         latest := Freeze(s.latest, lane, queue[0]),
         inflight := s.inflight - {queue[0].lo},
         skipPromoted := s.skipPromoted - {(lane, position)})
    else
      s.(inflight := s.inflight - {position}, skipPromoted := s.skipPromoted - {(lane, position)})
  }

  /** Whether something older than `position` is still in flight, in which case its lane owes a row. */
  ghost predicate Owed(s: Lanes, position: nat) {
    exists k :: k in s.inflight && k < position
  }

  function Release(s: Lanes, lane: LaneId): (Lanes, bool) {
    if lane in s.queues then (s.(place := s.place[lane := Queued]), true)
    else (s.(place := s.place - {lane}), false)
  }

  function Defer(s: Lanes, lane: LaneId, deadline: nat): Lanes {
    s.(place := s.place[lane := Deferred(deadline)], deferred := s.deferred + {(deadline, lane)})
  }

  /** The lanes a set of deadline entries wakes: those parked under exactly that deadline. */
  function Woken(s: Lanes, due: set<(nat, LaneId)>): set<LaneId> {
    set lane | lane in s.place && s.place[lane].Deferred? && (s.place[lane].deadline, lane) in due
  }

  /** Take `due` out of the deadlines and put every lane it wakes back in the queue. */
  function Wake(s: Lanes, due: set<(nat, LaneId)>): Lanes {
    var woken := Woken(s, due);
    s.(deferred := s.deferred - due,
       place := map lane | lane in s.place.Keys :: if lane in woken then Queued else s.place[lane])
  }

  function Due(s: Lanes, now: nat): set<(nat, LaneId)> {
    set entry | entry in s.deferred && entry.0 <= now
  }

  /** The deadlines an operator skip cuts short: lanes whose head is wanted and not promoted before. */
  function Wanted(s: Lanes, wanted: set<nat>): set<(nat, LaneId)> {
    set entry | entry in s.deferred && QueueOf(s, entry.1) != []
                && (entry.1, QueueOf(s, entry.1)[0].hi) !in s.skipPromoted
                && QueueOf(s, entry.1)[0].hi in wanted
  }

  /** What an operator skip leaves marked, so the same position is not pulled forward twice. */
  function Skips(s: Lanes, lanes: set<LaneId>): set<(LaneId, nat)> {
    set lane | lane in lanes && QueueOf(s, lane) != [] :: (lane, QueueOf(s, lane)[0].hi)
  }

  function Promote(s: Lanes, now: nat): Lanes {
    Wake(s, Due(s, now))
  }

  function PromoteMatching(s: Lanes, wanted: set<nat>): Lanes {
    var due := Wanted(s, wanted);
    Wake(s, due).(skipPromoted := s.skipPromoted + Skips(s, Woken(s, due)))
  }

  function RecordRow(s: Lanes, lane: LaneId, position: nat): Lanes {
    var held := if lane in s.rows then s.rows[lane] else 0;
    s.(rows := s.rows[lane := if held < position then position else held])
  }

  function Above(rows: map<LaneId, nat>, mark: nat): map<LaneId, nat> {
    map lane | lane in rows && rows[lane] > mark :: rows[lane]
  }

  function PruneRows(s: Lanes, mark: nat): Lanes {
    s.(rows := Above(s.rows, mark))
  }

  function Forget(s: Lanes, mark: nat): Lanes {
    s.(high := Above(s.high, mark), begun := set p | p in s.begun && p > mark)
  }
}
