/** Runs of one effect's dispatcher: batches, workers, re-subscriptions, published marks and
    crashes, over the schedule of LaneSpec and the durable rows `src/effect.rs` keeps beside it. */
module LaneRuns {
  import opened Options
  import opened LaneSpec

  /** Where one event goes: its lane, the arm that answers it, and whether that arm may collapse. */
  datatype Route = Route(lane: LaneId, arm: nat, declared: bool)

  /** The log as one effect sees it. Positions start at 1; `None` is an event it does not answer. */
  type Log = nat -> Option<Route>

  ghost predicate OnArm(log: Log, p: nat, lane: LaneId, arm: nat) {
    log(p).Some? && log(p).value.lane == lane && log(p).value.arm == arm
  }

  ghost predicate SameArm(log: Log, p: nat, q: nat) {
    log(q).Some? && OnArm(log, p, log(q).value.lane, log(q).value.arm)
  }

  ghost predicate Collapses(log: Log, p: nat) {
    log(p).Some? && log(p).value.declared
  }

  /** Collapsibility is fixed for a lane and an arm, which the end-of-chain branch of admission needs. */
  ghost predicate WellRouted(log: Log) {
    && log(0).None?
    && forall p, q :: SameArm(log, p, q) ==> log(p).value.declared == log(q).value.declared
  }

  datatype World = World(
    s: Lanes,
    cursor: nat,                  // the subscription's own position
    handed: map<LaneId, Work>,    // the work `head` gave out and `complete` has not taken back
    owing: set<(LaneId, nat)>,    // rows owed and not written yet
    mark: nat,                    // durable: the effect's watermark
    table: map<LaneId, nat>,      // durable: its lane rows
    invoked: set<nat>,            // durable: positions with an invocation row, in any status
    terminal: set<nat>,           // durable: those whose row is terminal
    base: nat,                    // what this process resumed from
    baseRows: map<LaneId, nat>,
    baseBegun: set<nat>,
    owner: map<nat, nat>,         // every position this process admitted, to the position that runs for it
    retired: map<nat, nat>,       // every position this process ran to its end, to the oldest it covered
    seen: nat)                    // the furthest any process has read

  function Max(a: nat, b: nat): nat { if a < b then b else a }
  function Min(a: nat, b: nat): nat { if a < b then a else b }

  function Front(w: World): nat { Max(w.s.scanned, w.cursor) }
  function Floor(w: World): nat { Min(w.mark, w.cursor) }

  // ----- steps -------------------------------------------------------------

  /** Positions that stood behind `open` stand behind `position` from now on. */
  function Reown(owner: map<nat, nat>, open: Option<nat>, position: nat): map<nat, nat> {
    (map p | p in owner :: if open == Some(owner[p]) then position else owner[p])[position := position]
  }

  function OpenOf(s: Lanes, r: Route): Option<nat> {
    var superseded := Superseded(s, r.lane, r.arm, r.declared);
    if superseded.Some? then Some(s.queues[r.lane][superseded.value].hi) else None
  }

  /** The reader offers the position after its cursor to the schedule. */
  function Deliver(log: Log, w: World): World {
    var p := w.cursor + 1;
    var at := w.(cursor := p, seen := Max(w.seen, p));
    if log(p).None? || AlreadyOffered(w.s, log(p).value.lane, p) then at
    else
      var r := log(p).value;
      at.(s := Admit(w.s, r.lane, p, r.arm, r.declared).0, owner := Reown(w.owner, OpenOf(w.s, r), p))
  }

  function DeliverTo(log: Log, w: World, to: nat): World
    decreases to - w.cursor
  {
    if to <= w.cursor then w else DeliverTo(log, Deliver(log, w), to)
  }

  datatype Step =
    | Read(to: nat)
    | Resubscribe
    | Take(lane: LaneId)
    | TakeHead(lane: LaneId)
    | Begin(lane: LaneId)
    | Finish(lane: LaneId)
    | Retire(lane: LaneId)
    | SaveRow(lane: LaneId, position: nat)
    | GiveBack(lane: LaneId)
    | Park(lane: LaneId, deadline: nat)
    | PromoteDue(now: nat)
    | PromoteSkips(wanted: set<nat>)
    | Publish(to: nat)
    | ForgetTo(to: nat)
    | SweepTo(to: nat)
    | Crash(begun: set<nat>, blind: bool)

  predicate Owns(w: World, lane: LaneId) {
    lane in w.s.place && w.s.place[lane] == Running
  }

  /** What a restart reads back as begun: every invocation row above the mark that an arm could
      fold, unless it gave up reading them and folds nothing. */
  ghost predicate ReadsBack(log: Log, w: World, begun: set<nat>, blind: bool) {
    && begun <= w.invoked
    && (blind || forall p :: p in w.invoked && p > w.mark && Collapses(log, p) ==> p in begun)
  }

  ghost predicate Enabled(log: Log, w: World, step: Step) {
    match step
    case Read(to) => w.cursor <= to
    case Resubscribe => true
    case Take(lane) => true
    case TakeHead(lane) => Owns(w, lane)
    case Begin(lane) => Owns(w, lane) && lane in w.handed
    case Finish(lane) => Owns(w, lane) && lane in w.handed && w.handed[lane].position in w.invoked
    case Retire(lane) => Owns(w, lane) && lane in w.handed && w.handed[lane].position in w.terminal
    case SaveRow(lane, position) => (lane, position) in w.owing
    case GiveBack(lane) => Owns(w, lane)
    case Park(lane, _) => Owns(w, lane) && lane in w.handed
    case PromoteDue(_) => true
    case PromoteSkips(_) => true
    case Publish(to) => w.mark <= to <= LowWater(w.s)
    case ForgetTo(to) => to <= w.mark
    case SweepTo(to) => to <= w.mark
    case Crash(begun, blind) => ReadsBack(log, w, begun, blind)
  }

  ghost function Next(log: Log, w: World, step: Step): World {
    match step
    case Read(to) =>
      var read := DeliverTo(log, w, to);
      read.(s := SetScanned(read.s, to))
    // The context is kept, and the new subscription starts from the persisted mark.
    case Resubscribe => w.(cursor := w.mark, s := SetScanned(w.s, w.mark))
    case Take(lane) => w.(s := Claim(w.s, lane).0)
    case TakeHead(lane) =>
      var (s, work) := Head(w.s, lane);
      if work.Some? then w.(s := s, handed := w.handed[lane := work.value]) else w.(s := s)
    case Begin(lane) => if lane in w.handed then w.(invoked := w.invoked + {w.handed[lane].position}) else w
    case Finish(lane) => if lane in w.handed then w.(terminal := w.terminal + {w.handed[lane].position}) else w
    case Retire(lane) =>
      if lane !in w.handed then w else
      var work := w.handed[lane];
      var s := Complete(w.s, lane, work.position);
      w.(s := s,
         handed := w.handed - {lane},
         owing := if Owed(s, work.position) then w.owing + {(lane, work.position)} else w.owing,
         retired := w.retired[work.position :=
           if work.collapsedFrom.Some? then work.collapsedFrom.value else work.position])
    case SaveRow(lane, position) =>
      w.(table := RecordRow(w.s.(rows := w.table), lane, position).rows, s := RecordRow(w.s, lane, position))
    case GiveBack(lane) => w.(s := Release(w.s, lane).0)
    case Park(lane, deadline) => w.(s := Defer(w.s, lane, deadline))
    case PromoteDue(now) => w.(s := Promote(w.s, now))
    case PromoteSkips(wanted) => w.(s := PromoteMatching(w.s, wanted))
    case Publish(to) => w.(mark := to)
    case ForgetTo(to) => w.(s := Forget(w.s, to))
    case SweepTo(to) => w.(table := Above(w.table, to), s := PruneRows(w.s, to))
    case Crash(begun, blind) => Resumed(w, begun, blind)
  }

  /** A new process over the durable rows the old one left. */
  function Resumed(w: World, begun: set<nat>, blind: bool): World {
    World(LaneSpec.Resuming(w.mark, w.table, begun, blind), w.mark, map[], {},
          w.mark, w.table, w.invoked, w.terminal,
          w.mark, w.table, begun, map[], map[], w.seen)
  }

  /** A first boot: nothing durable yet. */
  function Boot(): World {
    World(LaneSpec.Resuming(0, map[], {}, false), 0, map[], {}, 0, map[], {}, {}, 0, map[], {}, map[], map[], 0)
  }

  /** Forgetting up to `to` keeps the guard of every position the subscription may still redeliver. */
  ghost predicate SafeForget(log: Log, w: World, to: nat) {
    forall p :: w.cursor < p <= to && log(p).Some? ==>
      log(p).value.lane in w.s.high && w.s.high[log(p).value.lane] > to
  }

  // ----- the invariant, one fact at a time ---------------------------------

  /** Queues are non-empty and ascend, and each group is of the lane it is queued in. */
  ghost predicate Ordered(log: Log, w: World) {
    && (forall l :: l in w.s.queues ==> w.s.queues[l] != [])
    && (forall l, i, j :: l in w.s.queues && 0 <= i < j < |w.s.queues[l]| ==> w.s.queues[l][i].hi < w.s.queues[l][j].hi)
    && (forall l, g :: Holds(w.s, l, g) ==> g.lo <= g.hi && OnArm(log, g.hi, l, g.arm))
  }

  ghost predicate IsQueued(s: Lanes, lane: LaneId, hi: nat) {
    exists g :: Holds(s, lane, g) && g.hi == hi
  }

  /** Every admitted position has one that runs for it, not older than itself. */
  ghost predicate Owned(w: World) {
    forall p :: p in w.owner ==> w.base < p <= Front(w) && p <= w.owner[p] && Runs(w, w.owner[p])
  }

  /** `h` runs for itself. */
  ghost predicate Runs(w: World, h: nat) {
    h in w.owner && w.owner[h] == h
  }

  /** What runs for `p` is of its own lane and arm, and is queued or has finished. */
  ghost predicate AnsweredFor(log: Log, w: World, p: nat)
    requires p in w.owner
  {
    && SameArm(log, p, w.owner[p])
    && (w.owner[p] in w.retired || (log(p).Some? && IsQueued(w.s, log(p).value.lane, w.owner[p])))
  }

  ghost predicate Answered(log: Log, w: World) {
    forall p :: p in w.owner ==> AnsweredFor(log, w, p)
  }

  /** A range `lo..hi` is exactly what `hi` answers for. */
  ghost predicate IsRange(w: World, lo: nat, hi: nat) {
    && hi in w.owner && w.owner[hi] == hi
    && lo in w.owner && w.owner[lo] == hi
    && forall p :: p in w.owner && w.owner[p] == hi ==> lo <= p
  }

  ghost predicate Ranged(w: World) {
    && (forall l, g :: Holds(w.s, l, g) ==> IsRange(w, g.lo, g.hi) && g.hi !in w.retired)
    && (forall h :: h in w.retired ==> IsRange(w, w.retired[h], h) && h in w.terminal)
  }

  /** No position of an arm lies inside the range of another invocation of that arm. */
  ghost predicate Apart(log: Log, w: World) {
    forall p, q :: p in w.owner && q in w.owner && SameArm(log, p, q) && p <= q <= w.owner[p] ==>
      w.owner[q] == w.owner[p]
  }

  ghost predicate Inflight(w: World) {
    && (forall l, g :: Holds(w.s, l, g) ==> g.lo in w.s.inflight && w.s.inflight[g.lo] == l)
    && (forall k :: k in w.s.inflight ==> exists g :: Holds(w.s, w.s.inflight[k], g) && g.lo == k)
  }

  /** The group open to supersession is queued, the newest of its arm, and not begun. */
  ghost predicate Open(log: Log, w: World) {
    forall key :: key in w.s.latest ==>
      && (exists g :: Holds(w.s, key.0, g) && g.hi == w.s.latest[key] && g.arm == key.1)
      && !w.s.blind && OnArm(log, w.s.latest[key], key.0, key.1) && Collapses(log, w.s.latest[key])
      && w.s.latest[key] !in w.invoked
      && forall p :: p in w.owner && OnArm(log, p, key.0, key.1) ==> p <= w.s.latest[key]
  }

  /** What may not be folded away runs itself. */
  ghost predicate Unfolded(log: Log, w: World) {
    && (forall p :: p in w.owner && (p in w.invoked || w.s.blind || !Collapses(log, p)) ==> w.owner[p] == p)
    && w.s.begun <= w.baseBegun <= w.invoked
    && (forall p :: p in w.baseBegun && p > Front(w) ==> p in w.s.begun)
    && (forall p :: p in w.invoked && p > w.base && Collapses(log, p) && !w.s.blind ==>
          p in w.owner || p in w.baseBegun)
  }

  /** Whatever the subscription may deliver again is guarded by its lane's high-water. */
  ghost predicate Guarded(log: Log, w: World) {
    forall p :: Floor(w) < p <= Front(w) && log(p).Some? ==> AlreadyOffered(w.s, log(p).value.lane, p)
  }

  /** A high-water is what was read so far or what an earlier process finished. */
  ghost predicate Seeded(w: World) {
    && (forall l :: l in w.s.high ==> w.s.high[l] <= Front(w) || (l in w.baseRows && w.s.high[l] <= w.baseRows[l]))
    && (forall l :: l in w.baseRows ==> w.baseRows[l] <= Front(w) || (l in w.s.high && w.baseRows[l] <= w.s.high[l]))
  }

  ghost predicate HadRow(log: Log, rows: map<LaneId, nat>, p: nat) {
    log(p).Some? && log(p).value.lane in rows && p <= rows[log(p).value.lane]
  }

  /** Everything read since the process resumed was admitted, or an earlier process had finished it. */
  ghost predicate ReadThrough(log: Log, w: World) {
    && (forall p :: w.base < p <= Front(w) && log(p).Some? ==> p in w.owner || HadRow(log, w.baseRows, p))
    && (forall p :: p in w.owner ==> !HadRow(log, w.baseRows, p))
  }

  ghost predicate Marked(w: World) {
    && w.base <= w.mark <= w.s.scanned && w.base <= w.cursor
    && Front(w) <= w.seen
    && (forall k :: k in w.s.inflight ==> w.mark < k)
  }

  /** Work handed out is still the lane's head, and frozen. */
  ghost predicate Frozen(w: World) {
    forall l :: l in w.handed ==>
      && l in w.s.queues && w.s.queues[l] != []
      && w.handed[l] == WorkOf(w.s.queues[l][0])
      && !((l, w.s.queues[l][0].arm) in w.s.latest && w.s.latest[(l, w.s.queues[l][0].arm)] == w.s.queues[l][0].hi)
  }

  /** Lanes complete in order: whatever is still queued runs later than what has finished, and the
      durable rows name nothing else. */
  ghost predicate Ascending(log: Log, w: World) {
    && (forall h, l, g :: h in w.retired && log(h).Some? && log(h).value.lane == l && Holds(w.s, l, g) ==> h < g.hi)
    && (forall owed :: owed in w.owing ==> Ran(log, w, owed.0, owed.1))
    && (forall l :: l in w.table ==> (l in w.baseRows && w.table[l] <= w.baseRows[l]) || Ran(log, w, l, w.table[l]))
  }

  ghost predicate Ran(log: Log, w: World, lane: LaneId, position: nat) {
    position in w.retired && log(position).Some? && log(position).value.lane == lane
  }

  // ----- what the durable rows promise -------------------------------------

  /** Finished, or made redundant by a later position of the same collapsing arm. */
  ghost predicate Discharged(log: Log, w: World, p: nat) {
    p in w.terminal
    || (Collapses(log, p) && exists q :: p < q <= w.seen && SameArm(log, p, q))
  }

  /** Nothing the mark or a lane row passes over is lost. */
  ghost predicate NothingLost(log: Log, w: World) {
    && (forall p: nat :: log(p).Some? && (p <= w.mark || HadRow(log, w.table, p)) ==> Discharged(log, w, p))
    && (forall p: nat :: log(p).Some? && (p <= w.base || HadRow(log, w.baseRows, p)) ==> Discharged(log, w, p))
  }

  /** An invocation that began and has not ended stays above the mark and above its lane's row. */
  ghost predicate NothingAbandoned(log: Log, w: World) {
    && w.terminal <= w.invoked
    && (forall p :: p in w.invoked ==> log(p).Some? && p <= w.seen)
    && (forall p :: p in w.invoked && p !in w.terminal ==>
          w.mark < p && !HadRow(log, w.table, p) && !HadRow(log, w.baseRows, p))
  }

  /** The invariant of every moment, including inside the reader's critical section. */
  ghost predicate Inside(log: Log, w: World) {
    && Ordered(log, w) && Owned(w) && Answered(log, w) && Ranged(w) && Apart(log, w) && Inflight(w) && Open(log, w)
    && Unfolded(log, w) && Guarded(log, w) && Seeded(w) && ReadThrough(log, w) && Marked(w) && Frozen(w)
    && Ascending(log, w)
    && NothingLost(log, w) && NothingAbandoned(log, w)
  }

  /** The invariant between steps: the cursor has not run ahead of what was recorded as scanned. */
  ghost predicate Inv(log: Log, w: World) {
    Inside(log, w) && w.cursor <= w.s.scanned
  }
}
