/** The worker pool: one reader and any number of workers passing claims on lanes around, over the
    schedule of LaneSpec. A claim is a lane in the ready queue, in a worker's hands before it has
    taken the lane, or about to be offered. */
module LanePool {
  import opened Options
  import opened LaneSpec

  datatype Worker =
    | Idle
    | Holding(lane: LaneId)    // popped, not yet claimed
    | Owning(lane: LaneId)     // running the lane
    | Rearmed(lane: LaneId)    // gave the lane back with work in it, has not asked whether to offer it
    | Offering(lane: LaneId)   // found the effect runnable, has not pushed it

  datatype Pool = Pool(
    s: Lanes,
    ready: seq<LaneId>,
    offering: seq<LaneId>,     // lanes the reader armed or woke and has not pushed yet
    workers: seq<Worker>,
    accepting: bool)           // neither stopping nor quarantined

  // ----- the ready queue ---------------------------------------------------

  datatype Claim = Stopped | Claimed(lane: LaneId) | Waiting

  /** The queue all workers share. */
  class ReadyQueue {
    var ready: seq<LaneId>
    var stopping: bool

    constructor ()
      ensures ready == [] && !stopping
    {
      ready, stopping := [], false;
    }

    method Offer(lanes: seq<LaneId>)
      modifies this`ready
      ensures ready == old(ready) + lanes
    {
      for next := 0 to |lanes|
        invariant ready == old(ready) + lanes[..next]
      {
        ready := ready + [lanes[next]];
      }
    }

    /** One pass of the wait loop: a stopping pool hands nothing out, whatever is queued. */
    method Next() returns (claim: Claim)
      modifies this`ready
      ensures stopping ==> claim == Stopped && ready == old(ready)
      ensures !stopping && old(ready) == [] ==> claim == Waiting && ready == old(ready)
      ensures !stopping && old(ready) != [] ==> claim == Claimed(old(ready)[0]) && [old(ready)[0]] + ready == old(ready)
    {
      if stopping {
        return Stopped;
      }
      if ready == [] {
        return Waiting;
      }
      claim := Claimed(ready[0]);
      ready := ready[1..];
    }

    method Stop()
      modifies this`stopping
      ensures stopping
    {
      stopping := true;
    }
  }

  // ----- counting claims and owners ----------------------------------------

  predicate HasClaim(w: Worker, lane: LaneId) {
    (w.Holding? || w.Rearmed? || w.Offering?) && w.lane == lane
  }

  predicate HasLane(w: Worker, lane: LaneId) {
    w.Owning? && w.lane == lane
  }

  function Tick(owning: bool, w: Worker, lane: LaneId): nat {
    if (if owning then HasLane(w, lane) else HasClaim(w, lane)) then 1 else 0
  }

  function Tally(owning: bool, workers: seq<Worker>, lane: LaneId): nat {
    if workers == [] then 0 else Tick(owning, workers[0], lane) + Tally(owning, workers[1..], lane)
  }

  lemma {:induction false} TallyUpdate(owning: bool, workers: seq<Worker>, i: nat, w: Worker, lane: LaneId)
    requires i < |workers|
    ensures Tally(owning, workers[i := w], lane)
         == Tally(owning, workers, lane) - Tick(owning, workers[i], lane) + Tick(owning, w, lane)
    ensures Tick(owning, workers[i], lane) <= Tally(owning, workers, lane)
  {
    if i == 0 {
      assert workers[0 := w][1..] == workers[1..];
    } else {
      assert workers[i := w][1..] == workers[1..][i - 1 := w];
      TallyUpdate(owning, workers[1..], i - 1, w, lane);
    }
  }

  /** Two different workers both count. */
  lemma {:induction false} TallyBoth(owning: bool, workers: seq<Worker>, i: nat, j: nat, lane: LaneId)
    requires i < j < |workers|
    ensures Tick(owning, workers[i], lane) + Tick(owning, workers[j], lane) <= Tally(owning, workers, lane)
  {
    if i > 0 {
      TallyBoth(owning, workers[1..], i - 1, j - 1, lane);
    } else {
      TallyUpdate(owning, workers[1..], j - 1, Idle, lane);
    }
  }

  /** How many claims on a lane are out: queued, about to be offered, or in a worker's hands. */
  function Claims(p: Pool, lane: LaneId): nat {
    multiset(p.ready)[lane] + multiset(p.offering)[lane] + Tally(false, p.workers, lane)
  }

  /** How many workers run a lane. */
  function Owners(p: Pool, lane: LaneId): nat {
    Tally(true, p.workers, lane)
  }

  // ----- the protocol ------------------------------------------------------

  datatype Step =
    | AdmitOne(lane: LaneId, position: nat, arm: nat, declared: bool)
    | WakeDue(now: nat, woken: seq<LaneId>)
    | WakeSkips(wanted: set<nat>, woken: seq<LaneId>)
    | OfferAll
    | Pop(i: nat)
    | ClaimLane(i: nat)
    | TakeHead(i: nat)
    | Retire(i: nat, position: nat)
    | ParkLane(i: nat, deadline: nat)
    | GiveBack(i: nat)
    | Decide(i: nat)
    | OfferBack(i: nat)
    | Aside(s: Lanes)
    | Halt

  /** `lanes` names exactly the lanes of `which`, each once. */
  ghost predicate Lists(lanes: seq<LaneId>, which: set<LaneId>) {
    && (forall lane :: lane in lanes <==> lane in which)
    && (forall i, j :: 0 <= i < j < |lanes| ==> lanes[i] != lanes[j])
  }

  ghost predicate Enabled(p: Pool, step: Step) {
    match step
    case AdmitOne(_, _, _, _) => true
    case WakeDue(now, woken) => Lists(woken, Woken(p.s, Due(p.s, now)))
    case WakeSkips(wanted, woken) => Lists(woken, Woken(p.s, Wanted(p.s, wanted)))
    case OfferAll => true
    case Pop(i) => i < |p.workers| && p.workers[i].Idle? && p.ready != []
    case ClaimLane(i) => i < |p.workers| && p.workers[i].Holding?
    case TakeHead(i) => i < |p.workers| && p.workers[i].Owning?
    case Retire(i, _) => i < |p.workers| && p.workers[i].Owning?
    case ParkLane(i, _) => i < |p.workers| && p.workers[i].Owning?
    case GiveBack(i) => i < |p.workers| && p.workers[i].Owning?
    case Decide(i) => i < |p.workers| && p.workers[i].Rearmed?
    case OfferBack(i) => i < |p.workers| && p.workers[i].Offering?
    // Rows, marks and high-waters: nothing the pool looks at.
    case Aside(s) => s.queues == p.s.queues && s.place == p.s.place && s.deferred == p.s.deferred
    case Halt => true
  }

  ghost function Next(p: Pool, step: Step): Pool
    requires Enabled(p, step)
  {
    match step
    case AdmitOne(lane, position, arm, declared) =>
      var (s, admitted) := Admit(p.s, lane, position, arm, declared);
      p.(s := s, offering := if admitted.armed then p.offering + [lane] else p.offering)
    case WakeDue(now, woken) => p.(s := Promote(p.s, now), offering := p.offering + woken)
    case WakeSkips(wanted, woken) => p.(s := PromoteMatching(p.s, wanted), offering := p.offering + woken)
    case OfferAll => p.(ready := p.ready + p.offering, offering := [])
    case Pop(i) => p.(ready := p.ready[1..], workers := p.workers[i := Holding(p.ready[0])])
    case ClaimLane(i) =>
      var (s, claimed) := LaneSpec.Claim(p.s, p.workers[i].lane);
      p.(s := s, workers := p.workers[i := if claimed then Owning(p.workers[i].lane) else Idle])
    case TakeHead(i) => p.(s := Head(p.s, p.workers[i].lane).0)
    case Retire(i, position) => p.(s := Complete(p.s, p.workers[i].lane, position))
    case ParkLane(i, deadline) => p.(s := Defer(p.s, p.workers[i].lane, deadline), workers := p.workers[i := Idle])
    case GiveBack(i) =>
      var (s, rearmed) := Release(p.s, p.workers[i].lane);
      p.(s := s, workers := p.workers[i := if rearmed then Rearmed(p.workers[i].lane) else Idle])
    case Decide(i) => p.(workers := p.workers[i := if p.accepting then Offering(p.workers[i].lane) else Idle])
    case OfferBack(i) => p.(ready := p.ready + [p.workers[i].lane], workers := p.workers[i := Idle])
    case Aside(s) => p.(s := s)
    case Halt => p.(accepting := false)
  }

  ghost function Started(size: nat, scanned: nat, rows: map<LaneId, nat>, begun: set<nat>, blind: bool): Pool {
    Pool(Resuming(scanned, rows, begun, blind), [], [], seq(size, _ => Idle), true)
  }

  // ----- the invariant -----------------------------------------------------

  predicate At(s: Lanes, lane: LaneId, place: Place) {
    lane in s.place && s.place[lane] == place
  }

  /** A lane has at most one claim out, only while it is queued, and has one while the effect accepts work. */
  ghost predicate OneClaim(p: Pool) {
    forall lane :: ClaimFits(p, lane)
  }

  ghost predicate ClaimFits(p: Pool, lane: LaneId) {
    && Claims(p, lane) <= 1
    && (Claims(p, lane) == 1 ==> At(p.s, lane, Queued))
    && (p.accepting && At(p.s, lane, Queued) ==> Claims(p, lane) == 1)
  }

  ghost predicate OneOwner(p: Pool) {
    forall lane :: OwnerFits(p, lane)
  }

  ghost predicate OwnerFits(p: Pool, lane: LaneId) {
    Owners(p, lane) == if At(p.s, lane, Running) then 1 else 0
  }

  /** The deadlines are exactly those of the parked lanes. */
  ghost predicate Deadlines(s: Lanes) {
    && (forall entry :: entry in s.deferred ==> At(s, entry.1, Deferred(entry.0)))
    && (forall lane :: lane in s.place && s.place[lane].Deferred? ==> (s.place[lane].deadline, lane) in s.deferred)
  }

  ghost predicate Homes(s: Lanes) {
    forall lane :: lane in s.queues ==> s.queues[lane] != [] && lane in s.place
  }

  ghost predicate Inv(p: Pool) {
    OneClaim(p) && OneOwner(p) && Deadlines(p.s) && Homes(p.s)
  }

  lemma {:induction false} AllIdle(owning: bool, size: nat, lane: LaneId)
    ensures Tally(owning, seq(size, _ => Idle), lane) == 0
  {
    if size > 0 {
      assert seq(size, _ => Idle)[1..] == seq(size - 1, _ => Idle);
      AllIdle(owning, size - 1, lane);
    }
  }

  lemma StartedInv(size: nat, scanned: nat, rows: map<LaneId, nat>, begun: set<nat>, blind: bool)
    ensures Inv(Started(size, scanned, rows, begun, blind))
  {
    var p := Started(size, scanned, rows, begun, blind);
    forall lane ensures ClaimFits(p, lane) && OwnerFits(p, lane) {
      AllIdle(false, size, lane);
      AllIdle(true, size, lane);
    }
  }

  // ----- every step keeps it -----------------------------------------------

  /** A list of distinct lanes counts each once. */
  lemma {:induction false} ListedOnce(lanes: seq<LaneId>, which: set<LaneId>)
    requires Lists(lanes, which)
    ensures forall lane :: multiset(lanes)[lane] == if lane in which then 1 else 0
    decreases |lanes|
  {
    if lanes != [] {
      var last := |lanes| - 1;
      assert lanes == lanes[..last] + [lanes[last]];
      forall lane | lane in which ensures lane in lanes[..last] <==> lane != lanes[last] {
        if lane in lanes && lane != lanes[last] {
          var i :| 0 <= i < |lanes| && lanes[i] == lane;
          assert lanes[..last][i] == lane;
        }
      }
      ListedOnce(lanes[..last], which - {lanes[last]});
    }
  }

  /** What one worker moving from one state to another does to the counts of a lane. */
  lemma WorkerMoves(p: Pool, i: nat, w: Worker, p': Pool, lane: LaneId)
    requires i < |p.workers| && p'.workers == p.workers[i := w] && p'.offering == p.offering
    ensures Claims(p', lane) - multiset(p'.ready)[lane] + Tick(false, p.workers[i], lane)
         == Claims(p, lane) - multiset(p.ready)[lane] + Tick(false, w, lane)
    ensures Owners(p', lane) + Tick(true, p.workers[i], lane) == Owners(p, lane) + Tick(true, w, lane)
    ensures Tick(false, p.workers[i], lane) <= Claims(p, lane) && Tick(true, p.workers[i], lane) <= Owners(p, lane)
  {
    TallyUpdate(false, p.workers, i, w, lane);
    TallyUpdate(true, p.workers, i, w, lane);
  }

  lemma WokenPlaces(s: Lanes, s': Lanes, due: set<(nat, LaneId)>)
    requires Deadlines(s) && Homes(s) && due <= s.deferred && s' == Wake(s, due).(skipPromoted := s'.skipPromoted)
    ensures Deadlines(s') && Homes(s')
  {
    forall entry | entry in s'.deferred ensures At(s', entry.1, Deferred(entry.0)) {
      assert At(s, entry.1, Deferred(entry.0));
    }
  }

  /** Waking lanes and queueing their offers keeps everything. */
  lemma WakeInv(p: Pool, s: Lanes, due: set<(nat, LaneId)>, woken: seq<LaneId>)
    requires Inv(p) && due <= p.s.deferred && Lists(woken, Woken(p.s, due))
    requires s == Wake(p.s, due).(skipPromoted := s.skipPromoted)
    ensures Inv(p.(s := s, offering := p.offering + woken))
  {
    var p' := p.(s := s, offering := p.offering + woken);
    WokenPlaces(p.s, s, due);
    ListedOnce(woken, Woken(p.s, due));
    forall lane ensures ClaimFits(p', lane) && OwnerFits(p', lane) {
      assert ClaimFits(p, lane) && OwnerFits(p, lane);
      assert multiset(p'.offering)[lane] == multiset(p.offering)[lane] + multiset(woken)[lane];
    }
  }

  /** What admission does to places: a lane that had none is queued. */
  lemma AdmitPlaces(s: Lanes, lane: LaneId, position: nat, arm: nat, declared: bool)
    requires Homes(s)
    ensures
      var (s', admitted) := Admit(s, lane, position, arm, declared);
      && Homes(s') && s'.deferred == s.deferred && (admitted.armed ==> lane !in s.place)
      && s'.place == if admitted.armed then s.place[lane := Queued] else s.place
  {
    hide Superseded, LatestAfter;
  }

  lemma AdmitInv(p: Pool, lane: LaneId, position: nat, arm: nat, declared: bool)
    requires Inv(p)
    ensures Inv(Next(p, AdmitOne(lane, position, arm, declared)))
  {
    var p' := Next(p, AdmitOne(lane, position, arm, declared));
    AdmitPlaces(p.s, lane, position, arm, declared);
    hide Admit, Homes, Tally;
    assert multiset(p.offering + [lane]) == multiset(p.offering) + multiset{lane};
    forall l ensures ClaimFits(p', l) && OwnerFits(p', l) {
      assert ClaimFits(p, l) && OwnerFits(p, l);
    }
  }

  lemma QueueInv(p: Pool, step: Step)
    requires Inv(p) && Enabled(p, step) && (step.OfferAll? || step.Pop?)
    ensures Inv(Next(p, step))
  {
    var p' := Next(p, step);
    assert step.Pop? ==> p.ready == [p.ready[0]] + p'.ready;
    forall lane ensures ClaimFits(p', lane) && OwnerFits(p', lane) {
      assert ClaimFits(p, lane) && OwnerFits(p, lane);
      if step.Pop? { WorkerMoves(p, step.i, Holding(p.ready[0]), p', lane); }
    }
  }

  /** A lane that has a claim out is waiting to be claimed. */
  lemma ClaimGranted(p: Pool, i: nat)
    requires OneClaim(p) && i < |p.workers| && p.workers[i].Holding?
    ensures At(p.s, p.workers[i].lane, Queued) && LaneSpec.Claim(p.s, p.workers[i].lane).1
  {
    assert ClaimFits(p, p.workers[i].lane);
    TallyUpdate(false, p.workers, i, Idle, p.workers[i].lane);
  }

  lemma ClaimInv(p: Pool, i: nat)
    requires Inv(p) && Enabled(p, ClaimLane(i))
    ensures Inv(Next(p, ClaimLane(i)))
  {
    ClaimGranted(p, i);
    var p' := Next(p, ClaimLane(i));
    forall lane ensures ClaimFits(p', lane) && OwnerFits(p', lane) {
      assert ClaimFits(p, lane) && OwnerFits(p, lane);
      WorkerMoves(p, i, Owning(p.workers[i].lane), p', lane);
    }
  }

  lemma OwnedRuns(p: Pool, i: nat)
    requires OneOwner(p) && i < |p.workers| && p.workers[i].Owning?
    ensures At(p.s, p.workers[i].lane, Running)
  {
    assert OwnerFits(p, p.workers[i].lane);
    TallyUpdate(true, p.workers, i, Idle, p.workers[i].lane);
  }

  lemma ParkInv(p: Pool, i: nat, deadline: nat)
    requires Inv(p) && Enabled(p, ParkLane(i, deadline))
    ensures Inv(Next(p, ParkLane(i, deadline)))
  {
    OwnedRuns(p, i);
    var p' := Next(p, ParkLane(i, deadline));
    forall lane ensures ClaimFits(p', lane) && OwnerFits(p', lane) {
      assert ClaimFits(p, lane) && OwnerFits(p, lane);
      WorkerMoves(p, i, Idle, p', lane);
    }
    forall entry | entry in p'.s.deferred ensures At(p'.s, entry.1, Deferred(entry.0)) {
      assert entry == (deadline, p.workers[i].lane) || At(p.s, entry.1, Deferred(entry.0));
    }
  }

  lemma GiveBackInv(p: Pool, i: nat)
    requires Inv(p) && Enabled(p, GiveBack(i))
    ensures Inv(Next(p, GiveBack(i)))
  {
    OwnedRuns(p, i);
    var p' := Next(p, GiveBack(i));
    forall lane ensures ClaimFits(p', lane) && OwnerFits(p', lane) {
      assert ClaimFits(p, lane) && OwnerFits(p, lane);
      WorkerMoves(p, i, p'.workers[i], p', lane);
    }
    forall entry | entry in p'.s.deferred ensures At(p'.s, entry.1, Deferred(entry.0)) {
      assert At(p.s, entry.1, Deferred(entry.0));
    }
  }

  lemma OfferBackInv(p: Pool, step: Step)
    requires Inv(p) && Enabled(p, step) && (step.Decide? || step.OfferBack?)
    ensures Inv(Next(p, step))
  {
    var p' := Next(p, step);
    forall lane ensures ClaimFits(p', lane) && OwnerFits(p', lane) {
      assert ClaimFits(p, lane) && OwnerFits(p, lane);
      WorkerMoves(p, step.i, p'.workers[step.i], p', lane);
    }
  }

  lemma StepInv(p: Pool, step: Step)
    requires Inv(p) && Enabled(p, step)
    ensures Inv(Next(p, step))
  {
    match step
    case AdmitOne(lane, position, arm, declared) => AdmitInv(p, lane, position, arm, declared);
    case WakeDue(now, woken) => WakeInv(p, Promote(p.s, now), Due(p.s, now), woken);
    case WakeSkips(wanted, woken) => WakeInv(p, PromoteMatching(p.s, wanted), Wanted(p.s, wanted), woken);
    case OfferAll => QueueInv(p, step);
    case Pop(i) => QueueInv(p, step);
    case ClaimLane(i) => ClaimInv(p, i);
    case TakeHead(i) => SamePlaces(p, Next(p, step));
    case Retire(i, position) => CompleteHomes(p.s, p.workers[i].lane, position); SamePlaces(p, Next(p, step));
    case ParkLane(i, deadline) => ParkInv(p, i, deadline);
    case GiveBack(i) => GiveBackInv(p, i);
    case Decide(i) => OfferBackInv(p, step);
    case OfferBack(i) => OfferBackInv(p, step);
    case Aside(s) => SamePlaces(p, Next(p, step));
    case Halt => SamePlaces(p, Next(p, step));
  }

  lemma CompleteHomes(s: Lanes, lane: LaneId, position: nat)
    requires Homes(s)
    ensures Homes(Complete(s, lane, position))
    ensures Complete(s, lane, position).place == s.place && Complete(s, lane, position).deferred == s.deferred
  {
  }

  lemma SamePlaces(p: Pool, p': Pool)
    requires Inv(p) && Homes(p'.s) && p'.s.place == p.s.place && p'.s.deferred == p.s.deferred
    requires p'.ready == p.ready && p'.offering == p.offering && p'.workers == p.workers
      && (p'.accepting ==> p.accepting)
    ensures Inv(p')
  {
    forall lane ensures ClaimFits(p', lane) && OwnerFits(p', lane) {
      assert ClaimFits(p, lane) && OwnerFits(p, lane);
    }
  }

  // ----- every run, and what it promises -----------------------------------

  ghost predicate Reaches(p: Pool, run: seq<Step>, p': Pool)
    decreases |run|
  {
    if run == [] then p' == p else Enabled(p, run[0]) && Reaches(Next(p, run[0]), run[1..], p')
  }

  lemma {:induction false} RunInv(p: Pool, run: seq<Step>, p': Pool)
    requires Inv(p) && Reaches(p, run, p')
    ensures Inv(p')
    decreases |run|
  {
    if run != [] {
      hide Inv, Enabled, Next;
      StepInv(p, run[0]);
      RunInv(Next(p, run[0]), run[1..], p');
    }
  }

  /** In every state a pool can reach: while the effect accepts work, a lane is queued exactly when one
      claim on it is out; it is running exactly when one worker owns it; and it is parked exactly when
      its deadline is live. */
  lemma PlaceExactly(size: nat, scanned: nat, rows: map<LaneId, nat>, begun: set<nat>, blind: bool,
                     run: seq<Step>, p: Pool, lane: LaneId)
    requires Reaches(Started(size, scanned, rows, begun, blind), run, p)
    ensures p.accepting ==> (At(p.s, lane, Queued) <==> Claims(p, lane) == 1)
    ensures Claims(p, lane) <= 1 && Owners(p, lane) <= 1
    ensures At(p.s, lane, Running) <==> Owners(p, lane) == 1
    ensures forall deadline: nat :: At(p.s, lane, Deferred(deadline)) <==> (deadline, lane) in p.s.deferred
  {
    StartedInv(size, scanned, rows, begun, blind);
    RunInv(Started(size, scanned, rows, begun, blind), run, p);
    hide Reaches, Started, Claims, Owners;
    assert ClaimFits(p, lane) && OwnerFits(p, lane);
    forall deadline: nat ensures At(p.s, lane, Deferred(deadline)) <==> (deadline, lane) in p.s.deferred {
      assert (deadline, lane) in p.s.deferred ==> At(p.s, lane, Deferred(deadline));
    }
  }

  // ----- a parked lane stays parked ----------------------------------------

  /** The step neither reaches the lane's deadline nor skips the position it runs next. */
  ghost predicate LeavesParked(p: Pool, step: Step, lane: LaneId, deadline: nat) {
    match step
    case WakeDue(now, _) => now < deadline
    case WakeSkips(wanted, _) => QueueOf(p.s, lane) == [] || QueueOf(p.s, lane)[0].hi !in wanted
    case _ => true
  }

  ghost predicate AllLeave(p: Pool, run: seq<Step>, lane: LaneId, deadline: nat)
    decreases |run|
  {
    run == [] || (Enabled(p, run[0]) && LeavesParked(p, run[0], lane, deadline)
                  && AllLeave(Next(p, run[0]), run[1..], lane, deadline))
  }

  lemma WakeLeaves(s: Lanes, due: set<(nat, LaneId)>, lane: LaneId, deadline: nat)
    requires At(s, lane, Deferred(deadline)) && (deadline, lane) !in due
    ensures At(Wake(s, due), lane, Deferred(deadline))
  {
  }

  lemma StepLeaves(p: Pool, step: Step, lane: LaneId, deadline: nat)
    requires Inv(p) && Enabled(p, step) && At(p.s, lane, Deferred(deadline)) && LeavesParked(p, step, lane, deadline)
    ensures At(Next(p, step).s, lane, Deferred(deadline))
  {
    match step
    case WakeDue(now, woken) => WakeLeaves(p.s, Due(p.s, now), lane, deadline);
    case WakeSkips(wanted, woken) => WakeLeaves(p.s, Wanted(p.s, wanted), lane, deadline);
    case AdmitOne(other, position, arm, declared) => AdmitPlaces(p.s, other, position, arm, declared);
    case ClaimLane(i) => ClaimGranted(p, i);
    case ParkLane(i, _) => OwnedRuns(p, i);
    case GiveBack(i) => OwnedRuns(p, i);
    case Retire(i, position) => CompleteHomes(p.s, p.workers[i].lane, position);
    case _ =>
  }

  /** Over any run, a parked lane stays parked through every promotion before its deadline, unless an
      operator skips the position it runs next. */
  lemma {:induction false} ParkedStays(p: Pool, run: seq<Step>, p': Pool, lane: LaneId, deadline: nat)
    requires Inv(p) && Reaches(p, run, p') && At(p.s, lane, Deferred(deadline)) && AllLeave(p, run, lane, deadline)
    ensures At(p'.s, lane, Deferred(deadline))
    decreases |run|
  {
    if run != [] {
      hide Inv, Enabled, Next, LeavesParked;
      StepInv(p, run[0]);
      StepLeaves(p, run[0], lane, deadline);
      ParkedStays(Next(p, run[0]), run[1..], p', lane, deadline);
    }
  }

  /** A promotion queues a parked lane exactly when its deadline has passed. */
  lemma PromotedExactly(p: Pool, now: nat, woken: seq<LaneId>, lane: LaneId, deadline: nat)
    requires Inv(p) && Enabled(p, WakeDue(now, woken)) && At(p.s, lane, Deferred(deadline))
    ensures deadline <= now ==> At(Next(p, WakeDue(now, woken)).s, lane, Queued) && lane in woken
    ensures now < deadline ==> At(Next(p, WakeDue(now, woken)).s, lane, Deferred(deadline)) && lane !in woken
  {
    assert (deadline, lane) in p.s.deferred;
  }

  /** No lane runs on two workers, and a worker's claim is never declined. */
  lemma ExclusiveLanes(p: Pool, i: nat, j: nat)
    requires Inv(p) && i < |p.workers| && j < |p.workers|
    ensures p.workers[i].Owning? && p.workers[i] == p.workers[j] ==> i == j
    ensures p.workers[i].Holding? ==> LaneSpec.Claim(p.s, p.workers[i].lane).1
  {
    if p.workers[i].Owning? && p.workers[i] == p.workers[j] && i != j {
      assert OwnerFits(p, p.workers[i].lane);
      TallyBoth(true, p.workers, if i < j then i else j, if i < j then j else i, p.workers[i].lane);
    }
    if p.workers[i].Holding? { ClaimGranted(p, i); }
  }

  /** No lane with work is stranded: it has a claim on its way to a worker, an owner, or a deadline
      that will wake it. */
  lemma NeverStranded(p: Pool, lane: LaneId)
    requires Inv(p) && p.accepting && lane in p.s.queues
    ensures Claims(p, lane) + Owners(p, lane) <= 1
    ensures Claims(p, lane) + Owners(p, lane) == 0 ==>
      exists deadline :: (deadline, lane) in p.s.deferred
        && forall now :: deadline <= now ==> lane in Woken(p.s, Due(p.s, now))
  {
    assert ClaimFits(p, lane) && OwnerFits(p, lane);
    if p.s.place[lane].Deferred? {
      var deadline := p.s.place[lane].deadline;
      assert (deadline, lane) in p.s.deferred;
      forall now: nat | deadline <= now ensures lane in Woken(p.s, Due(p.s, now)) {
        assert (deadline, lane) in Due(p.s, now);
      }
    } else {
      assert At(p.s, lane, Queued) || At(p.s, lane, Running);
    }
  }
}
