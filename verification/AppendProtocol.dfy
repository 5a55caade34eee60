/** Retrying commands against one log: a boundary-checked append, a delta read on each retry and an
    existence clause, interleaved in any order (`src/heklang_host.rs`, `src/dispatch.rs`). */
module AppendProtocol {
  import opened Options
  import opened TephraLog

  datatype Decision = Commit(events: seq<Event>) | Reject(code: string)

  /** One declaration run of a command: what it reads, given the states of the runs before it, and the
      state it folds that into. */
  datatype Stage<!S(!new)> = Stage(slices: seq<S> -> seq<Slice>, init: S, step: (S, Record) -> S)

  /** A command reads once for each of its stages, unless the states so far settle it earlier, and
      decides from the states it then has. */
  datatype Command<!S(!new)> = Command(stages: seq<Stage<S>>, settled: seq<S> -> bool, decide: seq<S> -> Decision)

  function Fold<S(!new)>(stage: Stage<S>, s: S, records: seq<Record>): S
    decreases |records|
  {
    if records == [] then s else Fold(stage, stage.step(s, records[0]), records[1..])
  }

  predicate Ends<S(!new)>(cmd: Command<S>, states: seq<S>) {
    |states| >= |cmd.stages| || cmd.settled(states)
  }

  /** The states a command comes to alone on a log, each stage folded from the whole of it. */
  function Alone<S(!new)>(cmd: Command<S>, log: seq<Entry>, states: seq<S>): seq<S>
    decreases |cmd.stages| - |states|
  {
    if Ends(cmd, states) then states
    else
      var stage := cmd.stages[|states|];
      Alone(cmd, log, states + [Fold(stage, stage.init, Records(log, stage.slices(states), 0, |log|))])
  }

  /** What the command would decide, run alone on this log. */
  function DecideOn<S(!new)>(cmd: Command<S>, log: seq<Entry>): Decision {
    cmd.decide(Alone(cmd, log, []))
  }

  /** What one stage read, the state it folded and how much of the log that state covers. */
  datatype Folded<!S(!new)> = Folded(slices: seq<Slice>, state: S, covered: nat)

  function States<S(!new)>(runs: seq<Folded<S>>): seq<S> {
    seq(|runs|, i requires 0 <= i < |runs| => runs[i].state)
  }

  /** Everything an attempt read. */
  function Asked<S(!new)>(runs: seq<Folded<S>>): seq<Slice> {
    if runs == [] then [] else Asked(runs[..|runs| - 1]) + runs[|runs| - 1].slices
  }

  datatype Outcome =
    | Committed(first: nat, events: seq<Event>)
    | Settled(decision: Decision)
    | AlreadyCommitted(first: nat, entries: seq<Entry>)
    | ConflictLost
    | Unavailable
    | Broken

  datatype Phase = Reading | Recovering(fallback: Outcome) | Done(outcome: Outcome)

  datatype Request<!S(!new)> = Request(
    cmd: Command<S>,
    idem: Option<string>,      // the caller's key
    call: Option<string>,      // the journal identity of an effect's `invoke`
    attempts: nat,
    runs: seq<Folded<S>>,      // the stages this attempt has read
    kept: seq<Folded<S>>,      // those the last attempt folded
    phase: Phase)

  datatype World<!S(!new)> = World(log: seq<Entry>, requests: map<nat, Request<S>>)

  /** The tag an append is guarded against. */
  function Guard<S(!new)>(r: Request<S>): Option<string> {
    if r.idem.Some? then r.idem else r.call
  }

  /** What the events of an append are stamped with: only ever the caller's own key. */
  function Stamped(events: seq<Event>, execution: nat, idem: Option<string>): (batch: seq<Entry>)
    ensures |batch| == |events|
    ensures forall i :: 0 <= i < |events| ==> batch[i] == Entry(events[i], execution, idem)
  {
    seq(|events|, i requires 0 <= i < |events| => Entry(events[i], execution, idem))
  }

  /** The entries that carry a tag, where they are. */
  function Tagged(log: seq<Entry>, tag: string, from: nat): seq<Sequenced>
    decreases |log| - from
  {
    if from >= |log| then []
    else (if log[from].tag == Some(tag) then [Sequenced(from + 1, log[from])] else []) + Tagged(log, tag, from + 1)
  }

  /** What a search for an earlier commit of this request makes of the entries it finds. */
  function Recovered(found: seq<Sequenced>, otherwise: Outcome): Outcome {
    if found == [] then otherwise
    else if exists i :: 0 <= i < |found| && found[i].entry.execution != found[0].entry.execution then Broken
    else AlreadyCommitted(found[0].position, seq(|found|, i requires 0 <= i < |found| => found[i].entry))
  }

  datatype Step<!S(!new)> =
    | Start(id: nat, cmd: Command<S>, idem: Option<string>, call: Option<string>, attempts: nat)
    | Read(id: nat, resume: bool)
    | Attempt(id: nat, after: nat, existenceFirst: bool)
    | Recover(id: nat)
    | Refuse(id: nat)

  /** The request has a stage to read before it can decide. */
  predicate Unread<S(!new)>(r: Request<S>) {
    r.phase.Reading? && !Ends(r.cmd, States(r.runs))
  }

  predicate Ready<S(!new)>(r: Request<S>) {
    r.phase.Reading? && Ends(r.cmd, States(r.runs))
  }

  /** What the next stage reads. */
  function NextSlices<S(!new)>(r: Request<S>): seq<Slice>
    requires Unread(r)
  {
    r.cmd.stages[|r.runs|].slices(States(r.runs))
  }

  /** The last attempt read the same for this stage, so only what lies past its state is to be read. */
  predicate Resumes<S(!new)>(r: Request<S>)
    requires Unread(r)
  {
    |r.runs| < |r.kept| && r.kept[|r.runs|].slices == NextSlices(r)
  }

  /** The boundary an append is checked after passes nothing that some stage has not read. */
  predicate BehindAll<S(!new)>(after: nat, runs: seq<Folded<S>>) {
    forall k :: 0 <= k < |runs| ==> after <= runs[k].covered
  }

  /** The next stage's state once it has read all the log. */
  function ReadStage<S(!new)>(log: seq<Entry>, r: Request<S>, resume: bool): Folded<S>
    requires Unread(r) && (resume ==> Resumes(r))
  {
    var stage, slices := r.cmd.stages[|r.runs|], NextSlices(r);
    var from := if resume then r.kept[|r.runs|] else Folded(slices, stage.init, 0);
    Folded(slices, Fold(stage, from.state, Records(log, slices, from.covered, |log|)), |log|)
  }

  ghost predicate Enabled<S(!new)>(w: World<S>, step: Step<S>) {
    match step
    case Start(id, _, _, _, _) => id !in w.requests
    case Read(id, resume) =>
      id in w.requests && Unread(w.requests[id]) && (resume ==> Resumes(w.requests[id]))
    case Attempt(id, after, _) =>
      id in w.requests && Ready(w.requests[id]) && after <= |w.log| && BehindAll(after, w.requests[id].runs)
    case Recover(id) => id in w.requests && w.requests[id].phase.Recovering? && w.requests[id].idem.Some?
    // A draining writer answers before anything is appended.
    case Refuse(id) => id in w.requests && Ready(w.requests[id])
  }

  function Put<S(!new)>(w: World<S>, id: nat, r: Request<S>): World<S> {
    w.(requests := w.requests[id := r])
  }

  /** The attempt of a request that decided to append `events`. */
  function TryAppend<S(!new)>(
      w: World<S>, id: nat, r: Request<S>, events: seq<Event>, after: nat, existenceFirst: bool): World<S> {
    var taken, moved := Taken(w.log, Guard(r)), Moved(w.log, Asked(r.runs), after);
    if taken && (existenceFirst || !moved) then
      Put(w, id, r.(phase := if r.idem.Some? then Recovering(Broken) else Done(Broken)))
    else if moved then Put(w, id, Beaten(r))
    else Put(w, id, r.(phase := Done(Committed(|w.log| + 1, events)))).(log := w.log + Stamped(events, id, r.idem))
  }

  /** An attempt that lost: the next one starts over from its first stage, keeping what this one folded. */
  function Beaten<S(!new)>(r: Request<S>): Request<S> {
    if r.attempts <= 1 then r.(phase := Done(ConflictLost))
    else r.(attempts := r.attempts - 1, runs := [], kept := r.runs)
  }

  function Settles<S(!new)>(r: Request<S>, decision: Decision): Phase {
    // Nothing was appended, so only a search can find an earlier commit of the same request.
    if r.cmd.stages != [] && r.idem.Some? then Recovering(Settled(decision)) else Done(Settled(decision))
  }

  ghost function Next<S(!new)>(w: World<S>, step: Step<S>): World<S>
    requires Enabled(w, step)
  {
    match step
    case Start(id, cmd, idem, call, attempts) =>
      Put(w, id, Request(cmd, idem, call, attempts, [], [], if attempts == 0 then Done(ConflictLost) else Reading))
    case Read(id, resume) =>
      var r := w.requests[id];
      Put(w, id, r.(runs := r.runs + [ReadStage(w.log, r, resume)]))
    case Attempt(id, after, existenceFirst) =>
      var r := w.requests[id];
      var decision := r.cmd.decide(States(r.runs));
      if decision.Commit? && decision.events != [] then TryAppend(w, id, r, decision.events, after, existenceFirst)
      else Put(w, id, r.(phase := Settles(r, decision)))
    case Recover(id) =>
      var r := w.requests[id];
      Put(w, id, r.(phase := Done(Recovered(Tagged(w.log, r.idem.value, 0), r.phase.fallback))))
    case Refuse(id) => Put(w, id, w.requests[id].(phase := Done(Unavailable)))
  }

  // ----- folding and reading in pieces -------------------------------------

  lemma {:induction false} FoldJoin<S(!new)>(stage: Stage<S>, s: S, a: seq<Record>, b: seq<Record>)
    ensures Fold(stage, Fold(stage, s, a), b) == Fold(stage, s, a + b)
    decreases |a|
  {
    if a == [] {
      assert a + b == b;
    } else {
      assert (a + b)[1..] == a[1..] + b;
      FoldJoin(stage, stage.step(s, a[0]), a[1..], b);
    }
  }

  /** A stage takes its records into the state it has so far, one after the other. */
  lemma FoldEnds<S(!new)>(stage: Stage<S>, s: S, records: seq<Record>, r: Record)
    ensures Fold(stage, s, []) == s
    ensures Fold(stage, s, records + [r]) == stage.step(Fold(stage, s, records), r)
  {
    FoldJoin(stage, s, records, [r]);
    assert [r][1..] == [];
  }

  /** So a stage that counts comes to the number of records it read. */
  lemma {:induction false} FoldCounts(stage: Stage<nat>, s: nat, records: seq<Record>)
    requires forall n: nat, r :: stage.step(n, r) == n + 1
    ensures Fold(stage, s, records) == s + |records|
    decreases |records|
  {
    if records != [] {
      var last := |records| - 1;
      assert records == records[..last] + [records[last]];
      FoldCounts(stage, s, records[..last]);
      FoldEnds(stage, s, records[..last], records[last]);
    }
  }

  lemma {:induction false} RecordsJoin(log: seq<Entry>, slices: seq<Slice>, from: nat, middle: nat, upto: nat)
    requires from <= middle <= upto <= |log|
    ensures Records(log, slices, from, upto) == Records(log, slices, from, middle) + Records(log, slices, middle, upto)
    decreases middle - from
  {
    if from < middle { RecordsJoin(log, slices, from + 1, middle, upto); }
  }

  /** What a log holds is not changed by appending to it. */
  lemma {:induction false} RecordsKept(log: seq<Entry>, batch: seq<Entry>, slices: seq<Slice>, from: nat, upto: nat)
    requires upto <= |log|
    ensures Records(log + batch, slices, from, upto) == Records(log, slices, from, upto)
    decreases upto - from
  {
    if from < upto { RecordsKept(log, batch, slices, from + 1, upto); }
  }

  // ----- the invariant -----------------------------------------------------

  /** A state folds exactly what it covers, however many reads that took. */
  ghost predicate FoldsAll<S(!new)>(log: seq<Entry>, stage: Stage<S>, f: Folded<S>) {
    f.covered <= |log| && f.state == Fold(stage, stage.init, Records(log, f.slices, 0, f.covered))
  }

  ghost predicate AllFold<S(!new)>(log: seq<Entry>, cmd: Command<S>, runs: seq<Folded<S>>) {
    |runs| <= |cmd.stages| && forall k :: 0 <= k < |runs| ==> FoldsAll(log, cmd.stages[k], runs[k])
  }

  /** Each stage read what the states before it asked for. */
  ghost predicate InTurn<S(!new)>(cmd: Command<S>, runs: seq<Folded<S>>) {
    |runs| <= |cmd.stages| && forall k :: 0 <= k < |runs| ==>
      !Ends(cmd, States(runs[..k])) && runs[k].slices == cmd.stages[k].slices(States(runs[..k]))
  }

  ghost predicate Covers<S(!new)>(log: seq<Entry>, r: Request<S>) {
    AllFold(log, r.cmd, r.runs) && AllFold(log, r.cmd, r.kept) && InTurn(r.cmd, r.runs)
  }

  ghost predicate Wrote<S(!new)>(r: Request<S>) {
    r.phase.Done? && r.phase.outcome.Committed?
  }

  function First<S(!new)>(r: Request<S>): nat
    requires Wrote(r)
  {
    r.phase.outcome.first
  }

  function Written<S(!new)>(r: Request<S>): seq<Event>
    requires Wrote(r)
  {
    r.phase.outcome.events
  }

  /** A commit's events are in the log where it says, stamped as its own, and are what its command
      decides run alone on the log just before them. */
  ghost predicate Serial<S(!new)>(log: seq<Entry>, id: nat, r: Request<S>)
    requires Wrote(r)
  {
    var at := First(r) - 1;
    && 0 <= at && Written(r) != [] && at + |Written(r)| <= |log|
    && log[at..at + |Written(r)|] == Stamped(Written(r), id, r.idem)
    && DecideOn(r.cmd, log[..at]) == Commit(Written(r))
  }

  /** The entry at `i` belongs to the commit of the request it names. */
  ghost predicate OwnedEntry<S(!new)>(w: World<S>, i: nat)
    requires i < |w.log|
  {
    var id := w.log[i].execution;
    id in w.requests && Wrote(w.requests[id])
      && First(w.requests[id]) - 1 <= i < First(w.requests[id]) - 1 + |Written(w.requests[id])|
  }

  /** One execution's events, and only those, carry a tag. */
  ghost predicate OneExecution(log: seq<Entry>) {
    forall i, j :: 0 <= i < |log| && 0 <= j < |log| && log[i].tag.Some? && log[i].tag == log[j].tag ==>
      log[i].execution == log[j].execution
  }

  /** Every entry carrying the tag, and nothing else. */
  ghost predicate Whole(log: seq<Entry>, tag: Option<string>, first: nat, entries: seq<Entry>) {
    && 0 < first && entries != [] && first - 1 + |entries| <= |log|
    && entries == log[first - 1..first - 1 + |entries|]
    && forall i :: 0 <= i < |log| ==> (log[i].tag == tag <==> first - 1 <= i < first - 1 + |entries|)
  }

  ghost predicate PhaseOk<S(!new)>(log: seq<Entry>, r: Request<S>) {
    match r.phase
    case Recovering(fallback) =>
      && r.idem.Some? && (fallback == Broken ==> Taken(log, r.idem))
      && !fallback.Committed? && !fallback.AlreadyCommitted?
    case Done(AlreadyCommitted(first, entries)) => r.idem.Some? && Whole(log, r.idem, first, entries)
    case Done(Broken) => r.idem.None?
    case _ => true
  }

  ghost predicate Inv<S(!new)>(w: World<S>) {
    && (forall id :: id in w.requests ==> Covers(w.log, w.requests[id]) && PhaseOk(w.log, w.requests[id]))
    && (forall id :: id in w.requests && Wrote(w.requests[id]) ==> Serial(w.log, id, w.requests[id]))
    && (forall i :: 0 <= i < |w.log| ==> OwnedEntry(w, i))
    && OneExecution(w.log)
  }

  lemma AllKept<S(!new)>(log: seq<Entry>, batch: seq<Entry>, cmd: Command<S>, runs: seq<Folded<S>>)
    requires AllFold(log, cmd, runs)
    ensures AllFold(log + batch, cmd, runs)
  {
    forall k | 0 <= k < |runs| ensures FoldsAll(log + batch, cmd.stages[k], runs[k]) {
      assert FoldsAll(log, cmd.stages[k], runs[k]);
      RecordsKept(log, batch, runs[k].slices, 0, runs[k].covered);
    }
  }

  /** Nothing a request knows is undone by an append of another, if the append keeps tags apart. */
  lemma RequestKept<S(!new)>(log: seq<Entry>, batch: seq<Entry>, id: nat, r: Request<S>)
    requires Covers(log, r) && PhaseOk(log, r) && (Wrote(r) ==> Serial(log, id, r))
    requires forall e :: e in batch && e.tag.Some? ==> !Taken(log, e.tag)
    ensures Covers(log + batch, r) && PhaseOk(log + batch, r) && (Wrote(r) ==> Serial(log + batch, id, r))
  {
    AllKept(log, batch, r.cmd, r.runs);
    AllKept(log, batch, r.cmd, r.kept);
    if Wrote(r) {
      var at := First(r) - 1;
      assert (log + batch)[..at] == log[..at];
      assert (log + batch)[at..at + |Written(r)|] == log[at..at + |Written(r)|];
    }
    match r.phase
    case Recovering(fallback) => if fallback == Broken { TakenKept(log, batch, r.idem); }
    case Done(AlreadyCommitted(first, entries)) => WholeKept(log, batch, r.idem, first, entries);
    case _ =>
  }

  lemma TakenKept(log: seq<Entry>, batch: seq<Entry>, tag: Option<string>)
    requires Taken(log, tag)
    ensures Taken(log + batch, tag)
  {
    var i :| 0 <= i < |log| && log[i].tag == tag;
    assert (log + batch)[i].tag == tag;
  }

  lemma WholeKept(log: seq<Entry>, batch: seq<Entry>, tag: Option<string>, first: nat, entries: seq<Entry>)
    requires Whole(log, tag, first, entries) && tag.Some?
    requires forall e :: e in batch && e.tag.Some? ==> !Taken(log, e.tag)
    ensures Whole(log + batch, tag, first, entries)
  {
    assert log[first - 1].tag == tag && Taken(log, tag);
    forall i | |log| <= i < |log + batch| ensures (log + batch)[i].tag != tag {
      assert (log + batch)[i] in batch;
    }
    assert (log + batch)[first - 1..first - 1 + |entries|] == log[first - 1..first - 1 + |entries|];
  }

  // ----- every step --------------------------------------------------------

  /** A step that only moves one request on, and never into a commit. */
  lemma OneRequest<S(!new)>(w: World<S>, id: nat, r: Request<S>)
    requires Inv(w) && Covers(w.log, r) && PhaseOk(w.log, r) && !Wrote(r)
    requires id in w.requests ==> !Wrote(w.requests[id])
    ensures Inv(Put(w, id, r))
  {
    var w' := Put(w, id, r);
    forall i | 0 <= i < |w'.log| ensures OwnedEntry(w', i) { assert OwnedEntry(w, i); }
  }

  lemma StageFolds<S(!new)>(log: seq<Entry>, r: Request<S>, resume: bool)
    requires Covers(log, r) && Unread(r) && (resume ==> Resumes(r))
    ensures FoldsAll(log, r.cmd.stages[|r.runs|], ReadStage(log, r, resume))
  {
    var stage, slices := r.cmd.stages[|r.runs|], NextSlices(r);
    if resume {
      var from := r.kept[|r.runs|];
      assert FoldsAll(log, stage, from);
      RecordsJoin(log, slices, 0, from.covered, |log|);
      FoldJoin(stage, stage.init, Records(log, slices, 0, from.covered), Records(log, slices, from.covered, |log|));
    }
  }

  lemma StageInTurn<S(!new)>(cmd: Command<S>, runs: seq<Folded<S>>, f: Folded<S>)
    requires InTurn(cmd, runs) && !Ends(cmd, States(runs)) && f.slices == cmd.stages[|runs|].slices(States(runs))
    ensures InTurn(cmd, runs + [f])
  {
    forall k | 0 <= k < |runs + [f]|
      ensures !Ends(cmd, States((runs + [f])[..k]))
        && (runs + [f])[k].slices == cmd.stages[k].slices(States((runs + [f])[..k]))
    {
      if k < |runs| {
        assert (runs + [f])[..k] == runs[..k];
      } else {
        assert (runs + [f])[..k] == runs;
      }
    }
  }

  lemma ReadKeeps<S(!new)>(w: World<S>, id: nat, resume: bool)
    requires Inv(w) && Enabled(w, Read(id, resume))
    ensures Inv(Next(w, Read(id, resume)))
  {
    var r := w.requests[id];
    var f := ReadStage(w.log, r, resume);
    assert Covers(w.log, r);
    StageFolds(w.log, r, resume);
    StageInTurn(r.cmd, r.runs, f);
    assert AllFold(w.log, r.cmd, r.runs + [f]);
    hide Inv, Records, ReadStage;
    OneRequest(w, id, r.(runs := r.runs + [f]));
  }

  lemma {:induction false} AskedHits<S(!new)>(runs: seq<Folded<S>>, k: nat, e: Event)
    requires k < |runs| && Hits(runs[k].slices, e)
    ensures Hits(Asked(runs), e)
    decreases |runs|
  {
    var rest, last := Asked(runs[..|runs| - 1]), runs[|runs| - 1].slices;
    if k == |runs| - 1 {
      var i :| 0 <= i < |last| && Fits(last[i], e);
      assert Fits(Asked(runs)[|rest| + i], e);
    } else {
      AskedHits(runs[..|runs| - 1], k, e);
      var i :| 0 <= i < |rest| && Fits(rest[i], e);
      assert Fits(Asked(runs)[i], e);
    }
  }

  /** What the boundary did not overtake, a stage would fold the same from the whole log. */
  lemma NothingNew<S(!new)>(log: seq<Entry>, cmd: Command<S>, runs: seq<Folded<S>>, after: nat, k: nat)
    requires AllFold(log, cmd, runs) && !Moved(log, Asked(runs), after) && BehindAll(after, runs) && k < |runs|
    ensures runs[k].state == Fold(cmd.stages[k], cmd.stages[k].init, Records(log, runs[k].slices, 0, |log|))
  {
    assert FoldsAll(log, cmd.stages[k], runs[k]);
    forall i | runs[k].covered <= i < |log| ensures !Hits(runs[k].slices, log[i].event) {
      if Hits(runs[k].slices, log[i].event) { AskedHits(runs, k, log[i].event); }
    }
    NoneBetween(log, runs[k].slices, 0, runs[k].covered, |log|);
  }

  lemma {:induction false} AloneFollows<S(!new)>(
      log: seq<Entry>, cmd: Command<S>, runs: seq<Folded<S>>, after: nat, k: nat)
    requires AllFold(log, cmd, runs) && InTurn(cmd, runs) && !Moved(log, Asked(runs), after) && BehindAll(after, runs)
    requires k <= |runs|
    ensures Alone(cmd, log, States(runs[..k])) == Alone(cmd, log, [])
  {
    if k == 0 {
      assert States(runs[..0]) == [];
    } else {
      AloneFollows(log, cmd, runs, after, k - 1);
      NothingNew(log, cmd, runs, after, k - 1);
      assert k - 1 < |cmd.stages| && !Ends(cmd, States(runs[..k - 1]));
      assert runs[k - 1].slices == cmd.stages[k - 1].slices(States(runs[..k - 1]));
      hide AllFold, InTurn, Moved, BehindAll, Records, Fold, Asked, Ends;
      StatesGrow(runs, k);
    }
  }

  lemma StatesGrow<S(!new)>(runs: seq<Folded<S>>, k: nat)
    requires 0 < k <= |runs|
    ensures States(runs[..k]) == States(runs[..k - 1]) + [runs[k - 1].state] && |States(runs[..k - 1])| == k - 1
  {
  }

  /** A decision that the boundary did not overtake is the one the command makes on the whole log. */
  lemma NotMoved<S(!new)>(log: seq<Entry>, r: Request<S>, after: nat)
    requires Covers(log, r) && Ready(r) && !Moved(log, Asked(r.runs), after) && BehindAll(after, r.runs)
    ensures r.cmd.decide(States(r.runs)) == DecideOn(r.cmd, log)
  {
    AloneFollows(log, r.cmd, r.runs, after, |r.runs|);
    assert r.runs[..|r.runs|] == r.runs;
  }

  lemma AppendKeeps<S(!new)>(w: World<S>, id: nat, events: seq<Event>, after: nat)
    requires Inv(w) && id in w.requests && Ready(w.requests[id]) && BehindAll(after, w.requests[id].runs)
    requires events != [] && w.requests[id].cmd.decide(States(w.requests[id].runs)) == Commit(events)
    requires !Taken(w.log, Guard(w.requests[id])) && !Moved(w.log, Asked(w.requests[id].runs), after)
    ensures
      var r := w.requests[id];
      Inv(Put(w, id, r.(phase := Done(Committed(|w.log| + 1, events)))).(log := w.log + Stamped(events, id, r.idem)))
  {
    var r := w.requests[id];
    var batch := Stamped(events, id, r.idem);
    var r' := r.(phase := Done(Committed(|w.log| + 1, events)));
    var w' := Put(w, id, r').(log := w.log + batch);
    assert Covers(w.log, r);
    NotMoved(w.log, r, after);
    forall e | e in batch && e.tag.Some? ensures !Taken(w.log, e.tag) {}
    forall other | other in w'.requests
      ensures Covers(w'.log, w'.requests[other]) && PhaseOk(w'.log, w'.requests[other])
      ensures Wrote(w'.requests[other]) ==> Serial(w'.log, other, w'.requests[other])
    {
      if other == id {
        AllKept(w.log, batch, r.cmd, r.runs);
        AllKept(w.log, batch, r.cmd, r.kept);
        assert w'.log[..|w.log|] == w.log && w'.log[|w.log|..|w.log| + |events|] == batch;
      } else {
        RequestKept(w.log, batch, other, w.requests[other]);
      }
    }
    OwnedKept(w, id, r', batch);
    OneKept(w.log, batch, id, r.idem);
  }

  lemma OwnedKept<S(!new)>(w: World<S>, id: nat, r: Request<S>, batch: seq<Entry>)
    requires (forall i :: 0 <= i < |w.log| ==> OwnedEntry(w, i)) && id in w.requests && !Wrote(w.requests[id])
    requires Wrote(r) && First(r) == |w.log| + 1 && |Written(r)| == |batch|
    requires forall i :: 0 <= i < |batch| ==> batch[i].execution == id
    ensures
      var w' := Put(w, id, r).(log := w.log + batch);
      forall i :: 0 <= i < |w'.log| ==> OwnedEntry(w', i)
  {
    var w' := Put(w, id, r).(log := w.log + batch);
    forall i | 0 <= i < |w'.log| ensures OwnedEntry(w', i) {
      if i < |w.log| {
        assert OwnedEntry(w, i) && w'.log[i] == w.log[i];
      } else {
        assert w'.log[i] == batch[i - |w.log|];
      }
    }
  }

  lemma OneKept(log: seq<Entry>, batch: seq<Entry>, id: nat, tag: Option<string>)
    requires OneExecution(log) && !Taken(log, tag)
    requires forall i :: 0 <= i < |batch| ==> batch[i].execution == id && batch[i].tag == tag
    ensures OneExecution(log + batch)
  {
  }

  lemma AttemptKeeps<S(!new)>(w: World<S>, id: nat, after: nat, existenceFirst: bool)
    requires Inv(w) && Enabled(w, Attempt(id, after, existenceFirst))
    ensures Inv(Next(w, Attempt(id, after, existenceFirst)))
  {
    var r := w.requests[id];
    var decision := r.cmd.decide(States(r.runs));
    assert Covers(w.log, r);
    hide Inv, Covers;
    if decision.Commit? && decision.events != [] {
      var taken, moved := Taken(w.log, Guard(r)), Moved(w.log, Asked(r.runs), after);
      if taken && (existenceFirst || !moved) {
        var phase := if r.idem.Some? then Recovering(Broken) else Done(Broken);
        CoversOnly(w.log, r, phase);
        OneRequest(w, id, r.(phase := phase));
      } else if moved {
        BeatenCovers(w.log, r);
        OneRequest(w, id, Beaten(r));
      } else {
        AppendKeeps(w, id, decision.events, after);
      }
    } else {
      CoversOnly(w.log, r, Settles(r, decision));
      OneRequest(w, id, r.(phase := Settles(r, decision)));
    }
  }

  lemma CoversOnly<S(!new)>(log: seq<Entry>, r: Request<S>, phase: Phase)
    requires Covers(log, r)
    ensures Covers(log, r.(phase := phase))
  {
  }

  lemma BeatenCovers<S(!new)>(log: seq<Entry>, r: Request<S>)
    requires Covers(log, r)
    ensures Covers(log, Beaten(r))
  {
  }

  // ----- finding an earlier commit -----------------------------------------

  lemma {:induction false} TaggedHolds(log: seq<Entry>, tag: string, from: nat)
    requires from <= |log|
    ensures forall s :: s in Tagged(log, tag, from) ==>
      from < s.position <= |log| && s.entry == log[s.position - 1] && s.entry.tag == Some(tag)
    ensures forall i :: from <= i < |log| && log[i].tag == Some(tag) ==>
      Sequenced(i + 1, log[i]) in Tagged(log, tag, from)
    decreases |log| - from
  {
    if from < |log| { TaggedHolds(log, tag, from + 1); }
  }

  /** When the tagged entries are one stretch of the log, the search returns that stretch. */
  lemma {:induction false} TaggedRange(log: seq<Entry>, tag: string, from: nat, lo: nat, hi: nat)
    requires from <= |log| && lo <= hi <= |log|
    requires forall i :: 0 <= i < |log| ==> (log[i].tag == Some(tag) <==> lo <= i < hi)
    ensures
      var start := if from < lo then lo else if from < hi then from else hi;
      |Tagged(log, tag, from)| == hi - start
      && forall i :: 0 <= i < hi - start ==> Tagged(log, tag, from)[i] == Sequenced(start + i + 1, log[start + i])
    decreases |log| - from
  {
    if from < |log| {
      TaggedRange(log, tag, from + 1, lo, hi);
      assert log[from].tag == Some(tag) <==> lo <= from < hi;
    }
  }

  /** The entries carrying the tag are exactly the commit of request `id`. */
  ghost predicate Authors<S(!new)>(w: World<S>, id: nat, tag: Option<string>) {
    && id in w.requests && Wrote(w.requests[id]) && 0 < First(w.requests[id]) && Written(w.requests[id]) != []
    && First(w.requests[id]) - 1 + |Written(w.requests[id])| <= |w.log|
    && forall i :: 0 <= i < |w.log| ==>
         (w.log[i].tag == tag <==>
          First(w.requests[id]) - 1 <= i < First(w.requests[id]) - 1 + |Written(w.requests[id])|)
  }

  /** The entries carrying a tag are exactly one commit's. */
  lemma TagIsWhole<S(!new)>(w: World<S>, tag: string)
    requires Inv(w) && Taken(w.log, Some(tag))
    ensures exists id :: Authors(w, id, Some(tag))
  {
    var i :| 0 <= i < |w.log| && w.log[i].tag == Some(tag);
    var id := w.log[i].execution;
    assert OwnedEntry(w, i);
    var r := w.requests[id];
    assert Serial(w.log, id, r);
    var at := First(r) - 1;
    var batch := Stamped(Written(r), id, r.idem);
    forall j | at <= j < at + |Written(r)| ensures w.log[j] == batch[j - at] {
      assert w.log[at..at + |Written(r)|][j - at] == w.log[j];
    }
    forall j | 0 <= j < |w.log| ensures w.log[j].tag == Some(tag) <==> at <= j < at + |Written(r)| {
      if w.log[j].tag == Some(tag) { assert OwnedEntry(w, j); }
    }
    assert Authors(w, id, Some(tag));
  }

  lemma RecoverKeeps<S(!new)>(w: World<S>, id: nat)
    requires Inv(w) && Enabled(w, Recover(id))
    ensures Inv(Next(w, Recover(id)))
  {
    var r := w.requests[id];
    var tag := r.idem.value;
    var found := Tagged(w.log, tag, 0);
    assert PhaseOk(w.log, r) && Covers(w.log, r);
    TaggedHolds(w.log, tag, 0);
    var outcome := Recovered(found, r.phase.fallback);
    if Taken(w.log, Some(tag)) {
      TagIsWhole(w, tag);
      var author :| Authors(w, author, Some(tag));
      var r' := w.requests[author];
      var lo, hi := First(r') - 1, First(r') - 1 + |Written(r')|;
      assert OneExecution(w.log);
      RecoveredWhole(w.log, tag, lo, hi, r.phase.fallback);
    }
    assert PhaseOk(w.log, r.(phase := Done(outcome)));
    hide Inv, PhaseOk, Recovered, Tagged;
    CoversOnly(w.log, r, Done(outcome));
    OneRequest(w, id, r.(phase := Done(outcome)));
  }

  /** Entries of a second execution under the tag break the search, whatever follows them. */
  lemma SecondExecution(log: seq<Entry>, tag: string, seen: seq<Sequenced>, at: nat, otherwise: Outcome)
    requires at < |log| && log[at].tag == Some(tag) && Tagged(log, tag, 0) == seen + Tagged(log, tag, at)
    requires seen != [] && log[at].execution != seen[0].entry.execution
    ensures Recovered(Tagged(log, tag, 0), otherwise) == Broken
  {
    assert Tagged(log, tag, 0)[|seen|].entry == log[at];
  }

  /** Search the log for an earlier commit of this request, by its tag. */
  method FindCommitted(log: seq<Entry>, tag: string, otherwise: Outcome) returns (outcome: Outcome)
    ensures outcome == Recovered(Tagged(log, tag, 0), otherwise)
  {
    var first: Option<nat> := None;
    var entries: seq<Entry> := [];
    ghost var seen: seq<Sequenced> := [];
    for at := 0 to |log|
      invariant Tagged(log, tag, 0) == seen + Tagged(log, tag, at)
      invariant |entries| == |seen| && forall i :: 0 <= i < |seen| ==> entries[i] == seen[i].entry
      invariant forall i :: 0 <= i < |seen| ==> seen[i].entry.execution == seen[0].entry.execution
      invariant first == if seen == [] then None else Some(seen[0].position)
    {
      if log[at].tag == Some(tag) {
        // Events of a second execution under one tag are never spliced into one outcome.
        if entries != [] && log[at].execution != entries[0].execution {
          SecondExecution(log, tag, seen, at, otherwise);
          return Broken;
        }
        if first.None? {
          first := Some(at + 1);
        }
        entries := entries + [log[at]];
        seen := seen + [Sequenced(at + 1, log[at])];
      }
    }
    assert Tagged(log, tag, 0) == seen;
    if first.None? {
      return otherwise;
    }
    outcome := AlreadyCommitted(first.value, entries);
    assert entries == seq(|seen|, i requires 0 <= i < |seen| => seen[i].entry);
  }

  lemma RecoveredWhole(log: seq<Entry>, tag: string, lo: nat, hi: nat, fallback: Outcome)
    requires lo < hi <= |log| && OneExecution(log)
    requires forall i :: 0 <= i < |log| ==> (log[i].tag == Some(tag) <==> lo <= i < hi)
    ensures Recovered(Tagged(log, tag, 0), fallback) == AlreadyCommitted(lo + 1, log[lo..hi])
    ensures Whole(log, Some(tag), lo + 1, log[lo..hi])
  {
    TaggedRange(log, tag, 0, lo, hi);
    var found := Tagged(log, tag, 0);
    forall i | 0 <= i < |found| ensures found[i].entry.execution == found[0].entry.execution {
      assert log[lo + i].tag == log[lo].tag == Some(tag);
    }
    assert seq(|found|, i requires 0 <= i < |found| => found[i].entry) == log[lo..hi];
  }

  lemma StepKeeps<S(!new)>(w: World<S>, step: Step<S>)
    requires Inv(w) && Enabled(w, step)
    ensures Inv(Next(w, step))
  {
    match step
    case Start(id, cmd, idem, call, attempts) =>
      var r := Request(cmd, idem, call, attempts, [], [], if attempts == 0 then Done(ConflictLost) else Reading);
      assert Covers(w.log, r);
      hide Inv, Covers;
      OneRequest(w, id, r);
    case Read(id, resume) => ReadKeeps(w, id, resume);
    case Attempt(id, after, existenceFirst) => AttemptKeeps(w, id, after, existenceFirst);
    case Recover(id) => RecoverKeeps(w, id);
    case Refuse(id) =>
      assert Covers(w.log, w.requests[id]);
      CoversOnly(w.log, w.requests[id], Done(Unavailable));
      hide Inv, Covers;
      OneRequest(w, id, w.requests[id].(phase := Done(Unavailable)));
  }

  // ----- every run ---------------------------------------------------------

  ghost predicate Reaches<S(!new)>(w: World<S>, run: seq<Step<S>>, w': World<S>)
    decreases |run|
  {
    if run == [] then w' == w else Enabled(w, run[0]) && Reaches(Next(w, run[0]), run[1..], w')
  }

  function Empty<S(!new)>(): World<S> {
    World([], map[])
  }

  lemma {:induction false} RunKeeps<S(!new)>(w: World<S>, run: seq<Step<S>>, w': World<S>)
    requires Inv(w) && Reaches(w, run, w')
    ensures Inv(w')
    decreases |run|
  {
    if run != [] {
      hide Inv, Enabled, Next;
      StepKeeps(w, run[0]);
      RunKeeps(Next(w, run[0]), run[1..], w');
    }
  }

  lemma EmptyInv<S(!new)>()
    ensures Inv(Empty<S>())
  {
  }

  // ----- what a run promises -----------------------------------------------

  /** Whatever interleaves, a commit writes exactly what its command decides run alone on the log just
      before it, every stage read there at once, however many reads and retries it took. */
  lemma Serializable<S(!new)>(run: seq<Step<S>>, w: World<S>, id: nat)
    requires Reaches(Empty<S>(), run, w) && id in w.requests && Wrote(w.requests[id])
    ensures
      var r := w.requests[id];
      var at := First(r) - 1;
      && 0 <= at && at + |Written(r)| <= |w.log|
      && DecideOn(r.cmd, w.log[..at]) == Commit(Written(r))
      && w.log[at..at + |Written(r)|] == Stamped(Written(r), id, r.idem)
  {
    EmptyInv<S>();
    RunKeeps(Empty<S>(), run, w);
    assert Serial(w.log, id, w.requests[id]);
  }

  /** At most one execution's events ever carry a given key. */
  lemma KeyedOnce<S(!new)>(run: seq<Step<S>>, w: World<S>, i: nat, j: nat)
    requires Reaches(Empty<S>(), run, w) && i < |w.log| && j < |w.log|
    requires w.log[i].tag.Some? && w.log[i].tag == w.log[j].tag
    ensures w.log[i].execution == w.log[j].execution
  {
    EmptyInv<S>();
    RunKeeps(Empty<S>(), run, w);
    assert OneExecution(w.log);
  }

  /** A keyed request told its work is already done is told of the whole of it: one commit's events,
      every entry that carries the key, and it is never told that its log is broken. */
  lemma RecoversWhole<S(!new)>(run: seq<Step<S>>, w: World<S>, id: nat)
    requires Reaches(Empty<S>(), run, w) && id in w.requests && w.requests[id].phase.Done? && w.requests[id].idem.Some?
    ensures w.requests[id].phase.outcome != Broken
    ensures w.requests[id].phase.outcome.AlreadyCommitted? ==>
      var outcome := w.requests[id].phase.outcome;
      exists author :: Authors(w, author, w.requests[id].idem)
        && outcome == AlreadyCommitted(First(w.requests[author]),
             Stamped(Written(w.requests[author]), author, w.requests[author].idem))
  {
    EmptyInv<S>();
    RunKeeps(Empty<S>(), run, w);
    assert PhaseOk(w.log, w.requests[id]);
    if w.requests[id].phase.outcome.AlreadyCommitted? {
      var first, entries := w.requests[id].phase.outcome.first, w.requests[id].phase.outcome.entries;
      assert w.log[first - 1].tag == w.requests[id].idem;
      TagIsWhole(w, w.requests[id].idem.value);
      var author :| Authors(w, author, w.requests[id].idem);
      SameStretch(w, w.requests[id].idem, first, entries, author);
    }
  }

  lemma SameStretch<S(!new)>(w: World<S>, tag: Option<string>, first: nat, entries: seq<Entry>, author: nat)
    requires Whole(w.log, tag, first, entries) && Authors(w, author, tag) && Serial(w.log, author, w.requests[author])
    ensures AlreadyCommitted(first, entries)
         == AlreadyCommitted(First(w.requests[author]),
           Stamped(Written(w.requests[author]), author, w.requests[author].idem))
  {
    var at := First(w.requests[author]) - 1;
    var n := |Written(w.requests[author])|;
    assert w.log[first - 1].tag == tag && w.log[at].tag == tag;
    assert w.log[first - 1 + |entries| - 1].tag == tag && w.log[at + n - 1].tag == tag;
    assert first - 1 == at && |entries| == n;
  }

  /** Alone, a command folds each stage from all the log holds for what that stage asks, given the states
      before it, and stops at the first states that settle it or once its stages are through. */
  lemma {:induction false} AloneIs<S(!new)>(cmd: Command<S>, log: seq<Entry>, states: seq<S>)
    requires |states| <= |cmd.stages|
    ensures
      var all := Alone(cmd, log, states);
      && states <= all && |all| <= |cmd.stages| && (|all| == |cmd.stages| || cmd.settled(all))
      && forall k :: |states| <= k < |all| ==>
           var stage := cmd.stages[k];
           !cmd.settled(all[..k])
             && all[k] == Fold(stage, stage.init, Records(log, stage.slices(all[..k]), 0, |log|))
    decreases |cmd.stages| - |states|
  {
    if !Ends(cmd, states) {
      var stage := cmd.stages[|states|];
      var more := states + [Fold(stage, stage.init, Records(log, stage.slices(states), 0, |log|))];
      AloneIs(cmd, log, more);
      var all := Alone(cmd, log, states);
      assert all[..|states|] == more[..|states|] == states && all[|states|] == more[|states|];
    }
  }

  // ----- when an attempt commits -------------------------------------------

  /** Nothing carries the key a request is guarded by. */
  ghost predicate Unguarded<S(!new)>(log: seq<Entry>, r: Request<S>) {
    && (r.idem.Some? ==> forall i :: 0 <= i < |log| ==> log[i].tag != r.idem)
    && (r.idem.None? && r.call.Some? ==> forall i :: 0 <= i < |log| ==> log[i].tag != r.call)
  }

  /** An attempt with something to append commits it exactly when nothing carries its key and nothing past
      its boundary is of what any of its stages asked for; and otherwise it appends nothing. */
  lemma CommitsExactly<S(!new)>(w: World<S>, id: nat, after: nat, existenceFirst: bool)
    requires Enabled(w, Attempt(id, after, existenceFirst))
    requires
      var decision := w.requests[id].cmd.decide(States(w.requests[id].runs));
      decision.Commit? && decision.events != []
    ensures
      var r, w' := w.requests[id], Next(w, Attempt(id, after, existenceFirst));
      var events := r.cmd.decide(States(r.runs)).events;
      var quiet := forall i, k :: after <= i < |w.log| && 0 <= k < |r.runs| ==> !Hits(r.runs[k].slices, w.log[i].event);
      if Unguarded(w.log, r) && quiet
      then
        && w'.requests[id].phase == Done(Committed(|w.log| + 1, events))
        && w'.log == w.log + Stamped(events, id, r.idem)
      else !Wrote(w'.requests[id]) && w'.log == w.log
  {
    var r := w.requests[id];
    forall i | after <= i < |w.log|
      ensures Hits(Asked(r.runs), w.log[i].event) <==>
        exists k :: 0 <= k < |r.runs| && Hits(r.runs[k].slices, w.log[i].event) {
      AskedExactly(r.runs, w.log[i].event);
    }
    hide Hits, Asked, Stamped;
    GuardedIs(w.log, r);
  }

  lemma GuardedIs<S(!new)>(log: seq<Entry>, r: Request<S>)
    ensures Unguarded(log, r) <==> !Taken(log, Guard(r))
  {
  }

  lemma {:induction false} AskedExactly<S(!new)>(runs: seq<Folded<S>>, e: Event)
    ensures Hits(Asked(runs), e) <==> exists k :: 0 <= k < |runs| && Hits(runs[k].slices, e)
    decreases |runs|
  {
    if k :| 0 <= k < |runs| && Hits(runs[k].slices, e) { AskedHits(runs, k, e); }
    if runs != [] && Hits(Asked(runs), e) {
      var front, last := runs[..|runs| - 1], runs[|runs| - 1].slices;
      AskedExactly(front, e);
      var i :| 0 <= i < |Asked(runs)| && Fits(Asked(runs)[i], e);
      if i < |Asked(front)| {
        assert Fits(Asked(front)[i], e);
        var k :| 0 <= k < |front| && Hits(front[k].slices, e);
        assert Hits(runs[k].slices, e);
      } else {
        assert Fits(last[i - |Asked(front)|], e);
      }
    }
  }

  /** Reading one stage after the other with nothing in between comes to what the command would alone. */
  lemma {:induction false} ReadsAlone<S(!new)>(w: World<S>, id: nat) returns (run: seq<Step<S>>, w': World<S>)
    requires id in w.requests && w.requests[id].phase.Reading? && |w.requests[id].runs| <= |w.requests[id].cmd.stages|
    requires forall k :: 0 <= k < |w.requests[id].runs| ==> w.requests[id].runs[k].covered == |w.log|
    ensures Reaches(w, run, w') && w'.log == w.log && id in w'.requests
    ensures
      var r, r' := w.requests[id], w'.requests[id];
      && r' == r.(runs := r'.runs) && Ready(r') && States(r'.runs) == Alone(r.cmd, w.log, States(r.runs))
      && forall k :: 0 <= k < |r'.runs| ==> r'.runs[k].covered == |w.log|
    decreases |w.requests[id].cmd.stages| - |w.requests[id].runs|
  {
    var r := w.requests[id];
    if Ends(r.cmd, States(r.runs)) {
      run, w' := [], w;
    } else {
      var f := ReadStage(w.log, r, false);
      var mid := Next(w, Read(id, false));
      assert States(r.runs + [f]) == States(r.runs) + [f.state];
      var rest;
      rest, w' := ReadsAlone(mid, id);
      run := [Read(id, false)] + rest;
      assert run[1..] == rest;
    }
  }

  /** A request nothing interleaves with, whose key nothing carries, commits what its command decides on
      the log as it stands. */
  lemma CommitsAlone<S(!new)>(w: World<S>, id: nat, cmd: Command<S>, idem: Option<string>, call: Option<string>,
                              attempts: nat)
      returns (run: seq<Step<S>>, w': World<S>)
    requires id !in w.requests && attempts > 0 && DecideOn(cmd, w.log).Commit? && DecideOn(cmd, w.log).events != []
    requires Unguarded(w.log, Request(cmd, idem, call, attempts, [], [], Reading))
    ensures Reaches(w, run, w') && id in w'.requests
    ensures w'.requests[id].phase == Done(Committed(|w.log| + 1, DecideOn(cmd, w.log).events))
    ensures w'.log == w.log + Stamped(DecideOn(cmd, w.log).events, id, idem)
  {
    var started := Next(w, Start(id, cmd, idem, call, attempts));
    var asking, ready := ReadsAlone(started, id);
    assert States(started.requests[id].runs) == [];
    assert Enabled(ready, Attempt(id, |w.log|, false));
    CommitsExactly(ready, id, |w.log|, false);
    w' := Next(ready, Attempt(id, |w.log|, false));
    hide Next, Enabled, Alone, Unguarded, Stamped;
    var last: seq<Step<S>> := [Attempt(id, |w.log|, false)];
    assert last[1..] == [];
    Append(started, asking, ready, last, w');
    run := [Start(id, cmd, idem, call, attempts)] + (asking + last);
    assert run[1..] == asking + last;
  }

  // ----- what a retry is told ----------------------------------------------

  /** A keyed request with stages is told that it settled only while no entry carries its key. */
  lemma SettledUntagged<S(!new)>(w: World<S>, step: Step<S>, id: nat)
    requires Enabled(w, step) && id in Next(w, step).requests
    requires id in w.requests ==> !w.requests[id].phase.Done?
    requires
      var r := Next(w, step).requests[id];
      r.phase.Done? && r.phase.outcome.Settled? && r.idem.Some? && r.cmd.stages != []
    ensures !Taken(w.log, Next(w, step).requests[id].idem) && Next(w, step).log == w.log
  {
    var r := Next(w, step).requests[id];
    assert step.Recover? && step.id == id by { hide Recovered, Tagged; }
    var found := Tagged(w.log, r.idem.value, 0);
    TaggedHolds(w.log, r.idem.value, 0);
    hide Next, Enabled;
    assert found == [];
  }

  /** Once an entry carries the key: the request was told of that commit, lost every attempt, or was
      turned away, or it reads nothing and settled. */
  ghost predicate Answers<S(!new)>(w: World<S>, id: nat, tag: string) {
    && Taken(w.log, Some(tag))
    && (id in w.requests && w.requests[id].idem == Some(tag) && w.requests[id].phase.Done? ==>
          match w.requests[id].phase.outcome
          case AlreadyCommitted(_, _) => true
          case ConflictLost => true
          case Unavailable => true
          case Settled(_) => w.requests[id].cmd.stages == []
          case Committed(_, _) => false
          case Broken => false)
  }

  lemma AnswersStill<S(!new)>(w: World<S>, step: Step<S>, id: nat, tag: string)
    requires Inv(w) && Enabled(w, step) && Answers(w, id, tag)
    ensures Answers(Next(w, step), id, tag)
  {
    var w' := Next(w, step);
    StepKeeps(w, step);
    LogGrows(w, step);
    TakenKept(w.log, w'.log[|w.log|..], Some(tag));
    assert w'.log == w.log + w'.log[|w.log|..];
    if id in w'.requests && w'.requests[id].idem == Some(tag) && w'.requests[id].phase.Done? {
      assert PhaseOk(w'.log, w'.requests[id]);
      if id in w.requests && w.requests[id].phase.Done? {
        DoneStays(w, step, id);
      } else {
        if w'.requests[id].phase.outcome.Settled? && w'.requests[id].cmd.stages != [] { SettledUntagged(w, step, id); }
        if w'.requests[id].phase.outcome.Committed? { CommittedUntagged(w, step, id); }
      }
    }
  }

  lemma LogGrows<S(!new)>(w: World<S>, step: Step<S>)
    requires Enabled(w, step)
    ensures |w.log| <= |Next(w, step).log| && Next(w, step).log[..|w.log|] == w.log
  {
    hide Recovered, Tagged, Moved, Taken;
  }

  lemma DoneStays<S(!new)>(w: World<S>, step: Step<S>, id: nat)
    requires Enabled(w, step) && id in w.requests && w.requests[id].phase.Done?
    ensures id in Next(w, step).requests && Next(w, step).requests[id] == w.requests[id]
  {
    hide Recovered, Tagged, Moved, Taken;
  }

  lemma CommittedUntagged<S(!new)>(w: World<S>, step: Step<S>, id: nat)
    requires Inv(w) && Enabled(w, step) && id in Next(w, step).requests
    requires id in w.requests ==> !w.requests[id].phase.Done?
    requires var r := Next(w, step).requests[id]; r.phase.Done? && r.phase.outcome.Committed? && r.idem.Some?
    ensures !Taken(w.log, Next(w, step).requests[id].idem)
  {
    if id in w.requests { assert PhaseOk(w.log, w.requests[id]); }
    hide Tagged, Moved, Taken, Inv;
  }

  lemma {:induction false} AnswersOverRun<S(!new)>(w: World<S>, run: seq<Step<S>>, w': World<S>, id: nat, tag: string)
    requires Inv(w) && Reaches(w, run, w') && Answers(w, id, tag)
    ensures Answers(w', id, tag)
    decreases |run|
  {
    if run != [] {
      hide Inv, Enabled, Next, Answers;
      StepKeeps(w, run[0]);
      AnswersStill(w, run[0], id, tag);
      AnswersOverRun(Next(w, run[0]), run[1..], w', id, tag);
    }
  }

  /** A request begun once an entry carries its key, whatever it reads and decides, is never told that it
      committed, and, if it reads at all, never that it settled: it is told of the earlier commit, or to
      try again. */
  lemma RetryIsTold<S(!new)>(first: seq<Step<S>>, w: World<S>, run: seq<Step<S>>, w': World<S>, id: nat, tag: string)
    requires Reaches(Empty<S>(), first, w) && Taken(w.log, Some(tag)) && id !in w.requests
    requires Reaches(w, run, w') && id in w'.requests
    requires w'.requests[id].idem == Some(tag) && w'.requests[id].phase.Done?
    ensures
      var outcome := w'.requests[id].phase.outcome;
      || outcome.AlreadyCommitted? || outcome.ConflictLost? || outcome.Unavailable?
      || (outcome.Settled? && w'.requests[id].cmd.stages == [])
  {
    EmptyInv<S>();
    RunKeeps(Empty<S>(), first, w);
    AnswersOverRun(w, run, w', id, tag);
  }

  // ----- how often a request is beaten --------------------------------------

  /** The step is an attempt of the request that the boundary overtook. */
  ghost predicate Beats<S(!new)>(w: World<S>, step: Step<S>, id: nat) {
    step.Attempt? && step.id == id && id in w.requests &&
    var r := w.requests[id];
    var decision := r.cmd.decide(States(r.runs));
    && decision.Commit? && decision.events != [] && Moved(w.log, Asked(r.runs), step.after)
    && !(step.existenceFirst && Taken(w.log, Guard(r)))
  }

  ghost function BeatenIn<S(!new)>(w: World<S>, run: seq<Step<S>>, id: nat): nat
    decreases |run|
  {
    if run == [] || !Enabled(w, run[0]) then 0
    else (if Beats(w, run[0], id) then 1 else 0) + BeatenIn(Next(w, run[0]), run[1..], id)
  }

  lemma {:induction false} DoneIsLeft<S(!new)>(w: World<S>, run: seq<Step<S>>, w': World<S>, id: nat)
    requires Reaches(w, run, w') && id in w.requests && w.requests[id].phase.Done?
    ensures id in w'.requests && w'.requests[id] == w.requests[id] && BeatenIn(w, run, id) == 0
    decreases |run|
  {
    if run != [] {
      DoneStays(w, run[0], id);
      assert !Beats(w, run[0], id) by { hide Next; }
      hide Next, Enabled, Beats;
      DoneIsLeft(Next(w, run[0]), run[1..], w', id);
    }
  }

  /** The request is still to be answered, with this many attempts left. */
  ghost predicate Trying<S(!new)>(w: World<S>, id: nat, attempts: nat) {
    && id in w.requests && attempts > 0 && w.requests[id].attempts == attempts && !w.requests[id].phase.Done?
    && (w.requests[id].phase.Recovering? ==> w.requests[id].phase.fallback != ConflictLost)
  }

  lemma OneAttempt<S(!new)>(w: World<S>, step: Step<S>, id: nat, attempts: nat)
    requires Enabled(w, step) && Trying(w, id, attempts)
    ensures
      var w' := Next(w, step);
      if Beats(w, step, id) then
        if attempts == 1 then id in w'.requests && w'.requests[id].phase == Done(ConflictLost)
        else Trying(w', id, attempts - 1)
      else
        || Trying(w', id, attempts)
        || (id in w'.requests && w'.requests[id].phase.Done? && w'.requests[id].phase.outcome != ConflictLost)
  {
    hide Tagged, Moved, Taken;
  }

  /** Over any run, a request that may make so many attempts is told it lost the race exactly when that many
      of its attempts were beaten to the log, and is never beaten more often. */
  lemma {:induction false} LostWhenSpent<S(!new)>(w: World<S>, run: seq<Step<S>>, w': World<S>, id: nat, attempts: nat)
    requires Reaches(w, run, w') && Trying(w, id, attempts)
    ensures id in w'.requests && BeatenIn(w, run, id) <= attempts
    ensures w'.requests[id].phase == Done(ConflictLost) <==> BeatenIn(w, run, id) == attempts
    decreases |run|
  {
    if run != [] {
      OneAttempt(w, run[0], id, attempts);
      var mid := Next(w, run[0]);
      hide Next, Enabled, Beats;
      if id in mid.requests && mid.requests[id].phase.Done? {
        DoneIsLeft(mid, run[1..], w', id);
      } else {
        LostWhenSpent(mid, run[1..], w', id, if Beats(w, run[0], id) then attempts - 1 else attempts);
      }
    }
  }

  // ----- what an effect's `invoke` does not get -----------------------------

  /** An append is found by its own guard afterwards exactly when the request carries a key: the guard
      falls back to the call's identity, and only the key is stamped. */
  lemma GuardFindsItself<S(!new)>(w: World<S>, r: Request<S>, id: nat, events: seq<Event>)
    requires !Taken(w.log, Guard(r)) && events != []
    ensures Taken(w.log + Stamped(events, id, r.idem), Guard(r)) <==> r.idem.Some?
  {
    var batch := Stamped(events, id, r.idem);
    if r.idem.Some? {
      assert (w.log + batch)[|w.log|] == batch[0];
    }
  }

  /** Two runs of one journaled `invoke`, the first lost between its append and its journal entry,
      both commit although both are guarded against the same tag. */
  lemma InvokeCommitsTwice() returns (run: seq<Step<nat>>, w: World<nat>)
    ensures Reaches(Empty<nat>(), run, w) && w.requests.Keys == {0, 1}
    ensures Guard(w.requests[0]) == Guard(w.requests[1]) == Some("call")
    ensures |w.log| == 2 && w.log[0].execution == 0 && w.log[1].execution == 1
  {
    var cmd: Command<nat> := Command([], s => true, s => Commit([Event("paid", map[])]));
    var w0 := Empty<nat>();
    var w3 := Invoked(w0, 0, cmd);
    w := Invoked(w3, 1, cmd);
    run := InvokeSteps(0, cmd) + InvokeSteps(1, cmd);
    InvokeReaches(w0, 0, cmd);
    InvokeReaches(w3, 1, cmd);
    Append(w0, InvokeSteps(0, cmd), w3, InvokeSteps(1, cmd), w);
  }

  function InvokeSteps(id: nat, cmd: Command<nat>): seq<Step<nat>> {
    [Start(id, cmd, None, Some("call"), 1), Attempt(id, 0, true)]
  }

  /** One run of the invoke: it reads nothing and appends its event. */
  function Invoked(w: World<nat>, id: nat, cmd: Command<nat>): World<nat> {
    var r := Request(cmd, None, Some("call"), 1, [], [], Done(Committed(|w.log| + 1, [Event("paid", map[])])));
    World(w.log + Stamped([Event("paid", map[])], id, None), w.requests[id := r])
  }

  lemma InvokeReaches(w: World<nat>, id: nat, cmd: Command<nat>)
    requires id !in w.requests && cmd.stages == [] && cmd.decide([]) == Commit([Event("paid", map[])])
    requires !Taken(w.log, Some("call"))
    ensures Reaches(w, InvokeSteps(id, cmd), Invoked(w, id, cmd))
  {
    var run := InvokeSteps(id, cmd);
    var r := Request(cmd, None, Some("call"), 1, [], [], Reading);
    assert States(r.runs) == [] && Asked(r.runs) == [];
    var w1, w2 := Put(w, id, r), Invoked(w, id, cmd);
    assert Next(w, run[0]) == w1 && Next(w1, run[1]) == w2;
    hide Next, Enabled;
    assert run[1..][0] == run[1] && run[1..][1..] == [];
    assert Reaches(w2, [], w2);
    assert Reaches(w1, run[1..], w2);
  }

  lemma {:induction false} Append<S(!new)>(w: World<S>, a: seq<Step<S>>, mid: World<S>, b: seq<Step<S>>, w': World<S>)
    requires Reaches(w, a, mid) && Reaches(mid, b, w')
    ensures Reaches(w, a + b, w')
    decreases |a|
  {
    if a == [] {
      assert a + b == b;
    } else {
      assert (a + b)[1..] == a[1..] + b;
      Append(Next(w, a[0]), a[1..], mid, b, w');
    }
  }
}
