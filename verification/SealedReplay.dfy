/** The sealed replay of a recorded invocation: the handler re-run against its journal with nothing
    performed, and what that says about it (`src/effect.rs`). */
module SealedReplay {
  import opened Options
  import opened DurableExecution

  datatype Asked = Live | Sweep | Candidate

  datatype Replayed =
    | Matched
    | NewCall(call: Call, ordinal: nat, asked: Asked)
    | Different(journal: seq<Key>, replay: seq<Key>)
    | NoLongerHandled
    | SubjectErased(reason: string)
    | NoJournal(call: Call, ordinal: nat)
    | Reclaimed
    | TerminallyFailed(detail: string)
    | WasSkipped
    | Broke(detail: string)

  /** What a sealed host answers to a call the journal has no entry for: the clock still reads, and
      everything that would reach outward is refused. */
  type Seal = Call -> Option<Recorded>

  datatype Ended = Ended(outcome: Option<Outcome>, visited: seq<Key>, missed: Option<(Call, nat)>)

  /** What the sealed host answers the call a replay has come to: what the journal holds, or the seal's answer. */
  function Answered(h: Handler, hash: Hash, seal: Seal, journal: seq<Entry>, path: seq<Recorded>): Option<Recorded>
    requires h(path).Ask?
  {
    var found := Find(journal, KeyOf(h, hash, path));
    if found.Some? then Some(Decode(found.value)) else seal(h(path).call)
  }

  /** This replay, from where it has come to, makes no more than `limit` calls. */
  predicate Halts(h: Handler, hash: Hash, seal: Seal, journal: seq<Entry>, path: seq<Recorded>, limit: nat)
    decreases limit
  {
    h(path).Ask? ==>
      var answer := Answered(h, hash, seal, journal, path);
      answer.Some? ==> limit > 0 && Halts(h, hash, seal, journal, path + [answer.value], limit - 1)
  }

  /** Where a replay that has come to `path` ends; no outcome when the sealed host refused a call. */
  function Rerun(h: Handler, hash: Hash, seal: Seal, journal: seq<Entry>, limit: nat, path: seq<Recorded>,
                 visited: seq<Key>, missed: Option<(Call, nat)>): Ended
    requires Halts(h, hash, seal, journal, path, limit)
    decreases limit
  {
    match h(path)
    case Return(outcome) => Ended(Some(outcome), visited, missed)
    case Ask(call) =>
      var key := KeyOf(h, hash, path);
      var found := Find(journal, key);
      if found.Some? then
        Rerun(h, hash, seal, journal, limit - 1, path + [Decode(found.value)], visited + [key], missed)
      else
        var miss := if missed.None? then Some((call, key.1)) else missed;
        var answer := seal(call);
        if answer.None? then Ended(None, visited, miss)
        else Rerun(h, hash, seal, journal, limit - 1, path + [answer.value], visited, miss)
  }

  function TerminalFailure(outcome: Outcome, asked: Asked): Replayed {
    if outcome.Failed? && asked == Candidate then TerminallyFailed(outcome.detail) else Matched
  }

  /** What an ended replay says, in the order the reasons are asked for. `kept` is whether the
      invocation's row is still there. */
  function Judge(ended: Ended, recorded: seq<Key>, asked: Asked, kept: bool): Replayed {
    var outcome := if ended.outcome.Some? then ended.outcome.value else Raised("refused");
    if outcome.SkippedErased? then SubjectErased(outcome.reason)
    else if outcome.Ignored? then NoLongerHandled
    else if recorded == [] then
      if ended.missed.Some? then
        if asked == Live then NewCall(ended.missed.value.0, ended.missed.value.1, asked)
        else NoJournal(ended.missed.value.0, ended.missed.value.1)
      else if outcome.Raised? then Broke(outcome.detail)
      else if asked == Candidate && !kept then Reclaimed
      else TerminalFailure(outcome, asked)
    else if ended.missed.Some? then NewCall(ended.missed.value.0, ended.missed.value.1, asked)
    else if outcome.Raised? then Broke(outcome.detail)
    else if ended.visited != recorded then Different(recorded, ended.visited)
    else TerminalFailure(outcome, asked)
  }

  function Verdict(h: Handler, hash: Hash, seal: Seal, w: World, limit: nat, asked: Asked, kept: bool): Replayed
    requires Halts(h, hash, seal, w.journal, [], limit)
  {
    if asked != Live && w.status == OperatorSkipped then WasSkipped
    else Judge(Rerun(h, hash, seal, w.journal, limit, [], [], None), Keys(w.journal), asked, kept)
  }

  // ----- the replay itself -------------------------------------------------

  /** A journal that reads but never writes, and remembers what it was asked for. */
  class SealedJournal {
    const journal: seq<Entry>
    var visited: seq<Key>
    var missed: Option<(Call, nat)>

    constructor (journal: seq<Entry>)
      ensures this.journal == journal && visited == [] && missed == None
    {
      this.journal, visited, missed := journal, [], None;
    }

    method Recorded(call: Call, key: Key) returns (found: Option<DurableExecution.Recorded>)
      modifies this
      ensures found == (if Find(journal, key).Some? then Some(Decode(Find(journal, key).value)) else None)
      ensures found.Some? ==> visited == old(visited) + [key] && missed == old(missed)
      ensures found.None? ==> visited == old(visited)
      ensures found.None? ==> missed == (if old(missed).None? then Some((call, key.1)) else old(missed))
    {
      var row := Find(journal, key);
      if row.Some? {
        visited := visited + [key];
        found := Some(Decode(row.value));
      } else {
        if missed.None? {
          missed := Some((call, key.1));
        }
        found := None;
      }
    }
  }

  /** Re-run a recorded invocation against a sealed host and say how it went. Nothing durable changes. */
  method Replay(h: Handler, hash: Hash, seal: Seal, w: World, ghost limit: nat, asked: Asked, kept: bool)
    returns (replayed: Replayed)
    requires Halts(h, hash, seal, w.journal, [], limit)
    ensures replayed == Verdict(h, hash, seal, w, limit, asked, kept)
  {
    if asked != Live && w.status == OperatorSkipped {
      return WasSkipped;
    }
    var calls := new SealedJournal(w.journal);
    hide Find, Decode, KeyOf, Judge, Keys;
    ghost var left := limit;
    var path: seq<Recorded> := [];
    var outcome: Option<Outcome> := None;
    var running := true;
    while running
      invariant running ==> Halts(h, hash, seal, w.journal, path, left)
      invariant running ==>
        Rerun(h, hash, seal, w.journal, left, path, calls.visited, calls.missed)
        == Rerun(h, hash, seal, w.journal, limit, [], [], None)
      invariant running ==> outcome == None
      invariant !running ==>
        Ended(outcome, calls.visited, calls.missed) == Rerun(h, hash, seal, w.journal, limit, [], [], None)
      invariant calls.journal == w.journal && fresh(calls)
      decreases running, left
    {
      var action := h(path);
      match action
      case Return(ended) =>
        outcome, running := Some(ended), false;
      case Ask(call) =>
        var found := calls.Recorded(call, KeyOf(h, hash, path));
        if found.None? {
          found := seal(call);
        }
        if found.Some? {
          path, left := path + [found.value], left - 1;
        } else {
          running := false;
        }
    }
    replayed := Judge(Ended(outcome, calls.visited, calls.missed), Keys(w.journal), asked, kept);
  }

  // ----- what a verdict means ----------------------------------------------

  /** The handler makes exactly the journaled calls, in order, when given the journaled answers, and
      then ends with `outcome`. */
  ghost predicate Reproduces(h: Handler, hash: Hash, journal: seq<Entry>, outcome: Outcome) {
    OnePath(h, hash, journal) && h(Answers(journal)) == Return(outcome)
  }

  lemma {:induction false} RerunHits(h: Handler, hash: Hash, seal: Seal, journal: seq<Entry>, limit: nat,
                                     path: seq<Recorded>, visited: seq<Key>, missed: Option<(Call, nat)>)
    requires Halts(h, hash, seal, journal, path, limit) && h(path).Ask? && Find(journal, KeyOf(h, hash, path)).Some?
    ensures
      var key := KeyOf(h, hash, path);
      limit > 0 && Halts(h, hash, seal, journal, path + [Decode(Find(journal, key).value)], limit - 1)
      && Rerun(h, hash, seal, journal, limit, path, visited, missed)
      == Rerun(h, hash, seal, journal, limit - 1, path + [Decode(Find(journal, key).value)], visited + [key], missed)
  {
    hide Find, Decode, KeyOf;
  }

  lemma {:induction false} RerunEnds(h: Handler, hash: Hash, seal: Seal, journal: seq<Entry>, limit: nat,
                                     path: seq<Recorded>, visited: seq<Key>, missed: Option<(Call, nat)>)
    requires Halts(h, hash, seal, journal, path, limit) && h(path).Return?
    ensures Rerun(h, hash, seal, journal, limit, path, visited, missed) == Ended(Some(h(path).outcome), visited, missed)
  {
  }

  /** A handler that follows the journal ends its replay having visited all of it and missed nothing,
      after as many calls as the journal has entries. */
  lemma {:induction false} FollowsJournal(h: Handler, hash: Hash, seal: Seal, journal: seq<Entry>, limit: nat,
                                          n: nat, outcome: Outcome)
    requires CollisionFree(hash) && Reproduces(h, hash, journal, outcome) && n <= |journal| <= n + limit
    ensures Halts(h, hash, seal, journal, Answers(journal)[..n], limit)
    ensures Rerun(h, hash, seal, journal, limit, Answers(journal)[..n], Keys(journal)[..n], None)
         == Ended(Some(outcome), Keys(journal), None)
    decreases |journal| - n
  {
    hide Rerun, Decode, Find, Ordinal;
    var path := Answers(journal)[..n];
    if n == |journal| {
      assert path == Answers(journal) && Keys(journal)[..n] == Keys(journal);
      RerunEnds(h, hash, seal, journal, limit, path, Keys(journal)[..n], None);
    } else {
      LookupExact(h, hash, journal, path);
      assert path + [Decode(journal[n].row)] == Answers(journal)[..n + 1];
      assert Keys(journal)[..n] + [KeyOf(h, hash, path)] == Keys(journal)[..n + 1];
      FollowsJournal(h, hash, seal, journal, limit - 1, n + 1, outcome);
      assert Answered(h, hash, seal, journal, path) == Some(Decode(journal[n].row));
      hide Halts;
      RerunHits(h, hash, seal, journal, limit, path, Keys(journal)[..n], None);
    }
  }

  /** How long a replay may take does not change where it ends. */
  lemma {:induction false} LimitFree(h: Handler, hash: Hash, seal: Seal, journal: seq<Entry>, limit: nat, other: nat,
                                     path: seq<Recorded>, visited: seq<Key>, missed: Option<(Call, nat)>)
    requires Halts(h, hash, seal, journal, path, limit) && Halts(h, hash, seal, journal, path, other)
    ensures Rerun(h, hash, seal, journal, limit, path, visited, missed)
      == Rerun(h, hash, seal, journal, other, path, visited, missed)
    decreases limit
  {
    if h(path).Ask? {
      var key := KeyOf(h, hash, path);
      var found := Find(journal, key);
      hide Find, KeyOf, Decode;
      if found.Some? {
        LimitFree(h, hash, seal, journal, limit - 1, other - 1, path + [Decode(found.value)], visited + [key], missed);
      } else if seal(h(path).call).Some? {
        var miss := if missed.None? then Some((h(path).call, key.1)) else missed;
        LimitFree(h, hash, seal, journal, limit - 1, other - 1, path + [seal(h(path).call).value], visited, miss);
      }
    }
  }

  /** Distinct keys: what the journal's primary key guarantees. */
  ghost predicate Distinct(journal: seq<Entry>) {
    forall i, j :: 0 <= i < j < |journal| ==> journal[i].key != journal[j].key
  }

  /** A replay that missed nothing and visited the whole journal in order followed it from where it stood. */
  lemma {:induction false} VisitedAll(h: Handler, hash: Hash, seal: Seal, journal: seq<Entry>, limit: nat,
                                      path: seq<Recorded>, outcome: Outcome)
    requires Halts(h, hash, seal, journal, path, limit) && Distinct(journal) && path <= Answers(journal)
    requires Rerun(h, hash, seal, journal, limit, path, Keys(journal)[..|path|], None)
      == Ended(Some(outcome), Keys(journal), None)
    ensures h(Answers(journal)) == Return(outcome)
    ensures forall i :: |path| <= i < |journal| ==>
      h(Answers(journal)[..i]).Ask? && journal[i].key == KeyOf(h, hash, Answers(journal)[..i])
    decreases |journal| - |path|
  {
    hide Rerun, Halts, Decode, Find, KeyOf;
    var n := |path|;
    assert path == Answers(journal)[..n];
    if h(path).Ask? {
      MissesStay(h, hash, seal, journal, limit, path, Keys(journal)[..n], None);
      var key := KeyOf(h, hash, path);
      var found := Find(journal, key);
      RerunHits(h, hash, seal, journal, limit, path, Keys(journal)[..n], None);
      VisitsStay(h, hash, seal, journal, limit - 1, path + [Decode(found.value)], Keys(journal)[..n] + [key], None);
      assert (Keys(journal)[..n] + [key])[n] == key;
      assert n < |journal| && journal[n].key == key;
      forall i | 0 <= i < n ensures journal[i].key != key {}
      FindAt(journal, key, n);
      assert path + [Decode(found.value)] == Answers(journal)[..n + 1];
      assert Keys(journal)[..n] + [key] == Keys(journal)[..n + 1];
      VisitedAll(h, hash, seal, journal, limit - 1, path + [Decode(found.value)], outcome);
    } else {
      RerunEnds(h, hash, seal, journal, limit, path, Keys(journal)[..n], None);
      assert |Keys(journal)[..n]| == |Keys(journal)|;
      assert path == Answers(journal);
    }
  }

  /** What was visited stays at the front of what will have been. */
  lemma {:induction false} VisitsStay(h: Handler, hash: Hash, seal: Seal, journal: seq<Entry>, limit: nat,
                                      path: seq<Recorded>, visited: seq<Key>, missed: Option<(Call, nat)>)
    requires Halts(h, hash, seal, journal, path, limit)
    ensures visited <= Rerun(h, hash, seal, journal, limit, path, visited, missed).visited
    decreases limit
  {
    if h(path).Ask? {
      var key := KeyOf(h, hash, path);
      var found := Find(journal, key);
      hide Find, KeyOf, Decode;
      if found.Some? {
        VisitsStay(h, hash, seal, journal, limit - 1, path + [Decode(found.value)], visited + [key], missed);
      } else if seal(h(path).call).Some? {
        var miss := if missed.None? then Some((h(path).call, key.1)) else missed;
        VisitsStay(h, hash, seal, journal, limit - 1, path + [seal(h(path).call).value], visited, miss);
      }
    }
  }

  /** The first miss is the one reported, and a replay that ends without one never missed. */
  lemma {:induction false} MissesStay(h: Handler, hash: Hash, seal: Seal, journal: seq<Entry>, limit: nat,
                                      path: seq<Recorded>, visited: seq<Key>, missed: Option<(Call, nat)>)
    requires Halts(h, hash, seal, journal, path, limit)
    ensures missed.Some? ==> Rerun(h, hash, seal, journal, limit, path, visited, missed).missed == missed
    ensures h(path).Ask? && Find(journal, KeyOf(h, hash, path)).None? && missed.None? ==>
      Rerun(h, hash, seal, journal, limit, path, visited, missed).missed == Some((h(path).call, KeyOf(h, hash, path).1))
    decreases limit
  {
    if h(path).Ask? {
      var key := KeyOf(h, hash, path);
      var found := Find(journal, key);
      hide Find, KeyOf, Decode;
      if found.Some? {
        MissesStay(h, hash, seal, journal, limit - 1, path + [Decode(found.value)], visited + [key], missed);
      } else if seal(h(path).call).Some? {
        var miss := if missed.None? then Some((h(path).call, key.1)) else missed;
        MissesStay(h, hash, seal, journal, limit - 1, path + [seal(h(path).call).value], visited, miss);
      }
    }
  }

  // ----- what every verdict means -------------------------------------------

  /** A replay comes to `path`: each answer is the journal's, or the seal's where the journal has none. */
  ghost predicate Walks(h: Handler, hash: Hash, seal: Seal, journal: seq<Entry>, path: seq<Recorded>) {
    forall i :: 0 <= i < |path| ==>
      h(path[..i]).Ask? && Answered(h, hash, seal, journal, path[..i]) == Some(path[i])
  }

  /** ... and gets no further: the handler has ended, or is refused. */
  ghost predicate Stops(h: Handler, hash: Hash, seal: Seal, journal: seq<Entry>, path: seq<Recorded>) {
    h(path).Return? || Answered(h, hash, seal, journal, path) == None
  }

  /** The call it makes at `i` is one the journal has no entry for. */
  ghost predicate MissesAt(h: Handler, hash: Hash, journal: seq<Entry>, path: seq<Recorded>, i: nat)
    requires i <= |path|
  {
    h(path[..i]).Ask? && Find(journal, KeyOf(h, hash, path[..i])) == None
  }

  /** The journal keys it asks for from `n` on and finds, in order. */
  ghost function Hits(h: Handler, hash: Hash, journal: seq<Entry>, path: seq<Recorded>, n: nat): seq<Key>
    requires n <= |path| && forall i :: 0 <= i < |path| ==> h(path[..i]).Ask?
    decreases |path| - n
  {
    if n == |path| then []
    else
      (if MissesAt(h, hash, journal, path, n) then [] else [KeyOf(h, hash, path[..n])])
      + Hits(h, hash, journal, path, n + 1)
  }

  lemma {:induction false} WalkOn(h: Handler, hash: Hash, seal: Seal, journal: seq<Entry>, limit: nat,
                                  path: seq<Recorded>)
      returns (end: seq<Recorded>)
    requires Halts(h, hash, seal, journal, path, limit) && Walks(h, hash, seal, journal, path)
    ensures path <= end && Walks(h, hash, seal, journal, end) && Stops(h, hash, seal, journal, end)
    decreases limit
  {
    if Stops(h, hash, seal, journal, path) {
      end := path;
    } else {
      var answer := Answered(h, hash, seal, journal, path);
      var more := path + [answer.value];
      forall i | 0 <= i < |more|
        ensures h(more[..i]).Ask? && Answered(h, hash, seal, journal, more[..i]) == Some(more[i]) {
        assert more[..i] == path[..i];
        assert path[..|path|] == path;
      }
      hide Answered;
      end := WalkOn(h, hash, seal, journal, limit - 1, more);
    }
  }

  /** The first call from `n` on that the journal has no entry for. */
  ghost function Missed(h: Handler, hash: Hash, journal: seq<Entry>, path: seq<Recorded>, n: nat): Option<(Call, nat)>
    requires n <= |path|
    decreases |path| - n
  {
    if MissesAt(h, hash, journal, path, n) then Some((h(path[..n]).call, KeyOf(h, hash, path[..n]).1))
    else if n == |path| then None
    else Missed(h, hash, journal, path, n + 1)
  }

  ghost predicate FirstMiss(h: Handler, hash: Hash, journal: seq<Entry>, path: seq<Recorded>, n: nat, i: nat) {
    && n <= i <= |path| && MissesAt(h, hash, journal, path, i)
    && forall j :: n <= j < i ==> !MissesAt(h, hash, journal, path, j)
  }

  lemma {:induction false} MissedIsFirst(h: Handler, hash: Hash, journal: seq<Entry>, path: seq<Recorded>, n: nat)
    requires n <= |path|
    ensures Missed(h, hash, journal, path, n).None? ==>
      forall i :: n <= i <= |path| ==> !MissesAt(h, hash, journal, path, i)
    ensures Missed(h, hash, journal, path, n).Some? ==>
      exists i: nat :: FirstMiss(h, hash, journal, path, n, i)
        && Missed(h, hash, journal, path, n) == Some((h(path[..i]).call, KeyOf(h, hash, path[..i]).1))
    decreases |path| - n
  {
    hide Find, KeyOf;
    if MissesAt(h, hash, journal, path, n) {
      assert FirstMiss(h, hash, journal, path, n, n);
    } else if n < |path| {
      MissedIsFirst(h, hash, journal, path, n + 1);
      if Missed(h, hash, journal, path, n + 1).Some? {
        var i: nat :| FirstMiss(h, hash, journal, path, n + 1, i)
          && Missed(h, hash, journal, path, n + 1) == Some((h(path[..i]).call, KeyOf(h, hash, path[..i]).1));
        hide MissesAt;
        assert FirstMiss(h, hash, journal, path, n, i);
      }
    }
  }

  ghost function EndOf(h: Handler, path: seq<Recorded>): Option<Outcome> {
    match h(path)
    case Return(outcome) => Some(outcome)
    case Ask(_) => None
  }

  /** One call of a replay: what it adds to what was found, or misses. */
  lemma RerunOne(h: Handler, hash: Hash, seal: Seal, journal: seq<Entry>, limit: nat, path: seq<Recorded>,
                 answer: Recorded, visited: seq<Key>, missed: Option<(Call, nat)>)
    requires Halts(h, hash, seal, journal, path, limit) && h(path).Ask?
    requires Answered(h, hash, seal, journal, path) == Some(answer)
    ensures limit > 0 && Halts(h, hash, seal, journal, path + [answer], limit - 1)
    ensures
      var key := KeyOf(h, hash, path);
      var misses := Find(journal, key) == None;
      Rerun(h, hash, seal, journal, limit, path, visited, missed) ==
        Rerun(h, hash, seal, journal, limit - 1, path + [answer], if misses then visited else visited + [key],
              if misses && missed.None? then Some((h(path).call, key.1)) else missed)
  {
    hide Find, KeyOf, Decode;
  }

  /** Where a replay on this walk ends, what it finds and what it misses first. */
  lemma {:induction false} RerunWalks(h: Handler, hash: Hash, seal: Seal, journal: seq<Entry>, limit: nat,
                                      path: seq<Recorded>, n: nat, visited: seq<Key>, missed: Option<(Call, nat)>)
    requires n <= |path| && Halts(h, hash, seal, journal, path[..n], limit)
    requires Walks(h, hash, seal, journal, path) && Stops(h, hash, seal, journal, path)
    ensures Rerun(h, hash, seal, journal, limit, path[..n], visited, missed) ==
      Ended(EndOf(h, path), visited + Hits(h, hash, journal, path, n),
            if missed.Some? then missed else Missed(h, hash, journal, path, n))
    decreases |path| - n
  {
    hide *;
    if n == |path| {
      assert path[..n] == path;
      RerunStops(h, hash, seal, journal, limit, path, visited, missed);
    } else {
      assert path[..n] + [path[n]] == path[..n + 1];
      WalksAt(h, hash, seal, journal, path, n);
      RerunOne(h, hash, seal, journal, limit, path[..n], path[n], visited, missed);
      var key := KeyOf(h, hash, path[..n]);
      var misses := Find(journal, key) == None;
      var miss := if misses && missed.None? then Some((h(path[..n]).call, key.1)) else missed;
      var found := if misses then visited else visited + [key];
      RerunWalks(h, hash, seal, journal, limit - 1, path, n + 1, found, miss);
      HitsAndMisses(h, hash, seal, journal, path, n);
      assert found + Hits(h, hash, journal, path, n + 1) == visited + Hits(h, hash, journal, path, n);
    }
  }

  lemma WalksAt(h: Handler, hash: Hash, seal: Seal, journal: seq<Entry>, path: seq<Recorded>, n: nat)
    requires Walks(h, hash, seal, journal, path) && n < |path|
    ensures h(path[..n]).Ask? && Answered(h, hash, seal, journal, path[..n]) == Some(path[n])
    ensures forall i :: 0 <= i < |path| ==> h(path[..i]).Ask?
  {
  }

  lemma HitsAndMisses(h: Handler, hash: Hash, seal: Seal, journal: seq<Entry>, path: seq<Recorded>, n: nat)
    requires Walks(h, hash, seal, journal, path) && n < |path|
    ensures
      var key := KeyOf(h, hash, path[..n]);
      if Find(journal, key) == None then
        && Missed(h, hash, journal, path, n) == Some((h(path[..n]).call, key.1))
        && Hits(h, hash, journal, path, n) == Hits(h, hash, journal, path, n + 1)
      else
        && Missed(h, hash, journal, path, n) == Missed(h, hash, journal, path, n + 1)
        && Hits(h, hash, journal, path, n) == [key] + Hits(h, hash, journal, path, n + 1)
  {
    hide Find, KeyOf, Answered;
  }

  lemma RerunStops(h: Handler, hash: Hash, seal: Seal, journal: seq<Entry>, limit: nat, path: seq<Recorded>,
                   visited: seq<Key>, missed: Option<(Call, nat)>)
    requires Halts(h, hash, seal, journal, path, limit)
    requires Walks(h, hash, seal, journal, path) && Stops(h, hash, seal, journal, path)
    ensures Rerun(h, hash, seal, journal, limit, path, visited, missed) ==
      Ended(EndOf(h, path), visited + Hits(h, hash, journal, path, |path|),
            if missed.Some? then missed else Missed(h, hash, journal, path, |path|))
  {
    hide Find, KeyOf, Decode;
    assert path[..|path|] == path;
  }

  /** Which verdict an ended replay is given, and what it says, whatever order the reasons are asked in. */
  lemma JudgeExactly(ended: Ended, recorded: seq<Key>, asked: Asked, kept: bool)
    ensures
      var verdict := Judge(ended, recorded, asked, kept);
      var outcome := if ended.outcome.Some? then ended.outcome.value else Raised("refused");
      var judged := !outcome.SkippedErased? && !outcome.Ignored?;
      && verdict != WasSkipped
      && (verdict.SubjectErased? <==> outcome.SkippedErased?)
      && (verdict.SubjectErased? ==> verdict.reason == outcome.reason)
      && (verdict == NoLongerHandled <==> outcome.Ignored?)
      && (verdict.NewCall? <==> judged && ended.missed.Some? && (recorded != [] || asked == Live))
      && (verdict.NoJournal? <==> judged && ended.missed.Some? && recorded == [] && asked != Live)
      && (verdict.NewCall? || verdict.NoJournal? ==> Some((verdict.call, verdict.ordinal)) == ended.missed)
      && (verdict.NewCall? ==> verdict.asked == asked)
      && (verdict.Broke? <==> judged && ended.missed.None? && outcome.Raised?)
      && (verdict.Broke? ==> verdict.detail == outcome.detail)
      && (verdict == Reclaimed <==>
            judged && ended.missed.None? && !outcome.Raised? && recorded == [] && asked == Candidate && !kept)
      && (verdict.Different? <==>
            judged && ended.missed.None? && !outcome.Raised? && recorded != [] && ended.visited != recorded)
      && (verdict.Different? ==> verdict.journal == recorded && verdict.replay == ended.visited)
      && (verdict.TerminallyFailed? <==>
            && judged && ended.missed.None? && outcome.Failed? && asked == Candidate
            && if recorded == [] then kept else ended.visited == recorded)
  {
  }

  /** Every verdict follows from the walk alone: what the handler came to, the first thing it asked for that
      the journal has not, and whether it asked for all the journal has, in order. */
  lemma VerdictExactly(h: Handler, hash: Hash, seal: Seal, w: World, limit: nat, asked: Asked, kept: bool)
    returns (path: seq<Recorded>)
    requires Halts(h, hash, seal, w.journal, [], limit)
    ensures Walks(h, hash, seal, w.journal, path) && Stops(h, hash, seal, w.journal, path)
    ensures
      var verdict := Verdict(h, hash, seal, w, limit, asked, kept);
      var outcome := if h(path).Return? then h(path).outcome else Raised("refused");
      var skipped := asked != Live && w.status == OperatorSkipped;
      var missed := Missed(h, hash, w.journal, path, 0);
      var judged := !skipped && !outcome.SkippedErased? && !outcome.Ignored?;
      && (verdict == WasSkipped <==> skipped)
      && (verdict.SubjectErased? <==> !skipped && outcome.SkippedErased?)
      && (verdict == NoLongerHandled <==> !skipped && outcome.Ignored?)
      && (verdict.NewCall? <==> judged && missed.Some? && (w.journal != [] || asked == Live))
      && (verdict.NoJournal? <==> judged && missed.Some? && w.journal == [] && asked != Live)
      && (verdict.NewCall? || verdict.NoJournal? ==> Some((verdict.call, verdict.ordinal)) == missed)
      && (verdict.Broke? <==> judged && missed.None? && outcome.Raised?)
      && (verdict == Reclaimed <==>
            judged && missed.None? && !outcome.Raised? && w.journal == [] && asked == Candidate && !kept)
      && (verdict.Different? <==>
            judged && missed.None? && !outcome.Raised? && w.journal != []
            && Hits(h, hash, w.journal, path, 0) != Keys(w.journal))
      && (verdict.TerminallyFailed? <==>
            && judged && missed.None? && outcome.Failed? && asked == Candidate
            && if w.journal == [] then kept else Hits(h, hash, w.journal, path, 0) == Keys(w.journal))
  {
    path := WalkOn(h, hash, seal, w.journal, limit, []);
    assert path[..0] == [];
    hide Walks, Stops, Halts;
    RerunWalks(h, hash, seal, w.journal, limit, path, 0, [], None);
    JudgeExactly(Rerun(h, hash, seal, w.journal, limit, [], [], None), Keys(w.journal), asked, kept);
    hide Rerun, Halts, Hits, Missed, Walks, Stops, Judge;
  }

  /** The outcomes `Matched` may stand for. */
  predicate Accepts(outcome: Outcome, asked: Asked) {
    outcome.Done? || (outcome.Failed? && asked != Candidate)
  }

  /** `Matched` means exactly that the handler, whichever program it is from, makes the recorded
      calls in the recorded order and ends well, over a record that is still there and was not cut
      short by an operator. */
  lemma {:induction false} MatchedExactly(h: Handler, hash: Hash, seal: Seal, w: World, limit: nat, asked: Asked,
                                          kept: bool)
    requires CollisionFree(hash) && Halts(h, hash, seal, w.journal, [], limit) && Distinct(w.journal)
    ensures Verdict(h, hash, seal, w, limit, asked, kept) == Matched <==>
      && (asked == Live || w.status != OperatorSkipped)
      && (w.journal == [] && asked == Candidate ==> kept)
      && exists outcome :: Accepts(outcome, asked) && Reproduces(h, hash, w.journal, outcome)
  {
    var ended := Rerun(h, hash, seal, w.journal, limit, [], [], None);
    assert Answers(w.journal)[..0] == [] && Keys(w.journal)[..0] == [];
    if outcome :| Accepts(outcome, asked) && Reproduces(h, hash, w.journal, outcome) {
      FollowsJournal(h, hash, seal, w.journal, |w.journal|, 0, outcome);
      LimitFree(h, hash, seal, w.journal, |w.journal|, limit, [], [], None);
    }
    if Verdict(h, hash, seal, w, limit, asked, kept) == Matched {
      var outcome := ended.outcome.value;
      if w.journal == [] { EmptyVisits(h, hash, seal, limit, [], None); }
      VisitedAll(h, hash, seal, w.journal, limit, [], outcome);
      assert Accepts(outcome, asked) && Reproduces(h, hash, w.journal, outcome);
    }
  }

  lemma {:induction false} EmptyVisits(h: Handler, hash: Hash, seal: Seal, limit: nat,
                                       path: seq<Recorded>, missed: Option<(Call, nat)>)
    requires Halts(h, hash, seal, [], path, limit)
    ensures Rerun(h, hash, seal, [], limit, path, [], missed).visited == []
    decreases limit
  {
    if h(path).Ask? && seal(h(path).call).Some? {
      var miss := if missed.None? then Some((h(path).call, KeyOf(h, hash, path).1)) else missed;
      EmptyVisits(h, hash, seal, limit - 1, path + [seal(h(path).call).value], miss);
    }
  }

  lemma {:induction false} JournalDistinct(h: Handler, hash: Hash, journal: seq<Entry>)
    requires CollisionFree(hash) && OnePath(h, hash, journal)
    ensures Distinct(journal)
  {
    forall i, j | 0 <= i < j < |journal| ensures journal[i].key != journal[j].key {
      var path := Answers(journal)[..j];
      assert path[..i] == Answers(journal)[..i];
      KeysDiffer(h, hash, path, i);
    }
  }

  /** Whatever crashes a completed invocation went through, replaying it with the program that ran it
      visits the whole journal, reaches nothing it would perform, and reports the outcome it had. */
  lemma {:induction false} CompletedReplays(h: Handler, hash: Hash, seal: Seal, run: seq<Step>, w: World, asked: Asked)
    requires CollisionFree(hash) && Reaches(h, hash, Fresh(), run, w) && w.status == Terminal
    ensures h(Answers(w.journal)).Return? && Halts(h, hash, seal, w.journal, [], |w.journal|)
    ensures
      var outcome := h(Answers(w.journal)).outcome;
      var verdict := Verdict(h, hash, seal, w, |w.journal|, asked, true);
      && Rerun(h, hash, seal, w.journal, |w.journal|, [], [], None) == Ended(Some(outcome), Keys(w.journal), None)
      && (outcome.Done? ==> verdict == Matched)
      && (outcome.Failed? ==> verdict == TerminalFailure(outcome, asked))
      && (outcome.SkippedErased? ==> verdict == SubjectErased(outcome.reason))
      && (outcome.Ignored? ==> verdict == NoLongerHandled)
  {
    FreshInv(h, hash);
    RunKeeps(h, hash, Fresh(), run, w);
    assert Answers(w.journal)[..0] == [] && Keys(w.journal)[..0] == [];
    FollowsJournal(h, hash, seal, w.journal, |w.journal|, 0, h(Answers(w.journal)).outcome);
  }

  /** A candidate that makes only some of the recorded calls, in order, and ends well is reported as
      different: a replay may visit a proper part of the journal without missing anything. */
  lemma {:induction false} QuieterIsDifferent(h: Handler, hash: Hash, seal: Seal, w: World, kept: bool, n: nat)
    requires CollisionFree(hash) && w.status == Terminal && n < |w.journal|
    requires OnePath(h, hash, w.journal[..n]) && h(Answers(w.journal[..n])) == Return(Done) && Distinct(w.journal)
    ensures Halts(h, hash, seal, w.journal, [], n)
    ensures Verdict(h, hash, seal, w, n, Candidate, kept) == Different(Keys(w.journal), Keys(w.journal)[..n])
  {
    hide *;
    KeysCount(w.journal);
    PartJournal(h, hash, seal, w.journal, n, 0);
    assert Answers(w.journal)[..0] == [] && Keys(w.journal)[..0] == [];
    assert |Keys(w.journal)[..n]| == n;
    VerdictIs(h, hash, seal, w, n, Candidate, kept);
    JudgeExactly(Rerun(h, hash, seal, w.journal, n, [], [], None), Keys(w.journal), Candidate, kept);
  }

  lemma KeysCount(journal: seq<Entry>)
    ensures |Keys(journal)| == |Answers(journal)| == |journal|
  {
  }

  lemma VerdictIs(h: Handler, hash: Hash, seal: Seal, w: World, limit: nat, asked: Asked, kept: bool)
    requires Halts(h, hash, seal, w.journal, [], limit) && w.status != OperatorSkipped
    ensures Verdict(h, hash, seal, w, limit, asked, kept)
      == Judge(Rerun(h, hash, seal, w.journal, limit, [], [], None), Keys(w.journal), asked, kept)
  {
  }

  lemma {:induction false} PartJournal(h: Handler, hash: Hash, seal: Seal, journal: seq<Entry>, n: nat, i: nat)
    requires CollisionFree(hash) && i <= n < |journal| && Distinct(journal)
    requires OnePath(h, hash, journal[..n]) && h(Answers(journal[..n])) == Return(Done)
    ensures Halts(h, hash, seal, journal, Answers(journal)[..i], n - i)
    ensures Rerun(h, hash, seal, journal, n - i, Answers(journal)[..i], Keys(journal)[..i], None)
         == Ended(Some(Done), Keys(journal)[..n], None)
    decreases n - i
  {
    var path := Answers(journal)[..i];
    assert Answers(journal[..n]) == Answers(journal)[..n];
    if i < n {
      assert path == Answers(journal[..n])[..i];
      assert journal[i].key == journal[..n][i].key == KeyOf(h, hash, path);
      FindAt(journal, KeyOf(h, hash, path), i);
      assert path + [Decode(journal[i].row)] == Answers(journal)[..i + 1];
      assert Keys(journal)[..i] + [KeyOf(h, hash, path)] == Keys(journal)[..i + 1];
      PartJournal(h, hash, seal, journal, n, i + 1);
    }
  }
}
