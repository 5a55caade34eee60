/** How a mint comes to fail: only by losing every one of its attempts, each to a row that closed between
    the insert that read it back and the walk that would open it (`mint` of `src/crypto.rs`). */
module KeyMints {
  import opened Options
  import opened KeyStore

  /** The thread's next step finds that the row it would reopen cannot be read. */
  predicate Loses(w: World, step: Step, t: nat) {
    && step == Mint(t) && t in w.threads && w.threads[t].Minting? && w.threads[t].stack != [] &&
    var stack := w.threads[t].stack;
    var frame := stack[|stack| - 1];
    frame.chain != [] && frame.phase.Reopening? && WalkOn(w.rows, frame.chain[0], frame.phase.below).Unreadable?
  }

  /** A run in which the thread lost that many times. */
  ghost predicate LosesOver(levels: Levels, w: World, run: seq<Step>, w': World, t: nat, lost: nat)
    decreases |run|
  {
    if run == [] then w' == w && lost == 0
    else
      && Enabled(levels, w, run[0])
      && exists mid, rest: nat :: Next(levels, w, run[0], mid) && LosesOver(levels, mid, run[1..], w', t, rest)
           && lost == rest + if Loses(w, run[0], t) then 1 else 0
  }

  /** The thread still tries, and its own row has that many attempts left. */
  predicate Trying(w: World, t: nat, attempts: nat) {
    && attempts > 0 && t in w.threads && w.threads[t].Minting? && w.threads[t].stack != []
    && w.threads[t].stack[0].chain != [] && w.threads[t].stack[0].attempts == attempts
  }

  predicate Failed(w: World, t: nat) {
    t in w.threads && w.threads[t].Minted? && w.threads[t].secret.None?
  }

  /** A stack whose own row has attempts left, at most `cost` fewer than before. */
  predicate Left(stack: seq<Frame>, attempts: nat, cost: nat) {
    stack != [] && stack[0].chain != [] && stack[0].attempts > 0 && stack[0].attempts + cost >= attempts
  }

  /** A lost attempt costs the row at most one of its own, and only the last one fails the mint. */
  lemma {:induction false} RetryCosts(stack: seq<Frame>)
    requires stack != [] && stack[0].chain != [] && stack[0].attempts > 0
    ensures
      var stepped := Retry(stack);
      match stepped.answer
      case None => Left(stepped.stack, stack[0].attempts, 1)
      case Some(answer) => answer == None && stack[0].attempts == 1
    decreases |stack|
  {
    if |stack| > 1 { RetryCosts(stack[..|stack| - 1]); }
  }

  /** A step of a mint costs nothing unless it loses. */
  lemma MintCosts(w: World, stack: seq<Frame>)
    requires stack != [] && stack[0].chain != [] && stack[|stack| - 1].chain != [] && stack[0].attempts > 0
    ensures
      var frame := stack[|stack| - 1];
      var lost := frame.phase.Reopening? && WalkOn(w.rows, frame.chain[0], frame.phase.below).Unreadable?;
      match MintStep(w, stack).1.answer
      case None => Left(MintStep(w, stack).1.stack, stack[0].attempts, if lost then 1 else 0)
      case Some(None) => lost && stack[0].attempts == 1
      case Some(Some(_)) => true
  {
    hide WalkOn, Insert, OpenWinner, Retry;
    if stack[|stack| - 1].phase.Reopening? { RetryCosts(stack); }
  }

  lemma MintThreads(w: World, stack: seq<Frame>)
    requires stack != [] && stack[|stack| - 1].chain != []
    ensures MintStep(w, stack).0.threads == w.threads
  {
    hide WalkOn, OpenWinner, Retry, Answer, Descend, SetPhase;
  }

  /** A step of another thread leaves a mint as it is. */
  lemma OthersLeave(levels: Levels, w: World, step: Step, w': World, t: nat)
    requires Enabled(levels, w, step) && Next(levels, w, step, w') && t in w.threads && w.threads[t].Minting?
    requires step != Mint(t)
    ensures t in w'.threads && w'.threads[t] == w.threads[t]
  {
    hide MintStep, WalkOn, Rewrap, Rewraps;
    match step
    case Mint(s) =>
      MintThreads(w, w.threads[s].stack);
    case Adopt(s) =>
      var at := w.threads[s].at;
      if at.AtMint? && at.stack != [] && at.stack[|at.stack| - 1].chain != [] { MintThreads(w, at.stack); }
    case _ =>
  }

  lemma StepCosts(levels: Levels, w: World, step: Step, w': World, t: nat, attempts: nat)
    requires Enabled(levels, w, step) && Next(levels, w, step, w') && Trying(w, t, attempts)
    ensures
      var cost := if Loses(w, step, t) then 1 else 0;
      || (exists left: nat :: left + cost >= attempts && Trying(w', t, left))
      || (t in w'.threads && w'.threads[t].Minted? && (w'.threads[t].secret.None? ==> attempts == cost == 1))
  {
    if step == Mint(t) {
      var stack := w.threads[t].stack;
      MintCosts(w, stack);
      MintThreads(w, stack);
      hide MintStep, WalkOn;
      var stepped := MintStep(w, stack).1;
      if stepped.answer.None? { assert Trying(w', t, stepped.stack[0].attempts); }
    } else {
      OthersLeave(levels, w, step, w', t);
      hide Next;
      assert Trying(w', t, attempts);
    }
  }

  /** What a mint answered stays its answer. */
  lemma AnswerStays(levels: Levels, w: World, step: Step, w': World, t: nat)
    requires Enabled(levels, w, step) && Next(levels, w, step, w') && t in w.threads && w.threads[t].Minted?
    ensures t in w'.threads && w'.threads[t] == w.threads[t]
  {
    hide MintStep, WalkOn, Rewrap, Rewraps;
    match step
    case Mint(s) =>
      MintThreads(w, w.threads[s].stack);
    case Adopt(s) =>
      var at := w.threads[s].at;
      if at.AtMint? && at.stack != [] && at.stack[|at.stack| - 1].chain != [] { MintThreads(w, at.stack); }
    case _ =>
  }

  lemma {:induction false} AnsweredStays(levels: Levels, w: World, run: seq<Step>, w': World, t: nat, lost: nat)
    requires LosesOver(levels, w, run, w', t, lost) && t in w.threads && w.threads[t].Minted?
    ensures t in w'.threads && w'.threads[t] == w.threads[t]
    decreases |run|
  {
    if run != [] {
      var mid, rest: nat :| Next(levels, w, run[0], mid) && LosesOver(levels, mid, run[1..], w', t, rest)
        && lost == rest + if Loses(w, run[0], t) then 1 else 0;
      AnswerStays(levels, w, run[0], mid, t);
      hide Next, Loses;
      AnsweredStays(levels, mid, run[1..], w', t, rest);
    }
  }

  lemma {:induction false} SpentOverRun(levels: Levels, w: World, run: seq<Step>, w': World, t: nat, attempts: nat,
                                        lost: nat)
    requires LosesOver(levels, w, run, w', t, lost) && Trying(w, t, attempts) && Failed(w', t)
    ensures lost >= attempts
    decreases |run|
  {
    if run != [] {
      var mid, rest: nat :| Next(levels, w, run[0], mid) && LosesOver(levels, mid, run[1..], w', t, rest)
        && lost == rest + if Loses(w, run[0], t) then 1 else 0;
      StepCosts(levels, w, run[0], mid, t, attempts);
      hide Next, Loses, Enabled;
      if left: nat :| left + (lost - rest) >= attempts && Trying(mid, t, left) {
        SpentOverRun(levels, mid, run[1..], w', t, left, rest);
      } else {
        AnsweredStays(levels, mid, run[1..], w', t, rest);
      }
    }
  }

  /** Whatever interleaves, a mint that answers with no secret lost no fewer than `MINT_ATTEMPTS` times. */
  lemma FailsWhenSpent(levels: Levels, w: World, t: nat, chain: seq<Id>, w1: World, run: seq<Step>, w2: World,
                       lost: nat)
    requires Enabled(levels, w, StartMint(t, chain)) && Next(levels, w, StartMint(t, chain), w1)
    requires LosesOver(levels, w1, run, w2, t, lost) && Failed(w2, t)
    ensures lost >= 32
  {
    assert Trying(w1, t, MINT_ATTEMPTS);
    SpentOverRun(levels, w1, run, w2, t, MINT_ATTEMPTS, lost);
  }
}
