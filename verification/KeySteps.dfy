/** Every step of every thread keeps the invariant of KeyHistory. */
module KeySteps {
  import opened Options
  import opened KeyStore
  import opened KeyHistory

  lemma EmptyTrail(levels: Levels, w: World, id: Id)
    ensures Trail(levels, w, id, [])
  {
  }

  lemma TrailStart(levels: Levels, w: World, id: Id, below: seq<Row>)
    requires Trail(levels, w, id, below) && below != []
    ensures Was(levels, w, id, below[0])
  {
    assert IdAt(id, below, 0) == id;
  }

  lemma ReadStepOk(levels: Levels, w: World, stack: seq<Frame>)
    requires Base(levels, w) && StackOk(levels, w, stack) && !stack[|stack| - 1].phase.Inserting?
    ensures MintStep(w, stack).0 == w && StepOk(levels, w, stack[0].chain, MintStep(w, stack).1)
  {
    var frame := stack[|stack| - 1];
    assert FrameOk(levels, w, frame);
    var id := frame.chain[0];
    var below := if frame.phase.Judging? || frame.phase.Reopening? then frame.phase.below else [];
    EmptyTrail(levels, w, id);
    WalkResult(levels, w, id, below);
    var walked := WalkOn(w.rows, id, below);
    if below != [] { TrailStart(levels, w, id, below); }
    hide Base, Trail, Was, Doomed, WalkOn;
    match walked
    case Found(secret) => AnswerOk(levels, w, stack, secret);
    case Higher(more) =>
      var phase := if frame.phase.Reopening? then Reopening(more) else Judging(more);
      assert FrameOk(levels, w, frame.(phase := phase));
      SetPhaseOk(levels, w, stack, phase);
    case Unreadable =>
      if frame.phase.Reopening? {
        RetryOk(levels, w, stack);
      } else {
        DescendOk(levels, w, stack, if below == [] then None else Some(below[0]));
      }
  }

  lemma WinnerOpens(levels: Levels, w: World, id: Id, row: Row, under: Option<(Id, Secret)>)
    requires Was(levels, w, id, row)
    ensures OpenWinner(id, row, under).Some? ==> BornOf(w, OpenWinner(id, row, under).value, id)
    ensures row.wrapping.Master? ==> OpenWinner(id, row, under).Some?
    ensures under.Some? && row.wrapping == Parent(under.value.0, under.value.1) ==> OpenWinner(id, row, under).Some?
  {
  }

  /** The parent a frame inserts under. */
  function Under(frame: Frame): Option<(Id, Secret)> {
    if frame.phase.Inserting? && frame.phase.parent.Some? && |frame.chain| > 1
    then Some((frame.chain[1], frame.phase.parent.value)) else None
  }

  lemma InsertingFacts(levels: Levels, w: World, frame: Frame)
    requires FrameOk(levels, w, frame) && frame.phase.Inserting?
    ensures StaleOk(levels, w, frame.chain[0], frame.phase.stale)
    ensures Under(frame).Some? ==>
      var under := Under(frame).value;
      BornOf(w, under.1, under.0) && levels(under.0.subject) < levels(frame.chain[0].subject)
  {
    hide StaleOk;
  }

  lemma InsertStepIs(w: World, stack: seq<Frame>)
    requires stack != [] && stack[|stack| - 1].chain != [] && stack[|stack| - 1].phase.Inserting?
    ensures
      var frame := stack[|stack| - 1];
      var w' := Insert(w, frame.chain[0], Under(frame), frame.phase.stale);
      var winner := OpenWinner(frame.chain[0], w'.rows[frame.chain[0]], Under(frame));
      && MintStep(w, stack) ==
           (w', if winner.Some? then Answer(stack, winner.value) else SetPhase(stack, Reopening([])))
      && w'.threads == w.threads
  {
  }

  lemma WinnerStepOk(levels: Levels, w: World, stack: seq<Frame>, winner: Option<Secret>)
    requires StackOk(levels, w, stack)
    requires winner.Some? ==> BornOf(w, winner.value, stack[|stack| - 1].chain[0])
    ensures
      StepOk(levels, w, stack[0].chain,
             if winner.Some? then Answer(stack, winner.value) else SetPhase(stack, Reopening([])))
  {
    var frame := stack[|stack| - 1];
    assert FrameOk(levels, w, frame);
    EmptyTrail(levels, w, frame.chain[0]);
    assert FrameOk(levels, w, frame.(phase := Reopening([])));
    hide StackOk, FrameOk, StepOk;
    if winner.Some? { AnswerOk(levels, w, stack, winner.value); } else { SetPhaseOk(levels, w, stack, Reopening([])); }
  }

  lemma RowWas(levels: Levels, w: World, id: Id)
    requires Base(levels, w) && id in w.rows
    ensures Was(levels, w, id, w.rows[id])
  {
  }

  lemma BaseParts(levels: Levels, w: World, w': World)
    requires Base(levels, w) && Onward(levels, w, w')
    ensures RowsOk(levels, w) && Ledger(w) && Base(levels, w') && Grows(w, w')
    ensures forall s :: s in w.born && Holds(w', s) ==> Holds(w, s)
  {
  }

  lemma InsertStepOk(levels: Levels, w: World, stack: seq<Frame>, t: nat)
    requires Base(levels, w) && StackOk(levels, w, stack) && stack[|stack| - 1].phase.Inserting?
    ensures Onward(levels, w, MintStep(w, stack).0) && TableMoves(w, MintStep(w, stack).0, t)
    ensures MintStep(w, stack).0.threads == w.threads
    ensures StepOk(levels, MintStep(w, stack).0, stack[0].chain, MintStep(w, stack).1)
  {
    var frame := stack[|stack| - 1];
    var id, under := frame.chain[0], Under(frame);
    InsertingFacts(levels, w, frame);
    InsertStepIs(w, stack);
    var w' := Insert(w, id, under, frame.phase.stale);
    hide Insert, Base, Grows, TableMoves, OpenWinner, MintStep, Onward, StackOk, FrameOk, Under, StaleOk, Was, RowsOk,
      Ledger, StepOk;
    InsertKeeps(levels, w, id, under, frame.phase.stale);
    BaseParts(levels, w, w');
    InsertMoves(levels, w, id, under, frame.phase.stale, t);
    RowWas(levels, w', id);
    WinnerOpens(levels, w', id, w'.rows[id], under);
    StackKept(levels, w, w', stack);
    WinnerStepOk(levels, w', stack, OpenWinner(id, w'.rows[id], under));
  }

  lemma MintStepOk(levels: Levels, w: World, stack: seq<Frame>, t: nat)
    requires Base(levels, w) && StackOk(levels, w, stack)
    ensures Onward(levels, w, MintStep(w, stack).0) && TableMoves(w, MintStep(w, stack).0, t)
    ensures MintStep(w, stack).0.threads == w.threads
    ensures StepOk(levels, MintStep(w, stack).0, stack[0].chain, MintStep(w, stack).1)
  {
    hide Base, MintStep, StepOk;
    if stack[|stack| - 1].phase.Inserting? {
      InsertStepOk(levels, w, stack, t);
    } else {
      ReadStepOk(levels, w, stack);
      SameKeeps(levels, w, w);
    }
  }

  lemma MintKeeps(levels: Levels, w: World, t: nat, w': World)
    requires Good(levels, w) && Enabled(levels, w, Mint(t)) && Next(levels, w, Mint(t), w')
    ensures StepsOn(levels, w, w')
  {
    var stack := w.threads[t].stack;
    assert ThreadOk(levels, w, w.threads[t]);
    MintStepOk(levels, w, stack, t);
    var (after, stepped) := MintStep(w, stack);
    var id := stack[0].chain;
    var thread := if stepped.answer.Some? && id != [] then Minted(id[0], stepped.answer.value)
      else Minting(stepped.stack);
    assert w' == after.(threads := after.threads[t := thread]);
    hide MintStep, Next;
    ThreadsAside(levels, w, t, after, w', thread);
  }

  /** The table moved on to `after`, and then only a thread was replaced. */
  lemma ThreadsAside(levels: Levels, w: World, t: nat, after: World, w': World, thread: Thread)
    requires Good(levels, w) && Onward(levels, w, after) && TableMoves(w, after, t) && after.threads == w.threads
    requires w' == after.(threads := after.threads[t := thread])
    requires ThreadOk(levels, w', thread) || ThreadOk(levels, after, thread)
    requires Awaited(thread).Some? ==> (t in w.threads && Awaited(w.threads[t]) == Awaited(thread))
                                       || Awaited(thread).value.nonce >= w.next
    ensures StepsOn(levels, w, w')
  {
    OnwardBase(levels, w, after);
    BaseAside(levels, after, w');
    ThreadAside(levels, after, w', thread);
    MovesAside(w, after, w', t);
    hide Good, Base, Grows, TableMoves, ThreadOk, Onward;
    MovedOn(levels, w, w', t, thread);
    assert Moves(w, w');
  }

  lemma BaseAside(levels: Levels, w: World, w': World)
    requires Base(levels, w) && w' == w.(threads := w'.threads)
    ensures Base(levels, w')
    ensures forall v :: Grows(v, w) ==> Grows(v, w')
  {
    SameKeeps(levels, w, w');
    OnwardBase(levels, w, w');
  }

  lemma MovesAside(w: World, after: World, w': World, t: nat)
    requires TableMoves(w, after, t) && w' == after.(threads := w'.threads)
    ensures TableMoves(w, w', t)
  {
  }

  lemma ThreadAside(levels: Levels, w: World, w': World, thread: Thread)
    requires w' == w.(threads := w'.threads)
    ensures ThreadOk(levels, w, thread) ==> ThreadOk(levels, w', thread)
  {
    if ThreadOk(levels, w, thread) {
      match thread
      case Minting(stack) => StackKept(levels, w, w', stack);
      case Minted(id, secret) =>
      case AdoptDone(chain, _) =>
      case Rotating(updates) =>
      case RotateDone =>
      case Adopting(chain, at) =>
        match at
        case AtRow =>
        case AtMint(row, stack) => StackKept(levels, w, w', stack);
        case AtCommit(row, parent) =>
        case AtReadback(box, below) => TrailKept(levels, w, w', chain[0], below);
        case AtRestore(box) =>
    }
  }

  // ----- adopting ----------------------------------------------------------

  /** Only thread `t` moves on, and the table stays. */
  lemma OnlyThread(levels: Levels, w: World, t: nat, w': World, thread: Thread)
    requires Good(levels, w) && w' == w.(next := w'.next, threads := w.threads[t := thread]) && w.next <= w'.next
    requires ThreadOk(levels, w.(next := w'.next), thread)
    requires Awaited(thread).Some? ==> (t in w.threads && Awaited(w.threads[t]) == Awaited(thread))
    ensures StepsOn(levels, w, w')
  {
    var after := w.(next := w'.next);
    SameKeeps(levels, w, after);
    hide ThreadOk, Onward, TableMoves, Good;
    assert Base(levels, w) by { GoodBase(levels, w); }
    ThreadsAside(levels, w, t, after, w', thread);
  }

  lemma GoodBase(levels: Levels, w: World)
    requires Good(levels, w)
    ensures Base(levels, w) && Ledger(w) && RowsOk(levels, w)
    ensures forall t :: t in w.threads ==> ThreadOk(levels, w, w.threads[t])
  {
  }

  lemma AtRowKeeps(levels: Levels, w: World, t: nat, chain: seq<Id>)
    requires Good(levels, w) && t in w.threads && w.threads[t] == Adopting(chain, AtRow) && |chain| > 1
    ensures StepsOn(levels, w, AdoptStep(w, t, chain, AtRow))
  {
    GoodBase(levels, w);
    assert ThreadOk(levels, w, w.threads[t]);
    var w' := AdoptStep(w, t, chain, AtRow);
    if chain[0] in w.rows { RowWas(levels, w, chain[0]); }
    var thread := w'.threads[t];
    var frame := Frame(chain[1..], MINT_ATTEMPTS, Reading);
    assert FrameOk(levels, w, frame) && StackOk(levels, w, [frame]);
    assert ThreadOk(levels, w, thread);
    hide Good, ThreadOk, Base, AdoptStep;
    OnlyThread(levels, w, t, w', thread);
  }

  function MintedOn(chain: seq<Id>, row: Row, stepped: Stepped): Thread {
    match stepped.answer
    case None => Adopting(chain, AtMint(row, stepped.stack))
    case Some(None) => AdoptDone(chain, Contended)
    case Some(Some(parent)) => Adopting(chain, AtCommit(row, parent))
  }

  lemma MintedOnOk(levels: Levels, w: World, after: World, chain: seq<Id>, row: Row, stack: seq<Frame>,
                   stepped: Stepped)
    requires ThreadOk(levels, w, Adopting(chain, AtMint(row, stack))) && Grows(w, after)
    requires stack != [] && stack[0].chain != [] && StepOk(levels, after, stack[0].chain, stepped)
    ensures ThreadOk(levels, after, MintedOn(chain, row, stepped))
  {
    WasKept(levels, w, after, chain[0], row);
    hide Was, Grows, StackOk;
  }

  lemma MintingFacts(levels: Levels, w: World, chain: seq<Id>, row: Row, stack: seq<Frame>)
    requires ThreadOk(levels, w, Adopting(chain, AtMint(row, stack)))
    ensures StackOk(levels, w, stack) && stack != [] && stack[|stack| - 1].chain != [] && stack[0].chain != []
  {
    assert FrameOk(levels, w, stack[0]) && FrameOk(levels, w, stack[|stack| - 1]);
  }

  lemma AtMintKeeps(levels: Levels, w: World, t: nat, chain: seq<Id>, row: Row, stack: seq<Frame>)
    requires Good(levels, w) && t in w.threads && w.threads[t] == Adopting(chain, AtMint(row, stack)) && |chain| > 1
    ensures StepsOn(levels, w, AdoptStep(w, t, chain, AtMint(row, stack)))
  {
    hide Good, MintStep, Base, StackOk, ThreadOk, Onward, TableMoves, Ledger, RowsOk, Grows, StepOk;
    GoodBase(levels, w);
    MintingFacts(levels, w, chain, row, stack);
    MintStepOk(levels, w, stack, t);
    var (after, stepped) := MintStep(w, stack);
    assert AdoptStep(w, t, chain, AtMint(row, stack))
      == after.(threads := after.threads[t := MintedOn(chain, row, stepped)]);
    hide AdoptStep;
    BaseParts(levels, w, after);
    MintedOnOk(levels, w, after, chain, row, stack, stepped);
    ThreadsAside(levels, w, t, after, after.(threads := after.threads[t := MintedOn(chain, row, stepped)]),
      MintedOn(chain, row, stepped));
  }

  /** The table once an adoption's compare-and-set went through. */
  function Committed(w: World, chain: seq<Id>, row: Row, parent: Secret): World
    requires |chain| > 1
  {
    w.(rows := w.rows[chain[0] := ChildRow(chain[0], chain[1], parent, row.box.secret, w.next)],
       next := w.next + 1, filed := w.filed + {(row.box.secret, parent)})
  }

  /** Wrapping one row anew moves the table as it may. */
  lemma RowMoves(levels: Levels, w: World, w': World, t: nat, id: Id, row: Row)
    requires WrapsAnew(levels, w, w', id, row) && Onward(levels, w, w')
    requires row.wrapping.Master? ==> row.wrapping.id == w.primary
    requires w.rows[id].wrapping.Parent? ==> Restores(w, t, id)
    ensures TableMoves(w, w', t)
  {
    hide Base, Was, Grows;
  }

  lemma CommitWraps(levels: Levels, w: World, chain: seq<Id>, row: Row, parent: Secret)
    requires Chain(levels, chain) && |chain| > 1 && BornOf(w, parent, chain[1])
    requires Was(levels, w, chain[0], row) && row.wrapping.Master?
    requires chain[0] in w.rows && w.rows[chain[0]].box == row.box && Was(levels, w, chain[0], w.rows[chain[0]])
    ensures WrapsAnew(levels, w, Committed(w, chain, row, parent), chain[0],
      Committed(w, chain, row, parent).rows[chain[0]])
    ensures w.rows[chain[0]].wrapping.Master?
  {
  }

  lemma CommitMoves(levels: Levels, w: World, t: nat, chain: seq<Id>, row: Row, parent: Secret)
    requires Base(levels, w) && Chain(levels, chain) && |chain| > 1 && BornOf(w, parent, chain[1])
    requires Was(levels, w, chain[0], row) && row.wrapping.Master?
    requires chain[0] in w.rows && w.rows[chain[0]].box == row.box
    ensures Onward(levels, w, Committed(w, chain, row, parent)) && TableMoves(w, Committed(w, chain, row, parent), t)
  {
    hide Base, WrapsAnew, Was, Onward, TableMoves;
    var w' := Committed(w, chain, row, parent);
    RowWas(levels, w, chain[0]);
    CommitWraps(levels, w, chain, row, parent);
    WrapsAnewKeeps(levels, w, w', chain[0], w'.rows[chain[0]]);
    RowMoves(levels, w, w', t, chain[0], w'.rows[chain[0]]);
  }

  lemma CommitFacts(levels: Levels, w: World, chain: seq<Id>, row: Row, parent: Secret)
    requires ThreadOk(levels, w, Adopting(chain, AtCommit(row, parent)))
    ensures Chain(levels, chain) && |chain| > 1 && Was(levels, w, chain[0], row) && row.wrapping.Master?
    ensures BornOf(w, parent, chain[1]) && BornOf(w, row.box.secret, chain[0])
  {
  }

  lemma CommittedThread(levels: Levels, w: World, chain: seq<Id>, row: Row, parent: Secret)
    requires Chain(levels, chain) && |chain| > 1 && BornOf(w, row.box.secret, chain[0])
    ensures
      var after := Committed(w, chain, row, parent);
      ThreadOk(levels, after, Adopting(chain, AtReadback(after.rows[chain[0]].box, [])))
  {
    EmptyTrail(levels, Committed(w, chain, row, parent), chain[0]);
  }

  lemma AtCommitKeeps(levels: Levels, w: World, t: nat, chain: seq<Id>, row: Row, parent: Secret)
    requires Good(levels, w) && t in w.threads && w.threads[t] == Adopting(chain, AtCommit(row, parent)) && |chain| > 1
    ensures StepsOn(levels, w, AdoptStep(w, t, chain, AtCommit(row, parent)))
  {
    hide Good, Base, ThreadOk, Onward, TableMoves, Was, Ledger, RowsOk, Grows;
    GoodBase(levels, w);
    CommitFacts(levels, w, chain, row, parent);
    var w' := AdoptStep(w, t, chain, AtCommit(row, parent));
    if chain[0] in w.rows && w.rows[chain[0]].box == row.box {
      var after := Committed(w, chain, row, parent);
      var thread := Adopting(chain, AtReadback(after.rows[chain[0]].box, []));
      assert w' == after.(threads := after.threads[t := thread]);
      CommitMoves(levels, w, t, chain, row, parent);
      CommittedThread(levels, w, chain, row, parent);
      hide AdoptStep;
      ThreadsAside(levels, w, t, after, w', thread);
    } else {
      DoneOk(levels, w, w.(next := w'.next), chain, w.threads[t], Contended);
      OnlyThread(levels, w, t, w', AdoptDone(chain, Contended));
    }
  }

  lemma AtReadbackKeeps(levels: Levels, w: World, t: nat, chain: seq<Id>, box: Box, below: seq<Row>)
    requires Good(levels, w) && t in w.threads && w.threads[t] == Adopting(chain, AtReadback(box, below)) && |chain| > 1
    ensures StepsOn(levels, w, AdoptStep(w, t, chain, AtReadback(box, below)))
  {
    hide Good, Base, ThreadOk, Ledger, RowsOk;
    GoodBase(levels, w);
    var w' := AdoptStep(w, t, chain, AtReadback(box, below));
    ReadbackThread(levels, w, chain, box, below);
    var thread := ReadBack(w, chain, box, below);
    assert w' == w.(threads := w.threads[t := thread]);
    hide AdoptStep;
    OnlyThread(levels, w, t, w', thread);
  }

  /** What one read of the readback makes of its thread. */
  function ReadBack(w: World, chain: seq<Id>, box: Box, below: seq<Row>): Thread
    requires |chain| > 1
  {
    match WalkOn(w.rows, chain[0], below)
    case Found(_) => AdoptDone(chain, Moved)
    case Higher(more) => Adopting(chain, AtReadback(box, more))
    case Unreadable => Adopting(chain, AtRestore(box))
  }

  lemma ReadbackThread(levels: Levels, w: World, chain: seq<Id>, box: Box, below: seq<Row>)
    requires Base(levels, w) && |chain| > 1 && ThreadOk(levels, w, Adopting(chain, AtReadback(box, below)))
    ensures ThreadOk(levels, w, ReadBack(w, chain, box, below))
    ensures Awaited(ReadBack(w, chain, box, below)).Some? ==> Awaited(ReadBack(w, chain, box, below)) == Some(box)
  {
    WalkResult(levels, w, chain[0], below);
    hide Base, WalkOn, Trail, Was;
  }

  /** The table once an adoption took its row back. */
  function Restored(w: World, id: Id, box: Box): World {
    w.(rows := w.rows[id := MasterRow(w.primary, box.secret, w.next)], next := w.next + 1)
  }

  lemma RestoreWraps(levels: Levels, w: World, id: Id, box: Box)
    requires id in w.rows && w.rows[id].box == box && Was(levels, w, id, w.rows[id])
    ensures WrapsAnew(levels, w, Restored(w, id, box), id, Restored(w, id, box).rows[id])
  {
  }

  lemma RestoreMoves(levels: Levels, w: World, t: nat, id: Id, box: Box)
    requires Base(levels, w) && id in w.rows && w.rows[id].box == box
    requires t in w.threads && w.threads[t].Adopting? && w.threads[t].at == AtRestore(box)
    ensures Onward(levels, w, Restored(w, id, box)) && TableMoves(w, Restored(w, id, box), t)
  {
    hide Base, WrapsAnew, Was, Onward, TableMoves;
    var w' := Restored(w, id, box);
    RowWas(levels, w, id);
    RestoreWraps(levels, w, id, box);
    WrapsAnewKeeps(levels, w, w', id, w'.rows[id]);
    RowMoves(levels, w, w', t, id, w'.rows[id]);
  }

  lemma AtRestoreKeeps(levels: Levels, w: World, t: nat, chain: seq<Id>, box: Box)
    requires Good(levels, w) && t in w.threads && w.threads[t] == Adopting(chain, AtRestore(box)) && |chain| > 1
    ensures StepsOn(levels, w, AdoptStep(w, t, chain, AtRestore(box)))
  {
    hide Good, Base, ThreadOk, Onward, TableMoves, Ledger, RowsOk, Grows;
    GoodBase(levels, w);
    var w' := AdoptStep(w, t, chain, AtRestore(box));
    if chain[0] in w.rows && w.rows[chain[0]].box == box {
      var after := Restored(w, chain[0], box);
      RestoreMoves(levels, w, t, chain[0], box);
      DoneOk(levels, w, after, chain, w.threads[t], Undone);
      ThreadsAside(levels, w, t, after, w', AdoptDone(chain, Undone));
    } else {
      DoneOk(levels, w, w.(next := w'.next), chain, w.threads[t], Undone);
      OnlyThread(levels, w, t, w', AdoptDone(chain, Undone));
    }
  }

  lemma DoneOk(levels: Levels, w: World, after: World, chain: seq<Id>, thread: Thread, result: Adopted)
    requires ThreadOk(levels, w, thread) && thread.Adopting? && thread.chain == chain
    ensures ThreadOk(levels, after, AdoptDone(chain, result))
  {
  }

  lemma AdoptKeeps(levels: Levels, w: World, t: nat, w': World)
    requires Good(levels, w) && Enabled(levels, w, Adopt(t)) && Next(levels, w, Adopt(t), w')
    ensures StepsOn(levels, w, w')
  {
    var chain, at := w.threads[t].chain, w.threads[t].at;
    assert w' == AdoptStep(w, t, chain, at) && |chain| > 1;
    hide Good, AdoptStep, Next;
    match at
    case AtRow => AtRowKeeps(levels, w, t, chain);
    case AtMint(row, stack) => AtMintKeeps(levels, w, t, chain, row, stack);
    case AtCommit(row, parent) => AtCommitKeeps(levels, w, t, chain, row, parent);
    case AtReadback(box, below) => AtReadbackKeeps(levels, w, t, chain, box, below);
    case AtRestore(box) => AtRestoreKeeps(levels, w, t, chain, box);
  }
}
