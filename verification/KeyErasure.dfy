/** What an adoption does to its subject's row, and exactly when erasing an ancestor is for ever. */
module KeyErasure {
  import opened Options
  import opened KeyStore
  import opened KeyHistory
  import opened KeySteps
  import opened KeyRuns

  // ----- one adoption, step by step ----------------------------------------

  lemma {:induction false} StackChains(levels: Levels, w: World, chain: seq<Id>, stack: seq<Frame>, i: nat)
    requires StackOk(levels, w, stack) && |chain| > 1 && stack[0].chain == chain[1..] && i < |stack|
    ensures i + 1 <= |chain| && stack[i].chain == chain[i + 1..]
  {
    if i > 0 {
      StackChains(levels, w, chain, stack, i - 1);
      assert FrameOk(levels, w, stack[i - 1]) && FrameOk(levels, w, stack[i]);
      assert stack[i - 1 + 1].chain == stack[i - 1].chain[1..];
    }
  }

  lemma {:induction false} LevelsFall(levels: Levels, chain: seq<Id>, i: nat)
    requires Chain(levels, chain) && 0 < i < |chain|
    ensures levels(chain[i].subject) < levels(chain[0].subject)
  {
    if i > 1 { LevelsFall(levels, chain, i - 1); }
  }

  /** Minting the ancestors of a subject never touches the subject's own row. */
  lemma MintsAbove(levels: Levels, w: World, chain: seq<Id>, stack: seq<Frame>)
    requires StackOk(levels, w, stack) && Chain(levels, chain) && |chain| > 1 && stack[0].chain == chain[1..]
    ensures
      var rows := MintStep(w, stack).0.rows;
      (chain[0] in rows <==> chain[0] in w.rows) && (chain[0] in rows ==> rows[chain[0]] == w.rows[chain[0]])
  {
    var last := |stack| - 1;
    StackChains(levels, w, chain, stack, last);
    assert FrameOk(levels, w, stack[last]);
    assert stack[last].chain[0] == chain[last + 1];
    LevelsFall(levels, chain, last + 1);
    if stack[last].phase.Inserting? { InsertStepIs(w, stack); }
  }

  /** How a step of an adoption may leave its subject's row: as it was, or the same secret in a new
      wrapping, under the declared parent when it commits and under the primary master when it undoes. */
  ghost predicate OwnRowKept(w: World, w': World, t: nat, chain: seq<Id>)
    requires |chain| > 1 && t in w'.threads
  {
    var id := chain[0];
    && (id in w'.rows <==> id in w.rows)
    && (id in w.rows && w'.rows[id] != w.rows[id] ==>
          && w'.rows[id].box.secret == w.rows[id].box.secret
          && ((Awaited(w'.threads[t]) == Some(w'.rows[id].box)
               && w'.rows[id].wrapping.Parent? && w'.rows[id].wrapping.parent == chain[1])
              || (w'.threads[t] == AdoptDone(chain, Undone) && w'.rows[id].wrapping == Master(w.primary))))
  }

  lemma MintOwnRow(levels: Levels, w: World, t: nat, chain: seq<Id>, row: Row, stack: seq<Frame>)
    requires ThreadOk(levels, w, Adopting(chain, AtMint(row, stack)))
    ensures |chain| > 1
    ensures
      var w' := AdoptStep(w, t, chain, AtMint(row, stack));
      t in w'.threads && OwnRowKept(w, w', t, chain)
  {
    MintingFacts(levels, w, chain, row, stack);
    MintsAbove(levels, w, chain, stack);
    hide MintStep;
  }

  lemma OtherOwnRow(levels: Levels, w: World, t: nat, chain: seq<Id>, at: Adoption)
    requires ThreadOk(levels, w, Adopting(chain, at)) && !at.AtMint? && t in w.threads
    ensures |chain| > 1
    ensures
      var w' := AdoptStep(w, t, chain, at);
      t in w'.threads && OwnRowKept(w, w', t, chain)
  {
    hide Chain, Was, WalkOn, Trail;
  }

  lemma AdoptOwnRow(levels: Levels, w: World, t: nat, w': World)
    requires Good(levels, w) && Enabled(levels, w, Adopt(t)) && Next(levels, w, Adopt(t), w')
    ensures |w.threads[t].chain| > 1 && t in w'.threads && OwnRowKept(w, w', t, w.threads[t].chain)
  {
    var chain, at := w.threads[t].chain, w.threads[t].at;
    hide Good, ThreadOk, AdoptStep, OwnRowKept;
    GoodBase(levels, w);
    if at.AtMint? { MintOwnRow(levels, w, t, chain, at.row, at.stack); } else { OtherOwnRow(levels, w, t, chain, at); }
  }

  /** Nothing is lost meanwhile but to an erase: the subject opens to it, or it or one above it was erased. */
  lemma MovedOpens(levels: Levels, w: World, chain: seq<Id>, box: Box, below: seq<Row>, w': World)
    requires Good(levels, w) && ThreadOk(levels, w, Adopting(chain, AtReadback(box, below))) && Base(levels, w)
    requires w'.rows == w.rows && w'.retired == w.retired && w'.erased == w.erased && w'.filed == w.filed
      && w'.born == w.born
    ensures |chain| > 1 && (Opens(levels, w'.rows, chain[0]) == Some(box.secret) || Doomed(w', box.secret))
  {
    assert BornOf(w, box.secret, chain[0]);
    hide Base, Good, ThreadOk;
    LostOnlyByErase(levels, w, box.secret);
  }

  /** An adoption that answers `Moved` leaves its subject's row holding the same secret under its
      declared parent, waited for by nobody, unless the subject itself was erased or replaced since;
      and the subject opens to that secret, unless it or a subject above it was erased. */
  lemma MovedHolds(levels: Levels, w: World, t: nat, box: Box, below: seq<Row>, w': World)
    requires Good(levels, w) && Enabled(levels, w, Adopt(t)) && Next(levels, w, Adopt(t), w')
    requires w.threads[t].at == AtReadback(box, below) && w'.threads[t] == AdoptDone(w.threads[t].chain, Moved)
    ensures |w.threads[t].chain| > 1
    ensures
      var chain := w.threads[t].chain;
      box.secret in w'.retired
      || (chain[0] in w'.rows && w'.rows[chain[0]].box == box && w'.rows[chain[0]].wrapping.Parent?
          && w'.rows[chain[0]].wrapping.parent == chain[1] && AtRest(w', chain[0]))
    ensures Opens(levels, w'.rows, w.threads[t].chain[0]) == Some(box.secret) || Doomed(w', box.secret)
  {
    var chain := w.threads[t].chain;
    GoodBase(levels, w);
    assert ThreadOk(levels, w, w.threads[t]);
    MovedOpens(levels, w, chain, box, below, w');
    assert w' == w.(threads := w.threads[t := AdoptDone(chain, Moved)]);
    if box.secret !in w.retired {
      assert Holds(w, box.secret) && Was(levels, w, chain[0], w.rows[chain[0]]);
    }
  }

  /** No adoption waits to read this row back or to take it back. */
  ghost predicate AtRest(w: World, id: Id)
    requires id in w.rows
  {
    forall t :: t in w.threads ==> Awaited(w.threads[t]) != Some(w.rows[id].box)
  }

  // ----- what the readback is for ------------------------------------------

  /** Opening a walk's rows takes every row to be of the generation its child names. */
  lemma {:induction false} OpenDownNeeds(id: Id, below: seq<Row>, secret: Secret)
    requires below != [] && OpenDown(id, below, secret).Some?
    ensures below[0].wrapping.Parent?
    ensures below[0].wrapping.generation == if |below| == 1 then secret else below[1].box.secret
    decreases |below|
  {
    if |below| > 1 {
      var row := below[|below| - 1];
      assert row.wrapping.Parent? && row.wrapping.generation == secret;
      OpenDownNeeds(id, below[..|below| - 1], row.box.secret);
    }
  }

  /** The parent's generation was gone before this adoption's readback came to it. */
  ghost predicate Missed(w: World, t: nat, chain: seq<Id>, box: Box, g: Secret)
    requires |chain| > 1
  {
    t in w.threads &&
    (box.secret in w.retired ||
     match w.threads[t]
     case Adopting(c, at) => c == chain &&
       (match at
        case AtReadback(b, below) =>
          && b == box && g in w.retired
          && if below == [] then chain[0] in w.rows && w.rows[chain[0]] == Row(box, Parent(chain[1], g))
             else below[0] == Row(box, Parent(chain[1], g)) && (|below| > 1 ==> below[1].box.secret != g)
        case AtRestore(b) => b == box
        case _ => false)
     case AdoptDone(c, result) => c == chain && result != Moved
     case _ => false)
  }

  lemma MissedByRead(levels: Levels, w: World, t: nat, chain: seq<Id>, box: Box, g: Secret, below: seq<Row>)
    requires RowsOk(levels, w) && |chain| > 1 && Missed(w, t, chain, box, g) && box.secret !in w.retired
    requires w.threads[t] == Adopting(chain, AtReadback(box, below))
    ensures Missed(AdoptStep(w, t, chain, AtReadback(box, below)), t, chain, box, g)
  {
    var id := chain[0];
    var at := NextId(id, below);
    if at in w.rows {
      assert w.rows[at].box.secret !in w.retired;
      if w.rows[at].wrapping.Parent? {
        assert (below + [w.rows[at]])[0] == if below == [] then w.rows[at] else below[0];
      } else if below != [] && OpenDown(id, below, w.rows[at].box.secret).Some? {
        OpenDownNeeds(id, below, w.rows[at].box.secret);
      }
    }
  }

  lemma MintLeaves(w: World, stack: seq<Frame>)
    requires stack != [] && stack[|stack| - 1].chain != []
    ensures MintStep(w, stack).0.threads == w.threads
  {
    hide WalkOn, OpenWinner, Answer, Retry, Descend;
  }

  /** An adoption moves only by its own steps. */
  lemma OwnSteps(levels: Levels, w: World, step: Step, w': World, t: nat)
    requires Enabled(levels, w, step) && Next(levels, w, step, w') && t in w.threads
    ensures t in w'.threads
    ensures w.threads[t].AdoptDone? || (w.threads[t].Adopting? && step != Adopt(t)) ==> w'.threads[t] == w.threads[t]
  {
    hide MintStep, WalkOn, Rewrap, Rewraps;
    if step.Mint? {
      MintLeaves(w, w.threads[step.t].stack);
    } else if step.Adopt? && w.threads[step.t].at.AtMint? {
      var stack := w.threads[step.t].at.stack;
      if stack != [] && stack[|stack| - 1].chain != [] { MintLeaves(w, stack); }
    }
  }

  /** The row an adoption waits to read back stays, or its secret goes. */
  lemma MissedByOthers(levels: Levels, w: World, w': World, t: nat, chain: seq<Id>, box: Box, g: Secret)
    requires Good(levels, w) && StepsOn(levels, w, w') && |chain| > 1
    requires Missed(w, t, chain, box, g) && box.secret in w.born && w.born[box.secret] == chain[0]
    requires t in w'.threads && w'.threads[t] == w.threads[t]
    ensures Missed(w', t, chain, box, g)
  {
    assert Grows(w, w') && Moves(w, w') && Distinct(w);
    var u :| TableMoves(w, w', u);
    assert box.secret !in w'.retired ==> Holds(w', box.secret) by { GoodBase(levels, w'); }
    hide Good, Moves, StepsOn, Distinct;
    if box.secret !in w'.retired && w.threads[t].Adopting? && w.threads[t].at.AtReadback?
      && w.threads[t].at.below == [] {
      StillToRead(w, w', u, t, chain, box, g);
    }
  }

  lemma StillToRead(w: World, w': World, u: nat, t: nat, chain: seq<Id>, box: Box, g: Secret)
    requires Distinct(w) && TableMoves(w, w', u) && Holds(w', box.secret) && Grows(w, w')
    requires |chain| > 1 && chain[0] in w.rows && w.rows[chain[0]] == Row(box, Parent(chain[1], g))
    requires box.secret in w.born && w.born[box.secret] == chain[0]
    requires t in w.threads && w.threads[t] == Adopting(chain, AtReadback(box, []))
    ensures chain[0] in w'.rows && w'.rows[chain[0]] == w.rows[chain[0]]
  {
    assert Awaited(w.threads[t]) == Some(box);
    assert !Restores(w, u, chain[0]);
  }

  lemma MissedIs(w: World, t: nat, chain: seq<Id>, box: Box, g: Secret)
    requires |chain| > 1 && Missed(w, t, chain, box, g) && box.secret !in w.retired && w.threads[t].Adopting?
    ensures w.threads[t].chain == chain && (w.threads[t].at.AtReadback? ==> w.threads[t].at.box == box)
  {
  }

  lemma MissedByOwn(levels: Levels, w: World, w': World, t: nat, chain: seq<Id>, box: Box, g: Secret)
    requires RowsOk(levels, w) && Enabled(levels, w, Adopt(t)) && Next(levels, w, Adopt(t), w')
    requires |chain| > 1 && Missed(w, t, chain, box, g) && box.secret !in w.retired && w.threads[t].Adopting?
    ensures Missed(w', t, chain, box, g)
  {
    var at := w.threads[t].at;
    MissedIs(w, t, chain, box, g);
    assert w' == AdoptStep(w, t, chain, at);
    hide Next, Enabled, MintStep, WalkOn, RowsOk;
    if at.AtReadback? {
      hide AdoptStep, Missed;
      MissedByRead(levels, w, t, chain, box, g, at.below);
    }
  }

  lemma MissedKept(levels: Levels, w: World, step: Step, w': World, t: nat, chain: seq<Id>, box: Box, g: Secret)
    requires Good(levels, w) && Enabled(levels, w, step) && Next(levels, w, step, w') && StepsOn(levels, w, w')
    requires |chain| > 1 && Missed(w, t, chain, box, g) && box.secret in w.born && w.born[box.secret] == chain[0]
    ensures Missed(w', t, chain, box, g)
  {
    OwnSteps(levels, w, step, w', t);
    GoodBase(levels, w);
    assert Grows(w, w');
    hide Next, Enabled, Good, StepsOn, RowsOk, Base, Ledger;
    if box.secret !in w.retired {
      if w.threads[t].Adopting? && step == Adopt(t) {
        MissedByOwn(levels, w, w', t, chain, box, g);
      } else {
        MissedByOthers(levels, w, w', t, chain, box, g);
      }
    }
  }

  lemma {:induction false} MissedOverRun(levels: Levels, w: World, run: seq<Step>, w': World, t: nat, chain: seq<Id>,
                                          box: Box, g: Secret)
    requires Good(levels, w) && Reaches(levels, w, run, w')
    requires |chain| > 1 && Missed(w, t, chain, box, g) && box.secret in w.born && w.born[box.secret] == chain[0]
    ensures Missed(w', t, chain, box, g)
    decreases |run|
  {
    if run != [] {
      var mid :| Next(levels, w, run[0], mid) && Reaches(levels, mid, run[1..], w');
      StepKeeps(levels, w, run[0], mid);
      StepsOnGood(levels, w, mid);
      assert box.secret in mid.born && mid.born[box.secret] == chain[0] by { assert Grows(w, mid); }
      hide Good, Next, Enabled, StepsOn, Missed;
      MissedKept(levels, w, run[0], mid, t, chain, box, g);
      MissedOverRun(levels, mid, run[1..], w', t, chain, box, g);
    }
  }

  /** Committing is not the same as being readable: an adoption whose parent's generation went between
      the mint and the commit never answers `Moved`, in any run, unless its own secret went as well. */
  lemma ReadbackCatches(levels: Levels, w: World, t: nat, chain: seq<Id>, box: Box, g: Secret, run: seq<Step>,
                        w': World)
    requires Good(levels, w) && Reaches(levels, w, run, w') && |chain| > 1
    requires t in w.threads && w.threads[t] == Adopting(chain, AtReadback(box, []))
    requires chain[0] in w.rows && w.rows[chain[0]] == Row(box, Parent(chain[1], g)) && g in w.retired
    ensures t in w'.threads && (w'.threads[t] == AdoptDone(chain, Moved) ==> box.secret in w'.retired)
  {
    GoodBase(levels, w);
    assert Was(levels, w, chain[0], w.rows[chain[0]]);
    assert Missed(w, t, chain, box, g);
    hide Good, Reaches;
    MissedOverRun(levels, w, run, w', t, chain, box, g);
  }

  // ----- erasing an ancestor -----------------------------------------------

  /** The rows of `ids` each hang from the next, of its present generation. */
  ghost predicate Hangs(w: World, ids: seq<Id>) {
    && ids != [] && (forall i :: 0 <= i < |ids| ==> ids[i] in w.rows)
    && forall i :: 0 <= i < |ids| - 1 ==>
         w.rows[ids[i]].wrapping == Parent(ids[i + 1], w.rows[ids[i + 1]].box.secret)
  }

  function Boxes(w: World, ids: seq<Id>): (boxes: seq<Box>)
    requires forall i :: 0 <= i < |ids| ==> ids[i] in w.rows
    ensures |boxes| == |ids| && forall i :: 0 <= i < |ids| ==> boxes[i] == w.rows[ids[i]].box
  {
    seq(|ids|, i requires 0 <= i < |ids| => w.rows[ids[i]].box)
  }

  /** A chain whose top secret is gone and whose other rows cannot be taken back. */
  ghost predicate Dead(w: World, ids: seq<Id>, boxes: seq<Box>) {
    && |ids| == |boxes| > 0 && boxes[|boxes| - 1].secret in w.retired
    && (forall i :: 0 <= i < |ids| ==> BornOf(w, boxes[i].secret, ids[i]) && boxes[i].nonce < w.next)
    && forall i :: 0 <= i < |ids| - 1 ==> boxes[i].secret in w.retired || Stuck(w, ids, boxes, i)
  }

  ghost predicate Stuck(w: World, ids: seq<Id>, boxes: seq<Box>, i: nat)
    requires |ids| == |boxes| && i + 1 < |ids|
  {
    && ids[i] in w.rows && w.rows[ids[i]] == Row(boxes[i], Parent(ids[i + 1], boxes[i + 1].secret))
    && forall t :: t in w.threads ==> Awaited(w.threads[t]) != Some(boxes[i])
  }

  /** A row that cannot be taken back stays, or its secret goes. */
  lemma StuckKept(levels: Levels, w: World, w': World, ids: seq<Id>, boxes: seq<Box>, i: nat, t: nat)
    requires Alive(w') && Grows(w, w') && TableMoves(w, w', t) && Moves(w, w')
    requires |ids| == |boxes| && i + 1 < |ids| && Stuck(w, ids, boxes, i)
    requires BornOf(w, boxes[i].secret, ids[i]) && boxes[i].nonce < w.next && boxes[i].secret !in w'.retired
    ensures Stuck(w', ids, boxes, i)
  {
    assert Holds(w', boxes[i].secret);
    assert !Restores(w, t, ids[i]);
  }

  lemma DeadKept(levels: Levels, w: World, w': World, ids: seq<Id>, boxes: seq<Box>)
    requires StepsOn(levels, w, w') && Dead(w, ids, boxes)
    ensures Dead(w', ids, boxes)
  {
    GoodBase(levels, w');
    assert Alive(w') && Grows(w, w') && Moves(w, w');
    var t :| TableMoves(w, w', t);
    forall i | 0 <= i < |ids| - 1 && boxes[i].secret !in w'.retired ensures Stuck(w', ids, boxes, i) {
      hide Good, Alive, TableMoves, Moves, Stuck;
      StuckKept(levels, w, w', ids, boxes, i, t);
    }
    hide Good, Alive, TableMoves, Moves, Stuck;
  }

  lemma {:induction false} DeadOverRun(levels: Levels, w: World, run: seq<Step>, w': World, ids: seq<Id>,
                                       boxes: seq<Box>)
    requires Good(levels, w) && Reaches(levels, w, run, w') && Dead(w, ids, boxes)
    ensures Good(levels, w') && Dead(w', ids, boxes)
    decreases |run|
  {
    if run != [] {
      var mid :| Next(levels, w, run[0], mid) && Reaches(levels, mid, run[1..], w');
      StepKeeps(levels, w, run[0], mid);
      hide Next, Enabled, Dead;
      DeadKept(levels, w, mid, ids, boxes);
      hide Good;
      DeadOverRun(levels, mid, run[1..], w', ids, boxes);
    }
  }

  lemma GoneIsClosed(levels: Levels, w: World, id: Id, secret: Secret)
    requires RowsOk(levels, w) && secret in w.retired
    ensures Opens(levels, w.rows, id) != Some(secret)
  {
    OpensOwn(levels, w.rows, id);
  }

  lemma ParentIsClosed(levels: Levels, rows: map<Id, Row>, id: Id, box: Box, parent: Id, generation: Secret)
    requires id in rows && rows[id] == Row(box, Parent(parent, generation))
    requires Opens(levels, rows, parent) != Some(generation)
    ensures Opens(levels, rows, id) == None
  {
  }

  /** Nothing opens along a dead chain. */
  lemma {:induction false} DeadIsClosed(levels: Levels, w: World, ids: seq<Id>, boxes: seq<Box>, i: nat)
    requires RowsOk(levels, w) && Dead(w, ids, boxes) && i < |ids|
    ensures Opens(levels, w.rows, ids[i]) != Some(boxes[i].secret)
    decreases |ids| - i
  {
    hide RowsOk, Opens;
    if boxes[i].secret in w.retired {
      GoneIsClosed(levels, w, ids[i], boxes[i].secret);
    } else {
      assert Stuck(w, ids, boxes, i);
      DeadIsClosed(levels, w, ids, boxes, i + 1);
      ParentIsClosed(levels, w.rows, ids[i], boxes[i], ids[i + 1], boxes[i + 1].secret);
    }
  }

  /** Erasing the top of a settled chain leaves it dead. */
  lemma DeadAfter(levels: Levels, w: World, ids: seq<Id>)
    requires RowsOk(levels, w) && Hangs(w, ids) && |ids| > 1
    requires forall i :: 0 <= i < |ids| - 1 ==> AtRest(w, ids[i])
    ensures Dead(Erased(w, ids[|ids| - 1]), ids, Boxes(w, ids))
  {
    var top := ids[|ids| - 1];
    var after := Erased(w, top);
    var boxes := Boxes(w, ids);
    forall i | 0 <= i < |ids| ensures BornOf(w, boxes[i].secret, ids[i]) && boxes[i].nonce < w.next {
      assert Was(levels, w, ids[i], w.rows[ids[i]]);
    }
    forall i | 0 <= i < |ids| - 1 ensures Stuck(after, ids, boxes, i) {
      LevelsAlong(levels, w, ids, i, |ids| - 1);
      assert AtRest(w, ids[i]);
    }
  }

  /** With nothing waiting on the rows between, erasing the top of a chain closes its bottom for ever. */
  lemma ErasedForEver(levels: Levels, w: World, ids: seq<Id>, run: seq<Step>, w': World)
    requires Good(levels, w) && Hangs(w, ids) && |ids| > 1
    requires forall i :: 0 <= i < |ids| - 1 ==> AtRest(w, ids[i])
    requires Reaches(levels, Erased(w, ids[|ids| - 1]), run, w')
    ensures Opens(levels, w'.rows, ids[0]) != Some(w.rows[ids[0]].box.secret)
  {
    var top := ids[|ids| - 1];
    GoodBase(levels, w);
    DeadAfter(levels, w, ids);
    hide Good, Dead, RowsOk, Base, Ledger, ThreadOk, AtRest;
    EraseKeeps(levels, w, top);
    StepsOnGood(levels, w, Erased(w, top));
    hide Erased;
    DeadOverRun(levels, Erased(w, top), run, w', ids, Boxes(w, ids));
    GoodBase(levels, w');
    DeadIsClosed(levels, w', ids, Boxes(w, ids), 0);
  }

  lemma {:induction false} LevelsAlong(levels: Levels, w: World, ids: seq<Id>, i: nat, j: nat)
    requires RowsOk(levels, w) && Hangs(w, ids) && i < j < |ids|
    ensures levels(ids[j].subject) < levels(ids[i].subject)
    decreases j - i
  {
    assert Was(levels, w, ids[i], w.rows[ids[i]]);
    if i + 1 < j { LevelsAlong(levels, w, ids, i + 1, j); }
  }

  // ----- the other direction -----------------------------------------------

  lemma OneStep(levels: Levels, w: World, step: Step, mid: World, run: seq<Step>, w': World)
    requires Enabled(levels, w, step) && Next(levels, w, step, mid) && Reaches(levels, mid, run, w')
    ensures Reaches(levels, w, [step] + run, w')
  {
    assert ([step] + run)[1..] == run;
  }

  lemma NoStep(levels: Levels, w: World)
    ensures Reaches(levels, w, [], w)
  {
  }

  /** `w'` has the row of `id` as a root of the same secret, and what is below it as it was. */
  ghost predicate Reroots(levels: Levels, w: World, id: Id, w': World) {
    && id in w.rows && id in w'.rows && w'.rows[id].wrapping.Master?
    && (exists nonce :: w'.rows[id] == MasterRow(w'.rows[id].wrapping.id, w.rows[id].box.secret, nonce))
    && forall other :: other in w.rows && other != id && levels(other.subject) >= levels(id.subject) ==>
         other in w'.rows && w'.rows[other] == w.rows[other]
  }

  lemma RestoreNow(levels: Levels, w: World, t: nat, id: Id) returns (run: seq<Step>, w': World)
    requires Good(levels, w) && t in w.threads && id in w.rows
    requires w.threads[t].Adopting? && w.threads[t].at == AtRestore(w.rows[id].box)
    ensures Reaches(levels, w, run, w') && Reroots(levels, w, id, w')
  {
    AwaitsOwn(levels, w, t, id);
    hide Good;
    w' := AdoptStep(w, t, w.threads[t].chain, w.threads[t].at);
    run := [Adopt(t)] + [];
    NoStep(levels, w');
    OneStep(levels, w, Adopt(t), w', [], w');
    assert w'.rows[id] == MasterRow(w.primary, w.rows[id].box.secret, w.next);
  }

  /** An adoption that waits for the bytes of a row is of that row's subject. */
  lemma AwaitsOwn(levels: Levels, w: World, t: nat, id: Id)
    requires Good(levels, w) && t in w.threads && id in w.rows && Awaited(w.threads[t]) == Some(w.rows[id].box)
    ensures w.threads[t].Adopting? && |w.threads[t].chain| > 1 && w.threads[t].chain[0] == id
    ensures w.rows[id].wrapping.Parent? && levels(w.rows[id].wrapping.parent.subject) < levels(id.subject)
    ensures w.threads[t].at.AtReadback? ==> Trail(levels, w, id, w.threads[t].at.below)
  {
    GoodBase(levels, w);
    assert ThreadOk(levels, w, w.threads[t]) && Was(levels, w, id, w.rows[id]);
  }

  lemma {:induction false} NextLevel(levels: Levels, w: World, id: Id, below: seq<Row>, i: nat)
    requires Trail(levels, w, id, below) && 0 < i <= |below|
    ensures levels(IdAt(id, below, i).subject) < levels(id.subject)
  {
    assert below[..i][i - 1] == below[i - 1];
    assert Was(levels, w, IdAt(id, below, i - 1), below[i - 1]);
    if i > 1 { NextLevel(levels, w, id, below, i - 1); }
  }

  /** A readback that finds the next row missing turns to restore. */
  lemma ReadsMissing(w: World, t: nat, chain: seq<Id>, box: Box, below: seq<Row>)
    requires |chain| > 1 && NextId(chain[0], below) !in w.rows
    ensures AdoptStep(w, t, chain, AtReadback(box, below))
      == w.(threads := w.threads[t := Adopting(chain, AtRestore(box))])
  {
  }

  /** A readback that starts at a child row goes on to its parent. */
  lemma ReadsOwn(w: World, t: nat, chain: seq<Id>, box: Box)
    requires |chain| > 1 && chain[0] in w.rows && w.rows[chain[0]].wrapping.Parent?
    ensures AdoptStep(w, t, chain, AtReadback(box, []))
         == w.(threads := w.threads[t := Adopting(chain, AtReadback(box, [w.rows[chain[0]]]))])
  {
    assert [] + [w.rows[chain[0]]] == [w.rows[chain[0]]];
  }

  lemma AdoptNext(levels: Levels, w: World, t: nat, w': World)
    requires t in w.threads && w.threads[t].Adopting? && |w.threads[t].chain| > 1
    requires w' == AdoptStep(w, t, w.threads[t].chain, w.threads[t].at)
    ensures Enabled(levels, w, Adopt(t)) && Next(levels, w, Adopt(t), w')
  {
    hide AdoptStep;
  }

  /** Erasing something nearer the roots leaves the rest. */
  lemma EraseAbove(levels: Levels, w: World, next: Id, id: Id)
    requires levels(next.subject) < levels(id.subject)
    ensures Enabled(levels, w, Erase(next)) && Next(levels, w, Erase(next), Erased(w, next))
    ensures next !in Erased(w, next).rows && Erased(w, next).threads == w.threads
    ensures forall other :: other in w.rows && levels(other.subject) >= levels(id.subject) ==>
      other in Erased(w, next).rows && Erased(w, next).rows[other] == w.rows[other]
  {
  }

  /** Once the readback is past its own row, erasing what it would read next sends it to restore. */
  lemma RestoreAfterErase(levels: Levels, w: World, t: nat, id: Id) returns (run: seq<Step>, w': World)
    requires Good(levels, w) && t in w.threads && id in w.rows && w.threads[t].Adopting?
    requires w.threads[t].at.AtReadback? && w.threads[t].at.box == w.rows[id].box && w.threads[t].at.below != []
    ensures Reaches(levels, w, run, w') && Reroots(levels, w, id, w')
  {
    AwaitsOwn(levels, w, t, id);
    var chain, below := w.threads[t].chain, w.threads[t].at.below;
    var next := NextId(id, below);
    assert below[..|below|] == below;
    NextLevel(levels, w, id, below, |below|);
    hide Good, Trail, NextId, Reroots, WalkOn, Reaches, StepsOn, AdoptStep, Next, Enabled, Erased;
    var w1 := Erased(w, next);
    EraseAbove(levels, w, next, id);
    EraseKeeps(levels, w, next);
    StepsOnGood(levels, w, w1);
    ReadsMissing(w1, t, chain, w.rows[id].box, below);
    var w2 := w1.(threads := w1.threads[t := Adopting(chain, AtRestore(w.rows[id].box))]);
    AdoptNext(levels, w1, t, w2);
    AdoptKeepsGood(levels, w1, t, w2);
    var rest;
    rest, w' := RestoreNow(levels, w2, t, id);
    OneStep(levels, w1, Adopt(t), w2, rest, w');
    OneStep(levels, w, Erase(next), w1, [Adopt(t)] + rest, w');
    run := [Erase(next)] + ([Adopt(t)] + rest);
    RerootsVia(levels, w, w2, id, w');
  }

  lemma RerootsVia(levels: Levels, w: World, mid: World, id: Id, w': World)
    requires Reroots(levels, mid, id, w') && id in w.rows && id in mid.rows && mid.rows[id] == w.rows[id]
    requires forall other :: other in w.rows && levels(other.subject) >= levels(id.subject) ==>
      other in mid.rows && mid.rows[other] == w.rows[other]
    ensures Reroots(levels, w, id, w')
  {
  }

  lemma AdoptKeepsGood(levels: Levels, w: World, t: nat, w': World)
    requires Good(levels, w) && Enabled(levels, w, Adopt(t)) && Next(levels, w, Adopt(t), w')
    ensures Good(levels, w')
  {
    AdoptKeeps(levels, w, t, w');
  }

  /** Whatever an adoption waits for, some run has it take the row back. */
  lemma Rerooting(levels: Levels, w: World, t: nat, id: Id) returns (run: seq<Step>, w': World)
    requires Good(levels, w) && t in w.threads && id in w.rows && Awaited(w.threads[t]) == Some(w.rows[id].box)
    ensures Reaches(levels, w, run, w') && Reroots(levels, w, id, w')
  {
    AwaitsOwn(levels, w, t, id);
    hide Good, Trail, Reroots, AdoptStep, Next, Reaches;
    if w.threads[t].at.AtRestore? {
      run, w' := RestoreNow(levels, w, t, id);
    } else if w.threads[t].at.below != [] {
      run, w' := RestoreAfterErase(levels, w, t, id);
    } else {
      var chain, box := w.threads[t].chain, w.rows[id].box;
      var mid := w.(threads := w.threads[t := Adopting(chain, AtReadback(box, [w.rows[id]]))]);
      ReadsOwn(w, t, chain, box);
      AdoptNext(levels, w, t, mid);
      AdoptKeepsGood(levels, w, t, mid);
      var rest;
      rest, w' := RestoreAfterErase(levels, mid, t, id);
      OneStep(levels, w, Adopt(t), mid, rest, w');
      run := [Adopt(t)] + rest;
      RerootsVia(levels, w, mid, id, w');
    }
  }

  /** Everything below a root that is as it was opens to what it held. */
  lemma {:induction false} OpensBelow(levels: Levels, w: World, ids: seq<Id>, i: nat, j: nat, w': World)
    requires RowsOk(levels, w) && Hangs(w, ids) && j <= i < |ids|
    requires ids[i] in w'.rows && Opens(levels, w'.rows, ids[i]) == Some(w.rows[ids[i]].box.secret)
    requires forall n :: 0 <= n < i ==> ids[n] in w'.rows && w'.rows[ids[n]] == w.rows[ids[n]]
    ensures Opens(levels, w'.rows, ids[j]) == Some(w.rows[ids[j]].box.secret)
    decreases i - j
  {
    if j < i {
      OpensBelow(levels, w, ids, i, j + 1, w');
      assert Was(levels, w, ids[j], w.rows[ids[j]]);
    }
  }

  /** Ids along a chain are distinct and fall in level, and erasing the top leaves the others. */
  lemma BelowTop(levels: Levels, w: World, ids: seq<Id>, i: nat)
    requires RowsOk(levels, w) && Hangs(w, ids) && 0 < i < |ids| - 1
    ensures
      var after := Erased(w, ids[|ids| - 1]);
      forall n :: 0 <= n <= i ==>
        && ids[n] in after.rows && after.rows[ids[n]] == w.rows[ids[n]]
        && levels(ids[n].subject) >= levels(ids[i].subject) && (n < i ==> ids[n] != ids[i])
  {
    forall n | 0 <= n <= i
      ensures ids[n] != ids[|ids| - 1] && levels(ids[n].subject) >= levels(ids[i].subject)
        && (n < i ==> ids[n] != ids[i])
    {
      LevelsAlong(levels, w, ids, n, |ids| - 1);
      if n < i { LevelsAlong(levels, w, ids, n, i); }
    }
  }

  lemma RootOpens(levels: Levels, w: World, id: Id, w': World)
    requires Reroots(levels, w, id, w')
    ensures Opens(levels, w'.rows, id) == Some(w.rows[id].box.secret)
  {
  }

  /** An adoption that waits on a row in between can undo itself, and what hangs below opens again. */
  lemma Reopens(levels: Levels, w: World, ids: seq<Id>, i: nat, t: nat) returns (run: seq<Step>, w': World)
    requires Good(levels, w) && Hangs(w, ids) && 0 < i < |ids| - 1
    requires t in w.threads && Awaited(w.threads[t]) == Some(w.rows[ids[i]].box)
    ensures Reaches(levels, Erased(w, ids[|ids| - 1]), run, w')
    ensures Opens(levels, w'.rows, ids[0]) == Some(w.rows[ids[0]].box.secret)
  {
    var after := Erased(w, ids[|ids| - 1]);
    hide Good, Base, Ledger, ThreadOk, RowsOk, Reaches, Opens, StepsOn, Awaited;
    GoodBase(levels, w);
    EraseKeeps(levels, w, ids[|ids| - 1]);
    StepsOnGood(levels, w, after);
    BelowTop(levels, w, ids, i);
    assert after.threads == w.threads;
    hide Erased;
    run, w' := Rerooting(levels, after, t, ids[i]);
    RootOpens(levels, after, ids[i], w');
    OpensBelow(levels, w, ids, i, 0, w');
  }

  /** From `w` on, nothing ever opens `id` to `secret`. */
  ghost predicate ClosedForEver(levels: Levels, w: World, id: Id, secret: Secret) {
    forall run, w' :: Reaches(levels, w, run, w') ==> Opens(levels, w'.rows, id) != Some(secret)
  }

  /** Erasing an ancestor closes a settled subject for ever exactly when no adoption waits on a row
      between the two: its undo would put that row back as a root and everything below it with it.
      For a direct parent there is nothing between, so its erasure is always for ever. */
  lemma AncestorErasure(levels: Levels, w: World, ids: seq<Id>)
    requires Good(levels, w) && Hangs(w, ids) && |ids| > 1 && AtRest(w, ids[0])
    ensures ClosedForEver(levels, Erased(w, ids[|ids| - 1]), ids[0], w.rows[ids[0]].box.secret)
       <==> forall i :: 0 < i < |ids| - 1 ==> AtRest(w, ids[i])
  {
    hide Good, Reaches, Opens;
    var after, secret := Erased(w, ids[|ids| - 1]), w.rows[ids[0]].box.secret;
    if forall i :: 0 < i < |ids| - 1 ==> AtRest(w, ids[i]) {
      forall run, w' | Reaches(levels, after, run, w') ensures Opens(levels, w'.rows, ids[0]) != Some(secret) {
        ErasedForEver(levels, w, ids, run, w');
      }
    } else {
      var i :| 0 < i < |ids| - 1 && !AtRest(w, ids[i]);
      var t :| t in w.threads && Awaited(w.threads[t]) == Some(w.rows[ids[i]].box);
      var run, w' := Reopens(levels, w, ids, i, t);
    }
  }
}
