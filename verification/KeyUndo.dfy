/** When an adoption that answers `Undone` has kept its subject's secret: exactly when nothing took the
    row it wrote before it came to take that row back (`adopt_in` of `src/crypto.rs`). */
module KeyUndo {
  import opened Options
  import opened KeyStore
  import opened KeyHistory
  import opened KeySteps
  import opened KeyRuns
  import opened KeyErasure

  // ----- what takes a row --------------------------------------------------

  /** The frame a mint works on, in a thread that mints for itself or for an adoption. */
  function Working(thread: Thread): Option<Frame> {
    match thread
    case Minting(stack) => if stack == [] then None else Some(stack[|stack| - 1])
    case Adopting(_, AtMint(_, stack)) => if stack == [] then None else Some(stack[|stack| - 1])
    case _ => None
  }

  /** A mint that judged these bytes unreadable is about to replace them. */
  predicate Replaces(w: World, t: nat, id: Id, box: Box) {
    t in w.threads && Working(w.threads[t]).Some? &&
    var frame := Working(w.threads[t]).value;
    frame.chain != [] && frame.chain[0] == id && frame.phase.Inserting?
    && frame.phase.stale.Some? && frame.phase.stale.value.box == box
  }

  /** The step erases the subject, sweeps its row, or replaces those bytes. */
  predicate Takes(w: World, step: Step, id: Id, box: Box) {
    match step
    case Erase(other) => other == id
    case Sweep(other) => other == id
    case Mint(t) => Replaces(w, t, id, box)
    case Adopt(t) => Replaces(w, t, id, box)
    case _ => false
  }

  predicate HoldsBytes(w: World, id: Id, box: Box) {
    id in w.rows && w.rows[id].box == box
  }

  /** The adoption has committed these bytes and has not answered. */
  predicate Waits(w: World, t: nat, chain: seq<Id>, box: Box) {
    t in w.threads && w.threads[t].Adopting? && w.threads[t].chain == chain && Awaited(w.threads[t]) == Some(box)
  }

  /** An insert changes a row that is there exactly when it replaces it. */
  lemma MintTakes(w: World, stack: seq<Frame>, id: Id, box: Box)
    requires stack != [] && stack[|stack| - 1].chain != [] && HoldsBytes(w, id, box) && box.nonce < w.next
    ensures
      var frame := stack[|stack| - 1];
      HoldsBytes(MintStep(w, stack).0, id, box) <==>
        !(frame.chain[0] == id && frame.phase.Inserting? && frame.phase.stale.Some?
          && frame.phase.stale.value.box == box)
  {
    var frame := stack[|stack| - 1];
    if frame.phase.Inserting? {
      InsertStepIs(w, stack);
      InsertIs(w, frame.chain[0], Under(frame), frame.phase.stale);
    } else {
      hide WalkOn, Answer, Retry, Descend;
    }
  }

  /** What an adoption waits for is a child's wrapping, which no rotation and no other adoption writes over. */
  lemma WaitsFacts(levels: Levels, w: World, t: nat, chain: seq<Id>, box: Box)
    requires Good(levels, w) && Waits(w, t, chain, box)
    ensures |chain| > 1 && box.key.ChildKey? && box.nonce < w.next && BornOf(w, box.secret, chain[0])
    ensures HoldsBytes(w, chain[0], box) ==> w.rows[chain[0]].wrapping.Parent?
    ensures Holds(w, box.secret) ==> HoldsBytes(w, chain[0], box)
  {
    GoodBase(levels, w);
    assert ThreadOk(levels, w, w.threads[t]);
    assert Adopts(levels, w, chain, box);
    if HoldsBytes(w, chain[0], box) { assert Was(levels, w, chain[0], w.rows[chain[0]]); }
  }

  lemma AdoptMintTakes(levels: Levels, w: World, u: nat, id: Id, box: Box)
    requires Good(levels, w) && HoldsBytes(w, id, box) && box.nonce < w.next
    requires u in w.threads && w.threads[u].Adopting? && |w.threads[u].chain| > 1 && w.threads[u].at.AtMint?
    ensures HoldsBytes(AdoptStep(w, u, w.threads[u].chain, w.threads[u].at), id, box) <==> !Replaces(w, u, id, box)
  {
    var at := w.threads[u].at;
    assert ThreadOk(levels, w, w.threads[u]);
    MintingFacts(levels, w, w.threads[u].chain, at.row, at.stack);
    hide Good, ThreadOk, MintStep;
    MintTakes(w, at.stack, id, box);
  }

  lemma AdoptCommitTakes(levels: Levels, w: World, u: nat, id: Id, box: Box)
    requires Good(levels, w) && HoldsBytes(w, id, box) && box.key.ChildKey?
    requires u in w.threads && w.threads[u].Adopting? && |w.threads[u].chain| > 1 && w.threads[u].at.AtCommit?
    ensures HoldsBytes(AdoptStep(w, u, w.threads[u].chain, w.threads[u].at), id, box)
  {
    var at := w.threads[u].at;
    assert ThreadOk(levels, w, w.threads[u]);
    CommitFacts(levels, w, w.threads[u].chain, at.row, at.parent);
    assert at.row.box.key.MasterKey?;
    hide Good, ThreadOk;
  }

  lemma AdoptTakes(levels: Levels, w: World, u: nat, t: nat, chain: seq<Id>, box: Box)
    requires Good(levels, w) && Waits(w, t, chain, box) && HoldsBytes(w, chain[0], box)
    requires u in w.threads && w.threads[u].Adopting? && |w.threads[u].chain| > 1
    requires u == t ==> w.threads[t].at.AtReadback?
    ensures HoldsBytes(AdoptStep(w, u, w.threads[u].chain, w.threads[u].at), chain[0], box) <==>
      !Replaces(w, u, chain[0], box)
  {
    WaitsFacts(levels, w, t, chain, box);
    var at := w.threads[u].at;
    assert u != t ==> Awaited(w.threads[u]) != Some(box);
    hide Good;
    if at.AtMint? {
      hide AdoptStep, Waits, HoldsBytes, Replaces;
      AdoptMintTakes(levels, w, u, chain[0], box);
    } else if at.AtCommit? {
      hide AdoptStep, Waits, HoldsBytes;
      AdoptCommitTakes(levels, w, u, chain[0], box);
    } else {
      hide WalkOn;
    }
  }

  lemma RotateTakes(levels: Levels, w: World, u: nat, w': World, id: Id, box: Box)
    requires Good(levels, w) && Enabled(levels, w, Rotate(u)) && Next(levels, w, Rotate(u), w')
    requires HoldsBytes(w, id, box) && w.rows[id].wrapping.Parent?
    ensures HoldsBytes(w', id, box)
  {
    assert ThreadOk(levels, w, w.threads[u]);
    if w.threads[u].updates.Some? {
      RewrapRotates(w, w.threads[u].updates.value);
    }
  }

  lemma MintingTakes(levels: Levels, w: World, u: nat, w': World, id: Id, box: Box)
    requires Enabled(levels, w, Mint(u)) && Next(levels, w, Mint(u), w')
    requires HoldsBytes(w, id, box) && box.nonce < w.next && Good(levels, w)
    ensures HoldsBytes(w', id, box) <==> !Replaces(w, u, id, box)
  {
    assert ThreadOk(levels, w, w.threads[u]);
    hide Good, ThreadOk, MintStep;
    MintTakes(w, w.threads[u].stack, id, box);
  }

  lemma AdoptingTakes(levels: Levels, w: World, u: nat, w': World, t: nat, chain: seq<Id>, box: Box)
    requires Good(levels, w) && Enabled(levels, w, Adopt(u)) && Next(levels, w, Adopt(u), w')
    requires Waits(w, t, chain, box) && HoldsBytes(w, chain[0], box) && (u == t ==> w.threads[t].at.AtReadback?)
    ensures HoldsBytes(w', chain[0], box) <==> !Replaces(w, u, chain[0], box)
  {
    assert ThreadOk(levels, w, w.threads[u]);
    assert w' == AdoptStep(w, u, w.threads[u].chain, w.threads[u].at);
    hide Good, ThreadOk, AdoptStep, Waits, HoldsBytes, Replaces, Next;
    AdoptTakes(levels, w, u, t, chain, box);
  }

  /** Until the adoption comes to take the row back, its bytes go exactly by a step that takes them. */
  lemma StepTakes(levels: Levels, w: World, step: Step, w': World, t: nat, chain: seq<Id>, box: Box)
    requires Good(levels, w) && Enabled(levels, w, step) && Next(levels, w, step, w')
    requires Waits(w, t, chain, box) && HoldsBytes(w, chain[0], box)
      && (step == Adopt(t) ==> w.threads[t].at.AtReadback?)
    ensures HoldsBytes(w', chain[0], box) <==> !Takes(w, step, chain[0], box)
  {
    match step
    case Mint(u) =>
      WaitsFacts(levels, w, t, chain, box);
      hide Good, Next, Enabled, HoldsBytes, Replaces, Waits;
      MintingTakes(levels, w, u, w', chain[0], box);
    case Adopt(u) =>
      hide Good, Next, Enabled, HoldsBytes, Replaces, Waits;
      AdoptingTakes(levels, w, u, w', t, chain, box);
    case Rotate(u) =>
      WaitsFacts(levels, w, t, chain, box);
      hide Good, Next, Enabled, Waits;
      RotateTakes(levels, w, u, w', chain[0], box);
    case _ =>
      hide Good, Waits;
      OthersTake(levels, w, step, w', chain[0], box);
  }

  lemma OthersTake(levels: Levels, w: World, step: Step, w': World, id: Id, box: Box)
    requires Enabled(levels, w, step) && Next(levels, w, step, w') && HoldsBytes(w, id, box)
    requires !step.Mint? && !step.Adopt? && !step.Rotate?
    ensures HoldsBytes(w', id, box) <==> !Takes(w, step, id, box)
  {
  }

  // ----- over whole runs ---------------------------------------------------

  /** A run with every world it passes through. */
  ghost predicate Trace(levels: Levels, ws: seq<World>, run: seq<Step>) {
    |ws| == |run| + 1
    && forall i :: 0 <= i < |run| ==> Enabled(levels, ws[i], run[i]) && Next(levels, ws[i], run[i], ws[i + 1])
  }

  lemma WaitsOn(levels: Levels, w: World, step: Step, w': World, t: nat, chain: seq<Id>, box: Box)
    requires Good(levels, w) && Enabled(levels, w, step) && Next(levels, w, step, w') && Waits(w, t, chain, box)
    ensures t in w'.threads && (Waits(w', t, chain, box) || w'.threads[t].AdoptDone?)
  {
    WaitsFacts(levels, w, t, chain, box);
    OwnSteps(levels, w, step, w', t);
    if step == Adopt(t) {
      assert w' == AdoptStep(w, t, chain, w.threads[t].at);
      hide Good, Next, Enabled, WalkOn;
    }
  }

  lemma {:induction false} DoneStays(levels: Levels, ws: seq<World>, run: seq<Step>, t: nat)
    requires Trace(levels, ws, run) && t in ws[0].threads && ws[0].threads[t].AdoptDone?
    ensures t in ws[|run|].threads && ws[|run|].threads[t].AdoptDone?
    decreases |run|
  {
    if run != [] {
      OwnSteps(levels, ws[0], run[0], ws[1], t);
      hide Next, Enabled;
      assert Trace(levels, ws[1..], run[1..]);
      DoneStays(levels, ws[1..], run[1..], t);
    }
  }

  lemma TraceTail(levels: Levels, ws: seq<World>, run: seq<Step>)
    requires Trace(levels, ws, run) && run != []
    ensures Trace(levels, ws[1..], run[1..]) && Enabled(levels, ws[0], run[0]) && Next(levels, ws[0], run[0], ws[1])
  {
    hide Next, Enabled;
  }

  lemma TraceHead(levels: Levels, ws: seq<World>, run: seq<Step>)
    requires Trace(levels, ws, run) && Good(levels, ws[0]) && run != []
    ensures Trace(levels, ws[1..], run[1..]) && Enabled(levels, ws[0], run[0]) && Next(levels, ws[0], run[0], ws[1])
    ensures Good(levels, ws[1]) && ws[0].retired <= ws[1].retired
    ensures ws[1..][0] == ws[1] && ws[1..][|run[1..]|] == ws[|run|]
  {
    TraceTail(levels, ws, run);
    hide Next, Enabled, Good, Trace;
    StepKeeps(levels, ws[0], run[0], ws[1]);
    OnlyGrows(levels, ws[0], ws[1]);
  }

  lemma OnlyGrows(levels: Levels, w: World, w': World)
    requires StepsOn(levels, w, w')
    ensures Good(levels, w') && w.retired <= w'.retired
  {
    hide Good, Moves;
  }

  lemma RetiredGone(levels: Levels, w: World, id: Id, box: Box)
    requires Good(levels, w) && box.secret in w.retired
    ensures !HoldsBytes(w, id, box)
  {
    GoodBase(levels, w);
  }

  lemma GoneRetired(levels: Levels, w: World, t: nat, chain: seq<Id>, box: Box)
    requires Good(levels, w) && Waits(w, t, chain, box) && |chain| > 1 && !HoldsBytes(w, chain[0], box)
    ensures box.secret in w.retired
  {
    WaitsFacts(levels, w, t, chain, box);
    assert Alive(w);
  }

  /** Bytes that went do not come back. */
  lemma {:induction false} GoneStays(levels: Levels, ws: seq<World>, run: seq<Step>, id: Id, box: Box)
    requires Trace(levels, ws, run) && Good(levels, ws[0]) && box.secret in ws[0].retired
    ensures !HoldsBytes(ws[|run|], id, box)
    decreases |run|
  {
    if run == [] {
      RetiredGone(levels, ws[0], id, box);
    } else {
      TraceHead(levels, ws, run);
      hide Next, Enabled, Good, Trace, HoldsBytes;
      GoneStays(levels, ws[1..], run[1..], id, box);
    }
  }

  /** The step that takes the row back, or finds it gone, is the one that answers. */
  lemma RestoreAnswers(levels: Levels, w: World, step: Step, w': World, t: nat, chain: seq<Id>, box: Box)
    requires Enabled(levels, w, step) && Next(levels, w, step, w') && Waits(w, t, chain, box) && |chain| > 1
    requires Waits(w', t, chain, box)
    ensures step == Adopt(t) ==> w.threads[t].at.AtReadback?
  {
    if step == Adopt(t) {
      assert w' == AdoptStep(w, t, chain, w.threads[t].at);
    }
  }

  lemma StillWaits(levels: Levels, ws: seq<World>, run: seq<Step>, t: nat, chain: seq<Id>, box: Box)
    requires Trace(levels, ws, run) && Good(levels, ws[0]) && Waits(ws[0], t, chain, box)
    requires run != [] && Waits(ws[|run|], t, chain, box)
    ensures Waits(ws[1], t, chain, box)
  {
    TraceTail(levels, ws, run);
    hide Next, Enabled, Good, Trace;
    WaitsOn(levels, ws[0], run[0], ws[1], t, chain, box);
    if ws[1].threads[t].AdoptDone? {
      DoneStays(levels, ws[1..], run[1..], t);
      assert false;
    }
  }

  /** One step of an adoption that waits before it and after it. */
  lemma HeldOnward(levels: Levels, w: World, step: Step, w': World, t: nat, chain: seq<Id>, box: Box)
    requires Good(levels, w) && Good(levels, w') && Enabled(levels, w, step) && Next(levels, w, step, w') && |chain| > 1
    requires Waits(w, t, chain, box) && HoldsBytes(w, chain[0], box) && Waits(w', t, chain, box)
    ensures HoldsBytes(w', chain[0], box) <==> !Takes(w, step, chain[0], box)
    ensures !HoldsBytes(w', chain[0], box) ==> box.secret in w'.retired
  {
    RestoreAnswers(levels, w, step, w', t, chain, box);
    hide Next, Enabled, Good, Takes, HoldsBytes;
    StepTakes(levels, w, step, w', t, chain, box);
    if !HoldsBytes(w', chain[0], box) { GoneRetired(levels, w', t, chain, box); }
  }

  /** No step of the run takes the bytes. */
  ghost predicate Untaken(ws: seq<World>, run: seq<Step>, id: Id, box: Box)
    requires |ws| >= |run|
  {
    forall i :: 0 <= i < |run| ==> !Takes(ws[i], run[i], id, box)
  }

  lemma UntakenFirst(ws: seq<World>, run: seq<Step>, id: Id, box: Box)
    requires |ws| > |run| > 0
    ensures Untaken(ws, run, id, box) <==> !Takes(ws[0], run[0], id, box) && Untaken(ws[1..], run[1..], id, box)
  {
    hide Takes;
    if Untaken(ws[1..], run[1..], id, box) && !Takes(ws[0], run[0], id, box) {
      forall i | 0 <= i < |run| ensures !Takes(ws[i], run[i], id, box) {
        if i > 0 { assert ws[i] == ws[1..][i - 1] && run[i] == run[1..][i - 1]; }
      }
    }
  }

  /** An adoption still waiting finds its bytes there exactly when no step of the run so far took them. */
  lemma {:induction false} HeldExactly(levels: Levels, ws: seq<World>, run: seq<Step>, t: nat, chain: seq<Id>, box: Box)
    requires Trace(levels, ws, run) && Good(levels, ws[0]) && Waits(ws[0], t, chain, box) && |chain| > 1
    requires HoldsBytes(ws[0], chain[0], box) && Waits(ws[|run|], t, chain, box)
    ensures HoldsBytes(ws[|run|], chain[0], box) <==> Untaken(ws, run, chain[0], box)
    decreases |run|
  {
    if run != [] {
      TraceHead(levels, ws, run);
      StillWaits(levels, ws, run, t, chain, box);
      UntakenFirst(ws, run, chain[0], box);
      hide Next, Enabled, Good, Takes, Untaken, Waits, HoldsBytes, Trace;
      HeldOnward(levels, ws[0], run[0], ws[1], t, chain, box);
      if HoldsBytes(ws[1], chain[0], box) {
        HeldExactly(levels, ws[1..], run[1..], t, chain, box);
      } else {
        GoneStays(levels, ws[1..], run[1..], chain[0], box);
      }
    }
  }

  /** In every run from an adoption's commit to its answer `Undone`: the subject opens to its secret at
      the answer exactly when the row still held the adopted bytes, and that is exactly when no step in
      between erased the subject, swept the row, or replaced it for a mint that found it unreadable. */
  lemma UndoneExactly(levels: Levels, ws: seq<World>, run: seq<Step>, t: nat, chain: seq<Id>, box: Box)
    requires Trace(levels, ws, run) && Good(levels, ws[0]) && run != [] && |chain| > 1
    requires t in ws[0].threads && ws[0].threads[t] == Adopting(chain, AtReadback(box, []))
      && HoldsBytes(ws[0], chain[0], box)
    requires
      var last := |run| - 1;
      t in ws[last].threads && ws[last].threads[t] == Adopting(chain, AtRestore(box)) && run[last] == Adopt(t)
    ensures
      var last := |run| - 1;
      && t in ws[last + 1].threads && ws[last + 1].threads[t] == AdoptDone(chain, Undone)
      && (Opens(levels, ws[last + 1].rows, chain[0]) == Some(box.secret) <==> HoldsBytes(ws[last], chain[0], box))
      && (HoldsBytes(ws[last], chain[0], box) <==> forall i :: 0 <= i < last ==> !Takes(ws[i], run[i], chain[0], box))
  {
    var last := |run| - 1;
    TraceInit(levels, ws, run);
    hide Trace, Takes, Next, Enabled, Good, HoldsBytes;
    HeldExactly(levels, ws[..last + 1], run[..last], t, chain, box);
    assert forall i :: 0 <= i < last ==> ws[..last + 1][i] == ws[i] && run[..last][i] == run[i];
    TraceGood(levels, ws[..last + 1], run[..last]);
    RestoreAnswer(levels, ws[last], ws[last + 1], t, chain, box);
  }

  lemma TraceInit(levels: Levels, ws: seq<World>, run: seq<Step>)
    requires Trace(levels, ws, run) && run != []
    ensures
      var last := |run| - 1;
      Trace(levels, ws[..last + 1], run[..last])
      && Enabled(levels, ws[last], run[last]) && Next(levels, ws[last], run[last], ws[last + 1])
  {
    hide Next, Enabled;
  }

  /** What the restore comes to. */
  lemma RestoreAnswer(levels: Levels, w: World, w': World, t: nat, chain: seq<Id>, box: Box)
    requires Good(levels, w) && |chain| > 1 && t in w.threads && w.threads[t] == Adopting(chain, AtRestore(box))
    requires Enabled(levels, w, Adopt(t)) && Next(levels, w, Adopt(t), w')
    ensures t in w'.threads && w'.threads[t] == AdoptDone(chain, Undone)
    ensures Opens(levels, w'.rows, chain[0]) == Some(box.secret) <==> HoldsBytes(w, chain[0], box)
  {
    assert w' == AdoptStep(w, t, chain, AtRestore(box));
    WaitsFacts(levels, w, t, chain, box);
    hide Good, Next, Enabled, Opens;
    if HoldsBytes(w, chain[0], box) {
      RootAgain(levels, w, t, chain, box);
    } else {
      OpensOwn(levels, w'.rows, chain[0]);
    }
  }

  lemma {:induction false} TraceGood(levels: Levels, ws: seq<World>, run: seq<Step>)
    requires Trace(levels, ws, run) && Good(levels, ws[0])
    ensures Good(levels, ws[|run|])
    decreases |run|
  {
    if run != [] {
      TraceHead(levels, ws, run);
      hide Next, Enabled, Good, Trace;
      TraceGood(levels, ws[1..], run[1..]);
    }
  }
}
