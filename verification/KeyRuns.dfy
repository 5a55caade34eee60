/** Rotations, erases and whole runs of the key store, and what they promise about secrets. */
module KeyRuns {
  import opened Options
  import opened KeyStore
  import opened KeyHistory
  import opened KeySteps

  // ----- rotating ----------------------------------------------------------

  /** A rotation only moves roots to the primary master. */
  ghost predicate Rotated(w: World, rows: map<Id, Row>) {
    && rows.Keys == w.rows.Keys
    && forall id :: id in w.rows && rows[id] != w.rows[id] ==>
         w.rows[id].wrapping.Master? && rows[id].wrapping == Master(w.primary)
           && rows[id].box.secret == w.rows[id].box.secret
  }

  lemma RewrapOne(levels: Levels, w: World, u: Update)
    requires Base(levels, w) && Rewrapped(w, u) && u.id in w.rows && w.rows[u.id].wrapping == Master(u.expected)
    ensures Onward(levels, w, w.(rows := w.rows[u.id := Row(u.box, Master(w.primary))]))
  {
    var w' := w.(rows := w.rows[u.id := Row(u.box, Master(w.primary))]);
    RowWas(levels, w, u.id);
    assert WrapsAnew(levels, w, w', u.id, w'.rows[u.id]);
    hide Base, WrapsAnew, Onward;
    WrapsAnewKeeps(levels, w, w', u.id, w'.rows[u.id]);
  }

  /** One update done. */
  function RewrappedOne(w: World, u: Update): World {
    if u.id in w.rows && w.rows[u.id].wrapping == Master(u.expected)
    then w.(rows := w.rows[u.id := Row(u.box, Master(w.primary))]) else w
  }

  lemma RewrappedStays(w: World, u: Update, v: Update)
    requires Rewrapped(w, u) && Rewrapped(w, v)
    ensures Rewrapped(RewrappedOne(w, u), v)
  {
  }

  lemma {:induction false} RewrapAll(levels: Levels, w: World, updates: seq<Update>)
    requires Base(levels, w) && forall u :: u in updates ==> Rewrapped(w, u)
    ensures Onward(levels, w, w.(rows := Rewrap(w.rows, w.primary, updates)))
    decreases |updates|
  {
    if updates == [] {
      SameKeeps(levels, w, w);
    } else {
      var u := updates[0];
      var w1 := RewrappedOne(w, u);
      forall v | v in updates[1..] ensures Rewrapped(w1, v) {
        RewrappedStays(w, u, v);
      }
      assert Rewrapped(w, u);
      hide Rewrapped, Base, Onward;
      if u.id in w.rows && w.rows[u.id].wrapping == Master(u.expected) {
        RewrapOne(levels, w, u);
        OnwardNext(levels, w, w1);
        RewrapAll(levels, w1, updates[1..]);
        OnwardAgain(levels, w, w1, w1.(rows := Rewrap(w1.rows, w.primary, updates[1..])));
      } else {
        RewrapAll(levels, w, updates[1..]);
      }
    }
  }

  lemma {:induction false} RewrapRotates(w: World, updates: seq<Update>)
    requires forall u :: u in updates ==> Rewrapped(w, u)
    ensures Rotated(w, Rewrap(w.rows, w.primary, updates))
    decreases |updates|
  {
    if updates != [] {
      var u := updates[0];
      var w1 := RewrappedOne(w, u);
      forall v | v in updates[1..] ensures Rewrapped(w1, v) {
        RewrappedStays(w, u, v);
      }
      assert Rotated(w, w1.rows);
      hide Rewrapped;
      RewrapRotates(w1, updates[1..]);
    }
  }

  lemma OnwardNext(levels: Levels, w: World, w': World)
    requires Onward(levels, w, w')
    ensures Base(levels, w')
  {
  }

  lemma RotatedMoves(levels: Levels, w: World, rows: map<Id, Row>, t: nat)
    requires Rotated(w, rows) && Onward(levels, w, w.(rows := rows))
    ensures TableMoves(w, w.(rows := rows), t)
  {
    hide Base, Grows;
  }

  lemma SnapshotOk(levels: Levels, w: World, updates: seq<Update>)
    requires RowsOk(levels, w) && KeyStore.Rewraps(w, updates)
    ensures ThreadOk(levels, w.(next := w.next + |updates|), Rotating(Some(updates)))
  {
    var after := w.(next := w.next + |updates|);
    forall u | u in updates ensures Rewrapped(after, u) {
      var i :| 0 <= i < |updates| && updates[i] == u;
      assert RewrapsOne(w, u, w.next + i);
      assert Was(levels, w, u.id, w.rows[u.id]);
    }
  }

  lemma RotateKeeps(levels: Levels, w: World, t: nat, w': World)
    requires Good(levels, w) && Enabled(levels, w, Rotate(t)) && Next(levels, w, Rotate(t), w')
    ensures StepsOn(levels, w, w')
  {
    hide Good, Base, Onward, TableMoves, Ledger, RowsOk, Grows;
    GoodBase(levels, w);
    assert ThreadOk(levels, w, w.threads[t]);
    if w.threads[t].updates.None? {
      var updates :| KeyStore.Rewraps(w, updates)
        && w' == w.(next := w.next + |updates|, threads := w.threads[t := Rotating(Some(updates))]);
      SnapshotOk(levels, w, updates);
      hide ThreadOk, Next;
      OnlyThread(levels, w, t, w', Rotating(Some(updates)));
    } else {
      var updates := w.threads[t].updates.value;
      var after := w.(rows := Rewrap(w.rows, w.primary, updates));
      RewrapAll(levels, w, updates);
      RewrapRotates(w, updates);
      RotatedMoves(levels, w, after.rows, t);
      assert w' == after.(threads := after.threads[t := RotateDone]);
      hide Next, Rotated;
      ThreadsAside(levels, w, t, after, w', RotateDone);
    }
  }

  // ----- erasing -----------------------------------------------------------

  lemma {:induction false} Unused(keys: set<nat>) returns (t: nat)
    ensures t !in keys && forall k :: k in keys ==> k < t
  {
    if keys == {} {
      t := 0;
    } else {
      var k :| k in keys;
      assert keys == {k} + (keys - {k});
      var t' := Unused(keys - {k});
      t := if k < t' then t' else k + 1;
    }
  }

  lemma EraseOnward(levels: Levels, w: World, id: Id)
    requires Base(levels, w)
    ensures Onward(levels, w, Erased(w, id))
  {
    var w' := Erased(w, id);
    if id in w.rows {
      ErasedDoomed(w', w.rows[id].box.secret);
      assert Drops(w, w', id);
      hide Base, Doomed, Onward, Drops, Erased;
      DropsKeeps(levels, w, w', id);
    } else {
      hide Base, Doomed, Onward;
      SameKeeps(levels, w, w);
    }
  }

  /** A step that only takes rows away moves the table as any thread may. */
  lemma FewerMoves(levels: Levels, w: World, w': World, t: nat)
    requires Onward(levels, w, w') && forall id :: id in w'.rows ==> id in w.rows && w'.rows[id] == w.rows[id]
    ensures TableMoves(w, w', t)
  {
    hide Base, Grows, Holds;
  }

  lemma EraseKeeps(levels: Levels, w: World, id: Id)
    requires Good(levels, w)
    ensures StepsOn(levels, w, Erased(w, id))
  {
    var w' := Erased(w, id);
    var t := Unused(w.threads.Keys);
    GoodBase(levels, w);
    EraseOnward(levels, w, id);
    hide Onward;
    FewerMoves(levels, w, w', t);
    assert w'.threads == w.threads;
    hide Base, Grows, TableMoves, ThreadOk, Erased, RowsOk;
    OnwardBase(levels, w, w');
    AllKept(levels, w, w', t);
  }

  /** An orphan's secret is out of reach already. */
  lemma OrphanDoomed(levels: Levels, w: World, id: Id)
    requires Base(levels, w) && Orphan(w.rows, id)
    ensures Doomed(w, w.rows[id].box.secret)
  {
    assert Was(levels, w, id, w.rows[id]);
    var g := w.rows[id].wrapping.generation;
    assert !Holds(w, g);
    hide Doomed;
    assert Doomed(w, g);
    ParentDoomed(w, w.rows[id].box.secret, g);
  }

  lemma SweepOnward(levels: Levels, w: World, id: Id)
    requires Base(levels, w) && Orphan(w.rows, id)
    ensures Onward(levels, w, Swept(w, id))
  {
    OrphanDoomed(levels, w, id);
    hide Base, Doomed, Onward, Swept;
    SweptKeeps(levels, w, id, w.rows[id]);
  }

  lemma SweepKeeps(levels: Levels, w: World, id: Id)
    requires Good(levels, w) && Orphan(w.rows, id)
    ensures StepsOn(levels, w, Swept(w, id))
  {
    var w' := Swept(w, id);
    var t := Unused(w.threads.Keys);
    GoodBase(levels, w);
    SweepOnward(levels, w, id);
    hide Onward;
    FewerMoves(levels, w, w', t);
    assert w'.threads == w.threads;
    hide Base, Grows, TableMoves, ThreadOk, Swept, RowsOk;
    OnwardBase(levels, w, w');
    AllKept(levels, w, w', t);
  }

  /** A step of no thread keeps every thread. */
  lemma AllKept(levels: Levels, w: World, w': World, t: nat)
    requires Good(levels, w) && RowsOk(levels, w) && Base(levels, w') && Grows(w, w') && TableMoves(w, w', t)
    requires w'.threads == w.threads && t !in w.threads
    ensures StepsOn(levels, w, w')
  {
    hide Base, Grows, TableMoves, ThreadOk, RowsOk;
    forall u | u in w'.threads ensures ThreadOk(levels, w', w'.threads[u]) {
      OtherKept(levels, w, w', t, w.threads[u]);
    }
  }

  // ----- every step, every run ---------------------------------------------

  lemma StartKeeps(levels: Levels, w: World, step: Step, w': World)
    requires Good(levels, w) && Enabled(levels, w, step) && Next(levels, w, step, w')
    requires step.StartMint? || step.StartAdopt? || step.StartRotate?
    ensures StepsOn(levels, w, w')
  {
    var thread := match step
      case StartMint(_, chain) => Minting([Frame(chain, MINT_ATTEMPTS, Reading)])
      case StartAdopt(_, chain) => Adopting(chain, AtRow)
      case _ => Rotating(None);
    if step.StartMint? { assert FrameOk(levels, w, Frame(step.chain, MINT_ATTEMPTS, Reading)); }
    assert ThreadOk(levels, w, thread);
    assert w' == w.(threads := w.threads[step.t := thread]);
    hide Good, ThreadOk, Next, Enabled, Grows;
    OnlyThread(levels, w, step.t, w', thread);
  }

  lemma StepKeeps(levels: Levels, w: World, step: Step, w': World)
    requires Good(levels, w) && Enabled(levels, w, step) && Next(levels, w, step, w')
    ensures StepsOn(levels, w, w')
  {
    match step
    case Erase(id) =>
      assert w' == Erased(w, id);
      hide Good, Next;
      EraseKeeps(levels, w, id);
    case Sweep(id) =>
      assert w' == Swept(w, id) && Orphan(w.rows, id);
      hide Good, Next;
      SweepKeeps(levels, w, id);
    case Mint(t) => hide Good, Next, Enabled; MintKeeps(levels, w, t, w');
    case Adopt(t) => hide Good, Next, Enabled; AdoptKeeps(levels, w, t, w');
    case Rotate(t) => hide Good, Next, Enabled; RotateKeeps(levels, w, t, w');
    case _ => hide Good, Next, Enabled; StartKeeps(levels, w, step, w');
  }

  lemma StepsOnGood(levels: Levels, w: World, w': World)
    requires StepsOn(levels, w, w')
    ensures Good(levels, w')
  {
  }

  ghost predicate Reaches(levels: Levels, w: World, run: seq<Step>, w': World)
    decreases |run|
  {
    if run == [] then w' == w
    else Enabled(levels, w, run[0]) && exists mid :: Next(levels, w, run[0], mid) && Reaches(levels, mid, run[1..], w')
  }

  lemma GrowsAgain(w: World, w1: World, w2: World)
    requires Grows(w, w1) && Grows(w1, w2)
    ensures Grows(w, w2)
  {
  }

  lemma {:induction false} RunKeeps(levels: Levels, w: World, run: seq<Step>, w': World)
    requires Good(levels, w) && Reaches(levels, w, run, w')
    ensures Good(levels, w') && Grows(w, w')
    decreases |run|
  {
    if run != [] {
      var mid :| Next(levels, w, run[0], mid) && Reaches(levels, mid, run[1..], w');
      hide Good, Next, Enabled, Grows;
      StepKeeps(levels, w, run[0], mid);
      RunKeeps(levels, mid, run[1..], w');
      GrowsAgain(w, mid, w');
    } else {
      assert Grows(w, w');
    }
  }

  /** A store whose rows were all minted under masters, with nothing in progress. */
  function Fresh(primary: string): World {
    World(map[], primary, map[], 0, map[], {}, {}, {})
  }

  lemma FreshGood(levels: Levels, primary: string)
    ensures Good(levels, Fresh(primary))
  {
  }

  // ----- what a run promises -----------------------------------------------

  /** A secret that left its row, erased by name or replaced, is never wrapped by any later row. */
  lemma GoneForGood(levels: Levels, w: World, run: seq<Step>, w': World, secret: Secret)
    requires Good(levels, w) && Reaches(levels, w, run, w') && secret in w.retired
    ensures forall id :: id in w'.rows ==> w'.rows[id].box.secret != secret
  {
    RunKeeps(levels, w, run, w');
    GoodBase(levels, w');
  }

  /** Erasing a subject by name retires the secret its row held, for good. */
  lemma EraseIsFinal(levels: Levels, w: World, id: Id, run: seq<Step>, w': World)
    requires Good(levels, w) && id in w.rows && Reaches(levels, Erased(w, id), run, w')
    ensures forall other :: other in w'.rows ==> w'.rows[other].box.secret != w.rows[id].box.secret
  {
    EraseKeeps(levels, w, id);
    GoneForGood(levels, Erased(w, id), run, w', w.rows[id].box.secret);
  }

  /** Whatever a mint answers with is a secret the row of its subject really held, and holds still
      unless it went since. */
  lemma MintedPersisted(levels: Levels, w: World, t: nat)
    requires Good(levels, w) && t in w.threads && w.threads[t].Minted? && w.threads[t].secret.Some?
    ensures
      var id, secret := w.threads[t].id, w.threads[t].secret.value;
      BornOf(w, secret, id) && (secret in w.retired || (id in w.rows && w.rows[id].box.secret == secret))
  {
    assert ThreadOk(levels, w, w.threads[t]);
  }

  // ----- reading a secret --------------------------------------------------

  /** What opening the row of `id` gives, through the rows above it. */
  function Opens(levels: Levels, rows: map<Id, Row>, id: Id): Option<Secret>
    decreases levels(id.subject)
  {
    if id !in rows then None
    else
      var row := rows[id];
      match row.wrapping
      case Master(m) => Unwrap(MasterKey(m), None, row.box)
      case Parent(p, g) =>
        if levels(p.subject) >= levels(id.subject) then None
        else if Opens(levels, rows, p) == Some(g) then Unwrap(ChildKey(g), Some((id, p)), row.box)
        else None
  }

  /** Sweeping an orphan changes nothing anyone can read, at any depth below it. */
  lemma {:induction false} SweepLosesNothing(levels: Levels, rows: map<Id, Row>, id: Id, other: Id)
    requires Orphan(rows, id)
    ensures Opens(levels, rows - {id}, other) == Opens(levels, rows, other)
    decreases levels(other.subject)
  {
    if other in rows && other != id && rows[other].wrapping.Parent? {
      var above := rows[other].wrapping.parent;
      if levels(above.subject) < levels(other.subject) { SweepLosesNothing(levels, rows, id, above); }
    }
  }

  /** What opens is what the row holds. */
  lemma OpensOwn(levels: Levels, rows: map<Id, Row>, id: Id)
    ensures Opens(levels, rows, id).Some? ==> id in rows && Opens(levels, rows, id) == Some(rows[id].box.secret)
  {
  }

  /** A secret that was ever stored can still be read, or its subject or an ancestor it was filed
      under was erased. */
  lemma {:induction false} LostOnlyByErase(levels: Levels, w: World, secret: Secret)
    requires Base(levels, w) && secret in w.born
    ensures Opens(levels, w.rows, w.born[secret]) == Some(secret) || Doomed(w, secret)
    decreases levels(w.born[secret].subject)
  {
    if secret !in w.retired {
      var id := w.born[secret];
      assert Holds(w, secret) && Was(levels, w, id, w.rows[id]);
      if w.rows[id].wrapping.Parent? {
        var g := w.rows[id].wrapping.generation;
        LostOnlyByErase(levels, w, g);
        if Doomed(w, g) { ParentDoomed(w, secret, g); }
      }
    }
  }

  /** One step more at the end of a run. */
  lemma {:induction false} Then(levels: Levels, w: World, run: seq<Step>, mid: World, step: Step, w': World)
    requires Reaches(levels, w, run, mid) && Enabled(levels, mid, step) && Next(levels, mid, step, w')
    ensures Reaches(levels, w, run + [step], w')
    decreases |run|
  {
    var longer := run + [step];
    if run == [] {
      assert longer[1..] == [];
      assert Reaches(levels, w', [], w');
    } else {
      var next :| Next(levels, w, run[0], next) && Reaches(levels, next, run[1..], mid);
      hide Next, Enabled;
      Then(levels, next, run[1..], mid, step, w');
      assert longer[1..] == run[1..] + [step];
    }
  }

  lemma RootAgain(levels: Levels, w: World, t: nat, chain: seq<Id>, box: Box)
    requires |chain| > 1 && chain[0] in w.rows && w.rows[chain[0]].box == box
    ensures Opens(levels, AdoptStep(w, t, chain, AtRestore(box)).rows, chain[0]) == Some(box.secret)
  {
    assert AdoptStep(w, t, chain, AtRestore(box)).rows[chain[0]] == MasterRow(w.primary, box.secret, w.next);
    hide AdoptStep;
  }
}
