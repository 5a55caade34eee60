/** What a rotation is for: once it commits, no root is left under a master other than the primary,
    whatever ran between its snapshot and its commit, and none ever is again (`src/crypto.rs`). */
module KeyRotation {
  import opened Options
  import opened KeyStore
  import opened KeyHistory
  import opened KeySteps
  import opened KeyRuns

  /** Every root is under the primary master. */
  ghost predicate AllPrimary(w: World) {
    forall id :: id in w.rows && w.rows[id].wrapping.Master? ==> w.rows[id].wrapping == Master(w.primary)
  }

  predicate Once(updates: seq<Update>) {
    forall i, j :: 0 <= i < j < |updates| ==> updates[i].id != updates[j].id
  }

  /** The update finds its row under the master it was read under. */
  predicate Finds(rows: map<Id, Row>, u: Update) {
    u.id in rows && rows[u.id].wrapping == Master(u.expected)
  }

  /** Every root under another master has an update that will find it. */
  ghost predicate Lists(w: World, updates: seq<Update>) {
    forall id :: id in w.rows && w.rows[id].wrapping.Master? && w.rows[id].wrapping != Master(w.primary) ==>
      exists i :: 0 <= i < |updates| && updates[i].id == id && Finds(w.rows, updates[i])
  }

  lemma SnapshotLists(w: World, updates: seq<Update>)
    requires KeyStore.Rewraps(w, updates)
    ensures Lists(w, updates) && Once(updates)
  {
    forall id | id in w.rows && w.rows[id].wrapping.Master? && w.rows[id].wrapping != Master(w.primary)
      ensures exists i :: 0 <= i < |updates| && updates[i].id == id && Finds(w.rows, updates[i])
    {
      var i :| 0 <= i < |updates| && updates[i].id == id;
      assert RewrapsOne(w, updates[i], w.next + i);
    }
  }

  /** No step of any thread puts a row under another master, so the snapshot goes on listing them all. */
  lemma ListsStill(levels: Levels, w: World, w': World, updates: seq<Update>)
    requires StepsOn(levels, w, w') && Lists(w, updates)
    ensures Lists(w', updates) && w'.primary == w.primary
  {
    assert Moves(w, w') && Grows(w, w');
    forall id | id in w'.rows && w'.rows[id].wrapping.Master? && w'.rows[id].wrapping != Master(w'.primary)
      ensures exists i :: 0 <= i < |updates| && updates[i].id == id && Finds(w'.rows, updates[i])
    {
      assert id in w.rows && w'.rows[id] == w.rows[id];
      var i :| 0 <= i < |updates| && updates[i].id == id && Finds(w.rows, updates[i]);
      assert Finds(w'.rows, updates[i]);
    }
  }

  lemma {:induction false} ListsOverRun(levels: Levels, w: World, run: seq<Step>, w': World, updates: seq<Update>)
    requires Good(levels, w) && Reaches(levels, w, run, w') && Lists(w, updates)
    ensures Lists(w', updates) && w'.primary == w.primary && Good(levels, w')
    decreases |run|
  {
    if run != [] {
      var mid :| Next(levels, w, run[0], mid) && Reaches(levels, mid, run[1..], w');
      hide Good, Next, Enabled, Lists, StepsOn;
      StepKeeps(levels, w, run[0], mid);
      StepsOnGood(levels, w, mid);
      ListsStill(levels, w, mid, updates);
      ListsOverRun(levels, mid, run[1..], w', updates);
    }
  }

  // ----- committing --------------------------------------------------------

  /** Each update that finds its row takes it under the primary master with its new wrapping, and no
      other row moves. */
  lemma {:induction false} RewrapMoves(rows: map<Id, Row>, primary: string, updates: seq<Update>)
    requires Once(updates)
    ensures
      var after := Rewrap(rows, primary, updates);
      && after.Keys == rows.Keys
      && (forall u :: u in updates && Finds(rows, u) ==> after[u.id] == Row(u.box, Master(primary)))
      && (forall id :: id in rows && (forall u :: u in updates && u.id == id ==> !Finds(rows, u)) ==>
            after[id] == rows[id])
    decreases |updates|
  {
    if updates != [] {
      var u := updates[0];
      var rest := if Finds(rows, u) then rows[u.id := Row(u.box, Master(primary))] else rows;
      assert updates == [u] + updates[1..];
      forall v | v in updates[1..] ensures v.id != u.id && (Finds(rest, v) <==> Finds(rows, v)) {
        var j :| 0 <= j < |updates[1..]| && updates[1..][j] == v;
        assert updates[j + 1] == v;
      }
      RewrapMoves(rest, primary, updates[1..]);
    }
  }

  /** What an update wraps is what its row holds. */
  lemma FoundSecret(levels: Levels, w: World, t: nat, u: Update)
    requires Good(levels, w) && t in w.threads && w.threads[t].Rotating? && w.threads[t].updates.Some?
    requires u in w.threads[t].updates.value && Finds(w.rows, u)
    ensures u.box == Box(MasterKey(w.primary), w.rows[u.id].box.secret, None, u.box.nonce)
  {
    assert ThreadOk(levels, w, w.threads[t]) && Rewrapped(w, u);
  }

  /** A rotation's snapshot and commit, with anything in between: every root is then under the primary,
      each row that was moved opens to the secret it held, and no other row was touched. */
  lemma RotationMoves(levels: Levels, w: World, t: nat, w1: World, run: seq<Step>, w2: World, w3: World)
    requires Good(levels, w) && t in w.threads && w.threads[t] == Rotating(None) && Next(levels, w, Rotate(t), w1)
    requires Reaches(levels, w1, run, w2) && t in w1.threads && t in w2.threads && w2.threads[t] == w1.threads[t]
    requires Enabled(levels, w2, Rotate(t)) && Next(levels, w2, Rotate(t), w3)
    ensures AllPrimary(w3) && w3.primary == w.primary && w3.rows.Keys == w2.rows.Keys
    ensures forall id :: id in w2.rows ==>
      if w2.rows[id].wrapping.Master? && w2.rows[id].wrapping != Master(w.primary)
      then w3.rows[id].wrapping == Master(w.primary) && Opens(levels, w3.rows, id) == Some(w2.rows[id].box.secret)
      else w3.rows[id] == w2.rows[id]
  {
    var updates :| KeyStore.Rewraps(w, updates)
      && w1 == w.(next := w.next + |updates|, threads := w.threads[t := Rotating(Some(updates))]);
    SnapshotLists(w, updates);
    assert Lists(w1, updates);
    StepKeeps(levels, w, Rotate(t), w1);
    StepsOnGood(levels, w, w1);
    ListsOverRun(levels, w1, run, w2, updates);
    assert w3 == w2.(rows := Rewrap(w2.rows, w2.primary, updates), threads := w2.threads[t := RotateDone]);
    hide Next, Enabled, Good, Reaches, StepsOn;
    CommitMoves(levels, w2, t, updates);
  }

  lemma CommitMoves(levels: Levels, w: World, t: nat, updates: seq<Update>)
    requires Good(levels, w) && t in w.threads && w.threads[t] == Rotating(Some(updates))
    requires Lists(w, updates) && Once(updates)
    ensures
      var rows := Rewrap(w.rows, w.primary, updates);
      && AllPrimary(w.(rows := rows)) && rows.Keys == w.rows.Keys
      && forall id :: id in w.rows ==>
           if w.rows[id].wrapping.Master? && w.rows[id].wrapping != Master(w.primary)
           then rows[id].wrapping == Master(w.primary) && Opens(levels, rows, id) == Some(w.rows[id].box.secret)
           else rows[id] == w.rows[id]
  {
    RewrapMoves(w.rows, w.primary, updates);
    hide Rewrap, Good;
    var rows := Rewrap(w.rows, w.primary, updates);
    forall id | id in w.rows
      ensures
        if w.rows[id].wrapping.Master? && w.rows[id].wrapping != Master(w.primary)
        then rows[id].wrapping == Master(w.primary) && Opens(levels, rows, id) == Some(w.rows[id].box.secret)
        else rows[id] == w.rows[id]
    {
      if w.rows[id].wrapping.Master? && w.rows[id].wrapping != Master(w.primary) {
        var i :| 0 <= i < |updates| && updates[i].id == id && Finds(w.rows, updates[i]);
        assert updates[i] in updates;
        FoundSecret(levels, w, t, updates[i]);
      } else {
        forall u | u in updates && u.id == id ensures !Finds(w.rows, u) { NotPrimary(levels, w, t, u); }
      }
    }
  }

  /** No update is for a row already under the primary. */
  lemma NotPrimary(levels: Levels, w: World, t: nat, u: Update)
    requires Good(levels, w) && t in w.threads && w.threads[t].Rotating? && w.threads[t].updates.Some?
    requires u in w.threads[t].updates.value
    ensures u.expected != w.primary
  {
    assert ThreadOk(levels, w, w.threads[t]) && Rewrapped(w, u);
  }

  /** From then on no root is ever under another master, whatever runs: the masters before can go. */
  lemma {:induction false} PrimaryForGood(levels: Levels, w: World, run: seq<Step>, w': World)
    requires Good(levels, w) && AllPrimary(w) && Reaches(levels, w, run, w')
    ensures AllPrimary(w') && w'.primary == w.primary
  {
    assert Lists(w, []);
    ListsOverRun(levels, w, run, w', []);
  }
}
