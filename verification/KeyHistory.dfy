/** What every interleaving of mints, adoptions, rotations and erases keeps: no secret a row lost ever
    comes back, every secret in use was a row's, and nothing is lost without an erase to blame. */
module KeyHistory {
  import opened Options
  import opened KeyStore

  // ----- the table and its history -----------------------------------------

  /** `row` is or was the row of `id`, and is wrapped as its columns say. */
  ghost predicate Was(levels: Levels, w: World, id: Id, row: Row) {
    && row.box.secret in w.born && w.born[row.box.secret] == id && row.box.nonce < w.next
    && match row.wrapping
       case Master(m) => row.box.key == MasterKey(m) && row.box.aad == None
       case Parent(p, g) =>
         && row.box.key == ChildKey(g) && row.box.aad == Some((id, p))
         && g in w.born && w.born[g] == p && (row.box.secret, g) in w.filed
         && levels(p.subject) < levels(id.subject)
  }

  ghost predicate RowsOk(levels: Levels, w: World) {
    forall id :: id in w.rows ==> Was(levels, w, id, w.rows[id]) && w.rows[id].box.secret !in w.retired
  }

  predicate Holds(w: World, secret: Secret) {
    secret in w.born && w.born[secret] in w.rows && w.rows[w.born[secret]].box.secret == secret
  }

  /** A secret a row ever held is either gone or still in its subject's row. */
  ghost predicate Alive(w: World) {
    forall s :: s in w.born ==> s in w.retired || Holds(w, s)
  }

  ghost predicate Ledger(w: World) {
    && w.retired <= w.born.Keys && w.erased <= w.retired
    && (forall s :: s in w.born ==> s < w.next)
    && (forall pair :: pair in w.filed ==> pair.0 in w.born && pair.1 in w.born)
  }

  /** A chain of secrets, each filed under the next at some time, that ends in one erased by name. */
  ghost predicate DoomPath(w: World, path: seq<Secret>) {
    && path != [] && path[|path| - 1] in w.erased
    && forall i :: 0 <= i < |path| - 1 ==> (path[i], path[i + 1]) in w.filed
  }

  /** The subject of this secret, or an ancestor it was filed under, was erased. */
  ghost predicate Doomed(w: World, secret: Secret) {
    exists path :: DoomPath(w, path) && path[0] == secret
  }

  ghost predicate Doom(w: World) {
    forall s :: s in w.retired ==> Doomed(w, s)
  }

  ghost predicate Base(levels: Levels, w: World) {
    RowsOk(levels, w) && Alive(w) && Ledger(w) && Doom(w)
  }

  /** What only ever grows. */
  ghost predicate Grows(w: World, w': World) {
    && w.born.Keys <= w'.born.Keys && (forall s :: s in w.born ==> w'.born[s] == w.born[s])
    && w.retired <= w'.retired && w.erased <= w'.erased && w.filed <= w'.filed && w.next <= w'.next
    && w'.primary == w.primary
  }

  lemma WasKept(levels: Levels, w: World, w': World, id: Id, row: Row)
    requires Grows(w, w') && Was(levels, w, id, row)
    ensures Was(levels, w', id, row)
  {
  }

  lemma DoomedKept(w: World, w': World, secret: Secret)
    requires Grows(w, w') && Doomed(w, secret)
    ensures Doomed(w', secret)
  {
    var path :| DoomPath(w, path) && path[0] == secret;
    assert DoomPath(w', path);
  }

  lemma ErasedDoomed(w: World, secret: Secret)
    requires secret in w.erased
    ensures Doomed(w, secret)
  {
    assert DoomPath(w, [secret]);
  }

  lemma ParentDoomed(w: World, secret: Secret, parent: Secret)
    requires (secret, parent) in w.filed && Doomed(w, parent)
    ensures Doomed(w, secret)
  {
    var path :| DoomPath(w, path) && path[0] == parent;
    assert DoomPath(w, [secret] + path);
  }

  // ----- walks -------------------------------------------------------------

  function IdAt(id: Id, below: seq<Row>, i: nat): Id
    requires i <= |below|
  {
    NextId(id, below[..i])
  }

  /** The rows behind a walk: each was the row its child names, and was of the generation the child
      names unless that generation is gone. */
  ghost predicate Trail(levels: Levels, w: World, id: Id, below: seq<Row>) {
    && (forall i :: 0 <= i < |below| ==> below[i].wrapping.Parent? && Was(levels, w, IdAt(id, below, i), below[i]))
    && (forall i :: 0 <= i < |below| - 1 ==>
          below[i].wrapping.generation == below[i + 1].box.secret || below[i].wrapping.generation in w.retired)
  }

  lemma TrailKept(levels: Levels, w: World, w': World, id: Id, below: seq<Row>)
    requires Grows(w, w') && Trail(levels, w, id, below)
    ensures Trail(levels, w', id, below)
  {
    forall i | 0 <= i < |below| ensures Was(levels, w', IdAt(id, below, i), below[i]) {
      WasKept(levels, w, w', IdAt(id, below, i), below[i]);
    }
  }

  /** Opening downwards gives the bottom row's own secret, or fails at a generation that is gone. */
  lemma {:induction false} OpenDownResult(levels: Levels, w: World, id: Id, below: seq<Row>, secret: Secret)
    requires Trail(levels, w, id, below)
    requires below != [] ==>
      below[|below| - 1].wrapping.generation == secret || below[|below| - 1].wrapping.generation in w.retired
    requires Doom(w)
    ensures below != [] ==>
      (OpenDown(id, below, secret) == Some(below[0].box.secret)
       || (OpenDown(id, below, secret) == None && Doomed(w, below[0].box.secret)))
    decreases |below|
  {
    if below != [] {
      var last := |below| - 1;
      var row := below[last];
      assert Was(levels, w, IdAt(id, below, last), row);
      if row.wrapping.generation == secret {
        var rest := below[..last];
        forall i | 0 <= i < |rest| ensures IdAt(id, rest, i) == IdAt(id, below, i) { assert rest[..i] == below[..i]; }
        assert Trail(levels, w, id, rest);
        assert below[..last] == rest;
        if last > 0 {
          assert rest[last - 1] == below[last - 1];
          OpenDownResult(levels, w, id, rest, row.box.secret);
          assert rest[0] == below[0];
        }
      } else {
        ParentDoomed(w, row.box.secret, row.wrapping.generation);
        TrailDoomed(levels, w, id, below, last);
      }
    }
  }

  /** Doom runs down a trail. */
  lemma {:induction false} TrailDoomed(levels: Levels, w: World, id: Id, below: seq<Row>, i: nat)
    requires Trail(levels, w, id, below) && Doom(w) && i < |below| && Doomed(w, below[i].box.secret)
    ensures Doomed(w, below[0].box.secret)
  {
    if i > 0 {
      assert Was(levels, w, IdAt(id, below, i - 1), below[i - 1]);
      ParentDoomed(w, below[i - 1].box.secret, below[i - 1].wrapping.generation);
      TrailDoomed(levels, w, id, below, i - 1);
    }
  }

  /** One read of a walk finds the bottom row's secret, or leaves a longer trail, or shows that the
      bottom row is doomed. */
  lemma WalkResult(levels: Levels, w: World, id: Id, below: seq<Row>)
    requires Base(levels, w) && Trail(levels, w, id, below)
    ensures
      match WalkOn(w.rows, id, below)
      case Found(secret) =>
        && secret in w.born && w.born[secret] == id
        && (below != [] ==> secret == below[0].box.secret)
        && (below == [] ==> id in w.rows && secret == w.rows[id].box.secret)
      case Higher(more) => more != [] && Trail(levels, w, id, more) && below <= more
           && (below == [] ==> id in w.rows && more == [w.rows[id]])
      case Unreadable => (below != [] ==> Doomed(w, below[0].box.secret)) && (below == [] ==> id !in w.rows)
  {
    var at := NextId(id, below);
    assert below[..|below|] == below;
    if below != [] {
      var last := |below| - 1;
      assert Was(levels, w, IdAt(id, below, last), below[last]);
      var g := below[last].wrapping.generation;
      assert g in w.born && w.born[g] == at;
      assert g in w.retired || (at in w.rows && w.rows[at].box.secret == g);
      if at !in w.rows {
        ParentDoomed(w, below[last].box.secret, g);
        TrailDoomed(levels, w, id, below, last);
      } else if w.rows[at].wrapping.Master? {
        assert Was(levels, w, at, w.rows[at]);
        OpenDownResult(levels, w, id, below, w.rows[at].box.secret);
        assert Was(levels, w, IdAt(id, below, 0), below[0]);
      }
    } else if at in w.rows {
      assert Was(levels, w, at, w.rows[at]);
    }
    if at in w.rows && w.rows[at].wrapping.Parent? { TrailGrows(levels, w, id, below); }
  }

  lemma TrailGrows(levels: Levels, w: World, id: Id, below: seq<Row>)
    requires RowsOk(levels, w) && Alive(w) && Trail(levels, w, id, below)
    requires var at := NextId(id, below); at in w.rows && w.rows[at].wrapping.Parent?
    ensures Trail(levels, w, id, below + [w.rows[NextId(id, below)]])
  {
    var at := NextId(id, below);
    var more := below + [w.rows[at]];
    forall i | 0 <= i < |more| ensures Was(levels, w, IdAt(id, more, i), more[i]) {
      assert more[..i] == below[..i];
      if i == |below| { assert below[..i] == below; }
    }
    if below != [] {
      var last := |below| - 1;
      assert below[..|below|] == below;
      assert Was(levels, w, IdAt(id, below, last), below[last]);
      assert below[last].wrapping.generation in w.born && w.born[below[last].wrapping.generation] == at;
    }
  }

  // ----- threads -----------------------------------------------------------

  ghost predicate StaleOk(levels: Levels, w: World, id: Id, stale: Option<Row>) {
    stale.Some? ==> Was(levels, w, id, stale.value) && Doomed(w, stale.value.box.secret)
  }

  predicate BornOf(w: World, secret: Secret, id: Id) {
    secret in w.born && w.born[secret] == id
  }

  ghost predicate FrameOk(levels: Levels, w: World, f: Frame) {
    && Chain(levels, f.chain) && f.attempts > 0
    && match f.phase
       case Reading => true
       case Judging(below) => below != [] && Trail(levels, w, f.chain[0], below)
       case Waiting(stale) => StaleOk(levels, w, f.chain[0], stale) && |f.chain| > 1
       case Inserting(stale, parent) =>
         && StaleOk(levels, w, f.chain[0], stale) && (parent.Some? <==> |f.chain| > 1)
         && (parent.Some? ==> BornOf(w, parent.value, f.chain[1]))
       case Reopening(below) => Trail(levels, w, f.chain[0], below)
  }

  ghost predicate StackOk(levels: Levels, w: World, stack: seq<Frame>) {
    && stack != []
    && (forall i :: 0 <= i < |stack| ==> FrameOk(levels, w, stack[i]) && (stack[i].phase.Waiting? <==> i < |stack| - 1))
    && (forall i :: 0 <= i < |stack| - 1 ==> stack[i + 1].chain == stack[i].chain[1..])
  }

  /** What an adoption wrote and has yet to read back. */
  ghost predicate Adopts(levels: Levels, w: World, chain: seq<Id>, box: Box)
    requires |chain| > 1
  {
    && box.key.ChildKey? && box.aad == Some((chain[0], chain[1])) && box.nonce < w.next
    && BornOf(w, box.secret, chain[0])
    && (Holds(w, box.secret) ==> w.rows[chain[0]].box == box)
  }

  ghost predicate Rewrapped(w: World, u: Update) {
    && u.expected != w.primary && u.box.key == MasterKey(w.primary) && u.box.aad == None && u.box.nonce < w.next
    && BornOf(w, u.box.secret, u.id)
    && (u.id in w.rows && w.rows[u.id].wrapping == Master(u.expected) ==> w.rows[u.id].box.secret == u.box.secret)
  }

  ghost predicate ThreadOk(levels: Levels, w: World, thread: Thread) {
    match thread
    case Minting(stack) => StackOk(levels, w, stack)
    case Minted(id, secret) => secret.Some? ==> BornOf(w, secret.value, id)
    case Adopting(chain, at) =>
      Chain(levels, chain) && |chain| > 1 &&
      (match at
       case AtRow => true
       case AtMint(row, stack) =>
         && Was(levels, w, chain[0], row) && row.wrapping.Master?
         && StackOk(levels, w, stack) && stack[0].chain == chain[1..]
       case AtCommit(row, parent) =>
         Was(levels, w, chain[0], row) && row.wrapping.Master? && BornOf(w, parent, chain[1])
       case AtReadback(box, below) => Adopts(levels, w, chain, box) && Trail(levels, w, chain[0], below)
       case AtRestore(box) => Adopts(levels, w, chain, box))
    case AdoptDone(chain, _) => Chain(levels, chain) && |chain| > 1
    case Rotating(updates) => updates.Some? ==> forall u :: u in updates.value ==> Rewrapped(w, u)
    case RotateDone => true
  }

  ghost predicate Threads(levels: Levels, w: World) {
    forall t :: t in w.threads ==> ThreadOk(levels, w, w.threads[t])
  }

  ghost predicate Inv(levels: Levels, w: World) {
    Base(levels, w) && Threads(levels, w)
  }

  lemma FrameKept(levels: Levels, w: World, w': World, f: Frame)
    requires Grows(w, w') && FrameOk(levels, w, f)
    ensures FrameOk(levels, w', f)
  {
    match f.phase
    case Reading =>
    case Judging(below) => TrailKept(levels, w, w', f.chain[0], below);
    case Waiting(stale) => if stale.Some? { DoomedKept(w, w', stale.value.box.secret); }
    case Inserting(stale, parent) => if stale.Some? { DoomedKept(w, w', stale.value.box.secret); }
    case Reopening(below) => TrailKept(levels, w, w', f.chain[0], below);
  }

  lemma StackKept(levels: Levels, w: World, w': World, stack: seq<Frame>)
    requires Grows(w, w') && StackOk(levels, w, stack)
    ensures StackOk(levels, w', stack)
  {
    hide Grows;
    forall i | 0 <= i < |stack| ensures FrameOk(levels, w', stack[i]) {
      FrameKept(levels, w, w', stack[i]);
    }
  }

  function Awaited(thread: Thread): Option<Box> {
    if thread.Adopting? && thread.at.AtReadback? then Some(thread.at.box)
    else if thread.Adopting? && thread.at.AtRestore? then Some(thread.at.box)
    else None
  }

  /** No two adoptions wait for the same bytes. */
  ghost predicate Distinct(w: World) {
    forall t, u :: t in w.threads && u in w.threads && t != u && Awaited(w.threads[t]).Some? ==>
      Awaited(w.threads[t]) != Awaited(w.threads[u])
  }

  /** The adoption under `t` is about to put the row of `id` back. */
  predicate Restores(w: World, t: nat, id: Id) {
    t in w.threads && id in w.rows && w.threads[t].Adopting? && w.threads[t].at == AtRestore(w.rows[id].box)
  }

  /** How a step of thread `t` may change the table: no row appears under an old master, a child row
      that keeps its secret stays as it is unless `t` adopted it and takes it back, and no secret returns. */
  ghost predicate TableMoves(w: World, w': World, t: nat) {
    && (forall id :: id in w'.rows && w'.rows[id].wrapping.Master? && w'.rows[id].wrapping.id != w.primary ==>
          id in w.rows && w'.rows[id] == w.rows[id])
    && (forall id :: id in w.rows && id in w'.rows && w.rows[id].wrapping.Parent?
            && w'.rows[id].box.secret == w.rows[id].box.secret && w'.rows[id] != w.rows[id]
          ==> Restores(w, t, id))
    && (forall s :: s in w.born && Holds(w', s) ==> Holds(w, s))
  }

  /** Some thread moved the table as it may, and no thread took over what another waits for. */
  ghost predicate Moves(w: World, w': World) {
    && (exists t :: TableMoves(w, w', t))
    && (forall u :: u in w'.threads && Awaited(w'.threads[u]).Some? ==>
          (u in w.threads && Awaited(w.threads[u]) == Awaited(w'.threads[u]))
            || Awaited(w'.threads[u]).value.nonce >= w.next)
  }

  /** A step of one thread leaves the others as they should be. */
  lemma OtherKept(levels: Levels, w: World, w': World, t: nat, thread: Thread)
    requires Grows(w, w') && TableMoves(w, w', t) && RowsOk(levels, w) && ThreadOk(levels, w, thread)
    requires t in w.threads && Awaited(thread).Some? ==> Awaited(thread) != Awaited(w.threads[t])
    ensures ThreadOk(levels, w', thread)
  {
    match thread
    case Minting(stack) => StackKept(levels, w, w', stack);
    case Minted(id, secret) =>
    case AdoptDone(chain, _) =>
    case Rotating(updates) =>
    case RotateDone =>
    case Adopting(chain, at) =>
      match at
      case AtRow =>
      case AtMint(row, stack) => StackKept(levels, w, w', stack);
      case AtCommit(row, parent) =>
      case AtReadback(box, below) =>
        AdoptsKept(levels, w, w', t, chain, box);
        TrailKept(levels, w, w', chain[0], below);
      case AtRestore(box) => AdoptsKept(levels, w, w', t, chain, box);
  }

  lemma AdoptsKept(levels: Levels, w: World, w': World, t: nat, chain: seq<Id>, box: Box)
    requires Grows(w, w') && TableMoves(w, w', t) && RowsOk(levels, w) && |chain| > 1 && Adopts(levels, w, chain, box)
    requires t in w.threads ==> Awaited(w.threads[t]) != Some(box)
    ensures Adopts(levels, w', chain, box)
  {
    if Holds(w', box.secret) {
      assert Holds(w, box.secret);
      assert Was(levels, w, chain[0], w.rows[chain[0]]);
      assert !Restores(w, t, chain[0]);
    }
  }

  ghost predicate Good(levels: Levels, w: World) {
    Inv(levels, w) && Distinct(w)
  }

  /** One thread moved on, the table moved as it may, and everything holds again. */
  lemma MovedOn(levels: Levels, w: World, w': World, t: nat, thread: Thread)
    requires Good(levels, w) && Base(levels, w') && Grows(w, w') && TableMoves(w, w', t)
    requires w'.threads == w.threads[t := thread] && ThreadOk(levels, w', thread)
    requires Awaited(thread).Some? ==> (t in w.threads && Awaited(w.threads[t]) == Awaited(thread))
                                       || Awaited(thread).value.nonce >= w.next
    ensures Good(levels, w')
  {
    forall u | u in w'.threads ensures ThreadOk(levels, w', w'.threads[u]) {
      if u != t { OtherKept(levels, w, w', t, w.threads[u]); }
    }
    forall u | u in w.threads && Awaited(w.threads[u]).Some? ensures Awaited(w.threads[u]).value.nonce < w.next {
      assert ThreadOk(levels, w, w.threads[u]);
    }
  }

  // ----- minting -----------------------------------------------------------

  /** The table and its history moved on: nothing that ever held came undone, and no secret returned. */
  ghost predicate Onward(levels: Levels, w: World, w': World) {
    Base(levels, w') && Grows(w, w') && forall s :: s in w.born && Holds(w', s) ==> Holds(w, s)
  }

  lemma OnwardAgain(levels: Levels, w: World, w1: World, w2: World)
    requires Onward(levels, w, w1) && Onward(levels, w1, w2)
    ensures Onward(levels, w, w2)
  {
    hide Base, Holds;
  }

  /** The row of `id` goes, and its secret with it. */
  ghost predicate Drops(w: World, w': World, id: Id) {
    && id in w.rows && w'.rows == w.rows - {id} && w'.retired == w.retired + {w.rows[id].box.secret}
    && w'.born == w.born && w'.filed == w.filed && w.next <= w'.next && w'.primary == w.primary
    && w.erased <= w'.erased <= w.erased + {w.rows[id].box.secret}
  }

  lemma DropsKeeps(levels: Levels, w: World, w': World, id: Id)
    requires Base(levels, w) && Drops(w, w', id) && Doomed(w', w.rows[id].box.secret)
    ensures Onward(levels, w, w')
  {
    hide Doomed;
    assert Was(levels, w, id, w.rows[id]);
    forall i | i in w'.rows ensures Was(levels, w', i, w'.rows[i]) && w'.rows[i].box.secret !in w'.retired {
      WasKept(levels, w, w', i, w.rows[i]);
    }
    forall s | s in w.retired ensures Doomed(w', s) { DoomedKept(w, w', s); }
  }

  /** A secret never used before goes into a row that was not there. */
  ghost predicate Adds(levels: Levels, w: World, w': World, id: Id, row: Row) {
    && id !in w.rows && row.box.secret !in w.born && row.box.secret < w'.next && row.box.nonce < w'.next
    && w'.rows == w.rows[id := row] && w'.retired == w.retired && w'.erased == w.erased
    && w'.born == w.born[row.box.secret := id]
    && w.next <= w'.next && w'.primary == w.primary && w.filed <= w'.filed
    && (forall pair :: pair in w'.filed ==> pair in w.filed || (pair.0 == row.box.secret && pair.1 in w.born))
    && Was(levels, w', id, row)
  }

  lemma AddsKeeps(levels: Levels, w: World, w': World, id: Id, row: Row)
    requires Base(levels, w) && Adds(levels, w, w', id, row)
    ensures Onward(levels, w, w')
  {
    hide Doomed;
    forall i | i in w'.rows ensures Was(levels, w', i, w'.rows[i]) && w'.rows[i].box.secret !in w'.retired {
      if i != id { WasKept(levels, w, w', i, w.rows[i]); }
    }
    forall s | s in w.retired ensures Doomed(w', s) { DoomedKept(w, w', s); }
  }

  /** A row is wrapped differently around the secret it holds. */
  ghost predicate WrapsAnew(levels: Levels, w: World, w': World, id: Id, row: Row) {
    && id in w.rows && row.box.secret == w.rows[id].box.secret && row.box.nonce < w'.next
    && w'.rows == w.rows[id := row] && w'.retired == w.retired && w'.erased == w.erased && w'.born == w.born
    && w.next <= w'.next && w'.primary == w.primary && w.filed <= w'.filed
    && (forall pair :: pair in w'.filed ==> pair in w.filed || (pair.0 in w.born && pair.1 in w.born))
    && Was(levels, w', id, row)
  }

  lemma WrapsAnewKeeps(levels: Levels, w: World, w': World, id: Id, row: Row)
    requires Base(levels, w) && WrapsAnew(levels, w, w', id, row)
    ensures Onward(levels, w, w')
  {
    hide Doomed;
    forall i | i in w'.rows ensures Was(levels, w', i, w'.rows[i]) && w'.rows[i].box.secret !in w'.retired {
      WasKept(levels, w, w', i, w.rows[i]);
    }
    forall s | s in w.retired ensures Doomed(w', s) { DoomedKept(w, w', s); }
  }

  /** Nothing but the counter moves. */
  lemma SameKeeps(levels: Levels, w: World, w': World)
    requires Base(levels, w) && w'.rows == w.rows && w'.born == w.born && w'.retired == w.retired
    requires w'.erased == w.erased && w'.filed == w.filed && w.next <= w'.next && w'.primary == w.primary
    ensures Onward(levels, w, w') && forall t :: TableMoves(w, w', t)
  {
    hide Doomed;
    forall i | i in w'.rows ensures Was(levels, w', i, w'.rows[i]) { WasKept(levels, w, w', i, w.rows[i]); }
    forall s | s in w.retired ensures Doomed(w', s) { DoomedKept(w, w', s); }
  }

  // ----- minting -----------------------------------------------------------

  function Candidate(w: World, id: Id, parent: Option<(Id, Secret)>): Row {
    if parent.Some? then ChildRow(id, parent.value.0, parent.value.1, w.next, w.next)
    else MasterRow(w.primary, w.next, w.next)
  }

  function Inserted(w: World, id: Id, parent: Option<(Id, Secret)>): World {
    w.(next := w.next + 1, rows := w.rows[id := Candidate(w, id, parent)], born := w.born[w.next := id],
       filed := if parent.Some? then w.filed + {(w.next, parent.value.1)} else w.filed)
  }

  lemma InsertedKeeps(levels: Levels, w: World, id: Id, parent: Option<(Id, Secret)>)
    requires Base(levels, w) && id !in w.rows
    requires parent.Some? ==>
      BornOf(w, parent.value.1, parent.value.0) && levels(parent.value.0.subject) < levels(id.subject)
    ensures Onward(levels, w, Inserted(w, id, parent))
  {
    assert w.next !in w.born;
    assert Adds(levels, w, Inserted(w, id, parent), id, Candidate(w, id, parent));
    hide Base, Adds, Inserted, Candidate, Onward;
    AddsKeeps(levels, w, Inserted(w, id, parent), id, Candidate(w, id, parent));
  }

  lemma SweptKeeps(levels: Levels, w: World, id: Id, stale: Row)
    requires Base(levels, w) && id in w.rows && w.rows[id].box == stale.box && Doomed(w, stale.box.secret)
    ensures Onward(levels, w, Swept(w, id)) && Swept(w, id).next == w.next
    ensures forall s :: s in w.born ==> BornOf(Swept(w, id), s, w.born[s])
  {
    DoomedKept(w, Swept(w, id), stale.box.secret);
    hide Base, Doomed, Onward;
    DropsKeeps(levels, w, Swept(w, id), id);
  }

  /** What an insert comes to: nothing, an insert, or a stale row dropped first. */
  lemma InsertIs(w: World, id: Id, parent: Option<(Id, Secret)>, stale: Option<Row>)
    ensures
      var gone := stale.Some? && id in w.rows && w.rows[id].box == stale.value.box;
      Insert(w, id, parent, stale) ==
        if id in w.rows && !gone then w.(next := w.next + 1)
        else if gone then Inserted(Swept(w, id), id, parent)
        else Inserted(w, id, parent)
  {
    var gone := stale.Some? && id in w.rows && w.rows[id].box == stale.value.box;
    if gone { assert (w.rows - {id})[id := Candidate(w, id, parent)] == w.rows[id := Candidate(w, id, parent)]; }
  }

  lemma InsertKeeps(levels: Levels, w: World, id: Id, parent: Option<(Id, Secret)>, stale: Option<Row>)
    requires Base(levels, w) && StaleOk(levels, w, id, stale)
    requires parent.Some? ==>
      BornOf(w, parent.value.1, parent.value.0) && levels(parent.value.0.subject) < levels(id.subject)
    ensures Onward(levels, w, Insert(w, id, parent, stale)) && id in Insert(w, id, parent, stale).rows
  {
    var gone := stale.Some? && id in w.rows && w.rows[id].box == stale.value.box;
    InsertIs(w, id, parent, stale);
    hide Base, Insert, Doomed, Onward;
    if id in w.rows && !gone {
      SameKeeps(levels, w, w.(next := w.next + 1));
    } else if gone {
      SweptKeeps(levels, w, id, stale.value);
      assert Base(levels, Swept(w, id)) by { OnwardBase(levels, w, Swept(w, id)); }
      InsertedKeeps(levels, Swept(w, id), id, parent);
      OnwardAgain(levels, w, Swept(w, id), Inserted(Swept(w, id), id, parent));
    } else {
      InsertedKeeps(levels, w, id, parent);
    }
  }

  lemma OnwardBase(levels: Levels, w: World, w': World)
    requires Onward(levels, w, w')
    ensures Base(levels, w') && Grows(w, w')
  {
  }

  /** An insert makes no row but a new one. */
  lemma InsertMoves(levels: Levels, w: World, id: Id, parent: Option<(Id, Secret)>, stale: Option<Row>, t: nat)
    requires RowsOk(levels, w) && Ledger(w)
    requires forall s :: s in w.born && Holds(Insert(w, id, parent, stale), s) ==> Holds(w, s)
    ensures TableMoves(w, Insert(w, id, parent, stale), t)
  {
    var w' := Insert(w, id, parent, stale);
    forall i | i in w.rows && i in w'.rows && w'.rows[i] != w.rows[i]
      ensures i == id && w'.rows[i].box.secret == w.next && w'.rows[i].box.secret != w.rows[i].box.secret
    {
      assert Was(levels, w, i, w.rows[i]);
    }
  }

  /** A mint's stack after a step, or the secret it ends with. */
  ghost predicate StepOk(levels: Levels, w: World, chain: seq<Id>, stepped: Stepped)
    requires chain != []
  {
    match stepped.answer
    case None => StackOk(levels, w, stepped.stack) && stepped.stack[0].chain == chain
    case Some(None) => true
    case Some(Some(secret)) => BornOf(w, secret, chain[0])
  }

  lemma AnswerOk(levels: Levels, w: World, stack: seq<Frame>, secret: Secret)
    requires StackOk(levels, w, stack) && BornOf(w, secret, stack[|stack| - 1].chain[0])
    ensures StepOk(levels, w, stack[0].chain, Answer(stack, secret))
  {
    hide Trail, Was, Doomed;
    if |stack| > 1 {
      var caller := stack[|stack| - 2];
      assert FrameOk(levels, w, caller) && caller.phase.Waiting?;
      assert stack[|stack| - 2 + 1].chain == caller.chain[1..];
      var next := stack[..|stack| - 1][|stack| - 2 := caller.(phase := Inserting(caller.phase.stale, Some(secret)))];
      assert FrameOk(levels, w, next[|stack| - 2]);
      assert StackOk(levels, w, next);
    }
  }

  lemma {:induction false} RetryOk(levels: Levels, w: World, stack: seq<Frame>)
    requires StackOk(levels, w, stack) || (|stack| > 0 && WaitingOk(levels, w, stack))
    ensures StepOk(levels, w, stack[0].chain, Retry(stack))
    decreases |stack|
  {
    hide Trail, Was, Doomed;
    var last := |stack| - 1;
    if stack[last].attempts > 1 {
      var next := stack[last := stack[last].(attempts := stack[last].attempts - 1, phase := Reading)];
      assert FrameOk(levels, w, stack[last]);
      assert FrameOk(levels, w, next[last]);
      assert StackOk(levels, w, next);
    } else if last > 0 {
      RetryOk(levels, w, stack[..last]);
    }
  }

  /** A stack whose top frame waits as well: what is left when a frame above failed. */
  ghost predicate WaitingOk(levels: Levels, w: World, stack: seq<Frame>) {
    && (forall i :: 0 <= i < |stack| ==> FrameOk(levels, w, stack[i]) && stack[i].phase.Waiting?)
    && (forall i :: 0 <= i < |stack| - 1 ==> stack[i + 1].chain == stack[i].chain[1..])
  }

  lemma SetPhaseOk(levels: Levels, w: World, stack: seq<Frame>, phase: Phase)
    requires StackOk(levels, w, stack) && !phase.Waiting?
    requires FrameOk(levels, w, stack[|stack| - 1].(phase := phase))
    ensures StepOk(levels, w, stack[0].chain, SetPhase(stack, phase))
  {
    hide FrameOk;
  }

  lemma DescendOk(levels: Levels, w: World, stack: seq<Frame>, stale: Option<Row>)
    requires StackOk(levels, w, stack) && StaleOk(levels, w, stack[|stack| - 1].chain[0], stale)
    ensures StepOk(levels, w, stack[0].chain, Descend(stack, stale))
  {
    hide Trail, Was, Doomed;
    var last := |stack| - 1;
    var frame := stack[last];
    assert FrameOk(levels, w, frame);
    if |frame.chain| > 1 {
      var next := stack[last := frame.(phase := Waiting(stale))] + [Frame(frame.chain[1..], MINT_ATTEMPTS, Reading)];
      assert Chain(levels, frame.chain[1..]);
      assert FrameOk(levels, w, next[last]) && FrameOk(levels, w, next[last + 1]);
      assert forall i :: 0 <= i < last ==> next[i] == stack[i];
      assert StackOk(levels, w, next);
    } else {
      var next := stack[last := frame.(phase := Inserting(stale, None))];
      assert FrameOk(levels, w, next[last]);
      assert StackOk(levels, w, next);
    }
  }

  /** What one step of any thread does to a good store. */
  ghost predicate StepsOn(levels: Levels, w: World, w': World) {
    Good(levels, w') && Grows(w, w') && Moves(w, w')
  }
}
