/** The loop that keeps the derived tables on the log: a backfill of what a deploy left behind, then
    batch after batch, as they arrive (`follow` of `src/fold_runtime.rs`). */
module FoldFollow {
  import opened Options
  import opened KeyOrder
  import opened FoldTables
  import opened FoldSink
  import opened FoldRuntime

  /** What following the log from its start with the current program gives at `n`. */
  ghost function Truth(p: Program, log: seq<Record>, n: nat): State
    requires n <= |log|
  {
    ApplyAll(p, EMPTY, log[..n])
  }

  /** What a backfill makes of a store: the columns that are behind as following gives them, with their
      keys, and everything else as it was. */
  ghost function Filled(p: Program, behind: set<Column>, s: State, truth: State): State {
    State(
      (map at | at in s.cells && at.0 !in behind :: s.cells[at])
        + (map at | at in truth.cells && at.0 in behind :: truth.cells[at]),
      s.keys + set at | at in truth.cells && at.0 in behind :: (p.main(at.0.table), at.1))
  }

  lemma FilledCells(p: Program, behind: set<Column>, s: State, truth: State, c: Column, k: Key)
    ensures Cell(Filled(p, behind, s, truth), c, k) == if c in behind then Cell(truth, c, k) else Cell(s, c, k)
  {
  }

  lemma FilledKeys(p: Program, behind: set<Column>, s: State, truth: State, table: string, k: Key)
    ensures (table, k) in Filled(p, behind, s, truth).keys <==>
      (table, k) in s.keys || exists c :: c in behind && Writes(p, truth, c, table, k)
  {
    if c :| c in behind && Writes(p, truth, c, table, k) { assert (c, k) in truth.cells; }
    if (table, k) in Filled(p, behind, s, truth).keys && (table, k) !in s.keys {
      var at :| at in truth.cells && at.0 in behind && (p.main(at.0.table), at.1) == (table, k);
      assert Writes(p, truth, at.0, table, k);
    }
  }

  lemma DeclaredClosed(p: Program, log: seq<Record>, columns: set<Column>, n: nat)
    requires Declares(p, log, columns) && n <= |log|
    ensures Closed(p, log[..n], columns) && Closed(p, log, columns) && Declares(p, log[..n], columns)
  {
    assert forall arm :: HasArm(p, log[..n], arm) ==> HasArm(p, log, arm);
  }

  /** A store whose cells and rows are as a backfill leaves them shows exactly the filled state. */
  lemma BackfillFills(p: Program, behind: set<Column>, s: State, s': State, truth: State,
                      rows: set<(string, Key)>, rows': set<(string, Key)>)
    requires Layout(p) && RowsFit(p, behind, truth, rows, rows')
    requires forall c, k :: c !in behind ==> Cell(s', c, k) == Cell(s, c, k)
    requires forall c, k :: c in behind ==> Cell(s', c, k) == Cell(truth, c, k)
    requires forall table, k :: (table, k) in s.keys <==> p.main(table) == table && (table, k) in rows
    requires forall table, k :: (table, k) in s'.keys <==> p.main(table) == table && (table, k) in rows'
    ensures s' == Filled(p, behind, s, truth)
  {
    var filled := Filled(p, behind, s, truth);
    forall at: (Column, Key) ensures at in s'.cells <==> at in filled.cells
      ensures at in s'.cells ==> s'.cells[at] == filled.cells[at]
    {
      FilledCells(p, behind, s, truth, at.0, at.1);
      assert at == (at.0, at.1) && Cell(s', at.0, at.1) == Cell(filled, at.0, at.1);
    }
    assert s'.cells == filled.cells;
    forall at: (string, Key) ensures at in s'.keys <==> at in filled.keys {
      FilledKeys(p, behind, s, truth, at.0, at.1);
      assert at == (at.0, at.1);
      if c :| c in behind && Writes(p, truth, c, at.0, at.1) { assert p.main(at.0) == at.0; }
    }
  }

  /** One batch more keeps the tables in step with the log. */
  lemma BatchAgrees(p: Program, log: seq<Record>, columns: set<Column>, s: State, n: nat, m: nat)
    requires Closed(p, log, columns) && n <= m <= |log| && Agree(p, log, columns, s, Truth(p, log, n))
    ensures Agree(p, log, columns, ApplyAll(p, s, log[n..m]), Truth(p, log, m))
  {
    var t, records := Truth(p, log, n), log[n..m];
    assert log[..m] == log[..n] + records;
    BatchesSplit(p, EMPTY, log[..n], records);
    AgreeAll(p, log, columns, s, t, records);
    assert Agree(p, log, columns, t, t);
    AgreeAll(p, log, columns, t, t, records);
    AgreeVia(p, log, columns, ApplyAll(p, s, records), ApplyAll(p, t, records), ApplyAll(Only(p, columns), t, records));
  }

  lemma AgreeVia(p: Program, log: seq<Record>, columns: set<Column>, s: State, t: State, via: State)
    requires Agree(p, log, columns, s, via) && Agree(p, log, columns, t, via)
    ensures Agree(p, log, columns, s, t)
  {
    forall c, k | c in columns ensures Cell(s, c, k) == Cell(t, c, k) {
      assert Cell(s, c, k) == Cell(via, c, k) == Cell(t, c, k);
    }
  }

  lemma BatchOn(p: Program, s: State, log: seq<Record>, start: nat, middle: nat, end: nat)
    requires start <= middle <= end <= |log|
    ensures ApplyAll(p, s, log[start..end]) == ApplyAll(p, ApplyAll(p, s, log[start..middle]), log[middle..end])
  {
    BatchesSplit(p, s, log[start..middle], log[middle..end]);
    assert log[start..end] == log[start..middle] + log[middle..end];
  }

  /** Bring what is behind up to the checkpoint. */
  method Fill(store: FoldStore, p: Program, columns: set<Column>, log: seq<Record>)
    requires ProgramKeyed(p) && Keyed(p, store.rows) && Declares(p, log, columns)
    requires store.builtTo.Keys == columns && store.checkpoint <= |log|
    modifies store
    ensures store.checkpoint == old(store.checkpoint) && store.builtTo.Keys == columns && Keyed(p, store.rows)
    ensures store.View(p) == Filled(p, old(store.Behind()), old(store.View(p)), Truth(p, log, store.checkpoint))
    ensures forall c :: c in store.builtTo ==> store.builtTo[c] >= store.checkpoint
  {
    DeclaredClosed(p, log, columns, store.checkpoint);
    ghost var behind, was, rows, start := store.Behind(), store.View(p), store.rows, store.checkpoint;
    assert behind * columns == behind;
    hide Declares, RowsFit, Closed, Truth, Filled;
    assert Truth(p, log, start) == ApplyAll(p, EMPTY, log[..start]) by { TruthIs(p, log, start); }
    Backfill(store, p, columns, log, columns);
    BackfillFills(p, behind, was, store.View(p), Truth(p, log, start), rows, store.rows);
  }

  /** One batch of the live walk, from a store with nothing behind. */
  method ApplyNext(store: FoldStore, p: Program, columns: set<Column>, records: seq<Record>, head: nat)
    requires ProgramKeyed(p) && Keyed(p, store.rows) && store.builtTo.Keys == columns && store.checkpoint <= head
    requires forall c :: c in store.builtTo ==> store.builtTo[c] >= store.checkpoint
    modifies store
    ensures store.View(p) == ApplyAll(p, old(store.View(p)), records) && Keyed(p, store.rows)
    ensures store.checkpoint == head && store.builtTo.Keys == columns
    ensures forall c :: c in store.builtTo ==> store.builtTo[c] >= store.checkpoint
  {
    ApplyBatch(store, p, columns, records, head);
  }

  /** Bring what is behind up to the checkpoint, then apply each batch as the subscription's position
      moves; `heads` is where it stood after each poll. The store ends up as immediate application of
      every record leaves the filled store, whatever it held before. */
  method Follow(store: FoldStore, p: Program, columns: set<Column>, log: seq<Record>, heads: seq<nat>)
    requires ProgramKeyed(p) && Keyed(p, store.rows) && Declares(p, log, columns)
    requires store.builtTo.Keys == columns && store.checkpoint <= |log|
    requires forall i :: 0 <= i < |heads| ==> store.checkpoint <= heads[i] <= |log|
    requires forall i, j :: 0 <= i < j < |heads| ==> heads[i] <= heads[j]
    modifies store
    ensures store.checkpoint == if heads == [] then old(store.checkpoint) else heads[|heads| - 1]
    ensures store.Behind() == {} && store.builtTo.Keys == columns && old(store.checkpoint) <= store.checkpoint <= |log|
    ensures store.View(p) == ApplyAll(p, Filled(p, old(store.Behind()), old(store.View(p)),
      Truth(p, log, old(store.checkpoint))), log[old(store.checkpoint)..store.checkpoint])
    ensures Keyed(p, store.rows)
  {
    hide Declares, Truth, Filled;
    Fill(store, p, columns, log);
    ghost var filled, start := store.View(p), store.checkpoint;
    assert ApplyAll(p, filled, log[start..start]) == filled;
    hide ApplyAll;
    for i := 0 to |heads|
      invariant Keyed(p, store.rows) && store.builtTo.Keys == columns && start <= store.checkpoint
      invariant store.checkpoint == if i == 0 then start else heads[i - 1]
      invariant forall c :: c in store.builtTo ==> store.builtTo[c] >= store.checkpoint
      invariant store.View(p) == ApplyAll(p, filled, log[start..store.checkpoint])
    {
      if heads[i] > store.checkpoint {
        var records := log[store.checkpoint..heads[i]];
        BatchOn(p, filled, log, start, store.checkpoint, heads[i]);
        ApplyNext(store, p, columns, records, heads[i]);
      }
    }
  }

  lemma TruthIs(p: Program, log: seq<Record>, n: nat)
    requires n <= |log|
    ensures Truth(p, log, n) == ApplyAll(p, EMPTY, log[..n])
  {
  }

  lemma AgreeReads(p: Program, log: seq<Record>, columns: set<Column>, s: State, t: State)
    requires Agree(p, log, columns, s, t)
    ensures forall c, k :: c in columns ==> Get(p, s, c, k) == Get(p, t, c, k)
  {
    forall c, k | c in columns ensures Get(p, s, c, k) == Get(p, t, c, k) {
      assert Cell(s, c, k) == Cell(t, c, k);
    }
  }

  // ----- what a store that followed a program holds ------------------------

  /** The store stands at `n` as following `p` from the start of the log would have it: every column that
      is not behind, cell for cell, and the keys of every table but those in `stale`, which may hold more. */
  ghost predicate Followed(p: Program, log: seq<Record>, n: nat, columns: set<Column>, behind: set<Column>,
                           stale: set<string>, s: State)
    requires n <= |log|
  {
    var truth := Truth(p, log, n);
    && (forall c, k :: (c, k) in s.cells ==> c in columns && (p.main(c.table), k) in s.keys)
    && (forall c, k :: c in columns && c !in behind ==> Cell(s, c, k) == Cell(truth, c, k))
    && (forall table, k :: (table, k) in s.keys && table !in stale ==> (table, k) in truth.keys)
  }

  lemma EmptyFollowed(p: Program, log: seq<Record>, columns: set<Column>)
    ensures Followed(p, log, 0, columns, {}, {}, EMPTY)
  {
  }

  lemma TruthMinted(p: Program, log: seq<Record>, shape: Shape, columns: set<Column>, n: nat)
    requires Shaped(p, shape) && Among(shape, columns) && n <= |log|
    ensures Minted(p, columns, shape.exact, Truth(p, log, n))
  {
    assert Minted(p, columns, shape.exact, EMPTY);
    hide Shaped, Among, Minted;
    AllMint(p, shape, columns, EMPTY, log[..n]);
  }

  /** A followed store that ranges over no stale table agrees with following. */
  lemma FollowedAgrees(p: Program, log: seq<Record>, n: nat, shape: Shape, columns: set<Column>, stale: set<string>,
                       s: State)
    requires Shaped(p, shape) && Among(shape, columns) && n <= |log| && Followed(p, log, n, columns, {}, stale, s)
    requires forall c :: c in shape.ranging ==> p.main(c.table) !in stale
    ensures Agree(p, log, columns, s, Truth(p, log, n))
  {
    TruthMinted(p, log, shape, columns, n);
    var truth := Truth(p, log, n);
    forall table, k | Ranged(p, log, columns, table) ensures (table, k) in s.keys <==> (table, k) in truth.keys {
      var arm :| HasArm(p, log, arm) && arm.column in columns && arm.target.Range? && p.main(arm.column.table) == table;
      assert Fits(arm, shape);
      if (table, k) in truth.keys {
        var c :| c in shape.exact && Writes(p, truth, c, table, k);
        assert Cell(s, c, k) == Cell(truth, c, k);
        assert (c, k) in s.cells;
      }
    }
  }

  /** So it goes on as following does. */
  lemma FollowedOn(p: Program, log: seq<Record>, n: nat, m: nat, shape: Shape, columns: set<Column>, stale: set<string>,
                   s: State)
    requires Shaped(p, shape) && Among(shape, columns) && n <= m <= |log| && Followed(p, log, n, columns, {}, stale, s)
    requires forall c :: c in shape.ranging ==> p.main(c.table) !in stale
    ensures
      var s' := ApplyAll(p, s, log[n..m]);
      && Followed(p, log, m, columns, {}, stale, s')
      && forall c, k :: c in columns ==> Get(p, s', c, k) == Get(p, Truth(p, log, m), c, k)
  {
    var s', truth := ApplyAll(p, s, log[n..m]), Truth(p, log, m);
    FollowedAgrees(p, log, n, shape, columns, stale, s);
    ShapedDeclares(p, log, shape, columns);
    DeclaredClosed(p, log, columns, n);
    hide Shaped, Among, Declares, Closed, Ranged;
    BatchAgrees(p, log, columns, s, n, m);
    AgreeReads(p, log, columns, s', truth);
    KeysFollow(p, log, n, m, shape, columns, stale, s);
  }

  lemma KeysFollow(p: Program, log: seq<Record>, n: nat, m: nat, shape: Shape, columns: set<Column>, stale: set<string>,
                   s: State)
    requires Shaped(p, shape) && Among(shape, columns) && n <= m <= |log| && Followed(p, log, n, columns, {}, stale, s)
    requires Agree(p, log, columns, ApplyAll(p, s, log[n..m]), Truth(p, log, m))
    ensures Followed(p, log, m, columns, {}, stale, ApplyAll(p, s, log[n..m]))
  {
    var s', was, truth := ApplyAll(p, s, log[n..m]), Truth(p, log, n), Truth(p, log, m);
    TruthMinted(p, log, shape, columns, m);
    assert log[..m] == log[..n] + log[n..m];
    BatchesSplit(p, EMPTY, log[..n], log[n..m]);
    AllGrow(p, s, log[n..m]);
    AllGrow(p, was, log[n..m]);
    ShapedDeclares(p, log, shape, columns);
    StaysTidy(p, columns, s, log[n..m], log);
    hide Shaped, Among, ApplyAll, Truth;
    forall table, k | (table, k) in s'.keys && table !in stale ensures (table, k) in truth.keys {
      if (table, k) !in s.keys {
        var c :| Writes(p, s', c, table, k);
        assert c in columns && Cell(s', c, k) == Cell(truth, c, k);
        assert (c, k) in truth.cells;
      }
    }
    assert forall c, k :: c in columns ==> Cell(s', c, k) == Cell(truth, c, k);
  }
}
