/** Following the log in batches and bringing a column that a deploy left behind up to it
    (`src/fold_runtime.rs`). Each method is one transaction. */
module FoldRuntime {
  import opened Options
  import opened KeyOrder
  import opened FoldTables
  import opened FoldCells
  import opened FoldSink

  /** An arm names keys of its table's length, and pins as many parts as its main table has. */
  ghost predicate ArmKeyed(p: Program, arm: Arm) {
    match arm.target
    case Exact(key) => |key| == p.arity(arm.column.table)
    case Range(parts) => |parts| == p.arity(arm.column.table)
  }

  ghost predicate ProgramKeyed(p: Program) {
    Layout(p) && forall r, arm :: arm in p.arms(r) ==> ArmKeyed(p, arm)
  }

  /** The writer's other columns, untouched by a replay. */
  twostate predicate OthersKept(w: ColumnWriter)
    reads w, w.store
  {
    && (w.replay.Some? <==> old(w.replay).Some?)
    && (w.replay.Some? ==> w.replay.value.only == old(w.replay.value.only))
    && forall c, k :: w.replay.Some? && c !in w.replay.value.only ==> w.Held(c, k) == old(w.Held(c, k))
  }

  /** What one arm does at one key. */
  method ApplyAtKey(w: ColumnWriter, arm: Arm, k: Key)
    requires w.Valid() && |k| == w.p.arity(arm.column.table)
    modifies w, w.store`rows, w.store`cells
    ensures w.Valid() && w.view == ApplyAt(w.p, old(w.view), arm, k) && OthersKept(w)
  {
    var at := arm.lookups(k);
    var values: seq<Value> := [];
    for i := 0 to |at|
      modifies {}
      invariant |values| == i
      invariant forall j :: 0 <= j < i ==> values[j] == Get(w.p, w.view, at[j].0, at[j].1)
      invariant w.Valid()
    {
      var value := w.Read(at[i].0, at[i].1);
      values := values + [value];
    }
    assert values == Looked(w.p, w.view, at);
    var value := w.Read(arm.column, k);
    w.Set(arm.column, k, arm.update(k, value, values));
  }

  /** The keys an arm writes, read off the writer. */
  method KeysFor(w: ColumnWriter, arm: Arm) returns (keys: seq<Key>)
    requires w.Valid() && ArmKeyed(w.p, arm)
    ensures keys == ArmKeys(w.p, w.view, arm)
    ensures forall k :: k in keys ==> |k| == w.p.arity(arm.column.table)
  {
    match arm.target
    case Exact(key) => keys := [key];
    case Range(parts) =>
      keys := w.Keys(arm.column.table, parts);
      InOrderHolds(KeysOf(w.view, w.p.main(arm.column.table)));
      MatchingHolds(InOrder(KeysOf(w.view, w.p.main(arm.column.table))), parts);
  }

  method ApplyOneArm(w: ColumnWriter, arm: Arm)
    requires w.Valid() && ArmKeyed(w.p, arm)
    modifies w, w.store`rows, w.store`cells
    ensures w.Valid() && w.view == ApplyArm(w.p, old(w.view), arm) && OthersKept(w)
  {
    hide ColumnWriter.Valid, ColumnWriter.Held, ApplyAt;
    var keys := KeysFor(w, arm);
    for i := 0 to |keys|
      invariant w.Valid() && OthersKept(w)
      invariant ApplyKeys(w.p, old(w.view), arm, keys) == ApplyKeys(w.p, w.view, arm, keys[i..])
    {
      assert keys[i..][1..] == keys[i + 1..];
      ApplyAtKey(w, arm, keys[i]);
    }
  }

  method ApplyRecord(w: ColumnWriter, arms: seq<Arm>)
    requires w.Valid() && forall arm :: arm in arms ==> ArmKeyed(w.p, arm)
    modifies w, w.store`rows, w.store`cells
    ensures w.Valid() && w.view == ApplyArms(w.p, old(w.view), arms) && OthersKept(w)
  {
    for i := 0 to |arms|
      invariant w.Valid() && OthersKept(w)
      invariant ApplyArms(w.p, old(w.view), arms) == ApplyArms(w.p, w.view, arms[i..])
    {
      assert arms[i..][1..] == arms[i + 1..];
      ApplyOneArm(w, arms[i]);
    }
  }

  /** Apply one batch of records, then move the checkpoint, in one transaction: every cell is left as the
      fold of the batch's updates into what it held. Only a column that was caught up advances. */
  method ApplyBatch(store: FoldStore, p: Program, columns: set<Column>, records: seq<Record>, head: nat)
    requires ProgramKeyed(p) && Keyed(p, store.rows)
    modifies store
    ensures store.View(p) == ApplyAll(p, old(store.View(p)), records) && Keyed(p, store.rows)
    ensures forall c, k ::
      Cell(store.View(p), c, k) == Told(p, old(store.cells), Touches(p, old(store.View(p)), [], records), c, k)
    ensures store.checkpoint == head
    ensures store.builtTo == Advanced(old(store.builtTo), columns, old(store.checkpoint), head)
  {
    var writer := new ColumnWriter.Following(store, p);
    ghost var was := store.View(p);
    for i := 0 to |records|
      invariant writer.Valid() && writer.store == store && writer.p == p && writer.replay == None
      invariant ApplyAll(p, was, records) == ApplyAll(p, writer.view, records[i..])
      invariant store.builtTo == old(store.builtTo) && store.checkpoint == old(store.checkpoint)
      invariant fresh(writer)
    {
      assert records[i..][1..] == records[i + 1..];
      ApplyRecord(writer, p.arms(records[i]));
    }
    writer.Flush();
    FlushedView(writer);
    store.builtTo := Advanced(store.builtTo, columns, store.checkpoint, head);
    store.checkpoint := head;
    CellsAccumulate(p, was, records);
  }

  /** What a flushed writer showed is what its store holds. */
  lemma FlushedView(w: ColumnWriter)
    requires w.Valid() && w.replay == None && w.pending == map[]
    ensures w.view == w.store.View(w.p)
  {
    forall at: (Column, Key)
      ensures at in w.view.cells <==> at in w.store.cells
      ensures at in w.view.cells ==> w.view.cells[at] == w.store.cells[at]
    {
      assert at == (at.0, at.1) && w.Seen(at.0, at.1) == w.Held(at.0, at.1);
    }
    assert w.view.cells == w.store.cells;
    forall table, k ensures (table, k) in w.view.keys <==> (table, k) in w.store.View(w.p).keys {
      assert w.HasKey(table, k) <==> (table, k) in w.view.keys;
    }
  }

  function Advanced(builtTo: map<Column, nat>, columns: set<Column>, was: nat, head: nat): (after: map<Column, nat>)
    ensures after.Keys == builtTo.Keys
    ensures forall c :: c in builtTo ==> after[c] == if c in columns && builtTo[c] >= was then head else builtTo[c]
  {
    map c | c in builtTo :: if c in columns && builtTo[c] >= was then head else builtTo[c]
  }

  /** A batch catches no column up: one that was behind stays behind, and no other falls behind. */
  lemma BehindStays(builtTo: map<Column, nat>, columns: set<Column>, was: nat, head: nat, c: Column)
    requires c in builtTo && c in columns && was <= head
    ensures Advanced(builtTo, columns, was, head)[c] < head <==> builtTo[c] < was
  {
  }

  /** Replay records into a closure of the columns. */
  method ReplayRecords(w: ColumnWriter, rebuild: Program, records: seq<Record>, closure: set<Column>)
    requires w.Valid() && ProgramKeyed(w.p) && rebuild == Only(w.p, closure)
    modifies w, w.store`rows, w.store`cells
    ensures w.Valid() && w.view == ApplyAll(rebuild, old(w.view), records) && OthersKept(w)
  {
    for i := 0 to |records|
      invariant w.Valid() && OthersKept(w)
      invariant ApplyAll(rebuild, old(w.view), records) == ApplyAll(rebuild, w.view, records[i..])
    {
      assert records[i..][1..] == records[i + 1..];
      KeptKeyed(w.p, w.p.arms(records[i]), closure);
      SameArms(w.p, rebuild, w.view, rebuild.arms(records[i]));
      ApplyRecord(w, rebuild.arms(records[i]));
    }
  }

  /** Bring every column that is behind the checkpoint up to it: put it back to its seed and replay the
      log into it, with what it needs beside it kept out of the store. */
  method Backfill(store: FoldStore, p: Program, columns: set<Column>, log: seq<Record>, closure: set<Column>)
    requires ProgramKeyed(p) && Keyed(p, store.rows) && store.checkpoint <= |log|
    requires Closed(p, log[..store.checkpoint], closure) && store.Behind() * columns <= closure
    modifies store
    ensures Keyed(p, store.rows) && store.checkpoint == old(store.checkpoint)
    ensures forall c, k :: c in old(store.Behind()) * columns ==>
      Cell(store.View(p), c, k) == Cell(ApplyAll(p, EMPTY, log[..store.checkpoint]), c, k)
    ensures Rebuilt(p, log[..store.checkpoint], old(store.Behind()) * columns, store.View(p))
    ensures RowsFit(p, old(store.Behind()) * columns, ApplyAll(p, EMPTY, log[..store.checkpoint]), old(store.rows),
      store.rows)
    ensures forall c, k :: c !in old(store.Behind()) * columns ==>
      ((c, k) in store.cells <==> (c, k) in old(store.cells))
      && ((c, k) in store.cells ==> store.cells[(c, k)] == old(store.cells)[(c, k)])
    ensures store.builtTo.Keys == old(store.builtTo).Keys
    ensures forall c :: c in store.builtTo ==>
      store.builtTo[c] == if c in old(store.Behind()) * columns then store.checkpoint else old(store.builtTo)[c]
  {
    var behind := store.Behind() * columns;
    RebuiltNone(p, log[..store.checkpoint], store.View(p));
    if behind == {} {
      return;
    }
    Reset(store, behind);
    var rebuild := Only(p, closure);
    var writer := new ColumnWriter.Replaying(store, p, behind);
    var records := log[..store.checkpoint];
    ghost var before := store.cells;
    ReplayRecords(writer, rebuild, records, closure);
    writer.Flush();
    forall c, k | c in behind
      ensures Cell(writer.view, c, k) == Cell(ApplyAll(p, EMPTY, records), c, k)
      ensures Cell(store.View(p), c, k) == Cell(writer.view, c, k)
    {
      assert writer.Seen(c, k) == writer.Held(c, k);
      ReplayFollows(p, records, closure, c, k);
    }
    RowsFitSame(p, behind, writer.view, ApplyAll(p, EMPTY, records), old(store.rows), store.rows);
    forall c, k | c !in behind
      ensures (c, k) in store.cells <==> (c, k) in old(store.cells)
      ensures (c, k) in store.cells ==> store.cells[(c, k)] == old(store.cells)[(c, k)]
    {
      assert writer.Held(c, k) == if (c, k) in before then Some(before[(c, k)]) else None;
    }
    store.builtTo := map c | c in store.builtTo :: if c in behind then store.checkpoint else store.builtTo[c];
    RebuiltTold(p, records, behind, store.View(p));
  }

  /** Every cell of these columns is the fold of the log's updates, from its seed. */
  ghost predicate Rebuilt(p: Program, records: seq<Record>, columns: set<Column>, view: State) {
    forall c, k :: c in columns ==> Cell(view, c, k) == Told(p, map[], Touches(p, EMPTY, [], records), c, k)
  }

  lemma RebuiltNone(p: Program, records: seq<Record>, view: State)
    ensures Rebuilt(p, records, {}, view)
  {
  }

  /** What agrees with following a log holds the fold of its updates. */
  lemma RebuiltTold(p: Program, records: seq<Record>, behind: set<Column>, view: State)
    requires forall c, k :: c in behind ==> Cell(view, c, k) == Cell(ApplyAll(p, EMPTY, records), c, k)
    ensures Rebuilt(p, records, behind, view)
  {
    CellsAccumulate(p, EMPTY, records);
    hide Cell, Told, Touches, ApplyAll;
  }

  /** Only which cells were written matters to the rows. */
  lemma RowsFitSame(p: Program, only: set<Column>, s: State, t: State, before: set<(string, Key)>,
                    rows: set<(string, Key)>)
    requires RowsFit(p, only, s, before, rows) && forall c, k :: c in only ==> Cell(s, c, k) == Cell(t, c, k)
    ensures RowsFit(p, only, t, before, rows)
  {
    forall c, table, k | c in only ensures Writes(p, s, c, table, k) <==> Writes(p, t, c, table, k) {
      assert Cell(s, c, k) == Cell(t, c, k);
    }
  }

  method Reset(store: FoldStore, behind: set<Column>)
    modifies store`cells
    ensures forall c, k :: (c, k) in store.cells <==> (c, k) in old(store.cells) && c !in behind
    ensures forall c, k :: (c, k) in store.cells ==> store.cells[(c, k)] == old(store.cells)[(c, k)]
  {
    var rest := behind;
    while rest != {}
      invariant rest <= behind
      invariant forall c, k :: (c, k) in store.cells <==> (c, k) in old(store.cells) && c !in behind - rest
      invariant forall c, k :: (c, k) in store.cells ==> store.cells[(c, k)] == old(store.cells)[(c, k)]
    {
      var c :| c in rest;
      store.ResetColumn(c);
      rest := rest - {c};
    }
  }

  lemma {:induction false} KeptKeyed(p: Program, arms: seq<Arm>, closure: set<Column>)
    requires forall arm :: arm in arms ==> ArmKeyed(p, arm)
    ensures forall arm :: arm in Kept(arms, closure) ==> ArmKeyed(p, arm)
    decreases |arms|
  {
    if arms != [] {
      assert arms[0] in arms && forall arm :: arm in arms[1..] ==> arm in arms;
      KeptKeyed(p, arms[1..], closure);
    }
  }

  /** Two batches advance exactly the columns one batch of both would, and leave the cells it would:
      where a batch ends shows nowhere. */
  lemma SplitBatches(p: Program, s: State, a: seq<Record>, b: seq<Record>, builtTo: map<Column, nat>,
                     columns: set<Column>, was: nat, middle: nat, head: nat)
    requires was <= middle <= head
    ensures ApplyAll(p, ApplyAll(p, s, a), b) == ApplyAll(p, s, a + b)
    ensures Advanced(Advanced(builtTo, columns, was, middle), columns, middle, head)
      == Advanced(builtTo, columns, was, head)
  {
    BatchesSplit(p, s, a, b);
  }
}
