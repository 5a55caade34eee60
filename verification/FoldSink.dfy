/** The store of the derived tables and the writer in front of it: a buffer flushed at any point, a
    replay whose other columns stay in memory, and what both are proved against: immediate writes
    (`src/fold_sink.rs`, `src/fold_store.rs`, `src/fold_runtime.rs`). */
module FoldSink {
  import opened Options
  import opened KeyOrder
  import opened FoldTables

  /** One row's cells, by column, as cells of the store. */
  function RowCells(table: string, key: Key, row: map<string, Value>): map<(Column, Key), Value> {
    map name | name in row :: (Column(table, name), key) := row[name]
  }

  /** Keys have as many parts as their table says, and a side table's key is its main table's. */
  ghost predicate Layout(p: Program) {
    forall table :: p.main(p.main(table)) == p.main(table) && p.arity(p.main(table)) == p.arity(table)
  }

  ghost predicate Keyed(p: Program, rows: set<(string, Key)>) {
    forall at :: at in rows ==> |at.1| == p.arity(at.0)
  }

  lemma KeyedWith(p: Program, rows: set<(string, Key)>, table: string, k: Key)
    requires Layout(p) && Keyed(p, rows) && |k| == p.arity(table)
    ensures Keyed(p, rows + {(table, k)}) && Keyed(p, rows + {(p.main(table), k)})
  {
  }

  /** Beside the rows of `before`, the main tables have a row for each key a column of `only` was
      written under, and for no other. */
  ghost predicate RowsFit(p: Program, only: set<Column>, view: State, before: set<(string, Key)>,
                          rows: set<(string, Key)>) {
    forall table, k :: p.main(table) == table ==>
      ((table, k) in rows <==> (table, k) in before || exists c :: c in only && Writes(p, view, c, table, k))
  }

  lemma RowsFitPut(p: Program, only: set<Column>, view: State, before: set<(string, Key)>, rows: set<(string, Key)>,
                   more: set<(string, Key)>, c: Column, k: Key, v: Value)
    requires Layout(p) && RowsFit(p, only, view, before, rows) && c in only
    requires more == rows + {(c.table, k)} + if p.main(c.table) == c.table then {} else {(p.main(c.table), k)}
    ensures RowsFit(p, only, Put(p, view, c, k, v), before, more)
  {
    var after := Put(p, view, c, k, v);
    forall table, at | p.main(table) == table
      ensures (table, at) in more <==>
        (table, at) in before || exists other :: other in only && Writes(p, after, other, table, at)
    {
      if other :| other in only && Writes(p, view, other, table, at) { assert Writes(p, after, other, table, at); }
      if table == p.main(c.table) && at == k { assert Writes(p, after, c, table, at); }
      if other :| other in only && Writes(p, after, other, table, at) {
        assert (other == c && at == k) || Writes(p, view, other, table, at);
      }
    }
  }

  lemma RowsFitAside(p: Program, only: set<Column>, view: State, before: set<(string, Key)>, rows: set<(string, Key)>,
                     c: Column, k: Key, v: Value)
    requires RowsFit(p, only, view, before, rows) && c !in only
    ensures RowsFit(p, only, Put(p, view, c, k, v), before, rows)
  {
    var after := Put(p, view, c, k, v);
    assert forall other, table, at :: other in only ==>
      (Writes(p, after, other, table, at) <==> Writes(p, view, other, table, at));
  }

  class FoldStore {
    var rows: set<(string, Key)>
    var cells: map<(Column, Key), Value>
    var builtTo: map<Column, nat>
    var checkpoint: nat

    constructor ()
      ensures rows == {} && cells == map[] && builtTo == map[] && checkpoint == 0
    {
      rows, cells, builtTo, checkpoint := {}, map[], map[], 0;
    }

    /** What the store holds: its cells, and the keys of its main tables. */
    ghost function View(p: Program): State
      reads this
    {
      State(cells, set at | at in rows && p.main(at.0) == at.0)
    }

    method EnsureRow(table: string, key: Key)
      modifies this`rows
      ensures rows == old(rows) + {(table, key)}
    {
      rows := rows + {(table, key)};
    }

    method WriteRow(table: string, key: Key, row: map<string, Value>)
      modifies this`rows, this`cells
      ensures rows == old(rows) + {(table, key)} && cells == old(cells) + RowCells(table, key, row)
    {
      rows := rows + {(table, key)};
      cells := cells + RowCells(table, key, row);
    }

    /** Put a column back to its seed at every key. */
    method ResetColumn(column: Column)
      modifies this`cells
      ensures cells == map at | at in old(cells) && at.0 != column :: old(cells)[at]
    {
      cells := map at | at in cells && at.0 != column :: cells[at];
    }

    method KeysPinned(table: string, parts: seq<Option<Text>>) returns (found: set<Key>)
      ensures forall k :: k in found <==> (table, k) in rows && Matches(parts, k)
    {
      found := set at | at in rows && at.0 == table && Matches(parts, at.1) :: at.1;
    }

    /** The columns that have not caught up with the checkpoint. */
    function Behind(): (columns: set<Column>)
      reads this
      ensures forall c :: c in columns <==> c in builtTo && builtTo[c] < checkpoint
    {
      set c | c in builtTo && builtTo[c] < checkpoint
    }
  }

  /** What a backfill replays the log under. */
  datatype Replay = Replay(
    only: set<Column>,                        // the columns being rebuilt
    minted: map<string, set<Key>>,            // every key written so far, per main table
    overlay: map<Column, map<Key, Value>>)    // the other columns, for the length of the replay

  const FLUSH_ROWS: nat := 10_000

  class ColumnWriter {
    const store: FoldStore
    const p: Program
    var replay: Option<Replay>
    var pending: map<(string, Key), map<string, Value>>
    var ensured: set<(string, Key)>
    ghost var view: State
    ghost const before: set<(string, Key)>   // the rows the store began with

    /** The cell a flush would leave in the store. */
    function Held(c: Column, k: Key): Option<Value>
      reads this`pending, store`cells
    {
      if (c.table, k) in pending && c.name in pending[(c.table, k)] then Some(pending[(c.table, k)][c.name])
      else if (c, k) in store.cells then Some(store.cells[(c, k)])
      else None
    }

    /** The cell an arm reads: the store's, but for the columns a replay keeps to itself. */
    function Seen(c: Column, k: Key): Option<Value>
      reads this`replay, this`pending, store`cells
    {
      if replay.Some? && c !in replay.value.only then
        if c in replay.value.overlay && k in replay.value.overlay[c] then Some(replay.value.overlay[c][k]) else None
      else Held(c, k)
    }

    predicate HasKey(table: string, k: Key)
      reads this`replay, this`pending, store`rows
    {
      if replay.Some? then table in replay.value.minted && k in replay.value.minted[table]
      else p.main(table) == table && ((table, k) in store.rows || (table, k) in pending)
    }

    ghost predicate Shows()
      reads this, store
    {
      && (forall c, k :: Seen(c, k) == if (c, k) in view.cells then Some(view.cells[(c, k)]) else None)
      && (forall table, k :: HasKey(table, k) <==> (table, k) in view.keys)
    }

    /** What a replay has given rows to: the keys of the columns it rebuilds, and no others. */
    ghost predicate Rowed()
      reads this`replay, this`pending, this`view, store`rows
    {
      replay.Some? ==> RowsFit(p, replay.value.only, view, before, store.rows + pending.Keys)
    }

    ghost predicate Valid()
      reads this, store
    {
      Sound() && Rowed()
    }

    ghost predicate Sound()
      reads this, store
    {
      && Shows() && Layout(p) && Keyed(p, store.rows) && Keyed(p, pending.Keys) && ensured <= store.rows
      && Keyed(p, view.keys)
    }

    constructor Following(store: FoldStore, p: Program)
      requires Layout(p) && Keyed(p, store.rows)
      ensures Valid() && this.store == store && this.p == p && replay == None && view == store.View(p)
      ensures pending == map[]
    {
      this.store, this.p, this.replay := store, p, None;
      this.pending, this.ensured := map[], {};
      this.view := store.View(p);
      this.before := store.rows;
    }

    /** A replay starts from nothing: the columns it rebuilds are at their seeds. */
    constructor Replaying(store: FoldStore, p: Program, only: set<Column>)
      requires Layout(p) && Keyed(p, store.rows)
      requires forall c, k :: c in only ==> (c, k) !in store.cells
      ensures Valid() && this.store == store && this.p == p && view == EMPTY
      ensures replay.Some? && replay.value.only == only && pending == map[] && before == store.rows
    {
      this.store, this.p, this.replay := store, p, Some(Replay(only, map[], map[]));
      this.pending, this.ensured := map[], {};
      this.view := EMPTY;
      this.before := store.rows;
    }

    function Stored(c: Column, k: Key): Option<Value>
      reads this, store
    {
      if (c, k) in store.cells then Some(store.cells[(c, k)]) else None
    }

    /** Every pending row in the store, one write each. */
    method WriteRows()
      modifies store`rows, store`cells
      ensures forall c, k :: Stored(c, k) == old(Held(c, k))
      ensures store.rows == old(store.rows) + pending.Keys
    {
      var rest := pending.Keys;
      while rest != {}
        invariant rest <= pending.Keys
        invariant forall c: Column, k: Key ::
          Stored(c, k) == if (c.table, k) in rest then old(Stored(c, k)) else old(Held(c, k))
        invariant store.rows == old(store.rows) + (pending.Keys - rest)
      {
        var at :| at in rest;
        store.WriteRow(at.0, at.1, pending[at]);
        rest := rest - {at};
      }
    }

    /** Write every pending row and empty the buffer. What an arm can see does not change. */
    method Flush()
      requires Valid()
      modifies this`pending, store`rows, store`cells
      ensures Valid() && pending == map[] && view == old(view)
      ensures forall c, k :: Held(c, k) == old(Held(c, k))
      ensures store.rows == old(store.rows) + old(pending).Keys
    {
      WriteRows();
      pending := map[];
    }

    method Read(c: Column, k: Key) returns (value: Value)
      requires Valid()
      ensures value == Get(p, view, c, k)
    {
      var seen := Seen(c, k);
      value := if seen.Some? then seen.value else p.seed(c);
    }

    method PutOverlay(c: Column, k: Key, value: Value)
      requires replay.Some? && c !in replay.value.only
      modifies this`replay
      ensures replay.Some? && replay.value.only == old(replay.value.only)
      ensures forall other, at :: Seen(other, at) == if other == c && at == k then Some(value) else old(Seen(other, at))
      ensures forall table, at :: HasKey(table, at) <==> old(HasKey(table, at)) || (table == p.main(c.table) && at == k)
    {
      var r := replay.value;
      var main := p.main(c.table);
      var minted := if main in r.minted then r.minted[main] else {};
      var over := if c in r.overlay then r.overlay[c] else map[];
      replay := Some(Replay(r.only, r.minted[main := minted + {k}], r.overlay[c := over[k := value]]));
    }

    /** A write during a replay to a column that is not being rebuilt: it never reaches the store. */
    method SetAside(c: Column, k: Key, value: Value)
      requires Sound() && |k| == p.arity(c.table) && replay.Some? && c !in replay.value.only
      modifies this`replay, this`view
      ensures Sound() && view == Put(p, old(view), c, k, value)
      ensures replay.Some? && replay.value.only == old(replay.value.only)
    {
      PutOverlay(c, k, value);
      hide Seen, HasKey;
      view := Put(p, view, c, k, value);
    }

    /** Note a key of the replay as minted. */
    method NoteMinted(main: string, k: Key)
      requires Sound() && replay.Some? && |k| == p.arity(main)
      modifies this`replay, this`view
      ensures Sound() && view == State(old(view).cells, old(view).keys + {(main, k)})
      ensures replay.Some? && replay.value.only == old(replay.value.only)
    {
      var r := replay.value;
      var minted := if main in r.minted then r.minted[main] else {};
      replay := Some(r.(minted := r.minted[main := minted + {k}]));
      view := State(view.cells, view.keys + {(main, k)});
    }

    /** Make sure the main table has a row for a key written beside it. */
    method EnsureMain(main: string, k: Key)
      requires Sound() && p.main(main) == main && |k| == p.arity(main)
      modifies this`ensured, this`view, store`rows
      ensures Sound()
      ensures view == State(old(view).cells, if replay.Some? then old(view).keys else old(view).keys + {(main, k)})
      ensures store.rows == old(store.rows) + {(main, k)}
      ensures forall c, at :: Held(c, at) == old(Held(c, at))
    {
      if (main, k) !in ensured {
        ensured := ensured + {(main, k)};
        store.EnsureRow(main, k);
      }
      if replay.None? {
        view := State(view.cells, view.keys + {(main, k)});
      }
    }

    method Mint(c: Column, k: Key)
      requires Sound() && |k| == p.arity(c.table)
      modifies this`replay, this`ensured, this`view, store`rows
      ensures Sound()
      ensures store.rows == old(store.rows) + if p.main(c.table) == c.table then {} else {(p.main(c.table), k)}
      ensures view == State(old(view).cells,
        old(view).keys + if replay.None? && p.main(c.table) == c.table then {} else {(p.main(c.table), k)})
      ensures replay.Some? <==> old(replay).Some?
      ensures replay.Some? ==> replay.value.only == old(replay.value.only)
      ensures forall c, k :: Held(c, k) == old(Held(c, k))
    {
      var main := p.main(c.table);
      if replay.Some? {
        NoteMinted(main, k);
      }
      hide Shows, Seen, HasKey, Keyed;
      if main != c.table {
        EnsureMain(main, k);
      }
    }

    method PutPending(c: Column, k: Key, value: Value)
      requires replay.Some? ==> c in replay.value.only
      requires HasKey(p.main(c.table), k) || (replay.None? && p.main(c.table) == c.table)
      modifies this`pending
      ensures pending.Keys == old(pending).Keys + {(c.table, k)}
      ensures forall other, at :: other != c ==> Held(other, at) == old(Held(other, at))
      ensures forall other, at :: Seen(other, at) == if other == c && at == k then Some(value) else old(Seen(other, at))
      ensures forall table, at :: HasKey(table, at) <==> old(HasKey(table, at)) || (table == p.main(c.table) && at == k)
    {
      var row := if (c.table, k) in pending then pending[(c.table, k)] else map[];
      pending := pending[(c.table, k) := row[c.name := value]];
      assert forall other, at :: Held(other, at) == if other == c && at == k then Some(value) else old(Held(other, at));
    }

    /** A cell into the buffer, its key already minted unless its row is one of the main table. */
    method Buffer(c: Column, k: Key, value: Value)
      requires Sound() && |k| == p.arity(c.table) && (replay.Some? ==> c in replay.value.only)
      requires (p.main(c.table), k) in view.keys || (replay.None? && p.main(c.table) == c.table)
      modifies this`pending, this`view
      ensures Sound() && view == Put(p, old(view), c, k, value) && pending.Keys == old(pending).Keys + {(c.table, k)}
      ensures forall other, at :: other != c ==> Held(other, at) == old(Held(other, at))
    {
      KeyedWith(p, pending.Keys, c.table, k);
      KeyedWith(p, view.keys, c.table, k);
      assert (p.main(c.table), k) in view.keys ==> HasKey(p.main(c.table), k);
      PutPending(c, k, value);
      hide Held, Seen, HasKey, Layout, Keyed;
      view := Put(p, view, c, k, value);
    }

    method Keep(c: Column, k: Key, value: Value)
      requires Valid() && |k| == p.arity(c.table) && (replay.Some? ==> c in replay.value.only)
      modifies this`replay, this`ensured, this`view, this`pending, store`rows
      ensures Valid() && view == Put(p, old(view), c, k, value)
      ensures replay.Some? <==> old(replay).Some?
      ensures replay.Some? ==> replay.value.only == old(replay.value.only)
      ensures forall other, at :: other != c ==> Held(other, at) == old(Held(other, at))
    {
      ghost var rows := store.rows + pending.Keys;
      hide Shows, Seen, HasKey, Held, Keyed, RowsFit;
      Mint(c, k);
      Buffer(c, k, value);
      assert view == Put(p, old(view), c, k, value);
      if replay.Some? {
        assert store.rows + pending.Keys ==
          rows + {(c.table, k)} + if p.main(c.table) == c.table then {} else {(p.main(c.table), k)};
        RowsFitPut(p, replay.value.only, old(view), before, rows, store.rows + pending.Keys, c, k, value);
      }
    }

    /** Write a cell: into the overlay of a replay that is not rebuilding its column, and otherwise
        into the buffer, which flushes itself when it is full. */
    method Set(c: Column, k: Key, value: Value)
      requires Valid() && |k| == p.arity(c.table)
      modifies this`replay, this`ensured, this`view, this`pending, store`rows, store`cells
      ensures Valid() && view == Put(p, old(view), c, k, value)
      ensures replay.Some? <==> old(replay).Some?
      ensures replay.Some? ==> replay.value.only == old(replay.value.only)
      ensures forall other, at :: replay.Some? && other !in replay.value.only ==>
        Held(other, at) == old(Held(other, at))
    {
      hide Shows, Seen, HasKey, Held, Keyed, Layout, RowsFit;
      if replay.Some? && c !in replay.value.only {
        SetAside(c, k, value);
        RowsFitAside(p, replay.value.only, old(view), before, store.rows + pending.Keys, c, k, value);
        return;
      }
      Keep(c, k, value);
      if |pending| >= FLUSH_ROWS {
        Flush();
      }
    }

    /** The keys of a table's signature that carry every pinned part, in order. */
    method Keys(table: string, parts: seq<Option<Text>>) returns (found: seq<Key>)
      requires Valid() && |parts| == p.arity(table)
      ensures found == Matching(InOrder(KeysOf(view, p.main(table))), parts)
    {
      var over := p.main(table);
      var minted: set<Key>, fromStore: set<Key>;
      if replay.Some? {
        minted := if over in replay.value.minted then replay.value.minted[over] else {};
        fromStore := {};
      } else {
        minted := set at | at in pending && at.0 == over :: at.1;
        fromStore := store.KeysPinned(over, parts);
      }
      var sorted := Sorted(minted);
      InOrderHolds(minted);
      assert forall k :: k in minted ==> HasKey(over, k) && (over, k) in view.keys;
      var matching := MintedMatching(sorted, parts);
      MatchingHolds(sorted, parts);
      var all := fromStore + set i | 0 <= i < |matching| :: matching[i];
      found := Sorted(all);
      KeysInOrder(parts, minted, fromStore, all, KeysOf(view, over));
    }
  }

  /** Filtering a set in order is ordering what it keeps. */
  lemma KeysInOrder(parts: seq<Option<Text>>, minted: set<Key>, fromStore: set<Key>, all: set<Key>, keys: set<Key>)
    requires forall k :: k in all <==> k in fromStore || (k in minted && Matches(parts, k))
    requires forall k :: k in fromStore ==> k in keys && Matches(parts, k)
    requires minted <= keys && forall k :: k in keys && Matches(parts, k) ==> k in fromStore || k in minted
    ensures InOrder(all) == Matching(InOrder(keys), parts)
  {
    InOrderHolds(keys);
    MatchingHolds(InOrder(keys), parts);
    OneOrder(Matching(InOrder(keys), parts), all);
  }
}
