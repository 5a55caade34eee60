/** Derived tables as a function of the log: what the arms of a program do to the cells of its
    columns, record by record, and why replaying a closed part of the columns alone gives the same
    cells (`src/fold_runtime.rs`, `src/fold_sink.rs`). */
module FoldTables {
  import opened Options
  import opened KeyOrder

  type Value = string

  type Record = nat

  datatype Column = Column(table: string, name: string)

  /** The keys one arm writes: the one it names, or every key its table has that carries the pinned parts. */
  datatype Target = Exact(key: Key) | Range(parts: seq<Option<Text>>)

  datatype Arm = Arm(
    column: Column,
    target: Target,
    lookups: Key -> seq<(Column, Key)>,
    update: (Key, Value, seq<Value>) -> Value)

  /** A program as its derived tables see it: the arms of a record in order, each column's seed, the
      main table of each table's key signature, and how many parts its key has. */
  datatype Program = Program(
    arms: Record -> seq<Arm>,
    seed: Column -> Value,
    main: string -> string,
    arity: string -> nat)

  datatype State = State(cells: map<(Column, Key), Value>, keys: set<(string, Key)>)

  const EMPTY := State(map[], {})

  // ----- immediate writes --------------------------------------------------

  function Get(p: Program, s: State, c: Column, k: Key): Value {
    if (c, k) in s.cells then s.cells[(c, k)] else p.seed(c)
  }

  function Cell(s: State, c: Column, k: Key): Option<Value> {
    if (c, k) in s.cells then Some(s.cells[(c, k)]) else None
  }

  /** A write puts its key in the main table whichever table the column is in. */
  function Put(p: Program, s: State, c: Column, k: Key, v: Value): State {
    State(s.cells[(c, k) := v], s.keys + {(p.main(c.table), k)})
  }

  function KeysOf(s: State, table: string): set<Key> {
    set at | at in s.keys && at.0 == table :: at.1
  }

  function Looked(p: Program, s: State, at: seq<(Column, Key)>): (values: seq<Value>)
    ensures |values| == |at| && forall i :: 0 <= i < |at| ==> values[i] == Get(p, s, at[i].0, at[i].1)
  {
    if at == [] then [] else [Get(p, s, at[0].0, at[0].1)] + Looked(p, s, at[1..])
  }

  function ApplyAt(p: Program, s: State, arm: Arm, k: Key): State {
    Put(p, s, arm.column, k, arm.update(k, Get(p, s, arm.column, k), Looked(p, s, arm.lookups(k))))
  }

  function ApplyKeys(p: Program, s: State, arm: Arm, keys: seq<Key>): State
    decreases |keys|
  {
    if keys == [] then s else ApplyKeys(p, ApplyAt(p, s, arm, keys[0]), arm, keys[1..])
  }

  ghost function ArmKeys(p: Program, s: State, arm: Arm): seq<Key> {
    match arm.target
    case Exact(key) => [key]
    case Range(parts) => Matching(InOrder(KeysOf(s, p.main(arm.column.table))), parts)
  }

  ghost function ApplyArm(p: Program, s: State, arm: Arm): State {
    ApplyKeys(p, s, arm, ArmKeys(p, s, arm))
  }

  ghost function ApplyArms(p: Program, s: State, arms: seq<Arm>): State
    decreases |arms|
  {
    if arms == [] then s else ApplyArms(p, ApplyArm(p, s, arms[0]), arms[1..])
  }

  ghost function ApplyAll(p: Program, s: State, records: seq<Record>): State
    decreases |records|
  {
    if records == [] then s else ApplyAll(p, ApplyArms(p, s, p.arms(records[0])), records[1..])
  }

  /** However the records are split into batches, the same cells come out. */
  lemma {:induction false} BatchesSplit(p: Program, s: State, a: seq<Record>, b: seq<Record>)
    ensures ApplyAll(p, s, a + b) == ApplyAll(p, ApplyAll(p, s, a), b)
    decreases |a|
  {
    if a == [] {
      assert a + b == b;
    } else {
      assert (a + b)[1..] == a[1..] + b;
      BatchesSplit(p, ApplyArms(p, s, p.arms(a[0])), a[1..], b);
    }
  }

  // ----- a closed part of the columns --------------------------------------

  ghost predicate HasArm(p: Program, log: seq<Record>, arm: Arm) {
    exists r :: r in log && arm in p.arms(r)
  }

  /** Some column of `closure` ranges over `table`. */
  ghost predicate Ranged(p: Program, log: seq<Record>, closure: set<Column>, table: string) {
    exists arm :: HasArm(p, log, arm) && arm.column in closure && arm.target.Range? && p.main(arm.column.table) == table
  }

  /** What replaying some columns takes with them: every column they look up, and every column that
      mints keys in a table they range over. */
  ghost predicate Closed(p: Program, log: seq<Record>, closure: set<Column>) {
    && (forall arm, k, i :: HasArm(p, log, arm) && arm.column in closure && 0 <= i < |arm.lookups(k)| ==>
          arm.lookups(k)[i].0 in closure)
    && (forall arm :: HasArm(p, log, arm) && arm.target.Exact? && Ranged(p, log, closure, p.main(arm.column.table)) ==>
          arm.column in closure)
  }

  function Kept(arms: seq<Arm>, closure: set<Column>): seq<Arm> {
    if arms == [] then []
    else if arms[0].column in closure then [arms[0]] + Kept(arms[1..], closure)
    else Kept(arms[1..], closure)
  }

  /** The program with only the arms of these columns. */
  function Only(p: Program, closure: set<Column>): Program {
    p.(arms := (r: Record) => Kept(p.arms(r), closure))
  }

  /** Two states agree on the columns of a closure and on the keys they range over. */
  ghost predicate Agree(p: Program, log: seq<Record>, closure: set<Column>, s: State, t: State) {
    && (forall c, k :: c in closure ==> Cell(s, c, k) == Cell(t, c, k))
    && (forall table, k :: Ranged(p, log, closure, table) ==> ((table, k) in s.keys <==> (table, k) in t.keys))
  }

  lemma AgreeKeys(p: Program, log: seq<Record>, closure: set<Column>, s: State, t: State, arm: Arm)
    requires Agree(p, log, closure, s, t) && HasArm(p, log, arm) && arm.column in closure
    ensures ArmKeys(p, s, arm) == ArmKeys(p, t, arm)
  {
    if arm.target.Range? {
      var table := p.main(arm.column.table);
      assert Ranged(p, log, closure, table);
      assert KeysOf(s, table) == KeysOf(t, table) by {
        forall k ensures k in KeysOf(s, table) <==> k in KeysOf(t, table) {
          assert (table, k) in s.keys <==> (table, k) in t.keys;
        }
      }
    }
  }

  lemma AgreePut(p: Program, log: seq<Record>, closure: set<Column>, s: State, t: State, c: Column, k: Key, v: Value)
    requires Agree(p, log, closure, s, t)
    ensures Agree(p, log, closure, Put(p, s, c, k, v), Put(p, t, c, k, v))
  {
    forall other, at | other in closure
      ensures Cell(Put(p, s, c, k, v), other, at) == Cell(Put(p, t, c, k, v), other, at)
    {
      assert Cell(s, other, at) == Cell(t, other, at);
    }
  }

  /** An arm of the closure writes the same cells into both. */
  lemma {:induction false} AgreeApply(p: Program, log: seq<Record>, closure: set<Column>, s: State, t: State,
                                       arm: Arm, keys: seq<Key>)
    requires Closed(p, log, closure) && Agree(p, log, closure, s, t) && HasArm(p, log, arm) && arm.column in closure
    ensures Agree(p, log, closure, ApplyKeys(p, s, arm, keys), ApplyKeys(p, t, arm, keys))
    decreases |keys|
  {
    if keys != [] {
      var k := keys[0];
      forall i | 0 <= i < |arm.lookups(k)|
        ensures Get(p, s, arm.lookups(k)[i].0, arm.lookups(k)[i].1)
          == Get(p, t, arm.lookups(k)[i].0, arm.lookups(k)[i].1)
      {
        assert arm.lookups(k)[i].0 in closure;
        assert Cell(s, arm.lookups(k)[i].0, arm.lookups(k)[i].1) == Cell(t, arm.lookups(k)[i].0, arm.lookups(k)[i].1);
      }
      assert Looked(p, s, arm.lookups(k)) == Looked(p, t, arm.lookups(k));
      assert Cell(s, arm.column, k) == Cell(t, arm.column, k);
      AgreePut(p, log, closure, s, t, arm.column, k,
        arm.update(k, Get(p, s, arm.column, k), Looked(p, s, arm.lookups(k))));
      hide Agree, Closed, HasArm;
      AgreeApply(p, log, closure, ApplyAt(p, s, arm, k), ApplyAt(p, t, arm, k), arm, keys[1..]);
    }
  }

  /** An arm outside the closure touches nothing the closure sees. */
  lemma {:induction false} AgreeOutside(p: Program, log: seq<Record>, closure: set<Column>, s: State, t: State,
                                       arm: Arm, keys: seq<Key>)
    requires Agree(p, log, closure, s, t) && arm.column !in closure
    requires forall k :: k in keys ==> Ranged(p, log, closure, p.main(arm.column.table)) ==>
      (p.main(arm.column.table), k) in s.keys
    ensures Agree(p, log, closure, ApplyKeys(p, s, arm, keys), t)
    decreases |keys|
  {
    if keys != [] {
      assert keys[0] in keys && forall k :: k in keys[1..] ==> k in keys;
      AgreeOutside(p, log, closure, ApplyAt(p, s, arm, keys[0]), t, arm, keys[1..]);
    }
  }

  lemma {:induction false} AgreeArms(p: Program, log: seq<Record>, closure: set<Column>, s: State, t: State,
                                     arms: seq<Arm>)
    requires Closed(p, log, closure) && Agree(p, log, closure, s, t)
    requires forall arm :: arm in arms ==> HasArm(p, log, arm)
    ensures Agree(p, log, closure, ApplyArms(p, s, arms), ApplyArms(p, t, Kept(arms, closure)))
    decreases |arms|
  {
    if arms != [] {
      var arm := arms[0];
      assert arm in arms && forall other :: other in arms[1..] ==> other in arms;
      var s' := ApplyArm(p, s, arm);
      if arm.column in closure {
        AgreeKeys(p, log, closure, s, t, arm);
        AgreeApply(p, log, closure, s, t, arm, ArmKeys(p, s, arm));
        AgreeArms(p, log, closure, s', ApplyArm(p, t, arm), arms[1..]);
        assert Kept(arms, closure)[1..] == Kept(arms[1..], closure);
      } else {
        OutsideKeys(p, log, closure, s, arm);
        AgreeOutside(p, log, closure, s, t, arm, ArmKeys(p, s, arm));
        AgreeArms(p, log, closure, s', t, arms[1..]);
      }
    }
  }

  lemma OutsideKeys(p: Program, log: seq<Record>, closure: set<Column>, s: State, arm: Arm)
    requires Closed(p, log, closure) && HasArm(p, log, arm) && arm.column !in closure
    ensures forall k :: k in ArmKeys(p, s, arm) && Ranged(p, log, closure, p.main(arm.column.table)) ==>
      (p.main(arm.column.table), k) in s.keys
  {
    if arm.target.Range? {
      InOrderHolds(KeysOf(s, p.main(arm.column.table)));
      MatchingHolds(InOrder(KeysOf(s, p.main(arm.column.table))), arm.target.parts);
    }
  }

  /** Applying an arm does not look at the arms of the program. */
  lemma {:induction false} SameArms(p: Program, q: Program, s: State, arms: seq<Arm>)
    requires q == p.(arms := q.arms)
    ensures ApplyArms(p, s, arms) == ApplyArms(q, s, arms)
    decreases |arms|
  {
    if arms != [] {
      assert ArmKeys(p, s, arms[0]) == ArmKeys(q, s, arms[0]);
      SameKeys(p, q, s, arms[0], ArmKeys(p, s, arms[0]));
      SameArms(p, q, ApplyArm(p, s, arms[0]), arms[1..]);
    }
  }

  lemma {:induction false} SameKeys(p: Program, q: Program, s: State, arm: Arm, keys: seq<Key>)
    requires q == p.(arms := q.arms)
    ensures ApplyKeys(p, s, arm, keys) == ApplyKeys(q, s, arm, keys)
    decreases |keys|
  {
    if keys != [] {
      var k := keys[0];
      SameLooks(p, q, s, arm.lookups(k));
      assert ApplyAt(p, s, arm, k) == ApplyAt(q, s, arm, k);
      SameKeys(p, q, ApplyAt(p, s, arm, k), arm, keys[1..]);
    }
  }

  lemma SameLooks(p: Program, q: Program, s: State, at: seq<(Column, Key)>)
    requires q == p.(arms := q.arms)
    ensures Looked(p, s, at) == Looked(q, s, at)
  {
  }

  lemma {:induction false} AgreeAll(p: Program, log: seq<Record>, closure: set<Column>, s: State, t: State,
                                    records: seq<Record>)
    requires Closed(p, log, closure) && Agree(p, log, closure, s, t) && forall r :: r in records ==> r in log
    ensures Agree(p, log, closure, ApplyAll(p, s, records), ApplyAll(Only(p, closure), t, records))
    decreases |records|
  {
    if records != [] {
      var r := records[0];
      var q := Only(p, closure);
      assert r in records && forall other :: other in records[1..] ==> other in records;
      assert forall arm :: arm in p.arms(r) ==> HasArm(p, log, arm);
      AgreeArms(p, log, closure, s, t, p.arms(r));
      SameArms(p, q, t, q.arms(r));
      hide Agree, Closed;
      AgreeAll(p, log, closure, ApplyArms(p, s, p.arms(r)), ApplyArms(q, t, q.arms(r)), records[1..]);
    }
  }

  /** Replaying a closure of columns from nothing gives every one of them, at every key, what
      following the whole program from the start of the log gives it: ranges reach only keys minted
      before their record, and lookups see values as of it. */
  lemma ReplayFollows(p: Program, log: seq<Record>, closure: set<Column>, c: Column, k: Key)
    requires Closed(p, log, closure) && c in closure
    ensures Cell(ApplyAll(Only(p, closure), EMPTY, log), c, k) == Cell(ApplyAll(p, EMPTY, log), c, k)
    ensures Get(p, ApplyAll(Only(p, closure), EMPTY, log), c, k) == Get(p, ApplyAll(p, EMPTY, log), c, k)
  {
    AgreeAll(p, log, closure, EMPTY, EMPTY, log);
    assert Cell(ApplyAll(Only(p, closure), EMPTY, log), c, k) == Cell(ApplyAll(p, EMPTY, log), c, k);
  }

  // ----- the keys a log mints ----------------------------------------------

  /** Every arm of the log writes and looks up columns of `columns` only. */
  ghost predicate Declares(p: Program, log: seq<Record>, columns: set<Column>) {
    forall arm :: HasArm(p, log, arm) ==>
      arm.column in columns && forall k, i :: 0 <= i < |arm.lookups(k)| ==> arm.lookups(k)[i].0 in columns
  }

  predicate Writes(p: Program, s: State, c: Column, table: string, k: Key) {
    p.main(c.table) == table && (c, k) in s.cells
  }

  /** Columns of a program and what their arms do: which name exact keys, which range, and which other
      columns each looks up. */
  datatype Shape = Shape(exact: set<Column>, ranging: set<Column>, looks: set<(Column, Column)>)

  ghost predicate Fits(arm: Arm, shape: Shape) {
    && (if arm.target.Exact? then arm.column in shape.exact else arm.column in shape.ranging)
    && forall k, i :: 0 <= i < |arm.lookups(k)| ==> (arm.column, arm.lookups(k)[i].0) in shape.looks
  }

  /** No arm of the program does what its shape does not say. */
  ghost predicate Shaped(p: Program, shape: Shape) {
    forall r, arm :: arm in p.arms(r) ==> Fits(arm, shape)
  }

  predicate Among(shape: Shape, columns: set<Column>) {
    && shape.exact + shape.ranging <= columns
    && forall pair :: pair in shape.looks ==> pair.0 in columns && pair.1 in columns
  }

  lemma ShapedDeclares(p: Program, log: seq<Record>, shape: Shape, columns: set<Column>)
    requires Shaped(p, shape) && Among(shape, columns)
    ensures Declares(p, log, columns)
  {
    forall arm | HasArm(p, log, arm)
      ensures arm.column in columns && forall k, i :: 0 <= i < |arm.lookups(k)| ==> arm.lookups(k)[i].0 in columns
    {
      assert Fits(arm, shape);
      forall k, i | 0 <= i < |arm.lookups(k)| ensures arm.lookups(k)[i].0 in columns {
        assert (arm.column, arm.lookups(k)[i].0) in shape.looks;
      }
    }
  }

  /** Every cell's key is there, and every key was minted by a column with exact arms that wrote a cell under it. */
  ghost predicate Minted(p: Program, columns: set<Column>, minters: set<Column>, s: State) {
    && (forall c, k :: (c, k) in s.cells ==> c in columns && (p.main(c.table), k) in s.keys)
    && (forall table, k :: (table, k) in s.keys ==> exists c :: c in minters && Writes(p, s, c, table, k))
  }

  lemma PutMints(p: Program, columns: set<Column>, minters: set<Column>, s: State, c: Column, k: Key, v: Value)
    requires Minted(p, columns, minters, s) && c in columns
    requires c in minters || (p.main(c.table), k) in s.keys
    ensures Minted(p, columns, minters, Put(p, s, c, k, v))
  {
    var s' := Put(p, s, c, k, v);
    forall table, at | (table, at) in s'.keys
      ensures exists other :: other in minters && Writes(p, s', other, table, at)
    {
      if (table, at) in s.keys {
        var other :| other in minters && Writes(p, s, other, table, at);
        assert Writes(p, s', other, table, at);
      } else {
        assert Writes(p, s', c, table, at);
      }
    }
  }

  lemma {:induction false} KeysMint(p: Program, columns: set<Column>, minters: set<Column>, s: State, arm: Arm,
                                    keys: seq<Key>)
    requires Minted(p, columns, minters, s) && arm.column in columns
    requires arm.column in minters || forall k :: k in keys ==> (p.main(arm.column.table), k) in s.keys
    ensures Minted(p, columns, minters, ApplyKeys(p, s, arm, keys))
    decreases |keys|
  {
    if keys != [] {
      var k := keys[0];
      assert k in keys && forall at :: at in keys[1..] ==> at in keys;
      PutMints(p, columns, minters, s, arm.column, k,
        arm.update(k, Get(p, s, arm.column, k), Looked(p, s, arm.lookups(k))));
      hide Minted;
      KeysMint(p, columns, minters, ApplyAt(p, s, arm, k), arm, keys[1..]);
    }
  }

  lemma ArmMints(p: Program, columns: set<Column>, minters: set<Column>, s: State, arm: Arm)
    requires Minted(p, columns, minters, s) && arm.column in columns && (arm.target.Exact? ==> arm.column in minters)
    ensures Minted(p, columns, minters, ApplyArm(p, s, arm))
  {
    hide Minted;
    if arm.target.Range? {
      forall k | k in ArmKeys(p, s, arm) ensures (p.main(arm.column.table), k) in s.keys {
        RangeReaches(p, s, arm, k);
      }
    }
    KeysMint(p, columns, minters, s, arm, ArmKeys(p, s, arm));
  }

  lemma {:induction false} ArmsMint(p: Program, columns: set<Column>, minters: set<Column>, s: State, arms: seq<Arm>)
    requires Minted(p, columns, minters, s)
    requires forall arm :: arm in arms ==> arm.column in columns && (arm.target.Exact? ==> arm.column in minters)
    ensures Minted(p, columns, minters, ApplyArms(p, s, arms))
    decreases |arms|
  {
    hide Minted;
    if arms != [] {
      assert arms[0] in arms && forall arm :: arm in arms[1..] ==> arm in arms;
      ArmMints(p, columns, minters, s, arms[0]);
      ArmsMint(p, columns, minters, ApplyArm(p, s, arms[0]), arms[1..]);
    }
  }

  /** Following a log mints exactly the keys its exact arms write under. */
  lemma {:induction false} AllMint(p: Program, shape: Shape, columns: set<Column>, s: State, records: seq<Record>)
    requires Shaped(p, shape) && Among(shape, columns) && Minted(p, columns, shape.exact, s)
    ensures Minted(p, columns, shape.exact, ApplyAll(p, s, records))
    decreases |records|
  {
    if records != [] {
      var r := records[0];
      assert forall arm :: arm in p.arms(r) ==> Fits(arm, shape);
      ArmsMint(p, columns, shape.exact, s, p.arms(r));
      hide Minted, Shaped, Among;
      AllMint(p, shape, columns, ApplyArms(p, s, p.arms(r)), records[1..]);
    }
  }

  // ----- where keys come from ----------------------------------------------

  /** Keys are only ever added, and only with a cell. */
  ghost predicate Grew(p: Program, s: State, s': State) {
    && s.keys <= s'.keys && s.cells.Keys <= s'.cells.Keys
    && (forall c, k :: (c, k) in s'.cells && (c, k) !in s.cells ==> (p.main(c.table), k) in s'.keys)
    && forall table, k :: (table, k) in s'.keys && (table, k) !in s.keys ==> exists c :: Writes(p, s', c, table, k)
  }

  lemma GrewAgain(p: Program, s: State, t: State, u: State)
    requires Grew(p, s, t) && Grew(p, t, u)
    ensures Grew(p, s, u)
  {
    forall table, k | (table, k) in u.keys && (table, k) !in s.keys ensures exists c :: Writes(p, u, c, table, k) {
      if (table, k) in t.keys {
        var c :| Writes(p, t, c, table, k);
        assert Writes(p, u, c, table, k);
      }
    }
  }

  lemma {:induction false} KeysGrow(p: Program, s: State, arm: Arm, keys: seq<Key>)
    ensures Grew(p, s, ApplyKeys(p, s, arm, keys))
    decreases |keys|
  {
    if keys != [] {
      var s' := ApplyAt(p, s, arm, keys[0]);
      assert Writes(p, s', arm.column, p.main(arm.column.table), keys[0]);
      assert Grew(p, s, s');
      hide Grew;
      KeysGrow(p, s', arm, keys[1..]);
      GrewAgain(p, s, s', ApplyKeys(p, s', arm, keys[1..]));
    }
  }

  lemma {:induction false} ArmsGrow(p: Program, s: State, arms: seq<Arm>)
    ensures Grew(p, s, ApplyArms(p, s, arms))
    decreases |arms|
  {
    if arms != [] {
      hide Grew;
      KeysGrow(p, s, arms[0], ArmKeys(p, s, arms[0]));
      ArmsGrow(p, ApplyArm(p, s, arms[0]), arms[1..]);
      GrewAgain(p, s, ApplyArm(p, s, arms[0]), ApplyArms(p, s, arms));
    }
  }

  lemma {:induction false} AllGrow(p: Program, s: State, records: seq<Record>)
    ensures Grew(p, s, ApplyAll(p, s, records))
    decreases |records|
  {
    if records != [] {
      hide Grew;
      ArmsGrow(p, s, p.arms(records[0]));
      AllGrow(p, ApplyArms(p, s, p.arms(records[0])), records[1..]);
      GrewAgain(p, s, ApplyArms(p, s, p.arms(records[0])), ApplyAll(p, s, records));
    }
  }

  /** Applying records writes cells of declared columns only. */
  lemma {:induction false} StaysTidy(p: Program, columns: set<Column>, s: State, records: seq<Record>, log: seq<Record>)
    requires Declares(p, log, columns) && forall at :: at in s.cells ==> at.0 in columns
    requires forall r :: r in records ==> r in log
    ensures forall at :: at in ApplyAll(p, s, records).cells ==> at.0 in columns
    decreases |records|
  {
    if records != [] {
      var r := records[0];
      assert r in records && forall other :: other in records[1..] ==> other in records;
      assert forall arm :: arm in p.arms(r) ==> HasArm(p, log, arm);
      ArmsTidy(p, columns, s, p.arms(r));
      hide Declares;
      StaysTidy(p, columns, ApplyArms(p, s, p.arms(r)), records[1..], log);
    }
  }

  lemma {:induction false} ArmsTidy(p: Program, columns: set<Column>, s: State, arms: seq<Arm>)
    requires (forall at :: at in s.cells ==> at.0 in columns) && forall arm :: arm in arms ==> arm.column in columns
    ensures forall at :: at in ApplyArms(p, s, arms).cells ==> at.0 in columns
    decreases |arms|
  {
    if arms != [] {
      assert arms[0] in arms && forall arm :: arm in arms[1..] ==> arm in arms;
      KeysTidy(p, columns, s, arms[0], ArmKeys(p, s, arms[0]));
      ArmsTidy(p, columns, ApplyArm(p, s, arms[0]), arms[1..]);
    }
  }

  lemma {:induction false} KeysTidy(p: Program, columns: set<Column>, s: State, arm: Arm, keys: seq<Key>)
    requires (forall at :: at in s.cells ==> at.0 in columns) && arm.column in columns
    ensures forall at :: at in ApplyKeys(p, s, arm, keys).cells ==> at.0 in columns
    decreases |keys|
  {
    if keys != [] { KeysTidy(p, columns, ApplyAt(p, s, arm, keys[0]), arm, keys[1..]); }
  }

  // ----- the same arms in two programs -------------------------------------

  /** Two programs give the columns of `stands` the same arms, in the same order, and the same seeds. */
  ghost predicate SameFor(p: Program, q: Program, stands: set<Column>) {
    && p.main == q.main && (forall c :: c in stands ==> p.seed(c) == q.seed(c))
    && forall r :: Kept(p.arms(r), stands) == Kept(q.arms(r), stands)
  }

  /** These columns look up only one another. */
  ghost predicate LooksWithin(arms: seq<Arm>, stands: set<Column>) {
    forall arm :: arm in arms ==>
      arm.column in stands && forall k, i :: 0 <= i < |arm.lookups(k)| ==> arm.lookups(k)[i].0 in stands
  }

  lemma {:induction false} SameKeysFor(p: Program, q: Program, stands: set<Column>, s: State, arm: Arm, keys: seq<Key>)
    requires SameFor(p, q, stands) && LooksWithin([arm], stands)
    ensures ApplyKeys(p, s, arm, keys) == ApplyKeys(q, s, arm, keys)
    decreases |keys|
  {
    if keys != [] {
      var k := keys[0];
      assert arm in [arm];
      SameLooksFor(p, q, stands, s, arm.lookups(k));
      assert ApplyAt(p, s, arm, k) == ApplyAt(q, s, arm, k);
      hide SameFor, LooksWithin;
      SameKeysFor(p, q, stands, ApplyAt(p, s, arm, k), arm, keys[1..]);
    }
  }

  lemma SameLooksFor(p: Program, q: Program, stands: set<Column>, s: State, at: seq<(Column, Key)>)
    requires SameFor(p, q, stands) && forall i :: 0 <= i < |at| ==> at[i].0 in stands
    ensures Looked(p, s, at) == Looked(q, s, at)
  {
  }

  lemma {:induction false} SameArmsFor(p: Program, q: Program, stands: set<Column>, s: State, arms: seq<Arm>)
    requires SameFor(p, q, stands) && LooksWithin(arms, stands)
    ensures ApplyArms(p, s, arms) == ApplyArms(q, s, arms)
    decreases |arms|
  {
    if arms != [] {
      assert arms[0] in arms && forall arm :: arm in arms[1..] ==> arm in arms;
      assert LooksWithin([arms[0]], stands);
      assert ArmKeys(p, s, arms[0]) == ArmKeys(q, s, arms[0]);
      SameKeysFor(p, q, stands, s, arms[0], ArmKeys(p, s, arms[0]));
      SameArmsFor(p, q, stands, ApplyArm(p, s, arms[0]), arms[1..]);
    }
  }

  /** The columns that stand replay alone to the same cells in both programs. */
  lemma {:induction false} SameAllFor(p: Program, q: Program, stands: set<Column>, s: State, records: seq<Record>)
    requires SameFor(p, q, stands) && forall r :: LooksWithin(Kept(p.arms(r), stands), stands)
    ensures ApplyAll(Only(p, stands), s, records) == ApplyAll(Only(q, stands), s, records)
    decreases |records|
  {
    if records != [] {
      var r := records[0];
      var arms := Kept(p.arms(r), stands);
      SameArms(p, Only(p, stands), s, arms);
      SameArms(q, Only(q, stands), s, arms);
      SameArmsFor(p, q, stands, s, arms);
      hide LooksWithin;
      SameAllFor(p, q, stands, ApplyArms(p, s, arms), records[1..]);
    }
  }

  /** A range arm reaches exactly the keys minted before it that carry its pinned parts, and changes no other. */
  lemma RangeReaches(p: Program, s: State, arm: Arm, k: Key)
    requires arm.target.Range?
    ensures
      var parts := arm.target.parts;
      k in ArmKeys(p, s, arm) <==>
        && (p.main(arm.column.table), k) in s.keys
        && forall i :: 0 <= i < |parts| && i < |k| && parts[i].Some? ==> k[i] == parts[i].value
    ensures k !in ArmKeys(p, s, arm) ==> Cell(ApplyArm(p, s, arm), arm.column, k) == Cell(s, arm.column, k)
  {
    InOrderHolds(KeysOf(s, p.main(arm.column.table)));
    MatchingHolds(InOrder(KeysOf(s, p.main(arm.column.table))), arm.target.parts);
    OthersUnwritten(p, s, arm, ArmKeys(p, s, arm), k);
  }

  lemma {:induction false} OthersUnwritten(p: Program, s: State, arm: Arm, keys: seq<Key>, k: Key)
    ensures k !in keys ==> Cell(ApplyKeys(p, s, arm, keys), arm.column, k) == Cell(s, arm.column, k)
    decreases |keys|
  {
    if keys != [] {
      OthersUnwritten(p, ApplyAt(p, s, arm, keys[0]), arm, keys[1..], k);
      assert keys[0] in keys && forall at :: at in keys[1..] ==> at in keys;
    }
  }
}
