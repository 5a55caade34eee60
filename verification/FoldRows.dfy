/** The rows of the derived tables over a deploy: no row is ever deleted, so a key stays after the last
    fold that mints it has gone; and the smallest deploy that shows what that costs
    (`src/fold_store.rs`, `src/fold_sink.rs`). */
module FoldRows {
  import opened Options
  import opened KeyOrder
  import opened FoldTables
  import opened FoldSink
  import opened FoldRuntime
  import opened FoldFollow
  import opened FoldDeploy
  import opened FoldGuard

  /** The keys these arms mint, whatever the tables hold. */
  function MintsOf(p: Program, arms: seq<Arm>): set<(string, Key)> {
    if arms == [] then {}
    else
      (if arms[0].target.Exact? then {(p.main(arms[0].column.table), arms[0].target.key)} else {})
      + MintsOf(p, arms[1..])
  }

  function MintedBy(p: Program, records: seq<Record>): set<(string, Key)> {
    if records == [] then {} else MintsOf(p, p.arms(records[0])) + MintedBy(p, records[1..])
  }

  lemma {:induction false} KeysOfApply(p: Program, s: State, arm: Arm, keys: seq<Key>)
    ensures forall at :: at in ApplyKeys(p, s, arm, keys).keys <==>
      at in s.keys || (at.0 == p.main(arm.column.table) && at.1 in keys)
    decreases |keys|
  {
    if keys != [] {
      KeysOfApply(p, ApplyAt(p, s, arm, keys[0]), arm, keys[1..]);
      assert keys == [keys[0]] + keys[1..];
    }
  }

  lemma KeysOfArm(p: Program, s: State, arm: Arm)
    ensures ApplyArm(p, s, arm).keys == s.keys + MintsOf(p, [arm])
  {
    assert [arm][1..] == [];
    KeysOfApply(p, s, arm, ArmKeys(p, s, arm));
    if arm.target.Range? {
      forall k | k in ArmKeys(p, s, arm) ensures (p.main(arm.column.table), k) in s.keys { RangeReaches(p, s, arm, k); }
    }
  }

  lemma {:induction false} KeysOfArms(p: Program, s: State, arms: seq<Arm>)
    ensures ApplyArms(p, s, arms).keys == s.keys + MintsOf(p, arms)
    decreases |arms|
  {
    if arms != [] {
      KeysOfArm(p, s, arms[0]);
      assert [arms[0]][1..] == [];
      KeysOfArms(p, ApplyArm(p, s, arms[0]), arms[1..]);
    }
  }

  /** A log's keys are those its exact arms name, and nothing else. */
  lemma {:induction false} KeysOfAll(p: Program, s: State, records: seq<Record>)
    ensures ApplyAll(p, s, records).keys == s.keys + MintedBy(p, records)
    decreases |records|
  {
    if records != [] {
      KeysOfArms(p, s, p.arms(records[0]));
      KeysOfAll(p, ApplyArms(p, s, p.arms(records[0])), records[1..]);
    }
  }

  lemma {:induction false} MintsMeans(p: Program, arms: seq<Arm>)
    ensures forall table, k :: (table, k) in MintsOf(p, arms) <==>
      exists arm :: arm in arms && arm.target == Exact(k) && p.main(arm.column.table) == table
    decreases |arms|
  {
    if arms != [] {
      MintsMeans(p, arms[1..]);
      assert arms == [arms[0]] + arms[1..];
      forall table, k | (table, k) in MintsOf(p, arms)
        ensures exists arm :: arm in arms && arm.target == Exact(k) && p.main(arm.column.table) == table
      {
        if (table, k) !in MintsOf(p, arms[1..]) {
          assert arms[0] in arms && arms[0].target == Exact(k) && p.main(arms[0].column.table) == table;
        }
      }
    }
  }

  lemma {:induction false} MintedByMeans(p: Program, records: seq<Record>, table: string, k: Key)
    ensures (table, k) in MintedBy(p, records) <==> exists r :: r in records && (table, k) in MintsOf(p, p.arms(r))
    decreases |records|
  {
    if records != [] {
      MintedByMeans(p, records[1..], table, k);
      assert records == [records[0]] + records[1..];
    }
  }

  /** An exact arm writes its cell, and cells stay. */
  lemma {:induction false} ExactWrites(p: Program, s: State, arms: seq<Arm>, arm: Arm)
    requires arm in arms && arm.target.Exact?
    ensures (arm.column, arm.target.key) in ApplyArms(p, s, arms).cells
    decreases |arms|
  {
    var s' := ApplyArm(p, s, arms[0]);
    if arms[0] == arm {
      assert [arm.target.key][1..] == [];
      assert ApplyKeys(p, s, arm, [arm.target.key]) == ApplyAt(p, s, arm, arm.target.key) by {
        OneKey(p, s, arm, arm.target.key);
      }
      ArmsGrow(p, s', arms[1..]);
    } else {
      assert arms == [arms[0]] + arms[1..];
      ExactWrites(p, s', arms[1..], arm);
    }
  }

  lemma {:induction false} ExactWritten(p: Program, s: State, records: seq<Record>, r: Record, arm: Arm)
    requires r in records && arm in p.arms(r) && arm.target.Exact?
    ensures (arm.column, arm.target.key) in ApplyAll(p, s, records).cells
    decreases |records|
  {
    var s' := ApplyArms(p, s, p.arms(records[0]));
    if records[0] == r {
      ExactWrites(p, s, p.arms(r), arm);
      AllGrow(p, s', records[1..]);
    } else {
      assert records == [records[0]] + records[1..];
      ExactWritten(p, s', records[1..], r, arm);
    }
  }

  /** The keys a store lists after a deploy are at least those following would list. */
  lemma NoneMissing(p: Program, q: Program, ws: Shape, ns: Shape, was: Catalog, now: Catalog, log: seq<Record>, n: nat,
                    table: string, k: Key)
    requires Deploys(p, q, ws, ns, was, now) && n <= |log| && (table, k) in Truth(q, log, n).keys
    ensures (table, k) in Landed(q, was, now, {}, Truth(p, log, n), log, n).keys
  {
    var truth' := Truth(q, log, n);
    var lagging := Lagging(was, now, {}, n);
    KeysOfAll(q, EMPTY, log[..n]);
    KeysOfAll(p, EMPTY, log[..n]);
    MintedByMeans(q, log[..n], table, k);
    MintedByMeans(p, log[..n], table, k);
    var r :| r in log[..n] && (table, k) in MintsOf(q, q.arms(r));
    MintsMeans(q, q.arms(r));
    MintsMeans(p, p.arms(r));
    var arm :| arm in q.arms(r) && arm.target == Exact(k) && q.main(arm.column.table) == table;
    FilledKeys(q, lagging, Surviving(was, now, Truth(p, log, n)), truth', table, k);
    if arm.column in Standing(was, now) {
      KeptMeans(q.arms(r), Standing(was, now));
      KeptMeans(p.arms(r), Standing(was, now));
      assert arm in p.arms(r);
    } else {
      ExactWritten(q, EMPTY, log[..n], r, arm);
      assert Fits(arm, ns);
      assert arm.column in lagging && Writes(q, truth', arm.column, table, k);
    }
  }

  /** The tables list exactly the rows following the log from its start would list, in every log and
      wherever the deploy falls, exactly when no record mints fewer keys than it did. */
  lemma RowsExactly(p: Program, q: Program, ws: Shape, ns: Shape, was: Catalog, now: Catalog)
    requires Deploys(p, q, ws, ns, was, now)
    ensures (forall r :: MintsOf(p, p.arms(r)) <= MintsOf(q, q.arms(r))) <==>
      forall log: seq<Record>, n: nat, m: nat :: n <= m <= |log| ==>
        Store(p, q, was, now, log, n, m).keys == Truth(q, log, m).keys
  {
    if forall r :: MintsOf(p, p.arms(r)) <= MintsOf(q, q.arms(r)) {
      forall log: seq<Record>, n: nat, m: nat | n <= m <= |log|
        ensures Store(p, q, was, now, log, n, m).keys == Truth(q, log, m).keys
      {
        RowsRight(p, q, ws, ns, was, now, log, n, m);
      }
    } else {
      var r: Record :| !(MintsOf(p, p.arms(r)) <= MintsOf(q, q.arms(r)));
      var log: seq<Record> := [r];
      assert log[..1] == log && log[1..1] == [];
      KeysOfAll(p, EMPTY, log);
      KeysOfAll(q, EMPTY, log);
      assert log[1..] == [];
      var at: (string, Key) :| at in MintsOf(p, p.arms(r)) && at !in MintsOf(q, q.arms(r));
      assert at in Truth(p, log, 1).keys && at !in Truth(q, log, 1).keys;
      FilledKeys(q, Lagging(was, now, {}, 1), Surviving(was, now, Truth(p, log, 1)), Truth(q, log, 1), at.0, at.1);
      assert at in Store(p, q, was, now, log, 1, 1).keys;
    }
  }

  lemma RowsRight(p: Program, q: Program, ws: Shape, ns: Shape, was: Catalog, now: Catalog, log: seq<Record>, n: nat,
                  m: nat)
    requires Deploys(p, q, ws, ns, was, now) && n <= m <= |log|
    requires forall r :: MintsOf(p, p.arms(r)) <= MintsOf(q, q.arms(r))
    ensures Store(p, q, was, now, log, n, m).keys == Truth(q, log, m).keys
  {
    var landed, truth, truth' := Landed(q, was, now, {}, Truth(p, log, n), log, n), Truth(p, log, n), Truth(q, log, n);
    KeysOfAll(p, EMPTY, log[..n]);
    KeysOfAll(q, EMPTY, log[..n]);
    TruthMinted(q, log, ns, now.Keys, n);
    forall table, k ensures (table, k) in landed.keys <==> (table, k) in truth'.keys {
      if (table, k) in truth'.keys { NoneMissing(p, q, ws, ns, was, now, log, n, table, k); }
      FilledKeys(q, Lagging(was, now, {}, n), Surviving(was, now, truth), truth', table, k);
      MintedByMeans(p, log[..n], table, k);
      MintedByMeans(q, log[..n], table, k);
      if c :| c in Lagging(was, now, {}, n) && Writes(q, truth', c, table, k) { assert (c, k) in truth'.cells; }
    }
    assert landed.keys == truth'.keys by {
      forall at: (string, Key) ensures at in landed.keys <==> at in truth'.keys { assert at == (at.0, at.1); }
    }
    assert log[..m] == log[..n] + log[n..m];
    BatchesSplit(q, EMPTY, log[..n], log[n..m]);
    KeysOfAll(q, landed, log[n..m]);
    KeysOfAll(q, truth', log[n..m]);
  }

  // ----- the smallest failing deploy ---------------------------------------

  const MINTER := Column("t", "minter")

  const TOTAL := Column("t", "total")

  const LOG: seq<Record> := [0, 1]

  function Main(table: string): string { table }

  /** Record 0 mints a key for one fold; record 1 has the other range over every key there is. */
  function Both(): Program { Program2(Main, NoSeed, [Writer(MINTER)], [Ranger(TOTAL)]) }

  /** The same program without the first fold. */
  function Rest(): Program { Program2(Main, NoSeed, [], [Ranger(TOTAL)]) }

  const BOTH_SHAPE := Shape({MINTER}, {TOTAL}, {})

  const REST_SHAPE := Shape({}, {TOTAL}, {})

  const BOTH: Catalog := map[MINTER := Identity("m", "s", None), TOTAL := Identity("t", "s", None)]

  const REST: Catalog := map[TOTAL := Identity("t", "s", None)]

  lemma ProgramsDeclare()
    ensures ProgramKeyed(Both()) && ProgramKeyed(Rest())
    ensures Declares(Both(), LOG, BOTH.Keys) && Declares(Rest(), LOG, REST.Keys)
  {
    Fits2(Main, NoSeed, [Writer(MINTER)], [Ranger(TOTAL)], BOTH_SHAPE);
    Fits2(Main, NoSeed, [], [Ranger(TOTAL)], REST_SHAPE);
    ShapedDeclares(Both(), LOG, BOTH_SHAPE, BOTH.Keys);
    ShapedDeclares(Rest(), LOG, REST_SHAPE, REST.Keys);
  }

  /** Dropping the last column that mints where another ranges is a deploy the exact condition speaks of,
      and one it turns down. */
  lemma DropBreaksGuard()
    ensures Among(BOTH_SHAPE, BOTH.Keys) && Among(REST_SHAPE, REST.Keys)
    ensures SameShape(BOTH_SHAPE, REST_SHAPE, Standing(BOTH, REST)) && Fires(Main, BOTH_SHAPE, REST_SHAPE)
    ensures Deploys(Both(), Rest(), BOTH_SHAPE, REST_SHAPE, BOTH, REST)
    ensures !Keeps(Main, BOTH_SHAPE, REST_SHAPE, Standing(BOTH, REST), {})
  {
    assert MINTER in BOTH_SHAPE.exact && MINTER !in Standing(BOTH, REST) && TOTAL in REST_SHAPE.ranging;
    assert Main(MINTER.table) in StaleAfter(Main, BOTH_SHAPE, Standing(BOTH, REST), {});
    Fits2(Main, NoSeed, [Writer(MINTER)], [Ranger(TOTAL)], BOTH_SHAPE);
    Fits2(Main, NoSeed, [], [Ranger(TOTAL)], REST_SHAPE);
    KeptOne(Writer(MINTER), Standing(BOTH, REST));
    KeptNone(Standing(BOTH, REST));
    hide Shaped, Kept;
  }

  lemma BothTruth()
    ensures Cell(Truth(Both(), LOG, 2), TOTAL, KEY) == Some("x")
    ensures Truth(Rest(), LOG, 2) == EMPTY
  {
    var p, q := Both(), Rest();
    assert LOG[..2] == [0] + [1];
    BatchesSplit(p, EMPTY, [0], [1]);
    BatchesSplit(q, EMPTY, [0], [1]);
    OneRecord(p, EMPTY, 0);
    OneRecord(q, EMPTY, 0);
    OneRecord(q, EMPTY, 1);
    WritesThenRanges(p, MINTER, TOTAL);
    WritesThenRanges(q, MINTER, TOTAL);
    var s := Put(p, EMPTY, MINTER, KEY, "x");
    OneRecord(p, s, 1);
    OneArm(p, s, Ranger(TOTAL));
    assert KeysOf(s, "t") == {KEY};
    FiresRange(p, s, Ranger(TOTAL));
  }

  /** Nothing survives in an empty store, and nothing lags at its checkpoint. */
  lemma FromNothing(q: Program, now: Catalog, log: seq<Record>, n: nat)
    requires n <= |log|
    ensures ApplyAll(q, Landed(q, map[], now, {}, EMPTY, log, 0), log[0..n]) == Truth(q, log, n)
  {
    assert log[0..n] == log[..n];
    assert Landed(q, map[], now, {}, EMPTY, log, 0) == EMPTY;
  }

  /** What the second deploy leaves at the key. */
  lemma MinterDropped(recorded: Catalog)
    requires recorded.Keys == BOTH.Keys && forall c :: c in BOTH ==> recorded[c].foldHash == BOTH[c].foldHash
    ensures Cell(ApplyAll(Rest(), Landed(Rest(), recorded, REST, {}, Truth(Both(), LOG, 2), LOG, 2), LOG[2..2]), TOTAL,
      KEY) == Some("x")
  {
    BothTruth();
    assert LOG[2..2] == [];
    assert TOTAL in BOTH && Judge(recorded, REST, TOTAL) == UpToDate;
    FilledCells(Rest(), Lagging(recorded, REST, {}, 2), Surviving(recorded, REST, Truth(Both(), LOG, 2)),
      Truth(Rest(), LOG, 2), TOTAL, KEY);
  }

  /** From an empty store: follow two folds, drop the one that mints, and the other, judged up to date,
      goes on holding a cell that following from the start with what is left never writes. */
  method DropMinter() returns (d: Deployed)
    ensures fresh(d) && d.store.checkpoint == 2 && d.store.Behind() == {}
    ensures Judge(BOTH, REST, TOTAL) == UpToDate
    ensures Get(Rest(), d.store.View(Rest()), TOTAL, KEY) == "x" && Get(Rest(), Truth(Rest(), LOG, 2), TOTAL, KEY) == ""
  {
    ProgramsDeclare();
    BothTruth();
    FromNothing(Both(), BOTH, LOG, 2);
    hide Both, Rest, Landed, Declares, ProgramKeyed, Truth;
    assert Both().main == Rest().main && Rest().seed(TOTAL) == "" by { SameMain(); }
    var store := new FoldStore();
    d := new Deployed(store);
    assert d.store.View(Both()) == EMPTY && d.recorded == map[] && d.store.Behind() == {};
    Redeploy(d, Both(), BOTH, LOG, [2]);
    assert d.store.View(Rest()) == d.store.View(Both()) == Truth(Both(), LOG, 2);
    MinterDropped(d.recorded);
    Redeploy(d, Rest(), REST, LOG, []);
  }

  lemma SameMain()
    ensures Both().main == Rest().main && Rest().seed(TOTAL) == ""
  {
  }
}
