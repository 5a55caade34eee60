/** When a deploy of the derived tables goes on as if the new program had followed the log from its
    start: exactly, by what the two programs' columns do (`src/fold_store.rs`, `src/fold_sink.rs`). */
module FoldGuard {
  import opened Options
  import opened KeyOrder
  import opened FoldTables
  import opened FoldSink
  import opened FoldRuntime
  import opened FoldFollow
  import opened FoldDeploy

  /** Every column's arms can come to something: where a column ranges, one of the old program or the new
      mints, and what looks a column up has arms. A range where nothing ever minted does nothing. */
  predicate Fires(main: string -> string, was: Shape, now: Shape) {
    && (forall b :: b in now.ranging ==> exists a :: a in now.exact + was.exact && main(a.table) == main(b.table))
    && forall pair :: pair in now.looks ==> pair.0 in now.exact + now.ranging
  }

  /** The store at `m` of a log that one program followed to `n`, where the other was deployed. */
  ghost function Store(p: Program, q: Program, was: Catalog, now: Catalog, log: seq<Record>, n: nat, m: nat): State
    requires n <= m <= |log|
  {
    ApplyAll(q, Landed(q, was, now, {}, Truth(p, log, n), log, n), log[n..m])
  }

  /** Every column is served as following the log from its start with the new program would serve it. */
  ghost predicate Right(p: Program, q: Program, was: Catalog, now: Catalog, log: seq<Record>, n: nat, m: nat)
    requires n <= m <= |log|
  {
    forall c, k :: c in now ==> Get(q, Store(p, q, was, now, log, n, m), c, k) == Get(q, Truth(q, log, m), c, k)
  }

  /** Two programs of these columns and shapes, with a deploy from one to the other. */
  ghost predicate Pair(p: Program, q: Program, main: string -> string, ws: Shape, ns: Shape, was: Catalog,
                       now: Catalog) {
    p.main == main && q.main == main && ProgramKeyed(p) && ProgramKeyed(q) && Deploys(p, q, ws, ns, was, now)
  }

  // ----- the guard is needed -----------------------------------------------

  const KEY: Key := ["k"]

  /** A program whose record 0 and record 1 have these arms and no other has any. */
  function Program2(main: string -> string, seed: Column -> Value, first: seq<Arm>, second: seq<Arm>): Program {
    Program((r: Record) => if r == 0 then first else if r == 1 then second else [], seed, main, (_: string) => 1)
  }

  function Writer(c: Column): Arm {
    Arm(c, Exact(KEY), (_: Key) => [], (_: Key, _: Value, _: seq<Value>) => "x")
  }

  function Ranger(c: Column): Arm {
    Arm(c, Range([None]), (_: Key) => [], (_: Key, _: Value, _: seq<Value>) => "x")
  }

  /** An arm that copies what it looks up. */
  function Copier(c: Column, target: Target, from: Column): Arm {
    Arm(c, target, (k: Key) => [(from, k)],
        (_: Key, v: Value, looked: seq<Value>) => if looked == [] then v else looked[0])
  }

  function NoSeed(c: Column): Value { "" }

  lemma OneArm(p: Program, s: State, arm: Arm)
    ensures ApplyArms(p, s, [arm]) == ApplyArm(p, s, arm)
  {
    assert [arm][1..] == [];
  }

  lemma TwoArms(p: Program, s: State, first: Arm, second: Arm)
    ensures ApplyArms(p, s, [first, second]) == ApplyArm(p, ApplyArm(p, s, first), second)
  {
    assert [first, second][1..] == [second];
    OneArm(p, ApplyArm(p, s, first), second);
  }

  lemma OneRecord(p: Program, s: State, r: Record)
    ensures ApplyAll(p, s, [r]) == ApplyArms(p, s, p.arms(r))
  {
    assert [r][1..] == [];
  }

  lemma OneKey(p: Program, s: State, arm: Arm, k: Key)
    ensures ApplyKeys(p, s, arm, [k]) == ApplyAt(p, s, arm, k)
  {
    assert [k][1..] == [];
  }

  lemma KeptNone(stands: set<Column>)
    ensures Kept([], stands) == []
  {
  }

  lemma KeptOne(arm: Arm, stands: set<Column>)
    ensures Kept([arm], stands) == if arm.column in stands then [arm] else []
  {
    assert [arm][1..] == [];
  }

  /** An exact arm fires at its key. */
  lemma FiresExact(p: Program, s: State, arm: Arm)
    requires arm.target == Exact(KEY)
    ensures ApplyArm(p, s, arm) == ApplyAt(p, s, arm, KEY)
  {
    OneKey(p, s, arm, KEY);
  }

  /** A range with nothing pinned fires at the one key there is, or not at all. */
  lemma FiresRange(p: Program, s: State, arm: Arm)
    requires arm.target == Range([None])
    ensures KeysOf(s, p.main(arm.column.table)) == {} ==> ApplyArm(p, s, arm) == s
    ensures KeysOf(s, p.main(arm.column.table)) == {KEY} ==> ApplyArm(p, s, arm) == ApplyAt(p, s, arm, KEY)
  {
    var keys := KeysOf(s, p.main(arm.column.table));
    InOrderHolds(keys);
    MatchingHolds(InOrder(keys), [None]);
    if keys == {} {
      MatchingNone(InOrder(keys), [None]);
    } else if keys == {KEY} {
      OneOrder([KEY], keys);
      OneKey(p, s, arm, KEY);
      assert Matching([KEY], [None]) == [KEY];
    }
  }

  /** What a writer and then a ranger of its table leave. */
  lemma WritesThenRanges(p: Program, a: Column, b: Column)
    requires p.main(a.table) == p.main(b.table)
    ensures ApplyArms(p, EMPTY, [Writer(a)]) == Put(p, EMPTY, a, KEY, "x")
    ensures ApplyArms(p, EMPTY, [Ranger(b)]) == EMPTY
    ensures Cell(ApplyArms(p, EMPTY, [Writer(a), Ranger(b)]), b, KEY) == Some("x")
  {
    OneArm(p, EMPTY, Writer(a));
    OneArm(p, EMPTY, Ranger(b));
    TwoArms(p, EMPTY, Writer(a), Ranger(b));
    FiresExact(p, EMPTY, Writer(a));
    FiresRange(p, EMPTY, Ranger(b));
    var s := Put(p, EMPTY, a, KEY, "x");
    assert KeysOf(s, p.main(b.table)) == {KEY};
    FiresRange(p, s, Ranger(b));
  }

  lemma Fits2(main: string -> string, seed: Column -> Value, first: seq<Arm>, second: seq<Arm>, shape: Shape)
    requires forall arm :: arm in first || arm in second ==>
      Fits(arm, shape) && ArmKeyed(Program2(main, seed, first, second), arm)
    requires forall table :: main(main(table)) == main(table)
    ensures Shaped(Program2(main, seed, first, second), shape) && ProgramKeyed(Program2(main, seed, first, second))
  {
  }

  /** The first record of such a program, applied to nothing. */
  lemma First(p: Program, log: seq<Record>)
    requires log != [] && log[0] == 0
    ensures Truth(p, log, 0) == EMPTY && Truth(p, log, 1) == ApplyArms(p, EMPTY, p.arms(0))
  {
    assert log[..1] == [0] && log[..0] == [];
    OneRecord(p, EMPTY, 0);
  }

  /** A column that stands keeps what it held, at a checkpoint past the start. */
  lemma Stands(p: Program, q: Program, was: Catalog, now: Catalog, log: seq<Record>, c: Column, k: Key)
    requires |log| == 1 && c in Standing(was, now)
    ensures Cell(Store(p, q, was, now, log, 1, 1), c, k) == Cell(Truth(p, log, 1), c, k)
  {
    assert Judge(was, now, c) == UpToDate && log[1..1] == [];
    FilledCells(q, Lagging(was, now, {}, 1), Surviving(was, now, Truth(p, log, 1)), Truth(q, log, 1), c, k);
  }

  /** A column that mints where one standing ranges, added or changed by the deploy. */
  lemma MinterAdded(main: string -> string, ws: Shape, ns: Shape, was: Catalog, now: Catalog, b: Column, a: Column)
    returns (p: Program, q: Program)
    requires Among(ws, was.Keys) && Among(ns, now.Keys) && SameShape(ws, ns, Standing(was, now))
    requires forall table :: main(main(table)) == main(table)
    requires b in ns.ranging && a in ns.exact && b in Standing(was, now) && a !in Standing(was, now)
      && main(b.table) == main(a.table)
    ensures Pair(p, q, main, ws, ns, was, now) && !Right(p, q, was, now, [0], 1, 1)
  {
    var log: seq<Record> := [0];
    p, q := Program2(main, NoSeed, [Ranger(b)], []), Program2(main, NoSeed, [Writer(a), Ranger(b)], []);
    Fits2(main, NoSeed, [Ranger(b)], [], ws);
    Fits2(main, NoSeed, [Writer(a), Ranger(b)], [], ns);
    assert [Writer(a), Ranger(b)][1..] == [Ranger(b)];
    First(p, log);
    First(q, log);
    WritesThenRanges(p, a, b);
    WritesThenRanges(q, a, b);
    Stands(p, q, was, now, log, b, KEY);
    hide Store, Truth;
    assert Get(q, Truth(q, log, 1), b, KEY) != Get(q, Store(p, q, was, now, log, 1, 1), b, KEY);
  }

  /** A column that minted where one still ranges, dropped or changed by the deploy. */
  lemma MinterGone(main: string -> string, ws: Shape, ns: Shape, was: Catalog, now: Catalog, b: Column, a: Column)
    returns (p: Program, q: Program)
    requires Among(ws, was.Keys) && Among(ns, now.Keys) && SameShape(ws, ns, Standing(was, now))
    requires forall table :: main(main(table)) == main(table)
    requires b in ns.ranging && a in ws.exact && a !in Standing(was, now) && main(b.table) == main(a.table)
    ensures Pair(p, q, main, ws, ns, was, now) && !Right(p, q, was, now, [0, 1], 1, 2)
  {
    var log: seq<Record> := [0, 1];
    var kept := if b in Standing(was, now) then [Ranger(b)] else [];
    p, q := Program2(main, NoSeed, [Writer(a)], kept), Program2(main, NoSeed, [], [Ranger(b)]);
    Fits2(main, NoSeed, [Writer(a)], kept, ws);
    Fits2(main, NoSeed, [], [Ranger(b)], ns);
    KeptOne(Writer(a), Standing(was, now));
    KeptOne(Ranger(b), Standing(was, now));
    hide Shaped, ProgramKeyed, Among, SameShape, Kept;
    assert Kept([], Standing(was, now)) == [] by { KeptNone(Standing(was, now)); }
    assert SameFor(p, q, Standing(was, now));
    hide SameFor;
    GoneStays(p, q, was, now, a, b);
    hide Store, Truth;
    assert Get(q, Truth(q, log, 2), b, KEY) != Get(q, Store(p, q, was, now, log, 1, 2), b, KEY);
  }

  /** The key a dropped column minted stays, and the range that comes next reaches it. */
  lemma GoneStays(p: Program, q: Program, was: Catalog, now: Catalog, a: Column, b: Column)
    requires p.arms(0) == [Writer(a)] && q.arms(0) == [] && q.arms(1) == [Ranger(b)]
    requires p.main == q.main && p.main(a.table) == p.main(b.table) && a !in Standing(was, now)
    ensures Cell(Store(p, q, was, now, [0, 1], 1, 2), b, KEY) == Some("x") && Truth(q, [0, 1], 2) == EMPTY
  {
    var log: seq<Record> := [0, 1];
    First(p, log);
    First(q, log);
    WritesThenRanges(p, a, b);
    WritesThenRanges(q, a, b);
    assert log[1..2] == [1] && log[..2] == [0] + [1];
    var landed := Landed(q, was, now, {}, Truth(p, log, 1), log, 1);
    assert landed.keys == {(q.main(b.table), KEY)};
    assert KeysOf(landed, q.main(b.table)) == {KEY};
    OneRecord(q, landed, 1);
    OneArm(q, landed, Ranger(b));
    FiresRange(q, landed, Ranger(b));
    BatchesSplit(q, EMPTY, [0], [1]);
    OneRecord(q, EMPTY, 0);
    OneRecord(q, EMPTY, 1);
  }

  /** The arms of a column that copies another, and what mints its key if it only ranges. */
  function CopierArms(c: Column, l: Column, a: Column, exact: bool): seq<Arm> {
    if exact then [Copier(c, Exact(KEY), l)] else [Writer(a), Copier(c, Range([None]), l)]
  }

  /** A column that one standing looks up, changed by the deploy. */
  lemma LookedChanged(main: string -> string, ws: Shape, ns: Shape, was: Catalog, now: Catalog, c: Column, l: Column,
                      a: Column)
    returns (p: Program, q: Program)
    requires Among(ws, was.Keys) && Among(ns, now.Keys) && SameShape(ws, ns, Standing(was, now))
    requires forall table :: main(main(table)) == main(table)
    requires (c, l) in ns.looks && c in Standing(was, now) && l !in Standing(was, now)
    requires c in ns.exact || (c in ns.ranging && a in ns.exact && a in Standing(was, now)
      && main(a.table) == main(c.table))
    ensures Pair(p, q, main, ws, ns, was, now) && !Right(p, q, was, now, [0], 1, 1)
  {
    var log: seq<Record> := [0];
    var seed := (at: Column) => if at == l then "y" else "";
    var arms := CopierArms(c, l, a, c in ns.exact);
    p, q := Program2(main, seed, arms, []), Program2(main, NoSeed, arms, []);
    CopierFits(main, seed, c, l, a, ns, ws, Standing(was, now));
    CopierFits(main, NoSeed, c, l, a, ns, ws, Standing(was, now));
    hide Shaped, ProgramKeyed, CopierArms, Among, SameShape;
    assert Pair(p, q, main, ws, ns, was, now);
    hide Pair, Deploys;
    First(p, log);
    First(q, log);
    hide Store, Truth, ApplyArms;
    Copies(p, c, l, a, c in ns.exact);
    Copies(q, c, l, a, c in ns.exact);
    Stands(p, q, was, now, log, c, KEY);
    assert Get(q, Truth(q, log, 1), c, KEY) != Get(q, Store(p, q, was, now, log, 1, 1), c, KEY);
  }

  lemma CopierFits(main: string -> string, seed: Column -> Value, c: Column, l: Column, a: Column, ns: Shape, ws: Shape,
                   stands: set<Column>)
    requires SameShape(ws, ns, stands) && (c, l) in ns.looks && c in stands
    requires forall table :: main(main(table)) == main(table)
    requires c in ns.exact || (c in ns.ranging && a in ns.exact && a in stands)
    ensures
      var p := Program2(main, seed, CopierArms(c, l, a, c in ns.exact), []);
      Shaped(p, ns) && Shaped(p, ws) && ProgramKeyed(p)
  {
    var arms := CopierArms(c, l, a, c in ns.exact);
    assert (c, l) in ws.looks;
    forall arm | arm in arms ensures Fits(arm, ns) && Fits(arm, ws) && ArmKeyed(Program2(main, seed, arms, []), arm) {
      forall k, i | 0 <= i < |arm.lookups(k)| ensures (arm.column, arm.lookups(k)[i].0) in ns.looks * ws.looks {
        assert arm.column == c && arm.lookups(k)[i] == (l, k);
      }
    }
    Fits2(main, seed, arms, [], ns);
    Fits2(main, seed, arms, [], ws);
  }

  lemma Copies(p: Program, c: Column, l: Column, a: Column, exact: bool)
    requires l != c && (!exact ==> a != c && l != a && p.main(a.table) == p.main(c.table))
    ensures Cell(ApplyArms(p, EMPTY, CopierArms(c, l, a, exact)), c, KEY) == Some(p.seed(l))
  {
    if exact {
      var arm := Copier(c, Exact(KEY), l);
      OneArm(p, EMPTY, arm);
      FiresExact(p, EMPTY, arm);
      CopyFires(p, EMPTY, arm, l);
    } else {
      var arm := Copier(c, Range([None]), l);
      TwoArms(p, EMPTY, Writer(a), arm);
      FiresExact(p, EMPTY, Writer(a));
      var s := Put(p, EMPTY, a, KEY, "x");
      assert KeysOf(s, p.main(c.table)) == {KEY};
      FiresRange(p, s, arm);
      CopyFires(p, s, arm, l);
    }
  }

  lemma CopyFires(p: Program, s: State, arm: Arm, l: Column)
    requires arm == Copier(arm.column, arm.target, l) && (l, KEY) !in s.cells
    ensures Cell(ApplyAt(p, s, arm, KEY), arm.column, KEY) == Some(p.seed(l))
  {
    var looked := Looked(p, s, arm.lookups(KEY));
    assert arm.lookups(KEY) == [(l, KEY)] && looked[0] == p.seed(l);
  }

  /** Whatever breaks the guard, some pair of programs of those columns shows it. */
  lemma GuardNeeded(main: string -> string, ws: Shape, ns: Shape, was: Catalog, now: Catalog)
    returns (p: Program, q: Program, log: seq<Record>, n: nat, m: nat)
    requires Among(ws, was.Keys) && Among(ns, now.Keys) && SameShape(ws, ns, Standing(was, now)) && Fires(main, ws, ns)
    requires forall table :: main(main(table)) == main(table)
    requires !Keeps(main, ws, ns, Standing(was, now), {})
    ensures n <= m <= |log| && Pair(p, q, main, ws, ns, was, now) && !Right(p, q, was, now, log, n, m)
  {
    var stands := Standing(was, now);
    if b :| b in ns.ranging && main(b.table) in StaleAfter(main, ws, stands, {}) {
      var a :| a in ws.exact && a !in stands && main(a.table) == main(b.table);
      p, q := MinterGone(main, ws, ns, was, now, b, a);
      log, n, m := [0, 1], 1, 2;
    } else if b, a :|
        b in ns.ranging && a in ns.exact && b in stands && main(b.table) == main(a.table) && a !in stands {
      p, q := MinterAdded(main, ws, ns, was, now, b, a);
      log, n, m := [0], 1, 1;
    } else {
      var pair :| pair in ns.looks && pair.0 in stands && pair.1 !in stands;
      var a := pair.0;
      if pair.0 !in ns.exact {
        a :| a in ns.exact + ws.exact && main(a.table) == main(pair.0.table);
        // A minter that is gone would have left its table stale.
        assert a !in stands && a in ws.exact ==> main(a.table) in StaleAfter(main, ws, stands, {});
        assert a in stands;
      }
      p, q := LookedChanged(main, ws, ns, was, now, pair.0, pair.1, a);
      log, n, m := [0], 1, 1;
    }
  }

  /** A deploy onto a store that followed the old program from the start is right in every log, wherever
      in it the deploy falls and for whatever the columns' arms compute, exactly when the guard holds. */
  lemma GuardExactly(main: string -> string, ws: Shape, ns: Shape, was: Catalog, now: Catalog)
    requires Among(ws, was.Keys) && Among(ns, now.Keys) && SameShape(ws, ns, Standing(was, now)) && Fires(main, ws, ns)
    requires forall table :: main(main(table)) == main(table)
    ensures Keeps(main, ws, ns, Standing(was, now), {}) <==>
      forall p: Program, q: Program, log: seq<Record>, n: nat, m: nat ::
        n <= m <= |log| && Pair(p, q, main, ws, ns, was, now) ==> Right(p, q, was, now, log, n, m)
  {
    if Keeps(main, ws, ns, Standing(was, now), {}) {
      forall p: Program, q: Program, log: seq<Record>, n: nat, m: nat
        | n <= m <= |log| && Pair(p, q, main, ws, ns, was, now)
        ensures Right(p, q, was, now, log, n, m)
      {
        TruthFollowed(p, ws, log, was.Keys, n);
        hide Keeps, Deploys, Landed, Followed;
        DeployRight(p, q, ws, ns, was, now, {}, log, n, m, {}, Truth(p, log, n));
      }
    } else {
      var p, q, log, n, m := GuardNeeded(main, ws, ns, was, now);
    }
  }

  lemma TruthFollowed(p: Program, shape: Shape, log: seq<Record>, columns: set<Column>, n: nat)
    requires Shaped(p, shape) && Among(shape, columns) && n <= |log|
    ensures Followed(p, log, n, columns, {}, {}, Truth(p, log, n))
  {
    TruthMinted(p, log, shape, columns, n);
  }
}
