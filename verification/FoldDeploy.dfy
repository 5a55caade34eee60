/** What a deploy does to the derived tables: which columns stand, are refolded, reshaped, added or
    dropped, and why following goes on correctly afterwards (`src/fold_store.rs`). */
module FoldDeploy {
  import opened Options
  import opened KeyOrder
  import opened FoldTables
  import opened FoldSink
  import opened FoldRuntime
  import opened FoldFollow

  /** What a column is: a hash of what its fold does, one of what is visible of it, and its seed. */
  datatype Identity = Identity(foldHash: string, signatureHash: string, seed: Option<Value>)

  type Catalog = map<Column, Identity>

  datatype Verdict = UpToDate | Add | Refold | Reshape | Drop

  predicate Refills(verdict: Verdict) {
    verdict.Add? || verdict.Refold? || verdict.Reshape?
  }

  function Judge(was: Catalog, now: Catalog, c: Column): Verdict
    requires c in was || c in now
  {
    if c !in now then Drop
    else if c !in was then Add
    else if was[c].foldHash == now[c].foldHash then UpToDate
    // A column's default cannot be altered, so a moved seed cannot be refolded in place.
    else if was[c].seed != now[c].seed then Reshape
    else if was[c].signatureHash == now[c].signatureHash then Refold
    else Reshape
  }

  /** What a deploy would change, column by column. */
  method Reconcile(was: Catalog, now: Catalog) returns (changes: map<Column, Verdict>)
    ensures changes.Keys == was.Keys + now.Keys
    ensures forall c :: c in changes ==> changes[c] == Judge(was, now, c)
  {
    changes := map[];
    var rest := now.Keys;
    while rest != {}
      invariant rest <= now.Keys && changes.Keys == now.Keys - rest
      invariant forall c :: c in changes ==> changes[c] == Judge(was, now, c)
    {
      var c :| c in rest;
      changes := changes[c := Judge(was, now, c)];
      rest := rest - {c};
    }
    rest := was.Keys;
    while rest != {}
      invariant rest <= was.Keys && changes.Keys == now.Keys + (was.Keys - rest)
      invariant forall c :: c in changes ==> changes[c] == Judge(was, now, c)
    {
      var c :| c in rest;
      if c !in now {
        changes := changes[c := Drop];
      }
      rest := rest - {c};
    }
  }

  /** Nothing is forecast exactly for a program whose columns are the recorded ones, fold for fold. */
  lemma NothingChanges(was: Catalog, now: Catalog)
    ensures (forall c :: c in was.Keys + now.Keys ==> Judge(was, now, c) == UpToDate)
      <==> was.Keys == now.Keys && forall c :: c in now ==> was[c].foldHash == now[c].foldHash
  {
    if forall c :: c in was.Keys + now.Keys ==> Judge(was, now, c) == UpToDate {
      forall c | c in was.Keys + now.Keys ensures c in was && c in now && was[c].foldHash == now[c].foldHash {
        assert Judge(was, now, c) == UpToDate;
      }
      assert was.Keys == now.Keys;
    }
  }

  /** Nothing of a column moved but its fold, so it can be refolded where it stands. */
  predicate SamePlace(was: Identity, now: Identity) {
    was.seed == now.seed && was.signatureHash == now.signatureHash
  }

  /** What each verdict says of its column. */
  predicate Means(was: Catalog, now: Catalog, c: Column, verdict: Verdict) {
    && (verdict == Drop <==> c !in now) && (verdict == Add <==> c !in was && c in now)
    && (verdict == UpToDate <==> c in was && c in now && was[c].foldHash == now[c].foldHash)
    && (verdict == Refold <==>
          c in was && c in now && was[c].foldHash != now[c].foldHash && SamePlace(was[c], now[c]))
    && (verdict == Reshape <==>
          c in was && c in now && was[c].foldHash != now[c].foldHash && !SamePlace(was[c], now[c]))
  }

  /** A column keeps its cells exactly when its fold does the same, and its place only if its shape
      and seed did not move. */
  lemma JudgeFits(was: Catalog, now: Catalog, c: Column)
    requires c in was || c in now
    ensures Means(was, now, c, Judge(was, now, c))
  {
  }

  /** The column itself goes: its cells with it. */
  predicate Empties(verdict: Verdict) {
    verdict.Drop? || verdict.Reshape?
  }

  datatype Slot = Slot(identity: Option<Identity>, built: Option<nat>)

  function Applied(was: Slot, verdict: Verdict, now: Catalog, c: Column): Slot
    requires Refills(verdict) ==> c in now
  {
    if verdict.Drop? then Slot(None, None) else if Refills(verdict) then Slot(Some(now[c]), Some(0)) else was
  }

  /** The store with the catalog it records. */
  class Deployed {
    const store: FoldStore
    var recorded: Catalog

    constructor (store: FoldStore)
      ensures this.store == store && recorded == map[]
    {
      this.store, recorded := store, map[];
    }

    /** Every column recorded, and nothing held for any other. */
    predicate Tidy()
      reads this, store
    {
      store.builtTo.Keys == recorded.Keys && forall at :: at in store.cells ==> at.0 in recorded
    }

    /** What is recorded of one column. */
    function At(c: Column): Slot
      reads this`recorded, store`builtTo
    {
      Slot(if c in recorded then Some(recorded[c]) else None,
           if c in store.builtTo then Some(store.builtTo[c]) else None)
    }

    /** Bring the schema and the catalog to what the program says. Nothing is folded here: a column to
        refill is recorded as built to zero. */
    method Apply(now: Catalog) returns (changes: map<Column, Verdict>)
      requires Tidy()
      modifies this, store`cells, store`builtTo
      ensures Tidy() && recorded.Keys == now.Keys
      ensures changes.Keys == old(recorded).Keys + now.Keys
      ensures forall c :: c in changes ==> changes[c] == Judge(old(recorded), now, c)
      ensures forall c :: c in now && Refills(changes[c]) ==> At(c) == Slot(Some(now[c]), Some(0))
      ensures forall c :: c in now && !Refills(changes[c]) ==>
        c in old(recorded) && At(c) == old(At(c)) && old(recorded)[c].foldHash == now[c].foldHash
      ensures forall at :: at in store.cells <==>
        at in old(store.cells) && at.0 in now && changes[at.0] != Reshape
      ensures forall at :: at in store.cells ==> store.cells[at] == old(store.cells)[at]
    {
      changes := Reconcile(recorded, now);
      forall c | c in changes ensures Means(recorded, now, c, changes[c]) {
        JudgeFits(recorded, now, c);
      }
      hide Judge;
      ApplyEach(changes, now);
      forall c ensures c in recorded <==> c in now {
        assert At(c).identity.Some? <==> c in recorded;
        assert c !in changes ==> At(c) == old(At(c));
      }
      forall c ensures c in store.builtTo <==> c in recorded {
        assert At(c).built.Some? <==> c in store.builtTo;
        assert old(At(c).built.Some? <==> At(c).identity.Some?);
      }
    }

    method ApplyEach(changes: map<Column, Verdict>, now: Catalog)
      requires forall c :: c in changes && Refills(changes[c]) ==> c in now
      modifies this, store`cells, store`builtTo
      ensures forall c :: At(c) == if c in changes then Applied(old(At(c)), changes[c], now, c) else old(At(c))
      ensures forall at :: at in store.cells <==> at in old(store.cells) && !(at.0 in changes && Empties(changes[at.0]))
      ensures forall at :: at in store.cells ==> store.cells[at] == old(store.cells)[at]
    {
      var rest := changes.Keys;
      while rest != {}
        invariant rest <= changes.Keys
        invariant forall c ::
          At(c) == if c in changes && c !in rest then Applied(old(At(c)), changes[c], now, c) else old(At(c))
        invariant forall at :: at in store.cells <==>
          at in old(store.cells) && !(at.0 in changes && at.0 !in rest && Empties(changes[at.0]))
        invariant forall at :: at in store.cells ==> store.cells[at] == old(store.cells)[at]
      {
        var c :| c in rest;
        rest := rest - {c};
        hide Applied, Empties;
        ApplyOne(c, changes[c], now);
      }
    }

    method ApplyOne(c: Column, verdict: Verdict, now: Catalog)
      requires Refills(verdict) ==> c in now
      modifies this, store`cells, store`builtTo
      ensures forall o :: At(o) == if o == c then Applied(old(At(o)), verdict, now, c) else old(At(o))
      ensures forall at :: at in store.cells <==> at in old(store.cells) && !(at.0 == c && Empties(verdict))
      ensures forall at :: at in store.cells ==> store.cells[at] == old(store.cells)[at]
    {
      if Empties(verdict) {
        store.ResetColumn(c);
      }
      if verdict.Drop? {
        recorded, store.builtTo := recorded - {c}, store.builtTo - {c};
      } else if Refills(verdict) {
        recorded, store.builtTo := recorded[c := now[c]], store.builtTo[c := 0];
      }
    }
  }

  // ----- what a deploy leaves ----------------------------------------------

  /** The columns judged up to date. */
  function Standing(was: Catalog, now: Catalog): set<Column> {
    set c | c in was && c in now && was[c].foldHash == now[c].foldHash
  }

  /** The cells a deploy does not take away. No row ever goes. */
  function Surviving(was: Catalog, now: Catalog, s: State): State {
    State(map at | at in s.cells && at.0 in was && at.0 in now && Judge(was, now, at.0) != Reshape :: s.cells[at],
          s.keys)
  }

  /** The columns a deploy leaves behind the checkpoint, beside those that were behind already. */
  function Lagging(was: Catalog, now: Catalog, behind: set<Column>, checkpoint: nat): set<Column> {
    (Standing(was, now) * behind) + if checkpoint == 0 then {} else now.Keys - Standing(was, now)
  }

  /** The state a backfill leaves after a deploy. */
  ghost function Landed(q: Program, was: Catalog, now: Catalog, behind: set<Column>, s: State, log: seq<Record>,
                        n: nat): State
    requires n <= |log|
  {
    Filled(q, Lagging(was, now, behind, n), Surviving(was, now, s), Truth(q, log, n))
  }

  /** A column lags after a deploy if it is refilled with something to catch up on, or lagged before. */
  lemma LagsOne(was: Catalog, now: Catalog, behind: set<Column>, checkpoint: nat, c: Column, before: Option<nat>,
                after: nat)
    requires c in now && (c in behind <==> before.Some? && before.value < checkpoint)
    requires if Refills(Judge(was, now, c)) then after == 0 else before == Some(after)
    ensures after < checkpoint <==> c in Lagging(was, now, behind, checkpoint)
  {
    JudgeFits(was, now, c);
  }

  /** What a deploy makes of the store: what survives, and what lags. */
  method Deploy(d: Deployed, ghost q: Program, now: Catalog)
    requires d.Tidy()
    modifies d, d.store`cells, d.store`builtTo
    ensures d.Tidy() && d.recorded.Keys == now.Keys
    ensures forall c :: c in now ==> d.recorded[c].foldHash == now[c].foldHash
    ensures d.store.Behind() == Lagging(old(d.recorded), now, old(d.store.Behind()), d.store.checkpoint)
    ensures d.store.View(q) == Surviving(old(d.recorded), now, old(d.store.View(q)))
  {
    ghost var was, behind, s := d.recorded, d.store.Behind(), d.store.View(q);
    var changes := d.Apply(now);
    forall c | c in now ensures c in d.store.Behind() <==> c in Lagging(was, now, behind, d.store.checkpoint)
      ensures d.recorded[c].foldHash == now[c].foldHash
    {
      assert d.At(c) == Slot(Some(d.recorded[c]), Some(d.store.builtTo[c]));
      LagsOne(was, now, behind, d.store.checkpoint, c, old(d.At(c)).built, d.store.builtTo[c]);
    }
    assert d.store.View(q).cells == Surviving(was, now, s).cells by {
      forall at | at in s.cells && at.0 in was && at.0 in now
        ensures changes[at.0] == Judge(was, now, at.0) {
      }
    }
  }

  /** A deploy, and then the log. Whatever the store held, it ends as applying every further record to
      what the deploy and the backfill left. */
  method Redeploy(d: Deployed, q: Program, now: Catalog, log: seq<Record>, heads: seq<nat>)
    requires d.Tidy() && ProgramKeyed(q) && Keyed(q, d.store.rows)
    requires d.store.checkpoint <= |log| && Declares(q, log, now.Keys)
    requires forall i :: 0 <= i < |heads| ==> d.store.checkpoint <= heads[i] <= |log|
    requires forall i, j :: 0 <= i < j < |heads| ==> heads[i] <= heads[j]
    modifies d, d.store
    ensures d.Tidy() && d.recorded.Keys == now.Keys && d.store.Behind() == {} && Keyed(q, d.store.rows)
    ensures forall c :: c in now ==> d.recorded[c].foldHash == now[c].foldHash
    ensures d.store.checkpoint == if heads == [] then old(d.store.checkpoint) else heads[|heads| - 1]
    ensures old(d.store.checkpoint) <= d.store.checkpoint <= |log|
    ensures d.store.View(q) ==
      ApplyAll(q, Landed(q, old(d.recorded), now, old(d.store.Behind()), old(d.store.View(q)), log,
        old(d.store.checkpoint)), log[old(d.store.checkpoint)..d.store.checkpoint])
  {
    ghost var was, behind, s, n := d.recorded, d.store.Behind(), d.store.View(q), d.store.checkpoint;
    ghost var landed := Landed(q, was, now, behind, s, log, n);
    hide Lagging, Surviving, ProgramKeyed, Declares, Truth, Filled;
    LandedTidy(q, was, now, behind, s, log, n);
    Deploy(d, q, now);
    Follow(d.store, q, now.Keys, log, heads);
    hide Landed;
    assert forall r :: r in log[n..d.store.checkpoint] ==> r in log;
    StaysTidy(q, now.Keys, landed, log[n..d.store.checkpoint], log);
    assert d.store.View(q) == ApplyAll(q, landed, log[n..d.store.checkpoint]);
    assert d.store.cells == d.store.View(q).cells;
  }

  lemma LandedTidy(q: Program, was: Catalog, now: Catalog, behind: set<Column>, s: State, log: seq<Record>, n: nat)
    requires n <= |log|
    ensures forall at :: at in Landed(q, was, now, behind, s, log, n).cells ==> at.0 in now
  {
  }

  // ----- when following goes on as if from the start -----------------------

  /** The tables that may hold a key no fold of the new program mints. */
  function StaleAfter(main: string -> string, was: Shape, stands: set<Column>, stale: set<string>): set<string> {
    stale + set a | a in was.exact && a !in stands :: main(a.table)
  }

  /** What to ask before a deploy: every column that one standing looks up stands too; every column that
      mints exact keys where one standing ranges stands too; and no column ranges where a column that
      minted exact keys has gone or changed, now or in a deploy before. */
  predicate Keeps(main: string -> string, was: Shape, now: Shape, stands: set<Column>, stale: set<string>) {
    && (forall pair :: pair in now.looks && pair.0 in stands ==> pair.1 in stands)
    && (forall b, a :: b in now.ranging && a in now.exact && b in stands && main(b.table) == main(a.table) ==>
         a in stands)
    && (forall b :: b in now.ranging ==> main(b.table) !in StaleAfter(main, was, stands, stale))
  }

  /** A fold that stands is of one shape in both programs. */
  ghost predicate SameShape(was: Shape, now: Shape, stands: set<Column>) {
    && (forall c :: c in stands ==> (c in was.exact <==> c in now.exact) && (c in was.ranging <==> c in now.ranging))
    && forall pair: (Column, Column) :: pair.0 in stands ==> (pair in was.looks <==> pair in now.looks)
  }

  /** Two programs and a deploy from one to the other: a fold of the same hash has the same arms. */
  ghost predicate Deploys(p: Program, q: Program, ws: Shape, ns: Shape, was: Catalog, now: Catalog) {
    && SameFor(p, q, Standing(was, now)) && Shaped(p, ws) && Shaped(q, ns)
    && Among(ws, was.Keys) && Among(ns, now.Keys) && SameShape(ws, ns, Standing(was, now))
  }

  lemma {:induction false} KeptMeans(arms: seq<Arm>, stands: set<Column>)
    ensures forall arm :: arm in Kept(arms, stands) <==> arm in arms && arm.column in stands
  {
    if arms != [] {
      KeptMeans(arms[1..], stands);
      assert arms == [arms[0]] + arms[1..];
    }
  }

  lemma StandsWithin(p: Program, q: Program, stands: set<Column>, ns: Shape, r: Record)
    requires SameFor(p, q, stands) && Shaped(q, ns)
    requires forall pair :: pair in ns.looks && pair.0 in stands ==> pair.1 in stands
    ensures LooksWithin(Kept(p.arms(r), stands), stands)
    ensures forall arm :: arm in p.arms(r) && arm.column in stands ==> Fits(arm, ns)
  {
    KeptMeans(p.arms(r), stands);
    KeptMeans(q.arms(r), stands);
    forall arm | arm in p.arms(r) && arm.column in stands ensures Fits(arm, ns) {
      assert arm in Kept(q.arms(r), stands);
    }
    forall arm, k, i | arm in Kept(p.arms(r), stands) && 0 <= i < |arm.lookups(k)|
      ensures arm.lookups(k)[i].0 in stands
    {
      assert Fits(arm, ns) && (arm.column, arm.lookups(k)[i].0) in ns.looks;
    }
  }

  lemma StandsClosed(p: Program, q: Program, ws: Shape, ns: Shape, stands: set<Column>, stale: set<string>,
                     log: seq<Record>)
    requires SameFor(p, q, stands) && Shaped(p, ws) && Shaped(q, ns) && Keeps(q.main, ws, ns, stands, stale)
    ensures Closed(p, log, stands) && Closed(q, log, stands)
  {
    forall arm, k, i | (HasArm(p, log, arm) || HasArm(q, log, arm)) && arm.column in stands && 0 <= i < |arm.lookups(k)|
      ensures arm.lookups(k)[i].0 in stands
    {
      StandingFits(p, q, stands, ns, log, arm);
      assert (arm.column, arm.lookups(k)[i].0) in ns.looks;
    }
    forall arm | HasArm(p, log, arm) && arm.target.Exact? && Ranged(p, log, stands, p.main(arm.column.table))
      ensures arm.column in stands
    {
      var b :| HasArm(p, log, b) && b.column in stands && b.target.Range?
        && p.main(b.column.table) == p.main(arm.column.table);
      StandingFits(p, q, stands, ns, log, b);
      assert Fits(arm, ws);
      assert b.column in ns.ranging && arm.column in ws.exact && p.main(b.column.table) == q.main(b.column.table);
    }
    forall arm | HasArm(q, log, arm) && arm.target.Exact? && Ranged(q, log, stands, q.main(arm.column.table))
      ensures arm.column in stands
    {
      var b :| HasArm(q, log, b) && b.column in stands && b.target.Range?
        && q.main(b.column.table) == q.main(arm.column.table);
      assert Fits(b, ns) && Fits(arm, ns);
    }
  }

  lemma StandingFits(p: Program, q: Program, stands: set<Column>, ns: Shape, log: seq<Record>, arm: Arm)
    requires SameFor(p, q, stands) && Shaped(q, ns) && arm.column in stands
      && (HasArm(p, log, arm) || HasArm(q, log, arm))
    ensures Fits(arm, ns)
  {
    if HasArm(p, log, arm) {
      var r :| r in log && arm in p.arms(r);
      KeptMeans(p.arms(r), stands);
      KeptMeans(q.arms(r), stands);
      assert arm in Kept(q.arms(r), stands);
    }
  }

  /** A column that stands is followed to the same cells by both programs. */
  lemma StandsFollow(p: Program, q: Program, ws: Shape, ns: Shape, stands: set<Column>, stale: set<string>,
                     log: seq<Record>, n: nat, c: Column, k: Key)
    requires SameFor(p, q, stands) && Shaped(p, ws) && Shaped(q, ns) && Keeps(q.main, ws, ns, stands, stale)
    requires n <= |log| && c in stands
    ensures Cell(Truth(p, log, n), c, k) == Cell(Truth(q, log, n), c, k)
  {
    StandsClosed(p, q, ws, ns, stands, stale, log[..n]);
    ReplayFollows(p, log[..n], stands, c, k);
    ReplayFollows(q, log[..n], stands, c, k);
    forall r ensures LooksWithin(Kept(p.arms(r), stands), stands) { StandsWithin(p, q, stands, ns, r); }
    SameAllFor(p, q, stands, EMPTY, log[..n]);
  }

  /** Under the guard a store that followed one program is left as following the next would have it. */
  lemma DeployFollowed(p: Program, q: Program, ws: Shape, ns: Shape, was: Catalog, now: Catalog, stale: set<string>,
                       log: seq<Record>, n: nat, behind: set<Column>, s: State)
    requires Deploys(p, q, ws, ns, was, now) && Keeps(q.main, ws, ns, Standing(was, now), stale)
    requires n <= |log| && (n == 0 ==> behind == {}) && Followed(p, log, n, was.Keys, behind, stale, s)
    ensures Followed(q, log, n, now.Keys, {}, StaleAfter(q.main, ws, Standing(was, now), stale),
      Landed(q, was, now, behind, s, log, n))
  {
    var stands := Standing(was, now);
    var truth, truth', landed := Truth(p, log, n), Truth(q, log, n), Landed(q, was, now, behind, s, log, n);
    var lagging := Lagging(was, now, behind, n);
    TruthMinted(p, log, ws, was.Keys, n);
    TruthMinted(q, log, ns, now.Keys, n);
    forall c, k
      ensures Cell(landed, c, k) == if c in lagging then Cell(truth', c, k) else Cell(Surviving(was, now, s), c, k)
    {
      FilledCells(q, lagging, Surviving(was, now, s), truth', c, k);
    }
    forall table, k ensures (table, k) in landed.keys <==>
      (table, k) in s.keys || exists c :: c in lagging && Writes(q, truth', c, table, k)
    {
      FilledKeys(q, lagging, Surviving(was, now, s), truth', table, k);
    }
    forall c, k | c in stands ensures Cell(truth, c, k) == Cell(truth', c, k) {
      StandsFollow(p, q, ws, ns, stands, stale, log, n, c, k);
    }
    hide Landed, Shaped, Keeps, SameFor, Filled, Truth, SameShape;
    LandedCells(p, q, was, now, log, n, behind, s, stale);
    LandedKeys(p, q, ws, ns, was, now, log, n, behind, s, stale);
  }

  lemma LandedCells(p: Program, q: Program, was: Catalog, now: Catalog, log: seq<Record>, n: nat, behind: set<Column>,
                    s: State, stale: set<string>)
    requires n <= |log| && (n == 0 ==> behind == {}) && Followed(p, log, n, was.Keys, behind, stale, s)
      && p.main == q.main
    requires forall c, k :: c in Standing(was, now) ==> Cell(Truth(p, log, n), c, k) == Cell(Truth(q, log, n), c, k)
    requires forall c, k :: (c, k) in Truth(q, log, n).cells ==>
      c in now && (q.main(c.table), k) in Truth(q, log, n).keys
    ensures
      var landed := Landed(q, was, now, behind, s, log, n);
      && (forall c, k :: c in now ==> Cell(landed, c, k) == Cell(Truth(q, log, n), c, k))
      && (forall c, k :: (c, k) in landed.cells ==> c in now && (q.main(c.table), k) in landed.keys)
  {
    var lagging, truth, truth' := Lagging(was, now, behind, n), Truth(p, log, n), Truth(q, log, n);
    var kept := Surviving(was, now, s);
    var landed := Landed(q, was, now, behind, s, log, n);
    forall c, k ensures Cell(landed, c, k) == if c in lagging then Cell(truth', c, k) else Cell(kept, c, k) {
      FilledCells(q, lagging, kept, truth', c, k);
    }
    forall c, k | c in now && c !in lagging ensures Cell(kept, c, k) == Cell(truth', c, k) {
      if c in Standing(was, now) {
        assert Judge(was, now, c) == UpToDate;
        assert Cell(kept, c, k) == Cell(s, c, k) == Cell(truth, c, k) == Cell(truth', c, k);
      } else {
        assert n == 0;
        if c in was { assert Cell(s, c, k) == Cell(truth, c, k); }
      }
    }
    forall c, k | (c, k) in landed.cells ensures c in now && (q.main(c.table), k) in landed.keys {
      if c in lagging {
        assert Cell(truth', c, k).Some?;
        assert Writes(q, truth', c, q.main(c.table), k);
      } else {
        assert Cell(kept, c, k).Some?;
      }
      FilledKeys(q, lagging, kept, truth', q.main(c.table), k);
    }
  }

  lemma LandedKeys(p: Program, q: Program, ws: Shape, ns: Shape, was: Catalog, now: Catalog, log: seq<Record>, n: nat,
                   behind: set<Column>, s: State, stale: set<string>)
    requires n <= |log| && Followed(p, log, n, was.Keys, behind, stale, s) && p.main == q.main
    requires Minted(p, was.Keys, ws.exact, Truth(p, log, n)) && Minted(q, now.Keys, ns.exact, Truth(q, log, n))
    requires forall c, k :: c in Standing(was, now) ==> Cell(Truth(p, log, n), c, k) == Cell(Truth(q, log, n), c, k)
    ensures forall table, k ::
      (table, k) in Landed(q, was, now, behind, s, log, n).keys
        && table !in StaleAfter(q.main, ws, Standing(was, now), stale) ==>
      (table, k) in Truth(q, log, n).keys
  {
    var lagging, truth, truth' := Lagging(was, now, behind, n), Truth(p, log, n), Truth(q, log, n);
    forall table, k | (table, k) in Landed(q, was, now, behind, s, log, n).keys
                      && table !in StaleAfter(q.main, ws, Standing(was, now), stale)
      ensures (table, k) in truth'.keys
    {
      FilledKeys(q, lagging, Surviving(was, now, s), truth', table, k);
      if (table, k) in s.keys {
        var a :| a in ws.exact && Writes(p, truth, a, table, k);
        assert a in Standing(was, now);
        assert Cell(truth, a, k) == Cell(truth', a, k);
        assert (a, k) in truth'.cells;
      }
    }
  }

  /** So a guarded deploy goes on as if the new program had followed the log from its start. */
  lemma DeployRight(p: Program, q: Program, ws: Shape, ns: Shape, was: Catalog, now: Catalog, stale: set<string>,
                    log: seq<Record>, n: nat, m: nat, behind: set<Column>, s: State)
    requires Deploys(p, q, ws, ns, was, now) && Keeps(q.main, ws, ns, Standing(was, now), stale)
    requires n <= m <= |log| && (n == 0 ==> behind == {}) && Followed(p, log, n, was.Keys, behind, stale, s)
    ensures
      var s' := ApplyAll(q, Landed(q, was, now, behind, s, log, n), log[n..m]);
      && Followed(q, log, m, now.Keys, {}, StaleAfter(q.main, ws, Standing(was, now), stale), s')
      && forall c, k :: c in now ==> Get(q, s', c, k) == Get(q, Truth(q, log, m), c, k)
  {
    DeployFollowed(p, q, ws, ns, was, now, stale, log, n, behind, s);
    hide Followed, Shaped, SameFor, Landed;
    FollowedOn(q, log, n, m, ns, now.Keys, StaleAfter(q.main, ws, Standing(was, now), stale),
      Landed(q, was, now, behind, s, log, n));
  }

  /** What one guarded deploy leaves is what the next may start from: a store that stands as following
      its program would have it, with the tables listed where keys may be stale. */
  method RedeployKept(d: Deployed, ghost p: Program, q: Program, ghost ws: Shape, ghost ns: Shape, now: Catalog,
                      ghost stale: set<string>, log: seq<Record>, heads: seq<nat>)
    requires d.Tidy() && ProgramKeyed(q) && Keyed(q, d.store.rows) && d.store.checkpoint <= |log|
    requires Deploys(p, q, ws, ns, d.recorded, now) && Keeps(q.main, ws, ns, Standing(d.recorded, now), stale)
    requires Followed(p, log, d.store.checkpoint, d.recorded.Keys, d.store.Behind(), stale, d.store.View(q))
    requires forall i :: 0 <= i < |heads| ==> d.store.checkpoint <= heads[i] <= |log|
    requires forall i, j :: 0 <= i < j < |heads| ==> heads[i] <= heads[j]
    modifies d, d.store
    ensures d.Tidy() && d.recorded.Keys == now.Keys && d.store.Behind() == {} && Keyed(q, d.store.rows)
    ensures d.store.checkpoint == (if heads == [] then old(d.store.checkpoint) else heads[|heads| - 1])
      && d.store.checkpoint <= |log|
    ensures forall c, k :: c in now ==>
      Get(q, d.store.View(q), c, k) == Get(q, Truth(q, log, d.store.checkpoint), c, k)
    ensures Followed(q, log, d.store.checkpoint, d.recorded.Keys, {},
                     StaleAfter(q.main, ws, Standing(old(d.recorded), now), stale), d.store.View(q))
  {
    ghost var was, behind, s, n := d.recorded, d.store.Behind(), d.store.View(q), d.store.checkpoint;
    ShapedDeclares(q, log, ns, now.Keys);
    hide Followed, Keeps, Declares, Landed, Standing;
    Redeploy(d, q, now, log, heads);
    hide Deploys;
    DeployRight(p, q, ws, ns, was, now, stale, log, n, d.store.checkpoint, behind, s);
  }
}
