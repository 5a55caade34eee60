/** Two runs of a new deployment after which an adoption has answered `Undone` and the secret its
    subject had is gone: one loses it to the orphan sweep, the other to an ordinary write. */
module KeyLost {
  import opened Options
  import opened KeyStore
  import opened KeyHistory
  import opened KeySteps
  import opened KeyRuns
  import opened KeyErasure
  import opened KeyUndo
  import opened KeyCounterexample

  const READING := Frame([SHOP], MINT_ATTEMPTS, Reading)
  const WRITING := Frame([ACCOUNT, SHOP], MINT_ATTEMPTS, Reading)
  const NEW_SHOP := MasterRow("m", 3, 3)
  const NEW_CHILD := ChildRow(ACCOUNT, SHOP, 3, 4, 4)

  function Minting0(stack: seq<Frame>): World {
    Fresh("m").(threads := map[0 := Minting(stack)])
  }

  /** The account is minted as a root, and its adoption under a shop begins. */
  function Adopting1(at: Adoption): map<nat, Thread> {
    map[0 := Minted(ACCOUNT, Some(0)), 1 := Adopting([ACCOUNT, SHOP], at)]
  }

  function Rooted(threads: map<nat, Thread>): World {
    World(map[ACCOUNT := ACCOUNT_ROOT], "m", threads, 1, map[0 := ACCOUNT], {}, {}, {})
  }

  /** The shop has been erased between its mint and the adoption's commit. */
  function Committed(threads: map<nat, Thread>): World {
    World(map[ACCOUNT := ACCOUNT_CHILD], "m", threads, 3, map[0 := ACCOUNT, 1 := SHOP], {1}, {1}, {(0, 1)})
  }

  function Shared(k: nat): World {
    var shop := World(map[ACCOUNT := ACCOUNT_ROOT, SHOP := SHOP_ROOT], "m", Adopting1(AtCommit(ACCOUNT_ROOT, 1)), 2,
                      map[0 := ACCOUNT, 1 := SHOP], {}, {}, {});
    match k
    case 0 => Fresh("m")
    case 1 => Minting0([Frame([ACCOUNT], MINT_ATTEMPTS, Reading)])
    case 2 => Minting0([Frame([ACCOUNT], MINT_ATTEMPTS, Inserting(None, None))])
    case 3 => Rooted(map[0 := Minted(ACCOUNT, Some(0))])
    case 4 => Rooted(Adopting1(AtRow))
    case 5 => Rooted(Adopting1(AtMint(ACCOUNT_ROOT, [READING])))
    case 6 => Rooted(Adopting1(AtMint(ACCOUNT_ROOT, [READING.(phase := Inserting(None, None))])))
    case 7 => shop
    case 8 => shop.(rows := map[ACCOUNT := ACCOUNT_ROOT], retired := {1}, erased := {1})
    case 9 => Committed(Adopting1(AtReadback(ACCOUNT_CHILD.box, [])))
    case 10 => Committed(Adopting1(AtReadback(ACCOUNT_CHILD.box, [ACCOUNT_CHILD])))
    case _ => Committed(Adopting1(AtRestore(ACCOUNT_CHILD.box)))
  }

  function SharedScript(): (run: seq<Step>)
    ensures |run| == 11
  {
    [StartMint(0, [ACCOUNT]), Mint(0), Mint(0), StartAdopt(1, [ACCOUNT, SHOP]), Adopt(1), Adopt(1), Adopt(1),
     Erase(SHOP), Adopt(1), Adopt(1), Adopt(1)]
  }

  // ----- lost to the sweep -------------------------------------------------

  function Undid(): map<nat, Thread> {
    map[0 := Minted(ACCOUNT, Some(0)), 1 := AdoptDone([ACCOUNT, SHOP], Undone)]
  }

  function SweptAway(k: nat): World {
    var gone := Shared(11).(rows := map[], retired := {0, 1});
    match k
    case 0 => Shared(11)
    case 1 => gone
    case _ => gone.(threads := Undid(), next := 4)
  }

  function SweepScript(): (run: seq<Step>)
    ensures |run| == 2
  {
    [Sweep(ACCOUNT), Adopt(1)]
  }

  // ----- lost to a write ---------------------------------------------------

  function Writing(stack: seq<Frame>): World {
    Committed(Adopting1(AtRestore(ACCOUNT_CHILD.box))[2 := Minting(stack)])
  }

  function Overwritten(k: nat): World {
    var waiting := WRITING.(phase := Waiting(Some(ACCOUNT_CHILD)));
    var again := Writing([WRITING.(phase := Inserting(Some(ACCOUNT_CHILD), Some(3)))]).(
      rows := map[ACCOUNT := ACCOUNT_CHILD, SHOP := NEW_SHOP], next := 4,
        born := map[0 := ACCOUNT, 1 := SHOP, 3 := SHOP]);
    var written := again.(
      rows := map[ACCOUNT := NEW_CHILD, SHOP := NEW_SHOP], next := 5, retired := {0, 1}, filed := {(0, 1), (4, 3)},
      born := map[0 := ACCOUNT, 1 := SHOP, 3 := SHOP, 4 := ACCOUNT],
      threads := Adopting1(AtRestore(ACCOUNT_CHILD.box))[2 := Minted(ACCOUNT, Some(4))]);
    match k
    case 0 => Shared(11)
    case 1 => Writing([WRITING])
    case 2 => Writing([WRITING.(phase := Judging([ACCOUNT_CHILD]))])
    case 3 => Writing([waiting, READING])
    case 4 => Writing([waiting, READING.(phase := Inserting(None, None))])
    case 5 => again
    case 6 => written
    case _ => written.(next := 6, threads := Undid()[2 := Minted(ACCOUNT, Some(4))])
  }

  function WriteScript(): (run: seq<Step>)
    ensures |run| == 7
  {
    [StartMint(2, [ACCOUNT, SHOP]), Mint(2), Mint(2), Mint(2), Mint(2), Mint(2), Adopt(1)]
  }

  // ----- the steps ---------------------------------------------------------

  lemma MintsAccount(k: nat)
    requires k < 3
    ensures Plays(Shared, SharedScript(), k)
  {
    var reading := Frame([ACCOUNT], MINT_ATTEMPTS, Reading);
    assert [reading][0 := reading.(phase := Inserting(None, None))] == [reading.(phase := Inserting(None, None))];
    assert [reading.(phase := Inserting(None, None))][..0] == [];
  }

  lemma MintsShop(k: nat)
    requires 3 <= k < 7
    ensures Plays(Shared, SharedScript(), k)
  {
    assert [ACCOUNT, SHOP][1..] == [SHOP];
    assert [READING][0 := READING.(phase := Inserting(None, None))] == [READING.(phase := Inserting(None, None))];
    assert [READING.(phase := Inserting(None, None))][..0] == [];
  }

  lemma CommitsOverErase(k: nat)
    requires 7 <= k < 9
    ensures Plays(Shared, SharedScript(), k)
  {
    assert map[ACCOUNT := ACCOUNT_ROOT, SHOP := SHOP_ROOT] - {SHOP} == map[ACCOUNT := ACCOUNT_ROOT];
    assert map[ACCOUNT := ACCOUNT_ROOT][ACCOUNT := ACCOUNT_CHILD] == map[ACCOUNT := ACCOUNT_CHILD];
  }

  lemma ReadsBack(k: nat)
    requires 9 <= k < 11
    ensures Plays(Shared, SharedScript(), k)
  {
    assert [] + [ACCOUNT_CHILD] == [ACCOUNT_CHILD];
  }

  lemma Sweeps(k: nat)
    requires k < 2
    ensures Plays(SweptAway, SweepScript(), k)
  {
    assert map[ACCOUNT := ACCOUNT_CHILD] - {ACCOUNT} == map[];
  }

  lemma Judges(k: nat)
    requires k < 3
    ensures Plays(Overwritten, WriteScript(), k)
  {
    assert [ACCOUNT, SHOP][1..] == [SHOP];
    assert [] + [ACCOUNT_CHILD] == [ACCOUNT_CHILD];
    var waiting := WRITING.(phase := Waiting(Some(ACCOUNT_CHILD)));
    var judging := WRITING.(phase := Judging([ACCOUNT_CHILD]));
    assert [WRITING][0 := judging] == [judging];
    assert [judging][0 := waiting] + [READING] == [waiting, READING];
  }

  lemma Descends()
    ensures Plays(Overwritten, WriteScript(), 3)
  {
    var waiting := WRITING.(phase := Waiting(Some(ACCOUNT_CHILD)));
    var inserting := READING.(phase := Inserting(None, None));
    assert [waiting, READING][1 := inserting] == [waiting, inserting];
  }

  lemma ShopInserted()
    ensures Insert(Overwritten(4), SHOP, None, None) == Overwritten(5).(threads := Overwritten(4).threads)
  {
    assert Overwritten(4).rows[SHOP := NEW_SHOP] == Overwritten(5).rows;
    assert Overwritten(4).born[3 := SHOP] == Overwritten(5).born;
  }

  lemma Replants()
    ensures Plays(Overwritten, WriteScript(), 4)
  {
    var waiting := WRITING.(phase := Waiting(Some(ACCOUNT_CHILD)));
    var inserting := READING.(phase := Inserting(None, None));
    var w := Overwritten(4);
    ShopInserted();
    hide Insert;
    assert [waiting, inserting][..1] == [waiting];
    assert [waiting][0 := WRITING.(phase := Inserting(Some(ACCOUNT_CHILD), Some(3)))]
        == [WRITING.(phase := Inserting(Some(ACCOUNT_CHILD), Some(3)))];
    assert w.threads[2].stack == [waiting, inserting];
    assert w.threads[2 := Minting([WRITING.(phase := Inserting(Some(ACCOUNT_CHILD), Some(3)))])]
      == Overwritten(5).threads;
  }

  lemma AccountInserted()
    ensures Insert(Overwritten(5), ACCOUNT, Some((SHOP, 3)), Some(ACCOUNT_CHILD))
      == Overwritten(6).(threads := Overwritten(5).threads)
  {
    var w := Overwritten(5);
    assert w.rows[ACCOUNT := NEW_CHILD] == Overwritten(6).rows;
    assert w.born[4 := ACCOUNT] == Overwritten(6).born;
    assert w.retired + {0} == Overwritten(6).retired;
    assert w.filed + {(4, 3)} == Overwritten(6).filed;
  }

  lemma Rewrites()
    ensures Plays(Overwritten, WriteScript(), 5)
  {
    var inserting := [WRITING.(phase := Inserting(Some(ACCOUNT_CHILD), Some(3)))];
    assert inserting[..0] == [];
    AccountInserted();
    hide Insert;
    assert Overwritten(5).threads[2].stack == inserting;
    assert Overwritten(5).threads[2 := Minted(ACCOUNT, Some(4))] == Overwritten(6).threads;
  }

  lemma FindsItReplaced()
    ensures Plays(Overwritten, WriteScript(), 6)
  {
  }

  // ----- the runs ----------------------------------------------------------

  lemma SharedReached()
    ensures Reaches(LevelOf, Fresh("m"), SharedScript(), Shared(11))
  {
    assert Shared(0) == Fresh("m") && SharedScript()[0..] == SharedScript();
    hide Plays, Reaches, Shared;
    forall k: nat | k < 11 ensures Plays(Shared, SharedScript(), k) {
      if k < 3 { MintsAccount(k); }
      else if k < 7 { MintsShop(k); }
      else if k < 9 { CommitsOverErase(k); }
      else { ReadsBack(k); }
    }
    PlaysReach(Shared, SharedScript(), 0);
  }

  lemma SweepReached()
    ensures Reaches(LevelOf, Shared(11), SweepScript(), SweptAway(2))
  {
    assert SweptAway(0) == Shared(11) && SweepScript()[0..] == SweepScript();
    hide Plays, Reaches, Shared, SweptAway;
    forall k: nat | k < 2 ensures Plays(SweptAway, SweepScript(), k) { Sweeps(k); }
    PlaysReach(SweptAway, SweepScript(), 0);
  }

  lemma WriteReached()
    ensures Reaches(LevelOf, Shared(11), WriteScript(), Overwritten(7))
  {
    assert Overwritten(0) == Shared(11) && WriteScript()[0..] == WriteScript();
    hide Plays, Reaches, Shared, Overwritten;
    forall k: nat | k < 7 ensures Plays(Overwritten, WriteScript(), k) {
      if k < 3 { Judges(k); }
      else if k == 3 { Descends(); }
      else if k == 4 { Replants(); }
      else if k == 5 { Rewrites(); }
      else { FindsItReplaced(); }
    }
    PlaysReach(Overwritten, WriteScript(), 0);
  }

  lemma {:induction false} RunsJoin(levels: Levels, w: World, run: seq<Step>, mid: World, more: seq<Step>, w': World)
    requires Reaches(levels, w, run, mid) && Reaches(levels, mid, more, w')
    ensures Reaches(levels, w, run + more, w')
    decreases |run|
  {
    if run == [] {
      assert run + more == more;
    } else {
      var next :| Next(levels, w, run[0], next) && Reaches(levels, next, run[1..], mid);
      hide Next, Enabled;
      RunsJoin(levels, next, run[1..], mid, more, w');
      assert (run + more)[1..] == run[1..] + more;
    }
  }

  /** From an empty store: the account's adoption answers `Undone`, and the sweep has taken the account's key. */
  lemma LostToSweep()
    ensures Reaches(LevelOf, Fresh("m"), SharedScript() + SweepScript(), SweptAway(2))
    ensures SweptAway(2).threads[1] == AdoptDone([ACCOUNT, SHOP], Undone) && SweptAway(2).born[0] == ACCOUNT
    ensures 0 in SweptAway(2).retired && Opens(LevelOf, SweptAway(2).rows, ACCOUNT) == None
  {
    SharedReached();
    SweepReached();
    hide Reaches;
    RunsJoin(LevelOf, Fresh("m"), SharedScript(), Shared(11), SweepScript(), SweptAway(2));
  }

  /** And with no sweep in the run, and no erase of the account: a write that found the adopted row
      unreadable has put another key in its place. */
  lemma LostToWrite()
    ensures Reaches(LevelOf, Fresh("m"), SharedScript() + WriteScript(), Overwritten(7))
    ensures forall step :: step in SharedScript() + WriteScript() ==> !step.Sweep? && step != Erase(ACCOUNT)
    ensures Overwritten(7).threads[1] == AdoptDone([ACCOUNT, SHOP], Undone) && Overwritten(7).born[0] == ACCOUNT
    ensures 0 in Overwritten(7).retired && Opens(LevelOf, Overwritten(7).rows, ACCOUNT) == Some(4)
  {
    SharedReached();
    WriteReached();
    hide Reaches;
    RunsJoin(LevelOf, Fresh("m"), SharedScript(), Shared(11), WriteScript(), Overwritten(7));
  }
}
