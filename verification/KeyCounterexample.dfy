/** A run after which a subject was moved under its parent, and erasing the grandparent does not
    shred it for good. */
module KeyCounterexample {
  import opened Options
  import opened KeyStore
  import opened KeyHistory
  import opened KeySteps
  import opened KeyRuns
  import opened KeyErasure

  function LevelOf(subject: string): nat {
    if subject == "account" then 2 else if subject == "shop" then 1 else 0
  }

  const ACCOUNT := Id("account", "1")
  const SHOP := Id("shop", "1")
  const GROUP := Id("group", "1")

  /** Keys minted before the program declared a hierarchy: an account's and a shop's, both roots. */
  const ACCOUNT_ROOT := MasterRow("m", 0, 0)
  const SHOP_ROOT := MasterRow("m", 1, 1)
  const ACCOUNT_CHILD := ChildRow(ACCOUNT, SHOP, 1, 0, 2)
  const GROUP_ROOT := MasterRow("m", 3, 3)
  const SHOP_CHILD := ChildRow(SHOP, GROUP, 3, 1, 4)

  function Stored(): World {
    World(map[ACCOUNT := ACCOUNT_ROOT, SHOP := SHOP_ROOT], "m", map[], 2, map[0 := ACCOUNT, 1 := SHOP], {}, {}, {})
  }

  lemma StoredGood()
    ensures Good(LevelOf, Stored())
  {
  }

  /** The account's adoption under the shop at one of its stages. */
  function First(at: Adoption): map<nat, Thread> {
    map[0 := Adopting([ACCOUNT, SHOP], at)]
  }

  /** The shop's adoption under the group at one of its stages, once the account's has answered. */
  function Second(at: Adoption): map<nat, Thread> {
    map[0 := AdoptDone([ACCOUNT, SHOP], Moved), 1 := Adopting([SHOP, GROUP], at)]
  }

  function Adopted(threads: map<nat, Thread>): World {
    World(map[ACCOUNT := ACCOUNT_CHILD, SHOP := SHOP_ROOT], "m", threads, 3, map[0 := ACCOUNT, 1 := SHOP], {}, {},
      {(0, 1)})
  }

  function Scene(k: nat): World {
    var reading := Frame([GROUP], MINT_ATTEMPTS, Reading);
    if k == 0 then Stored()
    else if k == 1 then Stored().(threads := First(AtRow))
    else if k == 2 then Stored().(threads := First(AtMint(ACCOUNT_ROOT, [Frame([SHOP], MINT_ATTEMPTS, Reading)])))
    else if k == 3 then Stored().(threads := First(AtCommit(ACCOUNT_ROOT, 1)))
    else if k == 4 then Adopted(First(AtReadback(ACCOUNT_CHILD.box, [])))
    else if k == 5 then Adopted(First(AtReadback(ACCOUNT_CHILD.box, [ACCOUNT_CHILD])))
    else if k == 6 then Adopted(map[0 := AdoptDone([ACCOUNT, SHOP], Moved)])
    else if k == 7 then Adopted(Second(AtRow))
    else if k == 8 then Adopted(Second(AtMint(SHOP_ROOT, [reading])))
    else if k == 9 then Adopted(Second(AtMint(SHOP_ROOT, [reading.(phase := Inserting(None, None))])))
    else if k == 10 then
      World(map[ACCOUNT := ACCOUNT_CHILD, SHOP := SHOP_ROOT, GROUP := GROUP_ROOT], "m", Second(AtCommit(SHOP_ROOT, 3)),
        4, map[0 := ACCOUNT, 1 := SHOP, 3 := GROUP], {}, {}, {(0, 1)})
    else Final()
  }

  /** The account hangs from the shop and the shop, its adoption committed and not read back, from the group. */
  function Final(): (w: World)
    ensures 0 in w.threads && w.threads[0] == AdoptDone([ACCOUNT, SHOP], Moved)
    ensures ACCOUNT in w.rows && w.rows[ACCOUNT].box.secret == 0
  {
    World(map[ACCOUNT := ACCOUNT_CHILD, SHOP := SHOP_CHILD, GROUP := GROUP_ROOT], "m",
      Second(AtReadback(SHOP_CHILD.box, [])), 5, map[0 := ACCOUNT, 1 := SHOP, 3 := GROUP], {}, {}, {(0, 1), (1, 3)})
  }

  function Script(): (run: seq<Step>)
    ensures |run| == 11
  {
    [StartAdopt(0, [ACCOUNT, SHOP]), Adopt(0), Adopt(0), Adopt(0), Adopt(0), Adopt(0),
     StartAdopt(1, [SHOP, GROUP]), Adopt(1), Adopt(1), Adopt(1), Adopt(1)]
  }

  /** The script's next step takes one scene to the one after it. */
  ghost predicate Plays(scene: nat -> World, script: seq<Step>, k: nat) {
    k < |script| && Enabled(LevelOf, scene(k), script[k]) && Next(LevelOf, scene(k), script[k], scene(k + 1))
  }

  lemma {:induction false} PlaysReach(scene: nat -> World, script: seq<Step>, k: nat)
    requires k <= |script| && forall i: nat :: k <= i < |script| ==> Plays(scene, script, i)
    ensures Reaches(LevelOf, scene(k), script[k..], scene(|script|))
    decreases |script| - k
  {
    if k < |script| {
      assert Plays(scene, script, k);
      hide Next, Enabled;
      assert script[k..][0] == script[k] && script[k..][1..] == script[k + 1..];
      PlaysReach(scene, script, k + 1);
      assert Reaches(LevelOf, scene(k + 1), script[k..][1..], scene(|script|));
    }
  }

  ghost predicate Follows(k: nat) {
    Plays(Scene, Script(), k)
  }

  lemma StartFollows(k: nat)
    requires k < 2
    ensures Follows(k)
  {
    assert [ACCOUNT, SHOP][1..] == [SHOP];
  }

  lemma FoundFollows()
    ensures Follows(2)
  {
  }

  lemma CommitFollows()
    ensures Follows(3)
  {
  }

  lemma ReadsOwnFollows()
    ensures Follows(4)
  {
    assert [] + [ACCOUNT_CHILD] == [ACCOUNT_CHILD];
  }

  lemma ReadsParentFollows()
    ensures Follows(5)
  {
    assert OpenDown(ACCOUNT, [ACCOUNT_CHILD], 1) == Some(0) by {
      assert [ACCOUNT_CHILD][..0] == [];
    }
  }

  lemma SecondFollows()
    ensures Follows(6) && Follows(7)
  {
    assert [SHOP, GROUP][1..] == [GROUP];
  }

  lemma MintFollows()
    ensures Follows(8)
  {
    var reading := Frame([GROUP], MINT_ATTEMPTS, Reading);
    assert [reading][0 := reading.(phase := Inserting(None, None))] == [reading.(phase := Inserting(None, None))];
  }

  lemma InsertFollows()
    ensures Follows(9)
  {
    var inserting := Frame([GROUP], MINT_ATTEMPTS, Inserting(None, None));
    assert [inserting][..0] == [];
  }

  lemma LastFollows()
    ensures Follows(10)
  {
  }

  lemma AllFollow()
    ensures forall k: nat :: k < 11 ==> Follows(k)
  {
    hide Follows;
    StartFollows(0);
    StartFollows(1);
    FoundFollows();
    CommitFollows();
    ReadsOwnFollows();
    ReadsParentFollows();
    SecondFollows();
    MintFollows();
    InsertFollows();
    LastFollows();
  }

  lemma FollowsPlays(k: nat)
    requires Follows(k)
    ensures Plays(Scene, Script(), k)
  {
    hide Plays;
  }

  lemma FinalHangs()
    ensures Hangs(Final(), [ACCOUNT, SHOP, GROUP])
    ensures SHOP in Final().rows && AtRest(Final(), ACCOUNT) && !AtRest(Final(), SHOP)
  {
    var w := Final();
    assert Awaited(w.threads[1]) == Some(w.rows[SHOP].box);
  }

  lemma FinalReached()
    ensures Reaches(LevelOf, Stored(), Script(), Final())
  {
    assert Script()[0..] == Script() && Scene(0) == Stored() && Scene(11) == Final();
    hide Reaches, Follows, Scene, Final, Script, Stored;
    AllFollow();
    forall i: nat | 0 <= i < 11 ensures Plays(Scene, Script(), i) { FollowsPlays(i); }
    PlaysReach(Scene, Script(), 0);
  }

  /** In this run the account's adoption has answered `Moved`, and yet erasing the group above the
      shop does not close the account for ever: the shop's own adoption, committed and not read back,
      puts the shop back as a root. */
  lemma MovedThenReopened()
    ensures Good(LevelOf, Stored()) && Reaches(LevelOf, Stored(), Script(), Final())
    ensures Final().threads[0] == AdoptDone([ACCOUNT, SHOP], Moved)
    ensures Hangs(Final(), [ACCOUNT, SHOP, GROUP])
    ensures !ClosedForEver(LevelOf, Erased(Final(), GROUP), ACCOUNT, Final().rows[ACCOUNT].box.secret)
  {
    hide Good, Reaches, AtRest, Hangs, ClosedForEver, Final, Stored, Script, Erased;
    StoredGood();
    FinalReached();
    FinalHangs();
    RunKeeps(LevelOf, Stored(), Script(), Final());
    var ids := [ACCOUNT, SHOP, GROUP];
    AncestorErasure(LevelOf, Final(), ids);
    assert ids[0] == ACCOUNT && ids[1] == SHOP && ids[2] == GROUP && |ids| == 3;
  }
}
