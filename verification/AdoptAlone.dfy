/** One adoption with no other writer beside it: whatever its ancestors lack is minted, and the row ends
    under its declared parent, holding the secret it held (`src/crypto.rs`). */
module AdoptAlone {
  import opened Options
  import opened KeyStore
  import opened KeyHistory
  import opened KeyRuns
  import opened KeyErasure

  /** Child rows name parents nearer the roots, and roots open under the master they name. */
  ghost predicate Falls(levels: Levels, rows: map<Id, Row>) {
    forall id :: id in rows ==>
      match rows[id].wrapping
      case Master(m) => rows[id].box.key == MasterKey(m) && rows[id].box.aad == None
      case Parent(p, _) => levels(p.subject) < levels(id.subject)
  }

  lemma RowsFall(levels: Levels, w: World)
    requires RowsOk(levels, w)
    ensures Falls(levels, w.rows)
  {
    forall id | id in w.rows ensures Was(levels, w, id, w.rows[id]) {}
  }

  // ----- a walk nobody disturbs --------------------------------------------

  /** The rows a walk has behind it are the ones still there. */
  ghost predicate Climbed(rows: map<Id, Row>, id: Id, below: seq<Row>) {
    forall i :: 0 <= i < |below| ==>
      IdAt(id, below, i) in rows && below[i] == rows[IdAt(id, below, i)] && below[i].wrapping.Parent?
  }

  lemma ClimbedLess(rows: map<Id, Row>, id: Id, below: seq<Row>)
    requires Climbed(rows, id, below) && below != []
    ensures
      var rest := below[..|below| - 1];
      var at := NextId(id, rest);
      && Climbed(rows, id, rest) && at in rows && rows[at] == below[|below| - 1]
      && rows[at].wrapping.Parent? && rows[at].wrapping.parent == NextId(id, below)
  {
    var rest := below[..|below| - 1];
    forall i | 0 <= i < |rest| ensures IdAt(id, rest, i) == IdAt(id, below, i) { assert rest[..i] == below[..i]; }
    assert IdAt(id, below, |rest|) == NextId(id, rest);
  }

  /** What cannot be opened closes all that hangs from it. */
  lemma {:induction false} ClosesBelow(levels: Levels, rows: map<Id, Row>, id: Id, below: seq<Row>)
    requires Climbed(rows, id, below) && Opens(levels, rows, NextId(id, below)) == None
    ensures Opens(levels, rows, id) == None
    decreases |below|
  {
    if below != [] {
      ClimbedLess(rows, id, below);
      ClosesBelow(levels, rows, id, below[..|below| - 1]);
    }
  }

  lemma {:induction false} OpensBelow(levels: Levels, rows: map<Id, Row>, id: Id, below: seq<Row>, secret: Secret)
    requires Falls(levels, rows) && Climbed(rows, id, below) && Opens(levels, rows, NextId(id, below)) == Some(secret)
    ensures OpenDown(id, below, secret) == Opens(levels, rows, id)
    decreases |below|
  {
    if below != [] {
      var rest, row := below[..|below| - 1], below[|below| - 1];
      var at := NextId(id, rest);
      ClimbedLess(rows, id, below);
      assert |below| > 1 ==> rest[|rest| - 1] == below[|below| - 2];
      match Opens(levels, rows, at)
      case Some(own) => OpensBelow(levels, rows, id, rest, own);
      case None => ClosesBelow(levels, rows, id, rest);
    }
  }

  /** At the top a walk answers what opening the row gives. */
  lemma WalkEnds(levels: Levels, rows: map<Id, Row>, id: Id, below: seq<Row>)
    requires Falls(levels, rows) && Climbed(rows, id, below)
    requires var at := NextId(id, below); !(at in rows && rows[at].wrapping.Parent?)
    ensures
      WalkOn(rows, id, below) ==
        match Opens(levels, rows, id)
        case Some(secret) => Found(secret)
        case None => Unreadable
  {
    var at := NextId(id, below);
    if at in rows {
      OpensBelow(levels, rows, id, below, rows[at].box.secret);
    } else {
      ClosesBelow(levels, rows, id, below);
    }
  }

  lemma WalkClimbs(levels: Levels, rows: map<Id, Row>, id: Id, below: seq<Row>)
    requires Falls(levels, rows) && Climbed(rows, id, below)
    requires var at := NextId(id, below); at in rows && rows[at].wrapping.Parent?
    ensures
      var at := NextId(id, below);
      var more := below + [rows[at]];
      && WalkOn(rows, id, below) == Higher(more) && Climbed(rows, id, more)
      && levels(NextId(id, more).subject) < levels(at.subject)
  {
    var more := below + [rows[NextId(id, below)]];
    forall i | 0 <= i < |more|
      ensures IdAt(id, more, i) == if i < |below| then IdAt(id, below, i) else NextId(id, below)
    {
      assert more[..i] == below[..i];
      assert below[..|below|] == below;
    }
  }

  // ----- steps of one thread only ------------------------------------------

  /** Thread `t` alone takes the world there. */
  ghost predicate Alone(levels: Levels, w: World, t: nat, w': World) {
    exists run :: (forall step :: step in run ==> step == Adopt(t)) && Reaches(levels, w, run, w')
  }

  lemma AloneStill(levels: Levels, w: World, t: nat)
    ensures Alone(levels, w, t, w)
  {
    NoStep(levels, w);
    var run: seq<Step> := [];
    assert forall step :: step in run ==> step == Adopt(t);
  }

  lemma AloneStep(levels: Levels, w: World, t: nat, mid: World, w': World)
    requires t in w.threads && w.threads[t].Adopting? && |w.threads[t].chain| > 1
    requires mid == AdoptStep(w, t, w.threads[t].chain, w.threads[t].at) && Alone(levels, mid, t, w')
    ensures Alone(levels, w, t, w')
  {
    var run :| (forall step :: step in run ==> step == Adopt(t)) && Reaches(levels, mid, run, w');
    AdoptNext(levels, w, t, mid);
    hide AdoptStep, Next, Enabled, Reaches;
    OneStep(levels, w, Adopt(t), mid, run, w');
    assert forall step :: step in [Adopt(t)] + run ==> step == Adopt(t);
  }

  lemma {:induction false} ReachesOn(levels: Levels, w: World, a: seq<Step>, mid: World, b: seq<Step>, w': World)
    requires Reaches(levels, w, a, mid) && Reaches(levels, mid, b, w')
    ensures Reaches(levels, w, a + b, w')
    decreases |a|
  {
    if a == [] {
      assert a + b == b;
    } else {
      var next :| Next(levels, w, a[0], next) && Reaches(levels, next, a[1..], mid);
      hide Next, Enabled;
      ReachesOn(levels, next, a[1..], mid, b, w');
      assert (a + b)[1..] == a[1..] + b;
    }
  }

  lemma AloneOn(levels: Levels, w: World, t: nat, mid: World, w': World)
    requires Alone(levels, w, t, mid) && Alone(levels, mid, t, w')
    ensures Alone(levels, w, t, w')
  {
    hide Reaches;
    var a :| (forall step :: step in a ==> step == Adopt(t)) && Reaches(levels, w, a, mid);
    var b :| (forall step :: step in b ==> step == Adopt(t)) && Reaches(levels, mid, b, w');
    ReachesOn(levels, w, a, mid, b, w');
    assert forall step :: step in a + b ==> step == Adopt(t);
  }

  function At(w: World, t: nat, chain: seq<Id>, at: Adoption): World {
    w.(threads := w.threads[t := Adopting(chain, at)])
  }

  /** Where an adoption stands once its mint has moved on. */
  function Onto(row: Row, stepped: Stepped): Adoption
    requires stepped.answer != Some(None)
  {
    if stepped.answer.None? then AtMint(row, stepped.stack) else AtCommit(row, stepped.answer.value.value)
  }

  // ----- judging the row of the top frame ----------------------------------

  /** What the top frame comes to: its row opens, or its ancestors are seen to. */
  function Judged(levels: Levels, rows: map<Id, Row>, stack: seq<Frame>): Stepped
    requires stack != [] && stack[|stack| - 1].chain != []
  {
    var id := stack[|stack| - 1].chain[0];
    match Opens(levels, rows, id)
    case Some(secret) => Answer(stack, secret)
    case None => Descend(stack, if id in rows then Some(rows[id]) else None)
  }

  /** What the top frame was doing does not change what it comes to. */
  lemma SameJudged(levels: Levels, rows: map<Id, Row>, stack: seq<Frame>, phase: Phase)
    requires stack != [] && stack[|stack| - 1].chain != []
    ensures
      var other := stack[|stack| - 1 := stack[|stack| - 1].(phase := phase)];
      Judged(levels, rows, other) == Judged(levels, rows, stack)
  {
    var last := |stack| - 1;
    var other := stack[last := stack[last].(phase := phase)];
    assert other[..last] == stack[..last];
    forall next: Phase
      ensures other[last := other[last].(phase := next)] == stack[last := stack[last].(phase := next)]
    {
    }
  }

  ghost predicate Judges(w: World, t: nat, chain: seq<Id>, row: Row, stack: seq<Frame>, below: seq<Row>) {
    && |chain| > 1 && stack != [] && stack[|stack| - 1].chain != []
    && stack[|stack| - 1].phase == (if below == [] then Reading else Judging(below))
    && t in w.threads && w.threads[t] == Adopting(chain, AtMint(row, stack))
    && Climbed(w.rows, stack[|stack| - 1].chain[0], below)
  }

  lemma JudgeLast(levels: Levels, w: World, t: nat, chain: seq<Id>, row: Row, stack: seq<Frame>, below: seq<Row>)
    requires Falls(levels, w.rows) && Judges(w, t, chain, row, stack, below)
    requires
      var at := NextId(stack[|stack| - 1].chain[0], below);
      !(at in w.rows && w.rows[at].wrapping.Parent?)
    ensures Judged(levels, w.rows, stack).answer != Some(None)
    ensures AdoptStep(w, t, chain, AtMint(row, stack)) == At(w, t, chain, Onto(row, Judged(levels, w.rows, stack)))
  {
    var id := stack[|stack| - 1].chain[0];
    WalkEnds(levels, w.rows, id, below);
    if below != [] { assert IdAt(id, below, 0) == id; }
    hide WalkOn, Opens, Climbed, Falls;
  }

  lemma JudgeHigher(levels: Levels, w: World, t: nat, chain: seq<Id>, row: Row, stack: seq<Frame>, below: seq<Row>)
    requires Falls(levels, w.rows) && Judges(w, t, chain, row, stack, below)
    requires
      var at := NextId(stack[|stack| - 1].chain[0], below);
      at in w.rows && w.rows[at].wrapping.Parent?
    ensures
      var more := below + [w.rows[NextId(stack[|stack| - 1].chain[0], below)]];
      var higher := stack[|stack| - 1 := stack[|stack| - 1].(phase := Judging(more))];
      && AdoptStep(w, t, chain, AtMint(row, stack)) == At(w, t, chain, AtMint(row, higher))
      && Judges(At(w, t, chain, AtMint(row, higher)), t, chain, row, higher, more)
  {
    WalkClimbs(levels, w.rows, stack[|stack| - 1].chain[0], below);
    hide WalkOn, Climbed, Falls;
  }

  lemma {:induction false} JudgeAlone(
      levels: Levels, w: World, t: nat, chain: seq<Id>, row: Row, stack: seq<Frame>, below: seq<Row>)
    requires Falls(levels, w.rows) && Judges(w, t, chain, row, stack, below)
    ensures Judged(levels, w.rows, stack).answer != Some(None)
    ensures Alone(levels, w, t, At(w, t, chain, Onto(row, Judged(levels, w.rows, stack))))
    decreases levels(NextId(stack[|stack| - 1].chain[0], below).subject)
  {
    hide Falls, AdoptStep, Judged, Alone;
    var id := stack[|stack| - 1].chain[0];
    var at := NextId(id, below);
    if at in w.rows && w.rows[at].wrapping.Parent? {
      var more := below + [w.rows[at]];
      var higher := stack[|stack| - 1 := stack[|stack| - 1].(phase := Judging(more))];
      var mid := At(w, t, chain, AtMint(row, higher));
      WalkClimbs(levels, w.rows, id, below);
      JudgeHigher(levels, w, t, chain, row, stack, below);
      JudgeAlone(levels, mid, t, chain, row, higher, more);
      SameJudged(levels, w.rows, stack, Judging(more));
      var end := At(w, t, chain, Onto(row, Judged(levels, w.rows, stack)));
      assert At(mid, t, chain, Onto(row, Judged(levels, w.rows, stack))) == end;
      AloneStep(levels, w, t, mid, end);
    } else {
      JudgeLast(levels, w, t, chain, row, stack, below);
      var end := At(w, t, chain, Onto(row, Judged(levels, w.rows, stack)));
      AloneStill(levels, end, t);
      AloneStep(levels, w, t, end, end);
    }
  }

  // ----- minting the ancestors ---------------------------------------------

  /** How minting a chain changes the table: nothing that opens is touched, nothing goes, and what is
      new is of the chain, a root only at its top. */
  ghost predicate Mints(levels: Levels, rows: map<Id, Row>, rows': map<Id, Row>, chain: seq<Id>)
    requires chain != []
  {
    && rows.Keys <= rows'.Keys && Falls(levels, rows')
    && (forall x :: x in rows && Opens(levels, rows, x).Some? ==> rows'[x] == rows[x])
    && (forall x :: x in rows' && !(x in rows && rows[x] == rows'[x]) ==>
          x in chain && (rows'[x].wrapping.Master? ==> x == chain[|chain| - 1]))
  }

  /** What opens depends on no row further from the roots. */
  lemma {:induction false} OpensAgree(levels: Levels, rows: map<Id, Row>, rows': map<Id, Row>, id: Id, x: Id)
    requires forall y :: y != id ==> (y in rows <==> y in rows') && (y in rows ==> rows[y] == rows'[y])
    requires levels(x.subject) < levels(id.subject)
    ensures Opens(levels, rows', x) == Opens(levels, rows, x)
    decreases levels(x.subject)
  {
    if x in rows && rows[x].wrapping.Parent? && levels(rows[x].wrapping.parent.subject) < levels(x.subject) {
      OpensAgree(levels, rows, rows', id, rows[x].wrapping.parent);
    }
  }

  /** The row an insert puts in, under its parent if it has one. */
  lemma InsertsOne(w: World, id: Id, under: Option<(Id, Secret)>, stale: Option<Row>)
    requires if id in w.rows then stale == Some(w.rows[id]) else stale == None
    ensures
      var w' := Insert(w, id, under, stale);
      && w'.rows == w.rows[id := Candidate(w, id, under)] && w'.threads == w.threads
      && OpenWinner(id, Candidate(w, id, under), under) == Some(w.next)
  {
    InsertIs(w, id, under, stale);
  }

  lemma CandidateOpens(levels: Levels, w: World, id: Id, under: Option<(Id, Secret)>)
    requires Falls(levels, w.rows)
    requires under.Some? ==>
      levels(under.value.0.subject) < levels(id.subject) && Opens(levels, w.rows, under.value.0) == Some(under.value.1)
    ensures
      var rows := w.rows[id := Candidate(w, id, under)];
      Falls(levels, rows) && Opens(levels, rows, id) == Some(w.next)
  {
    var rows := w.rows[id := Candidate(w, id, under)];
    CandidateFalls(levels, w, id, under);
    hide Falls;
    if under.Some? { OpensAgree(levels, w.rows, rows, id, under.value.0); }
  }

  lemma CandidateFalls(levels: Levels, w: World, id: Id, under: Option<(Id, Secret)>)
    requires Falls(levels, w.rows) && (under.Some? ==> levels(under.value.0.subject) < levels(id.subject))
    ensures Falls(levels, w.rows[id := Candidate(w, id, under)])
  {
    hide Opens;
  }

  /** The frame on top is about to insert its row. */
  ghost predicate Inserts(w: World, t: nat, chain: seq<Id>, row: Row, stack: seq<Frame>, stale: Option<Row>,
                          parent: Option<Secret>) {
    && |chain| > 1 && stack != [] && stack[|stack| - 1].chain != []
    && stack[|stack| - 1].phase == Inserting(stale, parent)
    && t in w.threads && w.threads[t] == Adopting(chain, AtMint(row, stack))
    && var id := stack[|stack| - 1].chain[0]; if id in w.rows then stale == Some(w.rows[id]) else stale == None
  }

  function Under(chain: seq<Id>, parent: Option<Secret>): Option<(Id, Secret)>
    requires chain != []
  {
    if parent.Some? && |chain| > 1 then Some((chain[1], parent.value)) else None
  }

  /** ... and does, and answers with the secret it made. */
  lemma InsertAlone(levels: Levels, w: World, t: nat, chain: seq<Id>, row: Row, stack: seq<Frame>,
                    stale: Option<Row>, parent: Option<Secret>)
    requires Inserts(w, t, chain, row, stack, stale, parent)
    ensures
      var c := stack[|stack| - 1].chain;
      var w' := AdoptStep(w, t, chain, AtMint(row, stack));
      && w'.rows == w.rows[c[0] := Candidate(w, c[0], Under(c, parent))]
      && w'.threads == w.threads[t := Adopting(chain, Onto(row, Answer(stack, w.next)))]
      && Alone(levels, w, t, w')
  {
    var c := stack[|stack| - 1].chain;
    InsertsOne(w, c[0], Under(c, parent), stale);
    var w' := AdoptStep(w, t, chain, AtMint(row, stack));
    hide Insert, OpenWinner, Candidate;
    assert w'.rows == w.rows[c[0] := Candidate(w, c[0], Under(c, parent))];
    assert w'.threads == w.threads[t := Adopting(chain, Onto(row, Answer(stack, w.next)))];
    hide AdoptStep, Alone;
    AloneStill(levels, w', t);
    AloneStep(levels, w, t, w', w');
  }

  lemma ChainFalls(levels: Levels, c: seq<Id>)
    requires Chain(levels, c) && |c| > 1
    ensures Chain(levels, c[1..]) && c[0] !in c[1..] && levels(c[1].subject) < levels(c[0].subject)
  {
    forall i | 0 <= i < |c[1..]| - 1 ensures levels(c[1..][i + 1].subject) < levels(c[1..][i].subject) {
      assert levels(c[i + 1 + 1].subject) < levels(c[i + 1].subject);
    }
    forall i | 0 < i < |c| ensures c[i] != c[0] { LevelsFall(levels, c, i); }
  }

  lemma MintsRoot(levels: Levels, rows: map<Id, Row>, rows': map<Id, Row>, c: seq<Id>)
    requires |c| == 1 && Opens(levels, rows, c[0]) == None && Falls(levels, rows') && c[0] in rows'
    requires forall y :: y != c[0] ==> (y in rows <==> y in rows') && (y in rows ==> rows[y] == rows'[y])
    ensures Mints(levels, rows, rows', c)
  {
  }

  lemma MintsBelow(levels: Levels, rows: map<Id, Row>, mid: map<Id, Row>, rows': map<Id, Row>, c: seq<Id>)
    requires Chain(levels, c) && |c| > 1 && Opens(levels, rows, c[0]) == None && Falls(levels, rows')
    requires Mints(levels, rows, mid, c[1..]) && c[0] in rows' && rows'[c[0]].wrapping.Parent?
    requires forall y :: y != c[0] ==> (y in mid <==> y in rows') && (y in mid ==> mid[y] == rows'[y])
    ensures Mints(levels, rows, rows', c)
  {
    ChainFalls(levels, c);
    assert forall x :: x in c[1..] ==> x in c;
    assert c[1..][|c[1..]| - 1] == c[|c| - 1];
    hide Opens, Falls;
  }

  /** The top frame is about to read the row of its chain's first subject. */
  ghost predicate Starts(levels: Levels, w: World, t: nat, chain: seq<Id>, row: Row, stack: seq<Frame>) {
    && Judges(w, t, chain, row, stack, []) && Chain(levels, stack[|stack| - 1].chain) && Falls(levels, w.rows)
  }

  /** The frame has its secret, and only what its chain lacked was minted. */
  ghost predicate Ends(levels: Levels, w: World, w': World, t: nat, chain: seq<Id>, row: Row, stack: seq<Frame>,
                       secret: Secret)
    requires stack != [] && stack[|stack| - 1].chain != []
  {
    var c := stack[|stack| - 1].chain;
    && Mints(levels, w.rows, w'.rows, c) && Opens(levels, w'.rows, c[0]) == Some(secret)
    && w'.threads == w.threads[t := Adopting(chain, Onto(row, Answer(stack, secret)))]
    && Alone(levels, w, t, w')
  }

  lemma MintOpen(levels: Levels, w: World, t: nat, chain: seq<Id>, row: Row, stack: seq<Frame>, secret: Secret)
    requires Starts(levels, w, t, chain, row, stack)
      && Opens(levels, w.rows, stack[|stack| - 1].chain[0]) == Some(secret)
    ensures Ends(levels, w, At(w, t, chain, Onto(row, Answer(stack, secret))), t, chain, row, stack, secret)
  {
    JudgeAlone(levels, w, t, chain, row, stack, []);
    hide Alone, Falls, Opens;
  }

  function Stale(rows: map<Id, Row>, id: Id): Option<Row> {
    if id in rows then Some(rows[id]) else None
  }

  function Phased(stack: seq<Frame>, phase: Phase): seq<Frame>
    requires stack != []
  {
    stack[|stack| - 1 := stack[|stack| - 1].(phase := phase)]
  }

  /** A frame whose row does not open sees to its ancestors. */
  lemma DescendAlone(levels: Levels, w: World, t: nat, chain: seq<Id>, row: Row, stack: seq<Frame>)
    requires Starts(levels, w, t, chain, row, stack) && Opens(levels, w.rows, stack[|stack| - 1].chain[0]) == None
    ensures
      var down := Descend(stack, Stale(w.rows, stack[|stack| - 1].chain[0]));
      down.answer == None && Alone(levels, w, t, At(w, t, chain, AtMint(row, down.stack)))
  {
    JudgeAlone(levels, w, t, chain, row, stack, []);
    hide Alone, Falls, Opens;
  }

  lemma StartsIs(levels: Levels, w: World, t: nat, chain: seq<Id>, row: Row, stack: seq<Frame>)
    requires Starts(levels, w, t, chain, row, stack)
    ensures |chain| > 1 && t in w.threads && Falls(levels, w.rows) && stack != []
    ensures stack[|stack| - 1].chain != [] && Chain(levels, stack[|stack| - 1].chain)
  {
  }

  lemma InsertsIs(w: World, rows: map<Id, Row>, t: nat, chain: seq<Id>, row: Row, stack: seq<Frame>,
                  parent: Option<Secret>)
    requires |chain| > 1 && stack != [] && stack[|stack| - 1].chain != []
    requires
      var id := stack[|stack| - 1].chain[0];
      (id in w.rows <==> id in rows) && (id in rows ==> w.rows[id] == rows[id])
    requires
      t in w.threads && w.threads[t] ==
        Adopting(chain, AtMint(row, Phased(stack, Inserting(Stale(rows, stack[|stack| - 1].chain[0]), parent))))
    ensures
      var stale := Stale(rows, stack[|stack| - 1].chain[0]);
      Inserts(w, t, chain, row, Phased(stack, Inserting(stale, parent)), stale, parent)
  {
  }

  lemma PhasedAnswer(stack: seq<Frame>, phase: Phase, secret: Secret)
    requires stack != []
    ensures Answer(Phased(stack, phase), secret) == Answer(stack, secret) && Answer(stack, secret).answer != Some(None)
  {
    assert Phased(stack, phase)[..|stack| - 1] == stack[..|stack| - 1];
  }

  lemma EndsIs(levels: Levels, w: World, w': World, t: nat, chain: seq<Id>, row: Row, stack: seq<Frame>, secret: Secret)
    requires stack != [] && stack[|stack| - 1].chain != []
    requires
      var c := stack[|stack| - 1].chain;
      Mints(levels, w.rows, w'.rows, c) && Opens(levels, w'.rows, c[0]) == Some(secret)
    requires w'.threads == w.threads[t := Adopting(chain, Onto(row, Answer(stack, secret)))] && Alone(levels, w, t, w')
    ensures Ends(levels, w, w', t, chain, row, stack, secret)
  {
  }

  lemma RootMinted(levels: Levels, w: World, id: Id)
    requires Falls(levels, w.rows) && Opens(levels, w.rows, id) == None
    ensures
      var rows := w.rows[id := Candidate(w, id, None)];
      Mints(levels, w.rows, rows, [id]) && Opens(levels, rows, id) == Some(w.next)
  {
    CandidateOpens(levels, w, id, None);
    hide Opens, Falls, Candidate;
    MintsRoot(levels, w.rows, w.rows[id := Candidate(w, id, None)], [id]);
  }

  /** A frame with no ancestors to wait for. */
  lemma MintRoot(levels: Levels, w: World, t: nat, chain: seq<Id>, row: Row, stack: seq<Frame>) returns (w': World)
    requires Starts(levels, w, t, chain, row, stack) && Opens(levels, w.rows, stack[|stack| - 1].chain[0]) == None
    requires |stack[|stack| - 1].chain| == 1
    ensures Ends(levels, w, w', t, chain, row, stack, w.next)
  {
    hide *;
    StartsIs(levels, w, t, chain, row, stack);
    var c := stack[|stack| - 1].chain;
    var stale := Stale(w.rows, c[0]);
    var ready := Phased(stack, Inserting(stale, None));
    DescendRoot(stack, stale);
    DescendAlone(levels, w, t, chain, row, stack);
    var mid := At(w, t, chain, AtMint(row, ready));
    AtIs(w, t, chain, AtMint(row, ready));
    InsertsIs(mid, w.rows, t, chain, row, stack, None);
    PhasedIs(stack, Inserting(stale, None));
    InsertAlone(levels, mid, t, chain, row, ready, stale, None);
    w' := AdoptStep(mid, t, chain, AtMint(row, ready));
    AloneOn(levels, w, t, mid, w');
    RootMinted(levels, mid, c[0]);
    assert c == [c[0]];
    PhasedAnswer(stack, Inserting(stale, None), w.next);
    Twice(w.threads, t, Adopting(chain, AtMint(row, ready)), Adopting(chain, Onto(row, Answer(stack, w.next))));
    EndsIs(levels, w, w', t, chain, row, stack, w.next);
  }

  lemma AtIs(w: World, t: nat, chain: seq<Id>, at: Adoption)
    ensures
      var w' := At(w, t, chain, at);
      w'.rows == w.rows && w'.threads == w.threads[t := Adopting(chain, at)] && w'.next == w.next
        && w'.primary == w.primary
  {
  }

  lemma PhasedIs(stack: seq<Frame>, phase: Phase)
    requires stack != []
    ensures |Phased(stack, phase)| == |stack|
    ensures Phased(stack, phase)[|stack| - 1] == stack[|stack| - 1].(phase := phase)
  {
  }

  lemma Twice<V>(threads: map<nat, V>, t: nat, first: V, second: V)
    ensures threads[t := first][t := second] == threads[t := second]
  {
  }

  lemma ChildMinted(levels: Levels, rows: map<Id, Row>, mid: World, c: seq<Id>, parent: Secret)
    requires Chain(levels, c) && |c| > 1 && Opens(levels, rows, c[0]) == None
    requires Mints(levels, rows, mid.rows, c[1..]) && Opens(levels, mid.rows, c[1]) == Some(parent)
    ensures
      var rows' := mid.rows[c[0] := Candidate(mid, c[0], Some((c[1], parent)))];
      Mints(levels, rows, rows', c) && Opens(levels, rows', c[0]) == Some(mid.next)
  {
    var rows' := mid.rows[c[0] := Candidate(mid, c[0], Some((c[1], parent)))];
    ChainFalls(levels, c);
    assert Falls(levels, mid.rows);
    hide Opens, Falls, Mints;
    CandidateOpens(levels, mid, c[0], Some((c[1], parent)));
    MintsBelow(levels, rows, mid.rows, rows', c);
  }

  lemma MintsElsewhere(levels: Levels, rows: map<Id, Row>, mid: map<Id, Row>, c: seq<Id>)
    requires Chain(levels, c) && |c| > 1 && Mints(levels, rows, mid, c[1..])
    ensures (c[0] in mid <==> c[0] in rows) && (c[0] in rows ==> mid[c[0]] == rows[c[0]])
  {
    ChainFalls(levels, c);
    hide Opens, Falls;
  }

  lemma UnderIs(c: seq<Id>, parent: Secret)
    requires |c| > 1
    ensures Under(c, Some(parent)) == Some((c[1], parent))
  {
  }

  lemma DescendRoot(stack: seq<Frame>, stale: Option<Row>)
    requires stack != [] && |stack[|stack| - 1].chain| == 1
    ensures Descend(stack, stale) == Stepped(Phased(stack, Inserting(stale, None)), None)
    ensures Under(stack[|stack| - 1].chain, None) == None
  {
  }

  /** A frame whose parent has just been seen to. */
  lemma MintChild(levels: Levels, w: World, mid: World, t: nat, chain: seq<Id>, row: Row, stack: seq<Frame>,
                  parent: Secret)
      returns (w': World)
    requires Starts(levels, w, t, chain, row, stack) && Opens(levels, w.rows, stack[|stack| - 1].chain[0]) == None
    requires |stack[|stack| - 1].chain| > 1 && Alone(levels, w, t, mid)
    requires
      var c := stack[|stack| - 1].chain;
      && Mints(levels, w.rows, mid.rows, c[1..]) && Opens(levels, mid.rows, c[1]) == Some(parent)
      && var ready := Phased(stack, Inserting(Stale(w.rows, c[0]), Some(parent)));
         mid.threads == w.threads[t := Adopting(chain, AtMint(row, ready))]
    ensures Ends(levels, w, w', t, chain, row, stack, mid.next)
  {
    hide *;
    StartsIs(levels, w, t, chain, row, stack);
    var c := stack[|stack| - 1].chain;
    var stale := Stale(w.rows, c[0]);
    var ready := Phased(stack, Inserting(stale, Some(parent)));
    UnderIs(c, parent);
    MintsElsewhere(levels, w.rows, mid.rows, c);
    InsertsIs(mid, w.rows, t, chain, row, stack, Some(parent));
    PhasedIs(stack, Inserting(stale, Some(parent)));
    InsertAlone(levels, mid, t, chain, row, ready, stale, Some(parent));
    w' := AdoptStep(mid, t, chain, AtMint(row, ready));
    AloneOn(levels, w, t, mid, w');
    ChildMinted(levels, w.rows, mid, c, parent);
    PhasedAnswer(stack, Inserting(stale, Some(parent)), mid.next);
    Twice(w.threads, t, Adopting(chain, AtMint(row, ready)), Adopting(chain, Onto(row, Answer(stack, mid.next))));
    EndsIs(levels, w, w', t, chain, row, stack, mid.next);
  }

  /** The frame for the ancestors goes on top, and its answer is handed to the frame below. */
  lemma Deeper(levels: Levels, w: World, t: nat, chain: seq<Id>, row: Row, stack: seq<Frame>)
    requires Starts(levels, w, t, chain, row, stack) && |stack[|stack| - 1].chain| > 1
    ensures
      var c, stale := stack[|stack| - 1].chain, Stale(w.rows, stack[|stack| - 1].chain[0]);
      var deeper := Descend(stack, stale).stack;
      && |deeper| == |stack| + 1 && deeper[|stack|].chain == c[1..]
      && Starts(levels, At(w, t, chain, AtMint(row, deeper)), t, chain, row, deeper)
      && forall parent :: Onto(row, Answer(deeper, parent))
           == AtMint(row, Phased(stack, Inserting(stale, Some(parent))))
  {
    var last := |stack| - 1;
    var c, stale := stack[last].chain, Stale(w.rows, stack[last].chain[0]);
    var waiting := Phased(stack, Waiting(stale));
    var deeper := Descend(stack, stale).stack;
    assert deeper == waiting + [Frame(c[1..], MINT_ATTEMPTS, Reading)];
    assert deeper[..|deeper| - 1] == waiting;
    ChainFalls(levels, c);
    hide Falls;
    forall parent: Secret
      ensures Onto(row, Answer(deeper, parent)) == AtMint(row, Phased(stack, Inserting(stale, Some(parent))))
    {
      assert Phased(waiting, Inserting(stale, Some(parent))) == Phased(stack, Inserting(stale, Some(parent)));
    }
  }

  lemma EndsAre(levels: Levels, w: World, w': World, t: nat, chain: seq<Id>, row: Row, stack: seq<Frame>,
                secret: Secret)
    requires stack != [] && stack[|stack| - 1].chain != [] && Ends(levels, w, w', t, chain, row, stack, secret)
    ensures
      var c := stack[|stack| - 1].chain;
      Mints(levels, w.rows, w'.rows, c) && Opens(levels, w'.rows, c[0]) == Some(secret)
    ensures w'.threads == w.threads[t := Adopting(chain, Onto(row, Answer(stack, secret)))] && Alone(levels, w, t, w')
  {
  }

  lemma {:induction false} MintAlone(levels: Levels, w: World, t: nat, chain: seq<Id>, row: Row, stack: seq<Frame>)
      returns (w': World, secret: Secret)
    requires Starts(levels, w, t, chain, row, stack)
    ensures Ends(levels, w, w', t, chain, row, stack, secret)
    decreases |stack[|stack| - 1].chain|
  {
    var c := stack[|stack| - 1].chain;
    hide *;
    if Opens(levels, w.rows, c[0]).Some? {
      secret := Opens(levels, w.rows, c[0]).value;
      w' := At(w, t, chain, Onto(row, Answer(stack, secret)));
      MintOpen(levels, w, t, chain, row, stack, secret);
    } else if |c| == 1 {
      secret := w.next;
      w' := MintRoot(levels, w, t, chain, row, stack);
    } else {
      var deeper := Descend(stack, Stale(w.rows, c[0])).stack;
      var down := At(w, t, chain, AtMint(row, deeper));
      DescendAlone(levels, w, t, chain, row, stack);
      Deeper(levels, w, t, chain, row, stack);
      var mid, parent := MintAlone(levels, down, t, chain, row, deeper);
      EndsAre(levels, down, mid, t, chain, row, deeper, parent);
      AloneOn(levels, w, t, down, mid);
      AtIs(w, t, chain, AtMint(row, deeper));
      Twice(w.threads, t, Adopting(chain, AtMint(row, deeper)), mid.threads[t]);
      w' := MintChild(levels, w, mid, t, chain, row, stack, parent);
      secret := mid.next;
    }
  }

  // ----- the whole adoption ------------------------------------------------

  lemma {:induction false} ReadbackAlone(levels: Levels, w: World, t: nat, chain: seq<Id>, box: Box, below: seq<Row>)
    requires |chain| > 1 && Falls(levels, w.rows) && Climbed(w.rows, chain[0], below)
      && Opens(levels, w.rows, chain[0]).Some?
    requires t in w.threads && w.threads[t] == Adopting(chain, AtReadback(box, below))
    ensures Alone(levels, w, t, w.(threads := w.threads[t := AdoptDone(chain, Moved)]))
    decreases levels(NextId(chain[0], below).subject)
  {
    var at := NextId(chain[0], below);
    var end := w.(threads := w.threads[t := AdoptDone(chain, Moved)]);
    if at in w.rows && w.rows[at].wrapping.Parent? {
      var more := below + [w.rows[at]];
      var mid := At(w, t, chain, AtReadback(box, more));
      WalkClimbs(levels, w.rows, chain[0], below);
      assert AdoptStep(w, t, chain, AtReadback(box, below)) == mid;
      hide Alone, AdoptStep, Falls, Opens, Climbed;
      ReadbackAlone(levels, mid, t, chain, box, more);
      assert mid.(threads := mid.threads[t := AdoptDone(chain, Moved)]) == end;
      AloneStep(levels, w, t, mid, end);
    } else {
      WalkEnds(levels, w.rows, chain[0], below);
      assert AdoptStep(w, t, chain, AtReadback(box, below)) == end;
      hide Alone, AdoptStep;
      AloneStill(levels, end, t);
      AloneStep(levels, w, t, end, end);
    }
  }

  /** What an adoption of `chain` does to the table, with nobody beside it: the first subject's row hangs
      from its declared parent and holds the secret it held, and nothing that opened is lost. */
  ghost predicate Rehomes(levels: Levels, rows: map<Id, Row>, rows': map<Id, Row>, chain: seq<Id>)
    requires |chain| > 1
  {
    && Falls(levels, rows') && rows.Keys <= rows'.Keys && chain[0] in rows && chain[0] in rows'
    && rows'[chain[0]].wrapping.Parent? && rows'[chain[0]].wrapping.parent == chain[1]
    && (forall x :: x in rows && Opens(levels, rows, x).Some? ==> Opens(levels, rows', x) == Opens(levels, rows, x))
    && Beside(levels, rows, rows', chain)
  }

  /** Of the other rows none that opened was touched, and what is new is of the chain, a root only at its top. */
  ghost predicate Beside(levels: Levels, rows: map<Id, Row>, rows': map<Id, Row>, chain: seq<Id>)
    requires chain != []
  {
    && (forall x :: x in rows && x != chain[0] && Opens(levels, rows, x).Some? ==> x in rows' && rows'[x] == rows[x])
    && (forall x :: x in rows' && x != chain[0] && !(x in rows && rows[x] == rows'[x]) ==>
          x in chain && (rows'[x].wrapping.Master? ==> x == chain[|chain| - 1]))
  }

  lemma {:induction false} StillOpens(levels: Levels, rows: map<Id, Row>, rows': map<Id, Row>, id: Id, x: Id)
    requires Opens(levels, rows, x).Some? && id in rows
    requires forall y :: y in rows && y != id && Opens(levels, rows, y).Some? ==> y in rows' && rows'[y] == rows[y]
    requires Opens(levels, rows', id) == Some(rows[id].box.secret)
    ensures Opens(levels, rows', x) == Opens(levels, rows, x)
    decreases levels(x.subject)
  {
    if x != id && rows[x].wrapping.Parent? { StillOpens(levels, rows, rows', id, rows[x].wrapping.parent); }
  }

  lemma CommitOpens(levels: Levels, minted: map<Id, Row>, chain: seq<Id>, parent: Secret, secret: Secret, nonce: nat)
    requires Chain(levels, chain) && |chain| > 1 && Opens(levels, minted, chain[1]) == Some(parent)
    ensures Opens(levels, minted[chain[0] := ChildRow(chain[0], chain[1], parent, secret, nonce)], chain[0])
      == Some(secret)
  {
    ChainFalls(levels, chain);
    OpensAgree(levels, minted, minted[chain[0] := ChildRow(chain[0], chain[1], parent, secret, nonce)], chain[0],
      chain[1]);
  }

  lemma CommitFalls(levels: Levels, minted: map<Id, Row>, chain: seq<Id>, row: Row)
    requires Chain(levels, chain) && |chain| > 1 && Falls(levels, minted)
    requires row.wrapping.Parent? && row.wrapping.parent == chain[1]
    ensures Falls(levels, minted[chain[0] := row])
  {
    ChainFalls(levels, chain);
  }

  lemma CommitRehomes(levels: Levels, rows: map<Id, Row>, minted: map<Id, Row>, chain: seq<Id>, parent: Secret,
                      nonce: nat)
    requires Chain(levels, chain) && |chain| > 1 && chain[0] in rows && rows[chain[0]].wrapping.Master?
      && Falls(levels, rows)
    requires Mints(levels, rows, minted, chain[1..]) && Opens(levels, minted, chain[1]) == Some(parent)
    ensures
      var rows' := minted[chain[0] := ChildRow(chain[0], chain[1], parent, rows[chain[0]].box.secret, nonce)];
      Rehomes(levels, rows, rows', chain) && Opens(levels, rows', chain[0]).Some?
  {
    hide *;
    var id := chain[0];
    var child := ChildRow(id, chain[1], parent, rows[id].box.secret, nonce);
    var rows' := minted[id := child];
    ChildIs(id, chain[1], parent, rows[id].box.secret, nonce);
    MintedIs(levels, rows, minted, chain);
    CommitOpens(levels, minted, chain, parent, rows[id].box.secret, nonce);
    CommitFalls(levels, minted, chain, child);
    CommitBeside(levels, rows, minted, chain, child);
    BesideIs(levels, rows, rows', chain);
    forall x | x in rows && Opens(levels, rows, x).Some? ensures Opens(levels, rows', x) == Opens(levels, rows, x) {
      StillOpens(levels, rows, rows', id, x);
    }
    RehomesIs(levels, rows, rows', chain);
  }

  lemma ChildIs(id: Id, parent: Id, generation: Secret, secret: Secret, nonce: nat)
    ensures
      var row := ChildRow(id, parent, generation, secret, nonce);
      row.wrapping.Parent? && row.wrapping.parent == parent
  {
  }

  lemma MintedIs(levels: Levels, rows: map<Id, Row>, minted: map<Id, Row>, chain: seq<Id>)
    requires |chain| > 1 && Mints(levels, rows, minted, chain[1..])
    ensures rows.Keys <= minted.Keys && Falls(levels, minted)
  {
  }

  lemma CommitBeside(levels: Levels, rows: map<Id, Row>, minted: map<Id, Row>, chain: seq<Id>, child: Row)
    requires |chain| > 1 && Mints(levels, rows, minted, chain[1..])
    ensures Beside(levels, rows, minted[chain[0] := child], chain)
  {
    assert forall x :: x in chain[1..] ==> x in chain;
    assert chain[1..][|chain[1..]| - 1] == chain[|chain| - 1];
    hide Opens, Falls;
  }

  lemma BesideIs(levels: Levels, rows: map<Id, Row>, rows': map<Id, Row>, chain: seq<Id>)
    requires chain != [] && Beside(levels, rows, rows', chain)
    ensures forall x :: x in rows && x != chain[0] && Opens(levels, rows, x).Some? ==> x in rows' && rows'[x] == rows[x]
  {
  }

  lemma RehomesIs(levels: Levels, rows: map<Id, Row>, rows': map<Id, Row>, chain: seq<Id>)
    requires |chain| > 1 && Falls(levels, rows') && rows.Keys <= rows'.Keys && chain[0] in rows
    requires rows'[chain[0]].wrapping.Parent? && rows'[chain[0]].wrapping.parent == chain[1]
    requires forall x :: x in rows && Opens(levels, rows, x).Some? ==> Opens(levels, rows', x) == Opens(levels, rows, x)
    requires Beside(levels, rows, rows', chain)
    ensures Rehomes(levels, rows, rows', chain)
  {
    hide Opens, Falls, Beside;
  }

  /** With no other writer, adopting a waiting root moves it, whatever its ancestors lack. */
  lemma AdoptsAlone(levels: Levels, w: World, t: nat, chain: seq<Id>) returns (w': World)
    requires RowsOk(levels, w) && Chain(levels, chain) && |chain| > 1
    requires chain[0] in w.rows && w.rows[chain[0]].wrapping.Master?
    requires t in w.threads && w.threads[t] == Adopting(chain, AtRow)
    ensures Alone(levels, w, t, w') && w'.threads == w.threads[t := AdoptDone(chain, Moved)]
    ensures Rehomes(levels, w.rows, w'.rows, chain)
  {
    RowsFall(levels, w);
    w' := MovesAlone(levels, w, t, chain);
  }

  lemma MovesAlone(levels: Levels, w: World, t: nat, chain: seq<Id>) returns (w': World)
    requires Falls(levels, w.rows) && Chain(levels, chain) && |chain| > 1
    requires chain[0] in w.rows && w.rows[chain[0]].wrapping.Master?
    requires t in w.threads && w.threads[t] == Adopting(chain, AtRow)
    ensures Alone(levels, w, t, w') && w'.threads == w.threads[t := AdoptDone(chain, Moved)]
    ensures Rehomes(levels, w.rows, w'.rows, chain)
  {
    var id, row := chain[0], w.rows[chain[0]];
    var stack := [Frame(chain[1..], MINT_ATTEMPTS, Reading)];
    var w1 := At(w, t, chain, AtMint(row, stack));
    BeginsAlone(levels, w, t, chain);
    hide *;
    var w2, parent := MintAlone(levels, w1, t, chain, row, stack);
    EndsAre(levels, w1, w2, t, chain, row, stack, parent);
    AtIs(w, t, chain, AtMint(row, stack));
    OnlyFrame(row, stack, parent);
    Twice(w.threads, t, Adopting(chain, AtMint(row, stack)), Adopting(chain, AtCommit(row, parent)));
    MintsElsewhere(levels, w.rows, w2.rows, chain);
    w' := CommitAlone(levels, w, w2, t, chain, row, parent);
    AloneOn(levels, w1, t, w2, w');
    AloneStep(levels, w, t, w1, w');
  }

  lemma BeginsAlone(levels: Levels, w: World, t: nat, chain: seq<Id>)
    requires Falls(levels, w.rows) && Chain(levels, chain) && |chain| > 1
    requires chain[0] in w.rows && w.rows[chain[0]].wrapping.Master?
    requires t in w.threads && w.threads[t] == Adopting(chain, AtRow)
    ensures
      var row, stack := w.rows[chain[0]], [Frame(chain[1..], MINT_ATTEMPTS, Reading)];
      var w1 := At(w, t, chain, AtMint(row, stack));
      AdoptStep(w, t, chain, AtRow) == w1 && Starts(levels, w1, t, chain, row, stack)
  {
    ChainFalls(levels, chain);
    hide Falls;
  }

  lemma OnlyFrame(row: Row, stack: seq<Frame>, secret: Secret)
    requires |stack| == 1
    ensures Onto(row, Answer(stack, secret)) == AtCommit(row, secret)
  {
  }

  lemma CommitStep(w: World, t: nat, chain: seq<Id>, row: Row, parent: Secret)
    requires |chain| > 1 && chain[0] in w.rows && w.rows[chain[0]] == row
    ensures
      var child := ChildRow(chain[0], chain[1], parent, row.box.secret, w.next);
      var w' := AdoptStep(w, t, chain, AtCommit(row, parent));
      w'.rows == w.rows[chain[0] := child] && w'.threads == w.threads[t := Adopting(chain, AtReadback(child.box, []))]
  {
  }

  lemma CommitAlone(levels: Levels, w: World, mid: World, t: nat, chain: seq<Id>, row: Row, parent: Secret)
      returns (w': World)
    requires Chain(levels, chain) && |chain| > 1 && chain[0] in w.rows && w.rows[chain[0]] == row
      && row.wrapping.Master?
    requires Falls(levels, w.rows) && Mints(levels, w.rows, mid.rows, chain[1..])
    requires Opens(levels, mid.rows, chain[1]) == Some(parent) && chain[0] in mid.rows && mid.rows[chain[0]] == row
    requires mid.threads == w.threads[t := Adopting(chain, AtCommit(row, parent))]
    ensures Alone(levels, mid, t, w') && w'.threads == w.threads[t := AdoptDone(chain, Moved)]
    ensures Rehomes(levels, w.rows, w'.rows, chain)
  {
    var child := ChildRow(chain[0], chain[1], parent, row.box.secret, mid.next);
    var w3 := AdoptStep(mid, t, chain, AtCommit(row, parent));
    CommitStep(mid, t, chain, row, parent);
    CommitRehomes(levels, w.rows, mid.rows, chain, parent, mid.next);
    assert Falls(levels, w3.rows) && Climbed(w3.rows, chain[0], []);
    hide *;
    ReadbackAlone(levels, w3, t, chain, child.box, []);
    w' := w3.(threads := w3.threads[t := AdoptDone(chain, Moved)]);
    AloneStep(levels, mid, t, w3, w');
    Twice(w.threads, t, Adopting(chain, AtCommit(row, parent)), Adopting(chain, AtReadback(child.box, [])));
    Twice(w.threads, t, Adopting(chain, AtReadback(child.box, [])), AdoptDone(chain, Moved));
  }
}
