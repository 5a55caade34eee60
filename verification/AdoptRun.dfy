/** The adoption run over the key store, with no other writer beside it: it settles exactly when the log
    names a parent for every waiting root and the passes can hold them all, and a settled store has
    every one of them under the parent the earliest event named (`src/adopt.rs`). */
module AdoptRun {
  import opened Options
  import opened KeyStore
  import opened KeyHistory
  import opened KeyRuns
  import opened AdoptAlone
  import Scan = AdoptScan

  /** The rows an adoption is for: roots of a subject that declares a parent. */
  function Roots(rows: map<Id, Row>, parented: set<string>): set<Id> {
    set id | id in rows && rows[id].wrapping.Master? && id.subject in parented
  }

  /** A chain as declared: it falls towards the roots, and only its last subject has no parent. */
  ghost predicate Declared(levels: Levels, parented: set<string>, chain: seq<Id>) {
    && Chain(levels, chain) && chain[|chain| - 1].subject !in parented
    && forall i :: 0 <= i < |chain| - 1 ==> chain[i].subject in parented
  }

  ghost predicate Sealed(levels: Levels, parented: set<string>, log: seq<Scan.Event>) {
    forall event, chain :: event in log && chain in event && chain != [] ==> Declared(levels, parented, chain)
  }

  // ----- what the log says is declared -------------------------------------

  lemma DeclaredFrom(levels: Levels, parented: set<string>, chain: seq<Id>, start: nat)
    requires Declared(levels, parented, chain) && start < |chain|
    ensures Declared(levels, parented, chain[start..])
  {
    var rest := chain[start..];
    forall i | 0 <= i < |rest| - 1
      ensures levels(rest[i + 1].subject) < levels(rest[i].subject) && rest[i].subject in parented
    {
      assert levels(chain[start + i + 1].subject) < levels(chain[start + i].subject);
    }
  }

  ghost predicate Names(levels: Levels, parented: set<string>, mentions: seq<Scan.Mention>) {
    forall m :: m in mentions ==> |m.chain| > 1 && m.chain[0] == m.id && Declared(levels, parented, m.chain)
  }

  lemma {:induction false} ChainNames(levels: Levels, parented: set<string>, chain: seq<Id>, start: nat)
    requires chain != [] ==> Declared(levels, parented, chain)
    ensures Names(levels, parented, Scan.ChainMentions(chain, start))
    decreases |chain| - start
  {
    if start + 1 < |chain| {
      DeclaredFrom(levels, parented, chain, start);
      hide Declared;
      ChainNames(levels, parented, chain, start + 1);
    }
  }

  lemma {:induction false} EventNames(levels: Levels, parented: set<string>, event: Scan.Event)
    requires forall chain :: chain in event && chain != [] ==> Declared(levels, parented, chain)
    ensures Names(levels, parented, Scan.EventMentions(event))
  {
    hide Declared;
    if event != [] {
      ChainNames(levels, parented, event[0], 0);
      assert forall chain :: chain in event[1..] ==> chain in event;
      EventNames(levels, parented, event[1..]);
    }
  }

  lemma {:induction false} LogNames(levels: Levels, parented: set<string>, log: seq<Scan.Event>)
    requires Sealed(levels, parented, log)
    ensures Names(levels, parented, Scan.Mentions(log))
  {
    hide Declared;
    if log != [] {
      assert log[0] in log && forall event :: event in log[1..] ==> event in log;
      EventNames(levels, parented, log[0]);
      LogNames(levels, parented, log[1..]);
    }
  }

  /** Where the log files a subject's key. */
  function Filed(log: seq<Scan.Event>, id: Id): Option<seq<Id>> {
    Scan.Earliest(Scan.Mentions(log), id)
  }

  lemma {:induction false} EarliestNames(levels: Levels, parented: set<string>, mentions: seq<Scan.Mention>, id: Id)
    requires Names(levels, parented, mentions) && Scan.Earliest(mentions, id).Some?
    ensures
      var chain := Scan.Earliest(mentions, id).value;
      |chain| > 1 && chain[0] == id && Declared(levels, parented, chain)
  {
    hide Declared;
    if mentions[0].id != id { EarliestNames(levels, parented, mentions[1..], id); }
  }

  lemma FiledIsDeclared(levels: Levels, parented: set<string>, log: seq<Scan.Event>, id: Id)
    requires Sealed(levels, parented, log) && Filed(log, id).Some?
    ensures
      var chain := Filed(log, id).value;
      |chain| > 1 && chain[0] == id && Declared(levels, parented, chain)
  {
    LogNames(levels, parented, log);
    EarliestNames(levels, parented, Scan.Mentions(log), id);
  }

  lemma FiledHeads(levels: Levels, parented: set<string>, log: seq<Scan.Event>)
    requires Sealed(levels, parented, log)
    ensures forall id :: Filed(log, id).Some? ==> Filed(log, id).value != [] && Filed(log, id).value[0] == id
  {
    hide Filed, Sealed;
    forall id | Filed(log, id).Some? ensures Filed(log, id).value != [] && Filed(log, id).value[0] == id {
      FiledIsDeclared(levels, parented, log, id);
    }
  }

  // ----- one adoption ------------------------------------------------------

  /** Thread `t` adopts `chain` from its first step to its last, and nobody else moves. */
  ghost predicate One(levels: Levels, w: World, t: nat, chain: seq<Id>, w': World) {
    && t !in w.threads && Alone(levels, w.(threads := w.threads[t := Adopting(chain, AtRow)]), t, w')
    && t in w'.threads && w'.threads[t].AdoptDone?
  }

  ghost predicate Own(run: seq<Step>, t: nat) {
    forall step :: step in run ==> step == Adopt(t)
  }

  lemma OwnFirst(run: seq<Step>, t: nat)
    requires Own(run, t) && run != []
    ensures run[0] == Adopt(t) && Own(run[1..], t)
  {
    assert run[0] in run && run == [run[0]] + run[1..];
    forall step | step in run[1..] ensures step == Adopt(t) { assert step in run; }
  }

  /** The first step of a thread's own run. */
  lemma OwnNext(levels: Levels, w: World, t: nat, run: seq<Step>, w': World)
    requires Reaches(levels, w, run, w') && Own(run, t) && run != [] && t in w.threads
    ensures w.threads[t].Adopting? && |w.threads[t].chain| > 1
    ensures
      var mid := AdoptStep(w, t, w.threads[t].chain, w.threads[t].at);
      t in mid.threads && Reaches(levels, mid, run[1..], w') && Own(run[1..], t)
  {
    OwnFirst(run, t);
    hide AdoptStep;
    assert Next(levels, w, Adopt(t), AdoptStep(w, t, w.threads[t].chain, w.threads[t].at));
    StillThere(w, t);
  }

  /** A thread alone goes one way only. */
  lemma {:induction false} OneWay(levels: Levels, w: World, t: nat, a: seq<Step>, w1: World, b: seq<Step>, w2: World)
    requires Reaches(levels, w, a, w1) && Reaches(levels, w, b, w2) && t in w.threads && Own(a, t) && Own(b, t)
    requires t in w1.threads && w1.threads[t].AdoptDone? && t in w2.threads && w2.threads[t].AdoptDone?
    ensures w1 == w2
    decreases |a|
  {
    hide AdoptStep, Next, Enabled, Own;
    if a != [] { OwnNext(levels, w, t, a, w1); }
    if b != [] { OwnNext(levels, w, t, b, w2); }
    if a != [] && b != [] {
      OneWay(levels, AdoptStep(w, t, w.threads[t].chain, w.threads[t].at), t, a[1..], w1, b[1..], w2);
    }
  }

  lemma StillThere(w: World, t: nat)
    requires t in w.threads && w.threads[t].Adopting? && |w.threads[t].chain| > 1
    ensures t in AdoptStep(w, t, w.threads[t].chain, w.threads[t].at).threads
  {
    hide WalkOn, Insert;
  }

  lemma AloneIsOne(levels: Levels, w: World, t: nat, w1: World, w2: World)
    requires Alone(levels, w, t, w1) && Alone(levels, w, t, w2) && t in w.threads
    requires t in w1.threads && w1.threads[t].AdoptDone? && t in w2.threads && w2.threads[t].AdoptDone?
    ensures w1 == w2
  {
    hide Reaches;
    var a :| (forall step :: step in a ==> step == Adopt(t)) && Reaches(levels, w, a, w1);
    var b :| (forall step :: step in b ==> step == Adopt(t)) && Reaches(levels, w, b, w2);
    OneWay(levels, w, t, a, w1, b, w2);
  }

  /** An adoption of a waiting root moves it. */
  lemma OneMoves(levels: Levels, w: World, t: nat, chain: seq<Id>, w': World)
    requires Falls(levels, w.rows) && Chain(levels, chain) && |chain| > 1
    requires chain[0] in w.rows && w.rows[chain[0]].wrapping.Master? && One(levels, w, t, chain, w')
    ensures w'.threads[t] == AdoptDone(chain, Moved) && Rehomes(levels, w.rows, w'.rows, chain)
  {
    hide Alone, Falls, Rehomes;
    var begun := w.(threads := w.threads[t := Adopting(chain, AtRow)]);
    var moved := MovesAlone(levels, begun, t, chain);
    AloneIsOne(levels, begun, t, moved, w');
  }

  lemma RootsOpen(levels: Levels, rows: map<Id, Row>, parented: set<string>)
    requires Falls(levels, rows)
    ensures forall id :: id in Roots(rows, parented) ==> Opens(levels, rows, id) == Some(rows[id].box.secret)
  {
  }

  /** One root fewer waits, and no other comes or goes. */
  lemma AdoptsOne(levels: Levels, parented: set<string>, rows: map<Id, Row>, rows': map<Id, Row>, chain: seq<Id>)
    requires |chain| > 1 && Rehomes(levels, rows, rows', chain) && Declared(levels, parented, chain)
      && Falls(levels, rows)
    ensures Roots(rows', parented) == Roots(rows, parented) - {chain[0]}
  {
    RootsOpen(levels, rows, parented);
    hide Opens, Falls, Chain;
    forall id ensures id in Roots(rows', parented) <==> id in Roots(rows, parented) - {chain[0]} {}
  }

  // ----- a batch -----------------------------------------------------------

  /** The run adopts one chain after the other, each from start to end, with these answers. */
  ghost predicate InTurn(levels: Levels, w: World, chains: seq<seq<Id>>, w': World, answers: seq<Adopted>)
    decreases |chains|
  {
    && |answers| == |chains|
    && if chains == [] then w' == w
       else exists t, mid ::
         One(levels, w, t, chains[0], mid) && mid.threads[t] == AdoptDone(chains[0], answers[0])
         && InTurn(levels, mid, chains[1..], w', answers[1..])
  }

  /** How many of them moved. */
  function CountMoved(answers: seq<Adopted>): nat {
    if answers == [] then 0 else (if answers[0] == Moved then 1 else 0) + CountMoved(answers[1..])
  }

  function Heads(chains: seq<seq<Id>>): set<Id>
    requires forall c :: c in chains ==> c != []
  {
    set c | c in chains :: c[0]
  }

  ghost predicate Waiting(levels: Levels, parented: set<string>, rows: map<Id, Row>, chains: seq<seq<Id>>) {
    && (forall c :: c in chains ==> |c| > 1 && Declared(levels, parented, c) && c[0] in Roots(rows, parented))
    && (forall i, j :: 0 <= i < j < |chains| ==> chains[i] != [] && chains[j] != [] ==> chains[i][0] != chains[j][0])
  }

  /** A subject's row hangs from its declared parent and is read as before. */
  ghost predicate Under(levels: Levels, rows: map<Id, Row>, rows': map<Id, Row>, chain: seq<Id>) {
    && |chain| > 1 && chain[0] in rows && chain[0] in rows' && rows'[chain[0]].wrapping.Parent?
    && rows'[chain[0]].wrapping.parent == chain[1] && rows'[chain[0]].box.secret == rows[chain[0]].box.secret
  }

  /** Nothing that opened is lost, and what hung from a parent and opened hangs there still. */
  ghost predicate Safe(levels: Levels, rows: map<Id, Row>, rows': map<Id, Row>) {
    && Falls(levels, rows')
    && (forall x :: x in rows && Opens(levels, rows, x).Some? ==>
         x in rows' && Opens(levels, rows', x) == Opens(levels, rows, x))
    && (forall x :: x in rows && Opens(levels, rows, x).Some? && rows[x].wrapping.Parent? ==> rows'[x] == rows[x])
  }

  lemma AdoptsSafely(levels: Levels, rows: map<Id, Row>, rows': map<Id, Row>, chain: seq<Id>)
    requires |chain| > 1 && Rehomes(levels, rows, rows', chain) && Falls(levels, rows)
      && rows[chain[0]].wrapping.Master?
    ensures Safe(levels, rows, rows') && Under(levels, rows, rows', chain) && Opens(levels, rows, chain[0]).Some?
  {
    assert Opens(levels, rows, chain[0]) == Some(rows[chain[0]].box.secret);
    OpensOwn(levels, rows', chain[0]);
    hide Opens, Falls;
  }

  lemma SafeAgain(levels: Levels, a: map<Id, Row>, b: map<Id, Row>, c: map<Id, Row>)
    requires Safe(levels, a, b) && Safe(levels, b, c)
    ensures Safe(levels, a, c)
  {
    hide Opens, Falls;
  }

  lemma UnderStill(levels: Levels, rows: map<Id, Row>, mid: map<Id, Row>, rows': map<Id, Row>, chain: seq<Id>)
    requires Under(levels, rows, mid, chain) && Safe(levels, rows, mid) && Safe(levels, mid, rows')
    requires Opens(levels, rows, chain[0]).Some?
    ensures Under(levels, rows, rows', chain)
  {
    hide Opens, Falls;
  }

  lemma UnderLater(levels: Levels, rows: map<Id, Row>, mid: map<Id, Row>, rows': map<Id, Row>, chain: seq<Id>)
    requires Under(levels, mid, rows', chain) && chain[0] in rows
      && mid[chain[0]].box.secret == rows[chain[0]].box.secret
    ensures Under(levels, rows, rows', chain)
  {
  }

  lemma SafeSecrets(levels: Levels, rows: map<Id, Row>, rows': map<Id, Row>, id: Id)
    requires Safe(levels, rows, rows') && id in rows && Opens(levels, rows, id).Some?
    ensures id in rows' && rows'[id].box.secret == rows[id].box.secret
  {
    OpensOwn(levels, rows, id);
    OpensOwn(levels, rows', id);
    hide Opens, Falls;
  }

  lemma WaitingRest(levels: Levels, parented: set<string>, rows: map<Id, Row>, mid: map<Id, Row>, chains: seq<seq<Id>>)
    requires chains != [] && Waiting(levels, parented, rows, chains)
    requires Roots(mid, parented) == Roots(rows, parented) - {chains[0][0]}
    ensures Waiting(levels, parented, mid, chains[1..])
    ensures Heads(chains) == Heads(chains[1..]) + {chains[0][0]} && chains[0][0] !in Heads(chains[1..])
  {
    hide Declared;
    var rest := chains[1..];
    assert chains == [chains[0]] + rest;
    forall c | c in rest ensures c[0] in Roots(mid, parented) {
      var i :| 0 <= i < |rest| && rest[i] == c;
      assert chains[i + 1] == c && c in chains && chains[0] in chains;
    }
    forall i, j | 0 <= i < j < |rest| && rest[i] != [] && rest[j] != [] ensures rest[i][0] != rest[j][0] {
      assert chains[i + 1] == rest[i] && chains[j + 1] == rest[j];
    }
  }

  /** What a batch of adoptions leaves. */
  ghost predicate Batched(levels: Levels, parented: set<string>, rows: map<Id, Row>, rows': map<Id, Row>,
                          chains: seq<seq<Id>>)
    requires forall c :: c in chains ==> c != []
  {
    && Roots(rows', parented) == Roots(rows, parented) - Heads(chains) && Safe(levels, rows, rows')
    && forall c :: c in chains ==> Under(levels, rows, rows', c)
  }

  lemma NoneBatched(levels: Levels, parented: set<string>, rows: map<Id, Row>)
    requires Falls(levels, rows)
    ensures Batched(levels, parented, rows, rows, [])
  {
    hide Opens, Falls;
  }

  lemma FirstBatched(levels: Levels, parented: set<string>, rows: map<Id, Row>, mid: map<Id, Row>, rows': map<Id, Row>,
                     chains: seq<seq<Id>>)
    requires chains != [] && Waiting(levels, parented, rows, chains) && Falls(levels, rows)
    requires Rehomes(levels, rows, mid, chains[0]) && Waiting(levels, parented, mid, chains[1..])
    requires Batched(levels, parented, mid, rows', chains[1..])
    requires Roots(mid, parented) == Roots(rows, parented) - {chains[0][0]}
    ensures Batched(levels, parented, rows, rows', chains)
  {
    WaitingRest(levels, parented, rows, mid, chains);
    RootsOpen(levels, rows, parented);
    assert chains[0] in chains;
    AdoptsSafely(levels, rows, mid, chains[0]);
    hide Opens, Falls, Rehomes, Declared;
    SafeAgain(levels, rows, mid, rows');
    forall c | c in chains ensures Under(levels, rows, rows', c) {
      if c == chains[0] {
        UnderStill(levels, rows, mid, rows', c);
      } else {
        assert chains == [chains[0]] + chains[1..];
        assert c in chains[1..];
        SafeSecrets(levels, rows, mid, c[0]);
        UnderLater(levels, rows, mid, rows', c);
      }
    }
    assert Roots(rows', parented) == Roots(rows, parented) - Heads(chains) by { hide Safe, Under, Waiting; }
  }

  lemma {:induction false} TurnsMove(
      levels: Levels, parented: set<string>, w: World, chains: seq<seq<Id>>, w': World, answers: seq<Adopted>)
    requires Falls(levels, w.rows) && Waiting(levels, parented, w.rows, chains)
      && InTurn(levels, w, chains, w', answers)
    ensures Batched(levels, parented, w.rows, w'.rows, chains) && CountMoved(answers) == |Heads(chains)|
    decreases |chains|
  {
    hide *;
    if chains == [] {
      NoTurns(levels, parented, w, w', answers);
    } else {
      var t, mid := FirstTurn(levels, w, chains, w', answers);
      HeadWaits(levels, parented, w.rows, chains);
      OneMoves(levels, w, t, chains[0], mid);
      AdoptsOne(levels, parented, w.rows, mid.rows, chains[0]);
      WaitingRest(levels, parented, w.rows, mid.rows, chains);
      AdoptsFalls(levels, w.rows, mid.rows, chains[0]);
      TurnsMove(levels, parented, mid, chains[1..], w', answers[1..]);
      FirstBatched(levels, parented, w.rows, mid.rows, w'.rows, chains);
      OneMoreMoved(answers);
    }
  }

  lemma NoTurns(levels: Levels, parented: set<string>, w: World, w': World, answers: seq<Adopted>)
    requires Falls(levels, w.rows) && InTurn(levels, w, [], w', answers)
    ensures Batched(levels, parented, w.rows, w'.rows, []) && CountMoved(answers) == |Heads([])|
  {
    NoneBatched(levels, parented, w.rows);
    assert Heads([]) == {};
    hide Batched;
  }

  lemma OneMoreMoved(answers: seq<Adopted>)
    requires answers != [] && answers[0] == Moved
    ensures CountMoved(answers) == 1 + CountMoved(answers[1..])
  {
  }

  lemma FirstTurn(levels: Levels, w: World, chains: seq<seq<Id>>, w': World, answers: seq<Adopted>)
      returns (t: nat, mid: World)
    requires InTurn(levels, w, chains, w', answers) && chains != []
    ensures One(levels, w, t, chains[0], mid) && t in mid.threads && |answers| == |chains|
    ensures mid.threads[t] == AdoptDone(chains[0], answers[0]) && InTurn(levels, mid, chains[1..], w', answers[1..])
  {
    t, mid :|
      One(levels, w, t, chains[0], mid) && mid.threads[t] == AdoptDone(chains[0], answers[0])
      && InTurn(levels, mid, chains[1..], w', answers[1..]);
    hide Alone;
  }

  lemma HeadWaits(levels: Levels, parented: set<string>, rows: map<Id, Row>, chains: seq<seq<Id>>)
    requires chains != [] && Waiting(levels, parented, rows, chains)
    ensures |chains[0]| > 1 && Declared(levels, parented, chains[0]) && Chain(levels, chains[0])
    ensures chains[0][0] in rows && rows[chains[0][0]].wrapping.Master?
  {
    assert chains[0] in chains;
  }

  lemma AdoptsFalls(levels: Levels, rows: map<Id, Row>, rows': map<Id, Row>, chain: seq<Id>)
    requires |chain| > 1 && Rehomes(levels, rows, rows', chain)
    ensures Falls(levels, rows')
  {
  }

  // ----- a pass ------------------------------------------------------------

  /** Those of a batch the log files, each with the chain it gives them. */
  ghost predicate Resolves(log: seq<Scan.Event>, batch: set<Id>, chains: seq<seq<Id>>) {
    && (forall c :: c in chains ==> c != [] && c[0] in batch && Filed(log, c[0]) == Some(c))
    && (forall id :: id in batch && Filed(log, id).Some? ==> Filed(log, id).value in chains)
    && (forall i, j :: 0 <= i < j < |chains| ==> chains[i] != chains[j])
  }

  /** One pass with no other writer: a batch of the waiting roots, the parents the log gives them, and
      an adoption of each it gives one. */
  ghost predicate PassOf(
      levels: Levels, parented: set<string>, log: seq<Scan.Event>, w: World, w': World, pass: Scan.Adoption,
      batch: set<Id>, chains: seq<seq<Id>>, answers: seq<Adopted>)
  {
    && batch <= Roots(w.rows, parented) && |batch| == Scan.Fewer(Scan.BATCH, |Roots(w.rows, parented)|)
    && Resolves(log, batch, chains) && InTurn(levels, w, chains, w', answers)
    && pass.waiting == |batch| && pass.adopted == CountMoved(answers)
    && pass.unresolved == (set id | id in batch && Filed(log, id).None?)
    && Scan.DistinctSubjects(pass.disagreements)
  }

  ghost predicate Passes(
      levels: Levels, parented: set<string>, log: seq<Scan.Event>, w: World, w': World, pass: Scan.Adoption)
  {
    exists batch, chains, answers :: PassOf(levels, parented, log, w, w', pass, batch, chains, answers)
  }

  /** The log names a parent for every one of them. */
  ghost predicate AllFiled(log: seq<Scan.Event>, ids: set<Id>) {
    forall id :: id in ids ==> Filed(log, id).Some?
  }

  lemma ResolvedWait(levels: Levels, parented: set<string>, log: seq<Scan.Event>, rows: map<Id, Row>, batch: set<Id>,
                     chains: seq<seq<Id>>)
    requires Sealed(levels, parented, log) && batch <= Roots(rows, parented) && Resolves(log, batch, chains)
    ensures Waiting(levels, parented, rows, chains)
    ensures (forall c :: c in chains ==> c != []) && Heads(chains) == set id | id in batch && Filed(log, id).Some?
  {
    forall c | c in chains ensures |c| > 1 && Declared(levels, parented, c) && c[0] in Roots(rows, parented) {
      FiledIsDeclared(levels, parented, log, c[0]);
    }
    hide Filed, Declared, Sealed, Roots;
    forall i, j | 0 <= i < j < |chains| && chains[i] != [] && chains[j] != [] ensures chains[i][0] != chains[j][0] {
      assert chains[i] in chains && chains[j] in chains;
    }
    forall id | id in batch && Filed(log, id).Some? ensures id in Heads(chains) {
      assert Filed(log, id).value in chains;
      FiledIsDeclared(levels, parented, log, id);
    }
  }

  /** Every root that waits no longer is under the parent the log names, and is read as before. */
  ghost predicate Housed(levels: Levels, parented: set<string>, log: seq<Scan.Event>, rows: map<Id, Row>,
                         rows': map<Id, Row>) {
    && Safe(levels, rows, rows') && Roots(rows', parented) <= Roots(rows, parented)
    && forall id :: id in Roots(rows, parented) && id !in Roots(rows', parented) ==>
         Filed(log, id).Some? && Under(levels, rows, rows', Filed(log, id).value)
  }

  /** What a pass that found the roots `was` and left `now` counts. */
  ghost predicate Tally(log: seq<Scan.Event>, was: set<Id>, now: set<Id>, pass: Scan.Adoption) {
    && now <= was && |was| == |now| + pass.adopted
    && pass.waiting == Scan.Fewer(Scan.BATCH, |was|) && pass.adopted <= pass.waiting
    && (pass.unresolved == {} <==> pass.adopted == pass.waiting)
    && (forall id :: id in pass.unresolved ==> id in now && Filed(log, id).None?)
    && (forall id :: id in was && Filed(log, id).None? ==> id in now)
  }

  ghost predicate Leaves(levels: Levels, parented: set<string>, log: seq<Scan.Event>, rows: map<Id, Row>,
                         rows': map<Id, Row>, pass: Scan.Adoption) {
    Housed(levels, parented, log, rows, rows') && Tally(log, Roots(rows, parented), Roots(rows', parented), pass)
  }

  lemma CountsApart(all: set<Id>, part: set<Id>, rest: set<Id>)
    requires part <= all && rest == all - part
    ensures |all| == |part| + |rest| && (rest == {} <==> |part| == |all|)
  {
    assert all == part + rest && part !! rest;
  }

  lemma PassLeaves(levels: Levels, parented: set<string>, log: seq<Scan.Event>, w: World, w': World,
                   pass: Scan.Adoption)
    requires Sealed(levels, parented, log) && Falls(levels, w.rows) && Passes(levels, parented, log, w, w', pass)
    ensures Leaves(levels, parented, log, w.rows, w'.rows, pass) && Falls(levels, w'.rows)
  {
    hide *;
    var batch, chains, answers := PassParts(levels, parented, log, w, w', pass);
    ResolvedWait(levels, parented, log, w.rows, batch, chains);
    TurnsMove(levels, parented, w, chains, w', answers);
    BatchUnder(levels, parented, log, w.rows, w'.rows, batch, chains);
    LeavesFrom(levels, parented, log, w.rows, w'.rows, pass, batch);
  }

  lemma PassParts(levels: Levels, parented: set<string>, log: seq<Scan.Event>, w: World, w': World, pass: Scan.Adoption)
      returns (batch: set<Id>, chains: seq<seq<Id>>, answers: seq<Adopted>)
    requires Passes(levels, parented, log, w, w', pass)
    ensures batch <= Roots(w.rows, parented) && |batch| == Scan.Fewer(Scan.BATCH, |Roots(w.rows, parented)|)
    ensures Resolves(log, batch, chains) && InTurn(levels, w, chains, w', answers)
    ensures (forall c :: c in chains ==> c != []) && pass.waiting == |batch| && pass.adopted == CountMoved(answers)
    ensures pass.unresolved == set id | id in batch && Filed(log, id).None?
  {
    batch, chains, answers :| PassOf(levels, parented, log, w, w', pass, batch, chains, answers);
    hide InTurn, Filed, Roots, CountMoved;
  }

  lemma LeavesFrom(levels: Levels, parented: set<string>, log: seq<Scan.Event>, rows: map<Id, Row>, rows': map<Id, Row>,
                   pass: Scan.Adoption, batch: set<Id>)
    requires Safe(levels, rows, rows') && batch <= Roots(rows, parented)
    requires |batch| == Scan.Fewer(Scan.BATCH, |Roots(rows, parented)|) && pass.waiting == |batch|
    requires
      var moved := set id | id in batch && Filed(log, id).Some?;
      Roots(rows', parented) == Roots(rows, parented) - moved && pass.adopted == |moved|
    requires pass.unresolved == set id | id in batch && Filed(log, id).None?
    requires forall id :: id in batch && Filed(log, id).Some? ==> Under(levels, rows, rows', Filed(log, id).value)
    ensures Leaves(levels, parented, log, rows, rows', pass)
  {
    hide Roots, Filed, Safe, Under, Scan.Fewer;
    var moved := set id | id in batch && Filed(log, id).Some?;
    HousedFrom(levels, parented, log, rows, rows', batch);
    TallyFrom(log, Roots(rows, parented), Roots(rows', parented), pass, batch, moved);
  }

  lemma HousedFrom(levels: Levels, parented: set<string>, log: seq<Scan.Event>, rows: map<Id, Row>, rows': map<Id, Row>,
                   batch: set<Id>)
    requires Safe(levels, rows, rows')
    requires Roots(rows', parented) == Roots(rows, parented) - set id | id in batch && Filed(log, id).Some?
    requires forall id :: id in batch && Filed(log, id).Some? ==> Under(levels, rows, rows', Filed(log, id).value)
    ensures Housed(levels, parented, log, rows, rows')
  {
    hide Roots, Filed, Safe, Under;
  }

  lemma TallyFrom(log: seq<Scan.Event>, was: set<Id>, now: set<Id>, pass: Scan.Adoption, batch: set<Id>, moved: set<Id>)
    requires batch <= was && |batch| == Scan.Fewer(Scan.BATCH, |was|) && pass.waiting == |batch|
    requires moved == (set id | id in batch && Filed(log, id).Some?) && now == was - moved && pass.adopted == |moved|
    requires pass.unresolved == set id | id in batch && Filed(log, id).None?
    ensures Tally(log, was, now, pass)
  {
    hide Filed, Scan.Fewer;
    CountsApart(batch, moved, pass.unresolved);
    CountsApart(was, moved, now);
  }

  lemma BatchUnder(levels: Levels, parented: set<string>, log: seq<Scan.Event>, rows: map<Id, Row>, rows': map<Id, Row>,
                   batch: set<Id>, chains: seq<seq<Id>>)
    requires Resolves(log, batch, chains) && Batched(levels, parented, rows, rows', chains)
    ensures Safe(levels, rows, rows') && Falls(levels, rows')
      && Roots(rows', parented) == Roots(rows, parented) - Heads(chains)
    ensures forall id :: id in batch && Filed(log, id).Some? ==> Under(levels, rows, rows', Filed(log, id).value)
  {
    hide Falls, Filed, Roots, Under, Heads, Opens;
  }

  // ----- such a pass can always be taken -----------------------------------

  lemma {:induction false} TurnsTaken(levels: Levels, parented: set<string>, w: World, chains: seq<seq<Id>>)
      returns (w': World, answers: seq<Adopted>)
    requires Falls(levels, w.rows) && Waiting(levels, parented, w.rows, chains)
    ensures InTurn(levels, w, chains, w', answers)
    decreases |chains|
  {
    if chains == [] {
      w', answers := w, [];
    } else {
      hide *;
      HeadWaits(levels, parented, w.rows, chains);
      var t := Unused(w.threads.Keys);
      var begun := w.(threads := w.threads[t := Adopting(chains[0], AtRow)]);
      var mid := MovesAlone(levels, begun, t, chains[0]);
      AdoptsOne(levels, parented, w.rows, mid.rows, chains[0]);
      WaitingRest(levels, parented, w.rows, mid.rows, chains);
      AdoptsFalls(levels, w.rows, mid.rows, chains[0]);
      var rest: seq<Adopted>;
      w', rest := TurnsTaken(levels, parented, mid, chains[1..]);
      answers := [Moved] + rest;
      assert answers[1..] == rest;
      TurnIs(levels, w, t, mid, chains, w', answers);
    }
  }

  lemma TurnIs(levels: Levels, w: World, t: nat, mid: World, chains: seq<seq<Id>>, w': World, answers: seq<Adopted>)
    requires chains != [] && |answers| == |chains| && t !in w.threads && t in mid.threads
    requires Alone(levels, w.(threads := w.threads[t := Adopting(chains[0], AtRow)]), t, mid)
    requires mid.threads[t] == AdoptDone(chains[0], answers[0]) && InTurn(levels, mid, chains[1..], w', answers[1..])
    ensures InTurn(levels, w, chains, w', answers)
  {
    hide Alone;
    assert One(levels, w, t, chains[0], mid);
  }

  lemma {:induction false} SomeOf(ids: set<Id>, n: nat) returns (some: set<Id>)
    requires n <= |ids|
    ensures some <= ids && |some| == n
    decreases n
  {
    if n == 0 {
      some := {};
    } else {
      var rest := SomeOf(ids, n - 1);
      CountsApart(ids, rest, ids - rest);
      var id :| id in ids - rest;
      some := rest + {id};
    }
  }

  lemma {:induction false} ListChains(log: seq<Scan.Event>, ids: set<Id>) returns (chains: seq<seq<Id>>)
    requires forall id :: Filed(log, id).Some? ==> Filed(log, id).value != [] && Filed(log, id).value[0] == id
    ensures Resolves(log, ids, chains)
    decreases |ids|
  {
    hide Filed;
    if ids == {} {
      chains := [];
    } else {
      var id :| id in ids;
      var rest := ListChains(log, ids - {id});
      chains := if Filed(log, id).Some? then [Filed(log, id).value] + rest else rest;
      assert forall c :: c in rest ==> c in chains;
      assert Filed(log, id).Some? ==> Filed(log, id).value !in rest;
    }
  }

  /** From any store, and for any log the current program can read, a pass can be taken. */
  lemma PassTaken(levels: Levels, parented: set<string>, log: seq<Scan.Event>, w: World)
    requires Sealed(levels, parented, log) && RowsOk(levels, w)
    ensures exists w', pass :: Passes(levels, parented, log, w, w', pass)
  {
    hide *;
    RowsFall(levels, w);
    FewerIs(|Roots(w.rows, parented)|);
    var batch := SomeOf(Roots(w.rows, parented), Scan.Fewer(Scan.BATCH, |Roots(w.rows, parented)|));
    FiledHeads(levels, parented, log);
    var chains := ListChains(log, batch);
    ResolvedWait(levels, parented, log, w.rows, batch, chains);
    var w', answers := TurnsTaken(levels, parented, w, chains);
    var unresolved := set id | id in batch && Filed(log, id).None?;
    var pass := Scan.Adoption(CountMoved(answers), |batch|, 0, unresolved, [], 0, 0, 0);
    PassIs(levels, parented, log, w, w', pass, batch, chains, answers);
  }

  lemma FewerIs(n: nat)
    ensures Scan.Fewer(Scan.BATCH, n) <= n
  {
  }

  lemma PassIs(levels: Levels, parented: set<string>, log: seq<Scan.Event>, w: World, w': World, pass: Scan.Adoption,
               batch: set<Id>, chains: seq<seq<Id>>, answers: seq<Adopted>)
    requires batch <= Roots(w.rows, parented) && |batch| == Scan.Fewer(Scan.BATCH, |Roots(w.rows, parented)|)
    requires Resolves(log, batch, chains) && InTurn(levels, w, chains, w', answers)
    requires pass.waiting == |batch| && pass.adopted == CountMoved(answers) && pass.disagreements == []
    requires pass.unresolved == set id | id in batch && Filed(log, id).None?
    ensures Passes(levels, parented, log, w, w', pass)
  {
    hide Roots, Filed, InTurn, Resolves, CountMoved;
    assert PassOf(levels, parented, log, w, w', pass, batch, chains, answers);
  }

  // ----- the run -----------------------------------------------------------

  /** The run's passes from one state of the store to the next, with no other writer, and the count of
      waiting roots the store answers after each. */
  ghost predicate RunsAlone(
      levels: Levels, parented: set<string>, log: seq<Scan.Event>, worlds: nat -> World, passes: nat -> Scan.Adoption,
      left: nat -> nat)
  {
    forall i: nat ::
      Passes(levels, parented, log, worlds(i), worlds(i + 1), passes(i))
        && left(i) == |Roots(worlds(i + 1).rows, parented)|
  }

  /** Where `n` passes have brought the waiting roots. */
  ghost predicate Progress(log: seq<Scan.Event>, was: set<Id>, now: set<Id>, n: nat) {
    && now <= was && |was| <= |now| + n * Scan.BATCH
    && (forall id :: id in was && Filed(log, id).None? ==> id in now)
    && (AllFiled(log, was) ==> now == {} || |was| == |now| + n * Scan.BATCH)
  }

  lemma Progressed(log: seq<Scan.Event>, was: set<Id>, mid: set<Id>, now: set<Id>, pass: Scan.Adoption, n: nat)
    requires Progress(log, was, mid, n) && Tally(log, mid, now, pass)
    ensures Progress(log, was, now, n + 1)
  {
    hide Filed;
    assert (n + 1) * Scan.BATCH == n * Scan.BATCH + Scan.BATCH;
    if AllFiled(log, was) {
      assert pass.unresolved == {} by {
        if id :| id in pass.unresolved { assert false; }
      }
    }
  }

  lemma HousedOn(levels: Levels, parented: set<string>, log: seq<Scan.Event>, rows: map<Id, Row>, mid: map<Id, Row>,
                 rows': map<Id, Row>)
    requires Falls(levels, rows) && Housed(levels, parented, log, rows, mid)
      && Housed(levels, parented, log, mid, rows')
    requires forall id :: Filed(log, id).Some? ==> Filed(log, id).value != [] && Filed(log, id).value[0] == id
    ensures Housed(levels, parented, log, rows, rows')
  {
    RootsOpen(levels, rows, parented);
    SafeAgain(levels, rows, mid, rows');
    assert forall id :: id in Roots(rows, parented) ==> id in rows;
    hide Roots, Filed, Safe, Under, Opens;
    forall id | id in Roots(rows, parented) && id !in Roots(rows', parented)
      ensures Filed(log, id).Some? && Under(levels, rows, rows', Filed(log, id).value)
    {
      if id in Roots(mid, parented) {
        SafeSecrets(levels, rows, mid, id);
        UnderLater(levels, rows, mid, rows', Filed(log, id).value);
      } else {
        UnderStill(levels, rows, mid, rows', Filed(log, id).value);
      }
    }
  }

  lemma NotYet(levels: Levels, parented: set<string>, log: seq<Scan.Event>, rows: map<Id, Row>)
    requires Falls(levels, rows)
    ensures Housed(levels, parented, log, rows, rows) && Progress(log, Roots(rows, parented), Roots(rows, parented), 0)
  {
    hide Opens, Falls, Filed, Roots;
  }

  lemma {:induction false} PassesProgress(
      levels: Levels, parented: set<string>, log: seq<Scan.Event>, worlds: nat -> World, passes: nat -> Scan.Adoption,
      left: nat -> nat, n: nat)
    requires Sealed(levels, parented, log) && Falls(levels, worlds(0).rows)
    requires RunsAlone(levels, parented, log, worlds, passes, left)
    ensures Housed(levels, parented, log, worlds(0).rows, worlds(n).rows) && Falls(levels, worlds(n).rows)
    ensures Progress(log, Roots(worlds(0).rows, parented), Roots(worlds(n).rows, parented), n)
  {
    hide *;
    if n == 0 {
      NotYet(levels, parented, log, worlds(0).rows);
    } else {
      RunsAt(levels, parented, log, worlds, passes, left, n - 1);
      PassesProgress(levels, parented, log, worlds, passes, left, n - 1);
      PassLeaves(levels, parented, log, worlds(n - 1), worlds(n), passes(n - 1));
      LeavesAre(levels, parented, log, worlds(n - 1).rows, worlds(n).rows, passes(n - 1));
      FiledHeads(levels, parented, log);
      HousedOn(levels, parented, log, worlds(0).rows, worlds(n - 1).rows, worlds(n).rows);
      Progressed(log, Roots(worlds(0).rows, parented), Roots(worlds(n - 1).rows, parented),
        Roots(worlds(n).rows, parented), passes(n - 1), n - 1);
    }
  }

  lemma RunsAt(levels: Levels, parented: set<string>, log: seq<Scan.Event>, worlds: nat -> World,
               passes: nat -> Scan.Adoption, left: nat -> nat, i: nat)
    requires RunsAlone(levels, parented, log, worlds, passes, left)
    ensures Passes(levels, parented, log, worlds(i), worlds(i + 1), passes(i))
      && left(i) == |Roots(worlds(i + 1).rows, parented)|
  {
    hide Passes, Roots;
  }

  lemma StopsIs(passes: nat -> Scan.Adoption, left: nat -> nat, ran: nat)
    requires Scan.Stops(passes, left, ran)
    ensures ran > 0
  {
  }

  lemma LeavesAre(levels: Levels, parented: set<string>, log: seq<Scan.Event>, rows: map<Id, Row>, rows': map<Id, Row>,
                  pass: Scan.Adoption)
    requires Leaves(levels, parented, log, rows, rows', pass)
    ensures Housed(levels, parented, log, rows, rows')
      && Tally(log, Roots(rows, parented), Roots(rows', parented), pass)
  {
  }

  /** A pass that leaves roots the log files took all it could, so the run goes on after it. */
  lemma GoesOnWhileFiled(log: seq<Scan.Event>, was: set<Id>, now: set<Id>, passes: nat -> Scan.Adoption,
                         left: nat -> nat, i: nat)
    requires Tally(log, was, now, passes(i)) && AllFiled(log, was) && left(i) == |now| > 0
    ensures Scan.Continues(passes, left, i)
  {
    hide Filed;
    assert passes(i).unresolved == {} by {
      if id :| id in passes(i).unresolved { assert false; }
    }
  }

  /** With no other writer the run settles exactly when the log names a parent for every waiting root and
      the passes can hold them all. Either way no key that opened is lost, and each root that waits no
      longer is under the parent the earliest event named, around the secret it held. */
  lemma SettlesExactly(
      levels: Levels, parented: set<string>, log: seq<Scan.Event>, worlds: nat -> World, passes: nat -> Scan.Adoption,
      left: nat -> nat, ran: nat)
    requires Sealed(levels, parented, log) && RowsOk(levels, worlds(0))
    requires RunsAlone(levels, parented, log, worlds, passes, left) && Scan.Stops(passes, left, ran)
    ensures
      var waiting := Roots(worlds(0).rows, parented);
      left(ran - 1) == 0 <==> AllFiled(log, waiting) && |waiting| <= Scan.PASSES * Scan.BATCH
    ensures Housed(levels, parented, log, worlds(0).rows, worlds(ran).rows)
  {
    hide *;
    StopsIs(passes, left, ran);
    RowsFall(levels, worlds(0));
    RunsAt(levels, parented, log, worlds, passes, left, ran - 1);
    PassesProgress(levels, parented, log, worlds, passes, left, ran);
    PassesProgress(levels, parented, log, worlds, passes, left, ran - 1);
    PassLeaves(levels, parented, log, worlds(ran - 1), worlds(ran), passes(ran - 1));
    LeavesAre(levels, parented, log, worlds(ran - 1).rows, worlds(ran).rows, passes(ran - 1));
    Ended(log, Roots(worlds(0).rows, parented), Roots(worlds(ran - 1).rows, parented),
      Roots(worlds(ran).rows, parented), passes, left, ran);
  }

  lemma Ended(log: seq<Scan.Event>, was: set<Id>, before: set<Id>, now: set<Id>, passes: nat -> Scan.Adoption,
              left: nat -> nat, ran: nat)
    requires Scan.Stops(passes, left, ran) && left(ran - 1) == |now|
    requires Progress(log, was, before, ran - 1) && Progress(log, was, now, ran)
      && Tally(log, before, now, passes(ran - 1))
    ensures left(ran - 1) == 0 <==> AllFiled(log, was) && |was| <= Scan.PASSES * Scan.BATCH
  {
    hide Filed, Scan.Continues;
    assert ran * Scan.BATCH <= Scan.PASSES * Scan.BATCH;
    if now == {} {
      assert AllFiled(log, was);
    } else if AllFiled(log, was) {
      assert AllFiled(log, before);
      GoesOnWhileFiled(log, before, now, passes, left, ran - 1);
      assert ran == Scan.PASSES && |was| == |now| + Scan.PASSES * Scan.BATCH;
    }
  }

  /** The run itself, over a store only it writes to. */
  method RunAlone(
      ghost levels: Levels, ghost parented: set<string>, ghost log: seq<Scan.Event>, ghost worlds: nat -> World,
      waiting: nat, passes: nat -> Scan.Adoption, left: nat -> nat)
    returns (done: Scan.Adoption, ran: nat)
    requires Sealed(levels, parented, log) && RowsOk(levels, worlds(0))
    requires RunsAlone(levels, parented, log, worlds, passes, left)
    ensures
      var roots := Roots(worlds(0).rows, parented);
      Scan.Settled(done) <==> AllFiled(log, roots) && |roots| <= Scan.PASSES * Scan.BATCH
    ensures Scan.Settled(done) <==> Roots(worlds(ran).rows, parented) == {}
    ensures Housed(levels, parented, log, worlds(0).rows, worlds(ran).rows)
  {
    forall i: nat ensures Scan.DistinctSubjects(passes(i).disagreements) {
      assert Passes(levels, parented, log, worlds(i), worlds(i + 1), passes(i));
    }
    hide Scan.Stops, Scan.Settled, Roots, Housed, Sealed, RowsOk;
    done, ran := Scan.Run(waiting, passes, left);
    SettlesExactly(levels, parented, log, worlds, passes, left, ran);
    assert left(ran - 1) == |Roots(worlds(ran - 1 + 1).rows, parented)|;
  }
}
