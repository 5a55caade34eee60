/** The adoption scan: which parent the log gives each waiting subject, and the passes that move them
    (`src/adopt.rs`). */
module AdoptScan {
  import opened Options
  import KeyStore

  type Id = KeyStore.Id

  /** The chains an event's sealed fields name: a subject and its ancestors, nearest first. */
  type Event = seq<seq<Id>>

  /** One thing the log says: where this subject's key is filed. */
  datatype Mention = Mention(id: Id, chain: seq<Id>)

  /** Every link of a chain but the last says where its own key goes. */
  function ChainMentions(chain: seq<Id>, start: nat): seq<Mention>
    decreases |chain| - start
  {
    if start + 1 >= |chain| then [] else [Mention(chain[start], chain[start..])] + ChainMentions(chain, start + 1)
  }

  function EventMentions(chains: seq<seq<Id>>): seq<Mention> {
    if chains == [] then [] else ChainMentions(chains[0], 0) + EventMentions(chains[1..])
  }

  function Mentions(log: seq<Event>): seq<Mention> {
    if log == [] then [] else EventMentions(log[0]) + Mentions(log[1..])
  }

  /** The earliest chain the log gives a subject. */
  function Earliest(mentions: seq<Mention>, id: Id): (chain: Option<seq<Id>>)
    ensures chain.None? <==> forall m :: m in mentions ==> m.id != id
  {
    if mentions == [] then None
    else if mentions[0].id == id then Some(mentions[0].chain)
    else
      assert mentions == [mentions[0]] + mentions[1..];
      Earliest(mentions[1..], id)
  }

  function Sooner(before: Option<seq<Id>>, m: Mention, id: Id): Option<seq<Id>> {
    if before.Some? then before else if id == m.id then Some(m.chain) else None
  }

  lemma {:induction false} EarliestJoins(a: seq<Mention>, b: seq<Mention>, id: Id)
    ensures Earliest(a + b, id) == if Earliest(a, id).Some? then Earliest(a, id) else Earliest(b, id)
    decreases |a|
  {
    if a == [] {
      assert a + b == b;
    } else {
      assert (a + b)[1..] == a[1..] + b;
      EarliestJoins(a[1..], b, id);
    }
  }

  const DISAGREEMENTS: nat := 20

  function Ancestors(chain: seq<Id>): seq<Id> {
    if chain == [] then [] else chain[1..]
  }

  datatype Disagreement = Disagreement(id: Id, kept: seq<Id>, also: seq<Id>)

  predicate DistinctSubjects(found: seq<Disagreement>) {
    forall i, j :: 0 <= i < j < |found| ==> found[i].id != found[j].id
  }

  /** A chain that starts at a subject and has an ancestor. */
  predicate Heads(chain: seq<Id>, id: Id) {
    |chain| >= 2 && chain[0] == id
  }

  /** The log gives the subject a chain beside the one it is resolved to. */
  ghost predicate Disagrees(resolved: map<Id, seq<Id>>, mentions: seq<Mention>, d: Disagreement) {
    && d.id in resolved && d.kept == Ancestors(resolved[d.id]) && d.kept != d.also
    && exists m :: m in mentions && m.id == d.id && Ancestors(m.chain) == d.also
  }

  /** The resolved subjects the log gives another chain as well. */
  function Divided(resolved: map<Id, seq<Id>>, mentions: seq<Mention>): set<Id> {
    set m | m in mentions && m.id in resolved && m.chain != resolved[m.id] :: m.id
  }

  function Known(found: seq<Disagreement>): set<Id> {
    set i | 0 <= i < |found| :: found[i].id
  }

  function Fewer(a: nat, b: nat): nat { if a <= b then a else b }

  lemma {:induction false} KnownSize(found: seq<Disagreement>)
    requires DistinctSubjects(found)
    ensures |Known(found)| == |found|
    decreases |found|
  {
    if found == [] {
      assert Known(found) == {};
    } else {
      var last := |found| - 1;
      KnownSize(found[..last]);
      assert found[last].id !in Known(found[..last]);
      assert Known(found) == Known(found[..last]) + {found[last].id};
    }
  }

  lemma KnownMore(found: seq<Disagreement>, d: Disagreement)
    ensures Known(found + [d]) == Known(found) + {d.id}
  {
    var more := found + [d];
    forall id ensures id in Known(more) <==> id in Known(found) + {d.id} {
      assert more[|found|] == d;
      if i :| 0 <= i < |found| && found[i].id == id { assert more[i].id == id; }
    }
  }

  lemma {:induction false} FewerIn(part: set<Id>, whole: set<Id>)
    requires part <= whole
    ensures |part| <= |whole|
    decreases part
  {
    if id :| id in part { FewerIn(part - {id}, whole - {id}); }
  }

  ghost predicate Told(resolved: map<Id, seq<Id>>, mentions: seq<Mention>, found: seq<Disagreement>,
                       reported: set<Id>) {
    && |found| <= DISAGREEMENTS && DistinctSubjects(found)
    && (forall d :: d in found ==> Disagrees(resolved, mentions, d))
    && reported == Known(found) && reported <= Divided(resolved, mentions)
    && (|found| < DISAGREEMENTS ==> reported == Divided(resolved, mentions))
  }

  lemma DistinctMore(found: seq<Disagreement>, d: Disagreement)
    requires DistinctSubjects(found) && d.id !in Known(found)
    ensures DistinctSubjects(found + [d])
  {
    assert forall i :: 0 <= i < |found| ==> found[i].id in Known(found);
  }

  lemma ToldMore(resolved: map<Id, seq<Id>>, mentions: seq<Mention>, more: seq<Mention>, found: seq<Disagreement>,
                 reported: set<Id>, d: Disagreement)
    requires Told(resolved, mentions, found, reported) && |found| < DISAGREEMENTS && d.id !in reported
    requires Divided(resolved, more) == Divided(resolved, mentions) + {d.id} && Disagrees(resolved, more, d)
    requires forall other :: other in found ==> Disagrees(resolved, more, other)
    ensures Told(resolved, more, found + [d], reported + {d.id})
  {
    KnownMore(found, d);
    DistinctMore(found, d);
    hide Divided, Disagrees, Known, DistinctSubjects;
  }

  // ----- the fold ----------------------------------------------------------

  class Scan {
    ghost const waiting: set<Id>
    var pending: set<Id>
    var resolved: map<Id, seq<Id>>
    var disagreements: seq<Disagreement>
    var reported: set<Id>
    var scanned: nat

    constructor (pending: set<Id>)
      ensures this.waiting == pending && Saw([]) && Tidy([]) && scanned == 0 && this.pending == pending
    {
      this.waiting := pending;
      this.pending, resolved, disagreements, reported, scanned := pending, map[], [], {}, 0;
    }

    /** What has been read decides what is resolved, and to what. */
    ghost predicate Saw(mentions: seq<Mention>)
      reads this
    {
      && (forall id :: id in resolved <==> id in waiting && Earliest(mentions, id).Some?)
      && (forall id :: id in resolved ==> resolved[id] == Earliest(mentions, id).value)
      && (forall id :: id in pending <==> id in waiting && Earliest(mentions, id).None?)
    }

    /** Disagreements are few, one to a subject, and of two chains the log really gives it; and while
        they are few, no divided subject is missing. */
    ghost predicate Tidy(mentions: seq<Mention>)
      reads this
    {
      && (forall id :: id in resolved ==> Heads(resolved[id], id))
      && (forall m :: m in mentions ==> Heads(m.chain, m.id))
      && Told(resolved, mentions, disagreements, reported)
    }

    lemma SawMore(m: Mention, before: seq<Mention>)
      ensures forall id :: Earliest(before + [m], id) == Sooner(Earliest(before, id), m, id)
    {
      forall id ensures Earliest(before + [m], id) == Sooner(Earliest(before, id), m, id) {
        EarliestJoins(before, [m], id);
      }
    }

    lemma DividedMore(m: Mention, before: seq<Mention>)
      requires Saw(before) && m.id in resolved
      ensures Divided(resolved, before + [m]) ==
        Divided(resolved, before) + if m.chain != resolved[m.id] then {m.id} else {}
    {
    }

    /** The first chain the log gives a waiting subject. */
    method Resolve(m: Mention, ghost before: seq<Mention>)
      requires Saw(before) && Tidy(before) && Heads(m.chain, m.id) && m.id !in resolved && m.id in pending
      modifies this`pending, this`resolved
      ensures Saw(before + [m]) && Tidy(before + [m])
    {
      SawMore(m, before);
      hide Earliest;
      resolved := resolved[m.id := m.chain];
      pending := pending - {m.id};
      forall d | d in disagreements ensures Disagrees(resolved, before + [m], d) {
        var other :| other in before && other.id == d.id && Ancestors(other.chain) == d.also;
        assert other in before + [m];
      }
    }

    lemma SawAgain(m: Mention, before: seq<Mention>)
      requires Saw(before) && m.id in resolved
      ensures Saw(before + [m])
    {
      SawMore(m, before);
      hide Earliest;
    }

    lemma StillDisagree(m: Mention, before: seq<Mention>)
      requires Tidy(before)
      ensures forall d :: d in disagreements ==> Disagrees(resolved, before + [m], d)
    {
      forall d | d in disagreements ensures Disagrees(resolved, before + [m], d) {
        var other :| other in before && other.id == d.id && Ancestors(other.chain) == d.also;
        assert other in before + [m];
      }
    }

    /** A chain already known, or one of a subject reported already, or one too many. */
    lemma Noted(m: Mention, before: seq<Mention>)
      requires Saw(before) && Tidy(before) && Heads(m.chain, m.id) && m.id in resolved
      requires resolved[m.id] == m.chain || |disagreements| >= DISAGREEMENTS || m.id in reported
      ensures Saw(before + [m]) && Tidy(before + [m])
    {
      SawAgain(m, before);
      DividedMore(m, before);
      StillDisagree(m, before);
      hide Saw, Disagrees, Known, DistinctSubjects, Divided;
    }

    lemma TwoChains(m: Mention, before: seq<Mention>)
      requires Tidy(before) && Heads(m.chain, m.id) && m.id in resolved && resolved[m.id] != m.chain
      ensures Disagrees(resolved, before + [m], Disagreement(m.id, Ancestors(resolved[m.id]), Ancestors(m.chain)))
    {
      Differ(resolved[m.id], m.chain);
      assert m in before + [m];
    }

    method Report(m: Mention, ghost before: seq<Mention>)
      requires Saw(before) && Tidy(before) && Heads(m.chain, m.id) && m.id in resolved
      requires resolved[m.id] != m.chain && |disagreements| < DISAGREEMENTS && m.id !in reported
      modifies this`disagreements, this`reported
      ensures Saw(before + [m]) && Tidy(before + [m])
    {
      hide Ancestors, Divided, Disagrees, Known, Earliest, Told;
      SawAgain(m, before);
      DividedMore(m, before);
      StillDisagree(m, before);
      TwoChains(m, before);
      var d := Disagreement(m.id, Ancestors(resolved[m.id]), Ancestors(m.chain));
      ToldMore(resolved, before, before + [m], disagreements, reported, d);
      reported := reported + {m.id};
      disagreements := disagreements + [d];
    }

    /** A later chain: noticed once a subject, and no more than so many. */
    method Notice(m: Mention, ghost before: seq<Mention>)
      requires Saw(before) && Tidy(before) && Heads(m.chain, m.id) && m.id in resolved
      modifies this`disagreements, this`reported
      ensures Saw(before + [m]) && Tidy(before + [m])
    {
      if resolved[m.id] != m.chain && |disagreements| < DISAGREEMENTS && m.id !in reported {
        Report(m, before);
      } else {
        Noted(m, before);
      }
    }

    /** Keep the first ancestry seen for a subject, and notice a later one that differs. */
    method KeepFirst(m: Mention, ghost before: seq<Mention>)
      requires Saw(before) && Tidy(before) && Heads(m.chain, m.id)
      requires m.id in pending || m.id in resolved
      modifies this`pending, this`resolved, this`disagreements, this`reported
      ensures Saw(before + [m]) && Tidy(before + [m])
    {
      if m.id !in resolved { Resolve(m, before); } else { Notice(m, before); }
    }

    /** A mention of a subject that is not waiting changes nothing. */
    lemma PassesOver(m: Mention, before: seq<Mention>)
      requires Saw(before) && Tidy(before) && Heads(m.chain, m.id)
      requires m.id !in pending && m.id !in resolved
      ensures Saw(before + [m]) && Tidy(before + [m])
    {
      forall id ensures id in waiting ==> Earliest(before + [m], id) == Earliest(before, id) {
        EarliestJoins(before, [m], id);
      }
    }

    /** Only subjects that are waiting, and ones already resolved, are looked at. */
    method ReadMention(m: Mention, ghost before: seq<Mention>)
      requires Saw(before) && Tidy(before) && Heads(m.chain, m.id)
      modifies this`pending, this`resolved, this`disagreements, this`reported
      ensures Saw(before + [m]) && Tidy(before + [m])
    {
      if m.id in pending || m.id in resolved {
        KeepFirst(m, before);
      } else {
        PassesOver(m, before);
      }
    }

    method ReadChain(chain: seq<Id>, ghost before: seq<Mention>)
      requires Saw(before) && Tidy(before)
      modifies this`pending, this`resolved, this`disagreements, this`reported
      ensures Saw(before + ChainMentions(chain, 0)) && Tidy(before + ChainMentions(chain, 0))
    {
      hide Saw, Tidy;
      ghost var seen := before;
      var start := 0;
      while start + 1 < |chain|
        invariant start + 1 <= |chain| || start == 0
        invariant Saw(seen) && Tidy(seen)
        invariant before + ChainMentions(chain, 0) == seen + ChainMentions(chain, start)
      {
        var m := Mention(chain[start], chain[start..]);
        ReadMention(m, seen);
        seen := seen + [m];
        start := start + 1;
      }
      assert seen == before + ChainMentions(chain, 0);
    }

    /** One event more has been read. */
    method Advance(ghost seen: seq<Mention>)
      requires Saw(seen) && Tidy(seen)
      modifies this`scanned
      ensures scanned == old(scanned) + 1 && Saw(seen) && Tidy(seen)
    {
      scanned := scanned + 1;
    }

    method ReadEvent(event: Event, ghost before: seq<Mention>)
      requires Saw(before) && Tidy(before)
      modifies this`pending, this`resolved, this`disagreements, this`reported
      ensures Saw(before + EventMentions(event)) && Tidy(before + EventMentions(event))
    {
      hide Saw, Tidy;
      ghost var seen := before;
      for i := 0 to |event|
        invariant Saw(seen) && Tidy(seen)
        invariant before + EventMentions(event) == seen + EventMentions(event[i..])
      {
        assert event[i..][1..] == event[i + 1..];
        ReadChain(event[i], seen);
        seen := seen + ChainMentions(event[i], 0);
      }
      assert seen == before + EventMentions(event);
    }
  }

  lemma Differ(a: seq<Id>, b: seq<Id>)
    requires a != b && |a| >= 2 && |b| >= 2 && a[0] == b[0]
    ensures Ancestors(a) != Ancestors(b)
  {
    assert a == [a[0]] + Ancestors(a) && b == [b[0]] + Ancestors(b);
  }

  /** What has been read stands for the whole log once nothing is pending or nothing is left. */
  lemma ReadEnough(scan: Scan, seen: seq<Mention>, rest: seq<Mention>)
    requires scan.Saw(seen) && (rest == [] || scan.pending == {})
    ensures scan.resolved.Keys + scan.pending == scan.waiting && scan.resolved.Keys !! scan.pending
    ensures forall id :: id in scan.resolved ==> Earliest(seen + rest, id) == Some(scan.resolved[id])
    ensures forall id :: id in scan.pending ==> Earliest(seen + rest, id) == None
  {
    forall id
      ensures Earliest(seen + rest, id) == if Earliest(seen, id).Some? then Earliest(seen, id) else Earliest(rest, id)
    {
      EarliestJoins(seen, rest, id);
    }
  }

  lemma {:induction false} MentionsJoin(a: seq<Event>, b: seq<Event>)
    ensures Mentions(a + b) == Mentions(a) + Mentions(b)
    decreases |a|
  {
    if a == [] {
      assert a + b == b;
    } else {
      assert (a + b)[1..] == a[1..] + b;
      MentionsJoin(a[1..], b);
    }
  }

  lemma MentionsNext(log: seq<Event>, at: nat)
    requires at < |log|
    ensures Mentions(log[..at + 1]) == Mentions(log[..at]) + EventMentions(log[at])
  {
    MentionsJoin(log[..at], [log[at]]);
    assert log[..at + 1] == log[..at] + [log[at]];
  }

  lemma MentionsEnds(log: seq<Event>, at: nat)
    requires at <= |log|
    ensures Mentions(log[..0]) == [] && Mentions(log) == Mentions(log[..at]) + Mentions(log[at..])
    ensures at == |log| ==> Mentions(log[at..]) == []
  {
    MentionsJoin(log[..at], log[at..]);
    assert log == log[..at] + log[at..];
  }

  // ----- where the log files a subject --------------------------------------

  /** Some link of the chain but the last is the subject. */
  predicate InChain(chain: seq<Id>, id: Id) {
    exists s :: 0 <= s < |chain| - 1 && chain[s] == id
  }

  predicate InEvent(event: Event, id: Id) {
    exists c :: 0 <= c < |event| && InChain(event[c], id)
  }

  lemma {:induction false} ChainSilent(chain: seq<Id>, start: nat, id: Id)
    requires forall k :: start <= k < |chain| - 1 ==> chain[k] != id
    ensures Earliest(ChainMentions(chain, start), id) == None
    decreases |chain| - start
  {
    if start + 1 < |chain| {
      ChainSilent(chain, start + 1, id);
      EarliestJoins([Mention(chain[start], chain[start..])], ChainMentions(chain, start + 1), id);
    }
  }

  lemma {:induction false} ChainGives(chain: seq<Id>, start: nat, id: Id, s: nat)
    requires start <= s < |chain| - 1 && chain[s] == id && forall k :: start <= k < s ==> chain[k] != id
    ensures Earliest(ChainMentions(chain, start), id) == Some(chain[s..])
    decreases s - start
  {
    if start < s {
      ChainGives(chain, start + 1, id, s);
      EarliestJoins([Mention(chain[start], chain[start..])], ChainMentions(chain, start + 1), id);
    }
  }

  lemma {:induction false} EventSilent(event: Event, id: Id)
    requires !InEvent(event, id)
    ensures Earliest(EventMentions(event), id) == None
  {
    if event != [] {
      assert !InChain(event[0], id);
      assert forall c :: 0 <= c < |event[1..]| ==> event[1..][c] == event[c + 1];
      ChainSilent(event[0], 0, id);
      EventSilent(event[1..], id);
      EarliestJoins(ChainMentions(event[0], 0), EventMentions(event[1..]), id);
    }
  }

  lemma {:induction false} EventGives(event: Event, id: Id, c: nat, s: nat)
    requires c < |event| && s < |event[c]| - 1 && event[c][s] == id && forall k :: 0 <= k < s ==> event[c][k] != id
    requires forall k :: 0 <= k < c ==> !InChain(event[k], id)
    ensures Earliest(EventMentions(event), id) == Some(event[c][s..])
    decreases c
  {
    EarliestJoins(ChainMentions(event[0], 0), EventMentions(event[1..]), id);
    if c == 0 {
      ChainGives(event[0], 0, id, s);
    } else {
      assert !InChain(event[0], id);
      ChainSilent(event[0], 0, id);
      assert forall k :: 0 <= k < |event[1..]| ==> event[1..][k] == event[k + 1];
      EventGives(event[1..], id, c - 1, s);
    }
  }

  /** The log files a subject nowhere when none of its chains has it anywhere but last. */
  lemma {:induction false} FiledNowhere(log: seq<Event>, id: Id)
    requires forall n :: 0 <= n < |log| ==> !InEvent(log[n], id)
    ensures Earliest(Mentions(log), id) == None
  {
    if log != [] {
      assert !InEvent(log[0], id);
      assert forall n :: 0 <= n < |log[1..]| ==> log[1..][n] == log[n + 1];
      EventSilent(log[0], id);
      FiledNowhere(log[1..], id);
      EarliestJoins(EventMentions(log[0]), Mentions(log[1..]), id);
    }
  }

  /** And otherwise under the ancestors it has in the first place that names it: the first link of the first
      chain of the first event. */
  lemma {:induction false} FiledFirst(log: seq<Event>, id: Id, n: nat, c: nat, s: nat)
    requires n < |log| && c < |log[n]| && s < |log[n][c]| - 1 && log[n][c][s] == id
    requires forall k :: 0 <= k < s ==> log[n][c][k] != id
    requires forall k :: 0 <= k < c ==> !InChain(log[n][k], id)
    requires forall k :: 0 <= k < n ==> !InEvent(log[k], id)
    ensures Earliest(Mentions(log), id) == Some(log[n][c][s..])
    decreases n
  {
    EarliestJoins(EventMentions(log[0]), Mentions(log[1..]), id);
    if n == 0 {
      EventGives(log[0], id, c, s);
    } else {
      assert !InEvent(log[0], id);
      EventSilent(log[0], id);
      assert forall k :: 0 <= k < |log[1..]| ==> log[1..][k] == log[k + 1];
      FiledFirst(log[1..], id, n - 1, c, s);
    }
  }

  /** The log gives the subject this chain, as the rest of one of its chains from where the subject stands. */
  ghost predicate Gives(log: seq<Event>, id: Id, chain: seq<Id>) {
    exists n, c, s :: 0 <= n < |log| && 0 <= c < |log[n]| && 0 <= s < |log[n][c]| - 1
      && log[n][c][s] == id && chain == log[n][c][s..]
  }

  ghost predicate EventHas(event: Event, id: Id, chain: seq<Id>) {
    exists c :: 0 <= c < |event| && ChainHas(event[c], id, chain)
  }

  ghost predicate ChainHas(whole: seq<Id>, id: Id, chain: seq<Id>) {
    exists s :: 0 <= s < |whole| - 1 && whole[s] == id && chain == whole[s..]
  }

  lemma {:induction false} ChainMentionsAre(whole: seq<Id>, start: nat, id: Id, chain: seq<Id>)
    ensures Mention(id, chain) in ChainMentions(whole, start) <==>
      exists s :: start <= s < |whole| - 1 && whole[s] == id && chain == whole[s..]
    decreases |whole| - start
  {
    if start + 1 < |whole| { ChainMentionsAre(whole, start + 1, id, chain); }
  }

  lemma {:induction false} EventMentionsAre(event: Event, id: Id, chain: seq<Id>)
    ensures Mention(id, chain) in EventMentions(event) <==> EventHas(event, id, chain)
  {
    if event != [] {
      ChainMentionsAre(event[0], 0, id, chain);
      EventMentionsAre(event[1..], id, chain);
      assert EventHas(event, id, chain) <==> ChainHas(event[0], id, chain) || EventHas(event[1..], id, chain) by {
        if c :| 0 <= c < |event| && ChainHas(event[c], id, chain) && c > 0 {
          assert ChainHas(event[1..][c - 1], id, chain);
        }
        if c :| 0 <= c < |event[1..]| && ChainHas(event[1..][c], id, chain) {
          assert ChainHas(event[c + 1], id, chain);
        }
      }
    }
  }

  lemma {:induction false} MentionsAre(log: seq<Event>, id: Id, chain: seq<Id>)
    ensures Mention(id, chain) in Mentions(log) <==> exists n :: 0 <= n < |log| && EventHas(log[n], id, chain)
  {
    if log != [] {
      EventMentionsAre(log[0], id, chain);
      MentionsAre(log[1..], id, chain);
      if n :| 0 <= n < |log| && EventHas(log[n], id, chain) && n > 0 {
        assert EventHas(log[1..][n - 1], id, chain);
      }
      if n :| 0 <= n < |log[1..]| && EventHas(log[1..][n], id, chain) {
        assert EventHas(log[n + 1], id, chain);
      }
    }
  }

  lemma GivesIs(log: seq<Event>, id: Id, chain: seq<Id>)
    ensures Mention(id, chain) in Mentions(log) <==> Gives(log, id, chain)
  {
    MentionsAre(log, id, chain);
    hide Mentions;
    if n :| 0 <= n < |log| && EventHas(log[n], id, chain) {
      var c :| 0 <= c < |log[n]| && ChainHas(log[n][c], id, chain);
      var s :| 0 <= s < |log[n][c]| - 1 && log[n][c][s] == id && chain == log[n][c][s..];
      assert Gives(log, id, chain);
    }
    if Gives(log, id, chain) {
      var n, c, s :| 0 <= n < |log| && 0 <= c < |log[n]| && 0 <= s < |log[n][c]| - 1
        && log[n][c][s] == id && chain == log[n][c][s..];
      assert ChainHas(log[n][c], id, chain);
      assert EventHas(log[n], id, chain);
    }
  }

  /** A resolved subject is divided exactly when some link of the log gives it another chain. */
  lemma DividedExactly(resolved: map<Id, seq<Id>>, log: seq<Event>, id: Id)
    ensures id in Divided(resolved, Mentions(log)) <==>
      id in resolved && exists chain :: Gives(log, id, chain) && chain != resolved[id]
  {
    forall chain ensures Mention(id, chain) in Mentions(log) <==> Gives(log, id, chain) { GivesIs(log, id, chain); }
    hide Mentions, Gives;
    if id in Divided(resolved, Mentions(log)) {
      var m :| m in Mentions(log) && m.id in resolved && m.chain != resolved[m.id] && m.id == id;
      assert m == Mention(id, m.chain);
    }
    if chain :| id in resolved && Gives(log, id, chain) && chain != resolved[id] {
      var m := Mention(id, chain);
      assert m in Mentions(log) && m.id in resolved && m.chain != resolved[m.id];
    }
  }

  /** Walk the log until every waiting subject has a parent, or it runs out. Stopping early changes
      nothing about who is resolved: each waiting subject gets the earliest chain in the whole log. */
  method Fold(log: seq<Event>, waiting: set<Id>) returns (scan: Scan)
    ensures fresh(scan)
    ensures scan.resolved.Keys + scan.pending == waiting && scan.resolved.Keys !! scan.pending
    ensures forall id :: id in scan.resolved ==> Earliest(Mentions(log), id) == Some(scan.resolved[id])
    ensures forall id :: id in scan.pending ==> Earliest(Mentions(log), id) == None
    ensures |scan.disagreements| <= DISAGREEMENTS && DistinctSubjects(scan.disagreements)
    ensures forall d :: d in scan.disagreements ==> Disagrees(scan.resolved, Mentions(log), d)
    ensures scan.scanned <= |log| && (scan.scanned < |log| ==> scan.pending == {})
    ensures |scan.disagreements| == Fewer(DISAGREEMENTS, |Divided(scan.resolved, Mentions(log[..scan.scanned]))|)
  {
    hide Mentions, EventMentions, Earliest, Disagrees, DistinctSubjects, Divided, Scan.Saw, Scan.Tidy;
    scan := new Scan(waiting);
    MentionsEnds(log, 0);
    while scan.scanned < |log|
      invariant fresh(scan) && scan.waiting == waiting && scan.scanned <= |log|
      invariant scan.Saw(Mentions(log[..scan.scanned])) && scan.Tidy(Mentions(log[..scan.scanned]))
    {
      MentionsNext(log, scan.scanned);
      scan.ReadEvent(log[scan.scanned], Mentions(log[..scan.scanned]));
      scan.Advance(Mentions(log[..scan.scanned + 1]));
      if scan.pending == {} {
        break;
      }
    }
    var at := scan.scanned;
    MentionsEnds(log, at);
    ReadEnough(scan, Mentions(log[..at]), Mentions(log[at..]));
    TidyKept(scan, Mentions(log[..at]), Mentions(log[at..]));
    AllNoticed(scan, Mentions(log[..at]));
  }

  /** Every subject given another chain in what was read is reported, or as many as are reported at all. */
  lemma AllNoticed(scan: Scan, seen: seq<Mention>)
    requires scan.Tidy(seen)
    ensures |scan.disagreements| == Fewer(DISAGREEMENTS, |Divided(scan.resolved, seen)|)
  {
    KnownSize(scan.disagreements);
    FewerIn(scan.reported, Divided(scan.resolved, seen));
  }

  lemma TidyKept(scan: Scan, seen: seq<Mention>, rest: seq<Mention>)
    requires scan.Tidy(seen)
    ensures |scan.disagreements| <= DISAGREEMENTS && DistinctSubjects(scan.disagreements)
    ensures forall d :: d in scan.disagreements ==> Disagrees(scan.resolved, seen + rest, d)
  {
    forall d | d in scan.disagreements ensures Disagrees(scan.resolved, seen + rest, d) {
      var m :| m in seen && m.id == d.id && Ancestors(m.chain) == d.also;
      assert m in seen + rest;
    }
  }

  // ----- passes ------------------------------------------------------------

  const PASSES: nat := 512

  const BATCH: nat := 50_000

  const CONTENDED_PASSES: nat := 3

  datatype Adoption = Adoption(
    adopted: nat,
    waiting: nat,
    scanned: nat,
    unresolved: set<Id>,
    disagreements: seq<Disagreement>,
    minted: nat,
    failed: nat,
    remaining: nat)

  datatype Unfinished = Unaccounted(ids: set<Id>) | Failed(count: nat) | Contended(left: nat)

  /** Why a run left rows behind: the store is asked first. */
  function Why(done: Adoption): Option<Unfinished> {
    if done.remaining == 0 then None
    else if done.unresolved != {} then Some(Unaccounted(done.unresolved))
    else if done.failed > 0 then Some(Failed(done.failed))
    else Some(Contended(done.remaining))
  }

  predicate Settled(done: Adoption) {
    Why(done) == None
  }

  /** Those of one pass no earlier pass reported. */
  function Unknown(found: seq<Disagreement>, known: set<Id>): seq<Disagreement> {
    if found == [] then []
    else (if found[0].id in known then [] else [found[0]]) + Unknown(found[1..], known)
  }

  function Take(found: seq<Disagreement>, n: int): seq<Disagreement> {
    if n <= 0 then [] else if |found| <= n then found else found[..n]
  }

  lemma {:induction false} UnknownHolds(found: seq<Disagreement>, known: set<Id>)
    requires DistinctSubjects(found)
    ensures DistinctSubjects(Unknown(found, known))
    ensures forall d :: d in Unknown(found, known) ==> d in found && d.id !in known
  {
    if found != [] {
      assert DistinctSubjects(found[1..]);
      UnknownHolds(found[1..], known);
      var rest := Unknown(found[1..], known);
      forall j | 0 <= j < |rest| ensures rest[j].id != found[0].id {
        assert rest[j] in found[1..];
        var k :| 0 <= k < |found[1..]| && found[1..][k] == rest[j];
        assert found[0].id != found[k + 1].id;
      }
    }
  }

  /** Fold one pass's counts into a run's. */
  function Absorb(done: Adoption, pass: Adoption): Adoption {
    var known := Known(done.disagreements);
    done.(adopted := done.adopted + pass.adopted,
          scanned := done.scanned + pass.scanned,
          minted := done.minted + pass.minted,
          failed := pass.failed,
          unresolved := pass.unresolved,
          disagreements := done.disagreements + Take(Unknown(pass.disagreements, known), DISAGREEMENTS - |known|))
  }

  predicate Reported(found: seq<Disagreement>) {
    |found| <= DISAGREEMENTS && DistinctSubjects(found)
  }

  /** Disagreements stay distinct and few across passes. */
  lemma AbsorbReports(done: Adoption, pass: Adoption)
    requires Reported(done.disagreements) && DistinctSubjects(pass.disagreements)
    ensures Reported(Absorb(done, pass).disagreements)
  {
    var known := Known(done.disagreements);
    KnownSize(done.disagreements);
    UnknownHolds(pass.disagreements, known);
    var more := Take(Unknown(pass.disagreements, known), DISAGREEMENTS - |known|);
    assert forall i :: 0 <= i < |more| ==> more[i] in Unknown(pass.disagreements, known);
    assert forall i :: 0 <= i < |done.disagreements| ==> done.disagreements[i].id in known;
  }

  lemma AbsorbCounts(done: Adoption, pass: Adoption)
    ensures
      var after := Absorb(done, pass);
      && after.adopted == done.adopted + pass.adopted && after.waiting == done.waiting
      && after.unresolved == pass.unresolved && after.failed == pass.failed
      && after.scanned == done.scanned + pass.scanned && after.minted == done.minted + pass.minted
  {
  }

  /** What the first `n` passes moved. */
  function Total(passes: nat -> Adoption, n: nat): nat {
    if n == 0 then 0 else Total(passes, n - 1) + passes(n - 1).adopted
  }

  function Scanned(passes: nat -> Adoption, n: nat): nat {
    if n == 0 then 0 else Scanned(passes, n - 1) + passes(n - 1).scanned
  }

  function Minted(passes: nat -> Adoption, n: nat): nat {
    if n == 0 then 0 else Minted(passes, n - 1) + passes(n - 1).minted
  }

  /** The subjects some of the first `n` passes reported divided. */
  function Subjects(passes: nat -> Adoption, n: nat): set<Id> {
    if n == 0 then {} else Subjects(passes, n - 1) + Known(passes(n - 1).disagreements)
  }

  /** What a run reports is what its passes did: every subject any of them reported, or as many as are
      reported at all. */
  ghost predicate AllTold(found: seq<Disagreement>, passes: nat -> Adoption, n: nat) {
    && (forall d :: d in found ==> exists i :: 0 <= i < n && d in passes(i).disagreements)
    && Known(found) <= Subjects(passes, n) && |found| == Fewer(DISAGREEMENTS, |Subjects(passes, n)|)
  }

  /** What a run has come to after `n` passes: the sum of what they did, and every subject any of them
      reported, each once, or as many as are reported at all. */
  ghost predicate Absorbed(done: Adoption, passes: nat -> Adoption, n: nat) {
    && done.adopted == Total(passes, n) && done.scanned == Scanned(passes, n) && done.minted == Minted(passes, n)
    && Reported(done.disagreements) && AllTold(done.disagreements, passes, n)
  }

  lemma {:induction false} UnknownKnows(found: seq<Disagreement>, known: set<Id>)
    ensures Known(Unknown(found, known)) == Known(found) - known
  {
    if found == [] {
      assert Unknown(found, known) == [];
    } else {
      UnknownKnows(found[1..], known);
      KnownFirst(found);
      var rest := Unknown(found[1..], known);
      if found[0].id in known {
        assert Unknown(found, known) == rest;
      } else {
        assert Unknown(found, known) == [found[0]] + rest && ([found[0]] + rest)[1..] == rest;
        KnownFirst([found[0]] + rest);
      }
    }
  }

  lemma KnownFirst(found: seq<Disagreement>)
    requires found != []
    ensures Known(found) == {found[0].id} + Known(found[1..])
  {
    KnownJoins([found[0]], found[1..]);
    assert found == [found[0]] + found[1..];
    assert Known([found[0]]) == {found[0].id};
  }

  lemma KnownJoins(a: seq<Disagreement>, b: seq<Disagreement>)
    ensures Known(a + b) == Known(a) + Known(b)
  {
    forall id ensures id in Known(a + b) <==> id in Known(a) + Known(b) {
      if i :| 0 <= i < |a| && a[i].id == id { assert (a + b)[i].id == id; }
      if i :| 0 <= i < |b| && b[i].id == id { assert (a + b)[|a| + i].id == id; }
    }
  }

  lemma SubsetIsAll(part: set<Id>, whole: set<Id>)
    requires part <= whole && |part| == |whole|
    ensures part == whole
  {
    if id :| id in whole && id !in part { FewerIn(part, whole - {id}); }
  }

  lemma TakesFront(found: seq<Disagreement>, n: nat)
    ensures Take(found, n) <= found && |Take(found, n)| == Fewer(n, |found|)
    ensures Known(Take(found, n)) <= Known(found)
  {
    var more := Take(found, n);
    KnownJoins(more, found[|more|..]);
    assert found == more + found[|more|..];
  }

  lemma AbsorbIs(done: Adoption, pass: Adoption)
    ensures
      var known := Known(done.disagreements);
      Absorb(done, pass).disagreements ==
        done.disagreements + Take(Unknown(pass.disagreements, known), DISAGREEMENTS - |known|)
  {
  }

  /** Subjects no earlier pass reported are reported as long as there is room. */
  lemma AbsorbAdds(done: Adoption, pass: Adoption) returns (more: seq<Disagreement>)
    requires DistinctSubjects(done.disagreements) && |done.disagreements| <= DISAGREEMENTS
    requires DistinctSubjects(pass.disagreements)
    ensures Absorb(done, pass).disagreements == done.disagreements + more
    ensures |Known(done.disagreements)| == |done.disagreements|
    ensures |more| == Fewer(DISAGREEMENTS - |done.disagreements|,
                            |Known(pass.disagreements) - Known(done.disagreements)|)
    ensures (forall d :: d in more ==> d in pass.disagreements) && Known(more) <= Known(pass.disagreements)
  {
    hide *;
    var known := Known(done.disagreements);
    var unknown := Unknown(pass.disagreements, known);
    KnownSize(done.disagreements);
    UnknownKnows(pass.disagreements, known);
    UnknownHolds(pass.disagreements, known);
    KnownSize(unknown);
    more := Take(unknown, DISAGREEMENTS - |known|);
    TakesFront(unknown, DISAGREEMENTS - |known|);
    AbsorbIs(done, pass);
  }

  lemma AbsorbTells(done: Adoption, passes: nat -> Adoption, n: nat)
    requires Reported(done.disagreements) && DistinctSubjects(passes(n).disagreements)
    requires AllTold(done.disagreements, passes, n)
    ensures AllTold(Absorb(done, passes(n)).disagreements, passes, n + 1)
  {
    hide Known, DistinctSubjects, Absorb;
    var more := AbsorbAdds(done, passes(n));
    var found := done.disagreements;
    KnownJoins(found, more);
    var before, now := Subjects(passes, n), Known(passes(n).disagreements);
    assert Subjects(passes, n + 1) == before + now;
    hide Subjects;
    CapHolds(Known(found), before, now, |found|, |more|);
    forall d | d in found + more ensures exists i :: 0 <= i < n + 1 && d in passes(i).disagreements {
      if d in found { var i :| 0 <= i < n && d in passes(i).disagreements; }
    }
  }

  lemma CapHolds(known: set<Id>, before: set<Id>, now: set<Id>, found: nat, more: nat)
    requires known <= before && |known| == found == Fewer(DISAGREEMENTS, |before|)
    requires more == Fewer(DISAGREEMENTS - found, |now - known|)
    ensures found + more == Fewer(DISAGREEMENTS, |before + now|)
  {
    if found < DISAGREEMENTS {
      SubsetIsAll(known, before);
      assert before + now == before + (now - before);
    } else {
      FewerIn(before, before + now);
    }
  }

  lemma AbsorbsNext(done: Adoption, passes: nat -> Adoption, n: nat, left: nat)
    requires Absorbed(done, passes, n) && DistinctSubjects(passes(n).disagreements)
    ensures
      var after := Absorb(done, passes(n)).(remaining := left);
      && Absorbed(after, passes, n + 1) && after.waiting == done.waiting
      && after.unresolved == passes(n).unresolved && after.failed == passes(n).failed
      && after.adopted == done.adopted + passes(n).adopted
  {
    AbsorbReports(done, passes(n));
    AbsorbTells(done, passes, n);
    AbsorbCounts(done, passes(n));
    hide Absorb, Reported, DistinctSubjects, AllTold;
  }

  /** How many of the first `n` passes saw everything there was. */
  function Partial(passes: nat -> Adoption, n: nat): nat {
    if n == 0 then 0 else Partial(passes, n - 1) + if passes(n - 1).waiting < BATCH then 1 else 0
  }

  /** A pass after which another may help. */
  predicate GoesOn(pass: Adoption, left: nat) {
    left > 0 && pass.unresolved == {} && pass.adopted > 0
  }

  /** Whether the run goes on after its pass `i`: something moved, and it has not been beaten to what was
      left too often. */
  predicate Continues(passes: nat -> Adoption, left: nat -> nat, i: nat) {
    GoesOn(passes(i), left(i)) && (passes(i).waiting < BATCH ==> Partial(passes, i + 1) < CONTENDED_PASSES)
  }

  /** The run makes this many passes and no more. */
  predicate Stops(passes: nat -> Adoption, left: nat -> nat, ran: nat) {
    && 0 < ran <= PASSES && (forall i :: 0 <= i < ran - 1 ==> Continues(passes, left, i))
    && (ran < PASSES ==> !Continues(passes, left, ran - 1))
  }

  /** Take a pass into a run, and what the store answers is left after it. */
  method AbsorbPass(done: Adoption, pass: Adoption, left: nat, ghost passes: nat -> Adoption, ghost n: nat)
    returns (after: Adoption)
    requires Absorbed(done, passes, n) && pass == passes(n) && DistinctSubjects(pass.disagreements)
    ensures Absorbed(after, passes, n + 1) && after.waiting == done.waiting && after.remaining == left
    ensures after.unresolved == pass.unresolved && after.failed == pass.failed
    ensures after.adopted == done.adopted + pass.adopted
  {
    AbsorbsNext(done, passes, n, left);
    after := Absorb(done, pass).(remaining := left);
  }

  /** Adopt every root of a parented subject: pass after pass until nothing is left, nothing can help, or
      other writers keep winning. `passes` is what each pass did and `left` what the store answers after it. */
  method Run(waiting: nat, passes: nat -> Adoption, left: nat -> nat) returns (done: Adoption, ran: nat)
    requires forall i: nat :: DistinctSubjects(passes(i).disagreements)
    ensures Stops(passes, left, ran) && done.remaining == left(ran - 1)
    ensures Settled(done) <==> left(ran - 1) == 0
    ensures Absorbed(done, passes, ran) && done.waiting == waiting
    ensures done.unresolved == passes(ran - 1).unresolved && done.failed == passes(ran - 1).failed
    ensures Why(done) ==
      if left(ran - 1) == 0 then None
      else if passes(ran - 1).unresolved != {} then Some(Unaccounted(passes(ran - 1).unresolved))
      else if passes(ran - 1).failed > 0 then Some(Failed(passes(ran - 1).failed)) else Some(Contended(left(ran - 1)))
  {
    done := Adoption(0, waiting, 0, {}, [], 0, 0, 0);
    ran := 0;
    var contended := 0;
    while true
      invariant ran < PASSES && done.waiting == waiting
      invariant Absorbed(done, passes, ran) && contended == Partial(passes, ran)
      invariant forall i :: 0 <= i < ran ==> Continues(passes, left, i)
      decreases PASSES - ran
    {
      var before := done.adopted;
      var batch := passes(ran);
      done := AbsorbPass(done, batch, left(ran), passes, ran);
      ran := ran + 1;
      // Nothing left, nothing the log accounts for, or nothing that moved.
      if done.remaining == 0 || done.unresolved != {} || done.adopted == before {
        return;
      }
      if batch.waiting < BATCH {
        contended := contended + 1;
        if contended >= CONTENDED_PASSES {
          return;
        }
      }
      if ran == PASSES {
        return;
      }
    }
  }
}
