/** Every step keeps the invariant of LaneRuns. */
module LaneInvariants {
  import opened Options
  import opened LaneSpec
  import opened LaneRuns

  // ----- queue surgery -----------------------------------------------------

  ghost predicate Increasing(q: seq<Pending>) {
    forall i, j :: 0 <= i < j < |q| ==> q[i].hi < q[j].hi
  }

  /** A queue without the group at one place holds the rest, in order. */
  lemma Without(q: seq<Pending>, at: nat)
    requires Increasing(q) && at < |q|
    ensures
      var kept := q[..at] + q[at + 1..];
      Increasing(kept) && forall h :: h in kept <==> h in q && h != q[at]
  {
    var kept := q[..at] + q[at + 1..];
    forall h ensures h in kept <==> h in q && h != q[at] {
      if h in q && h != q[at] {
        var i :| 0 <= i < |q| && q[i] == h;
        assert if i < at then kept[i] == h else kept[i - 1] == h;
      }
      if h in kept {
        var i :| 0 <= i < |kept| && kept[i] == h;
        assert h == if i < at then q[i] else q[i + 1];
      }
    }
  }

  /** What a lane's queue holds once one group was replaced by a newer one at the back. */
  lemma Moved(q: seq<Pending>, at: Option<nat>, g: Pending)
    requires Increasing(q)
    requires at.Some? ==> at.value < |q|
    requires forall h :: h in q ==> h.hi < g.hi
    ensures
      var kept := if at.Some? then q[..at.value] + q[at.value + 1..] else q;
      && Increasing(kept + [g])
      && (forall h :: h in kept + [g] <==> h == g || (h in q && !(at.Some? && h == q[at.value])))
  {
    var kept := if at.Some? then q[..at.value] + q[at.value + 1..] else q;
    if at.Some? { Without(q, at.value); }
    assert forall i :: 0 <= i < |kept| ==> kept[i] in kept;
  }

  ghost predicate Sound(s: Lanes) {
    && (forall l :: l in s.queues ==> Increasing(s.queues[l]) && s.queues[l] != [])
    && (forall l, g, m, h :: Holds(s, l, g) && Holds(s, m, h) && g.hi == h.hi ==> l == m && g == h)
  }

  /** The group an admission queues. */
  function Queues(s: Lanes, r: Route, p: nat): Pending {
    var at := Superseded(s, r.lane, r.arm, r.declared);
    Pending(if at.Some? then s.queues[r.lane][at.value].lo else p, p, r.arm)
  }

  /** The groups queued after an admission: the new one, and all but the one it folds into. */
  lemma AdmitHolds(s: Lanes, r: Route, p: nat)
    requires !AlreadyOffered(s, r.lane, p) && Sound(s)
    requires forall g :: Holds(s, r.lane, g) ==> g.hi < p
    ensures
      var s' := Admit(s, r.lane, p, r.arm, r.declared).0;
      && (forall l :: l in s'.queues ==> Increasing(s'.queues[l]) && s'.queues[l] != [])
      && (forall l, g :: Holds(s', l, g) <==>
            (l == r.lane && g == Queues(s, r, p)) || (Holds(s, l, g) && Some(g.hi) != OpenOf(s, r)))
  {
    var s' := Admit(s, r.lane, p, r.arm, r.declared).0;
    var at := Superseded(s, r.lane, r.arm, r.declared);
    var queue := QueueOf(s, r.lane);
    forall h | h in queue ensures h.hi < p { assert Holds(s, r.lane, h); }
    Moved(queue, at, Queues(s, r, p));
    var kept := if at.Some? then queue[..at.value] + queue[at.value + 1..] else queue;
    assert s'.queues == s.queues[r.lane := kept + [Queues(s, r, p)]];
    if at.Some? { assert Holds(s, r.lane, queue[at.value]); }
    forall l, g ensures Holds(s', l, g) <==>
            (l == r.lane && g == Queues(s, r, p)) || (Holds(s, l, g) && Some(g.hi) != OpenOf(s, r))
    {
      if l == r.lane {
        assert Holds(s, l, g) <==> g in queue;
        assert Holds(s', l, g) <==> g in kept + [Queues(s, r, p)];
        if at.Some? && Holds(s, l, g) { assert g.hi == queue[at.value].hi <==> g == queue[at.value]; }
      } else {
        assert Holds(s', l, g) <==> Holds(s, l, g);
        if at.Some? && Holds(s, l, g) { assert g.hi != queue[at.value].hi; }
      }
    }
  }

  // ----- the reader --------------------------------------------------------

  /** The position after the cursor is answered, and its lane has not been offered it before. */
  ghost predicate Admits(log: Log, w: World) {
    log(w.cursor + 1).Some? && !AlreadyOffered(w.s, log(w.cursor + 1).value.lane, w.cursor + 1)
  }

  /** A position that is admitted is newer than everything admitted so far. */
  lemma Newest(log: Log, w: World)
    requires Admits(log, w) && Ordered(log, w) && Owned(w) && Ranged(w) && Guarded(log, w)
    ensures Front(w) == w.cursor && w.s.scanned <= w.cursor
    ensures forall p :: p in w.owner ==> p <= w.cursor && w.owner[p] <= w.cursor
    ensures forall l, g :: Holds(w.s, l, g) ==> g.lo <= g.hi <= w.cursor
  {
  }

  /** No two queued groups run at the same position. */
  lemma OrderedSound(log: Log, w: World)
    requires Ordered(log, w)
    ensures Sound(w.s)
  {
    forall l, g, m, h | Holds(w.s, l, g) && Holds(w.s, m, h) && g.hi == h.hi
      ensures l == m && g == h
    {
      assert OnArm(log, g.hi, l, g.arm) && OnArm(log, h.hi, m, h.arm);
      var i :| 0 <= i < |w.s.queues[l]| && w.s.queues[l][i] == g;
      var j :| 0 <= j < |w.s.queues[l]| && w.s.queues[l][j] == h;
    }
  }

  // One admission, as a relation: `g0` is queued in `lane` and replaces the group running at `open`.

  ghost predicate TookGroups(w: World, w': World, lane: LaneId, g0: Pending, open: Option<nat>) {
    forall l, g :: Holds(w'.s, l, g) <==> (l == lane && g == g0) || (Holds(w.s, l, g) && Some(g.hi) != open)
  }

  ghost predicate TookOver(log: Log, w: World, lane: LaneId, g0: Pending, open: Option<nat>) {
    && OnArm(log, g0.hi, lane, g0.arm)
    && (open.Some? ==>
          && (lane, g0.arm) in w.s.latest && w.s.latest[(lane, g0.arm)] == open.value
          && Collapses(log, g0.hi) && !w.s.blind && IsRange(w, g0.lo, open.value)
          && OnArm(log, open.value, lane, g0.arm)
          && Holds(w.s, lane, Pending(g0.lo, open.value, g0.arm)))
    && (open.None? ==> g0.lo == g0.hi)
  }

  ghost predicate TookIn(w: World, w': World, g0: Pending, open: Option<nat>) {
    && w'.owner == Reown(w.owner, open, g0.hi)
    && g0.hi == w.cursor + 1 == w'.cursor && w.s.scanned == w'.s.scanned <= w.cursor
    && (forall p :: p in w.owner ==> p < g0.hi && w.owner[p] < g0.hi)
    && w'.retired == w.retired && w'.base == w.base && w'.mark == w.mark && w'.terminal == w.terminal
    && w'.invoked == w.invoked && w'.baseRows == w.baseRows && w'.baseBegun == w.baseBegun
    && w'.s.begun == w.s.begun && w'.s.blind == w.s.blind
  }

  ghost predicate TookMaps(log: Log, w: World, w': World, lane: LaneId, g0: Pending, open: Option<nat>) {
    && w'.s.high == w.s.high[lane := g0.hi] && !AlreadyOffered(w.s, lane, g0.hi)
    && w'.s.inflight == (if open.Some? then w.s.inflight else w.s.inflight[g0.hi := lane])
    && w'.s.latest == LatestAfter(w.s, lane, g0.hi, g0.arm, Collapses(log, g0.hi))
  }

  ghost predicate Took(log: Log, w: World, w': World, lane: LaneId, g0: Pending, open: Option<nat>) {
    && TookGroups(w, w', lane, g0, open) && TookOver(log, w, lane, g0, open)
    && TookIn(w, w', g0, open) && TookMaps(log, w, w', lane, g0, open)
  }

  lemma OpenRange(log: Log, w: World, r: Route, p: nat)
    requires Ranged(w) && Ordered(log, w) && OpenOf(w.s, r).Some?
    ensures IsRange(w, Queues(w.s, r, p).lo, OpenOf(w.s, r).value)
    ensures Holds(w.s, r.lane, Pending(Queues(w.s, r, p).lo, OpenOf(w.s, r).value, r.arm))
    ensures OnArm(log, OpenOf(w.s, r).value, r.lane, r.arm)
  {
    var at := Superseded(w.s, r.lane, r.arm, r.declared);
    assert Holds(w.s, r.lane, w.s.queues[r.lane][at.value]);
  }

  /** The fields an admission touches. */
  ghost predicate Touched(log: Log, w: World, w': World, r: Route, p: nat) {
    && w' == w.(cursor := p, seen := Max(w.seen, p), owner := Reown(w.owner, OpenOf(w.s, r), p), s := w'.s)
    && w'.s == w.s.(high := w.s.high[r.lane := p], queues := w'.s.queues, place := w'.s.place,
                    latest := LatestAfter(w.s, r.lane, p, r.arm, r.declared),
                    inflight := if OpenOf(w.s, r).Some? then w.s.inflight else w.s.inflight[p := r.lane])
  }

  lemma TouchedBy(log: Log, w: World)
    requires Admits(log, w)
    ensures Touched(log, w, Deliver(log, w), log(w.cursor + 1).value, w.cursor + 1)
    ensures var r := log(w.cursor + 1).value; Deliver(log, w).s == Admit(w.s, r.lane, w.cursor + 1, r.arm, r.declared).0
  {
  }

  lemma TookOne(log: Log, w: World, w': World, r: Route, p: nat)
    requires p == w.cursor + 1 && log(p) == Some(r) && w.s.scanned <= w.cursor
    requires Touched(log, w, w', r, p) && !AlreadyOffered(w.s, r.lane, p)
    requires forall l, g :: Holds(w'.s, l, g) <==>
      (l == r.lane && g == Queues(w.s, r, p)) || (Holds(w.s, l, g) && Some(g.hi) != OpenOf(w.s, r))
    requires OpenOf(w.s, r).Some? ==>
      && IsRange(w, Queues(w.s, r, p).lo, OpenOf(w.s, r).value) && OnArm(log, OpenOf(w.s, r).value, r.lane, r.arm)
      && Holds(w.s, r.lane, Pending(Queues(w.s, r, p).lo, OpenOf(w.s, r).value, r.arm))
    requires forall p :: p in w.owner ==> p <= w.cursor && w.owner[p] <= w.cursor
    ensures Took(log, w, w', r.lane, Queues(w.s, r, p), OpenOf(w.s, r))
  {
  }

  lemma AdmitOwned(w: World, w': World, g0: Pending, open: Option<nat>)
    requires TookIn(w, w', g0, open) && Owned(w) && w.base <= w.cursor
    ensures Owned(w')
  {
    forall q | q in w.owner ensures Runs(w', w'.owner[q]) {
      assert Runs(w, w.owner[q]);
    }
  }

  /** Whoever answered for a position still does, or the group it folded into does. */
  lemma AdmitAnswered(log: Log, w: World, w': World, lane: LaneId, g0: Pending, open: Option<nat>)
    requires TookGroups(w, w', lane, g0, open) && TookOver(log, w, lane, g0, open) && TookIn(w, w', g0, open)
    requires Answered(log, w)
    ensures Answered(log, w')
  {
    assert Holds(w'.s, lane, g0);
    forall q | q in w'.owner ensures AnsweredFor(log, w', q) {
      if q in w.owner {
        assert AnsweredFor(log, w, q);
        if open != Some(w.owner[q]) && w.owner[q] !in w.retired {
          var g :| Holds(w.s, log(q).value.lane, g) && g.hi == w.owner[q];
          assert Holds(w'.s, log(q).value.lane, g);
        }
      }
    }
  }

  lemma AdmitRanged(w: World, w': World, lane: LaneId, g0: Pending, open: Option<nat>)
    requires TookGroups(w, w', lane, g0, open) && TookIn(w, w', g0, open) && Ranged(w)
    requires open.Some? ==> Holds(w.s, lane, Pending(g0.lo, open.value, g0.arm))
    requires open.None? ==> g0.lo == g0.hi
    ensures Ranged(w')
  {
    forall lo: nat, hi: nat | IsRange(w, lo, hi) && Some(hi) != open ensures IsRange(w', lo, hi) {}
    assert IsRange(w', g0.lo, g0.hi);
    forall h | h in w.retired ensures h < g0.hi { assert IsRange(w, w.retired[h], h); }
  }

  /** Whatever of its arm is newer than a position in the open group is no newer than that group. */
  lemma OpenIsNewest(log: Log, w: World, lane: LaneId, arm: nat, open: nat, x: nat, y: nat)
    requires (lane, arm) in w.s.latest && w.s.latest[(lane, arm)] == open && Open(log, w)
    requires x in w.owner && w.owner[x] == open && AnsweredFor(log, w, x)
    requires y in w.owner && SameArm(log, x, y)
    ensures y <= open
  {
    assert OnArm(log, open, lane, arm);
    assert OnArm(log, y, lane, arm);
  }

  lemma AdmitApart(log: Log, w: World, w': World, lane: LaneId, g0: Pending, open: Option<nat>)
    requires TookOver(log, w, lane, g0, open) && TookIn(w, w', g0, open)
    requires Apart(log, w) && Owned(w) && Answered(log, w) && Open(log, w)
    ensures Apart(log, w')
  {
    forall x, y | x in w'.owner && y in w'.owner && SameArm(log, x, y) && x <= y <= w'.owner[x]
      ensures w'.owner[y] == w'.owner[x]
    {
      if x != g0.hi && y != g0.hi {
        var ox := w.owner[x];
        if open == Some(ox) {
          hide SameArm, OnArm, IsRange;
          assert AnsweredFor(log, w, x);
          OpenIsNewest(log, w, lane, g0.arm, ox, x, y);
          assert w.owner[y] == ox;
        }
      }
    }
  }

  lemma AdmitInflight(log: Log, w: World, w': World, lane: LaneId, g0: Pending, open: Option<nat>)
    requires TookGroups(w, w', lane, g0, open) && TookOver(log, w, lane, g0, open)
    requires TookIn(w, w', g0, open) && TookMaps(log, w, w', lane, g0, open)
    requires Inflight(w) && Ranged(w)
    ensures Inflight(w')
  {
    assert Holds(w'.s, lane, g0);
    forall k | k in w'.s.inflight
      ensures exists g :: Holds(w'.s, w'.s.inflight[k], g) && g.lo == k
    {
      if k != g0.lo {
        var g :| Holds(w.s, w.s.inflight[k], g) && g.lo == k;
        assert IsRange(w, g.lo, g.hi);
        assert Holds(w'.s, w.s.inflight[k], g);
      }
    }
    forall l, g | Holds(w'.s, l, g)
      ensures g.lo in w'.s.inflight && w'.s.inflight[g.lo] == l
    {
      if g != g0 || l != lane { assert IsRange(w, g.lo, g.hi); }
    }
  }

  lemma AdmitOpen(log: Log, w: World, w': World, lane: LaneId, g0: Pending, open: Option<nat>)
    requires Took(log, w, w', lane, g0, open) && Open(log, w) && Unfolded(log, w) && WellRouted(log)
    requires w.base <= w.cursor && Front(w) <= w.cursor
    ensures Open(log, w')
  {
    forall key | key in w'.s.latest
      ensures (exists g :: Holds(w'.s, key.0, g) && g.hi == w'.s.latest[key] && g.arm == key.1)
      ensures !w'.s.blind && OnArm(log, w'.s.latest[key], key.0, key.1) && Collapses(log, w'.s.latest[key])
      ensures w'.s.latest[key] !in w'.invoked
      ensures forall p :: p in w'.owner && OnArm(log, p, key.0, key.1) ==> p <= w'.s.latest[key]
    {
      if key == (lane, g0.arm) {
        StillOpen(log, w, w', lane, g0, open);
        assert Holds(w'.s, lane, g0);
      } else {
        OtherOpen(log, w, w', lane, g0, open, key);
      }
    }
  }

  /** If the arm's group is open after an admission, it is the one just queued. */
  lemma StillOpen(log: Log, w: World, w': World, lane: LaneId, g0: Pending, open: Option<nat>)
    requires TookIn(w, w', g0, open) && TookMaps(log, w, w', lane, g0, open) && OnArm(log, g0.hi, lane, g0.arm)
    requires Unfolded(log, w) && WellRouted(log) && w.base <= w.cursor && Front(w) <= w.cursor && Open(log, w)
    requires (lane, g0.arm) in w'.s.latest
    ensures w'.s.latest[(lane, g0.arm)] == g0.hi && g0.hi !in w.invoked && !w.s.blind && Collapses(log, g0.hi)
  {
    if (lane, g0.arm) in w.s.latest {
      assert SameArm(log, g0.hi, w.s.latest[(lane, g0.arm)]);
    }
  }

  lemma OtherOpen(log: Log, w: World, w': World, lane: LaneId, g0: Pending, open: Option<nat>, key: (LaneId, nat))
    requires Took(log, w, w', lane, g0, open) && Open(log, w)
    requires key in w'.s.latest && key != (lane, g0.arm)
    ensures key in w.s.latest && w.s.latest[key] == w'.s.latest[key]
    ensures exists g :: Holds(w'.s, key.0, g) && g.hi == w'.s.latest[key] && g.arm == key.1
  {
    var g :| Holds(w.s, key.0, g) && g.hi == w.s.latest[key] && g.arm == key.1;
    assert OnArm(log, g.hi, key.0, key.1);
    assert Holds(w'.s, key.0, g);
  }

  lemma AdmitUnfolded(log: Log, w: World, w': World, lane: LaneId, g0: Pending, open: Option<nat>)
    requires TookOver(log, w, lane, g0, open) && TookIn(w, w', g0, open)
    requires Unfolded(log, w) && WellRouted(log) && Answered(log, w) && Open(log, w) && Front(w) <= w.cursor
    ensures Unfolded(log, w')
  {
    forall p | p in w.owner && open == Some(w.owner[p])
      ensures p !in w.invoked && Collapses(log, p)
    {
      assert AnsweredFor(log, w, p) && SameArm(log, p, g0.hi);
    }
  }

  lemma AdmitGuarded(log: Log, w: World, w': World, lane: LaneId, g0: Pending, open: Option<nat>)
    requires TookIn(w, w', g0, open) && TookMaps(log, w, w', lane, g0, open) && OnArm(log, g0.hi, lane, g0.arm)
    requires Guarded(log, w) && Front(w) <= w.cursor
    ensures Guarded(log, w')
  {
  }

  lemma AdmitSeeded(log: Log, w: World, w': World, lane: LaneId, g0: Pending, open: Option<nat>)
    requires TookIn(w, w', g0, open) && TookMaps(log, w, w', lane, g0, open)
    requires Seeded(w) && Front(w) <= w.cursor
    ensures Seeded(w')
  {
  }

  lemma AdmitReadThrough(log: Log, w: World, w': World, lane: LaneId, g0: Pending, open: Option<nat>)
    requires TookIn(w, w', g0, open) && TookMaps(log, w, w', lane, g0, open) && OnArm(log, g0.hi, lane, g0.arm)
    requires Seeded(w) && ReadThrough(log, w) && Front(w) <= w.cursor
    ensures Seeded(w') && ReadThrough(log, w')
  {
    AdmitSeeded(log, w, w', lane, g0, open);
    assert !HadRow(log, w.baseRows, g0.hi);
    hide Seeded, TookMaps;
  }

  lemma AdmitAscending(log: Log, w: World, w': World, lane: LaneId, g0: Pending, open: Option<nat>)
    requires TookGroups(w, w', lane, g0, open) && TookIn(w, w', g0, open)
    requires Ascending(log, w) && Ranged(w) && w'.owing == w.owing && w'.table == w.table
    ensures Ascending(log, w')
  {
    forall h | h in w.retired ensures h < g0.hi { assert IsRange(w, w.retired[h], h); }
  }

  lemma AdmitOrdered(log: Log, w: World, w': World, lane: LaneId, g0: Pending, open: Option<nat>)
    requires TookGroups(w, w', lane, g0, open) && TookOver(log, w, lane, g0, open) && TookIn(w, w', g0, open)
    requires Ordered(log, w)
    requires forall l :: l in w'.s.queues ==> Increasing(w'.s.queues[l]) && w'.s.queues[l] != []
    ensures Ordered(log, w')
  {
    if open.Some? { assert Holds(w.s, lane, Pending(g0.lo, open.value, g0.arm)); }
  }

  /** Admission leaves a lane's head alone unless the head is the open group it folds into. */
  lemma HeadStays(s: Lanes, r: Route, p: nat, l: LaneId)
    requires !AlreadyOffered(s, r.lane, p) && l in s.queues && s.queues[l] != []
    requires !((l, s.queues[l][0].arm) in s.latest && s.latest[(l, s.queues[l][0].arm)] == s.queues[l][0].hi)
    ensures
      var s' := Admit(s, r.lane, p, r.arm, r.declared).0;
      && l in s'.queues && s'.queues[l] != [] && s'.queues[l][0] == s.queues[l][0]
      && (s.queues[l][0].hi < p ==>
            !((l, s.queues[l][0].arm) in s'.latest && s'.latest[(l, s.queues[l][0].arm)] == s.queues[l][0].hi))
  {
  }

  lemma AdmitFrozen(log: Log, w: World)
    requires Admits(log, w) && Frozen(w)
    requires forall l, g :: Holds(w.s, l, g) ==> g.hi <= w.cursor
    ensures Frozen(Deliver(log, w))
  {
    TouchedBy(log, w);
    hide Deliver, LaneSpec.Admit;
    forall l | l in w.handed
      ensures w.s.queues[l][0].hi <= w.cursor
    {
      assert Holds(w.s, l, w.s.queues[l][0]);
      HeadStays(w.s, log(w.cursor + 1).value, w.cursor + 1, l);
    }
    forall l | l in w.handed
      ensures var q := Deliver(log, w).s.queues; l in q && q[l] != [] && q[l][0] == w.s.queues[l][0]
      ensures var latest := Deliver(log, w).s.latest;
        !((l, w.s.queues[l][0].arm) in latest && latest[(l, w.s.queues[l][0].arm)] == w.s.queues[l][0].hi)
    {
      HeadStays(w.s, log(w.cursor + 1).value, w.cursor + 1, l);
    }
  }

  lemma AdmitMarked(log: Log, w: World, w': World, lane: LaneId, g0: Pending, open: Option<nat>)
    requires TookIn(w, w', g0, open) && TookMaps(log, w, w', lane, g0, open) && w'.seen == Max(w.seen, g0.hi)
    requires Marked(w)
    ensures Marked(w')
  {
  }

  /** What the durable rows promise survives reading further. */
  lemma ReadingKeepsRows(log: Log, w: World, w': World)
    requires NothingLost(log, w) && NothingAbandoned(log, w) && w.seen <= w'.seen
    requires w'.mark == w.mark && w'.table == w.table && w'.invoked == w.invoked && w'.terminal == w.terminal
    requires w'.base == w.base && w'.baseRows == w.baseRows
    ensures NothingLost(log, w') && NothingAbandoned(log, w')
  {
    forall p: nat | Discharged(log, w, p) ensures Discharged(log, w', p) {}
  }

  /** What the pieces above need besides the relation itself. */
  ghost predicate Aside(w: World, w': World, lane: LaneId, g0: Pending, open: Option<nat>) {
    && Front(w) <= w.cursor && w.base <= w.cursor
    && w'.owing == w.owing && w'.seen == Max(w.seen, g0.hi) && w'.table == w.table
    && (open.Some? ==> Holds(w.s, lane, Pending(g0.lo, open.value, g0.arm)))
    && (open.None? ==> g0.lo == g0.hi)
    && forall l :: l in w'.s.queues ==> Increasing(w'.s.queues[l]) && w'.s.queues[l] != []
  }

  lemma AdmissionTook(log: Log, w: World)
    requires Admits(log, w) && Ordered(log, w) && Owned(w) && Ranged(w) && Guarded(log, w) && Marked(w)
    ensures
      var r := log(w.cursor + 1).value;
      var g0 := Queues(w.s, r, w.cursor + 1);
      && Took(log, w, Deliver(log, w), r.lane, g0, OpenOf(w.s, r))
      && Aside(w, Deliver(log, w), r.lane, g0, OpenOf(w.s, r))
      && forall l, g :: Holds(w.s, l, g) ==> g.hi <= w.cursor
  {
    var p := w.cursor + 1;
    var r := log(p).value;
    Newest(log, w);
    OrderedSound(log, w);
    hide Ordered, Owned, Guarded;
    AdmitHolds(w.s, r, p);
    TouchedBy(log, w);
    if OpenOf(w.s, r).Some? { OpenRange(log, w, r, p); }
    hide Ranged;
    TookOne(log, w, Deliver(log, w), r, p);
  }

  lemma AdmissionInside(log: Log, w: World, w': World, lane: LaneId, g0: Pending, open: Option<nat>)
    requires WellRouted(log) && Inside(log, w) && Took(log, w, w', lane, g0, open) && Aside(w, w', lane, g0, open)
    requires Frozen(w') && NothingLost(log, w') && NothingAbandoned(log, w')
    ensures Inside(log, w')
  {
    hide Ordered, Owned, Answered, Ranged, Apart, Inflight, Open, Unfolded, Guarded, Seeded, ReadThrough, Marked,
      Frozen, Ascending, NothingLost, NothingAbandoned, TookIn, TookMaps, TookGroups;
    AdmitOrdered(log, w, w', lane, g0, open);
    AdmitOwned(w, w', g0, open);
    AdmitAnswered(log, w, w', lane, g0, open);
    AdmitRanged(w, w', lane, g0, open);
    AdmitApart(log, w, w', lane, g0, open);
    AdmitInflight(log, w, w', lane, g0, open);
    AdmitOpen(log, w, w', lane, g0, open);
    AdmitUnfolded(log, w, w', lane, g0, open);
    AdmitGuarded(log, w, w', lane, g0, open);
    AdmitReadThrough(log, w, w', lane, g0, open);
    AdmitMarked(log, w, w', lane, g0, open);
    AdmitAscending(log, w, w', lane, g0, open);
  }

  lemma DeliverAdmits(log: Log, w: World)
    requires WellRouted(log) && Inside(log, w) && Admits(log, w)
    ensures Inside(log, Deliver(log, w))
  {
    hide Ordered, Owned, Answered, Ranged, Apart, Inflight, Open, Unfolded, Guarded, Seeded, ReadThrough, Marked,
      Frozen, Ascending, NothingLost, NothingAbandoned, TookIn, TookMaps, TookGroups, TookOver;
    var r := log(w.cursor + 1).value;
    AdmissionTook(log, w);
    AdmitFrozen(log, w);
    ReadingKeepsRows(log, w, Deliver(log, w));
    AdmissionInside(log, w, Deliver(log, w), r.lane, Queues(w.s, r, w.cursor + 1), OpenOf(w.s, r));
  }

  lemma DeliverSkips(log: Log, w: World)
    requires WellRouted(log) && Inside(log, w) && !Admits(log, w)
    ensures Inside(log, Deliver(log, w))
  {
    hide Ordered, Owned, Answered, Ranged, Apart, Inflight, Open, Unfolded, Guarded, Seeded, ReadThrough, Marked,
      Frozen, Ascending, NothingLost, NothingAbandoned;
    var w' := Deliver(log, w);
    assert w' == w.(cursor := w.cursor + 1, seen := Max(w.seen, w.cursor + 1));
    ReadingKeepsRows(log, w, w');
    SkipQueues(log, w, w');
    SkipSchedule(log, w, w');
    SkipGuarded(log, w, w');
  }

  lemma SkipSchedule(log: Log, w: World, w': World)
    requires w' == w.(cursor := w'.cursor, seen := w'.seen)
    requires Inflight(w) && Open(log, w) && Frozen(w) && Ascending(log, w)
    ensures Inflight(w') && Open(log, w') && Frozen(w') && Ascending(log, w')
  {
    assert w'.s == w.s;
  }

  /** Moving the cursor changes none of what the queues say. */
  lemma SkipQueues(log: Log, w: World, w': World)
    requires w' == w.(cursor := w'.cursor, seen := w'.seen) && w.cursor <= w'.cursor
      && w'.seen >= Max(w.seen, w'.cursor)
    requires Ordered(log, w) && Owned(w) && Answered(log, w) && Ranged(w) && Apart(log, w) && Marked(w)
    ensures Ordered(log, w') && Owned(w') && Answered(log, w') && Ranged(w') && Apart(log, w') && Marked(w')
  {
    forall p | p in w.owner ensures AnsweredFor(log, w', p) { assert AnsweredFor(log, w, p); }
    forall lo: nat, hi: nat | IsRange(w, lo, hi) ensures IsRange(w', lo, hi) {}
    forall h | Runs(w, h) ensures Runs(w', h) {}
  }

  lemma SkipGuarded(log: Log, w: World, w': World)
    requires w' == w.(cursor := w.cursor + 1, seen := w'.seen)
    requires log(w'.cursor).Some? ==> AlreadyOffered(w.s, log(w'.cursor).value.lane, w'.cursor)
    requires Guarded(log, w) && Seeded(w) && ReadThrough(log, w) && Unfolded(log, w)
    ensures Guarded(log, w') && Seeded(w') && ReadThrough(log, w') && Unfolded(log, w')
  {
  }

  lemma DeliverInside(log: Log, w: World)
    requires WellRouted(log) && Inside(log, w)
    ensures Inside(log, Deliver(log, w))
  {
    if Admits(log, w) { DeliverAdmits(log, w); } else { DeliverSkips(log, w); }
  }

  lemma {:induction false} DeliverToInside(log: Log, w: World, to: nat)
    requires WellRouted(log) && Inside(log, w)
    ensures Inside(log, DeliverTo(log, w, to)) && DeliverTo(log, w, to).cursor == Max(w.cursor, to)
    decreases if w.cursor < to then to - w.cursor else 0
  {
    hide Inside;
    if w.cursor < to {
      DeliverInside(log, w);
      DeliverToInside(log, Deliver(log, w), to);
    }
  }
}
