/** A stored fold's history read off the log: the positions where its columns changed, grouped by
    record and paged newest first over a log that may grow between pages (`src/history.rs`). */
module History {
  import opened Options

  type Event = string

  type Value = string

  type Json = string

  /** A column at one key: the fold behind it, and how its values are served. A sealed value is opened
      to be served, and two seals may open to one value. */
  datatype Column = Column(
    seed: Value,
    selects: Event -> bool,
    step: (Value, nat, Event) -> Value,
    sealed: bool,
    served: Value -> Json)

  type Log = seq<Event>

  // ----- what a history is -------------------------------------------------

  /** What the fold holds after the first `n` records. */
  function ValueAt(c: Column, log: Log, n: nat): Value
    requires n <= |log|
  {
    if n == 0 then c.seed
    else
      var held := ValueAt(c, log, n - 1);
      if c.selects(log[n - 1]) then c.step(held, n - 1, log[n - 1]) else held
  }

  /** The record at `i` moved the column, as the column is served. */
  predicate Changes(c: Column, log: Log, i: nat)
    requires i < |log|
  {
    && c.selects(log[i]) && ValueAt(c, log, i + 1) != ValueAt(c, log, i)
    && (c.sealed ==> c.served(ValueAt(c, log, i + 1)) != c.served(ValueAt(c, log, i)))
  }

  /** One change, at a position counted from one. */
  datatype Step = Step(position: nat, column: nat, before: Value, after: Value)

  function StepAt(columns: seq<Column>, log: Log, i: nat, at: nat): Step
    requires i < |log| && at < |columns|
  {
    Step(i + 1, at, ValueAt(columns[at], log, i), ValueAt(columns[at], log, i + 1))
  }

  /** The changes of one record, in column order. */
  function StepsOf(columns: seq<Column>, log: Log, i: nat, from: nat): seq<Step>
    requires i < |log| && from <= |columns|
    decreases |columns| - from
  {
    if from == |columns| then []
    else
      (if Changes(columns[from], log, i) then [StepAt(columns, log, i, from)] else [])
      + StepsOf(columns, log, i, from + 1)
  }

  /** The changes of the records `lo..hi`, newest first. */
  function Steps(columns: seq<Column>, log: Log, lo: nat, hi: nat): seq<Step>
    requires hi <= |log|
    decreases hi
  {
    if hi <= lo then [] else StepsOf(columns, log, hi - 1, 0) + Steps(columns, log, lo, hi - 1)
  }

  datatype Item = Item(position: nat, changed: seq<Step>)

  /** One entry for each record that moved some column, newest first. */
  function Items(columns: seq<Column>, log: Log, lo: nat, hi: nat): seq<Item>
    requires hi <= |log|
    decreases hi
  {
    if hi <= lo then []
    else
      var steps := StepsOf(columns, log, hi - 1, 0);
      (if steps == [] then [] else [Item(hi, steps)]) + Items(columns, log, lo, hi - 1)
  }

  datatype Window = Window(before: Option<nat>, since: Option<nat>, limit: nat)

  datatype Page = Page(items: seq<Item>, nextBefore: Option<nat>, head: nat)

  function Low(window: Window): nat {
    if window.since.Some? && window.since.value > 0 then window.since.value - 1 else 0
  }

  function High(window: Window, head: nat): (hi: nat)
    ensures hi <= head
  {
    if window.before.None? then head
    else if window.before.value == 0 then 0
    else if window.before.value - 1 < head then window.before.value - 1 else head
  }

  /** The page a window asks for: so many of the newest entries in it, and where to go on. */
  function PageOf(columns: seq<Column>, log: Log, window: Window): Page {
    var all := Items(columns, log, Low(window), High(window, |log|));
    if |all| <= window.limit then Page(all, None, |log|)
    else if window.limit == 0 then Page([], None, |log|)
    else Page(all[..window.limit], Some(all[window.limit - 1].position), |log|)
  }

  // ----- reading one -------------------------------------------------------

  predicate Newer(a: Step, b: Step) {
    a.position > b.position || (a.position == b.position && a.column < b.column)
  }

  predicate NewestFirst(steps: seq<Step>) {
    forall i, j :: 0 <= i < j < |steps| ==> Newer(steps[i], steps[j])
  }

  /** `s` is the change of some record below `n` in some column below `width`. */
  predicate IsStep(columns: seq<Column>, log: Log, n: nat, width: nat, s: Step)
    requires n <= |log| && width <= |columns|
  {
    0 < s.position <= n && s.column < width
    && Changes(columns[s.column], log, s.position - 1) && s == StepAt(columns, log, s.position - 1, s.column)
  }

  /** Fold every column over the log and keep the records that moved it. */
  method Collect(columns: seq<Column>, log: Log) returns (steps: seq<Step>)
    ensures forall s :: s in steps <==> IsStep(columns, log, |log|, |columns|, s)
    ensures forall i, j :: 0 <= i < j < |steps| ==> Newer(steps[i], steps[j]) || Newer(steps[j], steps[i])
  {
    steps := [];
    for at := 0 to |columns|
      invariant forall s :: s in steps <==> IsStep(columns, log, |log|, at, s)
      invariant forall i, j :: 0 <= i < j < |steps| ==> Newer(steps[i], steps[j]) || Newer(steps[j], steps[i])
    {
      var own := CollectOne(columns, log, at);
      ghost var was := steps;
      steps := steps + own;
      assert forall i :: 0 <= i < |was| ==> was[i] in was;
      assert forall j :: 0 <= j < |own| ==> own[j] in own;
    }
  }

  method CollectOne(columns: seq<Column>, log: Log, at: nat) returns (steps: seq<Step>)
    requires at < |columns|
    ensures forall s :: s in steps <==> IsStep(columns, log, |log|, |columns|, s) && s.column == at
    ensures forall i, j :: 0 <= i < j < |steps| ==> steps[i].position < steps[j].position
  {
    var c := columns[at];
    var held := c.seed;
    steps := [];
    for i := 0 to |log|
      invariant held == ValueAt(c, log, i)
      invariant forall s :: s in steps <==> IsStep(columns, log, i, |columns|, s) && s.column == at
      invariant forall i, j :: 0 <= i < j < |steps| ==> steps[i].position < steps[j].position
    {
      assert forall j :: 0 <= j < |steps| ==> steps[j] in steps;
      if c.selects(log[i]) {
        var value := c.step(held, i, log[i]);
        // A sealed column is compared as it is served before it counts as moved.
        if value != held && (!c.sealed || c.served(value) != c.served(held)) {
          steps := steps + [Step(i + 1, at, held, value)];
        }
        held := value;
      }
    }
  }

  method SortNewestFirst(steps: seq<Step>) returns (sorted: seq<Step>)
    requires forall i, j :: 0 <= i < j < |steps| ==> Newer(steps[i], steps[j]) || Newer(steps[j], steps[i])
    ensures NewestFirst(sorted) && forall s :: s in sorted <==> s in steps
  {
    sorted := [];
    for i := 0 to |steps|
      invariant NewestFirst(sorted) && forall s :: s in sorted <==> s in steps[..i]
    {
      var s := steps[i];
      var at := 0;
      while at < |sorted| && Newer(sorted[at], s)
        invariant at <= |sorted| && forall j :: 0 <= j < at ==> Newer(sorted[j], s)
      {
        at := at + 1;
      }
      if at < |sorted| {
        assert sorted[at] in steps[..i];
        assert Newer(s, sorted[at]);
      }
      sorted := sorted[..at] + [s] + sorted[at..];
      assert steps[..i + 1] == steps[..i] + [s];
    }
    assert steps[..|steps|] == steps;
  }

  // ----- the sorted changes are the changes, newest first ------------------

  /** The changes of one record more. */
  lemma StepsNext(columns: seq<Column>, log: Log, lo: nat, hi: nat)
    requires lo < hi <= |log|
    ensures Steps(columns, log, lo, hi) == StepsOf(columns, log, hi - 1, 0) + Steps(columns, log, lo, hi - 1)
  {
    hide StepsOf;
  }

  /** The entries of one record more. */
  lemma ItemsNext(columns: seq<Column>, log: Log, lo: nat, hi: nat)
    requires lo < hi <= |log|
    ensures
      var steps := StepsOf(columns, log, hi - 1, 0);
      Items(columns, log, lo, hi) == (if steps == [] then [] else [Item(hi, steps)]) + Items(columns, log, lo, hi - 1)
  {
    hide StepsOf;
  }

  lemma {:induction false} StepsOfHolds(columns: seq<Column>, log: Log, i: nat, from: nat)
    requires i < |log| && from <= |columns|
    ensures forall s :: s in StepsOf(columns, log, i, from) <==>
      IsStep(columns, log, |log|, |columns|, s) && s.position == i + 1 && s.column >= from
    ensures NewestFirst(StepsOf(columns, log, i, from))
    decreases |columns| - from
  {
    if from < |columns| {
      StepsOfHolds(columns, log, i, from + 1);
      var rest := StepsOf(columns, log, i, from + 1);
      assert forall j :: 0 <= j < |rest| ==> rest[j] in rest;
    }
  }

  /** Newer changes before older ones keep the order. */
  lemma Joined(now: seq<Step>, rest: seq<Step>, position: nat)
    requires NewestFirst(now) && NewestFirst(rest)
    requires forall s :: s in now ==> s.position == position
    requires forall s :: s in rest ==> s.position < position
    ensures NewestFirst(now + rest)
  {
    assert forall j :: 0 <= j < |rest| ==> rest[j] in rest;
    assert forall j :: 0 <= j < |now| ==> now[j] in now;
  }

  lemma {:induction false} StepsHold(columns: seq<Column>, log: Log, lo: nat, hi: nat)
    requires hi <= |log|
    ensures forall s :: s in Steps(columns, log, lo, hi) <==>
      IsStep(columns, log, |log|, |columns|, s) && lo < s.position <= hi
    ensures NewestFirst(Steps(columns, log, lo, hi))
    decreases hi
  {
    if hi > lo {
      StepsHold(columns, log, lo, hi - 1);
      StepsOfHolds(columns, log, hi - 1, 0);
      StepsNext(columns, log, lo, hi);
      hide StepsOf, Steps, IsStep, NewestFirst;
      Joined(StepsOf(columns, log, hi - 1, 0), Steps(columns, log, lo, hi - 1), hi);
    }
  }

  /** Two lists of the same changes, newest first, are the same list. */
  lemma {:induction false} OneOrder(a: seq<Step>, b: seq<Step>)
    requires NewestFirst(a) && NewestFirst(b) && forall s :: s in a <==> s in b
    ensures a == b
    decreases |a|
  {
    forall i | 0 <= i < |b| ensures b[i] in a { assert b[i] in b; }
    assert |b| > 0 ==> b[0] in a;
    if a != [] {
      assert a[0] in b;
      assert b != [] && b[0] in a;
      assert a[0] == b[0];
      forall s ensures s in a[1..] <==> s in b[1..] {
        InTail(a, s);
        InTail(b, s);
      }
      OneOrder(a[1..], b[1..]);
      assert a == [a[0]] + a[1..] && b == [b[0]] + b[1..];
    }
  }

  lemma InTail(a: seq<Step>, s: Step)
    requires a != [] && NewestFirst(a)
    ensures s in a[1..] <==> s in a && s != a[0]
  {
    if s in a && s != a[0] {
      var i :| 0 <= i < |a| && a[i] == s;
      assert a[1..][i - 1] == s;
    }
    if s in a[1..] {
      var i :| 0 <= i < |a[1..]| && a[1..][i] == s;
      assert Newer(a[0], a[i + 1]);
    }
  }

  predicate InWindow(window: Window, s: Step) {
    (window.before.Some? ==> s.position < window.before.value)
      && (window.since.Some? ==> s.position >= window.since.value)
  }

  /** The changes inside a window. */
  function Within(steps: seq<Step>, window: Window): seq<Step> {
    if steps == [] then []
    else (if InWindow(window, steps[0]) then [steps[0]] else []) + Within(steps[1..], window)
  }

  lemma {:induction false} WithinHolds(steps: seq<Step>, window: Window)
    ensures forall s :: s in Within(steps, window) <==> s in steps && InWindow(window, s)
    ensures NewestFirst(steps) ==> NewestFirst(Within(steps, window))
  {
    if steps != [] {
      WithinHolds(steps[1..], window);
      assert steps == [steps[0]] + steps[1..];
      var rest := Within(steps[1..], window);
      if NewestFirst(steps) {
        forall j | 0 <= j < |rest| ensures Newer(steps[0], rest[j]) {
          assert rest[j] in steps[1..];
          var k :| 0 <= k < |steps[1..]| && steps[1..][k] == rest[j];
          assert Newer(steps[0], steps[k + 1]);
        }
      }
    }
  }

  /** The window of all changes is the changes of its records. */
  lemma WindowIsRange(columns: seq<Column>, log: Log, window: Window)
    ensures Within(Steps(columns, log, 0, |log|), window) == Steps(columns, log, Low(window), High(window, |log|))
  {
    StepsHold(columns, log, 0, |log|);
    StepsHold(columns, log, Low(window), High(window, |log|));
    WithinHolds(Steps(columns, log, 0, |log|), window);
    OneOrder(Within(Steps(columns, log, 0, |log|), window), Steps(columns, log, Low(window), High(window, |log|)));
  }

  // ----- grouping ----------------------------------------------------------

  /** The run of changes at the front that share a position. */
  function Run(steps: seq<Step>, position: nat): (n: nat)
    ensures n <= |steps| && forall i :: 0 <= i < n ==> steps[i].position == position
    ensures n < |steps| ==> steps[n].position != position
  {
    if steps == [] || steps[0].position != position then 0 else 1 + Run(steps[1..], position)
  }

  function Grouped(steps: seq<Step>): seq<Item>
    decreases |steps|
  {
    if steps == [] then []
    else
      var n := Run(steps, steps[0].position);
      [Item(steps[0].position, steps[..n])] + Grouped(steps[n..])
  }

  lemma {:induction false} RunExact(front: seq<Step>, rest: seq<Step>, position: nat)
    requires forall i :: 0 <= i < |front| ==> front[i].position == position
    requires rest != [] ==> rest[0].position != position
    ensures Run(front + rest, position) == |front|
    decreases |front|
  {
    if front == [] {
      assert front + rest == rest;
    } else {
      assert (front + rest)[1..] == front[1..] + rest;
      RunExact(front[1..], rest, position);
    }
  }

  lemma GroupedFront(front: seq<Step>, rest: seq<Step>, position: nat)
    requires front != [] && forall i :: 0 <= i < |front| ==> front[i].position == position
    requires rest != [] ==> rest[0].position != position
    ensures Grouped(front + rest) == [Item(position, front)] + Grouped(rest)
  {
    RunExact(front, rest, position);
    assert (front + rest)[..|front|] == front && (front + rest)[|front|..] == rest;
  }

  lemma GroupedJoin(now: seq<Step>, rest: seq<Step>, position: nat)
    requires forall s :: s in now ==> s.position == position
    requires forall s :: s in rest ==> s.position < position
    ensures Grouped(now + rest) == (if now == [] then [] else [Item(position, now)]) + Grouped(rest)
  {
    hide Grouped;
    assert forall i :: 0 <= i < |now| ==> now[i] in now;
    assert rest != [] ==> rest[0] in rest;
    if now == [] {
      assert now + rest == rest;
    } else {
      GroupedFront(now, rest, position);
    }
  }

  /** Grouping the changes of a range by position gives its entries. */
  lemma {:induction false} GroupedSteps(columns: seq<Column>, log: Log, lo: nat, hi: nat)
    requires hi <= |log|
    ensures Grouped(Steps(columns, log, lo, hi)) == Items(columns, log, lo, hi)
    decreases hi
  {
    if hi > lo {
      GroupedSteps(columns, log, lo, hi - 1);
      StepsOfHolds(columns, log, hi - 1, 0);
      StepsHold(columns, log, lo, hi - 1);
      StepsNext(columns, log, lo, hi);
      ItemsNext(columns, log, lo, hi);
      hide Grouped, IsStep, NewestFirst, Steps, StepsOf, Items;
      GroupedJoin(StepsOf(columns, log, hi - 1, 0), Steps(columns, log, lo, hi - 1), hi);
    }
  }

  /** Where the run of changes at one position ends. */
  method RunEnd(steps: seq<Step>, at: nat) returns (next: nat)
    requires at < |steps|
    ensures at < next <= |steps|
    ensures Grouped(steps[at..]) == [Item(steps[at].position, steps[at..next])] + Grouped(steps[next..])
  {
    next := at + 1;
    while next < |steps| && steps[next].position == steps[at].position
      invariant at < next <= |steps|
      invariant forall i :: at <= i < next ==> steps[i].position == steps[at].position
    {
      next := next + 1;
    }
    assert steps[at..] == steps[at..next] + steps[next..];
    GroupedFront(steps[at..next], steps[next..], steps[at].position);
  }

  lemma GroupedNone()
    ensures Grouped([]) == []
  {
  }

  /** Group the changes into entries, stopping at the limit with where to go on. */
  method Paged(steps: seq<Step>, limit: nat) returns (items: seq<Item>, nextBefore: Option<nat>)
    ensures items == (if |Grouped(steps)| <= limit then Grouped(steps) else Grouped(steps)[..limit])
    ensures
      nextBefore == if |Grouped(steps)| <= limit || limit == 0 then None else Some(Grouped(steps)[limit - 1].position)
  {
    hide Grouped;
    GroupedNone();
    items, nextBefore := [], None;
    var at := 0;
    assert steps[at..] == steps;
    while at < |steps|
      invariant 0 <= at <= |steps| && |items| <= limit
      invariant Grouped(steps) == items + Grouped(steps[at..])
    {
      var next := RunEnd(steps, at);
      if |items| == limit {
        nextBefore := if items == [] then None else Some(items[|items| - 1].position);
        return;
      }
      items := items + [Item(steps[at].position, steps[at..next])];
      at := next;
    }
    assert steps[at..] == [];
  }

  /** One page of a history, newest first. */
  method Read(columns: seq<Column>, log: Log, window: Window) returns (page: Page)
    ensures page == PageOf(columns, log, window)
  {
    var steps := Collect(columns, log);
    var sorted := SortNewestFirst(steps);
    hide Changes, ValueAt, StepAt, Newer, Grouped, Within, Items, Steps;
    StepsHold(columns, log, 0, |log|);
    OneOrder(sorted, Steps(columns, log, 0, |log|));
    WindowIsRange(columns, log, window);
    GroupedSteps(columns, log, Low(window), High(window, |log|));
    var items, nextBefore := Paged(Within(sorted, window), window.limit);
    page := Page(items, nextBefore, |log|);
  }

  // ----- following a history page by page ----------------------------------

  /** The pages of one reader: each over the log as it is by then, each going on where the last said. */
  function Followed(columns: seq<Column>, logs: seq<Log>, window: Window): (seq<Item>, bool)
    decreases |logs|
  {
    if logs == [] then ([], false)
    else
      var page := PageOf(columns, logs[0], window);
      if page.nextBefore.None? then (page.items, true)
      else
        var (rest, finished) := Followed(columns, logs[1..], window.(before := page.nextBefore));
        (page.items + rest, finished)
  }

  predicate Growing(logs: seq<Log>) {
    forall i :: 0 <= i < |logs| - 1 ==> logs[i] <= logs[i + 1]
  }

  lemma {:induction false} ValueKept(c: Column, log: Log, longer: Log, n: nat)
    requires log <= longer && n <= |log|
    ensures ValueAt(c, longer, n) == ValueAt(c, log, n)
  {
    if n > 0 { ValueKept(c, log, longer, n - 1); }
  }

  lemma {:induction false} StepsOfKept(columns: seq<Column>, log: Log, longer: Log, i: nat, from: nat)
    requires log <= longer && i < |log| && from <= |columns|
    ensures StepsOf(columns, longer, i, from) == StepsOf(columns, log, i, from)
    decreases |columns| - from
  {
    if from < |columns| {
      ValueKept(columns[from], log, longer, i);
      ValueKept(columns[from], log, longer, i + 1);
      StepsOfKept(columns, log, longer, i, from + 1);
    }
  }

  /** What a record changed does not depend on what was appended after it. */
  lemma {:induction false} ItemsKept(columns: seq<Column>, log: Log, longer: Log, lo: nat, hi: nat)
    requires log <= longer && hi <= |log|
    ensures Items(columns, longer, lo, hi) == Items(columns, log, lo, hi)
    decreases hi
  {
    if hi > lo {
      ItemsNext(columns, log, lo, hi);
      ItemsNext(columns, longer, lo, hi);
      hide StepsOf, Items;
      StepsOfKept(columns, log, longer, hi - 1, 0);
      ItemsKept(columns, log, longer, lo, hi - 1);
    }
  }

  lemma ItemsNone(columns: seq<Column>, log: Log, lo: nat, hi: nat)
    requires hi <= |log| && Items(columns, log, lo, hi) != []
    ensures lo < hi
  {
  }

  /** What is left of a list after its `k`th element, as what is left of its tail. */
  lemma TailAt(first: seq<Item>, rest: seq<Item>, k: nat)
    requires |first| <= k < |first| + |rest|
    ensures (first + rest)[k] == rest[k - |first|] && (first + rest)[k + 1..] == rest[k - |first| + 1..]
  {
  }

  /** The entries after one of them are the entries below its position. */
  lemma {:induction false} ItemsBelow(columns: seq<Column>, log: Log, lo: nat, hi: nat, k: nat)
    requires hi <= |log| && k < |Items(columns, log, lo, hi)|
    ensures
      var all := Items(columns, log, lo, hi);
      0 < all[k].position <= hi && all[k + 1..] == Items(columns, log, lo, all[k].position - 1)
    decreases hi
  {
    hide StepsOf, Items;
    ItemsNone(columns, log, lo, hi);
    ItemsNext(columns, log, lo, hi);
    var steps := StepsOf(columns, log, hi - 1, 0);
    var first, rest := if steps == [] then [] else [Item(hi, steps)], Items(columns, log, lo, hi - 1);
    if k < |first| {
      assert (first + rest)[1..] == rest;
    } else {
      TailAt(first, rest, k);
      ItemsBelow(columns, log, lo, hi - 1, k - |first|);
    }
  }

  /** What one page leaves for the next: the entries below where it says to go on. */
  lemma PageLeaves(columns: seq<Column>, log: Log, window: Window)
    requires window.limit > 0 && PageOf(columns, log, window).nextBefore.Some?
    ensures
      var hi := High(window, |log|);
      var all := Items(columns, log, Low(window), hi);
      var page := PageOf(columns, log, window);
      && |all| > window.limit && page.items == all[..window.limit] && 0 < page.nextBefore.value <= hi
      && all == page.items + Items(columns, log, Low(window), page.nextBefore.value - 1)
  {
    var lo, hi := Low(window), High(window, |log|);
    var all := Items(columns, log, lo, hi);
    ItemsBelow(columns, log, lo, hi, window.limit - 1);
    assert all == all[..window.limit] + all[window.limit..];
  }

  /** A page of a longer log, from where an earlier one said to go on, is of the same entries. */
  lemma NextPage(columns: seq<Column>, log: Log, longer: Log, window: Window, before: nat)
    requires log <= longer && 0 < before <= |log|
    ensures
      var next := window.(before := Some(before));
      Low(next) == Low(window) && High(next, |longer|) == before - 1
      && Items(columns, longer, Low(next), High(next, |longer|)) == Items(columns, log, Low(window), before - 1)
  {
    ItemsKept(columns, log, longer, Low(window), before - 1);
  }

  lemma FollowedNext(columns: seq<Column>, logs: seq<Log>, window: Window)
    requires logs != [] && PageOf(columns, logs[0], window).nextBefore.Some?
    ensures
      var page := PageOf(columns, logs[0], window);
      var (rest, finished) := Followed(columns, logs[1..], window.(before := page.nextBefore));
      Followed(columns, logs, window) == (page.items + rest, finished)
  {
    hide PageOf;
  }

  lemma FollowedNone(columns: seq<Column>, window: Window)
    ensures Followed(columns, [], window) == ([], false)
  {
  }

  /** A page that says nothing of going on holds all there is. */
  lemma LastPage(columns: seq<Column>, logs: seq<Log>, window: Window)
    requires logs != [] && window.limit > 0 && PageOf(columns, logs[0], window).nextBefore.None?
    ensures
      var all := Items(columns, logs[0], Low(window), High(window, |logs[0]|));
      Followed(columns, logs, window) == (all, true)
  {
    hide Items, Low, High;
  }

  /** Following `next_before` yields the entries of the window in order, each record's changes whole and
      in one page, however the log grows meanwhile; and once it ends it has yielded every one. */
  lemma {:induction false} PagesYieldAll(columns: seq<Column>, logs: seq<Log>, window: Window)
    requires logs != [] && Growing(logs) && window.limit > 0
    ensures
      var (items, finished) := Followed(columns, logs, window);
      var all := Items(columns, logs[0], Low(window), High(window, |logs[0]|));
      items <= all && (finished ==> items == all)
    decreases |logs|
  {
    hide *;
    var log := logs[0];
    var page := PageOf(columns, log, window);
    if page.nextBefore.None? {
      LastPage(columns, logs, window);
    } else {
      PageLeaves(columns, log, window);
      FollowedNext(columns, logs, window);
      var next := window.(before := page.nextBefore);
      if |logs| > 1 {
        GrowingOn(logs);
        NextPage(columns, log, logs[1], window, page.nextBefore.value);
        PagesYieldAll(columns, logs[1..], next);
      } else {
        FollowedNone(columns, next);
        assert logs[1..] == [];
      }
    }
  }

  /** So many pages are enough: a page that is not the last holds as many entries as were asked for. */
  lemma {:induction false} PagesEnd(columns: seq<Column>, logs: seq<Log>, window: Window)
    requires logs != [] && Growing(logs) && window.limit > 0
    requires |logs| * window.limit >= |Items(columns, logs[0], Low(window), High(window, |logs[0]|))|
    ensures Followed(columns, logs, window).1
    decreases |logs|
  {
    hide *;
    var log := logs[0];
    var page := PageOf(columns, log, window);
    if page.nextBefore.None? {
      LastPage(columns, logs, window);
    } else {
      PageLeaves(columns, log, window);
      FollowedNext(columns, logs, window);
      Enough(|logs|, window.limit, |Items(columns, log, Low(window), High(window, |log|))|);
      GrowingOn(logs);
      NextPage(columns, log, logs[1], window, page.nextBefore.value);
      PagesEnd(columns, logs[1..], window.(before := page.nextBefore));
    }
  }

  lemma GrowingOn(logs: seq<Log>)
    requires |logs| > 1 && Growing(logs)
    ensures logs[0] <= logs[1] && Growing(logs[1..])
  {
  }

  lemma Enough(pages: nat, limit: nat, count: nat)
    requires pages > 0
    ensures pages * limit >= count ==> (pages - 1) * limit >= count - limit
    ensures pages == 1 ==> pages * limit == limit
  {
  }

  predicate Moved(columns: seq<Column>, log: Log, i: nat)
    requires i < |log|
  {
    exists at :: 0 <= at < |columns| && Changes(columns[at], log, i)
  }

  lemma MovedSteps(columns: seq<Column>, log: Log, i: nat)
    requires i < |log|
    ensures StepsOf(columns, log, i, 0) != [] <==> Moved(columns, log, i)
  {
    StepsOfHolds(columns, log, i, 0);
    hide StepsOf, ValueAt, Changes;
    var steps := StepsOf(columns, log, i, 0);
    if steps != [] {
      assert steps[0] in steps;
      assert Changes(columns[steps[0].column], log, i);
    }
    if at :| 0 <= at < |columns| && Changes(columns[at], log, i) {
      assert IsStep(columns, log, |log|, |columns|, StepAt(columns, log, i, at));
    }
  }

  /** Whatever a record selects, its entry lists exactly the columns it moved: an unsealed one whose value
      it changed, a sealed one whose value it changed into one served differently. Each is listed with the
      values just before and after the record. */
  lemma EntryMoves(columns: seq<Column>, log: Log, i: nat, s: Step)
    requires i < |log|
    ensures s in StepsOf(columns, log, i, 0) <==>
      && s.position == i + 1 && s.column < |columns|
      && s.before == ValueAt(columns[s.column], log, i) && s.after == ValueAt(columns[s.column], log, i + 1)
      && s.before != s.after
      && (columns[s.column].sealed ==> columns[s.column].served(s.before) != columns[s.column].served(s.after))
  {
    StepsOfHolds(columns, log, i, 0);
  }

  /** Positions strictly descend. */
  lemma {:induction false} ItemsDescend(columns: seq<Column>, log: Log, lo: nat, hi: nat)
    requires hi <= |log|
    ensures forall i :: 0 <= i < |Items(columns, log, lo, hi)| ==> lo < Items(columns, log, lo, hi)[i].position <= hi
    ensures forall i, j :: 0 <= i < j < |Items(columns, log, lo, hi)| ==>
      Items(columns, log, lo, hi)[i].position > Items(columns, log, lo, hi)[j].position
    decreases hi
  {
    hide StepsOf;
    if hi > lo { ItemsDescend(columns, log, lo, hi - 1); }
  }

  lemma ItemsLast(columns: seq<Column>, log: Log, lo: nat, hi: nat, item: Item)
    requires lo < hi <= |log|
    ensures item in Items(columns, log, lo, hi) <==>
      (StepsOf(columns, log, hi - 1, 0) != [] && item == Item(hi, StepsOf(columns, log, hi - 1, 0)))
      || item in Items(columns, log, lo, hi - 1)
    ensures item in Items(columns, log, lo, hi - 1) ==> item.position < hi
  {
    ItemsDescend(columns, log, lo, hi - 1);
    ItemsNext(columns, log, lo, hi);
    hide StepsOf, Items;
  }

  /** A record has an entry, with all its changes, exactly when it moved some column. */
  lemma {:induction false} ItemsExactly(columns: seq<Column>, log: Log, lo: nat, hi: nat, r: nat)
    requires lo <= r < hi <= |log|
    ensures Item(r + 1, StepsOf(columns, log, r, 0)) in Items(columns, log, lo, hi) <==> Moved(columns, log, r)
    decreases hi
  {
    hide StepsOf, Moved, Items;
    MovedSteps(columns, log, hi - 1);
    ItemsLast(columns, log, lo, hi, Item(r + 1, StepsOf(columns, log, r, 0)));
    if r < hi - 1 { ItemsExactly(columns, log, lo, hi - 1, r); }
  }

  /** The entries a window asks for are those of the records that moved some column, from `since` on and
      before `before`. */
  lemma WindowHolds(columns: seq<Column>, log: Log, window: Window, r: nat)
    requires r < |log|
    ensures
      Item(r + 1, StepsOf(columns, log, r, 0)) in Items(columns, log, Low(window), High(window, |log|)) <==>
        && Moved(columns, log, r)
        && (window.since.Some? ==> window.since.value <= r + 1)
        && (window.before.Some? ==> r + 1 < window.before.value)
  {
    hide Items, StepsOf, Moved;
    ItemsDescend(columns, log, Low(window), High(window, |log|));
    if Low(window) <= r < High(window, |log|) { ItemsExactly(columns, log, Low(window), High(window, |log|), r); }
  }

  // ----- a value is everything before it, folded ---------------------------

  /** The value held, taken through the records from `i` up to `n`, each with the value it finds. */
  function FoldOn(c: Column, held: Value, log: Log, i: nat, n: nat): Value
    requires i <= n <= |log|
    decreases n - i
  {
    if i == n then held else FoldOn(c, if c.selects(log[i]) then c.step(held, i, log[i]) else held, log, i + 1, n)
  }

  /** A column's value after `n` records is the left fold of the records it selects, from its seed. */
  lemma {:induction false} ValueIsFold(c: Column, log: Log, i: nat, n: nat)
    requires i <= n <= |log|
    ensures FoldOn(c, ValueAt(c, log, i), log, i, n) == ValueAt(c, log, n)
    decreases n - i
  {
    if i < n { ValueIsFold(c, log, i + 1, n); }
  }

  function Selected(c: Column, log: Log, n: nat): nat
    requires n <= |log|
  {
    if n == 0 then 0 else Selected(c, log, n - 1) + if c.selects(log[n - 1]) then 1 else 0
  }

  /** So a column that grows by one with each record it selects has an entry for every one of those and no
      other, and has grown by their number. */
  lemma {:induction false} CountsSelected(c: Column, log: Log, n: nat)
    requires n <= |log| && !c.sealed && forall v, i: nat, e :: |c.step(v, i, e)| == |v| + 1
    ensures |ValueAt(c, log, n)| == |c.seed| + Selected(c, log, n)
    ensures forall i :: 0 <= i < n ==> (Changes(c, log, i) <==> c.selects(log[i]))
  {
    if n > 0 { CountsSelected(c, log, n - 1); }
  }

  // ----- one change leads to the next --------------------------------------

  /** What a change serves as its `before` is what the next older change of its column served as its
      `after`, down to the seed. */
  lemma {:induction false} ChangesChain(c: Column, log: Log, j: nat, i: nat)
    requires j <= i < |log| && Changes(c, log, i)
    requires forall k :: j <= k < i ==> !Changes(c, log, k)
    ensures c.served(ValueAt(c, log, i)) == c.served(ValueAt(c, log, j))
    ensures !c.sealed ==> ValueAt(c, log, i) == ValueAt(c, log, j)
  {
    Unmoved(c, log, j, i);
  }

  lemma {:induction false} Unmoved(c: Column, log: Log, j: nat, i: nat)
    requires j <= i <= |log| && forall k :: j <= k < i ==> !Changes(c, log, k)
    ensures c.served(ValueAt(c, log, i)) == c.served(ValueAt(c, log, j))
    ensures !c.sealed ==> ValueAt(c, log, i) == ValueAt(c, log, j)
    decreases i - j
  {
    if j < i {
      Unmoved(c, log, j, i - 1);
      assert !Changes(c, log, i - 1);
    }
  }
}
