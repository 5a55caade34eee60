/** Durable execution of one effect invocation: a handler whose outward calls are journaled as they
    are answered, interrupted anywhere and resumed from the journal (`src/effect.rs`,
    `src/heklang_host.rs`). */
module DurableExecution {
  import opened Options

  // ----- recorded results as rows ------------------------------------------

  datatype Json =
    | JNull
    | JBool(truth: bool)
    | JInt(number: int)
    | JText(text: string)
    | JArray(items: seq<Json>)
    | JObject(fields: map<string, Json>)

  datatype Invoked = InvokedOk | Reject(code: string, message: string) | Invalid(message: string)

  datatype Recorded =
    | Response(status: int, body: Json)
    | Command(outcome: Invoked)
    | Now(micros: int)
    | Erased

  function OrNull(text: Option<string>): Json {
    if text.Some? then JText(text.value) else JNull
  }

  function Encode(recorded: Recorded): Json {
    match recorded
    case Response(status, body) => JObject(map["status" := JInt(status), "body" := body])
    case Command(outcome) =>
      var code := if outcome.Reject? then Some(outcome.code) else None;
      var message := if outcome.InvokedOk? then None else Some(outcome.message);
      JObject(map["ok" := JBool(outcome.InvokedOk?), "code" := OrNull(code), "message" := OrNull(message)])
    case Now(micros) => JObject(map["micros" := JInt(micros)])
    case Erased => JObject(map[])
  }

  function Get(value: Json, name: string): Json {
    if value.JObject? && name in value.fields then value.fields[name] else JNull
  }

  function TextOr(value: Json): string {
    if value.JText? then value.text else ""
  }

  function Decode(value: Json): Recorded {
    if Get(value, "micros").JInt? then Now(Get(value, "micros").number)
    else if Get(value, "status").JInt? then Response(Get(value, "status").number, Get(value, "body"))
    else if Get(value, "ok").JBool? then
      if Get(value, "ok").truth then Command(InvokedOk)
      else if Get(value, "code").JText? then Command(Reject(Get(value, "code").text, TextOr(Get(value, "message"))))
      else Command(Invalid(TextOr(Get(value, "message"))))
    else Erased
  }

  /** Reading a row back gives the result that was written, of the kind that was written. */
  lemma {:induction false} DecodeEncode(recorded: Recorded)
    ensures Decode(Encode(recorded)) == recorded
  {
    match recorded
    case Response(status, body) => assert Encode(recorded).fields.Keys == {"status", "body"};
    case Command(outcome) => assert Encode(recorded).fields.Keys == {"ok", "code", "message"};
    case Now(micros) =>
    case Erased => assert Encode(recorded).fields.Keys == {};
  }

  // ----- handlers and journals ---------------------------------------------

  type Call = string

  /** How a handler may end: the four answers that advance past the event, and an error that does not. */
  datatype Outcome = Done | Failed(detail: string) | SkippedErased(reason: string) | Ignored | Raised(detail: string)

  datatype Action = Ask(call: Call) | Return(outcome: Outcome)

  /** What a handler does next is a function of the answers it has had. */
  type Handler = seq<Recorded> -> Action

  type Hash = Call -> string

  ghost predicate CollisionFree(hash: Hash) {
    forall a: Call, b: Call :: hash(a) == hash(b) ==> a == b
  }

  type Key = (string, nat)

  datatype Entry = Entry(key: Key, row: Json)

  /** How many of the answers so far were answers to `call`. */
  function Ordinal(h: Handler, path: seq<Recorded>, call: Call): nat {
    if path == [] then 0
    else
      var last := |path| - 1;
      Ordinal(h, path[..last], call) + if h(path[..last]) == Ask(call) then 1 else 0
  }

  function KeyOf(h: Handler, hash: Hash, path: seq<Recorded>): Key {
    var action := h(path);
    if action.Ask? then (hash(action.call), Ordinal(h, path, action.call)) else ("", 0)
  }

  /** Where on a path the handler asked for this very call. */
  function Earlier(h: Handler, path: seq<Recorded>, call: Call): set<nat> {
    set i: nat | i < |path| && h(path[..i]) == Ask(call)
  }

  lemma {:induction false} OrdinalCounts(h: Handler, path: seq<Recorded>, call: Call)
    ensures Ordinal(h, path, call) == |Earlier(h, path, call)|
  {
    if path == [] {
      assert Earlier(h, path, call) == {};
    } else {
      var last := |path| - 1;
      OrdinalCounts(h, path[..last], call);
      assert forall i :: 0 <= i < last ==> path[..last][..i] == path[..i];
      var now := if h(path[..last]) == Ask(call) then {last} else {};
      assert Earlier(h, path, call) == Earlier(h, path[..last], call) + now;
    }
  }

  /** Two calls, of one handler or of two, have one key exactly when they are the same call made after as
      many of the same before it: whatever else a handler asks for, and in what order, moves no key. */
  lemma KeysExactly(h: Handler, p: seq<Recorded>, g: Handler, q: seq<Recorded>, hash: Hash)
    requires CollisionFree(hash) && h(p).Ask? && g(q).Ask?
    ensures KeyOf(h, hash, p) == KeyOf(g, hash, q) <==>
      h(p).call == g(q).call && |Earlier(h, p, h(p).call)| == |Earlier(g, q, h(p).call)|
  {
    OrdinalCounts(h, p, h(p).call);
    OrdinalCounts(g, q, g(q).call);
  }

  function Find(journal: seq<Entry>, key: Key): (row: Option<Json>)
    ensures row.Some? <==> exists i :: 0 <= i < |journal| && journal[i].key == key
  {
    if journal == [] then None
    else if journal[0].key == key then Some(journal[0].row)
    else
      var rest := Find(journal[1..], key);
      assert rest.Some? ==> exists i :: 1 <= i < |journal| && journal[i].key == key by {
        if rest.Some? {
          var i :| 0 <= i < |journal[1..]| && journal[1..][i].key == key;
          assert journal[i + 1].key == key;
        }
      }
      assert rest.None? ==> forall i :: 1 <= i < |journal| ==> journal[i].key != key by {
        forall i | 1 <= i < |journal| ensures rest.None? ==> journal[i].key != key {
          assert journal[1..][i - 1].key == journal[i].key;
        }
      }
      rest
  }

  function Answers(journal: seq<Entry>): (answers: seq<Recorded>)
    ensures |answers| == |journal|
    ensures forall i :: 0 <= i < |journal| ==> answers[i] == Decode(journal[i].row)
  {
    seq(|journal|, i requires 0 <= i < |journal| => Decode(journal[i].row))
  }

  function Keys(journal: seq<Entry>): (keys: seq<Key>)
    ensures |keys| == |journal|
    ensures forall i :: 0 <= i < |journal| ==> keys[i] == journal[i].key
  {
    seq(|journal|, i requires 0 <= i < |journal| => journal[i].key)
  }

  /** The journal is one path through the handler: its calls in order, each under its own key. */
  ghost predicate OnePath(h: Handler, hash: Hash, journal: seq<Entry>) {
    forall i :: 0 <= i < |journal| ==>
      h(Answers(journal)[..i]).Ask? && journal[i].key == KeyOf(h, hash, Answers(journal)[..i])
  }

  /** One invocation's rows, as the live host reads and writes them. */
  class Journal {
    var entries: seq<Entry>

    constructor (entries: seq<Entry>)
      ensures this.entries == entries
    {
      this.entries := entries;
    }

    /** The answer recorded under a key, if there is one. */
    method Lookup(key: Key) returns (found: Option<Recorded>)
      ensures found.Some? <==> key in Keys(entries)
      ensures found == (if Find(entries, key).Some? then Some(Decode(Find(entries, key).value)) else None)
    {
      var i := 0;
      while i < |entries| && entries[i].key != key
        invariant i <= |entries| && forall j :: 0 <= j < i ==> entries[j].key != key
      {
        i := i + 1;
      }
      if i < |entries| {
        FindAt(entries, key, i);
        assert Keys(entries)[i] == key;
        found := Some(Decode(entries[i].row));
      } else {
        found := None;
      }
    }

    /** Record an answer. The key is a primary key: a second row under it is refused. */
    method Record(key: Key, answer: Recorded) returns (accepted: bool)
      modifies this
      ensures accepted <==> key !in Keys(old(entries))
      ensures entries == if accepted then old(entries) + [Entry(key, Encode(answer))] else old(entries)
    {
      var held := Lookup(key);
      accepted := held.None?;
      if accepted {
        entries := entries + [Entry(key, Encode(answer))];
      }
    }
  }

  // ----- a run of the invocation -------------------------------------------

  datatype Phase = Thinking | Missing | Holding(answer: Recorded)

  datatype Run = Run(path: seq<Recorded>, phase: Phase)

  datatype Status = Running | Terminal | OperatorSkipped

  datatype World = World(
    journal: seq<Entry>,          // durable
    status: Status,               // durable
    run: Option<Run>,             // the attempt in progress, lost in a crash
    performed: seq<Key>,          // every call ever made for real, in order
    interrupted: multiset<Key>)   // those whose answer never came, or was lost before it was recorded

  datatype Step =
    | Begin
    | Lookup
    | Perform(answer: Recorded)
    | Fail                        // the call went out and no answer came
    | Record
    | Complete
    | Crash
    | Skip

  predicate Enabled(h: Handler, w: World, step: Step) {
    match step
    case Begin => w.run.None? && w.status == Running
    case Lookup => w.run.Some? && w.run.value.phase.Thinking? && h(w.run.value.path).Ask?
    case Perform(_) => w.run.Some? && w.run.value.phase.Missing?
    case Fail => w.run.Some? && w.run.value.phase.Missing?
    case Record => w.run.Some? && w.run.value.phase.Holding?
    case Complete => w.run.Some? && w.run.value.phase.Thinking? && h(w.run.value.path).Return?
                     && !h(w.run.value.path).outcome.Raised?
    case Crash => true
    case Skip => w.run.None? && w.status == Running
  }

  function Next(h: Handler, hash: Hash, w: World, step: Step): World
    requires Enabled(h, w, step)
  {
    match step
    case Begin => w.(run := Some(Run([], Thinking)))
    case Lookup =>
      var found := Find(w.journal, KeyOf(h, hash, w.run.value.path));
      if found.Some? then w.(run := Some(Run(w.run.value.path + [Decode(found.value)], Thinking)))
      else w.(run := Some(Run(w.run.value.path, Missing)))
    case Perform(answer) =>
      w.(run := Some(Run(w.run.value.path, Holding(answer))),
         performed := w.performed + [KeyOf(h, hash, w.run.value.path)])
    case Fail =>
      var key := KeyOf(h, hash, w.run.value.path);
      w.(run := None, performed := w.performed + [key], interrupted := w.interrupted + multiset{key})
    case Record =>
      var answer := w.run.value.phase.answer;
      w.(run := Some(Run(w.run.value.path + [answer], Thinking)),
         journal := w.journal + [Entry(KeyOf(h, hash, w.run.value.path), Encode(answer))])
    case Complete => w.(run := None, status := Terminal)
    // A crash, a handler error or a failed call: the attempt is lost and the journal stays.
    case Crash => w.(run := None, interrupted := w.interrupted + Pending(h, hash, w))
    case Skip => w.(status := OperatorSkipped)
  }

  /** The call made for real whose answer is not in the journal yet. */
  function Pending(h: Handler, hash: Hash, w: World): multiset<Key> {
    if w.run.Some? && w.run.value.phase.Holding? then multiset{KeyOf(h, hash, w.run.value.path)} else multiset{}
  }

  function Fresh(): World {
    World([], Running, None, [], multiset{})
  }

  // ----- the invariant -----------------------------------------------------

  ghost predicate RunFits(h: Handler, w: World) {
    w.run.Some? ==>
      && w.status == Running
      && w.run.value.path <= Answers(w.journal)
      && (!w.run.value.phase.Thinking? ==> w.run.value.path == Answers(w.journal) && h(w.run.value.path).Ask?)
  }

  /** Every call ever made is in the journal, was interrupted, or is the one in hand. */
  ghost predicate Accounted(h: Handler, hash: Hash, w: World) {
    multiset(w.performed) == multiset(Keys(w.journal)) + w.interrupted + Pending(h, hash, w)
  }

  ghost predicate Inv(h: Handler, hash: Hash, w: World) {
    && OnePath(h, hash, w.journal) && RunFits(h, w) && Accounted(h, hash, w)
    && (w.status == Terminal ==>
          h(Answers(w.journal)).Return? && !h(Answers(w.journal)).outcome.Raised?)
  }

  lemma {:induction false} OrdinalGrows(h: Handler, path: seq<Recorded>, i: nat, call: Call)
    requires i <= |path|
    ensures Ordinal(h, path[..i], call) <= Ordinal(h, path, call)
    ensures i < |path| && h(path[..i]) == Ask(call) ==> Ordinal(h, path[..i], call) < Ordinal(h, path, call)
    decreases |path|
  {
    if i < |path| {
      var last := |path| - 1;
      assert path[..last][..i] == path[..i];
      OrdinalGrows(h, path[..last], i, call);
    } else {
      assert path[..i] == path;
    }
  }

  /** The same call made twice on one path is told apart by its ordinal. */
  lemma {:induction false} KeysDiffer(h: Handler, hash: Hash, path: seq<Recorded>, i: nat)
    requires CollisionFree(hash) && i < |path| && h(path[..i]).Ask? && h(path).Ask?
    ensures KeyOf(h, hash, path[..i]) != KeyOf(h, hash, path)
  {
    if h(path[..i]).call == h(path).call { OrdinalGrows(h, path, i, h(path).call); }
  }

  /** Looking up the next call of a path the journal holds finds its own entry, and a call past the
      journal's end is in no entry. */
  lemma {:induction false} LookupExact(h: Handler, hash: Hash, journal: seq<Entry>, path: seq<Recorded>)
    requires CollisionFree(hash) && OnePath(h, hash, journal) && path <= Answers(journal) && h(path).Ask?
    ensures |path| < |journal| ==> Find(journal, KeyOf(h, hash, path)) == Some(journal[|path|].row)
    ensures |path| == |journal| ==> Find(journal, KeyOf(h, hash, path)) == None
  {
    var n := |path|;
    var key := KeyOf(h, hash, path);
    assert path == Answers(journal)[..n];
    forall i | 0 <= i < n ensures journal[i].key != key {
      assert path[..i] == Answers(journal)[..i];
      KeysDiffer(h, hash, path, i);
    }
    if n < |journal| { FindAt(journal, key, n); }
  }

  lemma {:induction false} FindAt(journal: seq<Entry>, key: Key, n: nat)
    requires n < |journal| && journal[n].key == key
    requires forall i :: 0 <= i < n ==> journal[i].key != key
    ensures Find(journal, key) == Some(journal[n].row)
  {
    if n > 0 {
      assert journal[0].key != key;
      forall i | 0 <= i < n - 1 ensures journal[1..][i].key != key { assert journal[i + 1].key != key; }
      FindAt(journal[1..], key, n - 1);
    }
  }

  lemma {:induction false} RecordKeeps(h: Handler, hash: Hash, w: World)
    requires Inv(h, hash, w) && Enabled(h, w, Record)
    ensures Inv(h, hash, Next(h, hash, w, Record))
  {
    var w' := Next(h, hash, w, Record);
    var answer := w.run.value.phase.answer;
    var path := w.run.value.path;
    DecodeEncode(answer);
    hide Encode, Decode;
    assert Answers(w'.journal) == Answers(w.journal) + [answer];
    assert Keys(w'.journal) == Keys(w.journal) + [KeyOf(h, hash, path)];
    forall i | 0 <= i < |w'.journal|
      ensures h(Answers(w'.journal)[..i]).Ask? && w'.journal[i].key == KeyOf(h, hash, Answers(w'.journal)[..i])
    {
      assert Answers(w'.journal)[..i] == Answers(w.journal)[..i];
      if i == |w.journal| { assert Answers(w.journal)[..i] == path; }
    }
  }

  lemma {:induction false} StepKeeps(h: Handler, hash: Hash, w: World, step: Step)
    requires CollisionFree(hash) && Inv(h, hash, w) && Enabled(h, w, step)
    ensures Inv(h, hash, Next(h, hash, w, step))
  {
    hide Encode, Decode, Ordinal;
    match step
    case Begin =>
    case Lookup => LookupExact(h, hash, w.journal, w.run.value.path); LookupKeeps(h, hash, w);
    case Perform(answer) =>
    case Fail => FailKeeps(h, hash, w);
    case Record => RecordKeeps(h, hash, w);
    case Complete => CompleteKeeps(h, hash, w);
    case Crash =>
    case Skip =>
  }

  lemma FailKeeps(h: Handler, hash: Hash, w: World)
    requires Inv(h, hash, w) && Enabled(h, w, Fail)
    ensures Inv(h, hash, Next(h, hash, w, Fail))
  {
    hide KeyOf, OnePath;
  }

  lemma {:induction false} LookupKeeps(h: Handler, hash: Hash, w: World)
    requires Inv(h, hash, w) && Enabled(h, w, Lookup)
    requires var path := w.run.value.path;
      (|path| < |w.journal| ==> Find(w.journal, KeyOf(h, hash, path)) == Some(w.journal[|path|].row))
      && (|path| == |w.journal| ==> Find(w.journal, KeyOf(h, hash, path)) == None)
    ensures Inv(h, hash, Next(h, hash, w, Lookup))
  {
    LookupFits(h, hash, w);
    hide Find, KeyOf, OnePath, Decode, Answers, RunFits;
  }

  lemma LookupFits(h: Handler, hash: Hash, w: World)
    requires RunFits(h, w) && Enabled(h, w, Lookup)
    requires var path := w.run.value.path;
      (|path| < |w.journal| ==> Find(w.journal, KeyOf(h, hash, path)) == Some(w.journal[|path|].row))
      && (|path| == |w.journal| ==> Find(w.journal, KeyOf(h, hash, path)) == None)
    ensures RunFits(h, Next(h, hash, w, Lookup))
  {
    var path := w.run.value.path;
    hide Find, KeyOf, Decode;
    if |path| < |w.journal| {
      assert path + [Decode(w.journal[|path|].row)] <= Answers(w.journal);
    } else {
      assert path == Answers(w.journal);
    }
  }

  lemma {:induction false} CompleteKeeps(h: Handler, hash: Hash, w: World)
    requires Inv(h, hash, w) && Enabled(h, w, Complete)
    ensures Inv(h, hash, Next(h, hash, w, Complete)) && w.run.value.path == Answers(w.journal)
  {
    var path := w.run.value.path;
    // The journal cannot be longer than a path that returned: its next entry would be a call.
    assert path == Answers(w.journal)[..|path|];
    assert |path| == |w.journal|;
    assert path == Answers(w.journal);
  }

  // ----- every run ---------------------------------------------------------

  ghost predicate Reaches(h: Handler, hash: Hash, w: World, run: seq<Step>, w': World)
    decreases |run|
  {
    if run == [] then w' == w else Enabled(h, w, run[0]) && Reaches(h, hash, Next(h, hash, w, run[0]), run[1..], w')
  }

  lemma {:induction false} StepGrows(h: Handler, hash: Hash, w: World, step: Step)
    requires Enabled(h, w, step)
    ensures w.journal <= Next(h, hash, w, step).journal && w.performed <= Next(h, hash, w, step).performed
  {
  }

  /** Over any crashes and resumptions the journal is the answered prefix of one path through the
      handler, and only ever grows at its end. */
  lemma {:induction false} RunKeeps(h: Handler, hash: Hash, w: World, run: seq<Step>, w': World)
    requires CollisionFree(hash) && Inv(h, hash, w) && Reaches(h, hash, w, run, w')
    ensures Inv(h, hash, w') && w.journal <= w'.journal && w.performed <= w'.performed
    decreases |run|
  {
    if run != [] {
      hide Inv, Enabled, Next;
      StepGrows(h, hash, w, run[0]);
      StepKeeps(h, hash, w, run[0]);
      RunKeeps(h, hash, Next(h, hash, w, run[0]), run[1..], w');
    }
  }

  lemma {:induction false} FreshInv(h: Handler, hash: Hash)
    ensures Inv(h, hash, Fresh())
  {
  }

  /** A journaled call is never made again: whatever is about to be performed is in no entry. */
  lemma {:induction false} NeverPerformedAgain(h: Handler, hash: Hash, w: World, answer: Recorded)
    requires CollisionFree(hash) && Inv(h, hash, w) && Enabled(h, w, Perform(answer))
    ensures KeyOf(h, hash, w.run.value.path) !in Keys(w.journal)
  {
    LookupExact(h, hash, w.journal, w.run.value.path);
    assert forall i :: 0 <= i < |w.journal| ==> w.journal[i].key != KeyOf(h, hash, w.run.value.path);
  }

  /** The journal's primary key never refuses an answer: what is recorded is in no entry yet. */
  lemma {:induction false} RecordAccepted(h: Handler, hash: Hash, w: World)
    requires CollisionFree(hash) && Inv(h, hash, w) && Enabled(h, w, Record)
    ensures KeyOf(h, hash, w.run.value.path) !in Keys(w.journal)
    ensures Next(h, hash, w, Record).journal
         == w.journal + [Entry(KeyOf(h, hash, w.run.value.path), Encode(w.run.value.phase.answer))]
  {
    LookupExact(h, hash, w.journal, w.run.value.path);
    assert forall i :: 0 <= i < |w.journal| ==> w.journal[i].key != KeyOf(h, hash, w.run.value.path);
  }

  lemma {:induction false} JournaledOnce(h: Handler, hash: Hash, journal: seq<Entry>, key: Key)
    requires CollisionFree(hash) && OnePath(h, hash, journal)
    ensures multiset(Keys(journal))[key] <= 1
    decreases |journal|
  {
    if journal != [] {
      var last := |journal| - 1;
      var before := journal[..last];
      assert Keys(journal) == Keys(before) + [journal[last].key];
      assert Answers(before) == Answers(journal)[..last];
      assert OnePath(h, hash, before) by {
        forall i | 0 <= i < last ensures Answers(before)[..i] == Answers(journal)[..i] {}
      }
      JournaledOnce(h, hash, before, key);
      LookupExact(h, hash, before, Answers(before));
      assert journal[last].key !in Keys(before);
    }
  }

  /** A call is made once, but for the times no answer came or it was lost before it was recorded. */
  lemma {:induction false} PerformsCounted(h: Handler, hash: Hash, w: World, key: Key)
    requires CollisionFree(hash) && Inv(h, hash, w)
    ensures multiset(w.performed)[key] == w.interrupted[key]
            + (if key in Keys(w.journal) then 1 else 0) + Pending(h, hash, w)[key]
    ensures w.status == Terminal ==> Pending(h, hash, w) == multiset{}
  {
    JournaledOnce(h, hash, w.journal, key);
    assert key in Keys(w.journal) <==> multiset(Keys(w.journal))[key] > 0;
  }

  /** A completed invocation's journal is a whole path: the handler, given its answers, ends. */
  lemma {:induction false} CompletedIsWhole(h: Handler, hash: Hash, w: World)
    requires Inv(h, hash, w) && w.status == Terminal
    ensures OnePath(h, hash, w.journal) && h(Answers(w.journal)).Return? && !h(Answers(w.journal)).outcome.Raised?
  {
  }
}
