/** An online backup against a live writer: a log copied byte by byte while batches are appended, rolled
    back and rolled over, the order of the steps, the clamp of the copied state to the copied log, and
    a manifest that is truthful wherever a run dies (`src/backup.rs`). */
module Backup {
  import opened Options
  import opened LogFiles
  import opened SegmentCopy

  /** The operational database: its keys, the positions its rows record, and its watermarks. */
  datatype OpState = OpState(keys: set<nat>, rows: map<string, set<nat>>, marks: map<string, nat>)

  const POSITIONED_TABLES: seq<string> := ["effect_journal", "effect_invocation", "effect_lane", "effect_quarantine"]

  const WATERMARK_COLUMNS: seq<string> := ["effect_cursor.watermark", "effect_activation.live_boundary"]

  /** Positions are stored signed. */
  const MAX_POSITION: nat := 0x7fff_ffff_ffff_ffff

  function Bound(head: nat): nat {
    if head <= MAX_POSITION then head else MAX_POSITION
  }

  /** No position the state records in the tables and columns a backup knows exceeds `head`. */
  predicate Within(state: OpState, head: nat) {
    && (forall table, p :: table in POSITIONED_TABLES && table in state.rows && p in state.rows[table] ==> p <= head)
    && (forall column :: column in WATERMARK_COLUMNS && column in state.marks ==> state.marks[column] <= head)
  }

  function Cut(known: bool, positions: set<nat>, bound: nat): set<nat> {
    if known then set p | p in positions && p <= bound else positions
  }

  function Cap(known: bool, position: nat, bound: nat): nat {
    if known && position > bound then bound else position
  }

  /** The state with every recorded position lowered to the head: rows above it go, watermarks come down. */
  function Clamp(state: OpState, head: nat): OpState {
    OpState(state.keys,
      map table | table in state.rows :: Cut(table in POSITIONED_TABLES, state.rows[table], Bound(head)),
      map column | column in state.marks :: Cap(column in WATERMARK_COLUMNS, state.marks[column], Bound(head)))
  }

  /** One state records nothing the other does not, at the same position or lower. */
  predicate Lowers(after: OpState, before: OpState) {
    && after.keys == before.keys && after.rows.Keys == before.rows.Keys && after.marks.Keys == before.marks.Keys
    && (forall table :: table in before.rows ==> after.rows[table] <= before.rows[table])
    && (forall column :: column in before.marks ==> after.marks[column] <= before.marks[column])
  }

  /** The clamp only lowers, brings everything within the head, changes nothing already there, and so
      does nothing a second time. */
  lemma ClampLowers(state: OpState, head: nat)
    ensures Lowers(Clamp(state, head), state) && Within(Clamp(state, head), head)
    ensures head <= MAX_POSITION && Within(state, head) ==> Clamp(state, head) == state
    ensures Clamp(Clamp(state, head), head) == Clamp(state, head)
  {
    if head <= MAX_POSITION && Within(state, head) {
      forall table | table in state.rows ensures Clamp(state, head).rows[table] == state.rows[table] {}
    }
    var once := Clamp(state, head);
    forall table | table in once.rows ensures Clamp(once, head).rows[table] == once.rows[table] {}
  }

  /** And it takes away no more than it must: of all states that only lower, and record nothing beyond the
      bounded head, the clamp is the greatest. */
  lemma ClampGreatest(state: OpState, head: nat, other: OpState)
    requires Lowers(other, state) && Within(other, Bound(head))
    ensures Lowers(other, Clamp(state, head))
  {
  }

  class OpDb {
    var state: OpState

    constructor (state: OpState)
      ensures this.state == state
    {
      this.state := state;
    }

    method DeleteAbove(table: string, head: nat)
      modifies this
      ensures state == if table in old(state).rows
        then old(state).(rows := old(state).rows[table := set p | p in old(state).rows[table] && p <= head])
        else old(state)
    {
      if table in state.rows {
        state := state.(rows := state.rows[table := set p | p in state.rows[table] && p <= head]);
      }
    }

    method Lower(column: string, head: nat)
      modifies this
      ensures state == if column in old(state).marks && old(state).marks[column] > head
        then old(state).(marks := old(state).marks[column := head]) else old(state)
    {
      if column in state.marks && state.marks[column] > head {
        state := state.(marks := state.marks[column := head]);
      }
    }

    method ClampRows(bound: nat)
      modifies this
      ensures state.keys == old(state).keys && state.marks == old(state).marks
      ensures state.rows.Keys == old(state).rows.Keys
      ensures forall table :: table in state.rows ==>
        state.rows[table] == Cut(table in POSITIONED_TABLES, old(state).rows[table], bound)
    {
      for i := 0 to |POSITIONED_TABLES|
        invariant state.keys == old(state).keys && state.marks == old(state).marks
        invariant state.rows.Keys == old(state).rows.Keys
        invariant forall table :: table in state.rows ==>
          state.rows[table] == Cut(table in POSITIONED_TABLES[..i], old(state).rows[table], bound)
      {
        DeleteAbove(POSITIONED_TABLES[i], bound);
      }
      assert POSITIONED_TABLES[..|POSITIONED_TABLES|] == POSITIONED_TABLES;
    }

    method ClampMarks(bound: nat)
      modifies this
      ensures state.keys == old(state).keys && state.rows == old(state).rows
      ensures state.marks.Keys == old(state).marks.Keys
      ensures forall column :: column in state.marks ==>
        state.marks[column] == Cap(column in WATERMARK_COLUMNS, old(state).marks[column], bound)
    {
      for i := 0 to |WATERMARK_COLUMNS|
        invariant state.keys == old(state).keys && state.rows == old(state).rows
        invariant state.marks.Keys == old(state).marks.Keys
        invariant forall column :: column in state.marks ==>
          state.marks[column] == Cap(column in WATERMARK_COLUMNS[..i], old(state).marks[column], bound)
      {
        Lower(WATERMARK_COLUMNS[i], bound);
      }
      assert WATERMARK_COLUMNS[..|WATERMARK_COLUMNS|] == WATERMARK_COLUMNS;
    }

    /** Lower every position this database records to `head`, table by table. */
    method ClampToLog(head: nat)
      modifies this
      ensures state == Clamp(old(state), head)
    {
      ClampRows(Bound(head));
      ClampMarks(Bound(head));
      assert state.rows == Clamp(old(state), head).rows;
      assert state.marks == Clamp(old(state), head).marks;
    }
  }

  // ----- the protocol ------------------------------------------------------

  datatype Target = Target(
    files: map<nat, File>,
    state: OpState,
    erasedThen: set<nat>,       // what the source had erased when the state was snapshotted
    complete: bool)             // what the manifest says

  datatype Phase =
    | Idle
    | Claimed(before: nat)
    | Copying(
        before: nat,
        top: nat,               // the highest file listed
        prefix: nat,            // how much of it is copied, and
        floor: nat,             // how much of it was committed, when it was measured
        todo: set<nat>,
        got: File)              // what has been read of the lowest of them
    | Snapped(before: nat, incoming: OpState, erased: set<nat>)
    | Clamped(before: nat, incoming: OpState, erased: set<nat>)
    | Installed(before: nat)

  datatype World = World(
    log: seq<Event>,                   // what has been committed
    segments: map<nat, Segment>,
    active: nat,
    state: OpState,
    erased: set<nat>,                  // keys erased at the source
    sealing: map<nat, set<nat>>,       // what each writer's next events are sealed under so far
    target: Target,
    phase: Phase)

  datatype Step =
    | Mint(writer: nat, key: nat)
    | Reseal(writer: nat, key: nat)
    | Scribble(tail: File)             // part of a batch, or one rolled back
    | Append(writer: nat, batch: seq<Event>)
    | Roll(size: nat)
    | Erase(key: nat)
    | RecordAt(table: string, position: nat)
    | MarkAt(column: string, position: nat)
    | Claim
    | List(prefix: nat)
    | ReadByte(name: nat)
    | Place(name: nat)
    | Snapshot
    | ClampSnapshot
    | Install
    | Finish
    | Die

  function Sealing(w: World, writer: nat): set<nat> {
    if writer in w.sealing then w.sealing[writer] else {}
  }

  /** The head a follower of the copied log finds. */
  function Head(target: Target): nat { |ReadLog(target.files, 0)| }

  function Bytes(segments: map<nat, Segment>): map<nat, File> { map b | b in segments :: segments[b].bytes }

  predicate Lowest(names: set<nat>, name: nat) {
    name in names && forall other :: other in names ==> name <= other
  }

  /** How much of a file is copied. All but the highest are sealed, and measure the same whenever it is done. */
  function PrefixOf(w: World, name: nat): nat
    requires w.phase.Copying? && name in w.segments
  {
    if name == w.phase.top then w.phase.prefix else Extent(w.segments[name].bytes)
  }

  predicate Enabled(w: World, step: Step) {
    match step
    // A key is minted before the event sealed under it is appended, never after.
    case Mint(_, key) => key !in w.state.keys && key !in w.erased
    case Reseal(_, key) => key in w.state.keys
    case Scribble(tail) => w.active in w.segments && Uncommitted(w.segments[w.active], tail)
    case Append(writer, batch) =>
      && w.active in w.segments && Fits(w.segments[w.active], batch)
      && forall e :: e in batch ==> e.keys <= Sealing(w, writer)
    case Roll(_) => w.active in w.segments && Read(w.segments[w.active].bytes) != []
    case Erase(key) => key in w.state.keys
    case RecordAt(_, position) => position <= |w.log|
    case MarkAt(_, position) => position <= |w.log|
    // A target ahead of the source is refused.
    case Claim => w.phase.Idle? && Head(w.target) <= |w.log|
    // Measured backwards while the writer writes, the highest file may come out long but never short.
    case List(prefix) =>
      w.phase.Claimed? && w.active in w.segments
      && w.segments[w.active].committed <= prefix <= |w.segments[w.active].bytes|
    case ReadByte(name) =>
      w.phase.Copying? && Lowest(w.phase.todo, name) && name in w.segments
      && |w.phase.got| < PrefixOf(w, name) && |w.phase.got| < |w.segments[name].bytes|
    case Place(name) =>
      w.phase.Copying? && Lowest(w.phase.todo, name) && name in w.segments
      && PrefixOf(w, name) <= |w.phase.got| <= |w.segments[name].bytes|
    case Snapshot => w.phase.Copying? && w.phase.todo == {}
    // A copy that stops short of the head read at the start is refused.
    case ClampSnapshot => w.phase.Snapped? && w.phase.before <= Head(w.target)
    case Install => w.phase.Clamped?
    case Finish => w.phase.Installed?
    case Die => true
  }

  /** The files whose copy may not stand. */
  function Todo(w: World): set<nat> {
    set b | b in w.segments && !Reuses(Bytes(w.segments), w.target.files, b)
  }

  function Next(w: World, step: Step): World
    requires Enabled(w, step)
  {
    match step
    case Mint(writer, key) =>
      w.(state := w.state.(keys := w.state.keys + {key}), sealing := w.sealing[writer := Sealing(w, writer) + {key}])
    case Reseal(writer, key) => w.(sealing := w.sealing[writer := Sealing(w, writer) + {key}])
    case Scribble(tail) => w.(segments := w.segments[w.active := Scratch(w.segments[w.active], tail)])
    case Append(writer, batch) =>
      w.(log := w.log + batch, segments := w.segments[w.active := Commit(w.segments[w.active], batch)],
         sealing := w.sealing[writer := {}])
    case Roll(size) => w.(segments := w.segments[|w.log| := Empty(size)], active := |w.log|)
    case Erase(key) => w.(state := w.state.(keys := w.state.keys - {key}), erased := w.erased + {key})
    case RecordAt(table, position) =>
      var rows := if table in w.state.rows then w.state.rows[table] else {};
      w.(state := w.state.(rows := w.state.rows[table := rows + {position}]))
    case MarkAt(column, position) => w.(state := w.state.(marks := w.state.marks[column := position]))
    case Claim => w.(phase := Claimed(|w.log|), target := w.target.(complete := false))
    case List(prefix) =>
      w.(phase := Copying(w.phase.before, w.active, prefix, w.segments[w.active].committed, Todo(w), []),
         target := w.target.(files := map b | b in w.target.files && b in w.segments :: w.target.files[b]))
    case ReadByte(name) =>
      w.(phase := w.phase.(got := w.phase.got + [w.segments[name].bytes[|w.phase.got|]]))
    case Place(name) =>
      var copy := w.phase.got + Zeros(|w.segments[name].bytes| - |w.phase.got|);
      w.(phase := w.phase.(todo := w.phase.todo - {name}, got := []),
         target := w.target.(files := w.target.files[name := copy]))
    case Snapshot => w.(phase := Snapped(w.phase.before, w.state, w.erased))
    case ClampSnapshot => w.(phase := Clamped(w.phase.before, Clamp(w.phase.incoming, Head(w.target)), w.phase.erased))
    case Install =>
      w.(phase := Installed(w.phase.before),
         target := w.target.(state := w.phase.incoming, erasedThen := w.phase.erased))
    case Finish => w.(phase := Idle, target := w.target.(complete := true))
    case Die => w.(phase := Idle)
  }

  // ----- the invariant -----------------------------------------------------

  /** The source's files hold its log. */
  predicate LogOk(w: World) {
    && w.active in w.segments && w.active + |Read(w.segments[w.active].bytes)| == |w.log|
    && forall b :: b in w.segments ==>
         b <= w.active && Sound(w.segments[b]) && ReadsAs(w.log, b, Read(w.segments[b].bytes))
  }

  /** Every key the log needs is still there, or was erased. */
  predicate Covered(log: seq<Event>, keys: set<nat>, erased: set<nat>) {
    forall e, k :: e in log && k in e.keys ==> k in keys || k in erased
  }

  predicate KeysOk(w: World) {
    && Covered(w.log, w.state.keys, w.erased) && w.state.keys !! w.erased
    && forall writer, k :: writer in w.sealing && k in w.sealing[writer] ==> k in w.state.keys || k in w.erased
  }

  /** A state goes with a copied log: the keys it lacks were erased before it was taken, the keys it
      has were not, and it records no position past that log. */
  predicate GoesWith(log: seq<Event>, state: OpState, erased: set<nat>) {
    Covered(log, state.keys, erased) && state.keys !! erased && Within(state, |log|)
  }

  predicate Consistent(w: World) {
    GoesWith(ReadLog(w.target.files, 0), w.target.state, w.target.erasedThen) && w.target.erasedThen <= w.erased
  }

  /** What has been read so far of a file. */
  predicate ReadTruly(got: File, segment: Segment) {
    && |got| <= |segment.bytes|
    && forall i :: 0 <= i < |got| && got[i].Mark? ==> i < segment.committed && got[i] == segment.bytes[i]
  }

  ghost predicate CopyingOk(w: World)
    requires w.phase.Copying?
  {
    && w.phase.todo <= w.segments.Keys
    && forall name :: Lowest(w.phase.todo, name) ==> ReadTruly(w.phase.got, w.segments[name])
  }

  ghost predicate PhaseOk(w: World) {
    && (!w.phase.Idle? ==> !w.target.complete)
    && match w.phase
       case Idle => true
       case Claimed(before) => before <= |w.log|
       case Copying(before, _, _, _, _, _) => before <= |w.log| && CopyingOk(w)
       case Snapped(_, incoming, erased) =>
         Covered(ReadLog(w.target.files, 0), incoming.keys, erased) && incoming.keys !! erased && erased <= w.erased
       case Clamped(before, incoming, erased) =>
         before <= Head(w.target) && GoesWith(ReadLog(w.target.files, 0), incoming, erased) && erased <= w.erased
       case Installed(before) => before <= Head(w.target) && Consistent(w)
  }

  ghost predicate Inv(w: World) {
    && LogOk(w) && KeysOk(w) && Copies(w.target.files, w.log, w.segments) && PhaseOk(w)
    && (w.target.complete ==> Consistent(w))
  }

  // ----- the writer --------------------------------------------------------

  /** The log is extended, and no segment loses what it had committed. */
  predicate Extends(w: World, w': World) {
    && w.log <= w'.log && w.segments.Keys <= w'.segments.Keys
    && forall b :: b in w.segments ==> Grown(w.segments[b], w'.segments[b])
  }

  lemma ReadsLater(log: seq<Event>, log': seq<Event>, base: nat, events: seq<Event>)
    requires ReadsAs(log, base, events) && log <= log'
    ensures ReadsAs(log', base, events)
  {
    var end := base + |events|;
    assert log'[base..end] == log[base..end];
  }

  lemma ScribbleExtends(w: World, step: Step)
    requires LogOk(w) && step.Scribble? && Enabled(w, step)
    ensures LogOk(Next(w, step)) && Extends(w, Next(w, step))
  {
    ScratchReads(w.segments[w.active], step.tail);
    hide Sound, Read, ReadsAs;
    assert Grown(w.segments[w.active], Scratch(w.segments[w.active], step.tail));
  }

  lemma CommitExtends(w: World, batch: seq<Event>)
    requires LogOk(w) && Fits(w.segments[w.active], batch)
    ensures
      var after := Commit(w.segments[w.active], batch);
      Grown(w.segments[w.active], after) && Sound(after)
        && Read(after.bytes) == Read(w.segments[w.active].bytes) + batch
      && ReadsAs(w.log + batch, w.active, Read(after.bytes)) && w.active + |Read(after.bytes)| == |w.log + batch|
  {
    var segment, log := w.segments[w.active], w.log + batch;
    CommitReads(segment, batch);
    ReadsLater(w.log, log, w.active, Read(segment.bytes));
    hide Sound, Read;
    assert ReadsAs(log, |w.log|, batch);
    ReadsOn(log, w.active, Read(segment.bytes), batch);
  }

  lemma AppendExtends(w: World, step: Step)
    requires LogOk(w) && step.Append? && Enabled(w, step)
    ensures LogOk(Next(w, step)) && Extends(w, Next(w, step))
  {
    hide Sound, Read, ReadsAs, Fits, Commit, Grown;
    CommitExtends(w, step.batch);
    forall b | b in w.segments && b != w.active
      ensures Grown(w.segments[b], w.segments[b]) && ReadsAs(w.log + step.batch, b, Read(w.segments[b].bytes)) {
      ReadsLater(w.log, w.log + step.batch, b, Read(w.segments[b].bytes));
      GrownSame(w.segments[b]);
    }
  }

  lemma GrownSame(segment: Segment)
    requires Sound(segment)
    ensures Grown(segment, segment)
  {
  }

  lemma EmptyReads(size: nat)
    ensures Sound(Empty(size)) && Read(Empty(size).bytes) == []
  {
    UnmarkedReads(Zeros(size), 0);
  }

  lemma RollExtends(w: World, step: Step)
    requires LogOk(w) && step.Roll? && Enabled(w, step)
    ensures LogOk(Next(w, step)) && Extends(w, Next(w, step)) && |w.log| !in w.segments
  {
    EmptyReads(step.size);
    hide Sound, Read, Empty, Grown;
    forall b | b in w.segments ensures Grown(w.segments[b], w.segments[b]) { GrownSame(w.segments[b]); }
  }

  lemma TrueStill(copy: File, segment: Segment, after: Segment)
    requires Grown(segment, after) && segment.committed <= |segment.bytes|
    ensures TrueCopy(copy, segment) ==> TrueCopy(copy, after)
    ensures ReadTruly(copy, segment) ==> ReadTruly(copy, after)
  {
    forall i | 0 <= i < segment.committed ensures after.bytes[i] == segment.bytes[i] {
      assert after.bytes[i] == after.bytes[..segment.committed][i] == segment.bytes[..segment.committed][i];
    }
  }

  lemma CopiesStill(files: map<nat, File>, w: World, w': World)
    requires LogOk(w) && LogOk(w') && Extends(w, w') && Copies(files, w.log, w.segments)
    ensures Copies(files, w'.log, w'.segments)
  {
    hide Sound, Read, ReadsAs, Grown, TrueCopy;
    forall b | b in files ensures TrueCopy(files[b], w'.segments[b]) {
      assert w.segments[b].committed <= |w.segments[b].bytes| by { SoundFits(w.segments[b]); }
      TrueStill(files[b], w.segments[b], w'.segments[b]);
    }
  }

  lemma SoundFits(segment: Segment)
    requires Sound(segment)
    ensures segment.committed <= |segment.bytes|
  {
  }

  /** What the writer does to the log undoes nothing the copy relies on. */
  lemma LogMoves(w: World, w': World)
    requires Inv(w) && LogOk(w') && Extends(w, w') && KeysOk(w')
    requires w'.target == w.target && w'.phase == w.phase && w'.erased == w.erased
    ensures Inv(w')
  {
    CopiesStill(w.target.files, w, w');
    hide Sound, Read, ReadsAs, Grown, TrueCopy, ReadTruly, KeysOk, Copies, Consistent, Covered, GoesWith, ReadLog;
    if w.phase.Copying? {
      forall name | Lowest(w.phase.todo, name) ensures ReadTruly(w.phase.got, w'.segments[name]) {
        SoundFits(w.segments[name]);
        TrueStill(w.phase.got, w.segments[name], w'.segments[name]);
      }
    }
  }

  lemma WriterLog(w: World, step: Step)
    requires LogOk(w) && Enabled(w, step) && (step.Scribble? || step.Append? || step.Roll?)
    ensures LogOk(Next(w, step)) && Extends(w, Next(w, step))
  {
    hide *;
    match step
    case Scribble(_) => ScribbleExtends(w, step);
    case Append(_, _) => AppendExtends(w, step);
    case _ => RollExtends(w, step);
  }

  lemma WriterKeys(w: World, step: Step)
    requires KeysOk(w) && Enabled(w, step) && (step.Scribble? || step.Append? || step.Roll?)
    ensures
      var w' := Next(w, step);
      KeysOk(w') && w'.target == w.target && w'.phase == w.phase && w'.erased == w.erased
  {
    hide Fits, Commit, Scratch, Uncommitted, Read;
  }

  lemma WriterMoves(w: World, step: Step)
    requires Inv(w) && Enabled(w, step) && (step.Scribble? || step.Append? || step.Roll?)
    ensures Inv(Next(w, step)) && Extends(w, Next(w, step))
  {
    hide *;
    InvParts(w);
    WriterLog(w, step);
    WriterKeys(w, step);
    LogMoves(w, Next(w, step));
  }

  lemma InvParts(w: World)
    requires Inv(w)
    ensures LogOk(w) && KeysOk(w) && Copies(w.target.files, w.log, w.segments) && PhaseOk(w)
  {
  }

  predicate OnKeys(step: Step) {
    step.Mint? || step.Reseal? || step.Erase? || step.RecordAt? || step.MarkAt?
  }

  lemma KeySteps(w: World, step: Step)
    requires KeysOk(w) && Enabled(w, step) && OnKeys(step)
    ensures
      var w' := Next(w, step);
      && KeysOk(w') && w'.target == w.target && w'.phase == w.phase && w.erased <= w'.erased
      && w'.log == w.log && w'.segments == w.segments && w'.active == w.active
  {
  }

  /** What it does to its keys and rows undoes nothing either. */
  lemma KeyMoves(w: World, step: Step)
    requires Inv(w) && Enabled(w, step) && OnKeys(step)
    ensures Inv(Next(w, step)) && Extends(w, Next(w, step))
  {
    InvParts(w);
    KeySteps(w, step);
    hide Enabled, Next, OnKeys, KeysOk, Sound, Read, ReadsAs, Covered, GoesWith, Copies, ReadLog, Within, Lowest,
      ReadTruly;
    forall b | b in w.segments ensures Grown(w.segments[b], w.segments[b]) { GrownSame(w.segments[b]); }
  }

  // ----- the backup --------------------------------------------------------

  /** A run that has begun leaves the log alone. */
  lemma Aside(w: World, w': World)
    requires LogOk(w) && KeysOk(w) && w'.log == w.log && w'.segments == w.segments && w'.active == w.active
    requires w'.state == w.state && w'.erased == w.erased && w'.sealing == w.sealing
    ensures LogOk(w') && KeysOk(w') && Extends(w, w')
  {
    hide Sound, Read, ReadsAs, Covered;
    forall b | b in w.segments ensures Grown(w.segments[b], w.segments[b]) { GrownSame(w.segments[b]); }
  }

  /** The copied log is one the source had. */
  lemma HeadIs(w: World)
    requires LogOk(w) && Copies(w.target.files, w.log, w.segments)
    ensures ReadLog(w.target.files, 0) <= w.log
  {
    hide Sound, Read, ReadLog, LogOk, Copies;
    CopiesRead(w.target.files, 0, w.log, w.segments);
  }

  lemma CoveredPrefix(log: seq<Event>, all: seq<Event>, keys: set<nat>, erased: set<nat>)
    requires Covered(all, keys, erased) && log <= all
    ensures Covered(log, keys, erased)
  {
    forall e | e in log ensures e in all {
      var i :| 0 <= i < |log| && log[i] == e;
      assert all[i] == e;
    }
  }

  lemma ListKeeps(w: World, step: Step)
    requires Inv(w) && step.List? && Enabled(w, step)
    ensures Inv(Next(w, step)) && Extends(w, Next(w, step))
  {
    var w' := Next(w, step);
    hide Sound, Read, ReadsAs, TrueCopy, Grown, Reuses, LogOk, KeysOk, Extends, Consistent, ReadLog;
    Aside(w, w');
    assert Copies(w'.target.files, w'.log, w'.segments);
  }

  lemma ReadKeeps(w: World, step: Step)
    requires Inv(w) && step.ReadByte? && Enabled(w, step)
    ensures Inv(Next(w, step)) && Extends(w, Next(w, step))
  {
    var w' := Next(w, step);
    InvParts(w);
    hide Read, ReadsAs, TrueCopy, Grown, Framed, KeysOk, Extends, Consistent, ReadLog, Copies, PrefixOf;
    assert Sound(w.segments[step.name]);
    hide LogOk;
    Aside(w, w');
    assert ReadTruly(w'.phase.got, w.segments[step.name]) by {
      ByteRead(w.phase.got, w.segments[step.name]);
    }
  }

  lemma ByteRead(got: File, segment: Segment)
    requires Sound(segment) && ReadTruly(got, segment) && |got| < |segment.bytes|
    ensures ReadTruly(got + [segment.bytes[|got|]], segment)
  {
  }

  lemma PlacedTruly(got: File, segment: Segment)
    requires ReadTruly(got, segment)
    ensures TrueCopy(got + Zeros(|segment.bytes| - |got|), segment)
  {
  }

  lemma PlaceCopies(w: World, step: Step)
    requires LogOk(w) && PhaseOk(w) && Copies(w.target.files, w.log, w.segments) && step.Place? && Enabled(w, step)
    ensures Copies(Next(w, step).target.files, w.log, w.segments)
  {
    hide Read, ReadsAs, Zeros, Sound, TrueCopy, ReadTruly, PrefixOf;
    PlacedTruly(w.phase.got, w.segments[step.name]);
  }

  lemma PlaceKeeps(w: World, step: Step)
    requires Inv(w) && step.Place? && Enabled(w, step)
    ensures Inv(Next(w, step)) && Extends(w, Next(w, step))
  {
    var w' := Next(w, step);
    InvParts(w);
    hide KeysOk, Extends, Consistent, ReadLog, PrefixOf, Zeros, LogOk, Copies, Sound, Framed;
    PlaceCopies(w, step);
    Aside(w, w');
  }

  lemma SnapshotKeeps(w: World, step: Step)
    requires Inv(w) && step.Snapshot? && Enabled(w, step)
    ensures Inv(Next(w, step)) && Extends(w, Next(w, step))
  {
    var w' := Next(w, step);
    InvParts(w);
    hide LogOk, Extends, Copies, Consistent, ReadLog, Covered;
    HeadIs(w);
    CoveredPrefix(ReadLog(w.target.files, 0), w.log, w.state.keys, w.erased);
    Aside(w, w');
  }

  lemma ClampKeeps(w: World, step: Step)
    requires Inv(w) && step.ClampSnapshot? && Enabled(w, step)
    ensures Inv(Next(w, step)) && Extends(w, Next(w, step))
  {
    var w' := Next(w, step);
    InvParts(w);
    ClampLowers(w.phase.incoming, Head(w.target));
    hide LogOk, Extends, Copies, Consistent, ReadLog, Covered, KeysOk, Clamp, Within;
    Aside(w, w');
  }

  lemma RestKeeps(w: World, step: Step)
    requires Inv(w) && (step.Claim? || step.Install? || step.Finish? || step.Die?) && Enabled(w, step)
    ensures Inv(Next(w, step)) && Extends(w, Next(w, step))
  {
    var w' := Next(w, step);
    InvParts(w);
    hide LogOk, Extends, Copies, ReadLog, Covered, KeysOk, Within;
    Aside(w, w');
  }

  lemma StepKeeps(w: World, step: Step)
    requires Inv(w) && Enabled(w, step)
    ensures Inv(Next(w, step)) && Extends(w, Next(w, step))
  {
    hide Inv, Enabled, Next, Extends;
    match step
    case List(_) => ListKeeps(w, step);
    case ReadByte(_) => ReadKeeps(w, step);
    case Place(_) => PlaceKeeps(w, step);
    case Snapshot => SnapshotKeeps(w, step);
    case ClampSnapshot => ClampKeeps(w, step);
    case _ =>
      if OnKeys(step) { KeyMoves(w, step); }
      else if step.Scribble? || step.Append? || step.Roll? { WriterMoves(w, step); }
      else { RestKeeps(w, step); }
  }

  ghost predicate Reaches(w: World, run: seq<Step>, w': World)
    decreases |run|
  {
    if run == [] then w' == w else Enabled(w, run[0]) && Reaches(Next(w, run[0]), run[1..], w')
  }

  lemma {:induction false} RunKeeps(w: World, run: seq<Step>, w': World)
    requires Inv(w) && Reaches(w, run, w')
    ensures Inv(w') && w.log <= w'.log
    decreases |run|
  {
    if run != [] {
      StepKeeps(w, run[0]);
      hide Inv, Enabled, Next;
      RunKeeps(Next(w, run[0]), run[1..], w');
    }
  }

  /** A new deployment and an empty target. */
  function Fresh(size: nat): World {
    World([], map[0 := Empty(size)], 0, OpState({}, map[], map[]), {}, map[],
          Target(map[], OpState({}, map[], map[]), {}, false), Idle)
  }

  lemma FreshInv(size: nat)
    ensures Inv(Fresh(size))
  {
    EmptyReads(size);
    hide Sound, Read, Empty;
    assert Covered([], {}, {});
  }

  /** However the writer runs, rolls back and rolls over, whatever moment each byte was read at, and
      wherever backups die, a manifest that says complete means: the copied log is one the source had,
      a key missing for one of its events was erased on the source before the state was taken, no
      erased key came back, and no recorded position exceeds the copied head. */
  lemma CompleteIsConsistent(size: nat, run: seq<Step>, w: World)
    requires Reaches(Fresh(size), run, w) && w.target.complete
    ensures
      var log := ReadLog(w.target.files, 0);
      && log <= w.log && w.target.erasedThen <= w.erased
      && (forall e, k :: e in log && k in e.keys && k !in w.target.state.keys ==> k in w.target.erasedThen)
      && w.target.state.keys !! w.target.erasedThen && Within(w.target.state, |log|)
  {
    FreshInv(size);
    RunKeeps(Fresh(size), run, w);
    InvParts(w);
    hide LogOk, Copies, ReadLog, Within, KeysOk, Fresh;
    HeadIs(w);
  }

  /** The manifest is finished only over a copied log that reaches the head the source had when the run
      began, and holds exactly the source's events up to where it ends. */
  lemma FinishReaches(size: nat, run: seq<Step>, w: World)
    requires Reaches(Fresh(size), run, w) && Enabled(w, Finish)
    ensures w.phase.before <= |ReadLog(w.target.files, 0)| && ReadLog(w.target.files, 0) <= w.log
    ensures Next(w, Finish).target.complete && Consistent(Next(w, Finish))
  {
    FreshInv(size);
    RunKeeps(Fresh(size), run, w);
    InvParts(w);
    hide LogOk, Copies, ReadLog, Within, KeysOk, Fresh, Consistent;
    HeadIs(w);
  }

  /** Taking the two halves the other way round loses keys: a snapshot taken before the log is copied
      may lack a key minted since for an event the copied log holds. */
  lemma SnapshotFirstLosesKeys(size: nat) returns (w: World, w': World)
    requires size > 1
    ensures Inv(w) && Reaches(w, [Mint(0, 7), Append(0, [Event({7})])], w')
    ensures !Covered(w'.log, w.state.keys, w.erased) && 7 !in w'.erased
  {
    FreshInv(size);
    w := Fresh(size);
    var w1 := Next(w, Mint(0, 7));
    var append := Append(0, [Event({7})]);
    assert Sealing(w1, 0) == {7};
    w' := Next(w1, append);
    var run := [Mint(0, 7), append];
    hide Inv;
    assert run[1..] == [append] && run[1..][1..] == [];
    assert Reaches(w', [], w') && Reaches(w1, run[1..], w') && Reaches(w, run, w');
    assert w'.log[0] == Event({7}) && w'.log[0] in w'.log && 7 in w'.log[0].keys;
  }
}
