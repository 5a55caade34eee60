/** The hierarchical key store of `src/crypto.rs`, as threads that mint, adopt, rotate and erase
    subject keys over one table of rows. Every use of the store's lock is one step. Encryption is
    symbolic: a wrapping carries its key, its secret, its associated data and a unique nonce. */
module KeyStore {
  import opened Options

  datatype Id = Id(subject: string, value: string)

  type Secret = nat

  datatype Key = MasterKey(id: string) | ChildKey(parent: Secret)

  datatype Box = Box(key: Key, secret: Secret, aad: Option<(Id, Id)>, nonce: nat)

  /** A child row names its parent and the generation of it, by fingerprint. A collision-free
      fingerprint tells as much as the secret it is of. */
  datatype Wrapping = Master(id: string) | Parent(parent: Id, generation: Secret)

  datatype Row = Row(box: Box, wrapping: Wrapping)

  /** How deep below a root subject a declared subject may sit. A parent is always nearer the roots. */
  type Levels = string -> nat

  predicate Chain(levels: Levels, chain: seq<Id>) {
    chain != [] && forall i :: 0 <= i < |chain| - 1 ==> levels(chain[i + 1].subject) < levels(chain[i].subject)
  }

  function MasterRow(master: string, secret: Secret, nonce: nat): Row {
    Row(Box(MasterKey(master), secret, None, nonce), Master(master))
  }

  function ChildRow(id: Id, parent: Id, parentSecret: Secret, secret: Secret, nonce: nat): Row {
    Row(Box(ChildKey(parentSecret), secret, Some((id, parent)), nonce), Parent(parent, parentSecret))
  }

  /** Opening a wrapping: with the wrong key or the wrong associated data nothing comes out. */
  function Unwrap(key: Key, aad: Option<(Id, Id)>, box: Box): Option<Secret> {
    if box.key == key && box.aad == aad then Some(box.secret) else None
  }

  // ----- walking up a chain ------------------------------------------------

  /** Open the rows below one whose secret is known, from the top down: a generation that does not
      match reads as erased. */
  function OpenDown(id: Id, below: seq<Row>, secret: Secret): Option<Secret>
    decreases |below|
  {
    if below == [] then Some(secret)
    else
      var row := below[|below| - 1];
      if row.wrapping.Parent? && row.wrapping.generation == secret then
        var child := if |below| == 1 then id
                     else if below[|below| - 2].wrapping.Parent? then below[|below| - 2].wrapping.parent else id;
        match Unwrap(ChildKey(secret), Some((child, row.wrapping.parent)), row.box)
        case Some(own) => OpenDown(id, below[..|below| - 1], own)
        case None => None
      else None
  }

  /** The row a walk reads next. */
  function NextId(id: Id, below: seq<Row>): Id {
    if below != [] && below[|below| - 1].wrapping.Parent? then below[|below| - 1].wrapping.parent else id
  }

  datatype Walked = Higher(below: seq<Row>) | Found(secret: Secret) | Unreadable

  /** One read of a walk that started at `id` and has the rows `below` behind it. */
  function WalkOn(rows: map<Id, Row>, id: Id, below: seq<Row>): Walked {
    var at := NextId(id, below);
    if at !in rows then Unreadable
    else if rows[at].wrapping.Parent? then Higher(below + [rows[at]])
    else
      match Unwrap(MasterKey(rows[at].wrapping.id), None, rows[at].box)
      case None => Unreadable
      case Some(top) =>
        match OpenDown(id, below, top)
        case Some(secret) => Found(secret)
        case None => Unreadable
  }

  // ----- threads -----------------------------------------------------------

  const MINT_ATTEMPTS: nat := 32

  datatype Phase =
    | Reading                                                  // about to read its own row
    | Judging(below: seq<Row>)                                 // opening the row it read, below[0]
    | Waiting(stale: Option<Row>)                              // its ancestors are being minted
    | Inserting(stale: Option<Row>, parent: Option<Secret>)
    | Reopening(below: seq<Row>)                               // opening a winner's row from elsewhere

  datatype Frame = Frame(chain: seq<Id>, attempts: nat, phase: Phase)

  datatype Adoption =
    | AtRow
    | AtMint(row: Row, stack: seq<Frame>)
    | AtCommit(row: Row, parent: Secret)
    | AtReadback(box: Box, below: seq<Row>)
    | AtRestore(box: Box)

  datatype Adopted = Settled | Contended | Undone | Moved

  datatype Update = Update(id: Id, box: Box, expected: string)

  datatype Thread =
    | Minting(stack: seq<Frame>)
    | Minted(id: Id, secret: Option<Secret>)
    | Adopting(chain: seq<Id>, at: Adoption)
    | AdoptDone(chain: seq<Id>, result: Adopted)
    | Rotating(updates: Option<seq<Update>>)
    | RotateDone

  datatype World = World(
    rows: map<Id, Row>,
    primary: string,
    threads: map<nat, Thread>,
    next: nat,                       // secrets and nonces below it have been used
    born: map<Secret, Id>,           // every secret a row ever held, and whose
    retired: set<Secret>,            // those no row holds any more
    erased: set<Secret>,             // those removed by an erase of their subject
    filed: set<(Secret, Secret)>)    // (child, parent) for every row ever wrapped under a parent

  // ----- minting -----------------------------------------------------------

  /** Insert the candidate if no row is there once the stale one is gone, and answer with the row
      that persists. */
  function Insert(w: World, id: Id, parent: Option<(Id, Secret)>, stale: Option<Row>): World {
    var gone := stale.Some? && id in w.rows && w.rows[id].box == stale.value.box;
    var free := id !in w.rows || gone;
    var secret := w.next;
    var row := if parent.Some? then ChildRow(id, parent.value.0, parent.value.1, secret, w.next)
               else MasterRow(w.primary, secret, w.next);
    var used := w.(next := w.next + 1, retired := if gone then w.retired + {w.rows[id].box.secret} else w.retired);
    if free then
      used.(rows := used.rows[id := row], born := used.born[secret := id],
            filed := if parent.Some? then used.filed + {(secret, parent.value.1)} else used.filed)
    else used
  }

  /** Open the row that persisted, if it is a root or hangs from the parent in hand. */
  function OpenWinner(id: Id, row: Row, under: Option<(Id, Secret)>): Option<Secret> {
    if row.wrapping.Master? then Unwrap(MasterKey(row.wrapping.id), None, row.box)
    else if under.Some? && row.wrapping == Parent(under.value.0, under.value.1)
    then Unwrap(ChildKey(under.value.1), Some((id, under.value.0)), row.box)
    else None
  }

  datatype Stepped = Stepped(stack: seq<Frame>, answer: Option<Option<Secret>>)

  /** The top frame has its secret: hand it to the frame that waits for it. */
  function Answer(stack: seq<Frame>, secret: Secret): Stepped
    requires stack != []
  {
    var rest := stack[..|stack| - 1];
    if rest == [] then Stepped([], Some(Some(secret)))
    else
      var frame := rest[|rest| - 1];
      var stale := if frame.phase.Waiting? then frame.phase.stale else None;
      Stepped(rest[|rest| - 1 := frame.(phase := Inserting(stale, Some(secret)))], None)
  }

  /** The top frame's attempt came to nothing: look again, or fail the one that waits for it. */
  function Retry(stack: seq<Frame>): Stepped
    requires stack != []
    decreases |stack|
  {
    var last := |stack| - 1;
    var frame := stack[last];
    if frame.attempts > 1 then Stepped(stack[last := frame.(attempts := frame.attempts - 1, phase := Reading)], None)
    else if last == 0 then Stepped([], Some(None))
    else Retry(stack[..last])
  }

  /** The row is missing or unreadable: mint the ancestors first if there are any. */
  function Descend(stack: seq<Frame>, stale: Option<Row>): Stepped
    requires stack != []
  {
    var last := |stack| - 1;
    var frame := stack[last];
    if |frame.chain| <= 1 then Stepped(stack[last := frame.(phase := Inserting(stale, None))], None)
    else
      Stepped(stack[last := frame.(phase := Waiting(stale))] + [Frame(frame.chain[1..], MINT_ATTEMPTS, Reading)], None)
  }

  function SetPhase(stack: seq<Frame>, phase: Phase): Stepped
    requires stack != []
  {
    Stepped(stack[|stack| - 1 := stack[|stack| - 1].(phase := phase)], None)
  }

  /** One locked step of a mint, and what follows it before the next. */
  function MintStep(w: World, stack: seq<Frame>): (World, Stepped)
    requires stack != [] && stack[|stack| - 1].chain != []
  {
    var frame := stack[|stack| - 1];
    var id := frame.chain[0];
    match frame.phase
    case Reading =>
      (w, match WalkOn(w.rows, id, [])
          case Found(secret) => Answer(stack, secret)
          case Higher(below) => SetPhase(stack, Judging(below))
          case Unreadable => Descend(stack, if id in w.rows then Some(w.rows[id]) else None))
    case Judging(below) =>
      (w, match WalkOn(w.rows, id, below)
          case Found(secret) => Answer(stack, secret)
          case Higher(more) => SetPhase(stack, Judging(more))
          case Unreadable => Descend(stack, if below == [] then None else Some(below[0])))
    case Waiting(_) => (w, Stepped(stack, None))
    case Inserting(stale, parent) =>
      var under := if parent.Some? && |frame.chain| > 1 then Some((frame.chain[1], parent.value)) else None;
      var w' := Insert(w, id, under, stale);
      (w', match OpenWinner(id, w'.rows[id], under)
           case Some(secret) => Answer(stack, secret)
           case None => SetPhase(stack, Reopening([])))
    case Reopening(below) =>
      (w, match WalkOn(w.rows, id, below)
          case Found(secret) => Answer(stack, secret)
          case Higher(more) => SetPhase(stack, Reopening(more))
          case Unreadable => Retry(stack))
  }

  // ----- steps -------------------------------------------------------------

  datatype Step =
    | StartMint(t: nat, chain: seq<Id>)
    | Mint(t: nat)
    | StartAdopt(t: nat, chain: seq<Id>)
    | Adopt(t: nat)
    | StartRotate(t: nat)
    | Rotate(t: nat)
    | Erase(id: Id)
    | Sweep(id: Id)

  ghost predicate Enabled(levels: Levels, w: World, step: Step) {
    match step
    case StartMint(t, chain) => t !in w.threads && Chain(levels, chain)
    case Mint(t) => t in w.threads && w.threads[t].Minting?
    case StartAdopt(t, chain) => t !in w.threads && Chain(levels, chain) && |chain| > 1
    case Adopt(t) => t in w.threads && w.threads[t].Adopting?
    case StartRotate(t) => t !in w.threads
    case Rotate(t) => t in w.threads && w.threads[t].Rotating?
    case Erase(_) => true
    case Sweep(id) => Orphan(w.rows, id)
  }

  /** Erase a subject: one row goes, whatever hangs from it. */
  function Erased(w: World, id: Id): World {
    if id in w.rows then
      w.(rows := w.rows - {id}, retired := w.retired + {w.rows[id].box.secret},
        erased := w.erased + {w.rows[id].box.secret})
    else w
  }

  /** A child row whose parent row is gone. */
  predicate Orphan(rows: map<Id, Row>, id: Id) {
    id in rows && rows[id].wrapping.Parent? && rows[id].wrapping.parent !in rows
  }

  /** Reclaim one orphan's row. A pass of the sweeper reclaims many, one after the other. */
  function Swept(w: World, id: Id): World
    requires id in w.rows
  {
    w.(rows := w.rows - {id}, retired := w.retired + {w.rows[id].box.secret})
  }

  /** One locked step of an adoption of `chain`, under thread `t`. */
  function AdoptStep(w: World, t: nat, chain: seq<Id>, at: Adoption): World
    requires |chain| > 1
  {
    var id := chain[0];
    match at
    case AtRow =>
      if id in w.rows && w.rows[id].wrapping.Master? then
        w.(threads := w.threads[t := Adopting(chain, AtMint(w.rows[id], [Frame(chain[1..], MINT_ATTEMPTS, Reading)]))])
      else w.(threads := w.threads[t := AdoptDone(chain, Settled)])
    case AtMint(row, stack) =>
      if stack == [] || stack[|stack| - 1].chain == [] then w else
      var (w', stepped) := MintStep(w, stack);
      var then' := match stepped.answer
        case None => Adopting(chain, AtMint(row, stepped.stack))
        case Some(None) => AdoptDone(chain, Contended)
        case Some(Some(parent)) => Adopting(chain, AtCommit(row, parent));
      w'.(threads := w'.threads[t := then'])
    case AtCommit(row, parent) =>
      var child := ChildRow(id, chain[1], parent, row.box.secret, w.next);
      // Compare-and-set on the bytes that were read.
      if id in w.rows && w.rows[id].box == row.box then
        w.(rows := w.rows[id := child], next := w.next + 1, filed := w.filed + {(row.box.secret, parent)},
           threads := w.threads[t := Adopting(chain, AtReadback(child.box, []))])
      else w.(next := w.next + 1, threads := w.threads[t := AdoptDone(chain, Contended)])
    case AtReadback(box, below) =>
      var then' := match WalkOn(w.rows, id, below)
        case Found(_) => AdoptDone(chain, Moved)
        case Higher(more) => Adopting(chain, AtReadback(box, more))
        case Unreadable => Adopting(chain, AtRestore(box));
      w.(threads := w.threads[t := then'])
    case AtRestore(box) =>
      var done := w.(next := w.next + 1, threads := w.threads[t := AdoptDone(chain, Undone)]);
      // Compare-and-set on the bytes this adoption wrote.
      if id in w.rows && w.rows[id].box == box then
        done.(rows := w.rows[id := MasterRow(w.primary, box.secret, w.next)])
      else done
  }

  /** Every root row not under the primary master, rewrapped off the lock. */
  ghost predicate Rewraps(w: World, updates: seq<Update>) {
    && (forall i :: 0 <= i < |updates| ==> RewrapsOne(w, updates[i], w.next + i))
    && (forall i, j :: 0 <= i < j < |updates| ==> updates[i].id != updates[j].id)
    && (forall id :: id in w.rows && w.rows[id].wrapping.Master? && w.rows[id].wrapping.id != w.primary ==>
          exists i :: 0 <= i < |updates| && updates[i].id == id)
  }

  ghost predicate RewrapsOne(w: World, u: Update, nonce: nat) {
    && u.id in w.rows && w.rows[u.id].wrapping == Master(u.expected) && u.expected != w.primary
    && u.box == Box(MasterKey(w.primary), w.rows[u.id].box.secret, None, nonce)
  }

  /** Commit the rewraps in one transaction, each a compare-and-set on the master it was read under. */
  function Rewrap(rows: map<Id, Row>, primary: string, updates: seq<Update>): map<Id, Row>
    decreases |updates|
  {
    if updates == [] then rows
    else
      var u := updates[0];
      var rest := if u.id in rows && rows[u.id].wrapping == Master(u.expected)
                  then rows[u.id := Row(u.box, Master(primary))] else rows;
      Rewrap(rest, primary, updates[1..])
  }

  ghost predicate Next(levels: Levels, w: World, step: Step, w': World)
    requires Enabled(levels, w, step)
  {
    match step
    case StartMint(t, chain) => w' == w.(threads := w.threads[t := Minting([Frame(chain, MINT_ATTEMPTS, Reading)])])
    case Mint(t) =>
      var stack := w.threads[t].stack;
      stack != [] && stack[|stack| - 1].chain != [] &&
      var id := stack[0].chain;
      var (after, stepped) := MintStep(w, stack);
      w' == after.(threads := after.threads[t :=
        if stepped.answer.Some? && id != [] then Minted(id[0], stepped.answer.value) else Minting(stepped.stack)])
    case StartAdopt(t, chain) => w' == w.(threads := w.threads[t := Adopting(chain, AtRow)])
    case Adopt(t) => |w.threads[t].chain| > 1 && w' == AdoptStep(w, t, w.threads[t].chain, w.threads[t].at)
    case StartRotate(t) => w' == w.(threads := w.threads[t := Rotating(None)])
    case Rotate(t) =>
      if w.threads[t].updates.None? then
        exists updates :: Rewraps(w, updates)
          && w' == w.(next := w.next + |updates|, threads := w.threads[t := Rotating(Some(updates))])
      else
        w' == w.(rows := Rewrap(w.rows, w.primary, w.threads[t].updates.value), threads := w.threads[t := RotateDone])
    case Erase(id) => w' == Erased(w, id)
    case Sweep(id) => w' == Swept(w, id)
  }
}
