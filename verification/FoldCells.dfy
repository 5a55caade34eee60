/** What a log leaves in one cell, said cell by cell and without any table: the left fold, from the
    column's seed, of the updates the log's arms name at that key, each folded into the value already
    there and looking others up as of its own moment (`src/fold_runtime.rs`). */
module FoldCells {
  import opened Options
  import opened KeyOrder
  import opened FoldTables

  /** One update: an arm, at one of the keys it writes. */
  datatype Touch = Touch(arm: Arm, key: Key)

  /** What a cell holds after these updates, made one after the other from the cells of `from`. */
  ghost function Told(p: Program, from: map<(Column, Key), Value>, touches: seq<Touch>, c: Column, k: Key)
    : Option<Value>
    decreases |touches|, 0
  {
    if touches == [] then if (c, k) in from then Some(from[(c, k)]) else None
    else
      var before, last := touches[..|touches| - 1], touches[|touches| - 1];
      if last.arm.column == c && last.key == k then
        Some(last.arm.update(k, Reading(p, from, before, c, k), Readings(p, from, before, last.arm.lookups(k))))
      else Told(p, from, before, c, k)
  }

  /** What an arm reads there. */
  ghost function Reading(p: Program, from: map<(Column, Key), Value>, touches: seq<Touch>, c: Column, k: Key): Value
    decreases |touches|, 1
  {
    match Told(p, from, touches, c, k)
    case Some(value) => value
    case None => p.seed(c)
  }

  ghost function Readings(p: Program, from: map<(Column, Key), Value>, touches: seq<Touch>, at: seq<(Column, Key)>):
      (values: seq<Value>)
    ensures |values| == |at| && forall i :: 0 <= i < |at| ==> values[i] == Reading(p, from, touches, at[i].0, at[i].1)
    decreases |touches|, 2
  {
    seq(|at|, i requires 0 <= i < |at| => Reading(p, from, touches, at[i].0, at[i].1))
  }

  // ----- the updates of a log ----------------------------------------------

  /** The keys of a main table once these updates were made. */
  ghost function Named(p: Program, from: set<(string, Key)>, touches: seq<Touch>, table: string): set<Key> {
    (set at | at in from && at.0 == table :: at.1)
    + (set touch | touch in touches && p.main(touch.arm.column.table) == table :: touch.key)
  }

  /** An arm's updates, given those made before it: at the key it names, or at every key named so far
      that carries its pinned parts, in order. */
  ghost function ArmTouches(p: Program, s: State, before: seq<Touch>, arm: Arm): seq<Touch> {
    match arm.target
    case Exact(key) => [Touch(arm, key)]
    case Range(parts) => TouchAll(arm, Matching(InOrder(Named(p, s.keys, before, p.main(arm.column.table))), parts))
  }

  ghost function TouchAll(arm: Arm, keys: seq<Key>): seq<Touch> {
    seq(|keys|, i requires 0 <= i < |keys| => Touch(arm, keys[i]))
  }

  /** `before`, and then the updates of these arms in order. */
  ghost function RecordTouches(p: Program, s: State, before: seq<Touch>, arms: seq<Arm>): seq<Touch>
    decreases |arms|
  {
    if arms == [] then before else RecordTouches(p, s, before + ArmTouches(p, s, before, arms[0]), arms[1..])
  }

  /** `before`, and then the updates of these records in order. */
  ghost function Touches(p: Program, s: State, before: seq<Touch>, records: seq<Record>): seq<Touch>
    decreases |records|
  {
    if records == [] then before else Touches(p, s, RecordTouches(p, s, before, p.arms(records[0])), records[1..])
  }

  // ----- the tables hold what the updates tell ------------------------------

  ghost predicate ShowsCells(p: Program, s: State, touches: seq<Touch>, t: State) {
    forall c, k :: Cell(t, c, k) == Told(p, s.cells, touches, c, k)
  }

  ghost predicate ShowsKeys(p: Program, s: State, touches: seq<Touch>, t: State) {
    forall table, k :: (table, k) in t.keys <==> k in Named(p, s.keys, touches, table)
  }

  lemma AtShows(p: Program, s: State, touches: seq<Touch>, t: State, arm: Arm, k: Key)
    requires ShowsCells(p, s, touches, t) && ShowsKeys(p, s, touches, t)
    ensures ShowsCells(p, s, touches + [Touch(arm, k)], ApplyAt(p, t, arm, k))
    ensures ShowsKeys(p, s, touches + [Touch(arm, k)], ApplyAt(p, t, arm, k))
  {
    var more, after := touches + [Touch(arm, k)], ApplyAt(p, t, arm, k);
    assert more[..|more| - 1] == touches;
    forall c, at ensures Reading(p, s.cells, touches, c, at) == Get(p, t, c, at) {
      assert Cell(t, c, at) == Told(p, s.cells, touches, c, at);
    }
    var looks := arm.lookups(k);
    assert Looked(p, t, looks) == Readings(p, s.cells, touches, looks);
    forall c, at ensures Cell(after, c, at) == Told(p, s.cells, more, c, at) {
      assert Cell(t, c, at) == Told(p, s.cells, touches, c, at);
    }
    forall table, at ensures (table, at) in after.keys <==> at in Named(p, s.keys, more, table) {
      assert (table, at) in t.keys <==> at in Named(p, s.keys, touches, table);
      assert more[|touches|] == Touch(arm, k);
    }
  }

  lemma {:induction false} KeysShow(p: Program, s: State, touches: seq<Touch>, t: State, arm: Arm, keys: seq<Key>)
    requires ShowsCells(p, s, touches, t) && ShowsKeys(p, s, touches, t)
    ensures ShowsCells(p, s, touches + TouchAll(arm, keys), ApplyKeys(p, t, arm, keys))
    ensures ShowsKeys(p, s, touches + TouchAll(arm, keys), ApplyKeys(p, t, arm, keys))
    decreases |keys|
  {
    hide ShowsCells, ShowsKeys, ApplyAt;
    if keys == [] {
      assert touches + TouchAll(arm, keys) == touches;
    } else {
      var more := touches + [Touch(arm, keys[0])];
      AtShows(p, s, touches, t, arm, keys[0]);
      KeysShow(p, s, more, ApplyAt(p, t, arm, keys[0]), arm, keys[1..]);
      assert more + TouchAll(arm, keys[1..]) == touches + TouchAll(arm, keys);
    }
  }

  lemma ArmShows(p: Program, s: State, touches: seq<Touch>, t: State, arm: Arm)
    requires ShowsCells(p, s, touches, t) && ShowsKeys(p, s, touches, t)
    ensures ShowsCells(p, s, touches + ArmTouches(p, s, touches, arm), ApplyArm(p, t, arm))
    ensures ShowsKeys(p, s, touches + ArmTouches(p, s, touches, arm), ApplyArm(p, t, arm))
  {
    var table := p.main(arm.column.table);
    assert KeysOf(t, table) == Named(p, s.keys, touches, table) by {
      forall k ensures k in KeysOf(t, table) <==> k in Named(p, s.keys, touches, table) {
        assert k in KeysOf(t, table) <==> (table, k) in t.keys;
      }
    }
    hide ShowsCells, ShowsKeys;
    assert ArmTouches(p, s, touches, arm) == TouchAll(arm, ArmKeys(p, t, arm));
    KeysShow(p, s, touches, t, arm, ArmKeys(p, t, arm));
  }

  lemma {:induction false} RecordShows(p: Program, s: State, touches: seq<Touch>, t: State, arms: seq<Arm>)
    requires ShowsCells(p, s, touches, t) && ShowsKeys(p, s, touches, t)
    ensures ShowsCells(p, s, RecordTouches(p, s, touches, arms), ApplyArms(p, t, arms))
    ensures ShowsKeys(p, s, RecordTouches(p, s, touches, arms), ApplyArms(p, t, arms))
    decreases |arms|
  {
    hide ShowsCells, ShowsKeys, ArmTouches, ApplyArm;
    if arms != [] {
      ArmShows(p, s, touches, t, arms[0]);
      RecordShows(p, s, touches + ArmTouches(p, s, touches, arms[0]), ApplyArm(p, t, arms[0]), arms[1..]);
    }
  }

  lemma {:induction false} RecordsShow(p: Program, s: State, touches: seq<Touch>, t: State, records: seq<Record>)
    requires ShowsCells(p, s, touches, t) && ShowsKeys(p, s, touches, t)
    ensures ShowsCells(p, s, Touches(p, s, touches, records), ApplyAll(p, t, records))
    ensures ShowsKeys(p, s, Touches(p, s, touches, records), ApplyAll(p, t, records))
    decreases |records|
  {
    hide ShowsCells, ShowsKeys, RecordTouches, ApplyArms;
    if records != [] {
      RecordShows(p, s, touches, t, p.arms(records[0]));
      RecordsShow(p, s, RecordTouches(p, s, touches, p.arms(records[0])), ApplyArms(p, t, p.arms(records[0])),
                  records[1..]);
    }
  }

  /** Applying records to a table leaves in every cell the fold of their updates into what it held,
      and mints exactly the keys they are made at. */
  lemma CellsAccumulate(p: Program, s: State, records: seq<Record>)
    ensures forall c, k :: Cell(ApplyAll(p, s, records), c, k) == Told(p, s.cells, Touches(p, s, [], records), c, k)
    ensures forall table, k ::
      (table, k) in ApplyAll(p, s, records).keys <==> k in Named(p, s.keys, Touches(p, s, [], records), table)
  {
    assert ShowsCells(p, s, [], s) && ShowsKeys(p, s, [], s);
    RecordsShow(p, s, [], s, records);
    assert ShowsCells(p, s, Touches(p, s, [], records), ApplyAll(p, s, records));
    assert ShowsKeys(p, s, Touches(p, s, [], records), ApplyAll(p, s, records));
    hide Told, Named, Touches, ApplyAll;
  }

  // ----- a column whose arms name their keys --------------------------------

  /** The arms of one record that name key `k` of column `c`, in order. */
  ghost function NamingArms(arms: seq<Arm>, c: Column, k: Key): seq<Arm> {
    if arms == [] then []
    else (if arms[0].column == c && arms[0].target == Exact(k) then [arms[0]] else []) + NamingArms(arms[1..], c, k)
  }

  /** Those of a log, in log order. */
  ghost function Naming(p: Program, records: seq<Record>, c: Column, k: Key): seq<Arm> {
    if records == [] then [] else NamingArms(p.arms(records[0]), c, k) + Naming(p, records[1..], c, k)
  }

  /** The arms among some updates that were made at one cell. */
  ghost function MadeAt(touches: seq<Touch>, c: Column, k: Key): seq<Arm> {
    if touches == [] then []
    else
      var last := touches[|touches| - 1];
      MadeAt(touches[..|touches| - 1], c, k) + if last.arm.column == c && last.key == k then [last.arm] else []
  }

  lemma {:induction false} MadeOn(a: seq<Touch>, b: seq<Touch>, c: Column, k: Key)
    ensures MadeAt(a + b, c, k) == MadeAt(a, c, k) + MadeAt(b, c, k)
    decreases |b|
  {
    if b == [] {
      assert a + b == a;
    } else {
      assert (a + b)[..|a + b| - 1] == a + b[..|b| - 1];
      MadeOn(a, b[..|b| - 1], c, k);
    }
  }

  lemma {:induction false} MadeNone(touches: seq<Touch>, c: Column, k: Key)
    requires forall touch :: touch in touches ==> touch.arm.column != c
    ensures MadeAt(touches, c, k) == []
    decreases |touches|
  {
    if touches != [] { MadeNone(touches[..|touches| - 1], c, k); }
  }

  lemma ArmMakes(p: Program, s: State, before: seq<Touch>, arm: Arm, c: Column, k: Key)
    requires arm.column == c ==> arm.target.Exact?
    ensures MadeAt(ArmTouches(p, s, before, arm), c, k) ==
      if arm.column == c && arm.target == Exact(k) then [arm] else []
  {
    var touches := ArmTouches(p, s, before, arm);
    if arm.column == c {
      assert touches == [Touch(arm, arm.target.key)] && touches[..0] == [];
    } else {
      MadeNone(touches, c, k);
    }
  }

  lemma {:induction false} RecordMakes(p: Program, s: State, before: seq<Touch>, arms: seq<Arm>, c: Column, k: Key)
    requires forall arm :: arm in arms && arm.column == c ==> arm.target.Exact?
    ensures MadeAt(RecordTouches(p, s, before, arms), c, k) == MadeAt(before, c, k) + NamingArms(arms, c, k)
    decreases |arms|
  {
    hide ArmTouches, MadeAt;
    if arms != [] {
      var touches := ArmTouches(p, s, before, arms[0]);
      assert arms[0] in arms && forall arm :: arm in arms[1..] ==> arm in arms;
      MadeOn(before, touches, c, k);
      ArmMakes(p, s, before, arms[0], c, k);
      RecordMakes(p, s, before + touches, arms[1..], c, k);
    }
  }

  /** The updates made at a key of a column whose arms name their keys are those its records name, in
      log order. */
  lemma {:induction false} LogMakes(p: Program, s: State, before: seq<Touch>, records: seq<Record>, c: Column, k: Key)
    requires forall arm :: HasArm(p, records, arm) && arm.column == c ==> arm.target.Exact?
    ensures MadeAt(Touches(p, s, before, records), c, k) == MadeAt(before, c, k) + Naming(p, records, c, k)
    decreases |records|
  {
    if records != [] {
      assert records[0] in records && forall r :: r in records[1..] ==> r in records;
      assert forall arm :: arm in p.arms(records[0]) ==> HasArm(p, records, arm);
      assert forall arm :: HasArm(p, records[1..], arm) ==> HasArm(p, records, arm);
      hide HasArm;
      RecordMakes(p, s, before, p.arms(records[0]), c, k);
      LogMakes(p, s, RecordTouches(p, s, before, p.arms(records[0])), records[1..], c, k);
    }
  }

  /** Updates that look nothing up, folded from the left. */
  ghost function FoldLeft(arms: seq<Arm>, k: Key, value: Value): Value {
    if arms == [] then value else arms[|arms| - 1].update(k, FoldLeft(arms[..|arms| - 1], k, value), [])
  }

  lemma FoldLast(arms: seq<Arm>, more: seq<Arm>, last: Arm, k: Key, value: Value)
    requires more == arms + [last]
    ensures FoldLeft(more, k, value) == last.update(k, FoldLeft(arms, k, value), [])
  {
    assert more[..|more| - 1] == arms;
  }

  lemma ReadingLast(p: Program, from: map<(Column, Key), Value>, touches: seq<Touch>, c: Column, k: Key)
    requires touches != []
    ensures
      var before, last := touches[..|touches| - 1], touches[|touches| - 1];
      Reading(p, from, touches, c, k) ==
        if last.arm.column == c && last.key == k
        then last.arm.update(k, Reading(p, from, before, c, k), Readings(p, from, before, last.arm.lookups(k)))
        else Reading(p, from, before, c, k)
  {
  }

  lemma {:induction false} ReadingFolds(p: Program, from: map<(Column, Key), Value>, touches: seq<Touch>, c: Column,
                                        k: Key)
    requires forall touch :: touch in touches && touch.arm.column == c ==> touch.arm.lookups(k) == []
    ensures Reading(p, from, touches, c, k) == FoldLeft(MadeAt(touches, c, k), k, Reading(p, from, [], c, k))
    decreases |touches|
  {
    hide Reading, Told, FoldLeft;
    if touches == [] {
      NoneFold(k, Reading(p, from, [], c, k));
    } else {
      var before, last := touches[..|touches| - 1], touches[|touches| - 1];
      assert last in touches && forall touch :: touch in before ==> touch in touches;
      ReadingFolds(p, from, before, c, k);
      ReadingLast(p, from, touches, c, k);
      if last.arm.column == c && last.key == k {
        var start := Reading(p, from, [], c, k);
        assert Readings(p, from, before, last.arm.lookups(k)) == [];
        FoldLast(MadeAt(before, c, k), MadeAt(touches, c, k), last.arm, k, start);
      } else {
        assert MadeAt(touches, c, k) == MadeAt(before, c, k);
      }
    }
  }

  lemma NoneFold(k: Key, value: Value)
    ensures FoldLeft([], k, value) == value
  {
  }

  /** Every update is an arm's of the log. */
  ghost predicate FromArms(touches: seq<Touch>, arms: iset<Arm>) {
    forall touch :: touch in touches ==> touch.arm in arms
  }

  lemma {:induction false} RecordFrom(p: Program, s: State, before: seq<Touch>, arms: seq<Arm>, all: iset<Arm>)
    requires FromArms(before, all) && forall arm :: arm in arms ==> arm in all
    ensures FromArms(RecordTouches(p, s, before, arms), all)
    decreases |arms|
  {
    if arms != [] {
      assert arms[0] in arms && forall arm :: arm in arms[1..] ==> arm in arms;
      assert FromArms(before + ArmTouches(p, s, before, arms[0]), all);
      hide FromArms;
      RecordFrom(p, s, before + ArmTouches(p, s, before, arms[0]), arms[1..], all);
    }
  }

  lemma {:induction false} LogFrom(p: Program, s: State, before: seq<Touch>, records: seq<Record>, all: iset<Arm>)
    requires FromArms(before, all) && forall arm :: HasArm(p, records, arm) ==> arm in all
    ensures FromArms(Touches(p, s, before, records), all)
    decreases |records|
  {
    if records != [] {
      assert records[0] in records && forall r :: r in records[1..] ==> r in records;
      assert forall arm :: arm in p.arms(records[0]) ==> HasArm(p, records, arm);
      assert forall arm :: HasArm(p, records[1..], arm) ==> HasArm(p, records, arm);
      hide HasArm, FromArms;
      RecordFrom(p, s, before, p.arms(records[0]), all);
      LogFrom(p, s, RecordTouches(p, s, before, p.arms(records[0])), records[1..], all);
    }
  }

  /** A column whose arms name their keys and look nothing up holds, at each key, the left fold from its
      seed of the updates the log's records name there, in log order. */
  lemma ValueIsFold(p: Program, records: seq<Record>, c: Column, k: Key)
    requires forall arm :: HasArm(p, records, arm) && arm.column == c ==> arm.target.Exact? && arm.lookups(k) == []
    ensures Get(p, ApplyAll(p, EMPTY, records), c, k) == FoldLeft(Naming(p, records, c, k), k, p.seed(c))
  {
    var touches := Touches(p, EMPTY, [], records);
    LogLooksNothing(p, EMPTY, records, c, k);
    LogMakes(p, EMPTY, [], records, c, k);
    CellsAccumulate(p, EMPTY, records);
    assert MadeAt(touches, c, k) == [] + Naming(p, records, c, k) == Naming(p, records, c, k);
    assert Cell(ApplyAll(p, EMPTY, records), c, k) == Told(p, map[], touches, c, k);
    assert Get(p, ApplyAll(p, EMPTY, records), c, k) == Reading(p, map[], touches, c, k);
    hide *;
    ReadingFolds(p, map[], touches, c, k);
    ReadingSeed(p, c, k);
  }

  lemma ReadingSeed(p: Program, c: Column, k: Key)
    ensures Reading(p, map[], [], c, k) == p.seed(c)
  {
  }

  lemma LogLooksNothing(p: Program, s: State, records: seq<Record>, c: Column, k: Key)
    requires forall arm :: HasArm(p, records, arm) && arm.column == c ==> arm.lookups(k) == []
    ensures forall touch :: touch in Touches(p, s, [], records) && touch.arm.column == c ==> touch.arm.lookups(k) == []
  {
    var all := iset arm | HasArm(p, records, arm);
    LogFrom(p, s, [], records, all);
    hide Touches, HasArm;
  }

  lemma {:induction false} FoldGrows(arms: seq<Arm>, k: Key, value: Value)
    requires forall arm, v :: arm in arms ==> |arm.update(k, v, [])| == |v| + 1
    ensures |FoldLeft(arms, k, value)| == |value| + |arms|
    decreases |arms|
  {
    if arms != [] {
      var rest := arms[..|arms| - 1];
      assert arms[|arms| - 1] in arms && forall arm :: arm in rest ==> arm in arms;
      FoldGrows(rest, k, value);
    }
  }

  lemma {:induction false} NamingHas(p: Program, records: seq<Record>, c: Column, k: Key)
    ensures forall arm :: arm in Naming(p, records, c, k) ==> HasArm(p, records, arm) && arm.column == c
  {
    if records != [] {
      NamingArmsAre(p.arms(records[0]), c, k);
      NamingHas(p, records[1..], c, k);
      assert records[0] in records && forall r :: r in records[1..] ==> r in records;
    }
  }

  lemma {:induction false} NamingArmsAre(arms: seq<Arm>, c: Column, k: Key)
    ensures forall arm :: arm in NamingArms(arms, c, k) ==> arm in arms && arm.column == c
  {
    if arms != [] { NamingArmsAre(arms[1..], c, k); }
  }

  /** So a column that grows by one with each record naming a key has grown, there, by as many as there were. */
  lemma CountsRecords(p: Program, records: seq<Record>, c: Column, k: Key)
    requires forall arm :: HasArm(p, records, arm) && arm.column == c ==>
      arm.target.Exact? && arm.lookups(k) == [] && forall v :: |arm.update(k, v, [])| == |v| + 1
    ensures |Get(p, ApplyAll(p, EMPTY, records), c, k)| == |p.seed(c)| + |Naming(p, records, c, k)|
  {
    ValueIsFold(p, records, c, k);
    NamingHas(p, records, c, k);
    hide HasArm;
    FoldGrows(Naming(p, records, c, k), k, p.seed(c));
  }
}
