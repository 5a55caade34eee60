/** The table of subject keys, changed in place: what each locked operation of the key store does to
    it is what the steps of KeyStore say (`src/opdb.rs`, under the calls of `src/crypto.rs`). */
module KeyTable {
  import opened Options
  import opened KeyStore
  import opened KeyHistory
  import opened KeyRuns
  import opened KeyRotation

  /** The updates that find their row still under the master it was read under. */
  function Taken(rows: map<Id, Row>, updates: seq<Update>): set<Id> {
    set i | 0 <= i < |updates| && Finds(rows, updates[i]) :: updates[i].id
  }

  class SubjectKeys {
    var rows: map<Id, Row>

    constructor ()
      ensures rows == map[]
    {
      rows := map[];
    }

    /** Insert the candidate if no row is there once the one to replace is gone, and read back whichever persists. */
    method GetOrInsert(id: Id, candidate: Row, replacing: Option<Row>, ghost w: World,
                       ghost parent: Option<(Id, Secret)>)
      returns (persisted: Row)
      requires w.rows == rows && candidate == Candidate(w, id, parent)
      modifies this
      ensures rows == Insert(w, id, parent, replacing).rows && id in rows && persisted == rows[id]
    {
      if replacing.Some? && id in rows && rows[id].box == replacing.value.box {
        rows := rows - {id};
      }
      if id !in rows {
        rows := rows[id := candidate];
        assert rows == w.rows[id := candidate];
      }
      persisted := rows[id];
    }

    method Delete(id: Id) returns (removed: bool)
      modifies this
      ensures removed <==> id in old(rows)
      ensures rows == old(rows) - {id}
    {
      removed := id in rows;
      rows := rows - {id};
    }

    /** Replace a row if it still holds the bytes that were read. */
    method Swap(id: Id, row: Row, expected: Box) returns (moved: bool)
      modifies this
      ensures moved <==> id in old(rows) && old(rows)[id].box == expected
      ensures rows == if moved then old(rows)[id := row] else old(rows)
    {
      moved := id in rows && rows[id].box == expected;
      if moved {
        rows := rows[id := row];
      }
    }

    /** Move a row under its declared parent, keeping its secret. */
    method Adopt(chain: seq<Id>, row: Row, parent: Secret, nonce: nat, ghost w: World, ghost t: nat)
        returns (moved: bool)
      requires |chain| > 1 && w.rows == rows && w.next == nonce
      modifies this
      ensures rows == AdoptStep(w, t, chain, AtCommit(row, parent)).rows && (moved ==> chain[0] in rows)
      ensures AdoptStep(w, t, chain, AtCommit(row, parent)).threads[t] ==
        if moved then Adopting(chain, AtReadback(rows[chain[0]].box, [])) else AdoptDone(chain, Contended)
    {
      moved := Swap(chain[0], ChildRow(chain[0], chain[1], parent, row.box.secret, nonce), row.box);
    }

    /** Take an adoption back: an update of the bytes it wrote, never an insert. */
    method RestoreRoot(chain: seq<Id>, box: Box, primary: string, nonce: nat, ghost w: World, ghost t: nat)
      returns (restored: bool)
      requires |chain| > 1 && w.rows == rows && w.next == nonce && w.primary == primary
      modifies this
      ensures rows == AdoptStep(w, t, chain, AtRestore(box)).rows
      ensures restored <==> chain[0] in old(rows) && old(rows)[chain[0]].box == box
    {
      restored := Swap(chain[0], MasterRow(primary, box.secret, nonce), box);
    }

    /** Commit a rotation's rewraps, each only if its row is still under the master it was read under. */
    method RewrapAll(primary: string, updates: seq<Update>) returns (rewrapped: nat)
      requires Once(updates)
      modifies this
      ensures rows == Rewrap(old(rows), primary, updates) && rows.Keys == old(rows).Keys
      ensures forall u :: u in updates && Finds(old(rows), u) ==> rows[u.id] == Row(u.box, Master(primary))
      ensures forall id :: id in rows && id !in Taken(old(rows), updates) ==> rows[id] == old(rows)[id]
      ensures rewrapped == |Taken(old(rows), updates)|
    {
      rewrapped := 0;
      for i := 0 to |updates|
        invariant Rewrap(old(rows), primary, updates) == Rewrap(rows, primary, updates[i..])
        invariant rewrapped == |Taken(old(rows), updates[..i])|
        invariant forall j :: i <= j < |updates| ==> (updates[j].id in rows <==> updates[j].id in old(rows))
        invariant forall j :: i <= j < |updates| && updates[j].id in rows ==>
          rows[updates[j].id] == old(rows)[updates[j].id]
      {
        var u := updates[i];
        TakenNext(old(rows), updates, i);
        assert updates[i..][1..] == updates[i + 1..];
        if Finds(rows, u) {
          rows := rows[u.id := Row(u.box, Master(primary))];
          rewrapped := rewrapped + 1;
        }
      }
      assert updates[..|updates|] == updates;
      RewrapTakes(old(rows), primary, updates);
    }

    /** Reclaim up to `limit` rows whose parent row is gone. */
    method SweepOrphans(limit: nat, ghost levels: Levels, ghost w: World) returns (deleted: nat)
      requires w.rows == rows
      modifies this
      ensures deleted <= limit && (deleted < limit ==> forall id :: id in rows ==> !Orphan(old(rows), id))
      ensures deleted < limit ==>
        forall id :: id in rows && rows[id].wrapping.Parent? ==> rows[id].wrapping.parent in old(rows)
      ensures exists run, w' :: Reaches(levels, w, run, w') && w'.rows == rows
      ensures forall other :: Opens(levels, rows, other) == Opens(levels, old(rows), other)
    {
      deleted := 0;
      var orphans := set id | id in rows && Orphan(rows, id);
      ghost var run: seq<Step>, now := [], w;
      while deleted < limit && orphans != {}
        invariant deleted <= limit
        invariant orphans == set id | id in rows && Orphan(old(rows), id)
        invariant forall id :: id in rows ==> id in old(rows) && rows[id] == old(rows)[id]
        invariant Reaches(levels, w, run, now) && now.rows == rows
        invariant forall other :: Opens(levels, rows, other) == Opens(levels, old(rows), other)
      {
        var id :| id in orphans;
        assert Next(levels, now, Sweep(id), Swept(now, id)) && Enabled(levels, now, Sweep(id));
        Then(levels, w, run, now, Sweep(id), Swept(now, id));
        forall other ensures Opens(levels, rows - {id}, other) == Opens(levels, old(rows), other) {
          SweepLosesNothing(levels, rows, id, other);
        }
        run, now := run + [Sweep(id)], Swept(now, id);
        rows := rows - {id};
        orphans := orphans - {id};
        deleted := deleted + 1;
      }
      if deleted < limit {
        forall id | id in rows ensures !Orphan(old(rows), id) {
          assert id !in orphans;
        }
      }
    }
  }

  lemma RewrapTakes(rows: map<Id, Row>, primary: string, updates: seq<Update>)
    requires Once(updates)
    ensures
      var after := Rewrap(rows, primary, updates);
      && after.Keys == rows.Keys
      && (forall u :: u in updates && Finds(rows, u) ==> after[u.id] == Row(u.box, Master(primary)))
      && forall id :: id in after && id !in Taken(rows, updates) ==> after[id] == rows[id]
  {
    RewrapMoves(rows, primary, updates);
    hide Finds, Rewrap;
    forall u | u in updates && Finds(rows, u) ensures u.id in Taken(rows, updates) {
      var i :| 0 <= i < |updates| && updates[i] == u;
    }
  }

  lemma TakenNext(rows: map<Id, Row>, updates: seq<Update>, i: nat)
    requires i < |updates| && Once(updates)
    ensures
      var u := updates[i];
      var more := if Finds(rows, u) then {u.id} else {};
      Taken(rows, updates[..i + 1]) == Taken(rows, updates[..i]) + more && u.id !in Taken(rows, updates[..i])
  {
    var u := updates[i];
    var more := if Finds(rows, u) then {u.id} else {};
    forall id ensures id in Taken(rows, updates[..i + 1]) <==> id in Taken(rows, updates[..i]) + more {
      if j :| 0 <= j < i && updates[j].id == id {
        assert updates[..i][j] == updates[j] && updates[..i + 1][j] == updates[j];
      }
      assert updates[..i + 1][i] == u;
    }
  }
}
