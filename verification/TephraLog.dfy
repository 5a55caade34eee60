/** The log as its two readers number it: from one through tephra, from zero through heklang, and the
    host that crosses between them (`src/heklang_host.rs`, `src/dispatch.rs`). */
module TephraLog {
  import opened Options

  datatype Event = Event(kind: string, fields: map<string, string>)

  /** A stored event, with the execution that appended it and the idempotency tag it carries. */
  datatype Entry = Entry(event: Event, execution: nat, tag: Option<string>)

  datatype Slice = Slice(kind: string, filters: map<string, string>)

  predicate Fits(slice: Slice, e: Event) {
    slice.kind == e.kind && forall f :: f in slice.filters ==> f in e.fields && e.fields[f] == slice.filters[f]
  }

  /** Some slice selects the event. No slices select nothing. */
  predicate Hits(slices: seq<Slice>, e: Event) {
    exists i :: 0 <= i < |slices| && Fits(slices[i], e)
  }

  function ToTephra(position: nat): nat { position + 1 }

  function FromTephra(position: nat): nat { if position == 0 then 0 else position - 1 }

  /** A record as the language sees it: its position counted from zero. */
  datatype Record = Record(position: nat, event: Event)

  /** The records of `log[from..upto]` the slices select. */
  function Records(log: seq<Entry>, slices: seq<Slice>, from: nat, upto: nat): seq<Record>
    requires upto <= |log|
    decreases upto - from
  {
    if from >= upto then []
    else
      (if Hits(slices, log[from].event) then [Record(from, log[from].event)] else [])
      + Records(log, slices, from + 1, upto)
  }

  lemma {:induction false} RecordsEnd(log: seq<Entry>, slices: seq<Slice>, from: nat, upto: nat)
    requires from < upto <= |log|
    ensures Records(log, slices, from, upto)
         == Records(log, slices, from, upto - 1)
            + if Hits(slices, log[upto - 1].event) then [Record(upto - 1, log[upto - 1].event)] else []
    decreases upto - from
  {
    if from < upto - 1 { RecordsEnd(log, slices, from + 1, upto); }
  }

  /** A read gives, in order and each once, the records in its range that some slice names by kind and
      whose fields meet all of that slice's filters. */
  lemma {:induction false} RecordsExactly(log: seq<Entry>, slices: seq<Slice>, from: nat, upto: nat, r: Record)
    requires upto <= |log|
    ensures r in Records(log, slices, from, upto) <==>
      && from <= r.position < upto && r.event == log[r.position].event
      && exists i :: 0 <= i < |slices| && slices[i].kind == r.event.kind
           && forall f :: f in slices[i].filters ==> f in r.event.fields && r.event.fields[f] == slices[i].filters[f]
    ensures
      var found := Records(log, slices, from, upto);
      && (forall i :: 0 <= i < |found| ==> found[i].position >= from)
      && forall i, j :: 0 <= i < j < |found| ==> found[i].position < found[j].position
    decreases upto - from
  {
    if from < upto {
      RecordsExactly(log, slices, from + 1, upto, r);
      HitsExactly(slices, r.event);
      hide Hits;
      var found := Records(log, slices, from, upto);
      if Hits(slices, log[from].event) { assert found == [found[0]] + Records(log, slices, from + 1, upto); }
    }
  }

  lemma HitsExactly(slices: seq<Slice>, e: Event)
    ensures Hits(slices, e) <==>
      exists i :: 0 <= i < |slices| && slices[i].kind == e.kind
        && forall f :: f in slices[i].filters ==> f in e.fields && e.fields[f] == slices[i].filters[f]
  {
  }

  datatype Sequenced = Sequenced(position: nat, entry: Entry)

  datatype Landed = Landed(first: nat, last: nat) | Existence | Boundary

  class Store {
    var log: seq<Entry>

    constructor ()
      ensures log == []
    {
      log := [];
    }

    /** The next event after tephra position `after` that the slices select. */
    method NextAfter(slices: seq<Slice>, after: nat) returns (next: Option<Sequenced>)
      ensures next.Some? ==> after < next.value.position <= |log|
      ensures next.Some? ==> next.value.entry == log[next.value.position - 1] && Hits(slices, next.value.entry.event)
      ensures forall i: nat :: after <= i < (if next.Some? then next.value.position - 1 else |log|) ==>
        !Hits(slices, log[i].event)
    {
      var at := after;
      while at < |log|
        invariant after <= at && (after <= |log| ==> at <= |log|)
        invariant forall i: nat :: after <= i < at && i < |log| ==> !Hits(slices, log[i].event)
      {
        if Hits(slices, log[at].event) {
          return Some(Sequenced(at + 1, log[at]));
        }
        at := at + 1;
      }
      next := None;
    }

    /** Append a batch unless one of its two conditions fails: an event the boundary's slices select
        after its position, or any event at all carrying the guarded tag. */
    method Append(batch: seq<Entry>, slices: seq<Slice>, after: nat, guarded: Option<string>, existenceFirst: bool)
      returns (landed: Landed)
      requires batch != []
      modifies this
      ensures landed.Landed? <==> !old(Taken(log, guarded)) && !old(Moved(log, slices, after))
      ensures landed.Landed? ==> log == old(log) + batch && landed == Landed(|old(log)| + 1, |log|)
      ensures !landed.Landed? ==> log == old(log)
      ensures landed.Existence? ==> old(Taken(log, guarded))
      ensures landed.Boundary? ==> old(Moved(log, slices, after))
    {
      var taken, moved := Taken(log, guarded), Moved(log, slices, after);
      if taken && (existenceFirst || !moved) {
        return Existence;
      }
      if moved {
        return Boundary;
      }
      log := log + batch;
      landed := Landed(|log| - |batch| + 1, |log|);
    }
  }

  /** Some entry carries the tag. */
  predicate Taken(log: seq<Entry>, tag: Option<string>) {
    tag.Some? && exists i :: 0 <= i < |log| && log[i].tag == tag
  }

  /** Some event after tephra position `after` is one the slices select. */
  predicate Moved(log: seq<Entry>, slices: seq<Slice>, after: nat) {
    exists i :: after <= i < |log| && Hits(slices, log[i].event)
  }

  /** Read the records a query selects, from `from` and up to `upto` inclusive when it is given. The
      exclusive lower bound of one numbering is the inclusive one of the other. */
  method ReadRecords(store: Store, slices: seq<Slice>, from: nat, upto: Option<nat>) returns (records: seq<Record>)
    ensures
      var end := if upto.Some? && upto.value + 1 < |store.log| then upto.value + 1 else |store.log|;
      records == Records(store.log, slices, from, end)
  {
    var end := if upto.Some? && upto.value + 1 < |store.log| then upto.value + 1 else |store.log|;
    records := [];
    if slices == [] {
      NothingSelected(store.log, from, end);
      return;
    }
    var after := from;
    while true
      invariant from <= after && (from <= end ==> after <= end) && (end < from ==> after == from)
      invariant records == if after <= end then Records(store.log, slices, from, after) else []
      decreases if after < |store.log| then |store.log| - after else 0
    {
      var next := store.NextAfter(slices, after);
      if next.None? || (upto.Some? && next.value.position > ToTephra(upto.value)) {
        if after <= end { NoneBetween(store.log, slices, from, after, end); }
        break;
      }
      var position := next.value.position;
      NoneBetween(store.log, slices, from, after, position - 1);
      RecordsEnd(store.log, slices, from, position);
      records := records + [Record(FromTephra(position), next.value.entry.event)];
      after := position;
    }
  }

  lemma {:induction false} NothingSelected(log: seq<Entry>, from: nat, upto: nat)
    requires upto <= |log|
    ensures Records(log, [], from, upto) == []
    decreases upto - from
  {
    if from < upto { NothingSelected(log, from + 1, upto); }
  }

  /** Entries the slices do not select add no records. */
  lemma {:induction false} NoneBetween(log: seq<Entry>, slices: seq<Slice>, from: nat, middle: nat, upto: nat)
    requires from <= middle <= upto <= |log|
    requires forall i :: middle <= i < upto ==> !Hits(slices, log[i].event)
    ensures Records(log, slices, from, upto) == Records(log, slices, from, middle)
    decreases upto - middle
  {
    if middle < upto {
      RecordsEnd(log, slices, from, upto);
      NoneBetween(log, slices, from, middle, upto - 1);
    }
  }
}
