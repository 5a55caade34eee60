/** Keys as the texts a derived table stores them under, in the order the store keeps them, and the
    prefix seek over them (`minted_matching` of `src/fold_sink.rs`). */
module KeyOrder {
  import opened Options

  type Text = string

  type Key = seq<Text>

  predicate TextLess(a: Text, b: Text) {
    if b == [] then false
    else if a == [] then true
    else a[0] < b[0] || (a[0] == b[0] && TextLess(a[1..], b[1..]))
  }

  predicate Less(a: Key, b: Key) {
    if b == [] then false
    else if a == [] then true
    else TextLess(a[0], b[0]) || (a[0] == b[0] && Less(a[1..], b[1..]))
  }

  lemma {:induction false} TextTotal(a: Text, b: Text)
    ensures a != b ==> (TextLess(a, b) <==> !TextLess(b, a))
    ensures a == b ==> !TextLess(a, b)
    decreases |a|
  {
    if a != [] && b != [] {
      assert a == [a[0]] + a[1..] && b == [b[0]] + b[1..];
      TextTotal(a[1..], b[1..]);
    }
  }

  lemma {:induction false} TextTransitive(a: Text, b: Text, c: Text)
    requires TextLess(a, b) && TextLess(b, c)
    ensures TextLess(a, c)
    decreases |a|
  {
    if a != [] && a[0] == b[0] && b[0] == c[0] { TextTransitive(a[1..], b[1..], c[1..]); }
  }

  /** A text is before another where the first character they differ in is smaller, or has ended. */
  ghost predicate EndsOrLess(a: Text, b: Text, n: nat) {
    n <= |a| && n < |b| && a[..n] == b[..n] && (n == |a| || a[n] < b[n])
  }

  lemma {:induction false} TextLessExactly(a: Text, b: Text)
    ensures TextLess(a, b) <==> exists n :: EndsOrLess(a, b, n)
    decreases |a|
  {
    if b != [] {
      if a == [] || a[0] < b[0] {
        assert EndsOrLess(a, b, 0);
      } else {
        TextLessExactly(a[1..], b[1..]);
        if n: nat :| EndsOrLess(a, b, n) {
          assert n > 0;
          assert a[..n][0] == b[..n][0] && a[..n][1..] == a[1..][..n - 1] && b[..n][1..] == b[1..][..n - 1];
          assert EndsOrLess(a[1..], b[1..], n - 1);
        }
        if n: nat :| a[0] == b[0] && EndsOrLess(a[1..], b[1..], n) {
          assert a[..n + 1] == [a[0]] + a[1..][..n] && b[..n + 1] == [b[0]] + b[1..][..n];
          assert EndsOrLess(a, b, n + 1);
        }
      }
    }
  }

  /** And a key, part by part in the same way. */
  ghost predicate EndsOrBefore(a: Key, b: Key, n: nat) {
    n <= |a| && n < |b| && a[..n] == b[..n] && (n == |a| || TextLess(a[n], b[n]))
  }

  lemma {:induction false} LessExactly(a: Key, b: Key)
    ensures Less(a, b) <==> exists n :: EndsOrBefore(a, b, n)
    decreases |a|
  {
    hide TextLess;
    if b != [] {
      if a == [] || TextLess(a[0], b[0]) {
        assert EndsOrBefore(a, b, 0);
      } else {
        LessExactly(a[1..], b[1..]);
        if n: nat :| EndsOrBefore(a, b, n) {
          assert n > 0;
          assert a[..n][0] == b[..n][0] && a[..n][1..] == a[1..][..n - 1] && b[..n][1..] == b[1..][..n - 1];
          assert EndsOrBefore(a[1..], b[1..], n - 1);
        }
        if n: nat :| a[0] == b[0] && EndsOrBefore(a[1..], b[1..], n) {
          assert a[..n + 1] == [a[0]] + a[1..][..n] && b[..n + 1] == [b[0]] + b[1..][..n];
          assert EndsOrBefore(a, b, n + 1);
        }
      }
    }
  }

  /** Any two different keys are ordered one way. */
  lemma {:induction false} Total(a: Key, b: Key)
    ensures a != b ==> (Less(a, b) <==> !Less(b, a))
    ensures a == b ==> !Less(a, b)
    decreases |a|
  {
    if a != [] && b != [] {
      assert a == [a[0]] + a[1..] && b == [b[0]] + b[1..];
      TextTotal(a[0], b[0]);
      Total(a[1..], b[1..]);
    }
  }

  lemma {:induction false} Transitive(a: Key, b: Key, c: Key)
    requires Less(a, b) && Less(b, c)
    ensures Less(a, c)
    decreases |a|
  {
    if a != [] {
      if TextLess(a[0], b[0]) && TextLess(b[0], c[0]) {
        TextTransitive(a[0], b[0], c[0]);
      } else if a[0] == b[0] && b[0] == c[0] {
        Transitive(a[1..], b[1..], c[1..]);
      }
    }
  }

  // ----- a set of keys in order --------------------------------------------

  predicate Ascending(keys: seq<Key>) {
    forall i, j :: 0 <= i < j < |keys| ==> Less(keys[i], keys[j])
  }

  predicate IsLeast(keys: set<Key>, k: Key) {
    k in keys && forall other :: other in keys ==> other == k || Less(k, other)
  }

  lemma {:induction false} HasLeast(keys: set<Key>) returns (k: Key)
    requires keys != {}
    ensures IsLeast(keys, k)
  {
    k :| k in keys;
    if keys != {k} {
      assert keys == {k} + (keys - {k});
      var rest := HasLeast(keys - {k});
      Total(k, rest);
      if Less(rest, k) {
        k := rest;
      } else {
        forall other | other in keys - {k} && other != rest ensures Less(k, other) { Transitive(k, rest, other); }
      }
    }
  }

  lemma OneLeast(keys: set<Key>, a: Key, b: Key)
    requires IsLeast(keys, a) && IsLeast(keys, b)
    ensures a == b
  {
    Total(a, b);
  }

  /** The keys of a set, least first. */
  ghost function InOrder(keys: set<Key>): seq<Key> {
    if keys == {} then []
    else
      var least := HasLeastOf(keys);
      [least] + InOrder(keys - {least})
  }

  ghost function HasLeastOf(keys: set<Key>): (k: Key)
    requires keys != {}
    ensures IsLeast(keys, k)
  {
    assert exists k :: IsLeast(keys, k) by { var k := HasLeast(keys); }
    var k :| IsLeast(keys, k);
    k
  }

  lemma {:induction false} InOrderHolds(keys: set<Key>)
    ensures Ascending(InOrder(keys))
    ensures forall k :: k in InOrder(keys) <==> k in keys
  {
    if keys != {} {
      var least := HasLeastOf(keys);
      InOrderHolds(keys - {least});
      var rest := InOrder(keys - {least});
      assert forall i :: 0 <= i < |rest| ==> rest[i] in rest;
    }
  }

  /** An ascending sequence is the only one of its keys. */
  lemma {:induction false} OneOrder(sorted: seq<Key>, keys: set<Key>)
    requires Ascending(sorted) && forall k :: k in sorted <==> k in keys
    ensures sorted == InOrder(keys)
    decreases |sorted|
  {
    if sorted == [] {
      assert keys == {};
    } else {
      assert sorted[0] in keys;
      assert IsLeast(keys, sorted[0]);
      OneLeast(keys, sorted[0], HasLeastOf(keys));
      var rest := sorted[1..];
      forall k ensures k in rest <==> k in keys - {sorted[0]} {
        if k in sorted && k != sorted[0] {
          var i :| 0 <= i < |sorted| && sorted[i] == k;
          assert rest[i - 1] == k;
        }
        Total(sorted[0], sorted[0]);
      }
      OneOrder(rest, keys - {sorted[0]});
    }
  }

  /** List a set's keys in order, as an ordered set iterates. */
  method Sorted(keys: set<Key>) returns (sorted: seq<Key>)
    ensures sorted == InOrder(keys)
  {
    sorted := [];
    var rest := keys;
    while rest != {}
      invariant rest <= keys && Ascending(sorted)
      invariant forall k :: k in sorted <==> k in keys - rest
      invariant forall a, b :: a in sorted && b in rest ==> Less(a, b)
    {
      ghost var some := HasLeast(rest);
      var least :| least in rest && forall other :: other in rest ==> other == least || Less(least, other);
      sorted, rest := sorted + [least], rest - {least};
    }
    OneOrder(sorted, keys);
  }

  // ----- keys matching pinned parts ----------------------------------------

  /** A key carries every pinned part. */
  predicate Matches(parts: seq<Option<Text>>, row: Key) {
    forall i :: 0 <= i < |parts| && i < |row| && parts[i].Some? ==> parts[i].value == row[i]
  }

  function Matching(rows: seq<Key>, parts: seq<Option<Text>>): seq<Key> {
    if rows == [] then []
    else if Matches(parts, rows[0]) then [rows[0]] + Matching(rows[1..], parts)
    else Matching(rows[1..], parts)
  }

  lemma {:induction false} MatchingHolds(rows: seq<Key>, parts: seq<Option<Text>>)
    ensures forall k :: k in Matching(rows, parts) <==> k in rows && Matches(parts, k)
    ensures Ascending(rows) ==> Ascending(Matching(rows, parts))
  {
    if rows != [] {
      MatchingHolds(rows[1..], parts);
      assert rows == [rows[0]] + rows[1..];
      var rest := Matching(rows[1..], parts);
      if Ascending(rows) {
        assert Ascending(rows[1..]);
        forall i | 0 <= i < |rest| ensures Less(rows[0], rest[i]) {
          assert rest[i] in rows[1..];
          var j :| 0 <= j < |rows[1..]| && rows[1..][j] == rest[i];
          assert Less(rows[0], rows[j + 1]);
        }
      }
    }
  }

  lemma {:induction false} MatchingSplits(a: seq<Key>, b: seq<Key>, parts: seq<Option<Text>>)
    ensures Matching(a + b, parts) == Matching(a, parts) + Matching(b, parts)
  {
    if a == [] {
      assert a + b == b;
    } else {
      assert (a + b)[1..] == a[1..] + b;
      MatchingSplits(a[1..], b, parts);
    }
  }

  lemma {:induction false} MatchingNone(rows: seq<Key>, parts: seq<Option<Text>>)
    requires forall k :: k in rows ==> !Matches(parts, k)
    ensures Matching(rows, parts) == []
  {
    if rows != [] {
      assert rows[0] in rows && forall k :: k in rows[1..] ==> k in rows;
      MatchingNone(rows[1..], parts);
    }
  }

  /** The pinned parts at the front of a key, up to the first that is not pinned. */
  function Prefix(parts: seq<Option<Text>>): (p: Key)
    ensures |p| <= |parts| && forall i :: 0 <= i < |p| ==> parts[i] == Some(p[i])
  {
    if parts == [] || parts[0].None? then [] else [parts[0].value] + Prefix(parts[1..])
  }

  predicate StartsWith(row: Key, p: Key) {
    |p| <= |row| && row[..|p|] == p
  }

  /** A key that starts with a prefix is not before it. */
  lemma {:induction false} PrefixNotAfter(row: Key, p: Key)
    requires StartsWith(row, p)
    ensures !Less(row, p)
    decreases |p|
  {
    if p != [] {
      assert row[0] == p[0];
      TextTotal(row[0], p[0]);
      assert row[1..][..|p| - 1] == p[1..];
      PrefixNotAfter(row[1..], p[1..]);
    }
  }

  lemma StartsTail(row: Key, p: Key)
    requires row != [] && p != [] && row[0] == p[0]
    ensures StartsWith(row, p) <==> StartsWith(row[1..], p[1..])
  {
    if StartsWith(row[1..], p[1..]) { assert row[..|p|] == [row[0]] + row[1..][..|p| - 1]; }
    if StartsWith(row, p) { assert row[1..][..|p| - 1] == row[..|p|][1..]; }
  }

  /** Past the keys that start with a prefix, none starts with it again. */
  lemma {:induction false} PrefixRunEnds(p: Key, x: Key, y: Key)
    requires !Less(x, p) && !StartsWith(x, p) && Less(x, y)
    ensures !StartsWith(y, p)
    decreases |p|
  {
    if p != [] && x != [] && y != [] && StartsWith(y, p) {
      assert y[0] == p[0];
      TextTotal(x[0], p[0]);
      if x[0] == p[0] {
        assert y[1..][..|p| - 1] == p[1..];
        StartsTail(x, p);
        PrefixRunEnds(p[1..], x[1..], y[1..]);
      }
    }
  }

  lemma MatchingNext(rows: seq<Key>, parts: seq<Option<Text>>, from: nat, at: nat)
    requires from <= at < |rows|
    ensures Matching(rows[from..at + 1], parts)
         == Matching(rows[from..at], parts) + if Matches(parts, rows[at]) then [rows[at]] else []
  {
    MatchingSplits(rows[from..at], [rows[at]], parts);
    assert rows[from..at] + [rows[at]] == rows[from..at + 1];
  }

  lemma MatchingAround(rows: seq<Key>, parts: seq<Option<Text>>, from: nat, at: nat)
    requires from <= at <= |rows| && Matching(rows[..from], parts) == [] && Matching(rows[at..], parts) == []
    ensures Matching(rows, parts) == Matching(rows[from..at], parts)
  {
    assert rows == rows[..from] + (rows[from..at] + rows[at..]);
    MatchingSplits(rows[..from], rows[from..at] + rows[at..], parts);
    MatchingSplits(rows[from..at], rows[at..], parts);
  }

  /** The index of the first key not before `prefix`. */
  method Seek(minted: seq<Key>, prefix: Key) returns (from: nat)
    ensures from <= |minted| && (from < |minted| ==> !Less(minted[from], prefix))
    ensures forall i :: 0 <= i < from ==> Less(minted[i], prefix)
  {
    from := 0;
    while from < |minted| && Less(minted[from], prefix)
      invariant from <= |minted|
      invariant forall i :: 0 <= i < from ==> Less(minted[i], prefix)
    {
      from := from + 1;
    }
  }

  /** The keys carrying every pinned part, reached by a seek to the pinned prefix when there is one. */
  method MintedMatching(minted: seq<Key>, parts: seq<Option<Text>>) returns (found: seq<Key>)
    requires Ascending(minted) && forall row :: row in minted ==> |row| >= |parts|
    ensures found == Matching(minted, parts)
  {
    hide Matching, Matches, Less, StartsWith, Prefix, Ascending;
    var prefix := Prefix(parts);
    var from := Seek(minted, prefix);
    var at := from;
    found := [];
    MatchingEmpty(parts);
    assert minted[from..at] == [];
    while at < |minted| && StartsWith(minted[at], prefix)
      invariant from <= at <= |minted|
      invariant found == Matching(minted[from..at], parts)
      invariant forall i :: from <= i < at ==> StartsWith(minted[i], prefix)
    {
      MatchingNext(minted, parts, from, at);
      if Matches(parts, minted[at]) {
        found := found + [minted[at]];
      }
      at := at + 1;
    }
    OutsideRun(minted, parts, prefix, from, at);
    MatchingAround(minted, parts, from, at);
  }

  lemma MatchingEmpty(parts: seq<Option<Text>>)
    ensures Matching([], parts) == []
  {
  }

  /** Nothing before the seek and nothing after the run matches. */
  lemma OutsideRun(minted: seq<Key>, parts: seq<Option<Text>>, prefix: Key, from: nat, at: nat)
    requires Ascending(minted) && (forall row :: row in minted ==> |row| >= |parts|)
    requires prefix == Prefix(parts) && from <= at <= |minted|
    requires forall i :: 0 <= i < from ==> Less(minted[i], prefix)
    requires from < |minted| && from == at ==> !Less(minted[from], prefix)
    requires at < |minted| ==> !StartsWith(minted[at], prefix)
    requires forall i :: from <= i < at ==> StartsWith(minted[i], prefix)
    ensures Matching(minted[..from], parts) == [] && Matching(minted[at..], parts) == []
  {
    forall i | 0 <= i < |minted| && Matches(parts, minted[i]) ensures StartsWith(minted[i], prefix) {
      assert minted[i] in minted;
      assert minted[i][..|prefix|] == prefix;
    }
    forall i | 0 <= i < from ensures !Matches(parts, minted[i]) {
      if StartsWith(minted[i], prefix) { PrefixNotAfter(minted[i], prefix); }
    }
    if at < |minted| {
      if from < at { AfterPrefix(minted[from], prefix, minted[at]); }
      forall i | at <= i < |minted| ensures !Matches(parts, minted[i]) {
        if i > at { PrefixRunEnds(prefix, minted[at], minted[i]); }
      }
    }
    MatchingNone(minted[..from], parts);
    MatchingNone(minted[at..], parts);
  }

  /** What comes after a key with the prefix is not before the prefix. */
  lemma AfterPrefix(row: Key, p: Key, later: Key)
    requires StartsWith(row, p) && Less(row, later)
    ensures !Less(later, p)
  {
    PrefixNotAfter(row, p);
    if Less(later, p) { Transitive(row, later, p); }
  }
}
