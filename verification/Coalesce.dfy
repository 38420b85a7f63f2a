/**
 Coalescing a live page. `Lasts` folds the page into a map from thread to last id, `Merged` looks each row up in it,
 and `CoalescePage` is the two passes that compute `Coalesced` this way.
 */
module Coalesce {
  import opened Common
  import opened Outbox

  type Key = (string, string)

  datatype Seen = Seen(id: nat, run: Option<string>)

  function KeyOf(note: Note): Key
    requires note.ThreadChanged?
  {
    (note.thread, note.coworker)
  }

  predicate Names(row: Row, key: Key) {
    row.note.ThreadChanged? && KeyOf(row.note) == key
  }

  /** Add one note to what is known of its thread. */
  function Noted(last: map<Key, Seen>, row: Row): map<Key, Seen> {
    if !row.note.ThreadChanged? then last
    else
      var key, run := KeyOf(row.note), row.note.run;
      last[key := Seen(row.id, if key in last && last[key].run != run then None else run)]
  }

  /** By thread, the highest id in `rows`, with a run only while no row contradicts it. */
  function Lasts(rows: seq<Row>): map<Key, Seen> {
    if rows == [] then map[] else Noted(Lasts(rows[..|rows| - 1]), rows[|rows| - 1])
  }

  function Merged(row: Row, last: map<Key, Seen>): Option<Row> {
    if !row.note.ThreadChanged? then Some(row)
    else
      var key := KeyOf(row.note);
      if key !in last || last[key].id != row.id then None
      else Some(row.(note := row.note.(run := last[key].run)))
  }

  function MergedAll(rows: seq<Row>, last: map<Key, Seen>): seq<Row> {
    if rows == [] then []
    else
      var first := Merged(rows[0], last);
      (if first.Some? then [first.value] else []) + MergedAll(rows[1..], last)
  }

  function Coalesced(rows: seq<Row>): seq<Row> {
    MergedAll(rows, Lasts(rows))
  }

  method FillLasts(rows: seq<Row>) returns (last: map<Key, Seen>)
    ensures last == Lasts(rows)
  {
    last := map[];
    for i := 0 to |rows|
      invariant last == Lasts(rows[..i])
    {
      assert rows[..i + 1][..i] == rows[..i];
      if rows[i].note.ThreadChanged? {
        var key, run := KeyOf(rows[i].note), rows[i].note.run;
        var seen := if key in last then last[key] else Seen(rows[i].id, run);
        last := last[key := Seen(rows[i].id, if seen.run == run then run else None)];
      }
    }
    assert rows[..|rows|] == rows;
  }

  /** The two passes: fill the map of last notes, then keep and rewrite. */
  method CoalescePage(rows: seq<Row>) returns (out: seq<Row>)
    ensures out == Coalesced(rows)
  {
    var last := FillLasts(rows);
    out := [];
    hide Merged;
    for i := 0 to |rows|
      invariant out + MergedAll(rows[i..], last) == MergedAll(rows, last)
    {
      assert rows[i..][1..] == rows[i + 1..];
      var kept := Merged(rows[i], last);
      if kept.Some? {
        out := out + [kept.value];
      }
    }
  }

  // ----- what the map says -------------------------------------------------------------------------

  predicate Increasing(rows: seq<Row>) {
    forall i, j :: 0 <= i < j < |rows| ==> rows[i].id < rows[j].id
  }

  /** Row `i` is its thread's last in the page. */
  predicate LastOfThread(rows: seq<Row>, i: nat)
    requires i < |rows| && rows[i].note.ThreadChanged?
  {
    forall j :: i < j < |rows| ==> !Names(rows[j], KeyOf(rows[i].note))
  }

  /** Every note of the thread in the page names `run`. */
  predicate AllName(rows: seq<Row>, key: Key, run: string) {
    forall i :: 0 <= i < |rows| && Names(rows[i], key) ==> rows[i].note.run == Some(run)
  }

  predicate Mentions(rows: seq<Row>, key: Key) {
    exists i :: 0 <= i < |rows| && Names(rows[i], key)
  }

  lemma {:induction false} LastsMeaning(rows: seq<Row>, key: Key)
    ensures key in Lasts(rows) <==> Mentions(rows, key)
    ensures key in Lasts(rows) ==>
              && (exists i :: 0 <= i < |rows| && Names(rows[i], key) && LastOfThread(rows, i) &&
                   rows[i].id == Lasts(rows)[key].id)
              && forall run :: Lasts(rows)[key].run == Some(run) <==> AllName(rows, key, run)
  {
    if rows != [] {
      var n := |rows| - 1;
      var before, row := rows[..n], rows[n];
      LastsMeaning(before, key);
      assert forall i :: 0 <= i < n ==> rows[i] == before[i];
      assert Mentions(rows, key) <==> Mentions(before, key) || Names(row, key) by {
        if Mentions(before, key) {
          var i :| 0 <= i < n && Names(before[i], key);
          assert Names(rows[i], key);
        }
      }
      assert rows == before + [row];
      AllNameStep(before, row, key);
      if Names(row, key) {
        assert LastOfThread(rows, n);
      } else if Mentions(before, key) {
        var i :| 0 <= i < n && Names(before[i], key) && LastOfThread(before, i) &&
          before[i].id == Lasts(before)[key].id;
        assert LastOfThread(rows, i);
      }
    }
  }

  lemma AllNameStep(before: seq<Row>, row: Row, key: Key)
    ensures forall run :: AllName(before + [row], key, run) <==>
            AllName(before, key, run) && (Names(row, key) ==> row.note.run == Some(run))
  {
    var rows := before + [row];
    forall run ensures AllName(rows, key, run) <==>
      AllName(before, key, run) && (Names(row, key) ==> row.note.run == Some(run)) {
      if AllName(rows, key, run) {
        assert forall i :: 0 <= i < |before| ==> before[i] == rows[i];
        assert rows[|before|] == row;
      }
    }
  }

  // ----- what is sent --------------------------------------------------------------------------------

  lemma {:induction false} MergedMembers(rows: seq<Row>, last: map<Key, Seen>, row: Row)
    ensures row in MergedAll(rows, last) <==> exists i :: 0 <= i < |rows| && Merged(rows[i], last) == Some(row)
  {
    if rows != [] {
      MergedMembers(rows[1..], last, row);
      if row in MergedAll(rows[1..], last) {
        var i :| 0 <= i < |rows[1..]| && Merged(rows[1..][i], last) == Some(row);
        assert Merged(rows[i + 1], last) == Some(row);
      }
      if exists i :: 0 <= i < |rows| && Merged(rows[i], last) == Some(row) {
        var i :| 0 <= i < |rows| && Merged(rows[i], last) == Some(row);
        assert i > 0 ==> rows[1..][i - 1] == rows[i];
      }
    }
  }

  lemma {:induction false} MergedIncreasing(rows: seq<Row>, last: map<Key, Seen>)
    requires Increasing(rows)
    ensures Increasing(MergedAll(rows, last))
    ensures forall k :: 0 <= k < |MergedAll(rows, last)| ==>
            exists i :: 0 <= i < |rows| && rows[i].id == MergedAll(rows, last)[k].id
  {
    if rows != [] {
      var rest := MergedAll(rows[1..], last);
      MergedIncreasing(rows[1..], last);
      forall k | 0 <= k < |rest|
        ensures rows[0].id < rest[k].id && exists i :: 0 <= i < |rows| && rows[i].id == rest[k].id {
        var i :| 0 <= i < |rows[1..]| && rows[1..][i].id == rest[k].id;
        assert rows[i + 1].id == rest[k].id;
      }
      var all := MergedAll(rows, last);
      var skip := |all| - |rest|;
      forall k | 0 <= k < |all| ensures exists i :: 0 <= i < |rows| && rows[i].id == all[k].id {
        if k < skip {
          assert rows[0].id == all[k].id;
        } else {
          assert all[k] == rest[k - skip];
        }
      }
    }
  }

  /** A note that is not a thread's is sent as it is, and a thread's only from its last position. */
  lemma WhatIsSent(rows: seq<Row>, i: nat)
    requires Increasing(rows) && i < |rows|
    ensures !rows[i].note.ThreadChanged? ==> rows[i] in Coalesced(rows)
    ensures rows[i].note.ThreadChanged? ==>
              (LastOfThread(rows, i) <==> exists row :: row in Coalesced(rows) && row.id == rows[i].id)
    ensures rows[i].note.ThreadChanged? && LastOfThread(rows, i) ==>
              exists run :: && rows[i].(note := rows[i].note.(run := run)) in Coalesced(rows)
                            && forall r :: run == Some(r) <==> AllName(rows, KeyOf(rows[i].note), r)
  {
    var last := Lasts(rows);
    MergedMembers(rows, last, rows[i]);
    assert !rows[i].note.ThreadChanged? ==> Merged(rows[i], last) == Some(rows[i]);
    if rows[i].note.ThreadChanged? {
      var key := KeyOf(rows[i].note);
      LastsMeaning(rows, key);
      assert Names(rows[i], key);
      var j :| 0 <= j < |rows| && Names(rows[j], key) && LastOfThread(rows, j) && rows[j].id == last[key].id;
      assert LastOfThread(rows, i) <==> i == j;
      if LastOfThread(rows, i) {
        var row := rows[i].(note := rows[i].note.(run := last[key].run));
        MergedMembers(rows, last, row);
        assert Merged(rows[i], last) == Some(row);
      }
      forall row | row in Coalesced(rows) && row.id == rows[i].id ensures LastOfThread(rows, i) {
        MergedMembers(rows, last, row);
        var k :| 0 <= k < |rows| && Merged(rows[k], last) == Some(row);
        assert k == i;
      }
    }
  }

  /** The page's own order is kept, and nothing is sent that the page did not hold. */
  lemma SentInOrder(rows: seq<Row>)
    requires Increasing(rows)
    ensures Increasing(Coalesced(rows))
    ensures forall k :: 0 <= k < |Coalesced(rows)| ==>
            exists i :: 0 <= i < |rows| && rows[i].id == Coalesced(rows)[k].id
  {
    MergedIncreasing(rows, Lasts(rows));
  }

  /** The page's last id always survives, so the client's last id is the stream's cursor. */
  lemma LastIdSurvives(rows: seq<Row>)
    requires Increasing(rows) && rows != []
    ensures var out := Coalesced(rows); out != [] && out[|out| - 1].id == rows[|rows| - 1].id
  {
    var n, out := |rows| - 1, Coalesced(rows);
    WhatIsSent(rows, n);
    SentInOrder(rows);
    if rows[n].note.ThreadChanged? {
      assert LastOfThread(rows, n);
    }
    var row :| row in out && row.id == rows[n].id;
    var k :| 0 <= k < |out| && out[k] == row;
    var i :| 0 <= i < |rows| && rows[i].id == out[|out| - 1].id;
    assert out[k].id <= out[|out| - 1].id && rows[i].id <= rows[n].id;
  }

  /** Every changed thread is heard of at or after the change. */
  lemma EveryThreadIsHeard(rows: seq<Row>, i: nat) returns (j: nat)
    requires Increasing(rows) && i < |rows| && rows[i].note.ThreadChanged?
    ensures i <= j < |rows| && Names(rows[j], KeyOf(rows[i].note))
    ensures exists row :: row in Coalesced(rows) && row.id == rows[j].id && Names(row, KeyOf(rows[i].note))
  {
    var key := KeyOf(rows[i].note);
    LastsMeaning(rows, key);
    assert Names(rows[i], key);
    j :| 0 <= j < |rows| && Names(rows[j], key) && LastOfThread(rows, j) && rows[j].id == Lasts(rows)[key].id;
    assert i <= j;
    WhatIsSent(rows, j);
    var run :| rows[j].(note := rows[j].note.(run := run)) in Coalesced(rows);
    assert Names(rows[j].(note := rows[j].note.(run := run)), key);
  }

  /**
   A client that received the first `m` notes of a page and reconnects from the last of them still hears of
   every thread the page changed: in what it received, or in the notes after its id.
   */
  lemma ReconnectLosesNoThread(rows: seq<Row>, m: nat, i: nat)
    requires Increasing(rows) && i < |rows| && rows[i].note.ThreadChanged? && 0 < m <= |Coalesced(rows)|
    ensures var out, key := Coalesced(rows), KeyOf(rows[i].note);
            || (exists k :: 0 <= k < m && Names(out[k], key) && out[k].id >= rows[i].id)
            || (exists j :: 0 <= j < |rows| && Names(rows[j], key) && rows[j].id >= rows[i].id &&
                 rows[j].id > out[m - 1].id)
  {
    var out := Coalesced(rows);
    var j := EveryThreadIsHeard(rows, i);
    var row :| row in out && row.id == rows[j].id && Names(row, KeyOf(rows[i].note));
    var k :| 0 <= k < |out| && out[k] == row;
    SentInOrder(rows);
    assert rows[j].id >= rows[i].id;
    if k < m {
      assert Names(out[k], KeyOf(rows[i].note));
    } else {
      assert out[m - 1].id < out[k].id;
    }
  }
}
