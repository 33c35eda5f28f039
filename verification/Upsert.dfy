/** INSERT ... ON CONFLICT DO UPDATE, one row at a time and as one deduplicated statement. */
module Upsert {

  /** `merge(existing, excluded)` is the row left by DO UPDATE. */
  function UpsertOne<K, V>(table: map<K, V>, k: K, row: V, merge: (V, V) -> V): map<K, V> {
    table[k := if k in table then merge(table[k], row) else row]
  }

  /** The simple form: every row in order. */
  function UpsertEach<K, V>(table: map<K, V>, rows: seq<(K, V)>, merge: (V, V) -> V): map<K, V> {
    if rows == [] then table else
    var last := rows[|rows| - 1];
    UpsertOne(UpsertEach(table, rows[..|rows| - 1], merge), last.0, last.1, merge)
  }

  /** A dict filled in order: the last row of a key wins. */
  function LastWins<K, V>(rows: seq<(K, V)>): map<K, V> {
    if rows == [] then map[] else
    var last := rows[|rows| - 1];
    LastWins(rows[..|rows| - 1])[last.0 := last.1]
  }

  /** The batched form: all rows of the dict in one statement. */
  function UpsertAll<K, V>(table: map<K, V>, batch: map<K, V>, merge: (V, V) -> V): map<K, V> {
    map k | k in table.Keys + batch.Keys ::
      if k !in batch then table[k] else if k in table then merge(table[k], batch[k]) else batch[k]
  }

  lemma {:induction false} UpsertConcat<K, V>(table: map<K, V>, a: seq<(K, V)>, b: seq<(K, V)>, merge: (V, V) -> V)
    ensures UpsertEach(table, a + b, merge) == UpsertEach(UpsertEach(table, a, merge), b, merge)
  {
    if b == [] {
      assert a + b == a;
    } else {
      UpsertConcat(table, a, b[..|b| - 1], merge);
      assert (a + b)[..|a + b| - 1] == a + b[..|b| - 1];
    }
  }

  /** The dict has one entry per distinct key. */
  lemma {:induction false} LastWinsKeys<K, V>(rows: seq<(K, V)>)
    ensures LastWins(rows).Keys == set i | 0 <= i < |rows| :: rows[i].0
    ensures forall k :: k in LastWins(rows) ==> exists i :: 0 <= i < |rows| && rows[i] == (k, LastWins(rows)[k])
  {
    if rows != [] {
      var n := |rows| - 1;
      LastWinsKeys(rows[..n]);
      forall k | k in LastWins(rows) ensures exists i :: 0 <= i < |rows| && rows[i] == (k, LastWins(rows)[k]) {
        if k == rows[n].0 {
          assert rows[n] == (k, LastWins(rows)[k]);
        } else {
          var i :| 0 <= i < n && rows[..n][i] == (k, LastWins(rows[..n])[k]);
          assert rows[i] == (k, LastWins(rows)[k]);
        }
      }
      forall k ensures k in LastWins(rows) <==> k in set i | 0 <= i < |rows| :: rows[i].0 {
        if k in LastWins(rows[..n]) {
          var i :| 0 <= i < n && rows[..n][i].0 == k;
          assert rows[i].0 == k;
        }
      }
    }
  }

  lemma OneMore<K, V(!new)>(table: map<K, V>, batch: map<K, V>, k: K, row: V, merge: (V, V) -> V)
    requires k in batch ==> merge(batch[k], row) == row && forall t :: merge(merge(t, batch[k]), row) == merge(t, row)
    ensures UpsertAll(table, batch[k := row], merge) == UpsertOne(UpsertAll(table, batch, merge), k, row, merge)
  {
  }

  /**
   When an update overwrites whatever an earlier row of the batch would have left, deduplicating
   and upserting once gives the table of upserting every row in order.
   */
  lemma {:induction false} BatchEqualsEach<K, V(!new)>(table: map<K, V>, rows: seq<(K, V)>, merge: (V, V) -> V)
    requires forall t, a, b :: merge(merge(t, a), b) == merge(t, b)
    requires forall i, j :: 0 <= i < |rows| && 0 <= j < |rows| ==> merge(rows[i].1, rows[j].1) == rows[j].1
    ensures UpsertAll(table, LastWins(rows), merge) == UpsertEach(table, rows, merge)
  {
    if rows != [] {
      var n := |rows| - 1;
      BatchEqualsEach(table, rows[..n], merge);
      LastWinsKeys(rows[..n]);
      var before, last := LastWins(rows[..n]), rows[n];
      if last.0 in before {
        var i :| 0 <= i < n && rows[..n][i] == (last.0, before[last.0]);
        assert merge(rows[i].1, rows[n].1) == rows[n].1;
      }
      OneMore(table, before, last.0, last.1, merge);
    }
  }
}
