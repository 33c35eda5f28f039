/** The dict of rows that a request naming spans of days is turned into before one upsert. */
module Spans {
  import opened Base
  import opened Upsert

  /** Inclusive dates, and the key and row of each day. */
  datatype Span<K, V> = Span(start: Date, end: Date, row: Date -> (K, V))

  /** The rows of one span from its start up to, not including, `stop`. */
  function DayRows<K, V>(g: Span<K, V>, stop: Date): seq<(K, V)> {
    seq(if stop < g.start then 0 else stop - g.start, i => g.row(g.start + i))
  }

  /** The rows of all spans, in order. */
  function AllRows<K, V>(spans: seq<Span<K, V>>): seq<(K, V)> {
    if spans == [] then [] else
    var last := spans[|spans| - 1];
    AllRows(spans[..|spans| - 1]) + DayRows(last, last.end + 1)
  }

  /** A dict iterates over its keys in the order in which they first came. */
  datatype Dict<K, V> = Dict(order: seq<K>, rows: map<K, V>)

  function FirstSeen<K(==), V>(rows: seq<(K, V)>): seq<K> {
    if rows == [] then [] else
    var seen, k := FirstSeen(rows[..|rows| - 1]), rows[|rows| - 1].0;
    if k in seen then seen else seen + [k]
  }

  function DictOf<K(==), V>(rows: seq<(K, V)>): Dict<K, V> {
    Dict(FirstSeen(rows), LastWins(rows))
  }

  /** The order lists each key of the dict once. */
  lemma {:induction false} OrderListsKeys<K, V>(rows: seq<(K, V)>)
    ensures Distinct(FirstSeen(rows)) && forall k :: k in FirstSeen(rows) <==> k in LastWins(rows)
    ensures |FirstSeen(rows)| == |LastWins(rows)|
  {
    if rows != [] {
      var before := rows[..|rows| - 1];
      OrderListsKeys(before);
      var k := rows[|rows| - 1].0;
      if k in LastWins(before) {
        assert LastWins(rows).Keys == LastWins(before).Keys;
      } else {
        assert LastWins(rows).Keys == LastWins(before).Keys + {k};
      }
    }
  }

  function Enter<K(==), V>(dict: Dict<K, V>, k: K, row: V): Dict<K, V> {
    Dict(if k in dict.rows then dict.order else dict.order + [k], dict.rows[k := row])
  }

  lemma EnterAppends<K, V>(rows: seq<(K, V)>, k: K, row: V)
    ensures DictOf(rows + [(k, row)]) == Enter(DictOf(rows), k, row)
  {
    OrderListsKeys(rows);
    assert (rows + [(k, row)])[..|rows|] == rows;
  }

  /** Adds the rows of one span, day by day. */
  method AddSpan<K(==), V>(dict: Dict<K, V>, ghost before: seq<(K, V)>, g: Span<K, V>) returns (out: Dict<K, V>)
    requires dict == DictOf(before)
    ensures out == DictOf(before + DayRows(g, g.end + 1))
  {
    out := dict;
    var d := g.start;
    assert before + DayRows(g, d) == before;
    while d <= g.end
      invariant g.start <= d && (d <= g.end + 1 || d == g.start)
      invariant out == DictOf(before + DayRows(g, d))
    {
      var (k, row) := g.row(d);
      EnterAppends(before + DayRows(g, d), k, row);
      assert before + DayRows(g, d) + [(k, row)] == before + DayRows(g, d + 1);
      out := Enter(out, k, row);
      d := d + 1;
    }
    assert DayRows(g, d) == DayRows(g, g.end + 1);
  }
}
