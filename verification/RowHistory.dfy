/**
  The history of one catalogue row during a sync, reduced to what each channel does to it:
  offer it (write it whether or not it is active) or merely price it (write it if it is).
 */
module RowHistory {
  import opened Basics
  import opened Pricing

  datatype Row = Row(active: bool, channel: int, price: Option<Price>, billingMode: string)

  /** row is what the channel writes if it writes. */
  datatype Impact = Impact(offers: bool, prices: bool, row: Row)

  predicate Active(row: Option<Row>) {
    row.Some? && row.value.active
  }

  function Inactive(row: Option<Row>): Option<Row> {
    if row.Some? then Some(row.value.(active := false)) else None
  }

  function Apply(i: Impact, row: Option<Row>): Option<Row> {
    if i.offers || (Active(row) && i.prices) then Some(i.row) else row
  }

  function Replay(start: Option<Row>, impacts: seq<Impact>): Option<Row> {
    if |impacts| == 0 then start else Apply(impacts[|impacts| - 1], Replay(start, impacts[..|impacts| - 1]))
  }

  lemma ReplayNext(start: Option<Row>, impacts: seq<Impact>, j: nat)
    requires j < |impacts|
    ensures Replay(start, impacts[..j + 1]) == Apply(impacts[j], Replay(start, impacts[..j]))
  {
    assert impacts[..j + 1][..j] == impacts[..j];
  }

  predicate WritesActive(impacts: seq<Impact>) {
    forall i :: 0 <= i < |impacts| ==> impacts[i].row.active
  }

  /** Active by the start or by one of the first j channels. */
  predicate Alive(start: Option<Row>, impacts: seq<Impact>, j: nat)
    requires j <= |impacts|
  {
    Active(start) || exists i :: 0 <= i < j && impacts[i].offers
  }

  /** Channel j writes the row. */
  predicate Writes(start: Option<Row>, impacts: seq<Impact>, j: nat)
    requires j < |impacts|
  {
    impacts[j].offers || (Alive(start, impacts, j) && impacts[j].prices)
  }

  lemma {:induction false} ReplayActive(start: Option<Row>, impacts: seq<Impact>)
    requires WritesActive(impacts)
    ensures Active(Replay(start, impacts)) <==> Alive(start, impacts, |impacts|)
  {
    if |impacts| > 0 {
      var n := |impacts| - 1;
      ReplayActive(start, impacts[..n]);
      assert Alive(start, impacts[..n], n) <==> Alive(start, impacts, n);
      assert Alive(start, impacts, n) ==> Alive(start, impacts, n + 1);
    }
  }

  lemma AlivePrefix(start: Option<Row>, impacts: seq<Impact>, n: nat, j: nat)
    requires j <= n <= |impacts|
    ensures Alive(start, impacts[..n], j) <==> Alive(start, impacts, j)
  {
    assert forall i :: 0 <= i < j ==> impacts[..n][i] == impacts[i];
  }

  /** The row is what the last channel that writes it wrote. */
  lemma {:induction false} LastWriter(start: Option<Row>, impacts: seq<Impact>, w: nat)
    requires WritesActive(impacts) && w < |impacts| && Writes(start, impacts, w)
    requires forall i :: w < i < |impacts| ==> !Writes(start, impacts, i)
    ensures Replay(start, impacts) == Some(impacts[w].row)
  {
    var n := |impacts| - 1;
    ReplayActive(start, impacts[..n]);
    AlivePrefix(start, impacts, n, n);
    if w < n {
      forall i | w <= i < n ensures Writes(start, impacts[..n], i) <==> Writes(start, impacts, i) {
        AlivePrefix(start, impacts, n, i);
      }
      LastWriter(start, impacts[..n], w);
      assert !Writes(start, impacts, n);
    }
  }

  lemma {:induction false} NoWriter(start: Option<Row>, impacts: seq<Impact>)
    requires WritesActive(impacts) && forall i :: 0 <= i < |impacts| ==> !Writes(start, impacts, i)
    ensures Replay(start, impacts) == start
  {
    if |impacts| > 0 {
      var n := |impacts| - 1;
      ReplayActive(start, impacts[..n]);
      AlivePrefix(start, impacts, n, n);
      forall i | 0 <= i < n ensures !Writes(start, impacts[..n], i) {
        AlivePrefix(start, impacts, n, i);
        assert !Writes(start, impacts, i);
      }
      NoWriter(start, impacts[..n]);
      assert !Writes(start, impacts, n);
    }
  }

  /** From two inactive starts the row ends the same and active, or as it started in both. */
  lemma {:induction false} StartForgotten(a: Option<Row>, b: Option<Row>, impacts: seq<Impact>)
    requires WritesActive(impacts) && !Active(a) && !Active(b)
    ensures
      || (Replay(a, impacts) == Replay(b, impacts) && Active(Replay(a, impacts)))
      || (Replay(a, impacts) == a && Replay(b, impacts) == b)
  {
    if |impacts| > 0 {
      StartForgotten(a, b, impacts[..|impacts| - 1]);
    }
  }
}
