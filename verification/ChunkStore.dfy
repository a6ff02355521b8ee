/** The browser's chunk table. Every helper swallows failures, so whether an operation took effect is a parameter. */
module ChunkStore {
  import opened Slicing

  /** `data` is the IV followed by the ciphertext. */
  datatype Row = Row(id: Bytes, index: nat, data: Bytes)

  /** The rows of one transfer, in table order. */
  function Of(rows: seq<Row>, id: Bytes): seq<Row> {
    if rows == [] then []
    else
      var rest := Of(rows[..|rows| - 1], id);
      if rows[|rows| - 1].id == id then rest + [rows[|rows| - 1]] else rest
  }

  function Without(rows: seq<Row>, id: Bytes): seq<Row> {
    if rows == [] then []
    else
      var rest := Without(rows[..|rows| - 1], id);
      if rows[|rows| - 1].id == id then rest else rest + [rows[|rows| - 1]]
  }

  function Insert(sorted: seq<Row>, row: Row): (r: seq<Row>)
    ensures |r| == |sorted| + 1
  {
    if sorted == [] then [row]
    else if row.index < sorted[0].index then [row] + sorted
    else [sorted[0]] + Insert(sorted[1..], row)
  }

  /** `sortBy('chunkIndex')`; rows with equal indices stay in table order. */
  function SortByIndex(rows: seq<Row>): (r: seq<Row>)
    ensures |r| == |rows|
  {
    if rows == [] then [] else Insert(SortByIndex(rows[..|rows| - 1]), rows[|rows| - 1])
  }

  ghost predicate Ascending(rows: seq<Row>) {
    forall i, j :: 0 <= i < j < |rows| ==> rows[i].index <= rows[j].index
  }

  ghost predicate StrictlyAscending(rows: seq<Row>) {
    forall i, j :: 0 <= i < j < |rows| ==> rows[i].index < rows[j].index
  }

  ghost predicate DistinctIndices(rows: seq<Row>) {
    forall i, j :: 0 <= i < j < |rows| ==> rows[i].index != rows[j].index
  }

  lemma {:induction false} InsertContents(sorted: seq<Row>, row: Row)
    ensures multiset(Insert(sorted, row)) == multiset(sorted) + multiset{row}
  {
    if sorted == [] || row.index < sorted[0].index {
    } else {
      InsertContents(sorted[1..], row);
      assert sorted == [sorted[0]] + sorted[1..];
    }
  }

  lemma InsertMembers(sorted: seq<Row>, row: Row)
    ensures forall r :: r in Insert(sorted, row) <==> r in sorted || r == row
  {
    InsertContents(sorted, row);
    forall r ensures r in Insert(sorted, row) <==> r in sorted || r == row {
      assert r in multiset(Insert(sorted, row)) <==> r in multiset(sorted) || r == row;
    }
  }

  lemma ConsOrder(head: Row, tail: seq<Row>)
    requires forall r :: r in tail ==> head.index <= r.index
    ensures Ascending(tail) ==> Ascending([head] + tail)
    ensures StrictlyAscending(tail) && (forall r :: r in tail ==> head.index != r.index) ==>
            StrictlyAscending([head] + tail)
  {
    assert forall k :: 0 <= k < |tail| ==> tail[k] in tail;
  }

  lemma {:induction false} InsertKeepsOrder(sorted: seq<Row>, row: Row)
    requires Ascending(sorted)
    ensures Ascending(Insert(sorted, row))
    ensures StrictlyAscending(sorted) && (forall r :: r in sorted ==> r.index != row.index)
            ==> StrictlyAscending(Insert(sorted, row))
  {
    if sorted == [] {
    } else if row.index < sorted[0].index {
      ConsOrder(row, sorted);
    } else {
      InsertKeepsOrder(sorted[1..], row);
      InsertMembers(sorted[1..], row);
      ConsOrder(sorted[0], Insert(sorted[1..], row));
    }
  }

  /** Sorting is a permutation. */
  lemma {:induction false} SortMembers(rows: seq<Row>)
    ensures multiset(SortByIndex(rows)) == multiset(rows)
    ensures forall r :: r in SortByIndex(rows) <==> r in rows
  {
    if rows != [] {
      var n := |rows| - 1;
      SortMembers(rows[..n]);
      InsertContents(SortByIndex(rows[..n]), rows[n]);
      assert rows == rows[..n] + [rows[n]];
    }
    forall r ensures r in SortByIndex(rows) <==> r in rows {
      assert r in multiset(SortByIndex(rows)) <==> r in multiset(rows);
    }
  }

  /** Sorting gives ascending order, strictly so when no index occurs twice. */
  lemma {:induction false} SortOrders(rows: seq<Row>)
    ensures Ascending(SortByIndex(rows))
    ensures DistinctIndices(rows) ==> StrictlyAscending(SortByIndex(rows))
  {
    if rows != [] {
      var n := |rows| - 1;
      SortOrders(rows[..n]);
      SortMembers(rows[..n]);
      InsertKeepsOrder(SortByIndex(rows[..n]), rows[n]);
      if DistinctIndices(rows) {
        assert DistinctIndices(rows[..n]);
        forall r | r in SortByIndex(rows[..n]) ensures r.index != rows[n].index {
          assert r in rows[..n];
        }
      }
    }
  }

  lemma OfAppend(rows: seq<Row>, row: Row, id: Bytes)
    ensures Of(rows + [row], id) == if row.id == id then Of(rows, id) + [row] else Of(rows, id)
  {
    assert (rows + [row])[..|rows|] == rows;
  }

  /** Clearing one transfer empties it and touches no other. */
  lemma {:induction false} ClearIsLocal(rows: seq<Row>, id: Bytes, other: Bytes)
    ensures Of(Without(rows, id), id) == []
    ensures other != id ==> Of(Without(rows, id), other) == Of(rows, other)
  {
    if rows != [] {
      var n := |rows| - 1;
      ClearIsLocal(rows[..n], id, other);
      OfAppend(Without(rows[..n], id), rows[n], other);
      OfAppend(Without(rows[..n], id), rows[n], id);
    }
  }

  /** `db.chunks`. */
  class ChunkTable {
    var rows: seq<Row>

    constructor ()
      ensures rows == []
    {
      rows := [];
    }

    method SaveChunk(row: Row, ok: bool)
      modifies this
      ensures rows == if ok then old(rows) + [row] else old(rows)
    {
      if ok {
        rows := rows + [row];
      }
    }

    /** Exactly the transfer's rows, by index; a failing table looks empty. */
    method GetTransferChunks(id: Bytes, ok: bool) returns (chunks: seq<Row>)
      ensures ok ==> Ascending(chunks) && multiset(chunks) == multiset(Of(rows, id))
      ensures ok && DistinctIndices(Of(rows, id)) ==> StrictlyAscending(chunks)
      ensures chunks == if ok then SortByIndex(Of(rows, id)) else []
    {
      chunks := [];
      if ok {
        for i := 0 to |rows|
          invariant chunks == SortByIndex(Of(rows[..i], id))
        {
          assert rows[..i + 1] == rows[..i] + [rows[i]];
          OfAppend(rows[..i], rows[i], id);
          if rows[i].id == id {
            ghost var found := Of(rows[..i], id);
            assert (found + [rows[i]])[..|found|] == found;
            chunks := Insert(chunks, rows[i]);
          }
        }
        assert rows[..|rows|] == rows;
        SortMembers(Of(rows, id));
        SortOrders(Of(rows, id));
      }
    }

    method ClearTransferChunks(id: Bytes, ok: bool)
      modifies this
      ensures rows == if ok then Without(old(rows), id) else old(rows)
    {
      if ok {
        var kept: seq<Row> := [];
        for i := 0 to |rows|
          invariant rows == old(rows) && kept == Without(rows[..i], id)
        {
          assert rows[..i + 1][..i] == rows[..i];
          if rows[i].id != id {
            kept := kept + [rows[i]];
          }
        }
        assert rows[..|rows|] == rows;
        rows := kept;
      }
    }
  }
}
