/** The two metrics above the cards, computed on the table's `Places` and
    `Statut` columns: `df['Places'].sum()` and
    `len(df[df['Statut'] == '✅ Ouvert'])`. */
module Summary {
  import opened Scrape

  /** One table row, reduced to the two columns the metrics read. */
  datatype Row = Row(places: nat, statut: string)

  function Sum(xs: seq<nat>): (total: nat) {
    if xs == [] then 0 else xs[0] + Sum(xs[1..])
  }

  /** The `Places` column. */
  function PlacesColumn(rows: seq<Row>): (col: seq<nat>)
    ensures |col| == |rows|
    ensures forall i :: 0 <= i < |rows| ==> col[i] == rows[i].places
  {
    if rows == [] then [] else [rows[0].places] + PlacesColumn(rows[1..])
  }

  /** `pd.DataFrame(cached_data).T`, reduced to the two
      columns: one row per snapshot entry, in the snapshot's order. */
  function Table<R>(d: seq<(string, R)>, row: R -> Row): (rows: seq<Row>)
    ensures |rows| == |d|
    ensures forall i :: 0 <= i < |d| ==> rows[i] == row(d[i].1)
  {
    if d == [] then [] else [row(d[0].1)] + Table(d[1..], row)
  }

  /** `df['Places'].sum()`. */
  function TotalPlaces(rows: seq<Row>): (total: nat) {
    Sum(PlacesColumn(rows))
  }

  /** `df[df['Statut'] == '✅ Ouvert']`: the open rows, in order. */
  function OpenRows(rows: seq<Row>): (r: seq<Row>)
    ensures |r| <= |rows|
    ensures forall i :: 0 <= i < |r| ==> r[i].statut == Open
  {
    if rows == [] then []
    else if rows[0].statut == Open then [rows[0]] + OpenRows(rows[1..])
    else OpenRows(rows[1..])
  }

  /** `len(df[df['Statut'] == '✅ Ouvert'])`. */
  function OpenCount(rows: seq<Row>): (count: nat) {
    |OpenRows(rows)|
  }

  /** The filter keeps exactly the open rows. */
  lemma {:induction false} OpenRowsKeepsOpen(rows: seq<Row>, x: Row)
    ensures x in OpenRows(rows) <==> x in rows && x.statut == Open
  {
    if rows != [] {
      OpenRowsKeepsOpen(rows[1..], x);
      assert rows == [rows[0]] + rows[1..];
    }
  }

  lemma {:induction false} SumAppend(xs: seq<nat>, ys: seq<nat>)
    ensures Sum(xs + ys) == Sum(xs) + Sum(ys)
  {
    if xs == [] {
      assert xs + ys == ys;
    } else {
      assert (xs + ys)[0] == xs[0];
      assert (xs + ys)[1..] == xs[1..] + ys;
      SumAppend(xs[1..], ys);
    }
  }

  lemma {:induction false} OpenRowsAppend(a: seq<Row>, b: seq<Row>)
    ensures OpenRows(a + b) == OpenRows(a) + OpenRows(b)
  {
    if a == [] {
      assert a + b == b;
    } else {
      assert (a + b)[0] == a[0];
      assert (a + b)[1..] == a[1..] + b;
      OpenRowsAppend(a[1..], b);
    }
  }

  lemma {:induction false} PlacesColumnAppend(a: seq<Row>, b: seq<Row>)
    ensures PlacesColumn(a + b) == PlacesColumn(a) + PlacesColumn(b)
  {
    if a == [] {
      assert a + b == b;
    } else {
      assert (a + b)[0] == a[0];
      assert (a + b)[1..] == a[1..] + b;
      PlacesColumnAppend(a[1..], b);
    }
  }

  lemma MetricsAppend(a: seq<Row>, b: seq<Row>)
    ensures TotalPlaces(a + b) == TotalPlaces(a) + TotalPlaces(b)
    ensures OpenCount(a + b) == OpenCount(a) + OpenCount(b)
  {
    PlacesColumnAppend(a, b);
    SumAppend(PlacesColumn(a), PlacesColumn(b));
    OpenRowsAppend(a, b);
  }

  /** Taking row j out of a table takes away exactly that row's share of each metric. */
  lemma MetricsRemove(b: seq<Row>, j: nat)
    requires j < |b|
    ensures TotalPlaces(b) == TotalPlaces([b[j]]) + TotalPlaces(b[..j] + b[j + 1..])
    ensures OpenCount(b) == OpenCount([b[j]]) + OpenCount(b[..j] + b[j + 1..])
  {
    assert b == b[..j] + ([b[j]] + b[j + 1..]);
    MetricsAppend(b[..j], [b[j]] + b[j + 1..]);
    MetricsAppend([b[j]], b[j + 1..]);
    MetricsAppend(b[..j], b[j + 1..]);
  }

  lemma MultisetRemove(a: seq<Row>, b: seq<Row>, j: nat)
    requires a != [] && j < |b| && b[j] == a[0]
    requires multiset(a) == multiset(b)
    ensures multiset(a[1..]) == multiset(b[..j] + b[j + 1..])
  {
    assert a == [a[0]] + a[1..];
    assert b == b[..j] + [b[j]] + b[j + 1..];
    assert multiset(a[1..]) == multiset(a) - multiset{a[0]};
    assert multiset(b[..j] + b[j + 1..]) == multiset(b[..j]) + multiset(b[j + 1..]);
    assert multiset(b[..j] + b[j + 1..]) == multiset(b) - multiset{b[j]};
  }

  /** Reordering the rows, as the sort by `Places` before the metrics does,
      changes neither metric. */
  lemma {:induction false} MetricsPermutation(a: seq<Row>, b: seq<Row>)
    requires multiset(a) == multiset(b)
    ensures TotalPlaces(a) == TotalPlaces(b)
    ensures OpenCount(a) == OpenCount(b)
  {
    if a == [] {
      assert |b| == |multiset(b)| == 0;
    } else {
      assert a[0] in multiset(b);
      var j :| 0 <= j < |b| && b[j] == a[0];
      var rest := b[..j] + b[j + 1..];
      MultisetRemove(a, b, j);
      MetricsPermutation(a[1..], rest);
      MetricsRemove(b, j);
      assert a == [a[0]] + a[1..];
      MetricsAppend([a[0]], a[1..]);
    }
  }

  predicate ZeroUnlessOpen(rows: seq<Row>) {
    forall i :: 0 <= i < |rows| ==> (rows[i].places != 0 ==> rows[i].statut == Open)
  }

  /** Where only open rows can have places, closed, unknown and failed
      facilities add nothing to the total. */
  lemma {:induction false} TotalIsOpenTotal(rows: seq<Row>)
    requires ZeroUnlessOpen(rows)
    ensures TotalPlaces(rows) == TotalPlaces(OpenRows(rows))
  {
    if rows != [] {
      assert ZeroUnlessOpen(rows[1..]) by {
        forall i | 0 <= i < |rows| - 1 ensures rows[1..][i] == rows[i + 1] { }
      }
      TotalIsOpenTotal(rows[1..]);
      assert PlacesColumn(rows)[1..] == PlacesColumn(rows[1..]);
      if rows[0].statut == Open {
        assert PlacesColumn(OpenRows(rows))[1..] == PlacesColumn(OpenRows(rows[1..]));
      }
    }
  }
}
