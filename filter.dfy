/**
 The period filter `apply_filter`: the rows of a Kinerja_Keuangan or
 Rasio_Keuangan table whose `Tahun` is the selected year and whose `Bulan` is
 the selected month, in table order. The boolean mask of the source is a
 stable selection; here it is a function over the sequence of rows, with its
 meaning stated as lemmas: which rows it keeps and how often, that it keeps
 their order, that it is idempotent, and which row comes first.
 */
module Filter {
  import opened Tables

  /** The mask of one row: its year and its month both equal the selection. */
  predicate Matches<M>(row: Row<M>, tahun: int, bulan: string)
  {
    row.Tahun == tahun && row.Bulan == bulan
  }

  /** The rows of the table that pass the year-and-month mask, in table order. */
  function ApplyFilter<M>(df: seq<Row<M>>, tahun: int, bulan: string): (r: seq<Row<M>>)
    ensures |r| <= |df|
    ensures forall row :: row in r ==> row in df && Matches(row, tahun, bulan)
  {
    if df == [] then []
    else (if Matches(df[0], tahun, bulan) then [df[0]] else []) + ApplyFilter(df[1..], tahun, bulan)
  }

  /** `a` is `b` with some elements left out and the rest in their order. */
  predicate IsSubsequence<T(==)>(a: seq<T>, b: seq<T>)
    decreases |b|
  {
    a == [] || (b != [] && ((a[0] == b[0] && IsSubsequence(a[1..], b[1..])) || IsSubsequence(a, b[1..])))
  }

  /** A subsequence holds each element at most as often as the sequence it is taken from. */
  lemma {:induction false} SubsequenceMultiset<T>(a: seq<T>, b: seq<T>)
    requires IsSubsequence(a, b)
    ensures multiset(a) <= multiset(b)
    decreases |b|
  {
    if a != [] {
      assert b == [b[0]] + b[1..];
      if a[0] == b[0] && IsSubsequence(a[1..], b[1..]) {
        SubsequenceMultiset(a[1..], b[1..]);
        assert a == [a[0]] + a[1..];
      } else {
        SubsequenceMultiset(a, b[1..]);
      }
    }
  }

  /** Every matching row is kept as often as the table holds it; no other row is kept. */
  lemma {:induction false} FilterCount<M>(df: seq<Row<M>>, tahun: int, bulan: string, row: Row<M>)
    ensures multiset(ApplyFilter(df, tahun, bulan))[row]
            == if Matches(row, tahun, bulan) then multiset(df)[row] else 0
  {
    if df != [] {
      FilterCount(df[1..], tahun, bulan, row);
      assert df == [df[0]] + df[1..];
    }
  }

  /** A row is in the selection exactly when it is in the table and has the selected period. */
  lemma FilterMembership<M>(df: seq<Row<M>>, tahun: int, bulan: string, row: Row<M>)
    ensures row in ApplyFilter(df, tahun, bulan) <==> row in df && Matches(row, tahun, bulan)
  {
    FilterCount(df, tahun, bulan, row);
    assert row in ApplyFilter(df, tahun, bulan) <==> multiset(ApplyFilter(df, tahun, bulan))[row] > 0;
    assert row in df <==> multiset(df)[row] > 0;
  }

  /** A year or month that no row has gives an empty table, and only then. */
  lemma FilterEmpty<M>(df: seq<Row<M>>, tahun: int, bulan: string)
    ensures ApplyFilter(df, tahun, bulan) == [] <==> forall row :: row in df ==> !Matches(row, tahun, bulan)
  {
    if ApplyFilter(df, tahun, bulan) != [] {
      var row := ApplyFilter(df, tahun, bulan)[0];
      assert row in ApplyFilter(df, tahun, bulan);
    } else {
      forall row | row in df ensures !Matches(row, tahun, bulan) {
        FilterMembership(df, tahun, bulan, row);
      }
    }
  }

  /** The selection keeps the table's order: it is a subsequence of the table. */
  lemma {:induction false} FilterIsSubsequence<M>(df: seq<Row<M>>, tahun: int, bulan: string)
    ensures IsSubsequence(ApplyFilter(df, tahun, bulan), df)
  {
    if df != [] {
      FilterIsSubsequence(df[1..], tahun, bulan);
      var r := ApplyFilter(df, tahun, bulan);
      if Matches(df[0], tahun, bulan) {
        assert r[0] == df[0] && r[1..] == ApplyFilter(df[1..], tahun, bulan);
      } else {
        assert r == ApplyFilter(df[1..], tahun, bulan);
      }
    }
  }

  /** Filtering an already filtered table with the same year and month changes nothing. */
  lemma {:induction false} FilterIdempotent<M>(df: seq<Row<M>>, tahun: int, bulan: string)
    ensures ApplyFilter(ApplyFilter(df, tahun, bulan), tahun, bulan) == ApplyFilter(df, tahun, bulan)
  {
    if df != [] {
      FilterIdempotent(df[1..], tahun, bulan);
      var rest := ApplyFilter(df[1..], tahun, bulan);
      if Matches(df[0], tahun, bulan) {
        assert ApplyFilter(df, tahun, bulan) == [df[0]] + rest;
        assert ([df[0]] + rest)[1..] == rest;
      } else {
        assert ApplyFilter(df, tahun, bulan) == rest;
      }
    }
  }

  /** The selection of two stacked tables is the two selections stacked in the same order. */
  lemma {:induction false} FilterConcat<M>(a: seq<Row<M>>, b: seq<Row<M>>, tahun: int, bulan: string)
    ensures ApplyFilter(a + b, tahun, bulan) == ApplyFilter(a, tahun, bulan) + ApplyFilter(b, tahun, bulan)
  {
    if a == [] {
      assert a + b == b;
    } else {
      var head := if Matches(a[0], tahun, bulan) then [a[0]] else [];
      calc {
        ApplyFilter(a + b, tahun, bulan);
        { assert (a + b)[0] == a[0] && (a + b)[1..] == a[1..] + b; }
        head + ApplyFilter(a[1..] + b, tahun, bulan);
        { FilterConcat(a[1..], b, tahun, bulan); }
        head + (ApplyFilter(a[1..], tahun, bulan) + ApplyFilter(b, tahun, bulan));
        (head + ApplyFilter(a[1..], tahun, bulan)) + ApplyFilter(b, tahun, bulan);
      }
    }
  }

  /**
   The selection is the only subsequence of the table that holds nothing but
   matching rows and every matching row as often as the table does: the
   filter is fully determined by membership, multiplicity and order.
   */
  lemma {:induction false} FilterUnique<M>(df: seq<Row<M>>, tahun: int, bulan: string, r: seq<Row<M>>)
    requires IsSubsequence(r, df)
    requires forall row :: row in r ==> Matches(row, tahun, bulan)
    requires forall row :: Matches(row, tahun, bulan) ==> multiset(r)[row] == multiset(df)[row]
    ensures r == ApplyFilter(df, tahun, bulan)
    decreases |df|
  {
    if df == [] {
      assert r == [];
    } else {
      var d, t := df[0], df[1..];
      assert df == [d] + t;
      if Matches(d, tahun, bulan) {
        assert multiset(r)[d] == multiset(t)[d] + 1;
        if r == [] {
          assert false;
        }
        if r[0] == d && IsSubsequence(r[1..], t) {
          assert r == [d] + r[1..];
          forall row | Matches(row, tahun, bulan)
            ensures multiset(r[1..])[row] == multiset(t)[row]
          {
          }
          FilterUnique(t, tahun, bulan, r[1..]);
        } else {
          assert IsSubsequence(r, t);
          SubsequenceMultiset(r, t);
          assert false;
        }
      } else {
        if r != [] && r[0] == d {
          assert false;
        }
        assert IsSubsequence(r, t);
        forall row | Matches(row, tahun, bulan)
          ensures multiset(r)[row] == multiset(t)[row]
        {
        }
        FilterUnique(t, tahun, bulan, r);
      }
    }
  }

  /** `i` is the position of the first row of the table with the selected period. */
  predicate IsFirstMatch<M>(df: seq<Row<M>>, i: int, tahun: int, bulan: string)
  {
    0 <= i < |df| && Matches(df[i], tahun, bulan)
    && forall j :: 0 <= j < i ==> !Matches(df[j], tahun, bulan)
  }

  /**
   The selection is non-empty exactly when some row has the selected period,
   and then its first row (what `iloc[0]` reads) is the first such row of the table.
   */
  lemma {:induction false} FilterHead<M>(df: seq<Row<M>>, tahun: int, bulan: string)
    ensures ApplyFilter(df, tahun, bulan) != [] <==> exists i :: IsFirstMatch(df, i, tahun, bulan)
    ensures forall i :: IsFirstMatch(df, i, tahun, bulan) ==> ApplyFilter(df, tahun, bulan)[0] == df[i]
  {
    if df == [] {
    } else if Matches(df[0], tahun, bulan) {
      assert IsFirstMatch(df, 0, tahun, bulan);
      forall i | IsFirstMatch(df, i, tahun, bulan) ensures i == 0 {
      }
    } else {
      var t := df[1..];
      FilterHead(t, tahun, bulan);
      assert ApplyFilter(df, tahun, bulan) == ApplyFilter(t, tahun, bulan);
      forall i | IsFirstMatch(df, i, tahun, bulan)
        ensures i > 0 && IsFirstMatch(t, i - 1, tahun, bulan)
      {
        forall j | 0 <= j < i - 1 ensures !Matches(t[j], tahun, bulan) {
          assert t[j] == df[j + 1];
        }
      }
      forall i | IsFirstMatch(t, i, tahun, bulan)
        ensures IsFirstMatch(df, i + 1, tahun, bulan)
      {
        forall j | 0 <= j < i + 1 ensures !Matches(df[j], tahun, bulan) {
          if j > 0 {
            assert df[j] == t[j - 1];
          }
        }
      }
    }
  }
}
