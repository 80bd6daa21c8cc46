/** The data steps of `load_and_process_data` (dashboard_app.py): the
    year-over-year inflation column on the CPI series, the inner join with the
    wage series, the base CPI, the real-wage column and the final `dropna`.
    A date is an integer ordinal; a cell is a `Num` (`None` is NaN). */
module Frames {
  import opened Nan
  import opened Seqs

  /** The lag of the year-over-year change, in rows of a monthly series. */
  const YearLag: nat := 12

  /** One parsed row of an input CSV: the DATE index and its single value. */
  datatype Obs = Obs(date: int, value: Num)

  /** A row of the CPI frame once its inflation column has been added. */
  datatype CpiRow = CpiRow(date: int, cpi: Num, inflation: Num)

  /** A row of the merged frame: CPI, inflation, wage and real wage. */
  datatype Row = Row(date: int, cpi: Num, inflation: Num, wage: Num, realWage: Num)

  /** A merged frame. `hasRealWage` says whether the real-wage column has been
      added; when it has not, the `realWage` cells are not part of the frame. */
  datatype Table = Table(hasRealWage: bool, rows: seq<Row>)

  /** An empty pandas frame: no columns and no rows. */
  const Empty := Table(false, [])

  // Strictly increasing dates, one predicate per row type: `Obs`, `CpiRow`
  // and `Row` are distinct datatypes, and stating the order directly on
  // `s[i].date` keeps the quantifier's trigger on the sequence index, which
  // the proofs about the join and the filter rely on. `Seqs.Increasing` is the
  // same order on a bare date column, used only for counting distinct dates.
  predicate AscendingObs(s: seq<Obs>)
  {
    forall i, j :: 0 <= i < j < |s| ==> s[i].date < s[j].date
  }

  predicate AscendingCpi(s: seq<CpiRow>)
  {
    forall i, j :: 0 <= i < j < |s| ==> s[i].date < s[j].date
  }

  predicate Ascending(rows: seq<Row>)
  {
    forall i, j :: 0 <= i < j < |rows| ==> rows[i].date < rows[j].date
  }

  /** Every CPI value that is present is positive (no division by zero). */
  predicate PositivePrices(s: seq<Obs>)
  {
    forall i :: 0 <= i < |s| && s[i].value.Some? ==> s[i].value.value > 0.0
  }

  predicate PositiveCpi(rows: seq<Row>)
  {
    forall k :: 0 <= k < |rows| && rows[k].cpi.Some? ==> rows[k].cpi.value > 0.0
  }

  function Values(s: seq<Obs>): (r: seq<Num>)
    ensures |r| == |s| && forall i :: 0 <= i < |s| ==> r[i] == s[i].value
  {
    seq(|s|, i requires 0 <= i < |s| => s[i].value)
  }

  function Nans(n: nat): (r: seq<Num>)
    ensures |r| == n && forall i :: 0 <= i < n ==> r[i].None?
  {
    seq(n, _ => None)
  }

  // ---------------------------------------------------------------------
  // Step 1: year-over-year inflation on the CPI series alone
  // ---------------------------------------------------------------------

  /** `Series.shift(n)`: each cell moves `n` rows later; the first `n` are NaN. */
  function Shift(s: seq<Num>, n: nat): (r: seq<Num>)
    ensures |r| == |s|
    ensures forall i :: 0 <= i < |s| ==> r[i] == (if i < n then None else s[i - n])
  {
    if |s| <= n then Nans(|s|) else Nans(n) + s[..|s| - n]
  }

  /** `Series.pct_change(periods)`, with a missing cell giving NaN: `s / s.shift(periods) - 1`. */
  function PctChange(s: seq<Num>, periods: nat): (r: seq<Num>)
    requires forall i :: 0 <= i < |s| && s[i].Some? ==> s[i].value > 0.0
    ensures |r| == |s|
  {
    var prior := Shift(s, periods);
    seq(|s|, i requires 0 <= i < |s| => Sub(Div(s[i], prior[i]), Some(1.0)))
  }

  /** The CPI frame once its inflation column is added: the 12-row percent
      change of CPI, times 100, computed on the CPI series alone (dashboard_app.py:35). */
  function WithInflation(cpi: seq<Obs>): (r: seq<CpiRow>)
    requires PositivePrices(cpi)
    ensures |r| == |cpi|
    ensures forall i :: 0 <= i < |cpi| ==> r[i].date == cpi[i].date && r[i].cpi == cpi[i].value
  {
    var yoy := PctChange(Values(cpi), YearLag);
    seq(|cpi|, i requires 0 <= i < |cpi| => CpiRow(cpi[i].date, cpi[i].value, Mul(yoy[i], Some(100.0))))
  }

  /** The documented inflation formula: (CPI now / CPI a year ago - 1) * 100. */
  function YearOverYear(now: real, yearAgo: real): real
    requires yearAgo != 0.0
  {
    (now / yearAgo - 1.0) * 100.0
  }

  /** The inflation at CPI row `i` is (CPI[i] / CPI[i-12] - 1) * 100, counted in
      CPI rows; it is missing for the first twelve rows and where either CPI is missing. */
  lemma InflationAt(cpi: seq<Obs>, i: int)
    requires PositivePrices(cpi) && 0 <= i < |cpi|
    ensures WithInflation(cpi)[i].inflation.Some? <==>
      i >= YearLag && cpi[i].value.Some? && cpi[i - YearLag].value.Some?
    ensures WithInflation(cpi)[i].inflation.Some? ==>
      WithInflation(cpi)[i].inflation.value == YearOverYear(cpi[i].value.value, cpi[i - YearLag].value.value)
  {
  }

  lemma WithInflationAscending(cpi: seq<Obs>)
    requires PositivePrices(cpi) && AscendingObs(cpi)
    ensures AscendingCpi(WithInflation(cpi))
  {
  }

  // ---------------------------------------------------------------------
  // Step 2: inner join on the date index
  // ---------------------------------------------------------------------

  /** The value the wage series holds at date `d`, if it has that date. */
  function Lookup(s: seq<Obs>, d: int): (r: Option<Num>)
    ensures r.None? <==> forall j :: 0 <= j < |s| ==> s[j].date != d
    ensures r.Some? ==> exists j :: 0 <= j < |s| && s[j].date == d && s[j].value == r.value
  {
    if s == [] then None
    else if s[0].date == d then Some(s[0].value)
    else Lookup(s[1..], d)
  }

  /** With unique dates, the lookup finds the row holding that date. */
  lemma LookupAt(s: seq<Obs>, j: int)
    requires AscendingObs(s) && 0 <= j < |s|
    ensures Lookup(s, s[j].date) == Some(s[j].value)
  {
  }

  function Joined(c: CpiRow, wage: Num): Row
  {
    Row(c.date, c.cpi, c.inflation, wage, None)
  }

  /** The inner merge of the CPI and wage frames on their date index
      (dashboard_app.py:58): the CPI rows, in order, whose date the wage series
      also has, each with the wage at that date. */
  function Join(left: seq<CpiRow>, right: seq<Obs>): (r: seq<Row>)
    ensures |r| <= |left|
  {
    if left == [] then []
    else
      var rest := Join(left[1..], right);
      match Lookup(right, left[0].date)
      case Some(w) => [Joined(left[0], w)] + rest
      case None => rest
  }

  /** A joined row is exactly a CPI row and a wage row that share a date. */
  lemma {:induction false} JoinRows(left: seq<CpiRow>, right: seq<Obs>, row: Row)
    requires AscendingObs(right)
    ensures row in Join(left, right) <==>
      exists i, j :: 0 <= i < |left| && 0 <= j < |right| && left[i].date == right[j].date
                     && row == Joined(left[i], right[j].value)
  {
    if left != [] {
      JoinRows(left[1..], right, row);
      if row in Join(left, right) {
        if row !in Join(left[1..], right) {
          var w := Lookup(right, left[0].date).value;
          assert row == Joined(left[0], w);
          var j :| 0 <= j < |right| && right[j].date == left[0].date && right[j].value == w;
          assert left[0].date == right[j].date && row == Joined(left[0], right[j].value);
        } else {
          var i, j :| 0 <= i < |left[1..]| && 0 <= j < |right| && left[1..][i].date == right[j].date
                      && row == Joined(left[1..][i], right[j].value);
          assert left[i + 1] == left[1..][i];
        }
      } else {
        forall i, j | 0 <= i < |left| && 0 <= j < |right| && left[i].date == right[j].date
          ensures row != Joined(left[i], right[j].value)
        {
          if i == 0 {
            LookupAt(right, j);
          } else {
            assert left[i] == left[1..][i - 1];
          }
        }
      }
    }
  }

  /** Every joined row comes from some CPI row, so the join keeps CPI order. */
  lemma {:induction false} JoinFromLeft(left: seq<CpiRow>, right: seq<Obs>, row: Row)
    requires row in Join(left, right)
    ensures exists i :: 0 <= i < |left| && left[i].date == row.date
  {
    if left != [] && row !in Join(left[1..], right) {
      assert row.date == left[0].date;
    } else if left != [] {
      JoinFromLeft(left[1..], right, row);
      var i :| 0 <= i < |left[1..]| && left[1..][i].date == row.date;
      assert left[i + 1].date == row.date;
    }
  }

  lemma {:induction false} JoinAscending(left: seq<CpiRow>, right: seq<Obs>)
    requires AscendingCpi(left)
    ensures Ascending(Join(left, right))
  {
    if left != [] {
      JoinAscending(left[1..], right);
      var rest := Join(left[1..], right);
      forall k | 0 <= k < |rest| ensures left[0].date < rest[k].date {
        JoinFromLeft(left[1..], right, rest[k]);
      }
    }
  }

  /** The date column of a frame, read through `date`. */
  function Dates<T>(s: seq<T>, date: T -> int): (ds: seq<int>)
    ensures |ds| == |s| && forall k :: 0 <= k < |s| ==> ds[k] == date(s[k])
  {
    seq(|s|, k requires 0 <= k < |s| => date(s[k]))
  }

  /** The join has no more rows than either input. */
  lemma JoinLength(left: seq<CpiRow>, right: seq<Obs>)
    requires AscendingCpi(left) && AscendingObs(right)
    ensures |Join(left, right)| <= |left| && |Join(left, right)| <= |right|
  {
    var r := Join(left, right);
    var rowDates := Dates(r, (row: Row) => row.date);
    var obsDates := Dates(right, (o: Obs) => o.date);
    JoinAscending(left, right);
    IncreasingElems(rowDates);
    ElemsBound(obsDates);
    assert Elems(rowDates) <= Elems(obsDates) by {
      forall d | d in Elems(rowDates) ensures d in Elems(obsDates) {
        var k :| 0 <= k < |r| && r[k].date == d;
        JoinRows(left, right, r[k]);
        var i, j :| 0 <= i < |left| && 0 <= j < |right| && left[i].date == right[j].date
                    && r[k] == Joined(left[i], right[j].value);
        assert obsDates[j] == d;
      }
    }
    SubsetCard(Elems(rowDates), Elems(obsDates));
  }

  // ---------------------------------------------------------------------
  // Step 3: the base CPI
  // ---------------------------------------------------------------------

  predicate HasBoth(r: Row)
  {
    r.cpi.Some? && r.wage.Some?
  }

  /** The CPI of the first row left after dropping the rows that miss a CPI
      or a wage, or nothing when no row is left (dashboard_app.py:63-66). */
  function BaseCpi(rows: seq<Row>): (r: Option<real>)
    ensures r.None? <==> forall row :: row in rows ==> !HasBoth(row)
    ensures r.Some? ==> exists row :: row in rows && HasBoth(row) && row.cpi == Some(r.value)
  {
    var clean := Filter(rows, HasBoth);
    if clean == [] then None
    else assert clean[0] in clean; Some(clean[0].cpi.value)
  }

  /** Position of the first row holding both a CPI and a wage. */
  function FirstWithBoth(rows: seq<Row>): (k: Option<nat>)
    ensures k.None? <==> forall j :: 0 <= j < |rows| ==> !HasBoth(rows[j])
    ensures k.Some? ==> k.value < |rows| && HasBoth(rows[k.value])
                        && forall j :: 0 <= j < k.value ==> !HasBoth(rows[j])
  {
    if rows == [] then None
    else if HasBoth(rows[0]) then Some(0)
    else match FirstWithBoth(rows[1..])
      case None => None
      case Some(k) => Some(k + 1)
  }

  /** The base is the CPI of the first row holding both values, which need not be row 0. */
  lemma {:induction false} BaseIsFirstWithBoth(rows: seq<Row>)
    ensures BaseCpi(rows) == match FirstWithBoth(rows)
                             case None => None
                             case Some(k) => Some(rows[k].cpi.value)
  {
    if rows != [] && !HasBoth(rows[0]) {
      BaseIsFirstWithBoth(rows[1..]);
      assert Filter(rows, HasBoth) == Filter(rows[1..], HasBoth);
    }
  }

  /** CPI row `i` and wage row `j` share a date and both hold a value. */
  predicate BothAt(cpi: seq<Obs>, wage: seq<Obs>, i: int, j: int)
  {
    0 <= i < |cpi| && 0 <= j < |wage| && cpi[i].date == wage[j].date
    && cpi[i].value.Some? && wage[j].value.Some?
  }

  /** Two input rows sharing a date and both values give a joined row holding both. */
  lemma JoinHasBothAt(cpi: seq<Obs>, wage: seq<Obs>, i: int, j: int)
    requires PositivePrices(cpi) && AscendingObs(wage) && BothAt(cpi, wage, i, j)
    ensures exists k :: 0 <= k < |Join(WithInflation(cpi), wage)|
                        && HasBoth(Join(WithInflation(cpi), wage)[k])
                        && Join(WithInflation(cpi), wage)[k].date == cpi[i].date
  {
    var left := WithInflation(cpi);
    var row := Joined(left[i], wage[j].value);
    JoinRows(left, wage, row);
    var k :| 0 <= k < |Join(left, wage)| && Join(left, wage)[k] == row;
  }

  /** A joined row holding both values comes from two such input rows. */
  lemma JoinedFromBothAt(cpi: seq<Obs>, wage: seq<Obs>, k: int)
    requires PositivePrices(cpi) && AscendingObs(wage)
    requires 0 <= k < |Join(WithInflation(cpi), wage)| && HasBoth(Join(WithInflation(cpi), wage)[k])
    ensures exists i, j :: BothAt(cpi, wage, i, j) && cpi[i].date == Join(WithInflation(cpi), wage)[k].date
                           && cpi[i].value == Join(WithInflation(cpi), wage)[k].cpi
  {
    var left := WithInflation(cpi);
    var rows := Join(left, wage);
    JoinRows(left, wage, rows[k]);
    var i, j :| 0 <= i < |left| && 0 <= j < |wage| && left[i].date == wage[j].date
                && rows[k] == Joined(left[i], wage[j].value);
    assert BothAt(cpi, wage, i, j);
  }

  /** The base CPI stated on the two input series: it exists exactly when some
      date carries both a CPI and a wage, and it is the CPI at the earliest such date. */
  lemma {:induction false} BaseOnInputs(cpi: seq<Obs>, wage: seq<Obs>)
    requires PositivePrices(cpi) && AscendingObs(cpi) && AscendingObs(wage)
    ensures BaseCpi(Join(WithInflation(cpi), wage)).Some? <==> exists i, j :: BothAt(cpi, wage, i, j)
    ensures BaseCpi(Join(WithInflation(cpi), wage)).Some? ==>
      exists i, j :: BothAt(cpi, wage, i, j)
                     && cpi[i].value.value == BaseCpi(Join(WithInflation(cpi), wage)).value
                     && forall i', j' :: BothAt(cpi, wage, i', j') ==> cpi[i].date <= cpi[i'].date
  {
    var rows := Join(WithInflation(cpi), wage);
    BaseIsFirstWithBoth(rows);
    if exists i, j :: BothAt(cpi, wage, i, j) {
      var i, j :| BothAt(cpi, wage, i, j);
      JoinHasBothAt(cpi, wage, i, j);
    }
    if FirstWithBoth(rows).Some? {
      var k := FirstWithBoth(rows).value;
      JoinedFromBothAt(cpi, wage, k);
      var i, j :| BothAt(cpi, wage, i, j) && cpi[i].date == rows[k].date && cpi[i].value == rows[k].cpi;
      WithInflationAscending(cpi);
      JoinAscending(WithInflation(cpi), wage);
      forall i', j' | BothAt(cpi, wage, i', j')
        ensures exists k' :: 0 <= k' < |rows| && HasBoth(rows[k']) && rows[k'].date == cpi[i'].date
      {
        JoinHasBothAt(cpi, wage, i', j');
      }
      FirstWithBothIsEarliest(rows, cpi, wage);
    }
  }

  /** No date holding both values precedes the first row holding both, in a
      frame where every such date has a row holding both. */
  lemma FirstWithBothIsEarliest(rows: seq<Row>, cpi: seq<Obs>, wage: seq<Obs>)
    requires Ascending(rows) && FirstWithBoth(rows).Some?
    requires forall i, j :: BothAt(cpi, wage, i, j) ==>
               exists k :: 0 <= k < |rows| && HasBoth(rows[k]) && rows[k].date == cpi[i].date
    ensures forall i', j' :: BothAt(cpi, wage, i', j') ==> rows[FirstWithBoth(rows).value].date <= cpi[i'].date
  {
    var k := FirstWithBoth(rows).value;
    forall i', j' | BothAt(cpi, wage, i', j') ensures rows[k].date <= cpi[i'].date {
      var k' :| 0 <= k' < |rows| && HasBoth(rows[k']) && rows[k'].date == cpi[i'].date;
      assert k <= k';
    }
  }

  // ---------------------------------------------------------------------
  // Step 4: the real-wage column
  // ---------------------------------------------------------------------

  /** The merged frame once the real-wage column, wage / CPI * base, is added
      (dashboard_app.py:67). */
  function WithRealWage(rows: seq<Row>, base: real): (r: seq<Row>)
    requires PositiveCpi(rows)
    ensures |r| == |rows|
    ensures forall k :: 0 <= k < |rows| ==> r[k] == rows[k].(realWage := r[k].realWage)
  {
    seq(|rows|, k requires 0 <= k < |rows| => rows[k].(realWage := Mul(Div(rows[k].wage, rows[k].cpi), Some(base))))
  }

  /** The documented real-wage formula: (nominal wage / CPI) * base CPI. */
  function Deflate(wage: real, cpi: real, base: real): real
    requires cpi != 0.0
  {
    wage / cpi * base
  }

  /** Real wage is Wage / CPI * base where both are present, and missing otherwise. */
  lemma RealWageAt(rows: seq<Row>, base: real, k: int)
    requires PositiveCpi(rows) && 0 <= k < |rows|
    ensures WithRealWage(rows, base)[k].realWage.Some? <==> HasBoth(rows[k])
    ensures HasBoth(rows[k]) ==>
      WithRealWage(rows, base)[k].realWage.value == Deflate(rows[k].wage.value, rows[k].cpi.value, base)
  {
    var r := WithRealWage(rows, base);
    assert r[k].realWage == Mul(Div(rows[k].wage, rows[k].cpi), Some(base));
    if HasBoth(rows[k]) {
      assert r[k].realWage.value == rows[k].wage.value / rows[k].cpi.value * base;
    }
  }

  /** At a row whose CPI equals the base, real wage equals nominal wage; for a
      non-zero wage that is the only way they agree. */
  lemma RealWageIsNominalIff(rows: seq<Row>, base: real, k: int)
    requires PositiveCpi(rows) && 0 <= k < |rows| && HasBoth(rows[k])
    requires rows[k].wage.value != 0.0
    ensures WithRealWage(rows, base)[k].realWage == rows[k].wage <==> rows[k].cpi == Some(base)
  {
    var w, c := rows[k].wage.value, rows[k].cpi.value;
    RealWageAt(rows, base, k);
    assert w / c * c == w;
    if w / c * base == w {
      assert (w / c) * base == (w / c) * c;
      assert w / c != 0.0;
    }
  }

  /** At a row whose CPI equals the base, real wage equals nominal wage. */
  lemma RealWageAtBaseCpi(rows: seq<Row>, k: int)
    requires PositiveCpi(rows) && 0 <= k < |rows| && HasBoth(rows[k])
    ensures WithRealWage(rows, rows[k].cpi.value)[k].realWage == rows[k].wage
  {
    var w, c := rows[k].wage.value, rows[k].cpi.value;
    RealWageAt(rows, c, k);
    assert w / c * c == w;
    var rw := WithRealWage(rows, c)[k].realWage;
    assert rw.Some? && rw.value == w;
  }

  /** Self-consistency of the normalisation: at the base row itself the real
      wage is the nominal wage. */
  lemma BaseRowKeepsNominalWage(rows: seq<Row>)
    requires PositiveCpi(rows) && FirstWithBoth(rows).Some?
    ensures BaseCpi(rows).Some?
    ensures WithRealWage(rows, BaseCpi(rows).value)[FirstWithBoth(rows).value].realWage
            == rows[FirstWithBoth(rows).value].wage
  {
    BaseIsFirstWithBoth(rows);
    RealWageAtBaseCpi(rows, FirstWithBoth(rows).value);
  }

  // ---------------------------------------------------------------------
  // Step 5: the final dropna
  // ---------------------------------------------------------------------

  /** No cell of the frame's columns is missing in this row. */
  predicate Complete(hasRealWage: bool, r: Row)
  {
    r.cpi.Some? && r.inflation.Some? && r.wage.Some? && (hasRealWage ==> r.realWage.Some?)
  }

  predicate Dense(t: Table)
  {
    forall k :: 0 <= k < |t.rows| ==> Complete(t.hasRealWage, t.rows[k])
  }

  /** The final dropna (dashboard_app.py:78): the rows with no missing cell in
      any of the frame's columns, in their order. */
  function DropNa(t: Table): (r: Table)
    ensures r.hasRealWage == t.hasRealWage && Dense(r)
    ensures forall row :: row in r.rows <==> row in t.rows && Complete(t.hasRealWage, row)
  {
    var kept := Filter(t.rows, row => Complete(t.hasRealWage, row));
    assert forall k :: 0 <= k < |kept| ==> kept[k] in kept;
    Table(t.hasRealWage, kept)
  }

  lemma DropNaAscending(t: Table)
    requires Ascending(t.rows)
    ensures Ascending(DropNa(t).rows)
  {
    FilterKeepsOrder(t.rows, row => Complete(t.hasRealWage, row), (a: Row, b: Row) => a.date < b.date);
  }

  /** Without a base (no row holds both a CPI and a wage) no real-wage column
      is added, and the final dropna leaves nothing: every row lacks a CPI or a wage. */
  lemma NoBaseLeavesNothing(rows: seq<Row>)
    requires BaseCpi(rows).None?
    ensures DropNa(Table(false, rows)).rows == []
  {
    BaseIsFirstWithBoth(rows);
    FilterKeepsNone(rows, row => Complete(false, row));
  }

  /** The join carries the CPI of its input rows, so its CPIs stay positive. */
  lemma JoinPositive(cpi: seq<Obs>, wage: seq<Obs>)
    requires PositivePrices(cpi) && AscendingObs(wage)
    ensures PositiveCpi(Join(WithInflation(cpi), wage))
  {
    var left := WithInflation(cpi);
    var rows := Join(left, wage);
    forall k | 0 <= k < |rows| && rows[k].cpi.Some? ensures rows[k].cpi.value > 0.0 {
      JoinRows(left, wage, rows[k]);
    }
  }

  lemma WithRealWageAscending(rows: seq<Row>, base: real)
    requires PositiveCpi(rows) && Ascending(rows)
    ensures Ascending(WithRealWage(rows, base))
  {
    var r := WithRealWage(rows, base);
    forall k | 0 <= k < |rows| ensures r[k].date == rows[k].date {
      assert r[k] == rows[k].(realWage := r[k].realWage);
    }
  }
}
