/** `load_and_process_data` and the row selection the dashboard applies to
    its result (dashboard_app.py). The two CSV files arrive already parsed:
    `None` is a file that is missing or failed to load. */
module Dashboard {
  import opened Nan
  import opened Seqs
  import opened Frames

  /** The base CPI of the merged frame built from the two series. */
  function Base(cpi: seq<Obs>, wage: seq<Obs>): Option<real>
    requires PositivePrices(cpi)
  {
    BaseCpi(Join(WithInflation(cpi), wage))
  }

  /** `row` is what the pipeline delivers for CPI row `i` and wage row `j`:
      they share a date, CPI rows `i` and `i - 12` and wage row `j` hold values,
      and the row carries the CPI, the year-over-year inflation against CPI
      row `i - 12`, the wage, and the wage scaled by `base / CPI`. */
  predicate DeliveredFrom(cpi: seq<Obs>, wage: seq<Obs>, base: real, i: int, j: int, row: Row)
    requires PositivePrices(cpi)
  {
    BothAt(cpi, wage, i, j) && i >= YearLag && cpi[i - YearLag].value.Some?
    && row.date == cpi[i].date && row.cpi == cpi[i].value && row.wage == wage[j].value
    && row.inflation.Some?
    && row.inflation.value == YearOverYear(cpi[i].value.value, cpi[i - YearLag].value.value)
    && row.realWage.Some?
    && row.realWage.value == Deflate(wage[j].value.value, cpi[i].value.value, base)
  }

  ghost predicate Delivered(cpi: seq<Obs>, wage: seq<Obs>, base: real, row: Row)
    requires PositivePrices(cpi)
  {
    exists i, j :: DeliveredFrom(cpi, wage, base, i, j, row)
  }

  /** Every row left after the final dropna is a delivered row. */
  lemma {:induction false} OutputRowIsDelivered(cpi: seq<Obs>, wage: seq<Obs>, base: real, row: Row)
    requires PositivePrices(cpi) && AscendingObs(wage)
    requires PositiveCpi(Join(WithInflation(cpi), wage))
    requires row in DropNa(Table(true, WithRealWage(Join(WithInflation(cpi), wage), base))).rows
    ensures Delivered(cpi, wage, base, row)
  {
    var left := WithInflation(cpi);
    var rows := Join(left, wage);
    var withReal := WithRealWage(rows, base);
    var k :| 0 <= k < |withReal| && withReal[k] == row;
    JoinRows(left, wage, rows[k]);
    var i, j :| 0 <= i < |left| && 0 <= j < |wage| && left[i].date == wage[j].date
                && rows[k] == Joined(left[i], wage[j].value);
    assert Complete(true, row);
    assert row == rows[k].(realWage := row.realWage);
    assert row.date == cpi[i].date && row.cpi == cpi[i].value && row.wage == wage[j].value;
    InflationAt(cpi, i);
    assert BothAt(cpi, wage, i, j);
    RealWageAt(rows, base, k);
    assert DeliveredFrom(cpi, wage, base, i, j, row);
  }

  /** Every delivered row survives the final dropna. */
  lemma {:induction false} DeliveredRowIsOutput(cpi: seq<Obs>, wage: seq<Obs>, base: real, i: int, j: int, row: Row)
    requires PositivePrices(cpi) && AscendingObs(wage)
    requires PositiveCpi(Join(WithInflation(cpi), wage))
    requires DeliveredFrom(cpi, wage, base, i, j, row)
    ensures row in DropNa(Table(true, WithRealWage(Join(WithInflation(cpi), wage), base))).rows
  {
    var left := WithInflation(cpi);
    var rows := Join(left, wage);
    var withReal := WithRealWage(rows, base);
    var joined := Joined(left[i], wage[j].value);
    assert joined in rows by { JoinRows(left, wage, joined); }
    var k :| 0 <= k < |rows| && rows[k] == joined;
    assert rows[k].date == row.date && rows[k].cpi == row.cpi && rows[k].wage == row.wage;
    assert rows[k].inflation == row.inflation by { InflationAt(cpi, i); }
    assert withReal[k].realWage == row.realWage by { RealWageAt(rows, base, k); }
    assert withReal[k] == row;
  }

  /** `load_and_process_data`: the CPI frame gets its inflation column, the
      two frames are inner-joined, the real-wage column is added once a base
      CPI exists, and every row with a missing cell is dropped. */
  method LoadAndProcessData(cpiFile: Option<seq<Obs>>, wageFile: Option<seq<Obs>>) returns (df: Table)
    requires cpiFile.Some? ==> AscendingObs(cpiFile.value) && PositivePrices(cpiFile.value)
    requires wageFile.Some? ==> AscendingObs(wageFile.value)
    ensures Dense(df) && Ascending(df.rows)
    ensures df.rows != [] ==> df.hasRealWage
    ensures cpiFile.None? || wageFile.None? ==> df == Empty
    ensures cpiFile.Some? && wageFile.Some? ==>
      (df.hasRealWage <==> Base(cpiFile.value, wageFile.value).Some?)
    ensures cpiFile.Some? && wageFile.Some? && Base(cpiFile.value, wageFile.value).Some? ==>
      forall row :: row in df.rows <==> Delivered(cpiFile.value, wageFile.value, Base(cpiFile.value, wageFile.value).value, row)
  {
    var cpiDf: Option<seq<CpiRow>> := None;
    var wageDf: Option<seq<Obs>> := None;
    var merged := Empty;

    if cpiFile.Some? {
      cpiDf := Some(WithInflation(cpiFile.value));
    }
    if wageFile.Some? {
      wageDf := wageFile;
    }

    if cpiDf.Some? && wageDf.Some? {
      merged := Table(false, Join(cpiDf.value, wageDf.value));
      if merged.rows != [] {
        var clean := Filter(merged.rows, HasBoth);
        if clean != [] {
          assert clean[0] in clean;
          var baseCpi := clean[0].cpi.value;
          JoinPositive(cpiFile.value, wageFile.value);
          merged := Table(true, WithRealWage(merged.rows, baseCpi));
        }
      }
    }

    df := DropNa(merged);

    if cpiFile.Some? && wageFile.Some? {
      ghost var cpi, wage := cpiFile.value, wageFile.value;
      ghost var rows := Join(WithInflation(cpi), wage);
      WithInflationAscending(cpi);
      JoinAscending(WithInflation(cpi), wage);
      JoinPositive(cpi, wage);
      if Base(cpi, wage).Some? {
        var base := Base(cpi, wage).value;
        assert merged == Table(true, WithRealWage(rows, base));
        WithRealWageAscending(rows, base);
        DropNaAscending(merged);
        forall row ensures row in df.rows <==> Delivered(cpi, wage, base, row) {
          if row in df.rows {
            OutputRowIsDelivered(cpi, wage, base, row);
          }
          if Delivered(cpi, wage, base, row) {
            var i, j :| DeliveredFrom(cpi, wage, base, i, j, row);
            DeliveredRowIsOutput(cpi, wage, base, i, j, row);
          }
        }
      } else {
        assert merged == Table(false, rows);
        NoBaseLeavesNothing(rows);
      }
    }
  }

  // ---------------------------------------------------------------------
  // What the dashboard shows of the result
  // ---------------------------------------------------------------------

  /** The slider's date mask, inclusive at both ends (dashboard_app.py:106);
      an empty frame stays an empty frame (dashboard_app.py:109). */
  function DateFilter(df: Table, lo: int, hi: int): (r: Table)
    ensures forall row :: row in r.rows <==> row in df.rows && lo <= row.date <= hi
    ensures r.rows != [] ==> r.hasRealWage == df.hasRealWage
  {
    if df.rows == [] then Empty
    else Table(df.hasRealWage, Filter(df.rows, (row: Row) => lo <= row.date <= hi))
  }

  /** The filtered frame keeps the order and the density of the frame. */
  lemma DateFilterKeepsShape(df: Table, lo: int, hi: int)
    requires Ascending(df.rows) && Dense(df)
    ensures Ascending(DateFilter(df, lo, hi).rows) && Dense(DateFilter(df, lo, hi))
  {
    if df.rows != [] {
      FilterKeepsOrder(df.rows, (row: Row) => lo <= row.date <= hi, (a: Row, b: Row) => a.date < b.date);
      var r := DateFilter(df, lo, hi);
      forall k | 0 <= k < |r.rows| ensures Complete(r.hasRealWage, r.rows[k]) {
        assert r.rows[k] in r.rows;
      }
    }
  }

  /** The slider starts at the earliest and latest dates, which keep every row. */
  lemma DefaultRangeKeepsAll(df: Table)
    requires Ascending(df.rows) && df.rows != []
    ensures DateFilter(df, df.rows[0].date, df.rows[|df.rows| - 1].date) == df
  {
    var lo, hi := df.rows[0].date, df.rows[|df.rows| - 1].date;
    FilterKeepsAll(df.rows, (row: Row) => lo <= row.date <= hi);
  }

  /** A metric card: the latest value and, when there is a row before it, the change. */
  datatype Metric = Metric(value: Num, delta: Option<Num>)

  /** The three cards of "Key Economic Indicators"; `realWage` is `None`
      where the dashboard says the real wage was not calculated. */
  datatype Indicators = Indicators(date: int, inflation: Metric, wage: Metric, realWage: Option<Metric>)

  function ColumnMetric(rows: seq<Row>, column: Row -> Num): Metric
    requires rows != []
  {
    var n := |rows|;
    Metric(column(rows[n - 1]), if n > 1 then Some(Sub(column(rows[n - 1]), column(rows[n - 2]))) else None)
  }

  /** The metric cards: the last row of the filtered frame, and deltas against
      the second-to-last row when there is more than one row; nothing when the
      filtered frame is empty (dashboard_app.py:114-139). */
  function KeyIndicators(filtered: Table): (r: Option<Indicators>)
    ensures r.Some? <==> filtered.rows != []
    ensures r.Some? ==> (r.value.realWage.Some? <==> filtered.hasRealWage)
    ensures r.Some? ==>
      && (r.value.inflation.delta.Some? <==> |filtered.rows| > 1)
      && (r.value.wage.delta.Some? <==> |filtered.rows| > 1)
      && (r.value.realWage.Some? ==> (r.value.realWage.value.delta.Some? <==> |filtered.rows| > 1))
  {
    var rows := filtered.rows;
    if rows == [] then None
    else
      Some(Indicators(rows[|rows| - 1].date,
                      ColumnMetric(rows, (row: Row) => row.inflation),
                      ColumnMetric(rows, (row: Row) => row.wage),
                      if filtered.hasRealWage then Some(ColumnMetric(rows, (row: Row) => row.realWage)) else None))
  }

  /** The latest row is the newest: no row of the frame is dated after it. */
  lemma LatestIsNewest(filtered: Table, row: Row)
    requires Ascending(filtered.rows) && row in filtered.rows
    ensures KeyIndicators(filtered).Some?
    ensures row.date <= KeyIndicators(filtered).value.date
    ensures KeyIndicators(filtered).value.date == filtered.rows[|filtered.rows| - 1].date
    ensures row.date == KeyIndicators(filtered).value.date ==>
      KeyIndicators(filtered).value.wage.value == row.wage
      && KeyIndicators(filtered).value.inflation.value == row.inflation
      && (KeyIndicators(filtered).value.realWage.Some? ==>
            KeyIndicators(filtered).value.realWage.value.value == row.realWage)
  {
    var rows := filtered.rows;
    var k :| 0 <= k < |rows| && rows[k] == row;
    assert k == |rows| - 1 || rows[k].date < rows[|rows| - 1].date;
  }

  /** The deltas are taken against the row immediately before the latest one
      in date order: for a dense frame, latest = previous + delta in every card. */
  lemma DeltaAgainstPredecessor(filtered: Table, prev: Row)
    requires Ascending(filtered.rows) && Dense(filtered)
    requires prev in filtered.rows && prev.date < filtered.rows[|filtered.rows| - 1].date
    requires forall row :: row in filtered.rows && row.date < filtered.rows[|filtered.rows| - 1].date
               ==> row.date <= prev.date
    ensures KeyIndicators(filtered).Some?
    ensures var ind := KeyIndicators(filtered).value;
      && ind.wage.delta.Some? && ind.wage.delta.value.Some?
      && ind.wage.value.value == prev.wage.value + ind.wage.delta.value.value
      && ind.inflation.delta.Some? && ind.inflation.delta.value.Some?
      && ind.inflation.value.value == prev.inflation.value + ind.inflation.delta.value.value
      && (ind.realWage.Some? ==>
            ind.realWage.value.delta.Some? && ind.realWage.value.delta.value.Some?
            && ind.realWage.value.value.value == prev.realWage.value + ind.realWage.value.delta.value.value)
  {
    var rows := filtered.rows;
    var n := |rows|;
    var m :| 0 <= m < n && rows[m] == prev;
    assert rows[n - 2] in rows;
    assert m == n - 2;
    assert Complete(filtered.hasRealWage, rows[n - 1]) && Complete(filtered.hasRealWage, rows[n - 2]);
  }

  /** Once the pipeline has produced any row, the real-wage card is always
      shown: the "Real Wage not calculated" branch is unreachable for a
      non-empty filtered frame. */
  lemma RealWageCardShown(df: Table, lo: int, hi: int)
    requires df.rows != [] ==> df.hasRealWage
    requires KeyIndicators(DateFilter(df, lo, hi)).Some?
    ensures KeyIndicators(DateFilter(df, lo, hi)).value.realWage.Some?
  {
  }
}
