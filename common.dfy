/**
 * The indicator functions of `utils/common.py`. A DataFrame is a map from
 * column name to column, every column as long as the table; the three
 * operations write one derived column into the caller's table and hand the
 * same table back, or raise `KeyError` when the source column is absent.
 */
module Common {
  import opened Wrappers
  import opened Rolling
  import opened Rsi

  datatype Error = KeyError(key: string)

  type Columns = map<string, seq<Option<real>>>

  /** Every column has exactly `rows` cells. */
  predicate Rectangular(t: Columns, rows: nat)
  {
    forall k :: k in t ==> |t[k]| == rows
  }

  /** A column without missing cells. */
  predicate Defined(col: seq<Option<real>>)
  {
    forall i :: 0 <= i < |col| ==> col[i].Some?
  }

  /** The numbers of a column without missing cells. */
  function Values(col: seq<Option<real>>): (s: seq<real>)
    requires Defined(col)
    ensures |s| == |col|
    ensures forall i :: 0 <= i < |s| ==> col[i] == Some(s[i])
  {
    seq(|col|, i requires 0 <= i < |col| => col[i].value)
  }

  function DigitChar(d: nat): char
    requires d < 10
  {
    "0123456789"[d]
  }

  /** Decimal notation of a natural number, as Python's `str` writes it. */
  function Decimal(n: nat): (s: string)
    ensures |s| >= 1
  {
    if n < 10 then [DigitChar(n)] else Decimal(n / 10) + [DigitChar(n % 10)]
  }

  /** The name `f'MA_{window}'` of the column a moving average writes. */
  function MaName(window: nat): (name: string)
    ensures |name| > 3 && name[..3] == "MA_"
  {
    "MA_" + Decimal(window)
  }

  /** The column `calculate_rsi` writes. */
  const RsiName: string := "RSI"

  /** The price column `create_technical_indicators` reads. */
  const CloseName: string := "Close"

  /**
   * `calculate_moving_average` on the column map: `KeyError` when `column`
   * is absent; otherwise `MA_<window>` is set (overwriting any earlier one)
   * to the rolling mean of `column`, and every other column is kept.
   */
  function WithMovingAverage(t: Columns, column: string, window: nat): (r: Result<Columns, Error>)
    requires window >= 1 && (column in t ==> Defined(t[column]))
    ensures r.Failure? <==> column !in t
    ensures r.Failure? ==> r.error == KeyError(column)
    ensures r.Success? ==> r.value.Keys == t.Keys + {MaName(window)}
    ensures r.Success? ==> r.value[MaName(window)] == TrailingMean(Values(t[column]), window)
    ensures r.Success? ==> forall k :: k in t && k != MaName(window) ==> r.value[k] == t[k]
  {
    if column !in t then Failure(KeyError(column))
    else Success(t[MaName(window) := TrailingMean(Values(t[column]), window)])
  }

  /**
   * `calculate_rsi` on the column map: `KeyError` when `column` is absent;
   * otherwise `RSI` is set to the RSI of `column` and every other column is kept.
   */
  function WithRsi(t: Columns, column: string, window: nat): (r: Result<Columns, Error>)
    requires window >= 1 && (column in t ==> Defined(t[column]))
    ensures r.Failure? <==> column !in t
    ensures r.Failure? ==> r.error == KeyError(column)
    ensures r.Success? ==> r.value.Keys == t.Keys + {RsiName}
    ensures r.Success? ==> r.value[RsiName] == RsiColumn(Values(t[column]), window)
    ensures r.Success? ==> forall k :: k in t && k != RsiName ==> r.value[k] == t[k]
  {
    if column !in t then Failure(KeyError(column))
    else Success(t[RsiName := RsiColumn(Values(t[column]), window)])
  }

  /** `MA_<window>` never names the price column nor the RSI column. */
  lemma MaNameDistinct(window: nat)
    ensures MaName(window) != CloseName && MaName(window) != RsiName
  {
    assert MaName(window)[0] == 'M';
  }

  /**
   * `create_technical_indicators`: MA(Close, 50), then MA(Close, 200), then
   * RSI(Close, 14), each step reading the table the previous one wrote.
   */
  function WithTechnicalIndicators(t: Columns): (r: Result<Columns, Error>)
    requires CloseName in t ==> Defined(t[CloseName])
    ensures r.Failure? <==> CloseName !in t
    ensures r.Failure? ==> r.error == KeyError(CloseName)
  {
    MaNameDistinct(50);
    MaNameDistinct(200);
    match WithMovingAverage(t, CloseName, 50)
    case Failure(e) => Failure(e)
    case Success(a) =>
      match WithMovingAverage(a, CloseName, 200)
      case Failure(e) => Failure(e)
      case Success(b) => WithRsi(b, CloseName, DefaultWindow)
  }

  // ---------------------------------------------------------------- properties

  /** The moving average keeps every column as long as the table, its own included. */
  lemma MovingAverageKeepsRows(t: Columns, rows: nat, column: string, window: nat)
    requires window >= 1 && (column in t ==> Defined(t[column]))
    requires Rectangular(t, rows)
    ensures WithMovingAverage(t, column, window).Success? ==>
              Rectangular(WithMovingAverage(t, column, window).value, rows)
  {
  }

  /**
   * Pointwise meaning of the new column: rows before window-1 (all rows when
   * the window is longer than the table) are missing, and row i from window-1
   * on is the mean of the `window` values of `column` ending at row i.
   */
  lemma MovingAverageColumnAt(t: Columns, column: string, window: nat, i: nat)
    requires window >= 1 && column in t && Defined(t[column]) && i < |t[column]|
    ensures var ma := WithMovingAverage(t, column, window).value[MaName(window)];
            && |ma| == |t[column]|
            && (i + 1 < window ==> ma[i] == None)
            && (i + 1 >= window ==> ma[i] == Some(Mean(Values(t[column])[i + 1 - window..i + 1])))
  {
    TrailingMeanAt(Values(t[column]), window, i);
  }

  /**
   * Overwriting, not accumulating: applying the same moving average twice
   * gives the table that applying it once gives, provided it does not read
   * the column it writes.
   */
  lemma MovingAverageIdempotent(t: Columns, column: string, window: nat)
    requires window >= 1 && (column in t ==> Defined(t[column]))
    requires column != MaName(window)
    ensures var once := WithMovingAverage(t, column, window);
            once.Success? ==> WithMovingAverage(once.value, column, window) == once
  {
    var once := WithMovingAverage(t, column, window);
    if once.Success? {
      var twice := WithMovingAverage(once.value, column, window);
      assert twice.value == once.value;
    }
  }

  /** The same holds of the RSI, provided it is not computed from the `RSI` column itself. */
  lemma RsiIdempotent(t: Columns, column: string, window: nat)
    requires window >= 1 && (column in t ==> Defined(t[column]))
    requires column != RsiName
    ensures var once := WithRsi(t, column, window);
            once.Success? ==> WithRsi(once.value, column, window) == once
  {
    var once := WithRsi(t, column, window);
    if once.Success? {
      var twice := WithRsi(once.value, column, window);
      assert twice.value == once.value;
    }
  }

  /**
   * What `create_technical_indicators` does to a table of `rows` rows: it
   * fails with `KeyError('Close')` exactly when there is no `Close` column;
   * otherwise the result has the input's columns plus `MA_50`, `MA_200` and
   * `RSI`, still `rows` rows, every other column unchanged, and the three new
   * columns computed from `Close`.
   */
  lemma TechnicalIndicatorsSpec(t: Columns, rows: nat)
    requires Rectangular(t, rows) && (CloseName in t ==> Defined(t[CloseName]))
    ensures var r := WithTechnicalIndicators(t);
      && (r.Failure? <==> CloseName !in t)
      && (r.Failure? ==> r.error == KeyError(CloseName))
      && (r.Success? ==>
            && r.value.Keys == t.Keys + {"MA_50", "MA_200", "RSI"}
            && Rectangular(r.value, rows)
            && (forall k :: k in t && k !in {"MA_50", "MA_200", "RSI"} ==> r.value[k] == t[k])
            && r.value["MA_50"] == TrailingMean(Values(t[CloseName]), 50)
            && r.value["MA_200"] == TrailingMean(Values(t[CloseName]), 200)
            && r.value["RSI"] == RsiColumn(Values(t[CloseName]), 14))
  {
    assert MaName(50) == "MA_50";
    assert MaName(200) == "MA_200";
    MaNameDistinct(50);
    MaNameDistinct(200);
  }

  // ---------------------------------------------------------------- the table

  /** A DataFrame: named columns over a shared row index of `rows` rows. */
  class PriceTable {
    var columns: Columns
    var rows: nat

    ghost predicate Valid()
      reads this
    {
      Rectangular(columns, rows)
    }

    constructor (columns: Columns, rows: nat)
      requires Rectangular(columns, rows)
      ensures Valid() && this.columns == columns && this.rows == rows
    {
      this.columns := columns;
      this.rows := rows;
    }
  }

  /**
   * `calculate_moving_average(data, column, window)`: writes `MA_<window>` into
   * `data` in place and returns `data` itself; a missing `column` raises
   * `KeyError` before anything is written.
   */
  method CalculateMovingAverage(data: PriceTable, column: string, window: nat)
    returns (r: Result<PriceTable, Error>)
    requires data.Valid() && window >= 1
    requires column in data.columns ==> Defined(data.columns[column])
    modifies data
    ensures data.Valid() && data.rows == old(data.rows)
    ensures r.Success? <==> column in old(data.columns)
    ensures r.Success? ==> r.value == data && data.columns == WithMovingAverage(old(data.columns), column, window).value
    ensures r.Failure? ==> r.error == KeyError(column) && data.columns == old(data.columns)
  {
    if column !in data.columns {
      return Failure(KeyError(column));
    }
    var average := TrailingMean(Values(data.columns[column]), window);
    data.columns := data.columns[MaName(window) := average];
    return Success(data);
  }

  /**
   * `calculate_rsi(data, column, window)`: writes `RSI` into `data` in place and
   * returns `data` itself; a missing `column` raises `KeyError` before anything
   * is written.
   */
  method CalculateRsi(data: PriceTable, column: string, window: nat)
    returns (r: Result<PriceTable, Error>)
    requires data.Valid() && window >= 1
    requires column in data.columns ==> Defined(data.columns[column])
    modifies data
    ensures data.Valid() && data.rows == old(data.rows)
    ensures r.Success? <==> column in old(data.columns)
    ensures r.Success? ==> r.value == data && data.columns == WithRsi(old(data.columns), column, window).value
    ensures r.Failure? ==> r.error == KeyError(column) && data.columns == old(data.columns)
  {
    if column !in data.columns {
      return Failure(KeyError(column));
    }
    var rsi := RsiColumn(Values(data.columns[column]), window);
    data.columns := data.columns[RsiName := rsi];
    return Success(data);
  }

  /**
   * `create_technical_indicators(data)`: the three updates in order on the same
   * table; without a `Close` column the first one raises and nothing is written.
   */
  method CreateTechnicalIndicators(data: PriceTable) returns (r: Result<PriceTable, Error>)
    requires data.Valid()
    requires CloseName in data.columns ==> Defined(data.columns[CloseName])
    modifies data
    ensures data.Valid() && data.rows == old(data.rows)
    ensures r.Success? <==> CloseName in old(data.columns)
    ensures r.Success? ==> r.value == data && data.columns == WithTechnicalIndicators(old(data.columns)).value
    ensures r.Failure? ==> r.error == KeyError(CloseName) && data.columns == old(data.columns)
  {
    MaNameDistinct(50);
    MaNameDistinct(200);
    var table := data;
    var step := CalculateMovingAverage(table, CloseName, 50);
    if step.Failure? {
      return step;
    }
    table := step.value;
    step := CalculateMovingAverage(table, CloseName, 200);
    table := step.value;
    step := CalculateRsi(table, CloseName, DefaultWindow);
    return step;
  }
}
