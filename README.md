# Technical indicators of the stock-portfolio utilities, in Dafny

This project models the indicator engine of `utils/common.py`: the trailing
moving average (`calculate_moving_average`), Cutler's simple-average Relative
Strength Index (`calculate_rsi`) and their fixed composition
(`create_technical_indicators`). A DataFrame is a `PriceTable`: a map from
column name to column plus a row count, every column as long as the table.
Numbers are `real`; a pandas NaN cell is `None`. Each operation writes one
derived column into the caller's table in place and returns that same table,
or raises `KeyError` (`Failure(KeyError(column))`) with the table untouched.

- `wrappers.dfy`: `Option` and `Result`.
- `rolling.dfy` (module `Rolling`): `rolling(window).mean()` with the default
  `min_periods = window`, defined row by row on prefixes, with its closed form,
  bounds, constant-series and sliding-window lemmas.
- `rsi.dfy` (module `Rsi`): `diff(1)`, `where`, gain and loss, their rolling
  averages, the pointwise RSI `100 - 100 / (1 + rs)` and the whole RSI column.
- `common.dfy` (module `Common`): the three operations on the column map as
  functions, the `PriceTable` class, and the three in-place methods proved
  against those functions.

How the IEEE cases are modelled: when the average loss is 0 and the average
gain positive, `rs` is infinite and RSI is exactly 100; when both are 0, `rs`
is NaN and RSI is missing. Otherwise RSI is `100 * ag / (ag + al)`, which
`Rsi.RsiClosedForm` proves equal to the source's expression. Row 0 of the
price difference is NaN, and `where` turns it into 0 in both gain and loss, so
the first defined average (row `window - 1`) averages `window - 1` real
differences and one 0. A consequence: with `window = 1`, row 0 of the RSI is
always missing.

The code does not check the window itself. A window below 1 is excluded by a
precondition, and pandas' own handling of it is not modelled. Row 0 of the
gain and loss columns is 0, not missing.

## Model

| member | source | states |
|---|---|---|
| Rolling.TrailingMean | stock_portfolio_optimazation/src/stock_portfolio_optimazation/utils/common.py:100 | the rolling-mean column has one cell per row of the source column |
| Rolling.TrailingMeanAt | stock_portfolio_optimazation/src/stock_portfolio_optimazation/utils/common.py:100 | rows 0..window-2 are missing and row i >= window-1 is the mean of the window rows ending at i |
| Rolling.TrailingMeanShort | stock_portfolio_optimazation/src/stock_portfolio_optimazation/utils/common.py:100 | a window longer than the table leaves every row missing |
| Rolling.TrailingMeanAtLeast | stock_portfolio_optimazation/src/stock_portfolio_optimazation/utils/common.py:100 | a lower bound of the series bounds every defined rolling mean |
| Rolling.TrailingMeanAtMost | stock_portfolio_optimazation/src/stock_portfolio_optimazation/utils/common.py:100 | an upper bound of the series bounds every defined rolling mean |
| Rolling.TrailingMeanConstant | stock_portfolio_optimazation/src/stock_portfolio_optimazation/utils/common.py:100 | the rolling mean of a constant series c is c at every row from window-1 on |
| Rolling.TrailingMeanPositive | stock_portfolio_optimazation/src/stock_portfolio_optimazation/utils/common.py:100 | a non-negative series positive at row i >= window-1 has a positive rolling mean there |
| Rolling.TrailingMeanSlide | stock_portfolio_optimazation/src/stock_portfolio_optimazation/utils/common.py:100 | moving one row down changes the mean by (entering - leaving) / window |
| Rsi.Diff | stock_portfolio_optimazation/src/stock_portfolio_optimazation/utils/common.py:107 | the difference column has one cell per row |
| Rsi.KeepWhere | stock_portfolio_optimazation/src/stock_portfolio_optimazation/utils/common.py:108-109 | the filtered column has one cell per row |
| Rsi.Gain | stock_portfolio_optimazation/src/stock_portfolio_optimazation/utils/common.py:108 | the gain column has one cell per row |
| Rsi.Loss | stock_portfolio_optimazation/src/stock_portfolio_optimazation/utils/common.py:109 | the loss column has one cell per row |
| Rsi.GainLossSplit | stock_portfolio_optimazation/src/stock_portfolio_optimazation/utils/common.py:107-109 | gain and loss are non-negative, never both non-zero, both 0 at row 0, and from row 1 on gain - loss is the price change |
| Rsi.AvgGain | stock_portfolio_optimazation/src/stock_portfolio_optimazation/utils/common.py:111 | the average-gain column has one cell per row |
| Rsi.AvgLoss | stock_portfolio_optimazation/src/stock_portfolio_optimazation/utils/common.py:112 | the average-loss column has one cell per row |
| Rsi.AveragesNonNegative | stock_portfolio_optimazation/src/stock_portfolio_optimazation/utils/common.py:111-112 | every defined average gain and average loss is non-negative |
| Rsi.RsiPoint | stock_portfolio_optimazation/src/stock_portfolio_optimazation/utils/common.py:114-115 | RSI is missing iff both averages are 0, 100 when only the loss average is 0, 0 when only the gain average is 0, otherwise 100*ag/(ag+al), and always within [0, 100] |
| Rsi.RsiClosedForm | stock_portfolio_optimazation/src/stock_portfolio_optimazation/utils/common.py:114-115 | the source's 100 - 100/(1 + ag/al) equals 100*ag/(ag+al) and lies in [0, 100] when al > 0 |
| Rsi.RsiColumn | stock_portfolio_optimazation/src/stock_portfolio_optimazation/utils/common.py:111-115 | the RSI column has one cell per row |
| Rsi.RsiAt | stock_portfolio_optimazation/src/stock_portfolio_optimazation/utils/common.py:111-115 | RSI is missing on rows 0..window-2; from window-1 on both averages are defined and RSI is missing iff both are 0, else in [0, 100], 100 with no loss, 0 with no gain |
| Rsi.RsiRisingIsHundred | stock_portfolio_optimazation/src/stock_portfolio_optimazation/utils/common.py:107-115 | a strictly rising close series has RSI exactly 100 at every row i >= max(window-1, 1) |
| Rsi.RsiFallingIsZero | stock_portfolio_optimazation/src/stock_portfolio_optimazation/utils/common.py:107-115 | a strictly falling close series has RSI exactly 0 at every row i >= max(window-1, 1) |
| Common.MaName | stock_portfolio_optimazation/src/stock_portfolio_optimazation/utils/common.py:100 | the written column name starts with MA_ (the decimal window follows; MA_50 and MA_200 are evaluated in Common.TechnicalIndicatorsSpec) |
| Common.MaNameDistinct | stock_portfolio_optimazation/src/stock_portfolio_optimazation/utils/common.py:100 | an MA_ column never collides with Close or RSI |
| Common.WithMovingAverage | stock_portfolio_optimazation/src/stock_portfolio_optimazation/utils/common.py:98-102 | KeyError iff the column is absent; otherwise the keys gain exactly MA_<window>, that column is the rolling mean of the source column whatever it held before, and every other column is kept |
| Common.WithRsi | stock_portfolio_optimazation/src/stock_portfolio_optimazation/utils/common.py:105-117 | KeyError iff the column is absent; otherwise the keys gain exactly RSI, that column is the RSI of the source column, and every other column is kept |
| Common.MovingAverageKeepsRows | stock_portfolio_optimazation/src/stock_portfolio_optimazation/utils/common.py:100 | every column, the new one included, still has the table's row count |
| Common.MovingAverageColumnAt | stock_portfolio_optimazation/src/stock_portfolio_optimazation/utils/common.py:100 | the new column has the table's row count, rows before window-1 missing and row i the trailing mean ending at i |
| Common.MovingAverageIdempotent | stock_portfolio_optimazation/src/stock_portfolio_optimazation/utils/common.py:100 | applying the same moving average twice gives the same table as once, when it does not read its own output column |
| Common.RsiIdempotent | stock_portfolio_optimazation/src/stock_portfolio_optimazation/utils/common.py:115 | applying the same RSI twice gives the same table as once, when it does not read the RSI column |
| Common.TechnicalIndicatorsSpec | stock_portfolio_optimazation/src/stock_portfolio_optimazation/utils/common.py:120-126 | KeyError('Close') iff Close is absent; otherwise exactly MA_50, MA_200 and RSI are added, the row count is kept, other columns are unchanged and the new columns are computed from Close with windows 50, 200 and 14 |
| Common.WithTechnicalIndicators | stock_portfolio_optimazation/src/stock_portfolio_optimazation/utils/common.py:120-126 | MA(Close, 50), then MA(Close, 200), then RSI(Close, 14) on the column map, each step reading the previous step's result; KeyError('Close') exactly when Close is absent |
| Common.CalculateMovingAverage | stock_portfolio_optimazation/src/stock_portfolio_optimazation/utils/common.py:98-102 | updates the given table in place as WithMovingAverage says and returns that same table; on KeyError nothing changes |
| Common.CalculateRsi | stock_portfolio_optimazation/src/stock_portfolio_optimazation/utils/common.py:105-117 | updates the given table in place as WithRsi says and returns that same table; on KeyError nothing changes |
| Common.CreateTechnicalIndicators | stock_portfolio_optimazation/src/stock_portfolio_optimazation/utils/common.py:120-126 | chains the three in-place updates on one table, ending as WithTechnicalIndicators says; without Close nothing is written |

## Left out

- `read_yaml`, `create_directories`, `save_json`, `load_json`, `save_bin`, `load_bin`, `get_size` (stock_portfolio_optimazation/src/stock_portfolio_optimazation/utils/common.py:15-68): file-system I/O wrappers with no logic of their own.
- `decode_image`, `encode_image_into_base64` (stock_portfolio_optimazation/src/stock_portfolio_optimazation/utils/common.py:70-80): file I/O around the library's base64 codec.
- `load_stock_data` (stock_portfolio_optimazation/src/stock_portfolio_optimazation/utils/common.py:83-88): a network download of prices plus `dropna`.
- `load_csv_data` (stock_portfolio_optimazation/src/stock_portfolio_optimazation/utils/common.py:91-95): CSV parsing done by pandas.
- Logging calls and the `@ensure_annotations` runtime type checks: side effects, and checks the Dafny types make redundant.
- IEEE-754 rounding, infinities and the distinction between NaN and infinity: numbers are exact reals, and an infinite `rs` appears only through the "RSI = 100" case.
- Common.CalculateMovingAverage: requires the source column to have no NaN cells; pandas would propagate NaN through any window containing one, which is not modelled.
- Common.CalculateRsi: requires the source column to have no NaN cells. In pandas a NaN close would not spread: `diff(1)` makes the differences on its row and the next NaN, and `where` turns those into 0 gain and 0 loss, so the RSI stays defined; the model does not cover this.
- Common.CreateTechnicalIndicators: requires the Close column to have no NaN cells; the model assumes it, and of the loaders only `load_stock_data` guarantees it (its `dropna`, common.py:86), while `load_csv_data` returns the parsed file unchanged.
- Column order: a DataFrame keeps its columns in order, appending a new column at the end while an overwritten column keeps its place; the column map has no order, so the model does not capture where `MA_<window>` and `RSI` appear.
- Common.WithMovingAverage: requires window >= 1, since pandas' own handling of a zero or negative window is not modelled; it also requires the source column to have no NaN cells, as Common.CalculateMovingAverage does.
- Common.WithRsi: requires window >= 1 for the same reason; it also requires the source column to have no NaN cells, as Common.CalculateRsi does.
- pandas rolling options other than the defaults used here.
