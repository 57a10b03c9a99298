# Market-data pipeline: a verified Dafny model

The system keeps Indian and US market data in PostgreSQL and works on it in
stages:

- symbol tables are refreshed from CSV listings;
- daily, weekly and monthly indicator rows are computed incrementally from
  the price tables;
- the daily, weekly and monthly rows are aligned into one frame;
- three scanners filter that frame into signals;
- two backtests replay the signals against the prices;
- 52-week highs and lows are refreshed;
- weekly and monthly rows dated on the wrong day are deleted;
- NSE bhavcopy files are downloaded and loaded into the equity price table.

This project models that core in Dafny and proves what each step promises.

- **Values.** Prices are `real` and dates are day numbers, with day 0 being
  1970-01-01. A value that pandas or SQL may leave missing (NaN, NULL) is an
  `Option`. An operation that raises is a `Result`.
- **Tables.** A table the code updates in place is a class holding a
  sequence or map that its methods reassign. Each method is proved against
  a specification function, and the properties are lemmas about that
  function.
- **Modules.** The modules follow the program:
  - `Indicators` and `Supertrend`: the indicator formulas;
  - `IndicatorService`: indicator composition and the incremental refresh;
  - `DataService`: alignment, the weekly setup query and candle labels;
  - `Scanners`: the three scanners;
  - `Backtest`: the weekly and daily backtests;
  - `Symbols`: symbol selection, the symbol-table refresh and the latest trading date;
  - `Week52`: the 52-week statistics;
  - `Cleanup`: wrong-day row deletion;
  - `Bhavcopy`: the bhavcopy loaders;
  - `Registry`: the asset-to-table configuration;
  - `Calendar`, `Text`, `Sorting` and `Wrappers`: shared helpers.
- **Calendar.** Python's `weekday()` is `(d + 3) % 7`, with Monday as 0, and
  PostgreSQL's ISODOW is one more. Calendar dates use the proleptic
  Gregorian calendar.
- **Rounding.** `round(x, 2)` is numpy's round-half-to-even on `100 * x`.
- **Parameters.** The clock (today's date) and the square root are
  parameters. The database, the file system and the network become
  values: tables, maps from file names to parsed CSVs, and `Option`s for
  files that cannot be read.

## Model

| member | source | states |
|---|---|---|
| Registry.Lookup | config/db_table.py:54-62 | `ASSET_TABLE_MAP[k]` finds the asset whose key is k, and nothing exactly when no asset has that key |
| Registry.LookupKey | config/db_table.py:54-62 | every asset is found under its own key |
| Registry.RegistryConvention | config/db_table.py:18-62 | every key's symbol, price, indicator and stats tables are "<key>_symbols", "<key>_price_data", "<key>_indicators" and "<key>_52week_stats", its symbol CSV is "<key>_yahoo_symbols.csv", and there are seven distinct keys |
| Registry.SymbolSourcesAgree | config/db_table.py:18-26 | SYMBOL_SOURCES lists each key's symbol table and its CSV, in key order |
| Registry.PriceSymbolAgrees | config/db_table.py:45-53 | ASSET_PRICE_SYMBOL_MAP pairs each key's price table with its symbol table, as ASSET_TABLE_MAP does |
| Registry.DataTablesAgree | config/db_table.py:63-78 | DATA_TABLES lists the price and then the indicator table of every key, in key order |
| Calendar.Weekday | services/scanners/backtest_service.py:16 | `weekday()` is below 7 and moves with the day, 1970-01-01 being a Thursday |
| Calendar.IsoWeekday | services/cleanup_service.py:44 | ISODOW runs from 1 to 7 and is one more than `weekday()` |
| Calendar.WeekdayPeriodic | services/scanners/backtest_service.py:16 | a whole number of weeks keeps the weekday |
| Calendar.DaysInMonth | services/cleanup_service.py:50 | months have 28 to 31 days, February 29 exactly in leap years |
| Calendar.OneYearBefore | services/weekly_monthly_service.py:46 | `- INTERVAL '1 year'` keeps the month and day, and 29 February becomes 28 February |
| Calendar.FormatIso | services/bhavcopy_loader.py:274 | `%Y-%m-%d` gives ten characters with dashes at positions 4 and 7 |
| Calendar.FormatDdmmyyyy | services/bhavcopy_loader.py:204 | `%d%m%Y` gives eight digits |
| Calendar.MakeCivil | services/bhavcopy_loader.py:274 | a date exists exactly when day, month and year form a valid date |
| Calendar.ParseDdmmyyyy | services/bhavcopy_loader.py:274 | a parsed `%d%m%Y` text is a valid date |
| Calendar.ParseIso | services/bhavcopy_loader.py:152 | a parsed `%Y-%m-%d` text is a valid date |
| Calendar.DdmmyyyyRoundTrip | services/bhavcopy_loader.py:272-274 | parsing a formatted `%d%m%Y` date gives it back |
| Calendar.IsoRoundTrip | services/bhavcopy_loader.py:274 | parsing a formatted `%Y-%m-%d` date gives it back |
| Calendar.MonthOfAbbreviation | services/bhavcopy_loader.py:65 | `%b` reads exactly the twelve English abbreviations, in any letter case |
| Calendar.ParseDdMonYyyy | services/bhavcopy_loader.py:65 | a parsed `%d-%b-%Y` text, with a one- or two-digit day, is a valid date |
| Calendar.CivilRoundTrip | services/bhavcopy_loader.py:272-274 | every valid date comes back from its day number, so the day numbering loses no date |
| Calendar.EpochIsDayZero | services/scanners/backtest_service.py:16 | day 0 is 1970-01-01 in both directions |
| Calendar.MonthOfDayOfYear | services/bhavcopy_loader.py:274 | the day of a March-based year lies in 0..365 and gives back its month and day |
| Calendar.YearOfEra | services/bhavcopy_loader.py:274 | the day of a 400-year era gives back its year and its day of that year |
| Text.TrimLeft | services/symbol_service.py:31 | drops exactly the leading whitespace |
| Text.TrimRight | services/symbol_service.py:31 | drops exactly the trailing whitespace |
| Text.Strip | services/symbol_service.py:31-45 | `strip()` never lengthens and leaves no whitespace at either end |
| Text.StripIdempotent | services/symbol_service.py:31 | stripping twice is stripping once |
| Text.BlankIffAllSpace | services/symbol_service.py:141 | `not s.strip()` exactly when every character is whitespace |
| Text.UpperChar | services/symbol_service.py:44 | lower-case ASCII letters become upper case, other characters stay |
| Text.Upper | services/symbol_service.py:44-45 | `upper()` maps each character and keeps the length |
| Text.UpperIdempotent | services/symbol_service.py:44-45 | upper-casing twice is upper-casing once |
| Text.LowerChar | services/symbol_service.py:31 | upper-case ASCII letters become lower case, other characters stay |
| Text.Lower | services/symbol_service.py:31 | `lower()` maps each character and keeps the length |
| Text.StripUntrimmed | services/symbol_service.py:31 | a text without whitespace at either end is its own strip |
| Text.IndexOf | services/symbol_service.py:155 | the first position of the separator, or the length when it is absent |
| Text.Split | services/symbol_service.py:155 | `split(sep)` yields at least one piece and no piece holds the separator |
| Text.JoinSplit | services/symbol_service.py:155 | joining the pieces of a split gives the text back |
| Text.SplitJoin | services/symbol_service.py:155 | splitting joined separator-free pieces gives the pieces back |
| Text.JoinEnds | services/symbol_service.py:155 | a join of non-empty pieces starts with the first, ends with the last, and holds the separator once there are two |
| Text.SplitNoSep | services/symbol_service.py:155 | a text without the separator splits into itself |
| Text.FirstPiece | services/bhavcopy_loader.py:42 | `split(sep)[0]` is the text up to the first separator |
| Text.LastPieceAppend | services/bhavcopy_loader.py:273 | `split(sep)[-1]` of a text ending in a separator and a separator-free tail is that tail |
| Text.RemoveAll | services/bhavcopy_loader.py:436 | `replace(pat, "")` never lengthens |
| Text.RemoveAllAbsent | services/bhavcopy_loader.py:436 | a text without the pattern is unchanged |
| Text.RemoveCommas | services/bhavcopy_loader.py:324-325 | `replace(",", "")` leaves no comma and keeps every other character |
| Text.StrLeTotal | services/scanners/scanner_HM.py:30 | string order is total |
| Text.StrLeTrans | services/scanners/scanner_HM.py:30 | string order is transitive |
| Text.StrLeAntisym | services/scanners/scanner_HM.py:30 | string order is antisymmetric |
| Text.PadDigits | services/bhavcopy_loader.py:204 | zero-padded digits of the given width |
| Text.PadDigitsValue | services/bhavcopy_loader.py:204 | the padded digits read back as the number |
| Sorting.Insert | services/scanners/scanner_HM.py:30 | inserting adds exactly the element |
| Sorting.Sort | services/scanners/scanner_HM.py:30 | `sort_values` keeps every element as often as it occurs |
| Sorting.InsertSorted | services/scanners/scanner_HM.py:30 | inserting into a sorted list keeps it sorted |
| Sorting.SortSorted | services/scanners/scanner_HM.py:30 | the result is sorted for a total, transitive order |
| Sorting.SortOfSorted | services/scanners/scanner_HM.py:30 | sorting a sorted list changes nothing |
| Sorting.SortIdempotent | services/scanners/scanner_HM.py:30 | sorting twice is sorting once |
| Indicators.RoundHalfEven | services/indicators_helper.py:48 | the nearest whole number to its argument, at most one half away (numpy rounds halves to even) |
| Indicators.Round2 | services/indicators_helper.py:48 | `round(2)` moves a value by at most 0.005 and lands on a whole number of hundredths |
| Indicators.RoundHalfEvenMonotone | services/indicators_helper.py:48 | rounding to a whole number never reverses the order of two values |
| Indicators.Round2Monotone | services/indicators_helper.py:48 | `round(2)` never reverses the order of two values |
| Indicators.Round2Whole | services/indicators_helper.py:48 | whole numbers, 0 and 100 among them, are left unchanged by `round(2)` |
| Indicators.Round2Within | services/indicators_helper.py:48 | rounding keeps a value inside an interval whose ends are whole numbers |
| Indicators.RoundOpt | services/indicators_helper.py:62 | rounding a missing value leaves it missing and a present one present |
| Indicators.RoundAll | services/indicators_helper.py:62 | rounds a series of optional values elementwise, with the length kept |
| Indicators.RoundReals | services/indicators_helper.py:139 | rounds a series of reals elementwise, with the length kept |
| Indicators.Lift | services/indicators_helper.py:139 | a series with no missing values, index for index equal to the input |
| Indicators.Missing | services/indicators_helper.py:26-30 | the fallback series: the input's length, every value missing |
| Indicators.Safe | services/indicators_helper.py:10-32 | a failure of the wrapped function gives the all-missing series on the input's index, success gives its result; no error escapes |
| Indicators.SumWithin | services/indicators_helper.py:56 | a sum of n values in [lo, hi] lies in [n*lo, n*hi] |
| Indicators.MeanWithin | services/indicators_helper.py:56 | a mean lies between any bounds of its window |
| Indicators.Window | services/indicators_helper.py:56 | the rolling window ending at index t has exactly p values |
| Indicators.RollingMean | services/indicators_helper.py:56 | `rolling(p).mean()` keeps the length and is defined exactly from index p-1 on |
| Indicators.Sma | services/indicator_service.py:24-26 | the rounded SMA keeps the length and is defined exactly from index p-1 on |
| Indicators.SmaWithinWindow | services/indicator_service.py:24-26 | where defined, the SMA lies between its window's bounds, up to the rounding error |
| Indicators.Ewm | services/indicators_helper.py:81-85 | the `adjust=False` exponential average keeps the series length |
| Indicators.EwmPrefix | services/indicators_helper.py:81-85 | the average of a prefix is the prefix of the average, so each value depends only on the past |
| Indicators.EwmRecurrence | services/indicators_helper.py:81-139 | ema[0] = x[0] and ema[t] = alpha*x[t] + (1-alpha)*ema[t-1] |
| Indicators.ConvexWithin | services/indicators_helper.py:81-85 | one smoothing step of two values in [lo, hi] stays in [lo, hi] |
| Indicators.ConvexAtLeast | services/indicators_helper.py:42-43 | one smoothing step of two values at least lo is at least lo |
| Indicators.EwmAtLeast | services/indicators_helper.py:42-43 | smoothing values that are all at least lo gives values at least lo |
| Indicators.EwmWithin | services/indicators_helper.py:139 | the exponential average never leaves the range of its inputs |
| Indicators.EwmConstant | services/indicators_helper.py:81-85 | averaging a constant series gives that constant at every index |
| Indicators.WithMinPeriods | services/indicators_helper.py:42-73 | `min_periods=p`: missing before the p-th observation, the average from there on |
| Indicators.SpanAlpha | services/indicators_helper.py:81-139 | `span=s` gives a smoothing factor in (0, 1] |
| Indicators.Ema | services/indicators_helper.py:136-139 | `calculate_ema` fails exactly when the span is below 1, else keeps the length |
| Indicators.EmaWithin | services/indicators_helper.py:136-139 | the rounded EMA stays within the input's range widened by 0.005 |
| Indicators.MacdLine | services/indicators_helper.py:81-84 | EMA(12) - EMA(26) keeps the length of the close |
| Indicators.Macd | services/indicators_helper.py:78-87 | the MACD line and its signal keep the length of the close |
| Indicators.MacdFlat | services/indicators_helper.py:78-87 | a constant close gives a MACD and a signal that are 0 everywhere |
| Indicators.WeightTotal | services/indicators_helper.py:145-147 | the weight total 1 + ... + n is at least 1 when n > 0 |
| Indicators.StepBounds | services/indicators_helper.py:147 | adding one weighted term keeps the weighted sum between the weighted bounds |
| Indicators.WeightedSumWithin | services/indicators_helper.py:145-147 | the dot product with weights 1..n lies between the weight total times the bounds |
| Indicators.WmaRaw | services/indicators_helper.py:143-148 | the WMA keeps the length and is defined exactly from index p-1 on |
| Indicators.Wma | services/indicators_helper.py:142-149 | `calculate_wma` fails exactly for a period below 1; otherwise defined exactly from index p-1 on |
| Indicators.WmaWithinWindow | services/indicators_helper.py:143-148 | where defined, the WMA lies between its window's minimum and maximum |
| Indicators.Gains | services/indicators_helper.py:38-39 | gain = max(change, 0), one value per change |
| Indicators.Losses | services/indicators_helper.py:38-40 | loss = max(-change, 0), one value per change |
| Indicators.RsiValue | services/indicators_helper.py:45-48 | one RSI value lies in [0, 100], and is 100 when an average is missing or the average loss is 0 |
| Indicators.Rsi | services/indicators_helper.py:35-48 | `calculate_rsi_series` fails exactly for a period below 1, else keeps the length |
| Indicators.SumNonNegative | services/indicators_helper.py:42-43 | a sum of non-negative values is non-negative |
| Indicators.WilderNonNegative | services/indicators_helper.py:42-43 | Wilder smoothing of non-negative changes is non-negative wherever defined |
| Indicators.RsiBounds | services/indicators_helper.py:36-48 | every RSI value lies in [0, 100] and is never missing; it is 100 during the warm-up and where the average loss is 0 |
| Indicators.RsiGainShare | services/indicators_helper.py:45-46 | where the average loss is positive, the RSI is 100*G/(G+L) |
| Indicators.RsiFlat | services/indicators_helper.py:36-48 | a constant close gives an RSI of 100 throughout |
| Indicators.SquaredDeviations | services/indicators_helper.py:57 | the squared deviations from the mean, one per window value |
| Indicators.BollingerRaw | services/indicators_helper.py:56-60 | the three unrounded bands keep the length of the close |
| Indicators.Bollinger | services/indicators_helper.py:51-62 | fails exactly for a window below 1; the middle band is defined from index p-1 on; upper and lower also need p >= 2 (sample deviation) |
| Indicators.BollingerSymmetric | services/indicators_helper.py:56-60 | upper - middle = middle - lower = mult * std >= 0 before rounding |
| Indicators.BollingerOrdered | services/indicators_helper.py:59-62 | the rounded bands satisfy lower <= middle <= upper |
| Indicators.TrueRangeAt | services/indicators_helper.py:68-72 | the true range is the largest of high-low, abs(high-prev close) and abs(low-prev close); high-low on the first bar |
| Indicators.TrueRange | services/indicators_helper.py:68-72 | one true-range value per bar |
| Indicators.Atr | services/indicators_helper.py:65-75 | `calculate_atr` fails exactly for a period below 1, else keeps the length and is defined from index p-1 on |
| Indicators.AtrNonNegative | services/indicators_helper.py:66-75 | when every high is at or above its low, every defined ATR is >= 0 |
| Supertrend.BasicBands | services/indicators_helper.py:95-99 | hl2 +/- mult*ATR, missing exactly where the ATR is |
| Supertrend.Trend | services/indicators_helper.py:119-131 | the direction is +1 or -1 and picks the lower band (+1) or the upper band (-1); it is +1 exactly when i > 0 and the close is above the previous Supertrend value |
| Supertrend.Bands | services/indicators_helper.py:95-99 | the basic bands keep the number of bars |
| Supertrend.Closes | services/indicators_helper.py:108-126 | the close column, bar by bar |
| Supertrend.SupertrendSpec | services/indicators_helper.py:90-133 | the corrected Supertrend and direction have one value per bar |
| Supertrend.SupertrendAsWritten | services/indicators_helper.py:90-133 | the Supertrend as written has one value per bar |
| Supertrend.BandStep | services/indicators_helper.py:105-117 | one loop step writes final_ub[i] and final_lb[i] by the band rule and leaves every other index alone |
| Supertrend.FinalBands | services/indicators_helper.py:101-117 | the first loop over arrays yields, at every index, the final bands of the band rule |
| Supertrend.Directions | services/indicators_helper.py:119-131 | the second loop over arrays yields, at every index, the Supertrend value and direction of the direction rule |
| Supertrend.ComputeSupertrend | services/indicators_helper.py:90-133 | the method's output equals the Supertrend specification |
| Supertrend.AsWrittenNeverDefined | services/indicators_helper.py:73-117 | as written and with atr_period >= 2, the Supertrend is missing at every bar and the direction is always -1 |
| Supertrend.BandsStayMissing | services/indicators_helper.py:104-117 | as written, a missing first band keeps every later final band missing |
| Supertrend.TrendOnMissing | services/indicators_helper.py:122-131 | with every upper band missing, the output is (missing, -1) |
| Supertrend.BandsDefinedAfterWarmup | services/indicators_helper.py:104-117 | under the corrected rule, the final bands are defined exactly where the basic bands are |
| Supertrend.DefinedAfterWarmup | services/indicators_helper.py:90-133 | the corrected Supertrend is defined exactly from index atr_period-1 on, and the direction is -1 or +1 |
| Supertrend.CorrectionConservative | services/indicators_helper.py:104-117 | with no missing basic band, the corrected rule equals the written one and is always defined |
| Supertrend.BandsRatchet | services/indicators_helper.py:105-117 | the upper band only moves down while the close stays at or below it; the lower band only moves up, the mirror case |
| IndicatorService.Bars | services/indicator_service.py:108-127 | the bar columns (open, high, low, close, adj_close) of the price rows, row for row |
| IndicatorService.CloseOf | services/indicator_service.py:28-39 | the close column, row for row |
| IndicatorService.AdjCloseOf | services/indicator_service.py:24-26 | the adj_close column, row for row |
| IndicatorService.PctChange | services/indicator_service.py:39 | pct_price_change keeps the length, is missing on the first row, and elsewhere is defined exactly when the previous close is non-zero |
| IndicatorService.PctChangeValue | services/indicator_service.py:39 | pct_price_change[t] = round((c[t]-c[t-1])/c[t-1]*100, 2) |
| IndicatorService.RatioMinusOne | services/indicator_service.py:39 | c/p - 1 = (c-p)/p, the step from pandas' ratio to the percentage move |
| IndicatorService.PctChangeSign | services/indicator_service.py:39 | a close at or above a positive previous close gives a change >= 0 |
| IndicatorService.MovingAverages | services/indicator_service.py:24-26 | the three SMA columns keep the frame's length |
| IndicatorService.Oscillators | services/indicator_service.py:28-33 | the RSI columns and their EMA and WMA keep the frame's length |
| IndicatorService.Bands20 | services/indicator_service.py:35 | the three Bollinger columns keep the frame's length |
| IndicatorService.ColumnsOf | services/indicator_service.py:24-39 | every indicator column has the frame's length |
| IndicatorService.RowAt | services/indicator_service.py:24-43 | the row at index t keeps that price row's date and bar |
| IndicatorService.Assemble | services/indicator_service.py:24-43 | adding the columns keeps the row count, order, dates and bars |
| IndicatorService.Compute | services/indicator_service.py:24-43 | the computed frame keeps the row count, order, dates and bars |
| IndicatorService.CalculateIndicators | services/indicator_service.py:22-48 | all rows in order without latest_only; exactly the last computed row with it; the empty frame back when it is empty (the handler) |
| IndicatorService.ComputeAt | services/indicator_service.py:24-43 | row t of the frame holds the t-th entry of every column |
| IndicatorService.MovingAverageColumns | services/indicator_service.py:24-26 | sma_20, sma_50 and sma_200 are the SMAs of adj_close |
| IndicatorService.OscillatorColumns | services/indicator_service.py:28-33 | rsi_3/9/14 are RSIs of close; ema_rsi_9_3 and wma_rsi_9_21 are taken over rsi_9 |
| IndicatorService.BandColumns | services/indicator_service.py:35 | the band columns are calculate_bollinger(close, 20, 2) |
| IndicatorService.CloseTrendColumns | services/indicator_service.py:38-39 | MACD, its signal and the percentage change are computed from close |
| IndicatorService.RangeColumns | services/indicator_service.py:36-37 | ATR(14) and Supertrend(10, 3) are computed from the bars |
| IndicatorService.SmaColumnsReadAdjClose | services/indicator_service.py:24-26 | two frames with equal adj_close have equal SMA columns whatever their close |
| IndicatorService.CloseColumnsReadClose | services/indicator_service.py:28-39 | two frames with equal close have equal RSI, EMA, WMA, Bollinger, MACD and change columns |
| IndicatorService.RsiWithin | services/indicators_helper.py:36-48 | every RSI value lies in [0, 100] |
| IndicatorService.RsiColumnsBounded | services/indicator_service.py:28-30 | the three RSI columns lie in [0, 100] at every row |
| IndicatorService.RowRsiBounds | services/indicator_service.py:28-30 | every row's RSI values lie in [0, 100] |
| IndicatorService.Bands20Ordered | services/indicator_service.py:35 | from row 19 on the three band columns are defined and lower <= middle <= upper |
| IndicatorService.RowsOfKeepsDates | services/indicator_service.py:133 | calculate_indicators(latest_only=False) keeps every row and its date |
| IndicatorService.Watermark | services/indicator_service.py:98-104 | MAX(date) is NULL exactly without rows; otherwise it is a stored date and no stored date is later |
| IndicatorService.AtOrBefore | services/indicator_service.py:113-116 | the bars dated at or before d, and no others |
| IndicatorService.FromDate | services/indicator_service.py:112 | the bars dated on or after a, and no others |
| IndicatorService.Anchor | services/indicator_service.py:112-118 | the OFFSET subquery finds a date exactly when more than lookback_rows bars are dated at or before the watermark, and that date is a bar's |
| IndicatorService.FetchWindow | services/indicator_service.py:107-127 | the fetched window holds only bars of the unit |
| IndicatorService.AfterWatermark | services/indicator_service.py:136-137 | the rows kept are exactly those dated after the watermark; all of them without one |
| IndicatorService.ToRecords | services/indicator_service.py:142-154 | one record per kept row, with its date and indicator values |
| IndicatorService.AtOrBeforeNone | services/indicator_service.py:113-116 | with every bar after d, nothing is at or before d |
| IndicatorService.AtOrBeforePrefix | services/indicator_service.py:113-116 | on a date-sorted series the bars at or before d form a prefix, and every later bar is after d |
| IndicatorService.FromDateAll | services/indicator_service.py:112 | with every bar on or after a, the filter keeps them all |
| IndicatorService.FromDateSuffix | services/indicator_service.py:112-119 | on a date-sorted series the bars from bars[j]'s date on are the suffix from j |
| IndicatorService.WindowShape | services/indicator_service.py:104-127 | the whole series without a watermark; empty when at most lookback_rows bars are at or before it (no fallback); otherwise the suffix from the (lookback_rows+1)-th most recent such bar |
| IndicatorService.AfterNone | services/indicator_service.py:136-139 | with no row after the watermark, nothing is kept |
| IndicatorService.NewRecordsFromWindow | services/indicator_service.py:135-154 | every inserted record has a window date after the watermark |
| IndicatorService.KeptDate | services/indicator_service.py:136-154 | a window bar after the watermark yields a record with its date |
| IndicatorService.NewRecordsCoverWindow | services/indicator_service.py:135-154 | every window date after the watermark is inserted |
| IndicatorService.NewRecordsNoneAfter | services/indicator_service.py:136-139 | a window with nothing after the watermark inserts nothing |
| IndicatorService.NewRecordDates | services/indicator_service.py:129-154 | the inserted dates are exactly the window's dates after the watermark |
| IndicatorService.NewRecordsAfterWatermark | services/indicator_service.py:112-139 | only dates after the watermark that are price dates are inserted; a short history under a watermark inserts nothing |
| IndicatorService.LastIsLatest | services/indicator_service.py:119-126 | in a date-sorted series the last bar is the latest |
| IndicatorService.WindowHasLast | services/indicator_service.py:107-127 | a non-empty window ends with the latest bar |
| IndicatorService.NewRecordsReachLast | services/indicator_service.py:129-157 | a unit that inserts anything inserts a record for its latest bar |
| IndicatorService.WatermarkAfterAppend | services/indicator_service.py:98-157 | after the insert the watermark is at least every inserted date |
| IndicatorService.NothingAfterLatest | services/indicator_service.py:135-139 | a watermark at or past the latest bar leaves nothing to insert |
| IndicatorService.NewRecordsSettle | services/indicator_service.py:97-158 | running a unit again with the same prices inserts no rows |
| IndicatorService.UnitRecords | services/indicator_service.py:97-158 | the per-unit record computation agrees with the new-record specification |
| IndicatorService.AgreesSettles | services/indicator_service.py:97-158 | every computation that agrees with the specification settles in one run |
| IndicatorService.SettleTwice | services/indicator_service.py:97-158 | bringing a unit up to date twice equals doing it once |
| IndicatorService.Step | services/indicator_service.py:96-165 | one id of the loop: a turn that inserts no rows leaves the store as it was |
| IndicatorService.StepEffect | services/indicator_service.py:96-165 | one id changes only its own unit, by appending, and counts exactly the rows it appended |
| IndicatorService.RunTimeframes | services/indicator_service.py:88-171 | one summary per timeframe |
| IndicatorService.RunKeys | services/indicator_service.py:62-66 | the completion flag is false exactly when an unknown key is reached |
| IndicatorService.RunKeysAborted | services/indicator_service.py:65-177 | once a key is unknown, the keys after it are never looked at |
| IndicatorService.AssetKeys | services/indicator_service.py:62 | the given non-empty list, else every key of ASSET_TABLE_MAP in order |
| IndicatorService.RunIdsSnoc | services/indicator_service.py:95-165 | the id loop over one more id is one more step, with processed_assets and inserted_rows updated as the source does |
| IndicatorService.AdvanceAgain | services/indicator_service.py:95-165 | processing a unit again in the same run changes nothing |
| IndicatorService.RunIdsAt | services/indicator_service.py:95-165 | after the id loop each listed unit holds its refreshed rows, however often its id repeats; other units are unchanged |
| IndicatorService.TimeframeStep | services/indicator_service.py:88-95 | the effect of one more timeframe combines with the effect of the earlier ones |
| IndicatorService.RunTimeframesAt | services/indicator_service.py:88-95 | after the timeframe loop each unit of those timeframes and ids is refreshed; others are unchanged |
| IndicatorService.KeyStep | services/indicator_service.py:65-95 | the effect of one more asset class combines with the effect of the earlier ones |
| IndicatorService.RefreshAt | services/indicator_service.py:62-165 | a reached unit ends with its old rows plus its new records, or only its old rows if it failed; every other unit is unchanged |
| IndicatorService.RefreshIdempotent | services/indicator_service.py:62-165 | a second refresh with unchanged prices changes nothing |
| IndicatorService.RefreshIndicatorsAt | services/indicator_service.py:62-165 | a reached, non-failing unit ends with its old rows plus exactly the new records calculate_indicators gives; every other unit is unchanged |
| IndicatorService.RunIdsCounters | services/indicator_service.py:91-161 | processed_assets <= ids and <= inserted_rows, and it is 0 exactly when inserted_rows is, in which case the store is unchanged |
| IndicatorService.Database.RefreshUnit | services/indicator_service.py:96-165 | the per-id try block updates the indicator store and counts rows as one step of the specification |
| IndicatorService.Database.RefreshTimeframe | services/indicator_service.py:91-161 | the loop over ids gives the specification's store and both counters |
| IndicatorService.Database.RefreshAsset | services/indicator_service.py:74-95 | the loop over timeframes gives the specification's store and summaries |
| IndicatorService.Database.RefreshKeys | services/indicator_service.py:65-177 | the loop over keys gives the specification's store, summaries and completion flag |
| IndicatorService.Database.RefreshIndicators | services/indicator_service.py:53-177 | refresh_indicators changes only the indicator store, as the specification over the chosen keys says |
| DataService.DailyInRange | services/scanners/data_service.py:45-47 | the daily rows dated between start and end, and no others |
| DataService.CoarseInRange | services/scanners/data_service.py:83-112 | the weekly (or monthly) rows dated between start and end, and no others |
| DataService.Candidates | services/scanners/data_service.py:89-118 | the merge on symbol_id then `weekly_date <= date`: exactly the coarse rows of the symbol dated at or before the daily row |
| DataService.MaxDate | services/scanners/data_service.py:91-96 | the latest date of a non-empty group, attained by one of its rows |
| DataService.Best | services/scanners/data_service.py:91-96 | the row whose column `.last()` reads: present in that column, with no later row present; none exactly when no row has it |
| DataService.LastValue | services/scanners/data_service.py:91-124 | `.last()` of a column is the value of a latest row where it is present, missing exactly when no row has it |
| DataService.Attach | services/scanners/data_service.py:91-96 | the attached coarse row has every enrichment column |
| DataService.AlignOne | services/scanners/data_service.py:89-124 | a daily row survives exactly when it has a weekly and a monthly row at or before its date, and then keeps its own daily columns |
| DataService.Align | services/scanners/data_service.py:89-124 | the output is never longer than the daily input |
| DataService.GetBaseData | services/scanners/data_service.py:14-23 | an unknown asset_type is a ValueError, and only then |
| DataService.AlignFromDaily | services/scanners/data_service.py:89-124 | every output row comes from a daily input row |
| DataService.AlignSurvivors | services/scanners/data_service.py:89-118 | a daily row is kept exactly when both coarse timeframes have a row at or before it; the others are dropped, not null-filled |
| DataService.HeadComesFirst | services/scanners/data_service.py:47 | in rows ordered by (symbol_id, date) the first row comes before every other |
| DataService.ConsOrdered | services/scanners/data_service.py:91-96 | a row placed before an ordered tail that it precedes keeps the order |
| DataService.HeadBeforeAligned | services/scanners/data_service.py:91-96 | the first daily row comes before every aligned row of the rest |
| DataService.AlignKeepsOrder | services/scanners/data_service.py:47-124 | the output is strictly ordered by (symbol_id, date), so it has at most one row per key |
| DataService.AttachAsOf | services/scanners/data_service.py:89-96 | the attached weekly date is the latest weekly date of the symbol at or before the daily date, never a later one |
| DataService.LastValueLatest | services/scanners/data_service.py:91-96 | the value kept comes from a row where the column is present and no such row is later |
| DataService.LastValueMissing | services/scanners/data_service.py:91-96 | `.last()` is missing only when every row of the group misses the column |
| DataService.AttachMissing | services/scanners/data_service.py:89-96 | an attached column is missing exactly when every candidate row misses it |
| DataService.AttachLatest | services/scanners/data_service.py:89-96 | a present attached column holds the value of the latest candidate row where it is present |
| DataService.GetBaseDataRows | services/scanners/data_service.py:14-127 | every returned row is a daily row in range whose weekly and monthly dates are the latest in range at or before it |
| DataService.AlignIsAlignOne | services/scanners/data_service.py:89-124 | every output row is the alignment of its own daily row |
| DataService.MinOf | services/scanners/data_service.py:203-207 | the minimum of a non-empty sequence is at most every element and is one of them |
| DataService.MinLow4At | services/scanners/data_service.py:203-207 | `MIN(low)` over the 4 preceding weeks: NULL exactly on the first week, else the smallest of those lows |
| DataService.SetupFrom | services/scanners/data_service.py:225-259 | every selected week belongs to its symbol |
| DataService.WeeksInRange | services/scanners/data_service.py:185-187 | the weekly price rows dated between start and end, and no others |
| DataService.WeeklyRange | services/scanners/data_service.py:165-166 | a missing start is 2000-01-01 and a missing end 2099-12-31; given dates are kept |
| DataService.GetBaseDataWeekly | services/scanners/data_service.py:150-270 | an unknown asset_type gives the empty frame, not an error |
| DataService.SetupFromSound | services/scanners/data_service.py:247-258 | every returned row is a week with an indicator row that meets all four conditions: close > sma_20, low <= min_low_4w, sma_20 two weeks back < sma_20, close >= last week's close |
| DataService.SetupFromComplete | services/scanners/data_service.py:247-258 | every week that meets the four conditions and has an indicator row is returned |
| DataService.SetupRowsFrom | services/scanners/data_service.py:180-259 | every row of the weekly setup query is a week of a listed symbol's price series within the date range and meets the four WHERE conditions |
| DataService.CandleType | services/scanners/data_service.py:480-507 | Doji exactly for the Doji shape (high = low, close = open, or body < 0.1*range); otherwise the label is in the Bullish family exactly when close > open |
| DataService.CandleLabels | services/scanners/data_service.py:485-507 | the label is always one of the nine fixed strings |
| DataService.LabelInjective | services/scanners/data_service.py:485-507 | different kinds of candle have different labels |
| DataService.PatternsExclusive | services/scanners/data_service.py:498-505 | once not a Doji, the hammer, inverted-hammer and marubozu shapes exclude one another |
| DataService.CandleShapes | services/scanners/data_service.py:498-507 | each non-Doji kind is returned exactly for its shape |
| Scanners.Filter | services/scanners/scanner_HM.py:20-29 | `df[mask]` keeps exactly the rows that pass the mask, never adds one and never lengthens the frame |
| Scanners.FilterAll | services/scanners/scanner_HM.py:20-29 | a mask every row passes leaves the frame as it is |
| Scanners.FilterSnoc | services/scanners/scanner_HM.py:20-29 | the mask is applied row by row: one more row is appended exactly when it passes |
| Scanners.ByKeyOrder | services/scanners/scanner_HM.py:30 | the (date descending, yahoo_symbol ascending) order is total and transitive |
| Scanners.Scan | services/scanners/scanner_weekly.py:20-26 | mask then sort: a permutation of the masked rows, so exactly the input rows that pass |
| Scanners.ScanSorted | services/scanners/scanner_weekly.py:26 | a scan's output is sorted by date descending, then yahoo_symbol ascending |
| Scanners.ScanIdempotent | services/scanners/scanner_weekly.py:20-26 | scanning a scan's output gives the same output |
| Scanners.ApplyHilegaMilega | services/scanners/scanner_HM.py:16-32 | an empty frame comes back unchanged; otherwise a permutation of exactly the rows meeting all nine conditions |
| Scanners.HilegaMilegaSorted | services/scanners/scanner_HM.py:30 | the Hilega-Milega output is sorted by date descending, then yahoo_symbol ascending |
| Scanners.HilegaMilegaIdempotent | services/scanners/scanner_HM.py:16-32 | applying the Hilega-Milega filter twice equals applying it once |
| Scanners.MissingColumns | services/scanners/scanner_HM.py:75 | exactly the required columns absent from the frame |
| Scanners.StartDay | services/scanners/scanner_HM.py:44-53 | without a start date (or with an empty one) the range starts today minus the lookback; a given one is used if it parses as `%Y-%m-%d`, and is an error otherwise |
| Scanners.RunHilegaMilega | services/scanners/scanner_HM.py:38-97 | a missing required column, an unparseable start date or an unknown asset type gives the empty frame |
| Scanners.RunHilegaMilegaRows | services/scanners/scanner_HM.py:11-92 | every signal meets the nine conditions and is a daily row dated from the start (today minus 60 days unless given) to today |
| Scanners.ApplyWeekly | services/scanners/scanner_weekly.py:17-28 | a permutation of exactly the rows with close >= 100, rsi_3/rsi_9 >= 1.15, rsi_9/ema_rsi_9_3 >= 1.04, ema/wma >= 1 and rsi_3 > 50 |
| Scanners.WeeklySorted | services/scanners/scanner_weekly.py:26 | the weekly output is sorted by date descending, then yahoo_symbol ascending |
| Scanners.WeeklyIdempotent | services/scanners/scanner_weekly.py:17-28 | applying the weekly filter twice equals applying it once |
| Scanners.ApplyPlay | services/scanners/scanner_play.py:20-22 | an empty frame comes back unchanged |
| Scanners.PlayIsWeekly | services/scanners/scanner_play.py:20-38 | the play scanner selects and orders exactly as the weekly scanner |
| Scanners.RunWeekly | services/scanners/scanner_weekly.py:40-86 | an unparseable start date or an unknown asset type gives the empty frame (start defaults to today minus 365 days) |
| Scanners.RunWeeklyRows | services/scanners/scanner_weekly.py:40-86 | every weekly signal meets the five weekly conditions and is a week of a listed symbol's series between the start date and today |
| Scanners.Years | services/scanners/scanner_play.py:124-125 | lookback_years years (none for a non-positive count): start_year, start_year-1, ... |
| Scanners.YearsDescend | services/scanners/scanner_play.py:124-125 | the years are scanned from the latest back, each once |
| Scanners.RunYear | services/scanners/scanner_play.py:126-137 | each year's scan covers YYYY-01-01 to YYYY-12-31, and every row meets the weekly conditions |
| Scanners.TagAll | services/scanners/scanner_play.py:141-142 | every row of the year is tagged with that year |
| Scanners.AllYearsRows | services/scanners/scanner_play.py:139-149 | the total row count is the sum of the yearly counts, and every row comes from the scan of its own year, one of the scanned years |
| Scanners.PlayYearsRows | services/scanners/scanner_play.py:121-149 | every row of the multi-year result is a weekly signal tagged with a year in (start_year - lookback_years, start_year], from that year's scan |
| Scanners.NextYear | services/scanners/scanner_play.py:124-143 | one more scanned year appends that year's tagged rows |
| Scanners.ScanYears | services/scanners/scanner_play.py:122-149 | the year loop yields the concatenation of the tagged, non-empty yearly results |
| Scanners.ScannerPlayMultiYears | services/scanners/scanner_play.py:111-162 | an unparseable start year gives the empty frame; otherwise the multi-year result of the year loop |
| Symbols.Normal | services/symbol_service.py:145-155 | `strip().upper()` never lengthens a text and is empty exactly for a blank one |
| Symbols.NormalOfNormal | services/symbol_service.py:145-155 | a text that is its own normal form has no white space at either end |
| Symbols.ListedCodesMembers | services/symbol_service.py:155 | the codes are exactly the stripped, upper-cased non-blank pieces, and none is empty |
| Symbols.ListedCodesEmpty | services/symbol_service.py:155-158 | no code is left exactly when every piece is blank |
| Symbols.ListedCodesNormal | services/symbol_service.py:155 | pieces that are already normal and non-empty come back unchanged |
| Symbols.ParseSelection | services/symbol_service.py:141-158 | a blank argument selects nothing; "ALL" (any case, any padding) selects every symbol; otherwise the non-blank comma pieces, normalised, are the codes, and none left selects nothing |
| Symbols.SelectionRoundTrip | services/symbol_service.py:141-158 | joining normal, comma-free codes with commas and parsing gives back exactly those codes |
| Symbols.NotAll | services/symbol_service.py:145-148 | a join of several codes, or of a single code other than "ALL", is never read as "ALL" |
| Symbols.CommaNotAll | services/symbol_service.py:148 | a text containing a comma is not "ALL" |
| Symbols.Listings | services/symbol_service.py:138 | the selected columns (symbol_id, name, yahoo_symbol) of each row |
| Symbols.ByYahooOrder | services/symbol_service.py:149-166 | ORDER BY yahoo_symbol is a total, transitive order |
| Symbols.Ordered | services/symbol_service.py:149-166 | the query's rows, sorted by yahoo_symbol, with nothing added or lost |
| Symbols.Retrieve | services/symbol_service.py:130-175 | unknown asset type, missing table or empty selection give nothing; "ALL" gives every row of the symbol table; a list gives the active rows with a listed code; always sorted by yahoo_symbol |
| Symbols.RetrieveAsWritten | services/symbol_service.py:160-175 | as written, a list selection filters on a column `symbol` the tables lack, so the query fails and the result is empty; other selections agree with Retrieve |
| Symbols.ListedCodeLost | services/symbol_service.py:160-175 | an active row with a listed code is found by the corrected query and lost as written |
| Symbols.Header | services/symbol_service.py:31 | the header after `c.lower().strip()`, column for column |
| Symbols.ColumnOf | services/symbol_service.py:33-39 | the position of a named column, in range exactly when the column exists |
| Symbols.Raws | services/symbol_service.py:39 | the three required cells of each CSV row |
| Symbols.Distinct | services/symbol_service.py:39 | `drop_duplicates()` keeps every value once, and only values of the input |
| Symbols.NormalRecords | services/symbol_service.py:41-48 | one normalised record per complete row |
| Symbols.NormalRecordIsNormal | services/symbol_service.py:43-45 | a record has a stripped name and a stripped, upper-cased code and exchange |
| Symbols.RecordsOf | services/symbol_service.py:30-48 | a missing required column is an error; otherwise every record is normal, comes from a row with no null cell, and every such row yields one |
| Symbols.RecordsOfRaws | services/symbol_service.py:39-48 | the records are exactly the normalised complete rows, never more than the rows |
| Symbols.RecordsCover | services/symbol_service.py:41-48 | every kept row yields its normalised record |
| Symbols.RecordsFrom | services/symbol_service.py:41-48 | every record is the normal form of a kept row |
| Symbols.NormalIdempotent | services/symbol_service.py:44-45 | normalising a normalised code changes nothing |
| Symbols.InsertOneFacts | services/symbol_service.py:59-63 | one insert keeps the earlier rows and key constraints, adds a row only for a new code with the next id and is_active TRUE, leaves the code in the table, and uses up one SERIAL value whether or not the code conflicts |
| Symbols.InsertAllKeeps | services/symbol_service.py:59-63 | the inserts keep every existing row as it is, and the key constraints, and advance the SERIAL sequence once per record |
| Symbols.InsertAllHas | services/symbol_service.py:59-63 | after the inserts every record's code is in the table |
| Symbols.InsertAllNew | services/symbol_service.py:59-63 | an added row carries a code the table lacked and a record's name, code and exchange |
| Symbols.FillOne | services/symbol_service.py:68-81 | the update sets name and exchange exactly on rows with the record's code and a NULL or empty name or exchange |
| Symbols.FillAllFacts | services/symbol_service.py:68-81 | the fill changes only name and exchange, only of rows with a missing field, from a record with that code; complete rows are untouched |
| Symbols.ReactivateOne | services/symbol_service.py:86-90 | is_active becomes TRUE exactly on the rows with the record's code |
| Symbols.ReactivateAllFacts | services/symbol_service.py:86-90 | reactivation sets is_active on exactly the listed codes' rows and changes nothing else |
| Symbols.KeyedSameKeys | services/symbol_service.py:68-90 | updates that keep ids and codes in place keep the key constraints |
| Symbols.StepsKeep | services/symbol_service.py:54-90 | a refresh loses no row, keeps every id, code and the key constraints, and overwrites no complete row's name or exchange |
| Symbols.StepsHas | services/symbol_service.py:54-90 | after a refresh every record's code is in the table, and active when the table has is_active |
| Symbols.Refreshed | services/symbol_service.py:24-100 | an unreadable CSV or a missing column is an error and changes nothing; no records means no writes; otherwise the three statements run and the count is the number of records |
| Symbols.SymbolTable.constructor | services/symbol_service.py:24 | an empty table whose id sequence starts at 1 |
| Symbols.SymbolTable.InsertRecords | services/symbol_service.py:59-63 | the insert loop leaves the table as the insert specification says, the sequence advancing on conflicting codes too |
| Symbols.SymbolTable.FillRecords | services/symbol_service.py:68-81 | the update loop leaves the rows as the fill specification says |
| Symbols.SymbolTable.ReactivateRecords | services/symbol_service.py:86-90 | the reactivation loop leaves the rows as the reactivation specification says |
| Symbols.SymbolTable.Refresh | services/symbol_service.py:24-104 | refresh_one_symbol_table gives the result and table state of the specification |
| Symbols.RefreshSymbols | services/symbol_service.py:108-117 | every configured table ends as its own refresh leaves it; a failing table keeps its state and the later tables are still refreshed |
| Symbols.MaxDate | services/symbol_service.py:209 | MAX(date) of a non-empty list is one of its dates and no date is later |
| Symbols.Dates | services/symbol_service.py:209-213 | the dates of the timeframe's rows, only active rows when filtered |
| Symbols.DatesHas | services/symbol_service.py:209-213 | every matching row's date is among the dates |
| Symbols.LatestTradingDate | services/symbol_service.py:186-230 | an unknown asset type raises; an is_active filter on a table without that column gives None; a date returned is the latest matching one; None otherwise means no matching row |
| Backtest.NextWeekday | services/scanners/backtest_service.py:112 | the first day strictly after the date on the given weekday, at most seven days on, with no such weekday in between |
| Backtest.NextWeekdayFacts | services/scanners/backtest_service.py:112 | the offset to the next given weekday is between 1 and 7 and skips no such weekday |
| Backtest.NextMonday | services/scanners/backtest_service.py:15-17 | `7 - weekday()` days on is a Monday, strictly after the date and at most a week on, and the first Monday after it |
| Backtest.WeekStart | services/scanners/backtest_service.py:77 | a W-MON bucket starts on the Tuesday on or before the date, less than a week earlier |
| Backtest.WeekStartMonotone | services/scanners/backtest_service.py:77-80 | later dates never fall into earlier buckets |
| Backtest.MondayBuckets | services/scanners/backtest_service.py:77 | two Mondays share a bucket exactly when they are the same day |
| Backtest.OnDate | services/scanners/backtest_service.py:96-106 | the entry query finds a bar dated on the signal day exactly when there is one |
| Backtest.FirstAfter | services/scanners/backtest_service.py:274-283 | the daily entry query's bar is dated after the signal day |
| Backtest.FirstAfterSplits | services/scanners/backtest_service.py:274-283 | on an ascending series the bars after the day are exactly those from the found one on, and none is found exactly when no bar is later |
| Backtest.LastAtOrBefore | services/scanners/backtest_service.py:113-123 | the weekly exit query's bar is one of the series |
| Backtest.LastAtOrBeforeSplits | services/scanners/backtest_service.py:113-123 | on an ascending series the bars up to the day are exactly those up to the found one, and none is found exactly when every bar is later |
| Backtest.FifthAfter | services/scanners/backtest_service.py:288-297 | `LIMIT 1 OFFSET 4` returns a bar of the series |
| Backtest.FifthAfterIsFifth | services/scanners/backtest_service.py:288-297 | on an ascending series the exit is the fifth bar after the day; without one fewer than five bars follow the day |
| Backtest.ByDateOrder | services/scanners/backtest_service.py:74 | sorting by date uses a total, transitive order |
| Backtest.Buckets | services/scanners/backtest_service.py:77 | one bucket per row, the bucket of its date |
| Backtest.Dedup | services/scanners/backtest_service.py:80 | collapsing repeats keeps exactly the same buckets and the last one |
| Backtest.DedupIncreasing | services/scanners/backtest_service.py:80 | the buckets of a date-sorted file, collapsed, are strictly increasing |
| Backtest.WeekKeysAscending | services/scanners/backtest_service.py:77-80 | the groupby visits every bucket of the file once, in ascending order, and no other |
| Backtest.Pnl | services/scanners/backtest_service.py:128-130 | a long trade loses less than its allocation, its return on the allocation is the price return, and it gains exactly when the exit is not below the entry |
| Backtest.WeeklyLegs | services/scanners/backtest_service.py:96-126 | the entry bar is dated on the signal day and both legs are bars of the series |
| Backtest.WeeklyLegsExist | services/scanners/backtest_service.py:105-123 | the trade is skipped exactly when no bar is dated on the signal day; the exit query then never comes back empty |
| Backtest.WeeklyLegsWindow | services/scanners/backtest_service.py:112-126 | on an ascending series the exit is dated from the entry up to the following Friday and no later bar is on or before that Friday |
| Backtest.WeeklyTradeOf | services/scanners/backtest_service.py:91-147 | a trade opens exactly when its legs exist; it carries the signal, the symbol's name and yahoo symbol (or ""), the rounded allocation, P&L and price return, and its P&L exceeds minus the allocation |
| Backtest.SignalsOf | services/scanners/backtest_service.py:136-147 | the signal of each trade, in order |
| Backtest.WeekTradesSignals | services/scanners/backtest_service.py:91-147 | the week's trades are those of its rows whose legs exist, in row order |
| Backtest.WeekTradesLoss | services/scanners/backtest_service.py:128-131 | a week loses less than the allocation times its number of trades, and a week without trades has P&L 0 |
| Backtest.StakesProduct | services/scanners/backtest_service.py:88 | k equal allocations add up to k times the allocation |
| Backtest.TradeFn | services/scanners/backtest_service.py:91-147 | the trade of any row at a positive allocation, opened exactly when its legs exist |
| Backtest.WeekStep | services/scanners/backtest_service.py:84-157 | one week keeps the capital positive, appends at most one trade per row (those of the rows that trade, in order), and keeps the log agreeing with the capital |
| Backtest.ApplyWeekFacts | services/scanners/backtest_service.py:149-157 | the trades are appended; the capital moves and a log row is added exactly when the week's P&L is not zero |
| Backtest.WeekLogRow | services/scanners/backtest_service.py:150-157 | a logged week records its bucket, its signal count, its rounded P&L and the rounded new capital |
| Backtest.CapitalStaysPositive | services/scanners/backtest_service.py:88-131 | trades sharing a positive capital equally can never lose all of it |
| Backtest.Run | services/scanners/backtest_service.py:78-157 | the capital after the weeks loop stays positive and the last log row holds it rounded |
| Backtest.RunTrades | services/scanners/backtest_service.py:80-82 | every trade comes from a row of the file, none from the latest week |
| Backtest.MaxOf | services/scanners/backtest_service.py:164 | `max` is an element not below any other |
| Backtest.MinOf | services/scanners/backtest_service.py:165 | `min` is an element not above any other |
| Backtest.WinsCount | services/scanners/backtest_service.py:163 | all returns positive: every trade counts as a win; none positive: no win |
| Backtest.StatsOf | services/scanners/backtest_service.py:160-168 | the trade count, a win rate between 0 and 100, the worst return not above the best, and zeros for no trades |
| Backtest.StatsExtremes | services/scanners/backtest_service.py:164-165 | the best and worst figures are the rounded largest and smallest returns |
| Backtest.StatsWinRate | services/scanners/backtest_service.py:163 | all returns positive give a win rate of 100, none positive 0 |
| Backtest.ReturnsOf | services/scanners/backtest_service.py:160 | the return of each trade, in order |
| Backtest.SummaryOf | services/scanners/backtest_service.py:170-183 | the final capital is not negative, the loss never exceeds the initial capital, the return never goes below -100%, and an untouched capital reports 1000000, 0 and 0 |
| Backtest.SummaryBounds | services/scanners/backtest_service.py:170-172 | the three roundings keep those bounds |
| Backtest.ScannerName | services/scanners/backtest_service.py:137-175 | `replace(".csv", "")` never lengthens the name |
| Backtest.ColumnCheckAsWritten | services/scanners/backtest_service.py:68-71 | as written every missing column is logged but the `continue` only skips to the next column, so no file is skipped |
| Backtest.ColumnCheckLetsThrough | services/scanners/backtest_service.py:68-71 | a file with symbol_id and date but no yahoo_symbol column passes the check as written |
| Backtest.SkipsFile | services/scanners/backtest_service.py:68-71 | the intended check skips a file exactly when one of symbol_id, yahoo_symbol and date is missing |
| Backtest.WeeklyOutcome | services/scanners/backtest_service.py:57-187 | an empty file or one missing a column is skipped; otherwise its summary carries its name and its trades' statistics, a non-negative final capital, and trades only from its rows and from weeks before its latest |
| Backtest.SortKeepsRows | services/scanners/backtest_service.py:74 | sorting keeps the rows of the file |
| Backtest.LatestWeekSkipped | services/scanners/backtest_service.py:78-82 | every trade's week is earlier than the latest week of the file |
| Backtest.WeeklyFiles | services/scanners/backtest_service.py:52-191 | at most one summary per file |
| Backtest.ByScannerOrder | services/scanners/backtest_service.py:206 | sorting by scanner uses a total, transitive order |
| Backtest.BacktestWeekly | services/scanners/backtest_service.py:23-217 | an empty or missing path, or no csv file, gives nothing; a path that is not a directory raises from `os.listdir`; an unknown asset type raises; otherwise the summaries of the files sorted by scanner and every trade |
| Backtest.WeekRows | services/scanners/backtest_service.py:91-147 | the rows loop gives the week's trades and P&L |
| Backtest.WeekBody | services/scanners/backtest_service.py:80-157 | the body of the weeks loop does what one week of the specification does, the latest week passed over |
| Backtest.WeekLoop | services/scanners/backtest_service.py:80-157 | the weeks loop gives the specification's ledger |
| Backtest.WeeklyFile | services/scanners/backtest_service.py:57-191 | processing one file gives its outcome |
| Backtest.BacktestWeeklyScanners | services/scanners/backtest_service.py:23-217 | backtest_weekly_scanners computes the weekly backtest |
| Backtest.DailyLegs | services/scanners/backtest_service.py:274-300 | the entry bar is dated after the signal day and both legs are bars of the series |
| Backtest.DailyLegsWindow | services/scanners/backtest_service.py:274-300 | on an ascending series the entry is the first bar after the signal day and the exit five bars later; no trade when fewer than five bars follow the entry |
| Backtest.DailyTradeOf | services/scanners/backtest_service.py:270-317 | a trade opens exactly when its legs exist, at the entry's open and the exit's close, rounded, with the price return in percent |
| Backtest.DailyTradesFrom | services/scanners/backtest_service.py:270-317 | every trade is the trade of one of the rows, at most one per row |
| Backtest.DailyTradesCover | services/scanners/backtest_service.py:270-317 | every row whose legs exist adds its trade |
| Backtest.DailyTradeFn | services/scanners/backtest_service.py:270-317 | the trade of any row |
| Backtest.DailyReturns | services/scanners/backtest_service.py:319 | the return of each trade, in order |
| Backtest.DailyStepStats | services/scanners/backtest_service.py:319-335 | a file's statistics are those of its own trades when no earlier file had its name; its trades are those of its rows |
| Backtest.ByDailyScannerOrder | services/scanners/backtest_service.py:352 | sorting by scanner uses a total, transitive order |
| Backtest.BacktestDaily | services/scanners/backtest_service.py:223-357 | an empty or missing path, or no csv file, gives nothing; a path that is not a directory raises from `os.listdir`; an unknown asset type raises; otherwise every trade and the summaries sorted by scanner |
| Backtest.DailyRows | services/scanners/backtest_service.py:270-317 | the rows loop appends each row's trade to the trades so far |
| Backtest.DailyFile | services/scanners/backtest_service.py:255-339 | processing one file gives the specification's next state |
| Backtest.BacktestDailyScanners | services/scanners/backtest_service.py:223-357 | backtest_daily_scanners computes the daily backtest |
| Week52.Window | services/weekly_monthly_service.py:44-46 | exactly the symbol's daily bars dated on or after the cutoff |
| Week52.MaxHigh | services/weekly_monthly_service.py:42 | MAX(high) is NULL exactly when every high is NULL, and otherwise a high of the bars not below any other |
| Week52.MinLow | services/weekly_monthly_service.py:42 | MIN(low) is NULL exactly when every low is NULL, and otherwise a low of the bars not above any other |
| Week52.DailyIds | services/weekly_monthly_service.py:27-32 | SELECT DISTINCT lists each symbol with a daily bar exactly once |
| Week52.ExtremesOfFrom | services/weekly_monthly_service.py:41-50 | every aggregated row belongs to a listed symbol and holds the MAX(high) and MIN(low) of its window |
| Week52.ExtremesOfGrows | services/weekly_monthly_service.py:41-50 | aggregating more ids keeps the rows of fewer |
| Week52.ExtremesOfHas | services/weekly_monthly_service.py:41-50 | every listed symbol whose window has a non-NULL high is aggregated |
| Week52.ExtremesOfIds | services/weekly_monthly_service.py:41-50 | every aggregated row belongs to a listed symbol |
| Week52.ExtremesOfDistinct | services/weekly_monthly_service.py:47 | GROUP BY gives one row per symbol |
| Week52.HighAtLeastLow | services/weekly_monthly_service.py:42-50 | when each bar's high is at least its low, an aggregated high is never below its low |
| Week52.UpsertAllFacts | services/weekly_monthly_service.py:58-68 | after the upserts every processed symbol holds its high, low and the day, and every other symbol's row is as it was |
| Week52.RefreshStats | services/weekly_monthly_service.py:8-77 | an unknown key changes nothing, and a refresh touches no table but the key's stats table |
| Week52.AggregateRows | services/weekly_monthly_service.py:27-68 | each symbol whose window has a high ends with its 52-week high, low and the day; every other symbol is as it was |
| Week52.RefreshStatsRows | services/weekly_monthly_service.py:16-70 | a known key's stats table ends as the upserts of its price table's aggregation leave it |
| Week52.StatsTable.constructor | services/weekly_monthly_service.py:60 | an empty stats table |
| Week52.StatsTable.Upsert | services/weekly_monthly_service.py:59-68 | INSERT ... ON CONFLICT DO UPDATE sets the symbol's row and nothing else |
| Week52.StatsTable.UpsertRows | services/weekly_monthly_service.py:58-68 | the upsert loop leaves the rows as the upserts specify |
| Week52.Contents | services/weekly_monthly_service.py:16 | the contents of every named stats table |
| Week52.RefreshWeek52 | services/weekly_monthly_service.py:8-77 | refresh_week52_high_low_stats leaves the tables as the refresh specifies |
| Week52.RefreshAllWeek52 | services/weekly_monthly_service.py:92-94 | refresh_all_week52_stats refreshes every key of the registry in order |
| Week52.RefreshAllOnlyStats | services/weekly_monthly_service.py:92-94 | refreshing every key changes no table other than the registry's stats tables |
| Cleanup.TableName | services/cleanup_service.py:27-36 | a data type other than 'price' or 'indicator' is a ValueError; otherwise the asset's price or indicator table, whatever is_index says |
| Cleanup.RuleOf | services/cleanup_service.py:41-56 | '1wk' selects the Monday rule, '1mo' the first-of-month rule, any other timeframe none |
| Cleanup.RemainingFacts | services/cleanup_service.py:67-74 | the DELETE adds nothing, keeps rows of other timeframes and rows keeping the rule, and leaves no row of the timeframe that breaks it |
| Cleanup.WeeklyMondays | services/cleanup_service.py:41-74 | after a weekly cleanup every weekly row is dated on a Monday |
| Cleanup.MonthlyFirsts | services/cleanup_service.py:48-74 | after a monthly cleanup every monthly row is dated on the first of a month |
| Cleanup.RemainingIdempotent | services/cleanup_service.py:67-74 | a second cleanup with the same timeframe deletes nothing |
| Cleanup.DeleteInvalid | services/cleanup_service.py:18-82 | a bad data type or timeframe is a ValueError and changes nothing; a missing table fails and changes nothing; otherwise only the chosen table loses exactly its rule-breaking rows of the timeframe, and the count is the number deleted |
| Cleanup.DataTable.constructor | services/cleanup_service.py:67 | a table holding the given rows |
| Cleanup.DataTable.DeleteBreaking | services/cleanup_service.py:67-74 | the DELETE leaves the rows that keep the rule and returns how many it removed |
| Cleanup.Contents | services/cleanup_service.py:33-36 | the rows of every named table |
| Cleanup.DeleteInvalidTimeframeRows | services/cleanup_service.py:18-82 | delete_invalid_timeframe_rows has the result and table effect of the specification |
| Bhavcopy.ByNameOrder | services/bhavcopy_loader.py:241 | `sorted` on file names uses a total, transitive order |
| Bhavcopy.BhavcopyFiles | services/bhavcopy_loader.py:241-244 | exactly the listed names ending in ".csv" and containing "sec_bhavdata_full_", each as often as listed, sorted |
| Bhavcopy.FileDate | services/bhavcopy_loader.py:273-274 | a date read from a file name is a valid calendar date |
| Bhavcopy.FileDateIso | services/bhavcopy_loader.py:273-274 | the name has an ISO date exactly when it has a date, and the ISO text parses back to it |
| Bhavcopy.FileDateRoundTrip | services/bhavcopy_loader.py:272-277 | the file download_bhavcopy saves for a day is a bhavcopy name, and its name gives back that day and its ISO form |
| Bhavcopy.HistoricalSymbolOf | services/bhavcopy_loader.py:42-43 | a historical file "<code>_..." belongs to the upper-cased code with ".NS" |
| Bhavcopy.SymbolMap | services/bhavcopy_loader.py:34 | the keys are exactly the upper-cased yahoo symbols of the listings, each mapped to the id of a listing with that key |
| Bhavcopy.StrippedHeader | services/bhavcopy_loader.py:54 | each column stripped, in order |
| Bhavcopy.UpperHeader | services/bhavcopy_loader.py:424 | each column stripped and upper-cased, in order |
| Bhavcopy.RemoveCommasNone | services/bhavcopy_loader.py:324-325 | a text without commas is unchanged by `replace(",", "")` |
| Bhavcopy.CleanFloat | services/bhavcopy_loader.py:325 | a missing value stays missing; a text is cleaned exactly when float() accepts it without its commas |
| Bhavcopy.CleanInt | services/bhavcopy_loader.py:324 | a missing value stays missing; a text is cleaned exactly when int() accepts it without its commas |
| Bhavcopy.CleanIgnoresCommas | services/bhavcopy_loader.py:324-325 | thousands separators do not change a cleaned value |
| Bhavcopy.DelvCell | services/bhavcopy_loader.py:446-450 | the cleaned delivery percentage, any failure read as missing |
| Bhavcopy.PriceRecordOf | services/bhavcopy_loader.py:327-335 | the record exists exactly when every field cleans; LAST_PRICE becomes close and CLOSE_PRICE adj_close, the rest by name |
| Bhavcopy.MissingColumnIsNone | services/bhavcopy_loader.py:313-333 | a missing column gives a missing value, never an error |
| Bhavcopy.StartDay | services/bhavcopy_loader.py:149-175 | an override must be an ISO date (else the run ends) and starts the day after it; otherwise the day after the latest daily bar, or after today - 30 when there is none or the query fails |
| Bhavcopy.DaysFrom | services/bhavcopy_loader.py:201-211 | the days from the start to today inclusive, one after the other |
| Bhavcopy.DaysFromOnce | services/bhavcopy_loader.py:202-211 | every day of the range is visited once, in increasing order |
| Bhavcopy.DownloadMissing | services/bhavcopy_loader.py:144-211 | no request when the start is unknown; otherwise one request per day, formatted DDMMYYYY, and the count equals the number of days |
| Bhavcopy.HistValue | services/bhavcopy_loader.py:62-66 | a row has a value exactly when its Date parses as DD-Mon-YYYY |
| Bhavcopy.HistValues | services/bhavcopy_loader.py:61-72 | the values are those of the rows whose date parses, never more than the rows |
| Bhavcopy.UpdateAllFacts | services/bhavcopy_loader.py:74-84 | the UPDATE adds no row, changes only delv_pct, and only on the symbol's daily rows of the listed dates |
| Bhavcopy.UpdateAllSets | services/bhavcopy_loader.py:74-84 | with one value per date, each existing daily row of a listed date ends with that date's value |
| Bhavcopy.HistFileFacts | services/bhavcopy_loader.py:41-93 | one historical file adds no row, keeps the price columns, and touches only a listed symbol's daily rows |
| Bhavcopy.HistUpdateFacts | services/bhavcopy_loader.py:27-102 | the historical update adds no row, keeps every price column, and touches only the listed symbols' daily rows |
| Bhavcopy.RemoveNsSuffix | services/bhavcopy_loader.py:436 | removing ".NS" from "<code>.NS" gives the code when the code holds no ".NS" |
| Bhavcopy.MatchCodeOfListing | services/bhavcopy_loader.py:429-436 | a listing "<CODE>.NS" matches the CSV symbol CODE |
| Bhavcopy.FirstIndex | services/bhavcopy_loader.py:438-443 | the first row with the code, and none exactly when no row has it |
| Bhavcopy.Upserted | services/bhavcopy_loader.py:389-394 | a new row gets only delv_pct; an existing row keeps its price columns; no other row changes |
| Bhavcopy.SheetOf | services/bhavcopy_loader.py:429-448 | one cleaned symbol and delivery value per CSV row |
| Bhavcopy.DelvStepOthers | services/bhavcopy_loader.py:432-457 | one listing's upsert changes no other symbol's row |
| Bhavcopy.DelvMatchesFacts | services/bhavcopy_loader.py:432-457 | at most one upsert per listing, each keeping existing price columns and touching only a listed symbol's daily row |
| Bhavcopy.DelvMatchesSets | services/bhavcopy_loader.py:432-457 | with distinct ids, a listing found in the file ends with the delivery value of the first matching row on the file's day |
| Bhavcopy.DelvFilesFacts | services/bhavcopy_loader.py:399-457 | at most one upsert per listing and file; price columns kept; only listed symbols' daily rows added or changed |
| Bhavcopy.DelvUpdateFacts | services/bhavcopy_loader.py:357-457 | no symbols or no bhavcopy file changes nothing; otherwise the file bounds above hold |
| Bhavcopy.PriceTable.constructor | services/bhavcopy_loader.py:390 | a price table holding the given rows |
| Bhavcopy.PriceTable.UpdateValues | services/bhavcopy_loader.py:72-85 | the UPDATE of one historical file leaves the rows as the specification says |
| Bhavcopy.PriceTable.UpdateHistDelvPct | services/bhavcopy_loader.py:27-102 | update_hist_delv_pct_from_bhavcopy leaves the rows as the historical update says |
| Bhavcopy.PriceTable.UpsertListing | services/bhavcopy_loader.py:432-457 | one listing's upsert and count, as specified |
| Bhavcopy.PriceTable.UpsertListings | services/bhavcopy_loader.py:432-457 | the listings loop of one file, as specified |
| Bhavcopy.PriceTable.UpdateFromFile | services/bhavcopy_loader.py:400-457 | one daily file: skipped or upserted, as specified |
| Bhavcopy.PriceTable.UpdateFromFiles | services/bhavcopy_loader.py:399-457 | the files loop, its upserts counted |
| Bhavcopy.PriceTable.UpdateEquityDelvPct | services/bhavcopy_loader.py:357-457 | update_equity_delv_pct_from_bhavcopy gives the specified total and rows |

## Left out

- Database connections, cursors, commits, closes, logging, progress bars, `print`ed tables and CSV exports are left out. Only the row effects of the SQL statements are modelled.
- The scanners' output folders are left out because they are file-system work. This covers `SCANNER_FOLDER_PLAY/asset_type` (services/scanners/scanner_play.py:118), the clearing of old output and the saving of results.
- The old-file clearing in download_missing_bhavcopies (services/bhavcopy_loader.py:182-197) is left out as file-system work. download_bhavcopy's HTTP request is left out too; the model records only which days are requested.
- Floating point is modelled as exact reals. Rounding is the one exception and is modelled explicitly. The square root is a parameter because Dafny's reals have none.
- Indicators.Bollinger: states the band symmetry on the unrounded bands. The rounded bands are only shown to be ordered, because rounding can break exact symmetry.
- A rolling window of 0, which pandas accepts, is modelled as a failed indicator. The safe fallback then gives all-missing columns.
- Sorting is an insertion sort that keeps equal elements in input order. pandas' `sort_values` is not guaranteed to be stable, so the model fixes one order among those it may return.
- `os.listdir` order is taken as the list given. String order is code-point order, not the database collation.
- The LOOKBACK_DAYS constant of services/scanners/data_service.py is not used by the modelled code and is left out.
- update_equity_price_from_bhavcopy (services/bhavcopy_loader.py:224-351) fails before its first write. It reads the column `symbol`, which retrieve_symbols never selects, and its SQL uses `?` placeholders, which psycopg2 does not accept. Only its column mapping and numeric cleaning (Bhavcopy.PriceRecordOf) are modelled.
- update_hist_delv_pct_from_bhavcopy: when one UPDATE ... FROM VALUES lists a date twice, PostgreSQL picks one of the rows unpredictably. Bhavcopy.UpdateAllSets is stated only for files with one value per date.
- Calendar.ParseIso: strptime also accepts non-padded forms such as "2024-1-5". The model accepts only the zero-padded form.
- Calendar.ParseDdmmyyyy: same limit as Calendar.ParseIso, the zero-padded eight-digit form only.
- Bhavcopy.CleanFloat: Python's float() also accepts exponents, "inf" and "nan". The model accepts only plain decimal notation, and refuses the rest as a ValueError.
- get_latest_equity_date_no_delv (services/symbol_service.py:239-267) is not among the core operations and is left out.
- A CSV header that repeats a column name is read as its first occurrence. pandas would rename the duplicates.
- download_missing_bhavcopies: an override given as a `datetime` or `date` object is not modelled. Only the string form and a missing override are. A non-ISO override ends the run, as the source's except clause does.
- Bhavcopy.HistValue: a delivery percentage that to_numeric turns into NaN is carried as a missing value. psycopg2 sends NaN as `'NaN'::float`, so the source stores NaN and the model stores NULL. Dafny's reals have no NaN.
- Bhavcopy.PriceTable.UpdateHistDelvPct: stores NULL where the source stores NaN, as for Bhavcopy.HistValue.
- Bhavcopy.DelvCell: a DELIV_PER text such as "nan" gives NaN in float(), which the source stores as NaN. The model reads it as missing.
- Text.IsSpace: only the ASCII and Latin-1 white space that `strip()` removes. Python's `strip()` also removes other Unicode white space.
- Text.UpperChar: maps ASCII letters only. Python's `upper()` maps every cased Unicode letter.
- Text.LowerChar: maps ASCII letters only, like Text.UpperChar. Python's `lower()` maps every cased Unicode letter.
- Text.ParseInteger: accepts ASCII digits with an optional sign and surrounding white space. Python's `int()` also accepts `_` between digits and non-ASCII decimal digits.
- Calendar.ParseDdMonYyyy: accepts a one- or two-digit day. strptime's `%d` also accepts a day padded with a space, and that form is not modelled.
- Backtest.SkipsFile is the intended column check, and every backtest member skips a file on it. As written, the source's check skips nothing (Backtest.ColumnCheckAsWritten). A file without date then fails with a KeyError that the per-file except clause catches, so that file is still skipped. A file without symbol_id fails only when a row is reached. In the weekly backtest, a file whose rows all lie in its latest week therefore gives a zero-trade summary. A file without yahoo_symbol is processed normally, because nothing reads that column from the file. The members below follow the intended check and not this behaviour.
- Backtest.WeeklyOutcome: skips a file by the intended check, as described for Backtest.SkipsFile.
- Backtest.WeeklyFiles: skips files by the intended check, as described for Backtest.SkipsFile.
- Backtest.BacktestWeekly: skips files by the intended check, as described for Backtest.SkipsFile.
- Backtest.WeeklyFile: skips a file by the intended check, as described for Backtest.SkipsFile.
- Backtest.BacktestWeeklyScanners: skips files by the intended check, as described for Backtest.SkipsFile.
- Backtest.DailyStepStats: skips a file by the intended check, as described for Backtest.SkipsFile.
- Backtest.BacktestDaily: skips files by the intended check, as described for Backtest.SkipsFile.
- Backtest.DailyFile: skips a file by the intended check, as described for Backtest.SkipsFile.
- Backtest.BacktestDailyScanners: skips files by the intended check, as described for Backtest.SkipsFile.
- Backtest.PositivePrices: the backtests require every open and close price to be positive. With a NULL price the source raises a TypeError, and with a zero price it computes inf or NaN shares. The per-file except clause then loses that file's result. Neither case is modelled.
- DataService.WeeklyBar: prices are plain reals. The SQL columns are nullable, and NULL comparisons and the way AVG and MIN skip NULL are not modelled.
- Supertrend.SupertrendSpec is the corrected Supertrend (see "## Findings"), and the indicator members compose it. As written, the source stores a NULL supertrend and direction -1 on every row (Supertrend.SupertrendAsWritten). The members below store the corrected values.
- IndicatorService.ColumnsOf: gives the corrected Supertrend columns, as described for Supertrend.SupertrendSpec.
- IndicatorService.Compute: computes the corrected Supertrend, as described for Supertrend.SupertrendSpec.
- IndicatorService.CalculateIndicators: computes the corrected Supertrend, as described for Supertrend.SupertrendSpec.
- IndicatorService.ComputeAt: computes the corrected Supertrend, as described for Supertrend.SupertrendSpec.
- IndicatorService.RangeColumns: gives the corrected Supertrend columns, as described for Supertrend.SupertrendSpec.
- IndicatorService.ToRecords: writes the corrected Supertrend, as described for Supertrend.SupertrendSpec.
- IndicatorService.RefreshIndicatorsAt: stores the corrected Supertrend, as described for Supertrend.SupertrendSpec.
- IndicatorService.Database.RefreshUnit: stores the corrected Supertrend, as described for Supertrend.SupertrendSpec.
- IndicatorService.Database.RefreshTimeframe: stores the corrected Supertrend, as described for Supertrend.SupertrendSpec.
- IndicatorService.Database.RefreshAsset: stores the corrected Supertrend, as described for Supertrend.SupertrendSpec.
- IndicatorService.Database.RefreshKeys: stores the corrected Supertrend, as described for Supertrend.SupertrendSpec.
- IndicatorService.Database.RefreshIndicators: stores the corrected Supertrend, as described for Supertrend.SupertrendSpec.
- IndicatorService.PctChange: after a zero previous close, pandas' pct_change gives +inf or -inf for a non-zero close and NaN for a zero close, and executemany stores those floats. The model stores a missing value there, since Dafny's reals have neither infinities nor NaN.
- IndicatorService.ToRecords: every missing indicator value, the warm-up rows included, is a pandas NaN that psycopg2 sends as `'NaN'::float`. The indicator table then holds NaN where the model holds NULL, as for Bhavcopy.HistValue.
- Symbols.Retrieve: matches the listed codes against yahoo_symbol, the intended query of the "## Findings" row. The source as written is Symbols.RetrieveAsWritten.
- Transactions are modelled per unit. refresh_indicators has no rollback in its per-unit except clause, so after a database error PostgreSQL would reject the later units of the same transaction. The model treats every unit as isolated.
- Backtest.WeekStart: models `to_period('W-MON').start_time` as pandas defines it. A W-MON week ends on a Monday, so its buckets start on Tuesdays.
- get_latest_trading_date adds `is_active = TRUE` for four asset types. Whether a price table has that column is a flag of the model. When the flag is false the query fails and the result is None.
- refresh_week52_high_low_stats: the rollback after a failure is modelled as "nothing changes". Failures part-way through the upsert loop are not modelled separately.
- The weekly and monthly helpers of services/scanners/data_service.py that are commented out in the source are not modelled.

## Findings

| source | as written | input that shows it | evidently intended | confidence | as-written member | corrected member |
|---|---|---|---|---|---|---|
| services/indicators_helper.py:73, 104-117 | The ATR uses `min_periods=atr_period`, so the first basic band is NaN. Every later comparison with a NaN final band is false, so the final bands stay NaN. The Supertrend is then NaN all the way and the direction is -1 all the way. | any frame with atr_period >= 2 (the default is 10) | a missing previous final band takes the current basic band, so the indicator is defined once the ATR is | not executed | Supertrend.SupertrendAsWritten, Supertrend.AsWrittenNeverDefined | Supertrend.SupertrendSpec, Supertrend.ComputeSupertrend |
| services/scanners/backtest_service.py:68-71, 262-265 | The `continue` in the missing-column check only moves on to the next column, so a file missing a column is still processed. | a scanner file with columns symbol_id and date but no yahoo_symbol | skip the file when symbol_id, yahoo_symbol or date is missing | not executed | Backtest.ColumnCheckAsWritten, Backtest.ColumnCheckLetsThrough | Backtest.SkipsFile |
| services/symbol_service.py:160-170 | A list selection filters on a column `symbol` that the symbol tables do not have. The query fails and the except clause returns an empty frame. | symbol "INFY.NS" for india_equity with an active INFY.NS row | match the listed codes against yahoo_symbol | not executed | Symbols.RetrieveAsWritten, Symbols.ListedCodeLost | Symbols.Retrieve |
