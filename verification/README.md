# YouTube channel dashboard: data pipeline model

This project models the data pipeline of `youtube_dashboard.py` in Dafny. That script is a Streamlit dashboard for channel statistics. The pipeline has these stages:

- **Active dataset.** An uploaded CSV is used only if it reads, names all eight required columns, and its `Date` column converts. Otherwise the dashboard falls back to the built-in sample: 365 days of 2019, with every counter a fixed multiple of the row index. It shows an error that says which failure happened.
- **Date filter.** Rows are kept when `start <= Date <= end`, inclusive at both ends.
- **Resampling.** Weekly, Monthly and Quarterly sum the numeric columns per calendar period, labelled by the period's last day. Every other time frame copies the filtered rows unchanged.
- **Statistic cards.** The Subscribers, Views, Watch Hours and Likes totals are shown with `format_number`'s B/M/K abbreviation, such as `(1.5K)`.
- **Charts.** `create_chart` picks the chart kind from the chart-type selector. The colour comes from the per-metric table, and the title is `"{title} ({time_frame})"`.

Dates are day numbers counted from 1970-01-01. The numeric cells are `nat`. The title cell is an `Option<string>`: rows produced by summing a period carry none.

The model is organised as follows:

- Modules follow the pipeline: `Loader`, `DateFilter`, `Resampling`, `Abbreviation`, `Charts` and `Dashboard`.
- Shared definitions live in `Records` (rows and column totals), `SampleData`, `Calendar` (day numbers, for the sample's date range), `Decimal` (Python's `str(int)`) and `Outcomes` (`Option`/`Result`).
- pandas' resampling calendar is abstract. A `Scheme` gives the period a day falls in and the label day of each period. `ValidScheme` states what the W/M/Q frequencies guarantee: later days never fall in earlier periods, and the label is the period's last day.
- Python's `:.1f` formatting of a float quotient is also abstract. The rounding is a parameter `tenths`, which says how many tenths of the tier's unit are printed. `FaithfulTenths` states what holds for counts below 2^53: the printed tenths are the true quotient's tenths rounded down or up, and they are exact when the quotient has one decimal.

Behaviour of the code that the model keeps as written:

- **Empty periods.** `resample().sum()` emits a row of zeros for each empty period between the first and the last.
- **Required columns.** There are eight required columns, including `Video Title`.
- **Daily time frame.** Daily copies the filtered rows without re-sorting them.
- **Abbreviation format.** `format_number` always prints one decimal place, so 5,000 gives `(5.0K)` and 3,000,000 gives `(3.0M)`. The comment at line 28 says `(5K)` and `(3M)`.
- **All-Time charts.** These charts plot `resampled_df`, the selected range, not the whole dataset. `CreateChart` takes whatever rows it is given, so the model keeps this behaviour.

## Model

| member | source | states |
|---|---|---|
| Decimal.ParseDecimalString | youtube_dashboard.py:24 | reading back the digits `str(i)` writes gives `i` |
| Decimal.DecimalStringInjective | youtube_dashboard.py:24 | different indices give different digit strings |
| Calendar.YearLength | youtube_dashboard.py:17 | the closed-form day number of January 1st advances by 366 in leap years and 365 otherwise |
| Calendar.YearSpan | youtube_dashboard.py:17 | January 1st to December 31st inclusive is one year's length of days, and the next year starts the following day |
| SampleData.SampleDaysAre2019 | youtube_dashboard.py:17 | the sample's first and last day numbers are 2019-01-01 and 2019-12-31, 365 days inclusive, which equals the `range(365)` columns' length |
| SampleData.LoadSampleData | youtube_dashboard.py:15-26 | 365 rows; row i is dated 2019-01-01 plus i days (the last is 2019-12-31), has counters 10i, 100i, 5i, 20i, 2i, i, and is titled "Video " + str(i) |
| SampleData.SampleOrderedAndDistinct | youtube_dashboard.py:17-24 | sample dates strictly increase and no two sample rows share a title |
| SampleData.SamplePrefixTotals | youtube_dashboard.py:18-23 | when row i's counters are i times 10, 100, 5, 20, 2 and 1, the first k rows total 0+1+...+(k-1) times those multipliers |
| SampleData.SampleTotals | youtube_dashboard.py:18-23 | the sample's column totals are 664,300 subscribers, 6,643,000 views, 332,150 watch hours, 1,328,600 likes, 132,860 comments and 66,430 shares |
| Loader.MissingColumns | youtube_dashboard.py:134-135 | a name is reported missing exactly when it is required and absent from the header |
| Loader.LoadDataset | youtube_dashboard.py:131-144 | an accepted upload's rows become the dataset with no error; in every other case (no file, read failure, missing column, date conversion failure) the dataset is the sample; the missing-columns error is raised exactly when the file reads but lacks a required name |
| Loader.AcceptedIffComplete | youtube_dashboard.py:132-142 | a readable upload is used exactly when every required column is in its header and its dates convert |
| Loader.ThreeColumnUpload | youtube_dashboard.py:134-137 | a file whose header is only Date, Subscribers and Views leaves the 365-row sample active, with the missing-columns error |
| Loader.WarningText | youtube_dashboard.py:136-141 | a message starts with "Error reading file: " exactly when reading or date conversion failed, and the rest is the exception's message |
| Loader.WarningTextInjective | youtube_dashboard.py:136-141 | different failures show different messages |
| DateFilter.FilterRange | youtube_dashboard.py:157 | the result keeps every row dated within start..end, inclusive, with its multiplicity; it keeps no other row; and it keeps the input order |
| DateFilter.MinDate | youtube_dashboard.py:147 | the result is a date of some row and no row is earlier |
| DateFilter.MaxDate | youtube_dashboard.py:148 | the result is a date of some row and no row is later |
| DateFilter.DefaultRangeKeepsAll | youtube_dashboard.py:147-157 | with the date pickers at their defaults (earliest and latest date) the filter keeps every row |
| DateFilter.FilterIdempotent | youtube_dashboard.py:157 | filtering twice with the same bounds equals filtering once |
| Resampling.SchemeFor | youtube_dashboard.py:160-167 | only the exact strings Weekly, Monthly and Quarterly select a resampling frequency |
| Resampling.BucketsTotal | youtube_dashboard.py:161-165 | the rows for a run of periods total the input rows that fall in those periods |
| Resampling.ResampleSum | youtube_dashboard.py:161-165 | no rows give no output; otherwise there is one row per period from the first to the last period holding data, empty periods included; column totals are preserved |
| Resampling.ResampleRow | youtube_dashboard.py:161-165 | output row i is the label of the i-th period from the first holding data, with the totals of the rows falling in that period |
| Resampling.Resample | youtube_dashboard.py:160-167 | any time frame other than Weekly, Monthly and Quarterly returns the rows unchanged; those three sum per period of their frequency; column totals are preserved in every case |
| Resampling.LabelsIncrease | youtube_dashboard.py:161-165 | under a valid calendar, later periods carry strictly later labels |
| Resampling.ResampledInDateOrder | youtube_dashboard.py:161-165 | resampled rows come out in strictly increasing date order |
| Resampling.RowLandsInItsPeriod | youtube_dashboard.py:161-165 | each input row is summed into the output row labelled by the first label on or after its date |
| Resampling.EmptyPeriodIsZero | youtube_dashboard.py:161-165 | a period no row falls in comes out as its label with all counters zero |
| Resampling.DayWithinItsPeriod | youtube_dashboard.py:161-165 | under a valid calendar every day lies after the previous period's label and on or before its own period's label |
| Abbreviation.FormatNumber | youtube_dashboard.py:29-37 | the result is empty exactly below 1,000; otherwise it is parenthesised, has a point three characters before its end, and the suffix is B exactly from 1,000,000,000, M exactly in 1,000,000..999,999,999 and K exactly in 1,000..999,999 |
| Abbreviation.FormatNumberParses | youtube_dashboard.py:29-37 | every non-empty result reads back as exactly "(" + integer + "." + one digit + suffix + ")", carrying the tier's printed tenths and its suffix |
| Abbreviation.ExactAbbreviation | youtube_dashboard.py:30-35 | when the count is a whole number of tenths of its tier's unit, the printed value is that exact quotient to one decimal |
| Abbreviation.AbbreviationBrackets | youtube_dashboard.py:30-35 | the printed value is the true quotient rounded down or up to a tenth |
| Abbreviation.KnownAbbreviations | youtube_dashboard.py:28-37 | 1,500 prints as (1.5K), 5,000 as (5.0K), and 999 as nothing |
| Abbreviation.KnownLargeAbbreviations | youtube_dashboard.py:28-33 | 3,000,000 prints as (3.0M) and 1,000,000,000 as (1.0B) |
| Abbreviation.SubscriberTotalAbbreviation | youtube_dashboard.py:34-35 | 664,300 prints as (664.3K) |
| Charts.CreateChart | youtube_dashboard.py:170-187 | Bar, Area and Pie are chosen exactly by their selector strings and Line by every other value; the colour is the metric's table entry; the title is the given title followed by " (" + time frame + ")"; the template is the theme; one (Date, value) point per row |
| Charts.ChartTypeRoundTrip | youtube_dashboard.py:173-184 | each selector option selects its own kind; for Bar, Area and Pie it is the only value that does |
| Charts.MetricColorsDistinct | youtube_dashboard.py:40-47 | the six metrics have six different colours, and a name outside the table gets the default #1f77b4 |
| Dashboard.StatCards | youtube_dashboard.py:197-212 | four cards, Subscribers, Views, Watch Hours and Likes in that order, each showing its column total and that total's abbreviation |
| Dashboard.CardsInOrder | youtube_dashboard.py:197-202 | the four cards spelled out card by card |
| Dashboard.SelectedFrame | youtube_dashboard.py:157-167 | the frame shown has the same column totals as the rows in the date range, and for any time frame other than Weekly, Monthly and Quarterly it is those rows |
| Dashboard.SelectedCardsAreRangeTotals | youtube_dashboard.py:219-224 | the Selected Duration cards equal the cards of the date-filtered rows whatever the time frame |
| Dashboard.DailyDefaultsShowEverything | youtube_dashboard.py:147-167 | with default dates and the Daily time frame, the frame shown is the whole active dataset, row for row |
| Dashboard.SampleTotalsCards | youtube_dashboard.py:197-210 | rows with the sample's totals give exactly four cards: 664,300 subscribers shown as (664.3K), then 6,643,000 views, 332,150 watch hours and 1,328,600 likes, each with its abbreviation |
| Dashboard.SampleAllTimeCards | youtube_dashboard.py:192-210 | without an upload, the All-Time cards are exactly those four sample cards |
| Dashboard.SortedPeriodSpan | youtube_dashboard.py:161-165 | for date-ordered rows, the first and last periods are those of the first and last dates |
| Dashboard.SortedResampleLength | youtube_dashboard.py:161-165 | date-ordered rows resample to one row per period from the first date's period to the last date's |
| Dashboard.PeriodSumKeepsRatios | youtube_dashboard.py:18-23 | summing any window of rows whose columns are the sample's multiples of Shares keeps those multiples |
| Dashboard.ResampledKeepsRatios | youtube_dashboard.py:161-165 | resampling rows in the sample's multiples gives rows in the same multiples |
| Dashboard.SampleYearPeriods | youtube_dashboard.py:160-165 | resampling the whole sample year gives one row per period from 2019-01-01's to 2019-12-31's |
| Dashboard.SampleYearRatios | youtube_dashboard.py:18-23 | every resampled sample row has Subscribers 10 times Shares, Views 100 times, Watch Hours 5 times, Likes 20 times and Comments 2 times |

## Left out

- Streamlit widgets, CSS, logo loading, the help and settings panels and the sidebar checkboxes (lines 58-129, 149-154, 189-239) are user interface. The theme selector's value is only passed through as `CreateChart`'s `theme`.
- Plotly figure construction and `update_layout` are left out. `CreateChart` returns a record of the choices made: kind, metric, colour, title, template and points.
- The per-chart-kind palettes `chart_color_palettes` (lines 50-55) are left out. `create_chart` never reads them.
- The CSV, Excel and JSON export (lines 242-271) is left out. It consists of pandas and xlsxwriter encoders whose bytes the script does not shape.
- `pd.read_csv` and `pd.to_datetime` are modelled as a `Result`: either a header plus converted rows, or the exception's message.
- Non-numeric, negative or missing numeric cells in an upload are not modelled. Counters are `nat`.
- Integer overflow of numpy `int64` column sums is not modelled.
- Week-end, month-end and quarter-end calendar arithmetic is abstract (`Scheme`).
- What `resample().sum()` does to the `Video Title` text column depends on the pandas version. Summed rows carry no title.
- Times of day in an uploaded `Date` are not modelled, because dates are whole days. The source compares against `pd.to_datetime(end_date)`, which is midnight. A row timed later on the end date would therefore be dropped.
- Dashboard.DailyDefaultsShowEverything: blank `Date` cells are not modelled, because a row's date is always a day. pandas turns a blank cell into NaT without raising, so the source accepts such an upload. It counts those rows in the All-Time totals, `min()` and `max()` skip them, and the date filter drops them, so the default Daily frame is then not the whole dataset.
- `st.date_input` clamping the chosen dates to the dataset's range is done by the widget and is left out. The minimum and maximum of an empty dataset (`NaT`) are not modelled either; `MinDate` and `MaxDate` need at least one row.
- The `{value:,}` thousands separators on the card value are not modelled. The card holds the number itself.
- Abbreviation.FormatNumber: the digits printed for a quotient that is not a whole number of tenths are left as the `tenths` parameter. They come from binary floating point. Beyond 2^53, even `FaithfulTenths` makes no promise.
