# Dashboard Kinerja ASDP — a Dafny model of its decision logic

The dashboard reads a workbook with four sheets: Kinerja_Keuangan (performance),
Rasio_Keuangan (ratios), Cashflow_Forecast and Profil_Hutang (debt profile). The user
picks a year (`Tahun`) and a month (`Bulan`). The dashboard shows the rows of that period,
recommends a strategy, and re-exports the four tables as a workbook. This project models
the three pieces of logic in `app.py`. Everything else in that file is rendering.

- `tables.dfy` (module `Tables`): the rows of the four sheets as datatypes. A performance or
  ratio row is a `Row<M>` carrying `Tahun`, `Bulan` and that sheet's metric columns. The
  module also holds the error value for `iloc[0]` on an empty selection.
- `filter.dfy` (module `Filter`): `apply_filter`, which selects the rows of one year and one
  month. The boolean mask on `Tahun` and `Bulan` is a function over the sequence of rows.
  Lemmas state which rows it keeps and how often, that it keeps table order, that it is
  idempotent and distributes over concatenation, that it is the only sequence with those
  properties, and which row comes first.
- `strategi.dfy` (module `Strategi`): `generate_rekomendasi`. The six threshold indicators are
  counted into a score from 0 to 6, and the score is mapped to "Strategi Ekspansi" (5 or 6),
  "Strategi Efisiensi" (3 or 4) or "Strategi Konservatif / Restrukturisasi" (0 to 2). The first
  five indicators read the first row of each filtered table (`iloc[0]`); the sixth reads the mean
  closing balance of the whole cashflow table. The source's step-by-step accumulator is a method,
  proved equal to the pure `Skor` function. Lemmas about `Skor` cover its bounds, the label bands
  and monotonicity in every metric. The "Strategi" tab (filter both tables, then score them) is a
  method that returns `Err(IndexOutOfBounds)` when either filtered table is empty. The year and
  the month are picked by two independent select boxes (app.py:52-56), so the selected pair can
  match no row. The source then fails at `iloc[0]`.
- `export.dfy` (module `Export`): `convert_df_to_excel`. Each table is written, in dictionary
  order, to a sheet named by its key cut to 31 characters. The export tab writes the four tables
  as loaded, not narrowed by the selection. The script builds its tabs in order, so the export
  tab is reached only when the "Strategi" tab did not fail (`TabStrategi` returns `Ok`).

Metric values are `real`. Indicator 6, "the mean closing balance is positive", is modelled
as "the table is non-empty and its mean is positive". `SaldoPositifIffSum` proves this is
the same as "the sum is positive". On an empty table the source's mean is NaN, so the
comparison gives no point; the model gives no point either.

## Model

| member | source | states |
|---|---|---|
| `Filter.ApplyFilter` | app.py:25-26 | the selection is no longer than the table, and every row in it is a table row with the selected year and month |
| `Filter.FilterCount` | app.py:26 | each row with the selected period occurs in the selection exactly as often as in the table; every other row occurs zero times |
| `Filter.FilterMembership` | app.py:26 | a row is in the selection if and only if it is in the table and has the selected year and month |
| `Filter.FilterEmpty` | app.py:26 | the selection is empty if and only if no row has the selected year and month, so an absent year or month gives an empty table, not an error |
| `Filter.FilterIsSubsequence` | app.py:26 | the selection is a subsequence of the table: no re-ordering |
| `Filter.FilterIdempotent` | app.py:26 | filtering the selection again with the same year and month returns it unchanged |
| `Filter.FilterConcat` | app.py:26 | the selection of two stacked tables is the two selections stacked in order |
| `Filter.FilterUnique` | app.py:25-26 | any subsequence of the table that holds only matching rows, each as often as the table does, equals the selection |
| `Filter.FilterHead` | app.py:26 | the selection is non-empty if and only if a first matching row exists, and then its first row is that first matching row of the table |
| `Strategi.CountTrue` | app.py:30-36 | the number of satisfied indicators is at most the number of indicators |
| `Strategi.CountSix` | app.py:30-36 | the count of six indicators is the sum of their six one-point contributions |
| `Strategi.Skor` | app.py:30-36 | the score lies between 0 and 6 |
| `Strategi.SkorExtremes` | app.py:30-36 | the score is 6 exactly when all six indicators hold, and 0 exactly when none holds |
| `Strategi.MeanSaldo` | app.py:36 | the mean closing balance times the number of days is the sum of the balances |
| `Strategi.Indikator` | app.py:31-36 | the six comparisons of app.py:31-36, with the source's thresholds as named constants; the contract states only that there are six; `SkorMonotone` fixes their directions, and `IndikatorAtThresholds` and `IndikatorPastThresholds` fix strictness and the threshold values to within 0.01 |
| `Strategi.IndikatorAtThresholds` | app.py:31-36 | exactly at 100000, 10000, 1.2, 1.1, 1.5 and a zero mean balance, the strict tests (revenue, net income, balance) fail and the non-strict ones (DSCR, current ratio, DER) hold |
| `Strategi.IndikatorPastThresholds` | app.py:31-36 | 0.01 past each threshold on the good side every indicator holds, and 0.01 past on the bad side (or exactly at a strict threshold) every indicator fails |
| `Strategi.SaldoPositifIffSum` | app.py:36 | indicator 6, `SaldoPositif` (mean closing balance above 0, no point for an empty table), holds exactly when the sum of the balances is positive |
| `Strategi.SumSaldoMonotone` | app.py:36 | raising each day's closing balance never lowers the sum of the balances |
| `Strategi.CountTrueMonotone` | app.py:30-36 | turning indicators from false to true never lowers the count |
| `Strategi.LabelOf` | app.py:38-43 | the score-to-label mapping; its meaning is stated by `LabelBands` and `LabelMonotone` |
| `Strategi.Label.Text` | app.py:39-43 | the three returned texts; `TextInjective` states that they are distinct |
| `Strategi.LabelBands` | app.py:38-43 | "Ekspansi" exactly for scores of 5 and up, "Efisiensi" exactly for 3 and 4, "Konservatif / Restrukturisasi" exactly for 2 and below; 5, 3 and 2 land as stated |
| `Strategi.LabelMonotone` | app.py:38-43 | a higher score never gives a worse label |
| `Strategi.TextInjective` | app.py:39-43 | the three recommendation texts are distinct |
| `Strategi.SkorMonotone` | app.py:31-43 | raising Pendapatan, Laba_Bersih, DSCR, Current_Ratio or the daily balances, or lowering DER, never lowers the score or moves the label toward "Konservatif" |
| `Strategi.GenerateRekomendasi` | app.py:29-43 | for non-empty filtered tables, the text returned is the label of the score of the first performance row, the first ratio row and the whole cashflow table |
| `Strategi.TabStrategi` | app.py:101-104 | the tab fails with an index error if and only if the performance or ratio table has no row for the selected period; otherwise it returns the label scored from the first matching row of each table |
| `Strategi.ScenarioEkspansi` | app.py:31-39 | revenue 150000, net income 12000, DSCR 1.3, current ratio 1.15, DER 1.4 and balance 500 score 6, and that score's label is "Ekspansi" |
| `Strategi.ScenarioEfisiensi` | app.py:31-41 | the same figures with DER 1.8 and balance -50 score 4, and that score's label is "Efisiensi" |
| `Export.SheetName` | app.py:113 | the sheet name is a prefix of the key, at most 31 characters long, and is either the whole key or exactly 31 characters |
| `Export.SheetNameKeepsShort` | app.py:113 | a key is kept unchanged if and only if it has at most 31 characters; cutting twice cuts nothing more |
| `Export.ConvertDfToExcel` | app.py:109-114 | for keys whose cut names are distinct, the workbook has one sheet per dictionary entry, in order, named by the cut key and holding that entry's table |
| `Export.Laporan` | app.py:116-121 | the export dictionary has four entries with distinct keys |
| `Export.LaporanSheetNames` | app.py:113-121 | none of the four export keys is cut, so the sheets keep the upload's sheet names and the cut names are distinct |
| `Export.TabExport` | app.py:106-121 | the exported workbook is exactly the four sheets Kinerja_Keuangan, Rasio_Keuangan, Cashflow_Forecast and Profil_Hutang, in that order, each holding its whole table |

## Left out

- Streamlit page setup, sidebar widgets, tabs, `st.dataframe`, `st.success`, `st.download_button` and the download file name (app.py:9, 46-128): presentation only.
- `load_data` (app.py:12-22): workbook parsing through pandas and its error message are foreign-library I/O. The tables are inputs of the model.
- The choice lists for year and month (app.py:52-56): widget contents. The model takes any year and month, which covers every pair the widgets can produce.
- Plotly charts, the `melt` reshaping for charts and the Gantt timeline (app.py:67-97): rendering, and the timeline reads the clock through `datetime.today()`.
- Metric columns the strategy rule does not read: the rows carry only `Tahun`, `Bulan` and the columns the rule reads.
- Export.Laporan: the exported tables hold only the modelled columns, while `to_excel` writes every column of each sheet. The in-place conversion of the Profil_Hutang due dates to datetimes (app.py:91), which changes what the export writes for that sheet, is not captured.
- Export.ConvertDfToExcel: requires the cut sheet names to be distinct. With two keys sharing their first 31 characters, the writer puts both tables into one sheet; the model does not describe that merged sheet. The writer also rejects, with an error instead of a sheet, cut names that differ only in letter case and names that contain one of `[ ] : * ? / \` or start or end with an apostrophe; the model returns a sheet for those and does not capture the rejection. The only caller's four keys meet the requirement (`LaporanSheetNames`).
- The xlsx byte encoding produced through `BytesIO` and xlsxwriter (app.py:110-114): the workbook is modelled as its sequence of named sheets.
- Floating-point rounding and NaN in pandas comparisons and `.mean()`: values are `real`, and an empty cashflow table gives no point, as NaN does.
- Strategi.GenerateRekomendasi: requires both filtered tables to be non-empty, because `iloc[0]` raises on an empty one. The failure itself is modelled by `Strategi.TabStrategi`.
