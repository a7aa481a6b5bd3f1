/**
 The four tables of the uploaded workbook, as typed rows.

 Kinerja_Keuangan and Rasio_Keuangan rows share the period columns `Tahun` and
 `Bulan`; the metric columns differ per sheet and are carried in `metrics`, so
 that the one period filter serves both sheets. Of the metric columns, only
 those the strategy rule reads are modelled; the sheets hold more.
 */
module Tables {

  /** A row of a sheet keyed by period: year, month label and the sheet's metrics. */
  datatype Row<M> = Row(Tahun: int, Bulan: string, metrics: M)

  /** Metric columns of Kinerja_Keuangan read by the strategy rule. */
  datatype Kinerja = Kinerja(Pendapatan: real, Laba_Bersih: real)

  /** Metric columns of Rasio_Keuangan. */
  datatype Rasio = Rasio(DSCR: real, Current_Ratio: real, DER: real)

  type KinerjaRow = Row<Kinerja>
  type RasioRow = Row<Rasio>

  /** A row of Cashflow_Forecast: a day and the closing balance of that day. */
  datatype CashflowRow = CashflowRow(Tanggal: string, Saldo_Akhir: real)

  /** A row of Profil_Hutang: a loan, its lender and its due date. */
  datatype HutangRow = HutangRow(Nama_Pinjaman: string, Institusi: string, Jatuh_Tempo: string)

  /** What can go wrong in the modelled core: `iloc[0]` on an empty selection. */
  datatype Error = IndexOutOfBounds

  datatype Result<T> = Ok(value: T) | Err(error: Error)
}
