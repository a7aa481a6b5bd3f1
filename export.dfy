/**
 The export tab's `convert_df_to_excel`: every table of the dictionary is
 written, in the dictionary's order, to a sheet named by the table's key cut
 to the 31-character limit on worksheet names. The workbook is modelled as the
 sequence of sheets written; its byte encoding is not.
 */
module Export {
  import opened Tables

  /** Longest worksheet name the writer accepts. */
  const SheetNameMax: nat := 31

  /** The key cut to its first 31 characters, or the whole key when it is shorter. */
  function SheetName(name: string): (r: string)
    ensures |r| <= SheetNameMax && r <= name
    ensures |r| == SheetNameMax || r == name
  {
    if |name| <= SheetNameMax then name else name[..SheetNameMax]
  }

  /** Names of at most 31 characters are kept as they are; cutting twice cuts nothing more. */
  lemma SheetNameKeepsShort(name: string)
    ensures |name| <= SheetNameMax <==> SheetName(name) == name
    ensures SheetName(SheetName(name)) == SheetName(name)
  {
  }

  /** One table as it is handed to the writer. */
  datatype Table =
    | KinerjaTable(kinerja: seq<KinerjaRow>)
    | RasioTable(rasio: seq<RasioRow>)
    | CashflowTable(cashflow: seq<CashflowRow>)
    | HutangTable(hutang: seq<HutangRow>)

  /** A worksheet of the exported workbook. */
  datatype Sheet = Sheet(name: string, table: Table)

  /**
   The export conversion of app.py: for each key and table of `dfs`, in order,
   the writer adds a sheet named by the cut key, holding the table. The cut keys
   must be distinct: two keys that share their first 31 characters would be
   written into one and the same sheet, which this model does not describe.
   */
  method ConvertDfToExcel(dfs: seq<(string, Table)>) returns (workbook: seq<Sheet>)
    requires forall i, j :: 0 <= i < j < |dfs| ==> SheetName(dfs[i].0) != SheetName(dfs[j].0)
    ensures |workbook| == |dfs|
    ensures forall i :: 0 <= i < |dfs| ==> workbook[i] == Sheet(SheetName(dfs[i].0), dfs[i].1)
  {
    workbook := [];
    for i := 0 to |dfs|
      invariant |workbook| == i
      invariant forall j :: 0 <= j < i ==> workbook[j] == Sheet(SheetName(dfs[j].0), dfs[j].1)
    {
      var (name, df) := dfs[i];
      workbook := workbook + [Sheet(SheetName(name), df)];
    }
  }

  /**
   The dictionary the export tab passes: the four tables as loaded, not narrowed
   by the year and month selection, under the sheet names of the upload.
   */
  function Laporan(dfKinerja: seq<KinerjaRow>, dfRasio: seq<RasioRow>,
                   dfCashflow: seq<CashflowRow>, dfDebt: seq<HutangRow>): (dfs: seq<(string, Table)>)
    ensures |dfs| == 4
    ensures forall i, j :: 0 <= i < j < 4 ==> dfs[i].0 != dfs[j].0
  {
    [ ("Kinerja_Keuangan", KinerjaTable(dfKinerja)),
      ("Rasio_Keuangan", RasioTable(dfRasio)),
      ("Cashflow_Forecast", CashflowTable(dfCashflow)),
      ("Profil_Hutang", HutangTable(dfDebt)) ]
  }

  /**
   None of the four keys of the report is cut, so the sheet names stay those of
   the upload and stay distinct.
   */
  lemma LaporanSheetNames(dfKinerja: seq<KinerjaRow>, dfRasio: seq<RasioRow>,
                          dfCashflow: seq<CashflowRow>, dfDebt: seq<HutangRow>)
    ensures forall e :: e in Laporan(dfKinerja, dfRasio, dfCashflow, dfDebt) ==> SheetName(e.0) == e.0
    ensures var dfs := Laporan(dfKinerja, dfRasio, dfCashflow, dfDebt);
            forall i, j :: 0 <= i < j < |dfs| ==> SheetName(dfs[i].0) != SheetName(dfs[j].0)
  {
    var dfs := Laporan(dfKinerja, dfRasio, dfCashflow, dfDebt);
    forall e | e in dfs ensures SheetName(e.0) == e.0 {
      assert |e.0| <= SheetNameMax;
    }
    forall i, j | 0 <= i < j < |dfs| ensures SheetName(dfs[i].0) != SheetName(dfs[j].0) {
      assert dfs[i] in dfs && dfs[j] in dfs;
    }
  }

  /**
   The export tab: the report of the four tables becomes a workbook of four
   sheets, named as in the upload, in that order, each holding its whole table.
   */
  method TabExport(dfKinerja: seq<KinerjaRow>, dfRasio: seq<RasioRow>,
                   dfCashflow: seq<CashflowRow>, dfDebt: seq<HutangRow>)
    returns (workbook: seq<Sheet>)
    ensures workbook == [ Sheet("Kinerja_Keuangan", KinerjaTable(dfKinerja)),
                          Sheet("Rasio_Keuangan", RasioTable(dfRasio)),
                          Sheet("Cashflow_Forecast", CashflowTable(dfCashflow)),
                          Sheet("Profil_Hutang", HutangTable(dfDebt)) ]
  {
    var dfs := Laporan(dfKinerja, dfRasio, dfCashflow, dfDebt);
    LaporanSheetNames(dfKinerja, dfRasio, dfCashflow, dfDebt);
    workbook := ConvertDfToExcel(dfs);
    assert dfs[0] in dfs && dfs[1] in dfs && dfs[2] in dfs && dfs[3] in dfs;
  }
}
