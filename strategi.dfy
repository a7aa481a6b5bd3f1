/**
 The strategy rule `generate_rekomendasi`: six threshold indicators, each worth
 one point, summed into a score that is mapped to one of three strategy labels.
 The first five indicators read the first row of the filtered Kinerja_Keuangan
 and Rasio_Keuangan tables; the sixth reads the mean closing balance of the
 whole, unfiltered Cashflow_Forecast table.
 */
module Strategi {
  import opened Tables
  import opened Filter

  // Thresholds of the six indicators, fixed in the source.
  const PendapatanMin: real := 100000.0
  const LabaBersihMin: real := 10000.0
  const DscrMin: real := 1.2
  const CurrentRatioMin: real := 1.1
  const DerMax: real := 1.5

  /** The three recommendations, ordered from worst to best by `Rank`. */
  datatype Label = Konservatif | Efisiensi | Ekspansi {
    /** The text shown to the user. */
    function Text(): string
    {
      match this
      case Ekspansi => "Strategi Ekspansi"
      case Efisiensi => "Strategi Efisiensi"
      case Konservatif => "Strategi Konservatif / Restrukturisasi"
    }

    function Rank(): nat
    {
      match this
      case Konservatif => 0
      case Efisiensi => 1
      case Ekspansi => 2
    }
  }

  /** Sum of the closing balances. */
  function SumSaldo(cashflow: seq<CashflowRow>): real
  {
    if cashflow == [] then 0.0 else cashflow[0].Saldo_Akhir + SumSaldo(cashflow[1..])
  }

  /** The mean closing balance of a non-empty cashflow table. */
  function MeanSaldo(cashflow: seq<CashflowRow>): (m: real)
    requires |cashflow| > 0
    ensures m * (|cashflow| as real) == SumSaldo(cashflow)
  {
    SumSaldo(cashflow) / (|cashflow| as real)
  }

  /**
   Indicator 6: the mean closing balance is positive. On an empty table the
   mean is undefined (NaN in the source) and the comparison gives no point.
   */
  predicate SaldoPositif(cashflow: seq<CashflowRow>)
  {
    |cashflow| > 0 && MeanSaldo(cashflow) > 0.0
  }

  /** The six indicators, in the order the source tests them. */
  function Indikator(k: Kinerja, r: Rasio, cashflow: seq<CashflowRow>): (ind: seq<bool>)
    ensures |ind| == 6
  {
    [ k.Pendapatan > PendapatanMin,
      k.Laba_Bersih > LabaBersihMin,
      r.DSCR >= DscrMin,
      r.Current_Ratio >= CurrentRatioMin,
      r.DER <= DerMax,
      SaldoPositif(cashflow) ]
  }

  /**
   At each threshold value exactly, the strict comparisons (revenue, net income,
   mean balance) give no point and the others (DSCR, current ratio, DER) give one.
   */
  lemma IndikatorAtThresholds()
    ensures Indikator(Kinerja(100000.0, 10000.0), Rasio(1.2, 1.1, 1.5), [CashflowRow("", 0.0)])
            == [false, false, true, true, true, false]
  {
  }

  /** Just past each threshold, on the good side and on the bad side, every indicator flips. */
  lemma IndikatorPastThresholds()
    ensures Indikator(Kinerja(100000.01, 10000.01), Rasio(1.2, 1.1, 1.5), [CashflowRow("", 0.01)])
            == [true, true, true, true, true, true]
    ensures Indikator(Kinerja(100000.0, 10000.0), Rasio(1.19, 1.09, 1.51), [CashflowRow("", 0.0)])
            == [false, false, false, false, false, false]
  {
  }

  /** Number of true entries. */
  function CountTrue(bs: seq<bool>): (n: nat)
    ensures n <= |bs|
  {
    if bs == [] then 0 else (if bs[0] then 1 else 0) + CountTrue(bs[1..])
  }

  /** The point one indicator contributes. */
  function Point(b: bool): nat
  {
    if b then 1 else 0
  }

  /** A count of six entries is the sum of their six points. */
  lemma CountSix(bs: seq<bool>)
    requires |bs| == 6
    ensures CountTrue(bs) == Point(bs[0]) + Point(bs[1]) + Point(bs[2]) + Point(bs[3]) + Point(bs[4]) + Point(bs[5])
  {
    assert bs[1..][1..][1..][1..][1..][1..] == [];
  }

  /** The score: how many of the six indicators hold. */
  function Skor(k: Kinerja, r: Rasio, cashflow: seq<CashflowRow>): (s: nat)
    ensures s <= 6
  {
    CountTrue(Indikator(k, r, cashflow))
  }

  /** The score is 6 exactly when every indicator holds, and 0 exactly when none does. */
  lemma SkorExtremes(k: Kinerja, r: Rasio, cashflow: seq<CashflowRow>)
    ensures Skor(k, r, cashflow) == 6 <==> forall i :: 0 <= i < 6 ==> Indikator(k, r, cashflow)[i]
    ensures Skor(k, r, cashflow) == 0 <==> forall i :: 0 <= i < 6 ==> !Indikator(k, r, cashflow)[i]
  {
    CountSix(Indikator(k, r, cashflow));
  }

  /** The score bands: 5 and up, 3 to 4, and below 3. */
  function LabelOf(skor: int): Label
  {
    if skor >= 5 then Ekspansi
    else if skor >= 3 then Efisiensi
    else Konservatif
  }

  /** Each label is given by exactly its band of scores; 5, 3 and 2 are the band edges. */
  lemma LabelBands(skor: int)
    ensures LabelOf(skor) == Ekspansi <==> skor >= 5
    ensures LabelOf(skor) == Efisiensi <==> 3 <= skor <= 4
    ensures LabelOf(skor) == Konservatif <==> skor <= 2
    ensures LabelOf(5) == Ekspansi && LabelOf(3) == Efisiensi && LabelOf(2) == Konservatif
  {
  }

  /** A higher score never gives a worse label. */
  lemma LabelMonotone(a: int, b: int)
    requires a <= b
    ensures LabelOf(a).Rank() <= LabelOf(b).Rank()
  {
  }

  /** The three texts are distinct, so the text determines the label. */
  lemma TextInjective(x: Label, y: Label)
    ensures x.Text() == y.Text() <==> x == y
  {
    if x != y {
      assert x.Text()[9] != y.Text()[9] || |x.Text()| != |y.Text()|;
    }
  }

  /** Indicator 6 is "the sum of the balances is positive", for empty tables too. */
  lemma SaldoPositifIffSum(cashflow: seq<CashflowRow>)
    ensures SaldoPositif(cashflow) <==> SumSaldo(cashflow) > 0.0
  {
    if |cashflow| > 0 {
      var n := |cashflow| as real;
      assert SumSaldo(cashflow) == MeanSaldo(cashflow) * n;
      assert n > 0.0;
    }
  }

  /** Raising balances day by day never lowers their sum. */
  lemma {:induction false} SumSaldoMonotone(lo: seq<CashflowRow>, hi: seq<CashflowRow>)
    requires |lo| == |hi|
    requires forall i :: 0 <= i < |lo| ==> lo[i].Saldo_Akhir <= hi[i].Saldo_Akhir
    ensures SumSaldo(lo) <= SumSaldo(hi)
  {
    if lo != [] {
      SumSaldoMonotone(lo[1..], hi[1..]);
    }
  }

  /** Making more entries true never lowers the count. */
  lemma {:induction false} CountTrueMonotone(lo: seq<bool>, hi: seq<bool>)
    requires |lo| == |hi|
    requires forall i :: 0 <= i < |lo| ==> lo[i] ==> hi[i]
    ensures CountTrue(lo) <= CountTrue(hi)
  {
    if lo != [] {
      CountTrueMonotone(lo[1..], hi[1..]);
    }
  }

  /**
   `hi` is at least as healthy as `lo` on every metric: revenue, net income,
   DSCR and current ratio no lower, DER no higher, and each day's closing balance
   no lower over the same horizon.
   */
  predicate NotWorse(klo: Kinerja, rlo: Rasio, clo: seq<CashflowRow>,
                     khi: Kinerja, rhi: Rasio, chi: seq<CashflowRow>)
  {
    klo.Pendapatan <= khi.Pendapatan && klo.Laba_Bersih <= khi.Laba_Bersih
    && rlo.DSCR <= rhi.DSCR && rlo.Current_Ratio <= rhi.Current_Ratio && rhi.DER <= rlo.DER
    && |clo| == |chi| && forall i :: 0 <= i < |clo| ==> clo[i].Saldo_Akhir <= chi[i].Saldo_Akhir
  }

  /** Improving the metrics never lowers the score, and so never worsens the label. */
  lemma SkorMonotone(klo: Kinerja, rlo: Rasio, clo: seq<CashflowRow>,
                     khi: Kinerja, rhi: Rasio, chi: seq<CashflowRow>)
    requires NotWorse(klo, rlo, clo, khi, rhi, chi)
    ensures Skor(klo, rlo, clo) <= Skor(khi, rhi, chi)
    ensures LabelOf(Skor(klo, rlo, clo)).Rank() <= LabelOf(Skor(khi, rhi, chi)).Rank()
  {
    SumSaldoMonotone(clo, chi);
    SaldoPositifIffSum(clo);
    SaldoPositifIffSum(chi);
    CountTrueMonotone(Indikator(klo, rlo, clo), Indikator(khi, rhi, chi));
    LabelMonotone(Skor(klo, rlo, clo), Skor(khi, rhi, chi));
  }

  /**
   The strategy recommendation of app.py: a local score is raised by
   one for each indicator that holds, then mapped to its label's text. Both
   filtered tables must be non-empty: `iloc[0]` on an empty one raises.
   */
  method GenerateRekomendasi(kinerja: seq<KinerjaRow>, rasio: seq<RasioRow>, cashflow: seq<CashflowRow>)
    returns (rekomendasi: string)
    requires |kinerja| > 0 && |rasio| > 0
    ensures rekomendasi == LabelOf(Skor(kinerja[0].metrics, rasio[0].metrics, cashflow)).Text()
  {
    var k, r := kinerja[0].metrics, rasio[0].metrics;
    ghost var ind := Indikator(k, r, cashflow);
    var skor := 0;
    if k.Pendapatan > PendapatanMin { skor := skor + 1; }
    assert skor == Point(ind[0]);
    if k.Laba_Bersih > LabaBersihMin { skor := skor + 1; }
    assert skor == Point(ind[0]) + Point(ind[1]);
    if r.DSCR >= DscrMin { skor := skor + 1; }
    assert skor == Point(ind[0]) + Point(ind[1]) + Point(ind[2]);
    if r.Current_Ratio >= CurrentRatioMin { skor := skor + 1; }
    assert skor == Point(ind[0]) + Point(ind[1]) + Point(ind[2]) + Point(ind[3]);
    if r.DER <= DerMax { skor := skor + 1; }
    assert skor == Point(ind[0]) + Point(ind[1]) + Point(ind[2]) + Point(ind[3]) + Point(ind[4]);
    if |cashflow| > 0 && MeanSaldo(cashflow) > 0.0 { skor := skor + 1; }
    CountSix(ind);
    assert skor == Skor(k, r, cashflow);

    if skor >= 5 {
      rekomendasi := "Strategi Ekspansi";
      assert LabelOf(skor) == Ekspansi;
    } else if skor >= 3 {
      rekomendasi := "Strategi Efisiensi";
      assert LabelOf(skor) == Efisiensi;
    } else {
      rekomendasi := "Strategi Konservatif / Restrukturisasi";
      assert LabelOf(skor) == Konservatif;
    }
  }

  /**
   The "Strategi" tab: filter both tables by the selected year and month and
   score the first rows. The year and the month are chosen independently, so
   the pair may match no row of a table; then `iloc[0]` raises, modelled as
   `Err(IndexOutOfBounds)`.
   */
  method TabStrategi(dfKinerja: seq<KinerjaRow>, dfRasio: seq<RasioRow>, dfCashflow: seq<CashflowRow>,
                     tahun: int, bulan: string)
    returns (hasil: Result<string>)
    ensures hasil.Err? <==> (forall row :: row in dfKinerja ==> !Matches(row, tahun, bulan))
                            || (forall row :: row in dfRasio ==> !Matches(row, tahun, bulan))
    ensures hasil.Ok? ==> exists i, j :: IsFirstMatch(dfKinerja, i, tahun, bulan)
                                      && IsFirstMatch(dfRasio, j, tahun, bulan)
                                      && hasil.value == LabelOf(Skor(dfKinerja[i].metrics, dfRasio[j].metrics, dfCashflow)).Text()
  {
    var dfK := ApplyFilter(dfKinerja, tahun, bulan);
    var dfR := ApplyFilter(dfRasio, tahun, bulan);
    FilterEmpty(dfKinerja, tahun, bulan);
    FilterEmpty(dfRasio, tahun, bulan);
    if |dfK| == 0 || |dfR| == 0 {
      hasil := Err(IndexOutOfBounds);
    } else {
      var rekomendasi := GenerateRekomendasi(dfK, dfR, dfCashflow);
      hasil := Ok(rekomendasi);
      FilterHead(dfKinerja, tahun, bulan);
      FilterHead(dfRasio, tahun, bulan);
      var i :| IsFirstMatch(dfKinerja, i, tahun, bulan);
      var j :| IsFirstMatch(dfRasio, j, tahun, bulan);
      assert dfK[0] == dfKinerja[i] && dfR[0] == dfRasio[j];
    }
  }

  /** All six indicators hold: score 6, expansion. */
  lemma ScenarioEkspansi()
    ensures Skor(Kinerja(150000.0, 12000.0), Rasio(1.3, 1.15, 1.4), [CashflowRow("2024-01-01", 500.0)]) == 6
    ensures LabelOf(Skor(Kinerja(150000.0, 12000.0), Rasio(1.3, 1.15, 1.4), [CashflowRow("2024-01-01", 500.0)])) == Ekspansi
  {
  }

  /** DER above 1.5 and a negative balance: score 4, efficiency. */
  lemma ScenarioEfisiensi()
    ensures Skor(Kinerja(150000.0, 12000.0), Rasio(1.3, 1.15, 1.8), [CashflowRow("2024-01-01", -50.0)]) == 4
    ensures LabelOf(Skor(Kinerja(150000.0, 12000.0), Rasio(1.3, 1.15, 1.8), [CashflowRow("2024-01-01", -50.0)])) == Efisiensi
  {
  }
}
