/**
 * `generate_fake_data`: the monthly sales series, the product amounts, the
 * salesperson roster and the transaction list.
 *
 * The random sources are inputs. Each is a stream of draws indexed by how many
 * draws were taken before it: numpy's generator (Gaussian and integer draws
 * share one stream), Python's `random` (categorical choices) and Faker's own
 * generator (names, company names, dates). The source reseeds numpy and
 * `random` with 42 on entry, so their cursors start at 0 and every number,
 * region, product and status is the same on every rerun, as long as no other
 * session draws from those process-wide generators meanwhile. Faker is never
 * reseeded: its cursor at entry is an input, and the names, company names and
 * dates depend on it.
 */
module FakeData {

  /** Numpy's global generator after `np.random.seed(42)`. */
  datatype NumpyStream = NumpyStream(uniform: nat -> nat, standardNormal: nat -> real)

  /** Python's `random` module after `random.seed(42)`. */
  datatype PyStream = PyStream(uniform: nat -> nat)

  /**
   * Faker's generator: what `name()`, `company()` and `date_between()` return
   * at each position of its stream; `date` is the raw date draw.
   */
  datatype FakerStream = FakerStream(name: nat -> string, company: nat -> string, date: nat -> nat)

  /** A month-end date of `pd.date_range(..., freq='ME')`. */
  datatype MonthEnd = MonthEnd(year: int, month: int)

  datatype MonthlySale = MonthlySale(data: MonthEnd, vendas: real, meta: real)

  datatype Salesperson = Salesperson(nome: string, vendas: int, meta: int, regiao: string)

  /** `daysAgo` counts back from today: the date lies in the trailing 30-day window. */
  datatype Transaction = Transaction(daysAgo: nat, cliente: string, produto: string, valor: int, status: string)

  datatype Dataset = Dataset(
    vendasMensais: seq<MonthlySale>,
    produtos: seq<string>,
    vendasProdutos: seq<int>,
    vendedores: seq<Salesperson>,
    transacoes: seq<Transaction>)

  const Months := 24
  const BaseValue := 1000000
  const TrendStep := 50000
  const SeasonalAmplitude: real := 200000.0
  const NoiseScale: real := 100000.0
  const SalesFloor: real := 500000.0
  const TargetFactor: real := 1.1

  const Produtos := ["Aurum Premium", "Aurum Standard", "Aurum Starter", "Aurum Enterprise", "Aurum Pro"]
  const Regioes := ["São Paulo", "Rio de Janeiro", "Minas Gerais", "Paraná", "Rio Grande do Sul"]
  const Statuses := ["Concluída", "Pendente", "Processando"]

  const SalespersonCount := 10
  const TransactionCount := 50

  /** Draws numpy takes in one generation: 24 Gaussians, 5 product amounts, 2 per salesperson, 1 per transaction. */
  const NumpyDraws := Months + |Produtos| + 2 * SalespersonCount + TransactionCount
  /** Draws `random` takes: 1 region per salesperson, product and status per transaction. */
  const PyDraws := SalespersonCount + 2 * TransactionCount
  /** Draws Faker takes: 1 name per salesperson, date and company per transaction. */
  const FakerDraws := SalespersonCount + 2 * TransactionCount

  /** `randint(lo, hi)`: a draw mapped into the half-open range. */
  function RandInt(lo: int, hi: int, d: nat): (v: int)
    requires lo < hi
    ensures lo <= v < hi
    ensures lo <= d + lo < hi ==> v == d + lo
  {
    lo + d % (hi - lo)
  }

  /** `random.choice(xs)`: a draw mapped to an element. */
  function Choice<T>(xs: seq<T>, d: nat): (x: T)
    requires |xs| > 0
    ensures x in xs
    ensures d < |xs| ==> x == xs[d]
  {
    xs[d % |xs|]
  }

  /** Every value of the range, and every element of the list, is some draw's result. */
  lemma DrawsCoverRange(lo: int, hi: int, v: int, xs: seq<string>, i: nat)
    requires lo <= v < hi
    requires i < |xs|
    ensures RandInt(lo, hi, (v - lo) as nat) == v
    ensures Choice(xs, i) == xs[i]
  {
  }

  function Max(a: real, b: real): (m: real)
    ensures m >= a && m >= b
    ensures m == a || m == b
  {
    if a >= b then a else b
  }

  /** The linear trend of month `i`. */
  function Trend(i: nat): real {
    (BaseValue + i * TrendStep) as real
  }

  /** Month `i` of the window that starts in January 2023. */
  function MonthAt(i: nat): MonthEnd {
    MonthEnd(2023 + i / 12, i % 12 + 1)
  }

  /** Strict chronological order of month-end dates. */
  predicate Before(a: MonthEnd, b: MonthEnd) {
    a.year < b.year || (a.year == b.year && a.month < b.month)
  }

  /** The month-end dates of the window are in strictly increasing order. */
  lemma MonthsChronological(i: nat, j: nat)
    requires i < j
    ensures Before(MonthAt(i), MonthAt(j))
  {
  }

  /** Month `i` of the series, its noise taken at numpy position `pos0 + i`. */
  function MonthlySaleAt(np: NumpyStream, sine: nat -> real, pos0: nat, i: nat): (m: MonthlySale)
    ensures m.data == MonthAt(i) && m.meta == Trend(i) * TargetFactor
    ensures m.vendas >= SalesFloor
  {
    MonthlySale(MonthAt(i), Max(Trend(i) + sine(i) * SeasonalAmplitude + NoiseScale * np.standardNormal(pos0 + i), SalesFloor),
                Trend(i) * TargetFactor)
  }

  /** Salesperson `k`: numpy draws sales then target, `random` the region, Faker the name. */
  function SalespersonAt(np: NumpyStream, py: PyStream, faker: FakerStream, npPos0: nat, pyPos0: nat, fPos0: nat, k: nat)
    : (v: Salesperson)
    ensures 100000 <= v.vendas < 500000 && 120000 <= v.meta < 600000 && v.regiao in Regioes
  {
    Salesperson(
      faker.name(fPos0 + k),
      RandInt(100000, 500000, np.uniform(npPos0 + 2 * k)),
      RandInt(120000, 600000, np.uniform(npPos0 + 2 * k + 1)),
      Choice(Regioes, py.uniform(pyPos0 + k)))
  }

  /** Transaction `k`: Faker draws date then company, `random` product then status, numpy the amount. */
  function TransactionAt(np: NumpyStream, py: PyStream, faker: FakerStream, npPos0: nat, pyPos0: nat, fPos0: nat, k: nat)
    : (t: Transaction)
    ensures t.daysAgo <= 30 && t.produto in Produtos && 10000 <= t.valor < 200000 && t.status in Statuses
  {
    Transaction(
      faker.date(fPos0 + 2 * k) % 31,
      faker.company(fPos0 + 2 * k + 1),
      Choice(Produtos, py.uniform(pyPos0 + 2 * k)),
      RandInt(10000, 200000, np.uniform(npPos0 + k)),
      Choice(Statuses, py.uniform(pyPos0 + 2 * k + 1)))
  }

  /**
   * The monthly series: trend plus seasonality `sin(i * pi / 6) * 200000`
   * (`sine(i)` stands for the sine) plus noise `Normal(0, 100000)`, floored at
   * 500000; the target is the trend times 1.1. Consumes 24 numpy draws.
   */
  method GenerateMonthlySales(np: NumpyStream, sine: nat -> real, pos0: nat)
    returns (series: seq<MonthlySale>, pos: nat)
    ensures |series| == Months && pos == pos0 + Months
    ensures forall i :: 0 <= i < |series| ==> series[i] == MonthlySaleAt(np, sine, pos0, i)
    ensures forall i :: 0 <= i < |series| ==>
      series[i].vendas == Max(Trend(i) + sine(i) * SeasonalAmplitude + NoiseScale * np.standardNormal(pos0 + i), SalesFloor)
  {
    series := [];
    pos := pos0;
    for i := 0 to Months
      invariant |series| == i && pos == pos0 + i
      invariant forall j :: 0 <= j < i ==> series[j] == MonthlySaleAt(np, sine, pos0, j)
    {
      var trend := Trend(i);
      var seasonal := sine(i) * SeasonalAmplitude;
      var noise := NoiseScale * np.standardNormal(pos);
      pos := pos + 1;
      var value := Max(trend + seasonal + noise, SalesFloor);
      series := series + [MonthlySale(MonthAt(i), value, trend * TargetFactor)];
    }
  }

  /** One `randint(500000, 2000000)` per product, in product order. */
  method DrawProductSales(np: NumpyStream, pos0: nat) returns (amounts: seq<int>, pos: nat)
    ensures |amounts| == |Produtos| && pos == pos0 + |Produtos|
    ensures forall k :: 0 <= k < |amounts| ==> 500000 <= amounts[k] < 2000000
    ensures forall k :: 0 <= k < |amounts| ==> amounts[k] == RandInt(500000, 2000000, np.uniform(pos0 + k))
  {
    amounts := [];
    pos := pos0;
    for k := 0 to |Produtos|
      invariant |amounts| == k && pos == pos0 + k
      invariant forall j :: 0 <= j < k ==> amounts[j] == RandInt(500000, 2000000, np.uniform(pos0 + j))
    {
      amounts := amounts + [RandInt(500000, 2000000, np.uniform(pos))];
      pos := pos + 1;
    }
  }

  /** Ten salespeople, each drawn as `SalespersonAt` describes; all three cursors advance. */
  method GenerateSalespeople(np: NumpyStream, py: PyStream, faker: FakerStream, npPos0: nat, pyPos0: nat, fPos0: nat)
    returns (vendedores: seq<Salesperson>, npPos: nat, pyPos: nat, fPos: nat)
    ensures |vendedores| == SalespersonCount
    ensures npPos == npPos0 + 2 * SalespersonCount && pyPos == pyPos0 + SalespersonCount
    ensures fPos == fPos0 + SalespersonCount
    ensures forall k :: 0 <= k < |vendedores| ==> vendedores[k] == SalespersonAt(np, py, faker, npPos0, pyPos0, fPos0, k)
  {
    vendedores := [];
    npPos, pyPos, fPos := npPos0, pyPos0, fPos0;
    for k := 0 to SalespersonCount
      invariant |vendedores| == k && npPos == npPos0 + 2 * k && pyPos == pyPos0 + k && fPos == fPos0 + k
      invariant forall j :: 0 <= j < k ==> vendedores[j] == SalespersonAt(np, py, faker, npPos0, pyPos0, fPos0, j)
    {
      var nome := faker.name(fPos);
      var vendas := RandInt(100000, 500000, np.uniform(npPos));
      var meta := RandInt(120000, 600000, np.uniform(npPos + 1));
      var regiao := Choice(Regioes, py.uniform(pyPos));
      vendedores := vendedores + [Salesperson(nome, vendas, meta, regiao)];
      npPos, pyPos, fPos := npPos + 2, pyPos + 1, fPos + 1;
    }
  }

  /** Fifty transactions, each drawn as `TransactionAt` describes; all three cursors advance. */
  method GenerateTransactions(np: NumpyStream, py: PyStream, faker: FakerStream, npPos0: nat, pyPos0: nat, fPos0: nat)
    returns (transacoes: seq<Transaction>, npPos: nat, pyPos: nat, fPos: nat)
    ensures |transacoes| == TransactionCount
    ensures npPos == npPos0 + TransactionCount && pyPos == pyPos0 + 2 * TransactionCount
    ensures fPos == fPos0 + 2 * TransactionCount
    ensures forall k :: 0 <= k < |transacoes| ==> transacoes[k] == TransactionAt(np, py, faker, npPos0, pyPos0, fPos0, k)
  {
    transacoes := [];
    npPos, pyPos, fPos := npPos0, pyPos0, fPos0;
    for k := 0 to TransactionCount
      invariant |transacoes| == k && npPos == npPos0 + k && pyPos == pyPos0 + 2 * k && fPos == fPos0 + 2 * k
      invariant forall j :: 0 <= j < k ==> transacoes[j] == TransactionAt(np, py, faker, npPos0, pyPos0, fPos0, j)
    {
      var date := faker.date(fPos) % 31;
      var cliente := faker.company(fPos + 1);
      var produto := Choice(Produtos, py.uniform(pyPos));
      var valor := RandInt(10000, 200000, np.uniform(npPos));
      var status := Choice(Statuses, py.uniform(pyPos + 1));
      transacoes := transacoes + [Transaction(date, cliente, produto, valor, status)];
      npPos, pyPos, fPos := npPos + 1, pyPos + 2, fPos + 2;
    }
  }

  /** The shape every generated dataset has, whatever the draws. */
  predicate WellFormed(d: Dataset) {
    && |d.vendasMensais| == Months
    && (forall i :: 0 <= i < |d.vendasMensais| ==>
          d.vendasMensais[i].vendas >= SalesFloor
          && d.vendasMensais[i].meta == Trend(i) * TargetFactor
          && d.vendasMensais[i].data == MonthAt(i))
    && d.produtos == Produtos
    && |d.vendasProdutos| == |Produtos|
    && (forall k :: 0 <= k < |d.vendasProdutos| ==> 500000 <= d.vendasProdutos[k] < 2000000)
    && |d.vendedores| == SalespersonCount
    && (forall k :: 0 <= k < |d.vendedores| ==>
          100000 <= d.vendedores[k].vendas < 500000
          && 120000 <= d.vendedores[k].meta < 600000
          && d.vendedores[k].regiao in Regioes)
    && |d.transacoes| == TransactionCount
    && (forall k :: 0 <= k < |d.transacoes| ==>
          d.transacoes[k].daysAgo <= 30
          && d.transacoes[k].produto in Produtos
          && 10000 <= d.transacoes[k].valor < 200000
          && d.transacoes[k].status in Statuses)
  }

  /**
   * What one call returns, record by record: numpy is read in the order
   * series, products, salespeople, transactions, `random` in the order
   * salespeople, transactions, both from position 0; Faker from `fPos0`.
   */
  function FakeDataset(np: NumpyStream, py: PyStream, faker: FakerStream, sine: nat -> real, fPos0: nat): Dataset {
    Dataset(
      seq(Months, i requires 0 <= i => MonthlySaleAt(np, sine, 0, i)),
      Produtos,
      seq(|Produtos|, k requires 0 <= k => RandInt(500000, 2000000, np.uniform(Months + k))),
      seq(SalespersonCount, k requires 0 <= k => SalespersonAt(np, py, faker, Months + |Produtos|, 0, fPos0, k)),
      seq(TransactionCount, k requires 0 <= k =>
        TransactionAt(np, py, faker, Months + |Produtos| + 2 * SalespersonCount, SalespersonCount,
                      fPos0 + SalespersonCount, k)))
  }

  /** Every dataset the generator can return is well formed. */
  lemma FakeDatasetWellFormed(np: NumpyStream, py: PyStream, faker: FakerStream, sine: nat -> real, fPos0: nat)
    ensures WellFormed(FakeDataset(np, py, faker, sine, fPos0))
  {
    var d := FakeDataset(np, py, faker, sine, fPos0);
    forall i | 0 <= i < Months ensures d.vendasMensais[i] == MonthlySaleAt(np, sine, 0, i) { }
    forall k | 0 <= k < SalespersonCount
      ensures d.vendedores[k] == SalespersonAt(np, py, faker, Months + |Produtos|, 0, fPos0, k) { }
    forall k | 0 <= k < TransactionCount
      ensures d.transacoes[k] == TransactionAt(np, py, faker, Months + |Produtos| + 2 * SalespersonCount,
                                               SalespersonCount, fPos0 + SalespersonCount, k) { }
    forall k | 0 <= k < |Produtos|
      ensures d.vendasProdutos[k] == RandInt(500000, 2000000, np.uniform(Months + k)) { }
  }

  /** In every generated dataset the monthly targets strictly increase, from 1100000. */
  lemma TargetsRise(d: Dataset, i: nat, j: nat)
    requires WellFormed(d)
    requires i < j < |d.vendasMensais|
    ensures d.vendasMensais[i].meta < d.vendasMensais[j].meta
    ensures d.vendasMensais[0].meta == 1100000.0
  {
  }

  /**
   * Reruns with Faker at different positions agree on every value numpy and
   * `random` produce: the series, product amounts, sales, targets, regions,
   * products, amounts and statuses. Only names, company names and dates move.
   */
  lemma RerunKeepsNumbers(np: NumpyStream, py: PyStream, f: FakerStream, sine: nat -> real, p: nat, q: nat)
    ensures var a, b := FakeDataset(np, py, f, sine, p), FakeDataset(np, py, f, sine, q);
      && a.vendasMensais == b.vendasMensais
      && a.vendasProdutos == b.vendasProdutos
      && (forall k :: 0 <= k < SalespersonCount ==>
            a.vendedores[k].(nome := "") == b.vendedores[k].(nome := ""))
      && (forall k :: 0 <= k < TransactionCount ==>
            a.transacoes[k].(daysAgo := 0, cliente := "") == b.transacoes[k].(daysAgo := 0, cliente := ""))
  {
  }

  /**
   * As written, Faker is not reseeded, so a rerun that starts Faker where the
   * previous one stopped can show different salesperson names for the same
   * numbers.
   */
  lemma RerunChangesNames(np: NumpyStream, py: PyStream, sine: nat -> real)
    ensures exists f: FakerStream ::
      FakeDataset(np, py, f, sine, 0).vendedores[0].nome != FakeDataset(np, py, f, sine, FakerDraws).vendedores[0].nome
  {
    var f := FakerStream(p => if p == 0 then "Ana" else "Bruno", p => "", p => 0);
    assert FakeDataset(np, py, f, sine, 0).vendedores[0].nome == "Ana";
    assert FakeDataset(np, py, f, sine, FakerDraws).vendedores[0].nome == "Bruno";
  }

  /**
   * `generate_fake_data` as written: numpy and `random` are reseeded, so their
   * cursors restart at 0; Faker continues from `fPos0`. The returned cursors
   * say how far each stream advanced.
   */
  method GenerateFakeData(np: NumpyStream, py: PyStream, faker: FakerStream, sine: nat -> real, fPos0: nat)
    returns (d: Dataset, npPos: nat, pyPos: nat, fPos: nat)
    ensures d == FakeDataset(np, py, faker, sine, fPos0)
    ensures WellFormed(d)
    ensures npPos == NumpyDraws && pyPos == PyDraws && fPos == fPos0 + FakerDraws
  {
    npPos, pyPos, fPos := 0, 0, fPos0;
    var series;
    series, npPos := GenerateMonthlySales(np, sine, npPos);
    var amounts;
    amounts, npPos := DrawProductSales(np, npPos);
    var vendedores;
    vendedores, npPos, pyPos, fPos := GenerateSalespeople(np, py, faker, npPos, pyPos, fPos);
    var transacoes;
    transacoes, npPos, pyPos, fPos := GenerateTransactions(np, py, faker, npPos, pyPos, fPos);
    d := Dataset(series, Produtos, amounts, vendedores, transacoes);
    var expected := FakeDataset(np, py, faker, sine, fPos0);
    assert series == expected.vendasMensais;
    assert amounts == expected.vendasProdutos;
    assert vendedores == expected.vendedores;
    assert transacoes == expected.transacoes;
    FakeDatasetWellFormed(np, py, faker, sine, fPos0);
  }

  /**
   * The generator with Faker reseeded alongside numpy and `random`
   * (`Faker.seed(42)`): every cursor restarts at 0, so each rerun returns the
   * same dataset, names and dates included.
   */
  method GenerateSeededFakeData(np: NumpyStream, py: PyStream, faker: FakerStream, sine: nat -> real)
    returns (d: Dataset, npPos: nat, pyPos: nat, fPos: nat)
    ensures d == FakeDataset(np, py, faker, sine, 0)
    ensures WellFormed(d)
    ensures npPos == NumpyDraws && pyPos == PyDraws && fPos == FakerDraws
  {
    d, npPos, pyPos, fPos := GenerateFakeData(np, py, faker, sine, 0);
  }
}
