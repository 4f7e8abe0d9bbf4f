/**
 * The decision rules behind the dashboard's cards: KPI delta styling, the
 * per-theme title and text colours, the salesperson card (performance tier,
 * progress bar, difference to target), the hall-of-fame selection and the
 * latest-transaction cards (name truncation, column, status badge).
 */
module Presentation {
  import opened Options
  import opened Themes
  import opened FakeData

  const Green := "#00FF00"
  const Gold := "#FFD700"
  const Coral := "#FF6B6B"
  const Orange := "#FF4500"
  const White := "#FFFFFF"
  const HeavyShadow := "2px 2px 4px rgba(0,0,0,0.8)"
  const LightShadow := "1px 1px 2px rgba(0,0,0,0.3)"

  // ---------------------------------------------------------------- KPI card

  datatype DeltaStyle = DeltaStyle(color: string, icon: string)

  /** Colour and arrow of a KPI delta: a zero change counts as a rise. */
  function KpiDelta(delta: real): (s: DeltaStyle)
    ensures s.color == Green <==> delta >= 0.0
    ensures s.color == Orange <==> delta < 0.0
    ensures s.icon == "📈" <==> delta >= 0.0
    ensures s.icon == "📉" <==> delta < 0.0
  {
    DeltaStyle(if delta >= 0.0 then Green else Orange, if delta >= 0.0 then "📈" else "📉")
  }

  datatype TextStyle = TextStyle(color: string, shadow: string)

  /**
   * The KPI title: pastel and glass override the theme's text colour with
   * white and a heavy shadow; neon keeps its own text colour.
   */
  function KpiTitleStyle(k: ThemeKey): (t: TextStyle)
    ensures k == Neon ==> t == TextStyle(ThemeColors(k).text, LightShadow)
    ensures k != Neon ==> t == TextStyle(White, HeavyShadow)
  {
    if k == Pastel || k == Glass then TextStyle(White, HeavyShadow)
    else TextStyle(ThemeColors(k).text, LightShadow)
  }

  /**
   * The override only changes the colour where the theme's text is not
   * already white, so every theme ends with a white title.
   */
  lemma KpiTitleAlwaysWhite(k: ThemeKey)
    ensures KpiTitleStyle(k).color == White
    ensures KpiTitleStyle(k).color != ThemeColors(k).text <==> k != Neon
  {
  }

  /** The text colour on a salesperson card: neon uses its palette, the others white. */
  function CardTextColor(k: ThemeKey): (c: string)
    ensures k == Neon ==> c == ThemeColors(k).text
    ensures k != Neon ==> c == "#ffffff"
    ensures c == White || c == "#ffffff"
  {
    match k
    case Neon => ThemeColors(k).text
    case Glass => "#ffffff"
    case Pastel => "#ffffff"
  }

  // ---------------------------------------------------------- salesperson card

  /** Sales over target as a percentage (before the one-decimal rounding). */
  function Performance(vendas: int, meta: int): (p: real)
    requires meta > 0
    ensures p * meta as real == vendas as real * 100.0
    ensures p >= 100.0 <==> vendas >= meta
    ensures p >= 0.0 <==> vendas >= 0
  {
    vendas as real / meta as real * 100.0
  }

  /** The performance tier: green from 100, gold from 80, coral below. */
  function PerformanceColor(performance: real): (c: string)
    ensures c == Green <==> performance >= 100.0
    ensures c == Gold <==> 80.0 <= performance < 100.0
    ensures c == Coral <==> performance < 80.0
  {
    if performance >= 100.0 then Green else if performance >= 80.0 then Gold else Coral
  }

  function TierRank(c: string): nat {
    if c == Green then 2 else if c == Gold then 1 else 0
  }

  /** A higher performance never gets a lower tier. */
  lemma PerformanceColorMonotone(p: real, q: real)
    requires p <= q
    ensures TierRank(PerformanceColor(p)) <= TierRank(PerformanceColor(q))
  {
  }

  function RealMin(a: real, b: real): (m: real)
    ensures m <= a && m <= b
    ensures m == a || m == b
  {
    if a <= b then a else b
  }

  /** The progress bar: performance as a fraction, capped at a full bar. */
  function Progress(performance: real): (p: real)
    ensures p <= 1.0
    ensures p == 1.0 <==> performance >= 100.0
    ensures p < 1.0 ==> p == performance / 100.0
    ensures performance >= 0.0 ==> p >= 0.0
  {
    RealMin(performance / 100.0, 1.0)
  }

  datatype Difference = Difference(amount: int, caption: string)

  /** The "difference" metric: its magnitude, and whether sales are above target. */
  function TargetDifference(vendas: int, meta: int): (d: Difference)
    ensures d.amount >= 0
    ensures d.amount + meta == vendas || vendas + d.amount == meta
    ensures d.caption == "Acima" <==> vendas > meta
    ensures d.caption == "Abaixo" <==> vendas <= meta
  {
    var diff := vendas - meta;
    Difference(if diff >= 0 then diff else -diff, if diff > 0 then "Acima" else "Abaixo")
  }

  /**
   * Measured exactly, the green tier and the full progress bar mean the
   * target was met, and "above target" implies green. A salesperson exactly
   * on target is green with a full bar but labelled "below".
   */
  lemma TierAgreesWithTarget(vendas: int, meta: int)
    requires meta > 0
    ensures PerformanceColor(Performance(vendas, meta)) == Green <==> vendas >= meta
    ensures Progress(Performance(vendas, meta)) == 1.0 <==> vendas >= meta
    ensures TargetDifference(vendas, meta).caption == "Acima" ==>
      PerformanceColor(Performance(vendas, meta)) == Green
    ensures vendas == meta ==>
      TargetDifference(vendas, meta).caption == "Abaixo" && PerformanceColor(Performance(vendas, meta)) == Green
  {
    var q := vendas as real / meta as real;
    assert q * meta as real == vendas as real;
    assert q >= 1.0 <==> vendas >= meta;
  }

  // -------------------------------------------------------------- hall of fame

  /**
   * `nlargest`'s ranking of roster rows: more sales first, and among equal
   * sales the earlier row first (`keep='first'`).
   */
  predicate RanksBefore(s: seq<Salesperson>, i: nat, j: nat)
    requires i < |s| && j < |s|
  {
    s[i].vendas > s[j].vendas || (s[i].vendas == s[j].vendas && i < j)
  }

  /** Row numbers in increasing order, all below `m`. */
  predicate Increasing(rows: seq<nat>, m: nat) {
    (forall p :: 0 <= p < |rows| ==> rows[p] < m)
    && (forall p, q :: 0 <= p < q < |rows| ==> rows[p] < rows[q])
  }

  /** Position in `avail` of the first row with the largest sales. */
  function FirstBest(s: seq<Salesperson>, avail: seq<nat>): (k: nat)
    requires |avail| > 0 && Increasing(avail, |s|)
    ensures k < |avail|
    ensures forall q :: 0 <= q < |avail| ==> s[avail[q]].vendas <= s[avail[k]].vendas
    ensures forall q :: 0 <= q < k ==> s[avail[q]].vendas < s[avail[k]].vendas
    decreases |avail|
  {
    if |avail| == 1 then 0
    else
      var k := FirstBest(s, avail[1..]);
      if s[avail[0]].vendas >= s[avail[1 + k]].vendas then 0 else 1 + k
  }

  /** The first-best row ranks before every other available row. */
  lemma FirstBestRanksFirst(s: seq<Salesperson>, avail: seq<nat>, k: nat)
    requires Increasing(avail, |s|) && k < |avail|
    requires forall q :: 0 <= q < |avail| ==> s[avail[q]].vendas <= s[avail[k]].vendas
    requires forall q :: 0 <= q < k ==> s[avail[q]].vendas < s[avail[k]].vendas
    ensures forall j :: j in avail && j != avail[k] ==> RanksBefore(s, avail[k], j)
  {
    forall j | j in avail && j != avail[k] ensures RanksBefore(s, avail[k], j) {
      var q :| 0 <= q < |avail| && avail[q] == j;
      if q > k {
        assert avail[k] < avail[q];
      }
    }
  }

  function Without<T>(s: seq<T>, k: nat): seq<T>
    requires k < |s|
  {
    s[..k] + s[k + 1..]
  }

  /** Removing one position keeps the rows increasing and drops exactly that row. */
  lemma WithoutIncreasing(avail: seq<nat>, k: nat, m: nat)
    requires Increasing(avail, m) && k < |avail|
    ensures Increasing(Without(avail, k), m)
    ensures |Without(avail, k)| == |avail| - 1
    ensures forall j :: j in Without(avail, k) <==> j in avail && j != avail[k]
  {
    var w := Without(avail, k);
    assert forall p :: 0 <= p < |w| ==> w[p] == if p < k then avail[p] else avail[p + 1];
    forall j | j in avail && j != avail[k] ensures j in w {
      var q :| 0 <= q < |avail| && avail[q] == j;
      if q < k { assert w[q] == j; } else { assert w[q - 1] == j; }
    }
    forall j | j in w ensures j in avail && j != avail[k] {
      var p :| 0 <= p < |w| && w[p] == j;
      if p < k { assert avail[p] < avail[k]; } else { assert avail[k] < avail[p + 1]; }
    }
  }

  /**
   * The n best rows among `avail`, best first: every picked row ranks before
   * every later pick and before every available row left out.
   */
  function Select(s: seq<Salesperson>, n: nat, avail: seq<nat>): (r: seq<nat>)
    requires Increasing(avail, |s|)
    ensures |r| == if n < |avail| then n else |avail|
    ensures forall p :: 0 <= p < |r| ==> r[p] in avail
    ensures forall p, q :: 0 <= p < q < |r| ==> RanksBefore(s, r[p], r[q])
    ensures forall p, j :: 0 <= p < |r| && j in avail && j !in r ==> RanksBefore(s, r[p], j)
    decreases n
  {
    if n == 0 || |avail| == 0 then []
    else
      var k := FirstBest(s, avail);
      var rest := Without(avail, k);
      WithoutIncreasing(avail, k, |s|);
      FirstBestRanksFirst(s, avail, k);
      var tail := Select(s, n - 1, rest);
      var r := [avail[k]] + tail;
      SelectStep(s, avail, k, rest, tail, r);
      r
  }

  /** The step of `Select`: the first-best row followed by the best of the rest. */
  lemma SelectStep(s: seq<Salesperson>, avail: seq<nat>, k: nat, rest: seq<nat>, tail: seq<nat>, r: seq<nat>)
    requires k < |avail| && (forall p :: 0 <= p < |avail| ==> avail[p] < |s|)
    requires r == [avail[k]] + tail
    requires forall j :: j in rest <==> j in avail && j != avail[k]
    requires forall j :: j in avail && j != avail[k] ==> RanksBefore(s, avail[k], j)
    requires forall p :: 0 <= p < |tail| ==> tail[p] in rest
    requires forall p, q :: 0 <= p < q < |tail| ==> RanksBefore(s, tail[p], tail[q])
    requires forall p, j :: 0 <= p < |tail| && j in rest && j !in tail ==> RanksBefore(s, tail[p], j)
    ensures forall p :: 0 <= p < |r| ==> r[p] in avail
    ensures forall p, q :: 0 <= p < q < |r| ==> RanksBefore(s, r[p], r[q])
    ensures forall p, j :: 0 <= p < |r| && j in avail && j !in r ==> RanksBefore(s, r[p], j)
  {
    assert forall p :: 0 < p < |r| ==> r[p] == tail[p - 1];
    forall p, q | 0 <= p < q < |r| ensures RanksBefore(s, r[p], r[q]) {
      assert r[q] in rest;
    }
    forall p, j | 0 <= p < |r| && j in avail && j !in r ensures RanksBefore(s, r[p], j) {
      assert j != avail[k] && j !in tail;
    }
  }

  /** Row numbers 0, 1, ..., m - 1. */
  function Rows(m: nat): (r: seq<nat>)
    ensures |r| == m && Increasing(r, m)
    ensures forall j: int :: j in r <==> 0 <= j < m
  {
    var r := seq(m, j requires 0 <= j => j);
    assert forall j: int :: j in r <==> 0 <= j < m by {
      forall j: int | j in r ensures 0 <= j < m {
        var p :| 0 <= p < m && r[p] == j;
      }
      forall j: int | 0 <= j < m ensures j in r {
        assert r[j] == j;
      }
    }
    r
  }

  /**
   * `nlargest(n, 'vendas')` as row numbers: min(n, rows) rows, most sales
   * first, ties in row order, and each picked row ranked before every row
   * left out, ties again going to the earlier row.
   */
  function TopNRows(s: seq<Salesperson>, n: nat): (r: seq<nat>)
    ensures |r| == if n < |s| then n else |s|
    ensures forall p :: 0 <= p < |r| ==> r[p] < |s|
    ensures forall p, q :: 0 <= p < q < |r| ==> RanksBefore(s, r[p], r[q])
    ensures forall p, j :: 0 <= p < |r| && 0 <= j < |s| && j !in r ==> RanksBefore(s, r[p], j)
  {
    Select(s, n, Rows(|s|))
  }

  /**
   * The hall-of-fame rows themselves: distinct roster rows (the ranking is
   * strict), sales descending, none below a salesperson left out.
   */
  function TopN(s: seq<Salesperson>, n: nat): (r: seq<Salesperson>)
    ensures |r| == if n < |s| then n else |s|
    ensures forall i, j :: 0 <= i < j < |r| ==> r[i].vendas >= r[j].vendas
    ensures forall p, j :: 0 <= p < |r| && 0 <= j < |s| && j !in TopNRows(s, n) ==> r[p].vendas >= s[j].vendas
    ensures forall p :: 0 <= p < |r| ==> r[p] in s
    ensures forall p :: 0 <= p < |r| ==> r[p] == s[TopNRows(s, n)[p]]
  {
    var rows := TopNRows(s, n);
    var r := seq(|rows|, p requires 0 <= p < |rows| => s[rows[p]]);
    assert forall p :: 0 <= p < |r| ==> r[p] == s[rows[p]];
    r
  }

  // ------------------------------------------------------- transaction cards

  /** Python's `s[:n]`: the first n characters, or all of them. */
  function Prefix(s: string, n: nat): string {
    if |s| <= n then s else s[..n]
  }

  /** A client name as shown: at most 25 characters, an ellipsis marking a cut. */
  function DisplayName(cliente: string): (r: string)
    ensures |cliente| <= 25 ==> r == cliente
    ensures |cliente| > 25 ==> |r| == 28 && r[..25] == cliente[..25] && r[25..] == "..."
    ensures |r| <= 28
  {
    Prefix(cliente, 25) + (if |cliente| > 25 then "..." else "")
  }

  /** The card grid has three columns, filled round-robin. */
  function CardColumn(idx: nat): (c: nat)
    ensures c < 3
    ensures idx < 3 ==> c == idx
  {
    idx % 3
  }

  /** How many of the first n cards land in column c. */
  function ColumnCount(n: nat, c: nat): nat {
    if n == 0 then 0 else ColumnCount(n - 1, c) + (if CardColumn(n - 1) == c then 1 else 0)
  }

  /** Round-robin placement: column c receives ceil((n - c) / 3) of n cards. */
  lemma {:induction false} ColumnsBalanced(n: nat, c: nat)
    requires c < 3
    ensures ColumnCount(n, c) == (n + 2 - c) / 3
  {
    if n > 0 {
      ColumnsBalanced(n - 1, c);
      var m := n - 1;
      var q, r := m / 3, m % 3;
      assert m == 3 * q + r && r < 3;
      assert CardColumn(m) == r;
      if r < c {
        assert (m + 2 - c) / 3 == q && (n + 2 - c) / 3 == q;
      } else if r == c {
        assert (m + 2 - c) / 3 == q && (n + 2 - c) / 3 == q + 1;
      } else {
        assert (m + 2 - c) / 3 == q + 1 && (n + 2 - c) / 3 == q + 1;
      }
    }
  }

  const StatusIcon: map<string, string> := map["Concluída" := "✅", "Pendente" := "⏳", "Processando" := "🔄"]
  const StatusColor: map<string, string> := map["Concluída" := "#00FF00", "Pendente" := "#FFD700", "Processando" := "#00BFFF"]

  /** Both status maps are defined on exactly the three statuses the generator draws from. */
  lemma StatusMapsTotal()
    ensures StatusIcon.Keys == StatusColor.Keys
    ensures forall s :: s in Statuses <==> s in StatusIcon
  {
  }

  datatype Card = Card(column: nat, icon: string, color: string, cliente: string, produto: string, valor: int, daysAgo: nat)

  /** A status that both badge maps know. */
  predicate HasBadge(status: string) {
    status in StatusIcon && status in StatusColor
  }

  /** Card `c` shows transaction `t` in grid column `column`, with its status badge. */
  predicate Shows(c: Card, t: Transaction, column: nat)
    requires HasBadge(t.status)
  {
    && c.column == column
    && c.cliente == DisplayName(t.cliente)
    && c.icon == StatusIcon[t.status]
    && c.color == StatusColor[t.status]
    && c.produto == t.produto
    && c.valor == t.valor
    && c.daysAgo == t.daysAgo
  }

  /** Cards for `shown`, the first of which is card number `idx`; a status without a badge fails. */
  function CardsFrom(shown: seq<Transaction>, idx: nat): (r: Option<seq<Card>>)
    ensures r.Some? <==> forall k :: 0 <= k < |shown| ==> HasBadge(shown[k].status)
    ensures r.Some? ==> |r.value| == |shown|
    ensures r.Some? ==> forall k :: 0 <= k < |shown| ==> Shows(r.value[k], shown[k], (idx + k) % 3)
    decreases |shown|
  {
    if shown == [] then Some([])
    else
      var t := shown[0];
      if !HasBadge(t.status) then None
      else match CardsFrom(shown[1..], idx + 1)
        case None => None
        case Some(rest) =>
          var c := Card(CardColumn(idx), StatusIcon[t.status], StatusColor[t.status],
                        DisplayName(t.cliente), t.produto, t.valor, t.daysAgo);
          CardsStep(shown, idx, c, rest);
          Some([c] + rest)
  }

  /** The step of `CardsFrom`: the first card followed by the cards of the rest. */
  lemma CardsStep(shown: seq<Transaction>, idx: nat, c: Card, rest: seq<Card>)
    requires shown != [] && HasBadge(shown[0].status)
    requires c.column == CardColumn(idx) && c.cliente == DisplayName(shown[0].cliente)
    requires c.icon == StatusIcon[shown[0].status] && c.color == StatusColor[shown[0].status]
    requires c.produto == shown[0].produto && c.valor == shown[0].valor && c.daysAgo == shown[0].daysAgo
    requires |rest| == |shown| - 1
    requires forall k :: 0 <= k < |shown| - 1 ==> HasBadge(shown[1..][k].status)
    requires forall k :: 0 <= k < |rest| ==> Shows(rest[k], shown[1..][k], (idx + 1 + k) % 3)
    ensures forall k :: 0 <= k < |shown| ==> HasBadge(shown[k].status)
    ensures forall k :: 0 <= k < |shown| ==> Shows(([c] + rest)[k], shown[k], (idx + k) % 3)
  {
    forall k | 0 <= k < |shown| ensures HasBadge(shown[k].status) && Shows(([c] + rest)[k], shown[k], (idx + k) % 3) {
      if k > 0 {
        assert shown[k] == shown[1..][k - 1] && ([c] + rest)[k] == rest[k - 1];
        assert (idx + 1 + (k - 1)) % 3 == (idx + k) % 3;
      }
    }
  }

  /**
   * The "latest transactions" grid (`head(6)`): one card for each of the first
   * six transactions, in order, round-robin over the three columns; it fails
   * exactly when one of those six has a status without a badge.
   */
  function TransactionCards(ts: seq<Transaction>): (r: Option<seq<Card>>)
    ensures var m := if |ts| <= 6 then |ts| else 6;
      && (r.Some? <==> forall k :: 0 <= k < m ==> HasBadge(ts[k].status))
      && (r.Some? ==> |r.value| == m)
      && (r.Some? ==> forall k :: 0 <= k < m ==> Shows(r.value[k], ts[k], k % 3))
  {
    var shown := if |ts| <= 6 then ts else ts[..6];
    assert forall k :: 0 <= k < |shown| ==> shown[k] == ts[k];
    CardsFrom(shown, 0)
  }

  /**
   * For every generated dataset the grid renders without a missing badge: six
   * cards showing the first six transactions, two per column.
   */
  lemma GeneratedTransactionsRender(d: Dataset)
    requires WellFormed(d)
    ensures TransactionCards(d.transacoes).Some?
    ensures |TransactionCards(d.transacoes).value| == 6
    ensures forall k :: 0 <= k < 6 ==> HasBadge(d.transacoes[k].status)
    ensures forall k :: 0 <= k < 6 ==> Shows(TransactionCards(d.transacoes).value[k], d.transacoes[k], k % 3)
    ensures forall c :: 0 <= c < 3 ==> ColumnCount(6, c) == 2
  {
    StatusMapsTotal();
    assert forall k :: 0 <= k < 6 ==> d.transacoes[k].status in Statuses;
    forall c | 0 <= c < 3 ensures ColumnCount(6, c) == 2 {
      ColumnsBalanced(6, c);
    }
  }
}
