/**
 * The operational view: the static infrastructure table, the facility-type
 * marker table (`tipo_config`), one map trace per distinct facility type, and
 * the staff table sorted by employee count.
 */
module Infrastructure {
  import opened Options

  datatype Site = Site(
    local: string,
    tipo: string,
    status: string,
    funcionarios: int,
    coberturaKm: int,
    lat: real,
    lon: real)

  /** The columns of the `infraestrutura` dictionary, each listed row by row. */
  const Locais := [
    "Centro SP", "Filial RJ", "CD Campinas", "Escritório BH", "Hub Curitiba",
    "Base Floripa", "Centro GO", "Filial Salvador", "Hub Recife", "Base Fortaleza"]
  const TipoColumn := [
    "Sede", "Filial", "Centro de Distribuição", "Escritório", "Hub Logístico",
    "Base Operacional", "Centro Regional", "Filial", "Hub Logístico", "Base Operacional"]
  const StatusColumn := [
    "Ativo", "Ativo", "Ativo", "Ativo", "Ativo", "Ativo", "Ativo", "Manutenção", "Ativo", "Ativo"]
  const FuncionariosColumn: seq<int> := [350, 180, 45, 85, 120, 65, 95, 140, 110, 75]
  const CoberturaColumn: seq<int> := [500, 400, 300, 350, 450, 280, 380, 420, 390, 320]
  const LatColumn: seq<real> := [
    -23.5505, -22.9068, -22.9056, -19.9167, -25.2521, -27.2423, -16.6864, -12.9714, -8.0476, -3.7319]
  const LonColumn: seq<real> := [
    -46.6333, -43.1729, -47.0608, -43.9345, -49.2908, -48.2619, -49.2643, -38.5014, -34.8770, -38.5267]

  /** `pd.DataFrame(infraestrutura)`: row i gathers entry i of every column. */
  const Infraestrutura: seq<Site> := seq(10, i requires 0 <= i < 10 =>
    Site(Locais[i], TipoColumn[i], StatusColumn[i], FuncionariosColumn[i], CoberturaColumn[i],
         LatColumn[i], LonColumn[i]))

  datatype MarkerStyle = MarkerStyle(color: string, symbol: string, size: nat)

  /** The facility-type marker table, independent of the theme palette. */
  const TipoConfig: map<string, MarkerStyle> := map[
    "Sede" := MarkerStyle("#DAA520", "star", 20),
    "Filial" := MarkerStyle("#00BFFF", "circle", 15),
    "Centro de Distribuição" := MarkerStyle("#FF6347", "square", 18),
    "Escritório" := MarkerStyle("#32CD32", "triangle-up", 12),
    "Hub Logístico" := MarkerStyle("#FF1493", "diamond", 16),
    "Base Operacional" := MarkerStyle("#9370DB", "cross", 14),
    "Centro Regional" := MarkerStyle("#FF8C00", "hexagon", 15)
  ]

  /** The `Tipo` column. */
  function Types(sites: seq<Site>): (ts: seq<string>)
    ensures |ts| == |sites|
    ensures forall i :: 0 <= i < |sites| ==> ts[i] == sites[i].tipo
  {
    if sites == [] then [] else [sites[0].tipo] + Types(sites[1..])
  }

  /** Position of the first occurrence of `x` in `xs`. */
  function FirstIndex(xs: seq<string>, x: string): (k: nat)
    requires x in xs
    ensures k < |xs| && xs[k] == x
    ensures forall i :: 0 <= i < k ==> xs[i] != x
    decreases |xs|
  {
    if xs[0] == x then 0 else 1 + FirstIndex(xs[1..], x)
  }

  /** Appending to a list does not move the first occurrence of a value already in it. */
  lemma {:induction false} FirstIndexSnoc(xs: seq<string>, y: string, x: string)
    requires x in xs
    ensures FirstIndex(xs + [y], x) == FirstIndex(xs, x)
    decreases |xs|
  {
    if xs[0] != x {
      assert (xs + [y])[1..] == xs[1..] + [y];
      FirstIndexSnoc(xs[1..], y, x);
    }
  }

  /** `unique()`: each value once, in order of first appearance. */
  function Unique(xs: seq<string>): (r: seq<string>)
    ensures forall x :: x in r <==> x in xs
    ensures forall i, j :: 0 <= i < j < |r| ==> r[i] != r[j]
    ensures forall i, j :: 0 <= i < j < |r| ==> FirstIndex(xs, r[i]) < FirstIndex(xs, r[j])
    ensures |r| <= |xs|
    ensures |xs| > 0 ==> |r| > 0 && r[0] == xs[0]
    decreases |xs|
  {
    if xs == [] then []
    else
      var init := xs[..|xs| - 1];
      var last := xs[|xs| - 1];
      var u := Unique(init);
      assert xs == init + [last];
      UniqueSnocOrder(init, last, u);
      if last in u then u else u + [last]
  }

  /** The order step of `Unique`: first occurrences in `init` keep their places, a new value comes last. */
  lemma UniqueSnocOrder(init: seq<string>, last: string, u: seq<string>)
    requires forall x :: x in u <==> x in init
    requires forall i, j :: 0 <= i < j < |u| ==> FirstIndex(init, u[i]) < FirstIndex(init, u[j])
    ensures forall i, j :: 0 <= i < j < |u| ==> FirstIndex(init + [last], u[i]) < FirstIndex(init + [last], u[j])
    ensures last !in u ==> forall i :: 0 <= i < |u| ==> FirstIndex(init + [last], u[i]) < FirstIndex(init + [last], last)
  {
    forall i | 0 <= i < |u| ensures FirstIndex(init + [last], u[i]) == FirstIndex(init, u[i]) {
      FirstIndexSnoc(init, last, u[i]);
    }
    if last !in u {
      assert (init + [last])[|init|] == last;
      assert forall i :: 0 <= i < |init| ==> (init + [last])[i] == init[i];
    }
  }

  /** The rows of one facility type (`df_infra[df_infra['Tipo'] == tipo]`), in table order. */
  function SitesOfType(sites: seq<Site>, tipo: string): (r: seq<Site>)
    ensures |r| <= |sites|
    ensures forall s :: s in r <==> s in sites && s.tipo == tipo
    decreases |sites|
  {
    if sites == [] then []
    else (if sites[0].tipo == tipo then [sites[0]] else []) + SitesOfType(sites[1..], tipo)
  }

  /** The filter keeps each row of the type exactly as often as the table has it, and no other row. */
  lemma {:induction false} SitesOfTypeCounts(sites: seq<Site>, tipo: string)
    ensures forall s :: multiset(SitesOfType(sites, tipo))[s] == if s.tipo == tipo then multiset(sites)[s] else 0
    decreases |sites|
  {
    if sites != [] {
      SitesOfTypeCounts(sites[1..], tipo);
      assert sites == [sites[0]] + sites[1..];
    }
  }

  /** The filter keeps table order: filtering two blocks of rows filters each in turn. */
  lemma {:induction false} SitesOfTypeAppend(a: seq<Site>, b: seq<Site>, tipo: string)
    ensures SitesOfType(a + b, tipo) == SitesOfType(a, tipo) + SitesOfType(b, tipo)
    decreases |a|
  {
    if a == [] {
      assert a + b == b;
    } else {
      var ab := a + b;
      assert ab[0] == a[0] && ab[1..] == a[1..] + b;
      SitesOfTypeAppend(a[1..], b, tipo);
      var h := if a[0].tipo == tipo then [a[0]] else [];
      assert SitesOfType(ab, tipo) == h + SitesOfType(ab[1..], tipo);
      assert SitesOfType(a, tipo) == h + SitesOfType(a[1..], tipo);
    }
  }

  /** One map trace: the type's marker style and the sites drawn with it. */
  datatype Trace = Trace(tipo: string, style: MarkerStyle, sites: seq<Site>)

  /** Traces for the listed types; the first type missing from the marker table is the error. */
  function TracesFor(tipos: seq<string>, sites: seq<Site>): (r: Result<seq<Trace>, string>)
    ensures r.Ok? <==> forall i :: 0 <= i < |tipos| ==> tipos[i] in TipoConfig
    ensures r.Err? ==> r.error in tipos && r.error !in TipoConfig
    ensures r.Ok? ==> |r.value| == |tipos|
    ensures r.Ok? ==> forall i :: 0 <= i < |tipos| ==>
      && r.value[i].tipo == tipos[i]
      && r.value[i].style == TipoConfig[tipos[i]]
      && r.value[i].sites == SitesOfType(sites, tipos[i])
    decreases |tipos|
  {
    if tipos == [] then Ok([])
    else if tipos[0] !in TipoConfig then Err(tipos[0])
    else match TracesFor(tipos[1..], sites)
      case Err(e) => Err(e)
      case Ok(rest) => Ok([Trace(tipos[0], TipoConfig[tipos[0]], SitesOfType(sites, tipos[0]))] + rest)
  }

  /**
   * The map: one trace per distinct facility type. It fails exactly when some
   * site's type has no marker style, naming such a type.
   */
  function MarkerTraces(sites: seq<Site>): (r: Result<seq<Trace>, string>)
    ensures r.Ok? <==> forall i :: 0 <= i < |sites| ==> sites[i].tipo in TipoConfig
    ensures r.Err? ==> r.error !in TipoConfig && exists i :: 0 <= i < |sites| && sites[i].tipo == r.error
    ensures r.Ok? ==> |r.value| == |Unique(Types(sites))|
    ensures r.Ok? ==> forall k :: 0 <= k < |r.value| ==>
      && r.value[k].tipo == Unique(Types(sites))[k]
      && r.value[k].tipo in TipoConfig
      && r.value[k].style == TipoConfig[r.value[k].tipo]
      && r.value[k].sites == SitesOfType(sites, r.value[k].tipo)
  {
    var tipos := Unique(Types(sites));
    var r := TracesFor(tipos, sites);
    assert forall i :: 0 <= i < |sites| ==> sites[i].tipo in tipos by {
      forall i | 0 <= i < |sites| ensures sites[i].tipo in tipos {
        assert Types(sites)[i] == sites[i].tipo;
      }
    }
    assert r.Err? ==> r.error in Types(sites);
    r
  }

  const ShippedTypes := [
    "Sede", "Filial", "Centro de Distribuição", "Escritório",
    "Hub Logístico", "Base Operacional", "Centro Regional"]

  lemma UniqueSnoc(xs: seq<string>, x: string)
    ensures Unique(xs + [x]) == if x in Unique(xs) then Unique(xs) else Unique(xs) + [x]
  {
    assert (xs + [x])[..|xs|] == xs;
  }

  /** A list without repeats is its own `unique()`. */
  lemma {:induction false} UniqueOfDistinct(xs: seq<string>)
    requires forall i, j :: 0 <= i < j < |xs| ==> xs[i] != xs[j]
    ensures Unique(xs) == xs
    decreases |xs|
  {
    if xs != [] {
      var init, last := xs[..|xs| - 1], xs[|xs| - 1];
      assert init + [last] == xs;
      UniqueOfDistinct(init);
      assert last !in init;
      UniqueSnoc(init, last);
    }
  }

  lemma UniqueIgnoresOne(zs: seq<string>, y: string)
    requires y in zs
    ensures Unique(zs + [y]) == Unique(zs)
  {
    assert y in Unique(zs);
    UniqueSnoc(zs, y);
  }

  /** Appending values already present leaves `unique()` unchanged. */
  lemma {:induction false} UniqueIgnoresRepeats(xs: seq<string>, ys: seq<string>)
    requires forall j :: 0 <= j < |ys| ==> ys[j] in xs
    ensures Unique(xs + ys) == Unique(xs)
    decreases |ys|
  {
    if ys == [] {
      assert xs + ys == xs;
    } else {
      var init := ys[..|ys| - 1];
      var y := ys[|ys| - 1];
      assert (xs + init) + [y] == xs + ys;
      UniqueIgnoresRepeats(xs, init);
      UniqueIgnoresOne(xs + init, y);
    }
  }

  /** The distinct facility types of the shipped table, in order of first appearance. */
  lemma ShippedUniqueTypes()
    ensures Unique(Types(Infraestrutura)) == ShippedTypes
  {
    ShippedTypeColumn();
    ShippedTypesDistinct();
    DistinctThenRepeats(Types(Infraestrutura), ShippedTypes, [ShippedTypes[1], ShippedTypes[4], ShippedTypes[5]]);
  }

  lemma ShippedTypesDistinct()
    ensures forall i, j :: 0 <= i < j < |ShippedTypes| ==> ShippedTypes[i] != ShippedTypes[j]
  {
  }

  /** A list of distinct values followed by repeats of them has those values as its `unique()`. */
  lemma DistinctThenRepeats(xs: seq<string>, t: seq<string>, extra: seq<string>)
    requires xs == t + extra
    requires forall i, j :: 0 <= i < j < |t| ==> t[i] != t[j]
    requires forall j :: 0 <= j < |extra| ==> extra[j] in t
    ensures Unique(xs) == t
  {
    UniqueOfDistinct(t);
    UniqueIgnoresRepeats(t, extra);
  }

  /** The `Tipo` column: the seven types in first-appearance order, then three repeats. */
  lemma ShippedTypeColumn()
    ensures Types(Infraestrutura) == ShippedTypes + [ShippedTypes[1], ShippedTypes[4], ShippedTypes[5]]
  {
    var ts := Types(Infraestrutura);
    var want := ShippedTypes + [ShippedTypes[1], ShippedTypes[4], ShippedTypes[5]];
    forall i | 0 <= i < 10 ensures ts[i] == want[i] {
      assert ts[i] == TipoColumn[i];
    }
  }

  /**
   * Every facility type of the shipped table has a marker style: the map gets
   * seven traces, one per configured style, and no failure.
   */
  lemma ShippedTableFullyMapped()
    ensures MarkerTraces(Infraestrutura).Ok?
    ensures |MarkerTraces(Infraestrutura).value| == 7
    ensures forall t :: t in TipoConfig <==> t in ShippedTypes
  {
    ShippedUniqueTypes();
    forall i | 0 <= i < |Infraestrutura| ensures Infraestrutura[i].tipo in TipoConfig {
      assert Infraestrutura[i].tipo in Unique(Types(Infraestrutura)) by {
        assert Types(Infraestrutura)[i] == Infraestrutura[i].tipo;
      }
    }
  }

  predicate SortedByEmployeesDesc(s: seq<Site>) {
    forall i, j :: 0 <= i < j < |s| ==> s[i].funcionarios >= s[j].funcionarios
  }

  /** Inserts a site before the first one with fewer or as many employees. */
  function InsertByEmployees(x: Site, s: seq<Site>): (r: seq<Site>)
    requires SortedByEmployeesDesc(s)
    ensures SortedByEmployeesDesc(r)
    ensures multiset(r) == multiset(s) + multiset{x}
    ensures |r| == |s| + 1
    ensures r[0] == x || (|s| > 0 && r[0] == s[0])
    decreases |s|
  {
    if s == [] || x.funcionarios >= s[0].funcionarios then [x] + s
    else
      SortedTail(s);
      var tail := InsertByEmployees(x, s[1..]);
      var r := [s[0]] + tail;
      assert s == [s[0]] + s[1..];
      assert multiset(r) == multiset{s[0]} + multiset(tail);
      ConsSorted(s[0], tail);
      r
  }

  lemma SortedTail(s: seq<Site>)
    requires s != [] && SortedByEmployeesDesc(s)
    ensures SortedByEmployeesDesc(s[1..])
    ensures forall j :: 0 <= j < |s[1..]| ==> s[1..][j] == s[j + 1]
  {
  }

  /** A row with at least as many employees as the head of a sorted list may go in front. */
  lemma ConsSorted(y: Site, t: seq<Site>)
    requires SortedByEmployeesDesc(t)
    requires t != [] ==> y.funcionarios >= t[0].funcionarios
    ensures SortedByEmployeesDesc([y] + t)
  {
    var r := [y] + t;
    forall i, j | 0 <= i < j < |r| ensures r[i].funcionarios >= r[j].funcionarios {
      if i == 0 {
        assert r[j] == t[j - 1];
        assert t[0].funcionarios >= t[j - 1].funcionarios;
      } else {
        assert r[i] == t[i - 1] && r[j] == t[j - 1];
      }
    }
  }

  /** `sort_values('Funcionarios', ascending=False)`: the same rows, most staff first. */
  function SortByEmployeesDesc(sites: seq<Site>): (r: seq<Site>)
    ensures SortedByEmployeesDesc(r)
    ensures multiset(r) == multiset(sites)
    ensures |r| == |sites|
    decreases |sites|
  {
    if sites == [] then []
    else
      assert sites == [sites[0]] + sites[1..];
      InsertByEmployees(sites[0], SortByEmployeesDesc(sites[1..]))
  }

  predicate StrictlyDesc(s: seq<Site>) {
    forall i, j :: 0 <= i < j < |s| ==> s[i].funcionarios > s[j].funcionarios
  }

  /**
   * With pairwise distinct employee counts there is only one descending
   * order, so the sort's result does not depend on the algorithm or its
   * stability.
   */
  lemma {:induction false} DescendingOrderUnique(a: seq<Site>, b: seq<Site>)
    requires multiset(a) == multiset(b)
    requires StrictlyDesc(a) && StrictlyDesc(b)
    ensures a == b
    decreases |a|
  {
    assert |a| == |multiset(a)| == |b|;
    if a != [] {
      HeadsAgree(a, b);
      DropHead(a);
      DropHead(b);
      DescendingOrderUnique(a[1..], b[1..]);
      assert a == [a[0]] + a[1..] && b == [b[0]] + b[1..];
    }
  }

  /** Dropping the first row keeps strict order and removes one copy of that row. */
  lemma DropHead(a: seq<Site>)
    requires a != [] && StrictlyDesc(a)
    ensures StrictlyDesc(a[1..])
    ensures multiset(a[1..]) == multiset(a) - multiset{a[0]}
  {
    assert a == [a[0]] + a[1..];
    forall i, j | 0 <= i < j < |a[1..]| ensures a[1..][i].funcionarios > a[1..][j].funcionarios {
      assert a[1..][i] == a[i + 1] && a[1..][j] == a[j + 1];
    }
  }

  /** Two strictly descending arrangements of the same rows start with the same row. */
  lemma HeadsAgree(a: seq<Site>, b: seq<Site>)
    requires multiset(a) == multiset(b)
    requires StrictlyDesc(a) && StrictlyDesc(b)
    requires a != [] && b != []
    ensures a[0] == b[0]
  {
    assert a[0] in multiset(b) && a[0] in b;
    var j :| 0 <= j < |b| && b[j] == a[0];
    assert b[0] in multiset(a) && b[0] in a;
    var i :| 0 <= i < |a| && a[i] == b[0];
    assert a[0].funcionarios >= a[i].funcionarios;
    assert b[0].funcionarios >= b[j].funcionarios;
    assert a[0].funcionarios == b[0].funcionarios;
    assert j == 0;
  }

  predicate DistinctCounts(s: seq<Site>) {
    forall p, q :: 0 <= p < q < |s| ==> s[p].funcionarios != s[q].funcionarios
  }

  lemma {:induction false} AtMostOnce(s: seq<Site>, x: Site)
    requires DistinctCounts(s)
    ensures multiset(s)[x] <= 1
    decreases |s|
  {
    if s != [] {
      assert s == [s[0]] + s[1..];
      AtMostOnce(s[1..], x);
      if s[0] == x {
        forall q | 0 <= q < |s[1..]| ensures s[1..][q] != x {
          assert s[q + 1].funcionarios != s[0].funcionarios;
        }
        assert x !in s[1..];
      }
    }
  }

  lemma TwoCopies(r: seq<Site>, i: nat, j: nat)
    requires i < j < |r| && r[i] == r[j]
    ensures multiset(r)[r[i]] >= 2
  {
    assert r == r[..j] + r[j..];
    assert r[i] in r[..j];
    assert r[j] == r[j..][0];
  }

  /** Distinct employee counts survive any rearrangement of the rows. */
  lemma DistinctCountsPermute(r: seq<Site>, s: seq<Site>)
    requires multiset(r) == multiset(s)
    requires DistinctCounts(s)
    ensures DistinctCounts(r)
  {
    forall i, j | 0 <= i < j < |r| ensures r[i].funcionarios != r[j].funcionarios {
      if r[i].funcionarios == r[j].funcionarios {
        assert r[i] in multiset(s) && r[j] in multiset(s);
        var p :| 0 <= p < |s| && s[p] == r[i];
        var q :| 0 <= q < |s| && s[q] == r[j];
        assert p == q;
        TwoCopies(r, i, j);
        AtMostOnce(s, r[i]);
        assert false;
      }
    }
  }

  /** The row of the shipped table holding a given employee count. */
  function ShippedRowOf(count: int): int {
    if count == 350 then 0 else if count == 180 then 1 else if count == 45 then 2
    else if count == 85 then 3 else if count == 120 then 4 else if count == 65 then 5
    else if count == 95 then 6 else if count == 140 then 7 else if count == 110 then 8
    else if count == 75 then 9 else -1
  }

  /** Counts are distinct when each count determines its row. */
  lemma CountsDetermineRows(s: seq<Site>, rowOf: int -> int)
    requires forall p :: 0 <= p < |s| ==> rowOf(s[p].funcionarios) == p
    ensures DistinctCounts(s)
  {
  }

  lemma ShippedCountsDistinct()
    ensures DistinctCounts(Infraestrutura)
  {
    forall p | 0 <= p < 10 ensures ShippedRowOf(Infraestrutura[p].funcionarios) == p {
      assert Infraestrutura[p].funcionarios == FuncionariosColumn[p];
    }
    CountsDetermineRows(Infraestrutura, ShippedRowOf);
  }

  /**
   * With pairwise distinct counts, every descending arrangement of the rows
   * is the one `SortByEmployeesDesc` computes.
   */
  lemma SortIsCanonical(r: seq<Site>, sites: seq<Site>)
    requires DistinctCounts(sites)
    requires multiset(r) == multiset(sites)
    requires SortedByEmployeesDesc(r)
    ensures r == SortByEmployeesDesc(sites)
  {
    var s := SortByEmployeesDesc(sites);
    DistinctCountsPermute(r, sites);
    DistinctCountsPermute(s, sites);
    DescendingOrderUnique(r, s);
  }

  /** The shipped table's counts are pairwise distinct, so its sorted order is fixed. */
  lemma ShippedTableSortIsUnique(r: seq<Site>)
    requires multiset(r) == multiset(Infraestrutura)
    requires SortedByEmployeesDesc(r)
    ensures r == SortByEmployeesDesc(Infraestrutura)
  {
    ShippedCountsDistinct();
    SortIsCanonical(r, Infraestrutura);
  }
}
