/** `compararLigas` (src/services/curvasService.js:132-159) and `compararDuasLigas`
    (src/services/curvasService.js:165-191): rank the alloys of one sheet, and set
    two of them side by side. */
module Comparison {
  import opened Results
  import opened CurveErrors
  import opened Rows
  import opened Derivatives
  import opened Extrema
  import opened Quotients
  import opened Analysis

  /** `{ liga, valor }` in `resumo`. */
  datatype Leader = Leader(liga: string, valor: real)

  /** `{ liga, taxa }` in `resumo.maiorResfriamento`. */
  datatype Fastest = Fastest(liga: string, taxa: Quotient)

  datatype Summary = Summary(maiorPico: Leader, menorFinal: Leader, maiorResfriamento: Fastest)

  /** One entry of `detalhes`. */
  datatype Detail = Detail(liga: string, max: real, min: real, media: real, taxaResfriamento: Quotient)

  /** The object `compararLigas` returns. */
  datatype GroupComparison = GroupComparison(aba: string, resumo: Summary, detalhes: seq<Detail>)

  /** `ligas.map(liga => analisarLiga(linhas, liga))`, the alloys taken from the first row. */
  function Analyses(rows: seq<Row>): (analises: seq<AlloyAnalysis>)
    requires rows != [] && WellFormedRows(rows)
    ensures |analises| == |AlloyColumns(rows[0])|
    ensures forall i :: 0 <= i < |analises| ==>
      analises[i] == AnalyseAlloy(rows, AlloyColumns(rows[0])[i]).value && analises[i].liga == AlloyColumns(rows[0])[i]
  {
    hide AnalyseAlloy;
    var ligas := AlloyColumns(rows[0]);
    seq(|ligas|, i requires 0 <= i < |ligas| => AnalyseAlloy(rows, ligas[i]).value)
  }

  function Maxes(analises: seq<AlloyAnalysis>): (xs: seq<real>)
    ensures |xs| == |analises| && forall i :: 0 <= i < |analises| ==> xs[i] == analises[i].max
  {
    seq(|analises|, i requires 0 <= i < |analises| => analises[i].max)
  }

  function Finals(analises: seq<AlloyAnalysis>): (xs: seq<real>)
    ensures |xs| == |analises| && forall i :: 0 <= i < |analises| ==> xs[i] == analises[i].final
  {
    seq(|analises|, i requires 0 <= i < |analises| => analises[i].final)
  }

  function Rates(analises: seq<AlloyAnalysis>): (ts: seq<Quotient>)
    ensures |ts| == |analises| && forall i :: 0 <= i < |analises| ==> ts[i] == analises[i].taxaResfriamento
  {
    seq(|analises|, i requires 0 <= i < |analises| => analises[i].taxaResfriamento)
  }

  /** `analises.find(a => a.final === v)`, over the final readings, as the index of
      the first match. */
  function FindFirst(xs: seq<real>, v: real): (r: Option<nat>)
    ensures r.None? <==> forall i :: 0 <= i < |xs| ==> xs[i] != v
    ensures r.Some? ==> r.value < |xs| && xs[r.value] == v
    ensures r.Some? ==> forall i :: 0 <= i < r.value ==> xs[i] != v
  {
    if xs == [] then None
    else
      match FindFirst(xs[..|xs| - 1], v)
      case Some(k) => Some(k)
      case None => if xs[|xs| - 1] == v then Some(|xs| - 1) else None
  }

  /** Looking the least entry up again with `find` lands on the index `maxMin`
      reported it at: the first entry with that value. */
  lemma FindFirstAgreesWithMaxMin(xs: seq<real>)
    requires |xs| > 0
    ensures FindFirst(xs, xs[FirstMinIndex(xs)]) == Some(FirstMinIndex(xs))
  {
  }

  /** `analises.reduce((a, b) => Math.abs(a.taxa) > Math.abs(b.taxa) ? a : b)`
      over the rates, as the index of the element the fold ends on. */
  function ReduceFastest(ts: seq<Quotient>): (k: nat)
    requires |ts| > 0
    ensures k < |ts|
  {
    if |ts| == 1 then 0
    else
      var k := ReduceFastest(ts[..|ts| - 1]);
      if Gt(Abs(ts[k]), Abs(ts[|ts| - 1])) then k else |ts| - 1
  }

  /** Away from NaN the fold settles on the LAST rate of greatest magnitude:
      the accumulator survives only while strictly ahead, so every tie goes to
      the later element. */
  lemma {:induction false} ReduceFastestIsLastLargest(ts: seq<Quotient>)
    requires |ts| > 0
    requires forall i :: 0 <= i < |ts| ==> !ts[i].NaN?
    ensures forall i :: 0 <= i < |ts| ==> !Gt(Abs(ts[i]), Abs(ts[ReduceFastest(ts)]))
    ensures forall i :: ReduceFastest(ts) < i < |ts| ==> Gt(Abs(ts[ReduceFastest(ts)]), Abs(ts[i]))
  {
    var n := |ts|;
    if n > 1 {
      var prefix := ts[..n - 1];
      ReduceFastestIsLastLargest(prefix);
      var k := ReduceFastest(prefix);
      var last := Abs(ts[n - 1]);
      assert prefix[k] == ts[k];
      GtTotal(Abs(ts[k]), last);
      if Gt(Abs(ts[k]), last) {
        forall i | 0 <= i < n
          ensures !Gt(Abs(ts[i]), Abs(ts[k]))
        {
          if i < n - 1 {
            assert prefix[i] == ts[i];
          } else {
            GtTotal(Abs(ts[k]), last);
          }
        }
        forall i | k < i < n
          ensures Gt(Abs(ts[k]), Abs(ts[i]))
        {
          if i < n - 1 {
            assert prefix[i] == ts[i];
          }
        }
      } else {
        forall i | 0 <= i < n
          ensures !Gt(Abs(ts[i]), last)
        {
          if i < n - 1 {
            assert prefix[i] == ts[i];
            GtTotal(Abs(ts[i]), Abs(ts[k]));
            GtTotal(Abs(ts[k]), last);
          } else {
            GtTotal(last, last);
          }
        }
      }
    }
  }

  /** A worked tie: rates -0.5, -0.5 and 0.5 all have magnitude 0.5, and the
      fold ends on the third. */
  lemma ReduceFastestTie()
    ensures ReduceFastest([Finite(-0.5), Finite(-0.5), Finite(0.5)]) == 2
  {
    var ts := [Finite(-0.5), Finite(-0.5), Finite(0.5)];
    assert ts[..1] == [Finite(-0.5)] && ts[..2] == [Finite(-0.5), Finite(-0.5)];
  }

  /** `resumo`: the peak and the least final reading located as `maxMin` locates
      them, the fastest cooling as the `reduce` leaves it. */
  function Summarize(analises: seq<AlloyAnalysis>): (s: Summary)
    requires |analises| > 0
    ensures var k := FirstMaxIndex(Maxes(analises));
      s.maiorPico == Leader(analises[k].liga, analises[k].max)
    ensures var j := FirstMinIndex(Finals(analises));
      s.menorFinal == Leader(analises[j].liga, analises[j].final)
    ensures var k := ReduceFastest(Rates(analises));
      s.maiorResfriamento == Fastest(analises[k].liga, analises[k].taxaResfriamento)
  {
    var maxes, finals := Maxes(analises), Finals(analises);
    var idxMaxPico := FirstMaxIndex(maxes);
    var minFinal := finals[FirstMinIndex(finals)];
    FindFirstAgreesWithMaxMin(finals);
    var menorFinal := FindFirst(finals, minFinal).value;
    var maiorResfriamento := ReduceFastest(Rates(analises));
    Summary(
      maiorPico := Leader(analises[idxMaxPico].liga, maxes[idxMaxPico]),
      menorFinal := Leader(analises[menorFinal].liga, minFinal),
      maiorResfriamento := Fastest(analises[maiorResfriamento].liga, analises[maiorResfriamento].taxaResfriamento))
  }

  /** `maiorPico` is the first alloy whose `max` is the greatest, and `menorFinal`
      the first alloy whose `final` is the least. */
  lemma SummarizeLeaders(analises: seq<AlloyAnalysis>)
    requires |analises| > 0
    ensures var k := FirstMaxIndex(Maxes(analises));
      && Summarize(analises).maiorPico == Leader(analises[k].liga, analises[k].max)
      && (forall i :: 0 <= i < |analises| ==> analises[i].max <= analises[k].max)
      && (forall i :: 0 <= i < k ==> analises[i].max < analises[k].max)
    ensures var j := FirstMinIndex(Finals(analises));
      && Summarize(analises).menorFinal == Leader(analises[j].liga, analises[j].final)
      && (forall i :: 0 <= i < |analises| ==> analises[j].final <= analises[i].final)
      && (forall i :: 0 <= i < j ==> analises[j].final < analises[i].final)
  {
    var maxes, finals := Maxes(analises), Finals(analises);
    assert forall i :: 0 <= i < |analises| ==> maxes[i] == analises[i].max;
    assert forall i :: 0 <= i < |analises| ==> finals[i] == analises[i].final;
  }

  /** `analises.map(a => ({ liga, max, min, media, taxaResfriamento }))`. */
  function Details(analises: seq<AlloyAnalysis>): (ds: seq<Detail>)
    ensures |ds| == |analises|
    ensures forall i :: 0 <= i < |analises| ==>
      ds[i] == Detail(analises[i].liga, analises[i].max, analises[i].min, analises[i].media, analises[i].taxaResfriamento)
  {
    seq(|analises|, i requires 0 <= i < |analises| =>
      Detail(analises[i].liga, analises[i].max, analises[i].min, analises[i].media, analises[i].taxaResfriamento))
  }

  /** `compararLigas(linhas)` on rows already loaded. Zero rows fail at
      `Object.keys(linhas[0])`; no alloy column fails at the `reduce`, which has no
      initial value (the two `maxMin` calls before it return their sentinels). */
  function CompareAlloys(rows: seq<Row>): (r: Result<GroupComparison, Error>)
    requires WellFormedRows(rows)
    ensures r.Failure? <==> rows == [] || AlloyColumns(rows[0]) == []
    ensures rows == [] ==> r == Failure(NoFirstRow)
    ensures rows != [] && AlloyColumns(rows[0]) == [] ==> r == Failure(NoAlloyColumns)
    ensures r.Success? ==>
      && r.value.aba == CurvesSheet
      && r.value.resumo == Summarize(Analyses(rows))
      && r.value.detalhes == Details(Analyses(rows))
  {
    if rows == [] then Failure(NoFirstRow)
    else
      var analises := Analyses(rows);
      if analises == [] then Failure(NoAlloyColumns)
      else Success(GroupComparison(CurvesSheet, Summarize(analises), Details(analises)))
  }

  /** `detalhes` lists every alloy column of the first row, in column order, each
      with the figures `analisarLiga` computes for it. */
  lemma CompareAlloysDetails(rows: seq<Row>)
    requires WellFormedRows(rows) && CompareAlloys(rows).Success?
    ensures var ds, cols := CompareAlloys(rows).value.detalhes, AlloyColumns(rows[0]);
      && |ds| == |cols|
      && forall i :: 0 <= i < |ds| ==>
        var a := AnalyseAlloy(rows, cols[i]).value;
        ds[i] == Detail(cols[i], a.max, a.min, a.media, a.taxaResfriamento)
  {
    var analises := Analyses(rows);
    var ds := Details(analises);
    var cols := AlloyColumns(rows[0]);
    forall i | 0 <= i < |ds|
      ensures var a := AnalyseAlloy(rows, cols[i]).value;
        ds[i] == Detail(cols[i], a.max, a.min, a.media, a.taxaResfriamento)
    {
      assert analises[i] == AnalyseAlloy(rows, cols[i]).value;
    }
  }

  /** When the first and last time codes differ every rate is a number, so
      `maiorResfriamento` names the last alloy whose rate has the greatest magnitude. */
  lemma CompareAlloysFastest(rows: seq<Row>)
    requires WellFormedRows(rows) && CompareAlloys(rows).Success?
    requires Column(rows, TimeColumn)[0] != Column(rows, TimeColumn)[|rows| - 1]
    ensures var analises := Analyses(rows);
      var k := ReduceFastest(Rates(analises));
      && CompareAlloys(rows).value.resumo.maiorResfriamento.liga == analises[k].liga
      && (forall i :: 0 <= i < |analises| ==> !Gt(Abs(analises[i].taxaResfriamento), Abs(analises[k].taxaResfriamento)))
      && (forall i :: k < i < |analises| ==> Gt(Abs(analises[k].taxaResfriamento), Abs(analises[i].taxaResfriamento)))
  {
    hide AnalyseAlloy;
    var analises := Analyses(rows);
    var ts := Rates(analises);
    forall i | 0 <= i < |ts|
      ensures !ts[i].NaN?
    {
      RateIsNumber(rows, i);
    }
    ReduceFastestIsLastLargest(ts);
  }

  /** Every alloy of a sheet shares the time column, so each rate's divisor is
      the same non-zero span. */
  lemma RateIsNumber(rows: seq<Row>, i: nat)
    requires rows != [] && WellFormedRows(rows) && i < |AlloyColumns(rows[0])|
    requires Column(rows, TimeColumn)[0] != Column(rows, TimeColumn)[|rows| - 1]
    ensures Analyses(rows)[i].taxaResfriamento.Finite?
  {
    var liga := AlloyColumns(rows[0])[i];
    var curva := BuildCurve(rows, liga);
    assert Times(curva)[0] == curva[0].tempo;
    assert Times(curva)[|rows| - 1] == curva[|rows| - 1].tempo;
    assert Summarise(curva).taxaResfriamento.Finite?;
  }

  /** `compararLigas(path)`: load the `CURVAS` rows, then compare. */
  function CompareAlloysInWorkbook(wb: Option<Workbook>): (r: Result<GroupComparison, Error>)
    requires WellFormedWorkbook(wb)
    ensures LoadCurves(wb).Failure? ==> r == Failure(LoadCurves(wb).error)
    ensures LoadCurves(wb).Success? ==> r == CompareAlloys(LoadCurves(wb).value)
  {
    match LoadCurves(wb)
    case Failure(e) => Failure(e)
    case Success(linhas) => CompareAlloys(linhas)
  }

  /** `detalhes.find(d => d.liga === liga)`, as the index of the first match. */
  function FindDetail(ds: seq<Detail>, liga: string): (r: Option<nat>)
    ensures r.None? <==> forall i :: 0 <= i < |ds| ==> ds[i].liga != liga
    ensures r.Some? ==> r.value < |ds| && ds[r.value].liga == liga
    ensures r.Some? ==> forall i :: 0 <= i < r.value ==> ds[i].liga != liga
  {
    if ds == [] then None
    else
      match FindDetail(ds[..|ds| - 1], liga)
      case Some(k) => Some(k)
      case None => if ds[|ds| - 1].liga == liga then Some(|ds| - 1) else None
  }

  /** `comparacao`: which of the two alloys wins each criterion. */
  datatype Verdicts = Verdicts(melhorMedia: string, maiorPico: string, menorFinal: string, maiorResfriamento: string)

  /** The object `compararDuasLigas` returns. */
  datatype PairComparison = PairComparison(
    liga1: AlloyAnalysis, liga2: AlloyAnalysis, diferencaMedia: real, comparacao: Verdicts)

  /** Each verdict names `liga1` only when it is strictly ahead; a tie, and a NaN
      rate, go to `liga2`. `menorFinal` compares the curves' minima, not their
      final readings. */
  function Judge(liga1: string, a1: AlloyAnalysis, liga2: string, a2: AlloyAnalysis): (v: Verdicts)
    ensures v.melhorMedia == liga1 || v.melhorMedia == liga2
    ensures a1.media > a2.media ==> v.melhorMedia == liga1
    ensures a2.media >= a1.media ==> v.melhorMedia == liga2
    ensures a1.max > a2.max ==> v.maiorPico == liga1
    ensures a2.max >= a1.max ==> v.maiorPico == liga2
    ensures a1.min < a2.min ==> v.menorFinal == liga1
    ensures a2.min <= a1.min ==> v.menorFinal == liga2
    ensures v.maiorResfriamento == if Gt(Abs(a1.taxaResfriamento), Abs(a2.taxaResfriamento)) then liga1 else liga2
  {
    Verdicts(
      melhorMedia := if a1.media > a2.media then liga1 else liga2,
      maiorPico := if a1.max > a2.max then liga1 else liga2,
      menorFinal := if a1.min < a2.min then liga1 else liga2,
      maiorResfriamento := if Gt(Abs(a1.taxaResfriamento), Abs(a2.taxaResfriamento)) then liga1 else liga2)
  }

  /** Swapping the two alloys does not change a verdict that is decided strictly;
      only ties depend on the order of the arguments. */
  lemma JudgeSwap(liga1: string, a1: AlloyAnalysis, liga2: string, a2: AlloyAnalysis)
    requires !a1.taxaResfriamento.NaN? && !a2.taxaResfriamento.NaN?
    ensures var v, w := Judge(liga1, a1, liga2, a2), Judge(liga2, a2, liga1, a1);
      && (a1.media != a2.media ==> v.melhorMedia == w.melhorMedia)
      && (a1.max != a2.max ==> v.maiorPico == w.maiorPico)
      && (a1.min != a2.min ==> v.menorFinal == w.menorFinal)
      && (Abs(a1.taxaResfriamento) != Abs(a2.taxaResfriamento) ==> v.maiorResfriamento == w.maiorResfriamento)
  {
    GtTotal(Abs(a1.taxaResfriamento), Abs(a2.taxaResfriamento));
  }

  /** `compararDuasLigas(liga1, liga2, path)`. The group comparison's failures
      propagate; a name missing from `detalhes` is an error; otherwise both alloys
      are analysed again from the same sheet and set side by side. */
  function CompareTwo(liga1: string, liga2: string, wb: Option<Workbook>): (r: Result<PairComparison, Error>)
    requires WellFormedWorkbook(wb)
    ensures CompareAlloysInWorkbook(wb).Failure? ==> r == Failure(CompareAlloysInWorkbook(wb).error)
    ensures CompareAlloysInWorkbook(wb).Success? ==>
      var cols := AlloyColumns(LoadCurves(wb).value[0]);
      (r.Failure? <==> liga1 !in cols || liga2 !in cols) && (r.Failure? ==> r.error == AlloyNotFound)
    ensures r.Success? ==>
      var rows := LoadCurves(wb).value;
      && rows != [] && liga1 in AlloyColumns(rows[0]) && liga2 in AlloyColumns(rows[0])
      && r.value.liga1 == AnalyseAlloy(rows, liga1).value
      && r.value.liga2 == AnalyseAlloy(rows, liga2).value
      && r.value.diferencaMedia == r.value.liga1.media - r.value.liga2.media
      && r.value.comparacao == Judge(liga1, r.value.liga1, liga2, r.value.liga2)
  {
    match CompareAlloysInWorkbook(wb)
    case Failure(e) => Failure(e)
    case Success(todas) =>
      var rows := LoadCurves(wb).value;
      DetailsNameColumns(rows);
      var d1, d2 := FindDetail(todas.detalhes, liga1), FindDetail(todas.detalhes, liga2);
      if d1.None? || d2.None? then Failure(AlloyNotFound)
      else
        var dadosCompletos := LoadCurves(wb).value;
        var analise1 := AnalyseAlloy(dadosCompletos, liga1).value;
        var analise2 := AnalyseAlloy(dadosCompletos, liga2).value;
        Success(PairComparison(
          liga1 := analise1,
          liga2 := analise2,
          diferencaMedia := analise1.media - analise2.media,
          comparacao := Judge(liga1, analise1, liga2, analise2)))
  }

  /** The names in `detalhes` are exactly the alloy columns of the first row. */
  lemma DetailsNameColumns(rows: seq<Row>)
    requires WellFormedRows(rows) && CompareAlloys(rows).Success?
    ensures forall liga :: liga in AlloyColumns(rows[0]) <==> FindDetail(CompareAlloys(rows).value.detalhes, liga).Some?
  {
    hide AnalyseAlloy;
    var ds := CompareAlloys(rows).value.detalhes;
    var cols := AlloyColumns(rows[0]);
    var analises := Analyses(rows);
    assert forall i :: 0 <= i < |ds| ==> ds[i].liga == analises[i].liga == cols[i];
  }

  /** Asking for the pair the other way round succeeds or fails alike, swaps the
      two analyses, negates the difference of means, and keeps every verdict that
      is decided strictly. */
  lemma CompareTwoSwap(liga1: string, liga2: string, wb: Option<Workbook>)
    requires WellFormedWorkbook(wb)
    ensures CompareTwo(liga1, liga2, wb).Success? <==> CompareTwo(liga2, liga1, wb).Success?
    ensures CompareTwo(liga1, liga2, wb).Success? ==>
      var p, q := CompareTwo(liga1, liga2, wb).value, CompareTwo(liga2, liga1, wb).value;
      && p.liga1 == q.liga2 && p.liga2 == q.liga1
      && p.diferencaMedia == -q.diferencaMedia
      && (p.liga1.media != p.liga2.media ==> p.comparacao.melhorMedia == q.comparacao.melhorMedia)
      && (p.liga1.max != p.liga2.max ==> p.comparacao.maiorPico == q.comparacao.maiorPico)
      && (p.liga1.min != p.liga2.min ==> p.comparacao.menorFinal == q.comparacao.menorFinal)
      && (!p.liga1.taxaResfriamento.NaN? && !p.liga2.taxaResfriamento.NaN?
          && Abs(p.liga1.taxaResfriamento) != Abs(p.liga2.taxaResfriamento)
          ==> p.comparacao.maiorResfriamento == q.comparacao.maiorResfriamento)
  {
    hide AnalyseAlloy, Judge;
    if CompareTwo(liga1, liga2, wb).Success? {
      var p := CompareTwo(liga1, liga2, wb).value;
      var q := CompareTwo(liga2, liga1, wb).value;
      assert p.liga1 == q.liga2 && p.liga2 == q.liga1;
      assert p.comparacao == Judge(liga1, p.liga1, liga2, p.liga2);
      assert q.comparacao == Judge(liga2, p.liga2, liga1, p.liga1);
      if !p.liga1.taxaResfriamento.NaN? && !p.liga2.taxaResfriamento.NaN? {
        JudgeSwap(liga1, p.liga1, liga2, p.liga2);
      }
    }
  }
}
