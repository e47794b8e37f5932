/** `analisarLiga` (src/services/curvasService.js:54-110) and `analisarCurvas`
    (src/services/curvasService.js:116-126). */
module Analysis {
  import opened Results
  import opened CurveErrors
  import opened Rows
  import opened Derivatives
  import opened Extrema
  import opened Quotients

  /** Every row holds a number under `col`. */
  predicate Readable(rows: seq<Row>, col: string)
  {
    forall i :: 0 <= i < |rows| ==> Reading(rows[i], col).Some?
  }

  /** `linhas.map(r => Number(r[col]))` on rows that all hold numbers there. */
  function Column(rows: seq<Row>, col: string): (xs: seq<real>)
    requires Readable(rows, col)
    ensures |xs| == |rows| && forall i :: 0 <= i < |rows| ==> xs[i] == Reading(rows[i], col).value
  {
    seq(|rows|, i requires 0 <= i < |rows| => Reading(rows[i], col).value)
  }

  /** What the model asks of the rows handed to `analisarLiga`: numeric time codes
      and readings, and no two consecutive rows at the same time code. */
  predicate AnalysableFor(rows: seq<Row>, liga: string)
  {
    Readable(rows, TimeColumn) && Readable(rows, liga) && DistinctSteps(Column(rows, TimeColumn))
  }

  /** `valores.reduce((a, b) => a + b, 0)`, folded from the left. */
  function Sum(s: seq<real>): real
  {
    if s == [] then 0.0 else Sum(s[..|s| - 1]) + s[|s| - 1]
  }

  /** The fold adds up consecutive pieces independently. */
  lemma {:induction false} SumAppend(a: seq<real>, b: seq<real>)
    ensures Sum(a + b) == Sum(a) + Sum(b)
    decreases |b|
  {
    if b == [] {
      assert a + b == a;
    } else {
      var b' := b[..|b| - 1];
      SumAppend(a, b');
      assert (a + b)[..|a + b| - 1] == a + b';
    }
  }

  /** A sum of |s| terms, each between `lo` and `hi`, lies between |s|·lo and |s|·hi. */
  lemma {:induction false} SumBounds(s: seq<real>, lo: real, hi: real)
    requires forall i :: 0 <= i < |s| ==> lo <= s[i] <= hi
    ensures (|s| as real) * lo <= Sum(s) <= (|s| as real) * hi
  {
    if s != [] {
      var n := |s|;
      SumBounds(s[..n - 1], lo, hi);
      assert (n as real) * lo == ((n - 1) as real) * lo + lo;
      assert (n as real) * hi == ((n - 1) as real) * hi + hi;
    }
  }

  /** The mean of a non-empty sequence lies between its least and greatest entry. */
  lemma MeanBetween(s: seq<real>, lo: real, hi: real)
    requires |s| > 0
    requires forall i :: 0 <= i < |s| ==> lo <= s[i] <= hi
    ensures lo <= Sum(s) / (|s| as real) <= hi
  {
    var n, total := |s| as real, Sum(s);
    assert n * lo <= total <= n * hi by {
      SumBounds(s, lo, hi);
    }
    DivideBounds(total, n, lo, hi);
  }

  lemma DivideBounds(x: real, n: real, lo: real, hi: real)
    requires n > 0.0 && n * lo <= x <= n * hi
    ensures lo <= x / n <= hi
  {
  }

  /** `soma / valores.length`: the mean lies between the least and the greatest reading. */
  function Mean(s: seq<real>): (m: real)
    requires |s| > 0
    ensures m * (|s| as real) == Sum(s)
    ensures s[FirstMinIndex(s)] <= m <= s[FirstMaxIndex(s)]
  {
    MeanBetween(s, s[FirstMinIndex(s)], s[FirstMaxIndex(s)]);
    Sum(s) / (|s| as real)
  }

  /** `tempo.map((t, i) => ({ tempo: t, valor: valores[i] }))`: one point per row, in row order. */
  function BuildCurve(rows: seq<Row>, liga: string): (c: Curve)
    requires Readable(rows, TimeColumn) && Readable(rows, liga)
    ensures |c| == |rows|
    ensures forall i :: 0 <= i < |rows| ==>
      c[i] == Point(Reading(rows[i], TimeColumn).value, Reading(rows[i], liga).value)
    ensures Times(c) == Column(rows, TimeColumn) && Values(c) == Column(rows, liga)
  {
    var tempo := Column(rows, TimeColumn);
    var valores := Column(rows, liga);
    var c := seq(|rows|, i requires 0 <= i < |rows| => Point(tempo[i], valores[i]));
    assert Times(c) == tempo && Values(c) == valores;
    c
  }

  /** The plain statistics of a curve (src/services/curvasService.js:58-66). */
  datatype Statistics = Statistics(
    max: real, min: real, media: real, inicial: real, final: real,
    tempoTotal: real, taxaResfriamento: Quotient)

  function Summarise(c: Curve): (st: Statistics)
    requires |c| > 0
    ensures forall i :: 0 <= i < |c| ==> st.min <= c[i].valor <= st.max
    ensures exists i :: 0 <= i < |c| && c[i].valor == st.max
    ensures exists i :: 0 <= i < |c| && c[i].valor == st.min
    ensures st.min <= st.media <= st.max && st.media == Mean(Values(c))
    ensures st.inicial == c[0].valor && st.final == c[|c| - 1].valor
    ensures st.tempoTotal == c[|c| - 1].tempo - c[0].tempo
    ensures st.taxaResfriamento.Finite? <==> st.tempoTotal != 0.0
    ensures st.taxaResfriamento == Divide(st.final - st.inicial, st.tempoTotal)
  {
    var valores, tempo, n := Values(c), Times(c), |c|;
    var max := valores[FirstMaxIndex(valores)];                   // Math.max(...valores)
    var min := valores[FirstMinIndex(valores)];                   // Math.min(...valores)
    assert c[FirstMaxIndex(valores)].valor == max && c[FirstMinIndex(valores)].valor == min;
    var tempoTotal := tempo[n - 1] - tempo[0];
    Statistics(
      max := max,
      min := min,
      media := Mean(valores),
      inicial := valores[0],
      final := valores[n - 1],
      tempoTotal := tempoTotal,
      taxaResfriamento := Divide(valores[n - 1] - valores[0], tempoTotal))
  }

  datatype Derivadas = Derivadas(primeira: seq<real>, segunda: seq<real>)

  /** The derivative-based fields of a curve (src/services/curvasService.js:71-87). */
  datatype Interpretation = Interpretation(
    derivadas: Derivadas,
    tempLiquidus: real,
    tempFinal: real,
    tempMaxResfriamento: real,
    tempMinResfriamento: real,
    deltaT: real,
    contracaoPrimaria: real,
    contracaoSecundaria: real,
    expansaoEutetica: real)

  function Interpret(c: Curve): (f: Interpretation)
    requires |c| > 0 && DistinctSteps(Times(c))
    ensures f.derivadas.primeira == FirstDerivative(c) && f.derivadas.segunda == SecondDerivative(c)
    ensures f.tempLiquidus == c[0].valor && f.tempFinal == c[|c| - 1].valor
    // the reading where the first derivative is least (fastest cooling), first such point
    ensures var k := FirstMinIndex(f.derivadas.primeira);
      f.tempMaxResfriamento == c[k].valor
      && (forall i :: 0 <= i < |c| ==> f.derivadas.primeira[k] <= f.derivadas.primeira[i])
    // the reading where the first derivative is greatest, first such point
    ensures var k := FirstMaxIndex(f.derivadas.primeira);
      f.tempMinResfriamento == c[k].valor
      && (forall i :: 0 <= i < |c| ==> f.derivadas.primeira[i] <= f.derivadas.primeira[k])
    ensures f.deltaT == f.tempLiquidus - f.tempMaxResfriamento
    ensures forall i :: 0 <= i < |c| ==> f.contracaoPrimaria <= f.derivadas.segunda[i]
    ensures forall i :: 0 <= i < |c| ==> f.derivadas.segunda[i] <= f.contracaoSecundaria
    ensures f.contracaoPrimaria in f.derivadas.segunda && f.contracaoSecundaria in f.derivadas.segunda
    ensures f.contracaoSecundaria == f.expansaoEutetica
  {
    var deriv1 := FirstDerivative(c);
    var deriv2 := SecondDerivative(c);
    var idxMaxResf, idxMinResf := FirstMaxIndex(deriv1), FirstMinIndex(deriv1);
    var idxMax2, idxMin2 := FirstMaxIndex(deriv2), FirstMinIndex(deriv2);
    var tempLiquidus := c[0].valor;
    var tempMaxResfriamento := c[idxMinResf].valor;
    Interpretation(
      derivadas := Derivadas(deriv1, deriv2),
      tempLiquidus := tempLiquidus,
      tempFinal := c[|c| - 1].valor,
      tempMaxResfriamento := tempMaxResfriamento,
      tempMinResfriamento := c[idxMaxResf].valor,
      deltaT := tempLiquidus - tempMaxResfriamento,
      contracaoPrimaria := deriv2[idxMin2],
      contracaoSecundaria := deriv2[idxMax2],
      expansaoEutetica := deriv2[idxMax2])
  }

  /** The record `analisarLiga` returns. */
  datatype AlloyAnalysis = AlloyAnalysis(
    liga: string,
    pontos: nat,
    max: real,
    min: real,
    media: real,
    inicial: real,
    final: real,
    tempoTotal: real,
    taxaResfriamento: Quotient,
    curva: Curve,
    derivadas: Derivadas,
    tempLiquidus: real,
    tempFinal: real,
    tempMaxResfriamento: real,
    tempMinResfriamento: real,
    deltaT: real,
    contracaoPrimaria: real,
    contracaoSecundaria: real,
    expansaoEutetica: real)

  /** `analisarLiga(linhas, liga)`. Zero rows fail where the source reads
      `curva[0].valor`; otherwise the record gathers the curve built from the rows,
      its statistics and its derivative-based fields. */
  function AnalyseAlloy(rows: seq<Row>, liga: string): (r: Result<AlloyAnalysis, Error>)
    requires AnalysableFor(rows, liga)
    ensures r.Failure? <==> rows == []
    ensures r.Failure? ==> r.error == EmptyCurve
    ensures r.Success? ==>
      && r.value.liga == liga && r.value.pontos == |rows|
      && r.value.curva == BuildCurve(rows, liga)
      && r.value.tempLiquidus == r.value.inicial && r.value.tempFinal == r.value.final
      && r.value.deltaT == r.value.tempLiquidus - r.value.tempMaxResfriamento
      && r.value.contracaoSecundaria == r.value.expansaoEutetica
    ensures r.Success? ==>
      && r.value.tempLiquidus == Reading(rows[0], liga).value
      && r.value.tempFinal == Reading(rows[|rows| - 1], liga).value
  {
    if rows == [] then Failure(EmptyCurve)
    else
      var curva := BuildCurve(rows, liga);
      var st := Summarise(curva);
      var f := Interpret(curva);
      Success(AlloyAnalysis(
        liga := liga,
        pontos := |rows|,
        max := st.max,
        min := st.min,
        media := st.media,
        inicial := st.inicial,
        final := st.final,
        tempoTotal := st.tempoTotal,
        taxaResfriamento := st.taxaResfriamento,
        curva := curva,
        derivadas := f.derivadas,
        tempLiquidus := f.tempLiquidus,
        tempFinal := f.tempFinal,
        tempMaxResfriamento := f.tempMaxResfriamento,
        tempMinResfriamento := f.tempMinResfriamento,
        deltaT := f.deltaT,
        contracaoPrimaria := f.contracaoPrimaria,
        contracaoSecundaria := f.contracaoSecundaria,
        expansaoEutetica := f.expansaoEutetica))
  }

  /** The record's statistics and derivative-based fields are those of the curve
      built from the rows: every field of `analisarLiga` is pinned down. */
  lemma AnalyseAlloyFields(rows: seq<Row>, liga: string)
    requires AnalysableFor(rows, liga) && rows != []
    ensures var a := AnalyseAlloy(rows, liga).value;
      && Summarise(a.curva) == Statistics(a.max, a.min, a.media, a.inicial, a.final, a.tempoTotal, a.taxaResfriamento)
      && Interpret(a.curva) == Interpretation(a.derivadas, a.tempLiquidus, a.tempFinal, a.tempMaxResfriamento,
                                              a.tempMinResfriamento, a.deltaT, a.contracaoPrimaria,
                                              a.contracaoSecundaria, a.expansaoEutetica)
  {
  }

  /** Rows whose every alloy column (taken from the first row) can be analysed. */
  predicate WellFormedRows(rows: seq<Row>)
  {
    rows != [] ==>
      Readable(rows, TimeColumn) && DistinctSteps(Column(rows, TimeColumn))
      && forall c :: c in AlloyColumns(rows[0]) ==> Readable(rows, c)
  }

  /** A workbook whose `CURVAS` sheet, once loaded, has well-formed rows. */
  predicate WellFormedWorkbook(wb: Option<Workbook>)
  {
    LoadCurves(wb).Success? ==> WellFormedRows(LoadCurves(wb).value)
  }

  /** The object `analisarCurvas` returns: the sheet name and one analysis per alloy. */
  datatype CurvesReport = CurvesReport(aba: string, ligas: map<string, AlloyAnalysis>)

  /** `analisarCurvas(path)`: load the rows, then analyse every alloy column.
      Loader failures propagate; zero rows fail at `Object.keys(linhas[0])`; a first
      row with no alloy column gives an empty report. */
  method AnalyseCurves(wb: Option<Workbook>) returns (r: Result<CurvesReport, Error>)
    requires WellFormedWorkbook(wb)
    ensures LoadCurves(wb).Failure? ==> r == Failure(LoadCurves(wb).error)
    ensures LoadCurves(wb) == Success([]) ==> r == Failure(NoFirstRow)
    ensures r.Success? <==> LoadCurves(wb).Success? && LoadCurves(wb).value != []
    ensures r.Success? ==>
      var rows := LoadCurves(wb).value;
      && r.value.aba == CurvesSheet
      && (forall c :: c in r.value.ligas <==> c in AlloyColumns(rows[0]))
      && (forall c :: c in r.value.ligas ==>
            AnalysableFor(rows, c) && AnalyseAlloy(rows, c) == Success(r.value.ligas[c]))
  {
    var loaded := LoadCurves(wb);
    if loaded.Failure? {
      return Failure(loaded.error);
    }
    var linhas := loaded.value;
    if linhas == [] {
      return Failure(NoFirstRow);
    }
    var resultados := AnalyseColumns(linhas);
    ResultsForValues(linhas, AlloyColumns(linhas[0]));
    return Success(CurvesReport(CurvesSheet, resultados));
  }

  /** What `resultados` holds once the alloys `cols` have been analysed, in that order. */
  function ResultsFor(linhas: seq<Row>, cols: seq<string>): (m: map<string, AlloyAnalysis>)
    requires linhas != [] && WellFormedRows(linhas)
    requires forall c :: c in cols ==> c in AlloyColumns(linhas[0])
    ensures forall c :: c in m <==> c in cols
    decreases |cols|
  {
    hide AnalyseAlloy;
    if cols == [] then map[]
    else
      var last := cols[|cols| - 1];
      ResultsFor(linhas, cols[..|cols| - 1])[last := AnalyseAlloy(linhas, last).value]
  }

  /** Every entry of `ResultsFor` is the analysis of its own column. */
  lemma {:induction false} ResultsForValues(linhas: seq<Row>, cols: seq<string>)
    requires linhas != [] && WellFormedRows(linhas)
    requires forall c :: c in cols ==> c in AlloyColumns(linhas[0])
    ensures forall c :: c in ResultsFor(linhas, cols) ==>
      c in AlloyColumns(linhas[0]) && ResultsFor(linhas, cols)[c] == AnalyseAlloy(linhas, c).value
    decreases |cols|
  {
    hide AnalyseAlloy;
    if cols != [] {
      ResultsForValues(linhas, cols[..|cols| - 1]);
    }
  }

  /** The `ligas.forEach` of `analisarCurvas`: `resultados[liga] = analisarLiga(linhas, liga)`
      for every alloy column of the first row, in column order. */
  method AnalyseColumns(linhas: seq<Row>) returns (resultados: map<string, AlloyAnalysis>)
    requires linhas != [] && WellFormedRows(linhas)
    ensures resultados == ResultsFor(linhas, AlloyColumns(linhas[0]))
  {
    hide AnalyseAlloy;
    var ligas := AlloyColumns(linhas[0]);
    resultados := map[];
    var i := 0;
    while i < |ligas|
      invariant 0 <= i <= |ligas|
      invariant resultados == ResultsFor(linhas, ligas[..i])
    {
      var liga := ligas[i];
      assert ligas[..i + 1][..i] == ligas[..i];
      var analise := AnalyseAlloy(linhas, liga);
      resultados := resultados[liga := analise.value];
      i := i + 1;
    }
    assert ligas[..i] == ligas;
  }
}
