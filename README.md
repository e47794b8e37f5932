# Cooling-curve analysis engine, modelled in Dafny

This project models the curve-analysis service of a thermal-analysis back end
(`src/services/curvasService.js`). The service reads the `CURVAS` sheet of a
spreadsheet. That sheet has one row per time code (`Código`) and one column per
alloy, holding temperature readings. The service works in five stages:

- `carregarCurvas` loads the sheet and drops the `"Seq Curva"` sentinel rows.
- `primeiraDerivada` and `segundaDerivada` compute finite-difference derivatives
  along the time axis.
- `maxMin` is a left-to-right scan for the extremes and their indices.
- `analisarLiga` computes one alloy's statistics, curve and interpretive points.
- `analisarCurvas`, `compararLigas` and `compararDuasLigas` analyse every alloy,
  rank the alloys, and set two of them side by side.

Modules, one per concern:

| file | module | models |
|---|---|---|
| results.dfy | Results | `Option`, `Result` |
| errors.dfy | CurveErrors | the six failures and the text each one surfaces |
| rows.dfy | Rows | decoded rows, the workbook, `carregarCurvas` |
| quotients.dfy | Quotients | `(final - inicial) / tempoTotal` as an IEEE-754 quotient, `Math.abs`, `>` |
| derivatives.dfy | Derivatives | `primeiraDerivada`, `segundaDerivada` and their inverse |
| extrema.dfy | Extrema | `maxMin` (an imperative scan, a `method` with loop invariants) |
| analysis.dfy | Analysis | `analisarLiga`, `analisarCurvas` (the `forEach` that fills `resultados` is a `method`) |
| comparison.dfy | Comparison | `compararLigas`, `compararDuasLigas` |

Numbers are `real`. A row is an ordered sequence of (column, cell) pairs, so the
alloy order, which drives every tie-break, is the row's key order. A workbook is
an optional value. It optionally carries a sheet table, and that table maps
`CURVAS` to an optional list of decoded rows. Thrown exceptions become
`Failure(e)` of a `Result`.

Three decisions about numbers:

- **Time steps.** The derivatives divide by consecutive time steps, so
  `DistinctSteps` requires consecutive time codes to differ.
- **Cooling rate.** `taxaResfriamento` divides by `tempoTotal`, which is zero on
  ordinary data such as a single row. It is therefore a `Quotient`: `Finite`,
  `PosInfinity`, `NegInfinity` or `NaN`. `Math.abs` and JavaScript's `>` act on
  it as IEEE-754 prescribes.
- **Other figures.** Every other figure is a plain `real`.

Where a contract speaks of "the first index attaining the maximum", it refers to
`Extrema.FirstMaxIndex`. That function is the scan's specification, and
`Extrema.MaxMin` is proved equal to it.

## Model

| member | source | states |
|---|---|---|
| CurveErrors.Message | src/services/curvasService.js:41-45 | every failure surfaces a non-empty text. The two loader failures carry the texts thrown on lines 42 and 45 |
| Rows.Lookup | src/services/curvasService.js:47 | `row[key]` gives a cell bound to `key` in the row, or nothing when no pair of the row has that key |
| Rows.Reading | src/services/curvasService.js:55-56 | `Number(r[key])` is a reading exactly when the cell bound to `key` is a number, and then it is that number |
| Rows.Keys | src/services/curvasService.js:118 | `Object.keys(row)` has one key per pair, in the row's order |
| Rows.AlloyColumns | src/services/curvasService.js:118 | the alloy columns are exactly the row's keys other than `Código`, and there are no more of them than pairs. Their order is fixed by `Rows.AlloyColumnsAppend` |
| Rows.AlloyColumnsCons | src/services/curvasService.js:118 | a pair in front puts its key first among the alloy columns, unless the key is `Código` |
| Rows.AlloyColumnsAppend | src/services/curvasService.js:118 | the filter distributes over concatenation, so the alloy columns keep the row's key order |
| Rows.IsSentinel | src/services/curvasService.js:47 | a sentinel row binds `Código` to the text `"Seq Curva"`, so a row with a numeric time code is never one |
| Rows.DropSentinels | src/services/curvasService.js:47 | the filter never lengthens the rows, and no surviving row has the sentinel `"Seq Curva"` as its time code |
| Rows.LoadCurves | src/services/curvasService.js:39-48 | fails exactly when the `CURVAS` sheet is missing. A missing workbook or sheet table fails with "A aba 'CURVAS' não foi encontrada.". A missing, null or undefined `CURVAS` entry fails with the TypeError text. On success the result is the decoded rows with the sentinels dropped |
| Rows.DropSentinelsAppend | src/services/curvasService.js:47 | filtering distributes over concatenation, so survivors keep their relative order |
| Rows.DropSentinelsIdentity | src/services/curvasService.js:47 | the rows come back unchanged if and only if none is a sentinel |
| Rows.DropSentinelsEmpty | src/services/curvasService.js:47 | the result is `[]` if and only if every row is a sentinel (a header-only sheet gives `[]`) |
| Rows.DropSentinelsKeeps | src/services/curvasService.js:47 | every non-sentinel row survives, and every survivor is an input row |
| Rows.DropSentinelsIdempotent | src/services/curvasService.js:47 | filtering twice is filtering once |
| Quotients.Divide | src/services/curvasService.js:66 | the quotient is finite exactly when the divisor is non-zero. It is NaN exactly for 0/0, and +Infinity exactly for a positive number over 0 |
| Quotients.DivideFinite | src/services/curvasService.js:66 | a finite quotient times the divisor gives back the dividend |
| Quotients.Abs | src/services/curvasService.js:139 | `Math.abs` is never -Infinity. It keeps NaN and finiteness, and on a finite value it is the non-negative one of `x` and `-x` |
| Quotients.Gt | src/services/curvasService.js:139 | `>` is false whenever either side is NaN, and on finite values it is the order of the reals |
| Quotients.GtTotal | src/services/curvasService.js:139 | away from NaN, `>` is a strict total order |
| Quotients.GtTransitive | src/services/curvasService.js:139 | `>` is transitive |
| Derivatives.Times | src/services/curvasService.js:12 | the time codes of a curve, point by point |
| Derivatives.Values | src/services/curvasService.js:12 | the readings of a curve, point by point |
| Derivatives.Slope | src/services/curvasService.js:12 | the slope's rise over the time step is the change in reading, and the slope is zero exactly when that change is |
| Derivatives.Differences | src/services/curvasService.js:10-13 | the shared `map`: same length as its input, entry 0 is 0, and every later entry's rise over its time step is the change in reading at that step |
| Derivatives.FirstDerivative | src/services/curvasService.js:9-14 | `primeiraDerivada` has one entry per point of the curve |
| Derivatives.SecondDerivative | src/services/curvasService.js:17-23 | `segundaDerivada` has one entry per point of the curve |
| Derivatives.Integrate | src/services/curvasService.js:9-23 | the inverse of a derivative has one entry per slope and starts at the given initial reading |
| Derivatives.IntegrateRises | src/services/curvasService.js:10-13 | slopes whose rises match a sequence integrate back to that sequence |
| Derivatives.IntegrateDifferences | src/services/curvasService.js:10-13 | integrating the differences of a sequence from its first entry gives the sequence back |
| Derivatives.FirstDerivativeRoundTrip | src/services/curvasService.js:9-14 | the first derivative and the first reading determine the whole curve |
| Derivatives.SecondDerivativeRoundTrip | src/services/curvasService.js:17-23 | the second derivative, taken over the curve's own time steps, determines the first derivative |
| Derivatives.RisesMatchAt | src/services/curvasService.js:12 | entry i > 0 accounts for the rise from point i-1 to point i |
| Derivatives.FirstDerivativeAt | src/services/curvasService.js:11-12 | entry i > 0 of `primeiraDerivada` is `(valor[i] - valor[i-1]) / (tempo[i] - tempo[i-1])` |
| Derivatives.SecondDerivativeAt | src/services/curvasService.js:20-21 | entry i > 0 of `segundaDerivada` is `(d1[i] - d1[i-1]) / (tempo[i] - tempo[i-1])`, using the curve's time step |
| Derivatives.QuotientOfRise | src/services/curvasService.js:12 | a slope whose rise over a non-zero step is `dy` is `dy / dt` |
| Derivatives.FlatIffConstant | src/services/curvasService.js:10-13 | the differences are all zero if and only if the sequence is constant |
| Derivatives.ZeroRise | src/services/curvasService.js:12 | over a non-zero step, the rise is zero exactly when the slope is |
| Derivatives.ConstantCurveFlat | src/services/curvasService.js:9-23 | a constant curve has both derivatives identically zero |
| Extrema.FirstMaxIndex | src/services/curvasService.js:26-33 | `idxMax`: an index whose entry is at least every entry and strictly greater than every earlier entry |
| Extrema.FirstMinIndex | src/services/curvasService.js:26-33 | `idxMin`: an index whose entry is at most every entry and strictly less than every earlier entry |
| Extrema.FirstMaxIndexUnique | src/services/curvasService.js:29 | those two conditions determine `idxMax` uniquely |
| Extrema.MaxMin | src/services/curvasService.js:26-33 | on a non-empty array the scan returns the first indices attaining the maximum and the minimum, and the values there |
| Analysis.Column | src/services/curvasService.js:55-56 | `linhas.map(r => Number(r[col]))` has one reading per row, in row order |
| Analysis.Sum | src/services/curvasService.js:60 | `valores.reduce((a, b) => a + b, 0)`, characterised by `Analysis.SumAppend` and `Analysis.SumBounds` |
| Analysis.SumAppend | src/services/curvasService.js:60 | the sum of two sequences laid end to end is the sum of their sums |
| Analysis.SumBounds | src/services/curvasService.js:60 | a sum of n terms in [lo, hi] lies in [n·lo, n·hi] |
| Analysis.MeanBetween | src/services/curvasService.js:61 | the mean lies between the least and the greatest reading |
| Analysis.Mean | src/services/curvasService.js:60-61 | `media` times `valores.length` is `soma`, so `media = soma / valores.length`. It lies between the least and the greatest reading |
| Analysis.DivideBounds | src/services/curvasService.js:61 | dividing by the count keeps those bounds |
| Analysis.BuildCurve | src/services/curvasService.js:69 | `curva` has exactly one `{tempo, valor}` per row, in input order. Its times and readings are the two columns |
| Analysis.Summarise | src/services/curvasService.js:58-66 | `max` and `min` bound every reading and are attained. `media` lies between them and is the mean of the readings. `inicial` and `final` are the first and last readings. `tempoTotal` is the last time code minus the first. `taxaResfriamento` is `(final - inicial) / tempoTotal`, and finite exactly when `tempoTotal` is non-zero |
| Analysis.Interpret | src/services/curvasService.js:72-87 | both derivatives as above. `tempLiquidus` and `tempFinal` are the first and last readings. `tempMaxResfriamento` and `tempMinResfriamento` are the readings at the first least and the first greatest entry of the first derivative. `deltaT = tempLiquidus - tempMaxResfriamento`. `contraçãoPrimaria` and `contraçãoSecundaria` are the least and greatest entries of the second derivative. `expansaoEutética` equals `contraçãoSecundaria` |
| Analysis.AnalyseAlloy | src/services/curvasService.js:54-110 | fails exactly on zero rows, at `curva[0].valor`. Otherwise `liga` is the name, `pontos` the row count, `curva` the rows in order, `tempLiquidus` the number in the first row's column and `tempFinal` the one in the last row's, `deltaT = tempLiquidus - tempMaxResfriamento`, and `contraçãoSecundaria = expansaoEutética` |
| Analysis.AnalyseAlloyFields | src/services/curvasService.js:54-110 | every statistic of the record is the one `Analysis.Summarise` gives for its curve, and every derivative and interpretive field the one `Analysis.Interpret` gives |
| Analysis.AnalyseCurves | src/services/curvasService.js:116-126 | loader failures propagate and zero rows fail at `Object.keys(linhas[0])`. Otherwise `aba` is `CURVAS`, and `ligas` maps exactly the alloy columns of the first row, each to its `analisarLiga` record |
| Analysis.ResultsFor | src/services/curvasService.js:119-123 | `resultados` has a key for exactly the processed columns |
| Analysis.ResultsForValues | src/services/curvasService.js:121-122 | each entry of `resultados` is the `analisarLiga` record of its column |
| Analysis.AnalyseColumns | src/services/curvasService.js:118-123 | the loop leaves `resultados` holding one entry per alloy column of the first row |
| Comparison.Analyses | src/services/curvasService.js:134-136 | `analises` has one record per alloy column of the first row, in column order, each named after its column |
| Comparison.Maxes | src/services/curvasService.js:137 | `analises.map(a => a.max)` |
| Comparison.Finals | src/services/curvasService.js:138 | `analises.map(a => a.final)` |
| Comparison.Rates | src/services/curvasService.js:139 | the `taxaResfriamento` of each record |
| Comparison.FindFirst | src/services/curvasService.js:145 | `find` gives nothing exactly when no final reading matches. Otherwise it gives a matching index with no match before it |
| Comparison.FindFirstAgreesWithMaxMin | src/services/curvasService.js:138-145 | looking the least final reading up with `find` lands on the index `maxMin` found it at |
| Comparison.ReduceFastest | src/services/curvasService.js:139 | the `reduce` ends on an index of the list |
| Comparison.ReduceFastestIsLastLargest | src/services/curvasService.js:139 | away from NaN, the `reduce` ends on the last rate of greatest magnitude: no rate's magnitude exceeds it, and every later one is strictly smaller |
| Comparison.ReduceFastestTie | src/services/curvasService.js:139 | with magnitudes tied at 0.5, the third alloy wins |
| Comparison.Summarize | src/services/curvasService.js:137-150 | `maiorPico` is the alloy at `maxMin`'s `idxMax` over the maxima. `menorFinal`, found again with `find`, is the alloy at `maxMin`'s `idxMin` over the final readings. `maiorResfriamento` is the alloy the `reduce` ends on, with its rate |
| Comparison.SummarizeLeaders | src/services/curvasService.js:137-145 | `maiorPico` is the first alloy whose `max` is the greatest, and `menorFinal` the first alloy whose `final` is the least |
| Comparison.Details | src/services/curvasService.js:151-157 | one `{liga, max, min, media, taxaResfriamento}` per record, in order |
| Comparison.CompareAlloys | src/services/curvasService.js:132-159 | fails exactly when there are no rows (`Object.keys` of `undefined`) or no alloy column (`reduce` of `[]`). Otherwise `aba` is `CURVAS` and `resumo` and `detalhes` come from the records of every alloy column |
| Comparison.CompareAlloysDetails | src/services/curvasService.js:134-157 | `detalhes` lists every alloy column of the first row, in column order, with its `analisarLiga` figures |
| Comparison.CompareAlloysFastest | src/services/curvasService.js:139-149 | when the first and last time codes differ, `maiorResfriamento` is the last alloy whose rate has the greatest magnitude |
| Comparison.RateIsNumber | src/services/curvasService.js:65-66 | all alloys share the time column, so differing first and last time codes make every rate finite |
| Comparison.CompareAlloysInWorkbook | src/services/curvasService.js:133 | given a path, loader failures propagate and the loaded rows are compared |
| Comparison.FindDetail | src/services/curvasService.js:167-168 | `detalhes.find` gives nothing exactly when no entry has the name. Otherwise it gives the first entry that has it |
| Comparison.DetailsNameColumns | src/services/curvasService.js:167-168 | a name is found in `detalhes` exactly when it is an alloy column of the first row |
| Comparison.Judge | src/services/curvasService.js:184-189 | each verdict names `liga1` only on a strict win and `liga2` on a tie. `menorFinal` compares `min` |
| Comparison.JudgeSwap | src/services/curvasService.js:184-189 | away from NaN, swapping the alloys leaves every strictly decided verdict unchanged |
| Comparison.CompareTwo | src/services/curvasService.js:165-191 | failures of `compararLigas` propagate. Either name missing from the alloy columns fails with "Uma ou ambas as ligas não foram encontradas". Otherwise both records come from `analisarLiga`, `diferencaMedia = media1 - media2`, and `comparacao` is the verdict |
| Comparison.CompareTwoSwap | src/services/curvasService.js:165-191 | asking the other way round succeeds or fails alike, swaps the records and negates `diferencaMedia`. It keeps `melhorMedia`, `maiorPico` and `menorFinal` when they are decided strictly, and `maiorResfriamento` when neither rate is NaN and their magnitudes differ |

## Left out

- `xlsx.readFile` and `xlsx.utils.sheet_to_json` are an external library. The workbook is a value that already holds decoded rows, so reading the file and decoding cells are not modelled.
- IEEE-754 arithmetic, other than the cooling rate's division by `tempoTotal`, is not modelled. Readings are `real`, so NaN and Infinity never occur in them. The behaviour of `Number()` on strings, `null`, `undefined` and `''` is not modelled either. A row holding text where a number is needed falls outside `WellFormedRows`.
- Derivatives.FirstDerivative: requires consecutive time codes to differ. The source divides by a zero step and yields Infinity or NaN, which the model does not capture.
- Analysis.AnalyseAlloy: requires numeric readings, and time steps that differ. Results on rows outside that are not captured.
- Extrema.MaxMin: requires a non-empty array. On `[]` the source returns `-Infinity`, `Infinity` and indices 0. Every caller passes a non-empty array or throws before using the result.
- Rows.AlloyColumns: a row is a sequence of pairs in the object's own-key order, which is the order JavaScript enumerates: integer-like keys such as `"817128"` first, ascending, then the others in insertion order. The model takes that ordered sequence as given and does not compute it from the raw spreadsheet columns. A row's keys are not required to be distinct. The first binding wins, as `Lookup` reads it.
- The crash in `compararLigas` when `find` comes back empty (src/services/curvasService.js:145) needs a NaN final reading. Readings here are real, and `Comparison.FindFirstAgreesWithMaxMin` shows the lookup always succeeds.
- Comparison.ReduceFastestIsLastLargest: states the "last largest" rule only when no rate is NaN. With a NaN, the `reduce` keeps whichever element follows it.
- Analysis.AnalyseCurves: `ligas` is a `map`, which has no order. The insertion order of `resultados`, which the JSON response of `GET /curvas` follows, is not captured. The loop visits the columns in alloy-column order, but the resulting map does not record that order.
- Comparison.CompareTwo: the source loads the file twice. Loading is deterministic here, so both loads are the same `LoadCurves` result.
- The HTTP layer is not part of this model. That covers `app.js`, the routes and the controllers, including the 404/500 mapping.
- `src/services/analysisService.js` is a thin wrapper around the spreadsheet library (row count, first-row keys, first three rows) and is not part of this model.
- Time, file system and network access do not occur in the modelled core.
