/** The ways the curve engine fails. Each kind carries the message text the
    JavaScript service surfaces through `err.message`. */
module CurveErrors {

  datatype Error =
    | MissingSheetCollection   // workbook absent or without `Sheets`
    | MissingCurvasSheet       // `Sheets["CURVAS"]` absent, null or undefined
    | EmptyCurve               // analisarLiga on zero rows: `curva[0].valor`
    | NoFirstRow               // analisarCurvas / compararLigas on zero rows: `Object.keys(linhas[0])`
    | NoAlloyColumns           // compararLigas with no alloy column: `reduce` of an empty array
    | AlloyNotFound            // compararDuasLigas with an unknown alloy name

  /** The text of the thrown error. The first two and the last are written out in
      the service; the other three are the TypeErrors the V8 engine raises. */
  function Message(e: Error): (m: string)
    ensures |m| > 0
  {
    match e
    case MissingSheetCollection => "A aba 'CURVAS' não foi encontrada."
    case MissingCurvasSheet => "Cannot read properties of undefined (reading 'CURVAS')"
    case EmptyCurve => "Cannot read properties of undefined (reading 'valor')"
    case NoFirstRow => "Cannot convert undefined or null to object"
    case NoAlloyColumns => "Reduce of empty array with no initial value"
    case AlloyNotFound => "Uma ou ambas as ligas não foram encontradas"
  }
}
