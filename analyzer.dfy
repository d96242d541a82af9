/** `analyzeContract` (app/lib/contractAnalyzer.ts): the choice between
    interface mode and source mode. What `JSON.parse` makes of the text is
    given as a `JsonProbe`; the match records of the same text are given as
    a `SourceInput`. */
module Analyzer {
  import opened Wrappers
  import opened Text
  import opened ContractModel
  import opened SourceMode
  import opened AbiMode
  import SourceProps

  /** The outcome of `JSON.parse` on the contract text. */
  datatype JsonProbe =
    | NotJson                     // `JSON.parse` throws
    | JsonArray(doc: AbiDocument) // an array
    | JsonValue                   // any other JSON value

  const InvalidFormat := "Invalid contract format"

  /** The result of `analyzeContract`: a thrown error is a `Failure`. */
  function Analysis(probe: JsonProbe, input: SourceInput): Result<AnalyzedContract, string> {
    match probe
    case NotJson => Success(SourceModel(input))
    case JsonValue => Failure(InvalidFormat)
    case JsonArray(doc) =>
      match AbiModel(doc)
      case Some(c) => Success(c)
      case None => Success(SourceModel(input))
  }

  method AnalyzeContract(probe: JsonProbe, input: SourceInput) returns (r: Result<AnalyzedContract, string>)
    ensures r == Analysis(probe, input)
  {
    if probe.JsonArray? {
      var abi := AnalyzeABI(probe.doc);
      if abi.Some? {
        return Success(abi.value);
      }
      // the exception thrown inside `analyzeABI` is caught like a parse error
      var c := AnalyzeSoliditySource(input);
      return Success(c);
    } else if probe.NotJson? {
      var c := AnalyzeSoliditySource(input);
      return Success(c);
    }
    r := Failure(InvalidFormat);
  }

  /** The dispatch: only a JSON value that is not an array fails; an array
      is analysed in interface mode unless that throws, and everything else
      falls back to source mode. */
  lemma AnalysisDispatch(probe: JsonProbe, input: SourceInput)
    ensures Analysis(probe, input).Failure? <==> probe.JsonValue?
    ensures Analysis(probe, input).Failure? ==> Analysis(probe, input).error == "Invalid contract format"
    ensures probe.JsonArray? && !Throws(probe.doc.items) ==>
      Analysis(probe, input) == Success(AbiModel(probe.doc).value)
    ensures probe.NotJson? || (probe.JsonArray? && Throws(probe.doc.items)) ==>
      Analysis(probe, input) == Success(SourceModel(input))
  {
  }

  /** The empty text is not JSON, and it gives the empty model rather than
      an error. */
  lemma EmptyTextGivesEmptyModel()
    ensures Analysis(NotJson, SourceInput("", None, None, None, [], [], [], [], [])) ==
      Success(AnalyzedContract("Contract", [], [], [], [], "Unknown", None, [], [], [], false, false))
  {
    assert !Contains("", "selfdestruct") && !Contains("", "suicide") && !Contains("", "tx.origin");
    SourceProps.EmptySourceGivesEmptyModel("");
  }
}
