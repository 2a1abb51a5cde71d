/**
 * The error classification of the service revision's `handle`: a nonzero code is first tested
 * against the four parameter-error bands, most negative first, with strict `<`, and then matched
 * against the listed codes, so a banded code is also reported as unknown.
 */
module DobotErrors {
  import opened Common

  // The codes of `DobotErrorCode`.
  const Success := 0
  const ExecutionFailed := -1
  const Alarmed := -2
  const EmergencyStop := -3
  const PowerOff := -4
  const ScriptRunning := -5
  const Mismatched := -6
  const ScriptPaused := -7
  const AuthExpired := -8
  const CmdNotFound := -10000
  const ParamNumError := -20000
  const ReqParamTypeError := -30000
  const ReqParamOverRange := -40000
  const OptParamTypeError := -50000
  const OptParamOverRange := -60000

  /** Which parameter-error band reported a code. */
  datatype BandKind = OptionalOverRange | OptionalType | RequiredOverRange | RequiredType

  /** One line `handle` logs, with the figures it mentions. */
  datatype Report =
    | ParamBand(kind: BandKind, at: int)
    | ExecutionFailedReport
    | AlarmedReport
    | EmergencyStopReport
    | PowerOffReport
    | ScriptRunningReport
    | MismatchedReport
    | ScriptPausedReport
    | AuthExpiredReport
    | CmdNotFoundReport
    | ParamNumReport
    | UnknownCode(code: int)

  /** The base code of a band: the parameter index is the base minus the code. */
  function BandBase(kind: BandKind): int
  {
    match kind
    case OptionalOverRange => OptParamOverRange
    case OptionalType => OptParamTypeError
    case RequiredOverRange => ReqParamOverRange
    case RequiredType => ReqParamTypeError
  }

  /** The if/elif chain of band tests: the first band whose base the code lies strictly below. */
  function BandOf(err: int): (r: Option<Report>)
    ensures r.Some? ==> r.value.ParamBand? && BandBase(r.value.kind) - r.value.at == err && r.value.at >= 1
  {
    if err < OptParamOverRange then Some(ParamBand(OptionalOverRange, OptParamOverRange - err))
    else if err < OptParamTypeError then Some(ParamBand(OptionalType, OptParamTypeError - err))
    else if err < ReqParamOverRange then Some(ParamBand(RequiredOverRange, ReqParamOverRange - err))
    else if err < ReqParamTypeError then Some(ParamBand(RequiredType, ReqParamTypeError - err))
    else None
  }

  /** The `match` on the code: the report for a listed code, `UnknownCode` for any other. */
  function MatchOf(err: int): Report
  {
    if err == ExecutionFailed then ExecutionFailedReport
    else if err == Alarmed then AlarmedReport
    else if err == EmergencyStop then EmergencyStopReport
    else if err == PowerOff then PowerOffReport
    else if err == ScriptRunning then ScriptRunningReport
    else if err == Mismatched then MismatchedReport
    else if err == ScriptPaused then ScriptPausedReport
    else if err == AuthExpired then AuthExpiredReport
    else if err == CmdNotFound then CmdNotFoundReport
    else if err == ParamNumError then ParamNumReport
    else UnknownCode(err)
  }

  /** The lines `handle` logs for a code: none for success, else the band line if any, then the match line. */
  function Diagnose(err: int): (log: seq<Report>)
    ensures err == Success <==> log == []
    ensures err != Success ==> log[|log| - 1] == MatchOf(err)
  {
    if err == Success then []
    else (match BandOf(err) case Some(b) => [b] case None => []) + [MatchOf(err)]
  }

  /** The codes the `match` names. */
  predicate Listed(err: int)
  {
    err in {ExecutionFailed, Alarmed, EmergencyStop, PowerOff, ScriptRunning, Mismatched,
            ScriptPaused, AuthExpired, CmdNotFound, ParamNumError}
  }

  /** Whether `handle` also sends `ClearError` (and sleeps) for this code. */
  predicate ClearsError(err: int) { err == Alarmed }

  // ---------------------------------------------------------------------------------------------
  // The bands

  /** Each band is the half-open interval below its base, down to the next base (exclusive). */
  lemma BandIntervals(err: int)
    ensures BandOf(err).Some? <==> err < ReqParamTypeError
    ensures BandOf(err) == Some(ParamBand(OptionalOverRange, -60000 - err)) <==> err < -60000
    ensures BandOf(err) == Some(ParamBand(OptionalType, -50000 - err)) <==> -60000 <= err < -50000
    ensures BandOf(err) == Some(ParamBand(RequiredOverRange, -40000 - err)) <==> -50000 <= err < -40000
    ensures BandOf(err) == Some(ParamBand(RequiredType, -30000 - err)) <==> -40000 <= err < -30000
  {
  }

  /** In the three bounded bands the reported index lies in 1..10000. */
  lemma BoundedBandIndex(err: int)
    requires OptParamOverRange <= err < ReqParamTypeError
    ensures BandOf(err).Some? && 1 <= BandOf(err).value.at <= 10000
  {
  }

  /** The base of each band belongs to the next band up, at index 10000: -40000 is a required type error. */
  lemma BaseBelongsAbove()
    ensures BandOf(ReqParamOverRange) == Some(ParamBand(RequiredType, 10000))
    ensures BandOf(OptParamTypeError) == Some(ParamBand(RequiredOverRange, 10000))
    ensures BandOf(OptParamOverRange) == Some(ParamBand(OptionalType, 10000))
    ensures BandOf(ReqParamTypeError) == None
  {
  }

  // ---------------------------------------------------------------------------------------------
  // The match

  /** A nonzero code is reported as unknown exactly when the `match` does not list it. */
  lemma UnknownIffUnlisted(err: int)
    requires err != Success
    ensures MatchOf(err) == UnknownCode(err) <==> !Listed(err)
  {
  }

  /** A code reported by a band is also reported as unknown: the band line, then the unknown line. */
  lemma BandedAlsoUnknown(err: int)
    requires err < ReqParamTypeError
    ensures Diagnose(err) == [BandOf(err).value, UnknownCode(err)]
  {
  }

  /** A listed code gets its own line and no band line. */
  lemma ListedReportedOnce(err: int)
    requires Listed(err)
    ensures |Diagnose(err)| == 1 && !Diagnose(err)[0].UnknownCode? && !Diagnose(err)[0].ParamBand?
  {
  }

  /** -30000 itself is in no band and is not listed, so it is only reported as unknown. */
  lemma ReqTypeBaseUnknown()
    ensures Diagnose(ReqParamTypeError) == [UnknownCode(-30000)]
  {
  }

  /** Emergency stop only logs; only the alarmed code clears the error. */
  lemma EmergencyStopOnlyLogs()
    ensures Diagnose(EmergencyStop) == [EmergencyStopReport] && !ClearsError(EmergencyStop)
  {
  }
}
