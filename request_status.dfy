/** Mapping a form fetcher's state to a status button's status (app/utils/request-to-status.ts). */
module RequestStatus {
  import opened Wrappers

  datatype RequestState = Loading | Idle | Submitting
  datatype RequestResult = ResultSuccess | ResultError
  /** The status values of app/components/status-button.tsx:9. */
  datatype Status = IdleStatus | Pending | SuccessStatus

  /** `result` is None when the caller passes no result. */
  function RequestStateToStatus(requestState: RequestState, result: Option<RequestResult>): (s: Status)
    ensures s == Pending <==> requestState != Idle
    ensures s == SuccessStatus <==> requestState == Idle && result == Some(ResultSuccess)
    ensures s == IdleStatus <==> requestState == Idle && result != Some(ResultSuccess)
  {
    match requestState
    case Loading => Pending
    case Submitting => Pending
    case Idle => if result == Some(ResultSuccess) then SuccessStatus else IdleStatus
  }
}
