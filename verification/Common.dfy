/** Optional values, outcomes and the error codes of the services. */
module Common {
  datatype Option<+T> = None | Some(value: T)

  /** Errors as the services name them. RowNotFound and ConstraintViolation stand for
      what the store itself raises; they are not HTTP errors. */
  datatype Error =
    | InvalidPauseReason
    | ZeroReportNotApproved
    | PeriodAlreadyOpen
    | PeriodLockTimeout
    | PeriodNotFound
    | PeriodAlreadyClosed
    | PeriodWrongStatus
    | GpTokenNotFound
    | GpTokenExpired
    | GpAlreadySubmitted
    | Type2PhotoRequired
    | ProtectedField
    | VersionConflict(serverSc: Option<real>, serverVersion: int)
    | OpenDiscrepanciesExist
    | BoqVersionMismatch
    | SyncOperationNotFound
    | SyncNotInConflict
    | PeriodAlreadyClosedEscalate
    | DisputeReasonRequired
    | PeriodFactNotFound
    | NoDeltaToDispute
    | GpPositionRequired
    | DiscrepancyWrongStatus
    | GpResponseNotSubmitted
    | ObjectNotFound
    | BoqActiveVersionExists
    | BoqWeightInvalid
    | BoqItemNotInActiveVersion
    | BaselineRequestNotFound
    | BaselineRequestAlreadyReviewed
    | PeriodOpenCannotUpdateBaseline
    | BoqVersionNotFound
    | BoqVersionObjectMismatch
    | ZeroReportAlreadyExists
    | ZeroReportNotFound
    | ZeroReportInvalidStatus
    | BoqItemNotFound
    | BoqItemVersionMismatch
    | ZeroReportNoItems
    | ZeroReportAlreadyApproved
    | ZeroReportNotAllItems
    | ZeroReportCrossVerificationRequired
    | RowNotFound
    | ConstraintViolation

  predicate IsHttp(e: Error) { !e.RowNotFound? && !e.ConstraintViolation? }

  datatype Result<+T> = Ok(value: T) | Fail(error: Error) {
    /** The state after a transaction: its result, or the state before it when it rolled back. */
    function Or(before: T): T { if Ok? then value else before }

    function Error(): Option<Error> { if Ok? then None else Some(error) }
  }

  /** The first error of a list of conditions, in order; None when all of them hold. */
  function Needs(holds: bool, e: Error, rest: Option<Error>): Option<Error> { if holds then rest else Some(e) }
}
