/**
 * The feedback context (src/context/InfoContext.tsx): the `lastUploadStatus`
 * field, the two message helpers that overwrite it, the exposed setter, and
 * `useInfoStore`, which throws outside the provider.
 */
module InfoContext {
  import opened Js

  const SuccessStatus := "success"
  const ErrorStatus := "error"
  const OutsideProviderMessage := "useInfoStore must be used within an InfoStoreProvider"

  /** One call a consumer can make on the context. */
  datatype InfoCall = ShowSuccess(message: string) | ShowError(message: string) | SetStatus(status: Option<string>)

  /** The status after one call; the message text never reaches the status. */
  function StatusAfter(status: Option<string>, call: InfoCall): (next: Option<string>)
    ensures call.ShowSuccess? ==> next == Some(SuccessStatus)
    ensures call.ShowError? ==> next == Some(ErrorStatus)
    ensures call.SetStatus? ==> next == call.status
  {
    match call
    case ShowSuccess(_) => Some(SuccessStatus)
    case ShowError(_) => Some(ErrorStatus)
    case SetStatus(s) => s
  }

  /** The status after a sequence of calls, made oldest first. */
  function StatusAfterAll(status: Option<string>, calls: seq<InfoCall>): Option<string>
    decreases |calls|
  {
    if calls == [] then status else StatusAfterAll(StatusAfter(status, calls[0]), calls[1..])
  }

  /** Each call overwrites the status, so after any non-empty sequence of calls only the last one matters. */
  lemma {:induction false} LastCallWins(status: Option<string>, calls: seq<InfoCall>)
    requires calls != []
    ensures StatusAfterAll(status, calls) == StatusAfter(None, calls[|calls| - 1])
    decreases |calls|
  {
    if |calls| > 1 {
      LastCallWins(StatusAfter(status, calls[0]), calls[1..]);
    }
  }

  class InfoStore {
    var lastUploadStatus: Option<string>

    constructor ()
      ensures lastUploadStatus.None?
    {
      lastUploadStatus := None;
    }

    /** `showSuccessMessage`: logging is not modelled; the status becomes "success". */
    method ShowSuccessMessage(message: string)
      modifies this
      ensures lastUploadStatus == StatusAfter(old(lastUploadStatus), ShowSuccess(message))
    {
      lastUploadStatus := Some(SuccessStatus);
    }

    /** `showErrorMessage`: logging is not modelled; the status becomes "error". */
    method ShowErrorMessage(message: string)
      modifies this
      ensures lastUploadStatus == StatusAfter(old(lastUploadStatus), ShowError(message))
    {
      lastUploadStatus := Some(ErrorStatus);
    }

    /** The `setLastUploadStatus` setter the context exposes. */
    method SetLastUploadStatus(status: Option<string>)
      modifies this
      ensures lastUploadStatus == StatusAfter(old(lastUploadStatus), SetStatus(status))
    {
      lastUploadStatus := status;
    }
  }

  /** `useInfoStore`: the provider's store, or the thrown error when there is no provider above. */
  function UseInfoStore(context: Option<InfoStore>): (r: Result<InfoStore>)
    ensures r.Throws? <==> context.None?
    ensures r.Throws? ==> r.message == OutsideProviderMessage
    ensures r.Ok? ==> r.value == context.value
  {
    match context
    case None => Throws(OutsideProviderMessage)
    case Some(store) => Ok(store)
  }
}
