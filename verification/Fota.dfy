/** The update module: its states, its handlers, and the table of what each message of FOTA_CHAN does. */
module Fota {
  import opened MainSpec

  datatype Stage =
    | WaitingForPollRequest
    | PollingForUpdate
    | Downloading
    | WaitingForImageApply
    | ImageApplying
    | RebootPending
    | Canceling

  /** Calls of the update library, and the one message the module itself publishes. */
  datatype Act = PollProcess | PublishNoUpdate | ApplyUpdate | CancelDownload

  /** `job` says whether the cloud has an update, asked when polling begins. */
  function React(s: Stage, msg: FotaMsg, job: bool): (Stage, seq<Act>) {
    match (s, msg)
    case (WaitingForPollRequest, PollRequest) =>
      (PollingForUpdate, if job then [PollProcess] else [PollProcess, PublishNoUpdate])
    case (PollingForUpdate, DownloadingUpdate) => (Downloading, [])
    case (PollingForUpdate, NoAvailableUpdate) => (WaitingForPollRequest, [])
    case (Downloading, ImageApplyNeeded) => (WaitingForImageApply, [])
    case (Downloading, SuccessRebootNeeded) => (RebootPending, [])
    case (WaitingForImageApply, ImageApply) => (ImageApplying, [ApplyUpdate])
    case (ImageApplying, SuccessRebootNeeded) => (RebootPending, [])
    case (Canceling, DownloadCanceled) => (WaitingForPollRequest, [])
    case (_, DownloadCancel) =>
      if s == WaitingForPollRequest || s == PollingForUpdate then (s, []) else (Canceling, [CancelDownload])
    case _ => if s == Downloading && Stops(msg) then (WaitingForPollRequest, []) else (s, [])
  }

  class UpdateModule {
    var current: Stage
    var acts: seq<Act>

    constructor ()
      ensures current == WaitingForPollRequest && acts == []
    {
      current, acts := WaitingForPollRequest, [];
    }

    /** All states but the root are siblings without exit actions: a transition enters its target. */
    method SetState(target: Stage, job: bool)
      modifies this
      ensures current == target
      ensures acts == old(acts) + match target
                                  case PollingForUpdate => if job then [PollProcess] else [PollProcess, PublishNoUpdate]
                                  case ImageApplying => [ApplyUpdate]
                                  case Canceling => [CancelDownload]
                                  case _ => []
    {
      current := target;
      match target {
        case PollingForUpdate =>
          acts := acts + [PollProcess];
          if !job {
            acts := acts + [PublishNoUpdate];
          }
        case ImageApplying =>
          acts := acts + [ApplyUpdate];
        case Canceling =>
          acts := acts + [CancelDownload];
        case _ =>
      }
    }

    method RunningRun(msg: FotaMsg, job: bool) returns (stop: bool)
      modifies this
      ensures stop <==> msg == DownloadCancel
      ensures stop ==> current == Canceling && acts == old(acts) + [CancelDownload]
      ensures !stop ==> current == old(current) && acts == old(acts)
    {
      if msg.DownloadCancel? {
        SetState(Canceling, job);
        return true;
      }
      return false;
    }

    /** The handler of the leaf; REBOOT_PENDING has none. */
    method LeafRun(msg: FotaMsg, job: bool) returns (stop: bool)
      modifies this
      ensures stop ==> current == React(old(current), msg, job).0 && acts == old(acts) + React(old(current), msg, job).1
      ensures !stop ==> current == old(current) && acts == old(acts)
      ensures !stop ==>
                React(old(current), msg, job)
                == (if msg == DownloadCancel then (Canceling, [CancelDownload]) else (old(current), []))
    {
      stop := true;
      match (current, msg) {
        case (WaitingForPollRequest, PollRequest) =>
          SetState(PollingForUpdate, job);
        case (WaitingForPollRequest, DownloadCancel) =>
        case (PollingForUpdate, DownloadingUpdate) =>
          SetState(Downloading, job);
        case (PollingForUpdate, NoAvailableUpdate) =>
          SetState(WaitingForPollRequest, job);
        case (PollingForUpdate, DownloadCancel) =>
        case (Downloading, ImageApplyNeeded) =>
          SetState(WaitingForImageApply, job);
        case (Downloading, SuccessRebootNeeded) =>
          SetState(RebootPending, job);
        case (Downloading, DownloadCanceled) =>
          SetState(WaitingForPollRequest, job);
        case (Downloading, DownloadRejected) =>
          SetState(WaitingForPollRequest, job);
        case (Downloading, DownloadTimedOut) =>
          SetState(WaitingForPollRequest, job);
        case (Downloading, DownloadFailed) =>
          SetState(WaitingForPollRequest, job);
        case (WaitingForImageApply, ImageApply) =>
          SetState(ImageApplying, job);
        case (ImageApplying, SuccessRebootNeeded) =>
          SetState(RebootPending, job);
        case (Canceling, DownloadCanceled) =>
          SetState(WaitingForPollRequest, job);
        case _ =>
          stop := false;
      }
    }

    method Process(msg: FotaMsg, job: bool)
      modifies this
      ensures (current, acts) == (React(old(current), msg, job).0, old(acts) + React(old(current), msg, job).1)
    {
      var stop := LeafRun(msg, job);
      if !stop {
        assert acts + [] == acts;
        stop := RunningRun(msg, job);
      }
    }
  }
}
