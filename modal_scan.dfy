/**
 * components/scan/modal-scan.tsx: the scan flow. The camera is shown
 * first; a captured image is uploaded to `/scan`, and the session id the
 * upload returns opens the confirm dialog; confirming gives way to the
 * analysis dialog. Closing at any step brings the camera back for the
 * next time and tells the parent. Camera capture and the upload itself
 * are left to their callers: the upload's outcome is a parameter.
 */
module ModalScan {
  import opened Wrappers
  import opened Queries
  import ModalAnalisis

  const AnalysingMessage := "Menganalisis gambar"
  const ProcessedMessage := "Berhasil diproses!"
  const ProcessFailedMessage := "Gagal memproses data!"
  /** The error toast of the upload hook itself, shown before the call's own. */
  const UploadFailedMessage := "Terjadi kesalahan saat upload gambar"

  /**
   * The props the analysis dialog receives, as written: the attribute is
   * spelled `sesssionId`, so the dialog's own `sessionId` prop is never set.
   */
  function AsWrittenAnalysisProps(sessionId: string): (p: ModalAnalisis.AnalysisProps)
    ensures p.sessionId.None?
  {
    ModalAnalisis.AnalysisProps(None)
  }

  /** As written, the analysis query never runs, whatever the session id. */
  lemma AsWrittenAnalysisNeverRuns(sessionId: string)
    ensures ModalAnalisis.AnalysisQuery(AsWrittenAnalysisProps(sessionId)).None?
  {
  }

  /** The props as evidently intended: the session id, under the name the dialog reads. */
  function AnalysisProps(sessionId: string): (p: ModalAnalisis.AnalysisProps)
    ensures p.sessionId == Some(sessionId)
  {
    ModalAnalisis.AnalysisProps(Some(sessionId))
  }

  /** With the intended props, a shown analysis dialog always fetches its session's analysis. */
  lemma AnalysisRunsForShownDialog(sessionId: string)
    requires sessionId != ""
    ensures ModalAnalisis.AnalysisQuery(AnalysisProps(sessionId)).Some?
    ensures ModalAnalisis.AnalysisQuery(AnalysisProps(sessionId)).value.key == [ScanAnalysisRoot, sessionId]
  {
  }

  /** The flow's state: the parent's open flag, the four state fields, the body lock and the parent's calls. */
  class ScanFlow {
    /** The parent's `isOpen` prop. */
    var isOpen: bool
    /** `sesssionId`: `None` is `null`. */
    var sessionId: Option<string>
    var isCameraOpen: bool
    var isModalConfirmOpen: bool
    var isAnalisisOpen: bool
    /**
     * Uploads are numbered in the order `mutate` was called; `uploads` is
     * how many were started and `inFlight` those not yet settled. Only the
     * latest call's own callbacks run; the hook's run for every call.
     */
    var uploads: nat
    var inFlight: set<nat>
    /** `overflow-hidden` on the document body. */
    var scrollLocked: bool
    /** How many times the parent's `onClose` ran. */
    var closeCalls: nat
    var toasts: seq<Toast>

    /** The lock follows the parent's flag only; only started uploads are in flight. */
    predicate Valid()
      reads this
    {
      scrollLocked == isOpen && forall c :: c in inFlight ==> c < uploads
    }

    /** The call whose own `onSuccess`/`onError` the mutation still runs. */
    predicate IsLatest(call: nat)
      reads this
    {
      call + 1 == uploads
    }

    /** `if (!isOpen) return null`. */
    predicate Renders()
      reads this
    {
      isOpen
    }

    predicate CameraShown()
      reads this
    {
      isOpen && isCameraOpen
    }

    /** `sesssionId && isModalConfirmOpen`. */
    predicate ConfirmShown()
      reads this
    {
      isOpen && sessionId.Some? && sessionId.value != "" && isModalConfirmOpen
    }

    /** `isAnalisisOpen && sesssionId`. */
    predicate AnalysisShown()
      reads this
    {
      isOpen && isAnalisisOpen && sessionId.Some? && sessionId.value != ""
    }

    /** Mounting with the parent's flag: camera open, both dialogs closed, no session. */
    constructor (isOpen: bool)
      ensures Valid() && this.isOpen == isOpen
      ensures sessionId.None? && isCameraOpen && !isModalConfirmOpen && !isAnalisisOpen
      ensures uploads == 0 && inFlight == {} && closeCalls == 0 && toasts == []
    {
      this.isOpen := isOpen;
      sessionId := None;
      isCameraOpen := true;
      isModalConfirmOpen := false;
      isAnalisisOpen := false;
      uploads := 0;
      inFlight := {};
      scrollLocked := isOpen;
      closeCalls := 0;
      toasts := [];
    }

    /** The parent changes `isOpen`; the lock effect follows it. */
    method SetOpen(open: bool)
      requires Valid()
      modifies this
      ensures Valid() && isOpen == open
      ensures sessionId == old(sessionId) && isCameraOpen == old(isCameraOpen)
      ensures isModalConfirmOpen == old(isModalConfirmOpen) && isAnalisisOpen == old(isAnalisisOpen)
      ensures uploads == old(uploads) && inFlight == old(inFlight)
      ensures closeCalls == old(closeCalls) && toasts == old(toasts)
    {
      isOpen := open;
      scrollLocked := open;
    }

    /** The camera's `onCapture`: a new upload starts, numbered `call`, and the camera closes, whatever the outcome. */
    method Capture() returns (call: nat)
      requires Valid() && CameraShown()
      modifies this
      ensures Valid() && !isCameraOpen
      ensures call == old(uploads) && uploads == old(uploads) + 1 && IsLatest(call)
      ensures inFlight == old(inFlight) + {call}
      ensures toasts == old(toasts) + [Toast(AnalysingMessage, LoadingToast)]
      ensures isOpen == old(isOpen) && sessionId == old(sessionId)
      ensures isModalConfirmOpen == old(isModalConfirmOpen) && isAnalisisOpen == old(isAnalisisOpen)
      ensures closeCalls == old(closeCalls)
    {
      toasts := toasts + [Toast(AnalysingMessage, LoadingToast)];
      call := uploads;
      uploads := uploads + 1;
      inFlight := inFlight + {call};
      isCameraOpen := false;
    }

    /**
     * Upload `call` settles. A failure always shows the hook's own toast.
     * Only the latest upload's own callbacks run: success stores the
     * session id, toasts and opens confirm; failure adds the call's toast.
     * An upload that a later capture overtook changes nothing else.
     */
    method UploadSettled(call: nat, result: Option<string>)
      requires Valid() && call in inFlight
      modifies this
      ensures Valid() && inFlight == old(inFlight) - {call} && uploads == old(uploads)
      ensures result.Some? && IsLatest(call) ==>
        sessionId == result && isModalConfirmOpen && toasts == old(toasts) + [Toast(ProcessedMessage, SuccessToast)]
      ensures result.None? && IsLatest(call) ==>
        sessionId == old(sessionId) && isModalConfirmOpen == old(isModalConfirmOpen) &&
        toasts == old(toasts) + [Toast(UploadFailedMessage, ErrorToast), Toast(ProcessFailedMessage, ErrorToast)]
      ensures !IsLatest(call) ==>
        sessionId == old(sessionId) && isModalConfirmOpen == old(isModalConfirmOpen) &&
        toasts == old(toasts) + (if result.None? then [Toast(UploadFailedMessage, ErrorToast)] else [])
      ensures isOpen == old(isOpen) && isCameraOpen == old(isCameraOpen) && isAnalisisOpen == old(isAnalisisOpen)
      ensures closeCalls == old(closeCalls)
    {
      inFlight := inFlight - {call};
      if result.None? {
        toasts := toasts + [Toast(UploadFailedMessage, ErrorToast)];
      }
      if IsLatest(call) {
        match result
        case Some(id) =>
          sessionId := Some(id);
          toasts := toasts + [Toast(ProcessedMessage, SuccessToast)];
          isModalConfirmOpen := true;
        case None =>
          toasts := toasts + [Toast(ProcessFailedMessage, ErrorToast)];
      }
    }

    /** The confirm dialog's `onConfirm`: it closes and the analysis opens. */
    method Confirmed()
      requires Valid() && ConfirmShown()
      modifies this
      ensures Valid() && !isModalConfirmOpen && isAnalisisOpen && AnalysisShown()
      ensures isOpen == old(isOpen) && sessionId == old(sessionId) && isCameraOpen == old(isCameraOpen)
      ensures uploads == old(uploads) && inFlight == old(inFlight) && closeCalls == old(closeCalls) && toasts == old(toasts)
    {
      isModalConfirmOpen := false;
      isAnalisisOpen := true;
    }

    /** The props the shown analysis dialog receives (the intended ones). */
    function AnalysisDialogProps(): (p: ModalAnalisis.AnalysisProps)
      requires AnalysisShown()
      reads this
      ensures ModalAnalisis.AnalysisQuery(p).Some?
    {
      AnalysisProps(sessionId.value)
    }

    /**
     * `onCloseModal`, from the camera, the confirm dialog or the analysis
     * dialog: the camera comes back, both dialogs close, the parent is
     * told; the session id stays.
     */
    method CloseModal()
      requires Valid()
      modifies this
      ensures Valid() && isCameraOpen && !isModalConfirmOpen && !isAnalisisOpen
      ensures !ConfirmShown() && !AnalysisShown()
      ensures closeCalls == old(closeCalls) + 1
      ensures isOpen == old(isOpen) && sessionId == old(sessionId)
      ensures uploads == old(uploads) && inFlight == old(inFlight) && toasts == old(toasts)
    {
      isCameraOpen := true;
      isModalConfirmOpen := false;
      isAnalisisOpen := false;
      closeCalls := closeCalls + 1;
    }
  }

  /** One scan from capture to analysis: the analysis dialog ends up shown for the uploaded session. */
  method ScanToAnalysis(id: string) returns (flow: ScanFlow)
    requires id != ""
    ensures fresh(flow) && flow.Valid()
    ensures flow.AnalysisShown() && flow.sessionId == Some(id) && !flow.isCameraOpen && !flow.isModalConfirmOpen
    ensures ModalAnalisis.AnalysisQuery(flow.AnalysisDialogProps()).Some?
    ensures ModalAnalisis.AnalysisQuery(AsWrittenAnalysisProps(flow.sessionId.value)).None?
  {
    flow := new ScanFlow(true);
    var call := flow.Capture();
    flow.UploadSettled(call, Some(id));
    flow.Confirmed();
  }

  /**
   * Closing while an upload is in flight and scanning again: when the
   * first upload settles after the second, its own callbacks no longer
   * run, so the confirm dialog stays on the second upload's session.
   */
  method OvertakenUpload(first: string, second: string) returns (flow: ScanFlow)
    requires second != ""
    ensures fresh(flow) && flow.Valid() && flow.inFlight == {}
    ensures flow.sessionId == Some(second) && flow.ConfirmShown()
  {
    flow := new ScanFlow(true);
    var a := flow.Capture();
    flow.CloseModal();
    var b := flow.Capture();
    flow.UploadSettled(b, Some(second));
    flow.UploadSettled(a, Some(first));
  }
}
