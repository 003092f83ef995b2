/**
 * The schedule editor: the small store that opens the editor dialog in create or edit
 * mode, and the dialog's own form state and submit sequence.
 */
module ScheduleEditorStore {
  import opened Wrappers

  datatype Status = Scheduled | Break | TimeTbd {
    /** The wire name of the status. */
    function Name(): string {
      match this
      case Scheduled => "SCHEDULED"
      case Break => "BREAK"
      case TimeTbd => "TIME_TBD"
    }
  }

  datatype Mode = Create | Edit

  /**
   * The schedule handed to the editor for editing. The optional fields may be missing;
   * `streamerUuid` is read by the dialog although the declared type does not list it.
   */
  datatype ScheduleData = ScheduleData(
    uuid: string,
    title: string,
    scheduleDate: Option<string>,
    startTime: Option<string>,
    status: Status,
    description: Option<string>,
    streamerUuid: Option<string>,
    lastUpdatedAt: Option<string>)

  class EditorStore {
    var isScheduleModalOpen: bool
    var modalMode: Mode
    var editingSchedule: Option<ScheduleData>

    /** Closed, in create mode, editing nothing. */
    constructor()
      ensures !isScheduleModalOpen && modalMode == Create && editingSchedule == None
    {
      isScheduleModalOpen := false;
      modalMode := Create;
      editingSchedule := None;
    }

    method OpenScheduleCreate()
      modifies this
      ensures isScheduleModalOpen && modalMode == Create && editingSchedule == None
    {
      isScheduleModalOpen := true;
      modalMode := Create;
      editingSchedule := None;
    }

    method OpenScheduleEdit(schedule: ScheduleData)
      modifies this
      ensures isScheduleModalOpen && modalMode == Edit && editingSchedule == Some(schedule)
    {
      isScheduleModalOpen := true;
      modalMode := Edit;
      editingSchedule := Some(schedule);
    }

    /** Closes the dialog and forgets the schedule; the mode stays what it was. */
    method CloseScheduleModal()
      modifies this
      ensures !isScheduleModalOpen && editingSchedule == None && modalMode == old(modalMode)
    {
      isScheduleModalOpen := false;
      editingSchedule := None;
    }

    method SetEditingSchedule(schedule: Option<ScheduleData>)
      modifies this
      ensures editingSchedule == schedule
      ensures isScheduleModalOpen == old(isScheduleModalOpen) && modalMode == old(modalMode)
    {
      editingSchedule := schedule;
    }
  }
}

module ScheduleEditorDialog {
  import opened Wrappers
  import opened JsStrings
  import opened Services
  import opened ScheduleEditorStore

  datatype ScheduleForm = ScheduleForm(
    title: string,
    scheduleDate: string,
    startTime: string,
    status: Status,
    description: string,
    streamerUuid: string)

  /** The text fields `handleInputChange` is called with. */
  datatype FormField = Title | ScheduleDate | StartTime | Description | StreamerUuid

  /** The streamer picked in the search box. */
  datatype StreamerChoice = StreamerChoice(uuid: string, name: string)

  datatype SubmitResult =
    | TitleRequired
    | StreamerRequired
    | TimeConversionFailed
    | EditTargetMissing
    | Sent(request: Call)

  datatype Notice = Success | Failure

  /** `getModalTitle`. */
  function ModalTitle(mode: Mode): (r: string)
    ensures mode.Create? ==> r == "새 일정 등록"
    ensures mode.Edit? ==> r == "일정 수정"
  {
    if mode.Create? then "새 일정 등록" else "일정 수정"
  }

  /** `getSubmitButtonText`. */
  function SubmitButtonText(mode: Mode, isSubmitting: bool): (r: string)
    ensures isSubmitting && mode.Create? ==> r == "등록 중..."
    ensures isSubmitting && mode.Edit? ==> r == "수정 중..."
    ensures !isSubmitting && mode.Create? ==> r == "등록하기"
    ensures !isSubmitting && mode.Edit? ==> r == "수정하기"
  {
    if isSubmitting then (if mode.Create? then "등록 중..." else "수정 중...")
    else if mode.Create? then "등록하기" else "수정하기"
  }

  /** The form a fresh create starts from. */
  function EmptyForm(): (f: ScheduleForm)
    ensures f.status == Scheduled
    ensures f.title == f.scheduleDate == f.startTime == f.description == f.streamerUuid == ""
  {
    ScheduleForm("", "", "", Scheduled, "", "")
  }

  /** The form an edit starts from: the schedule's fields, "" where one is missing. */
  function FormOf(s: ScheduleData): (f: ScheduleForm)
    ensures f.title == s.title && f.status == s.status
    ensures s.scheduleDate.None? ==> f.scheduleDate == ""
    ensures s.scheduleDate.Some? ==> f.scheduleDate == s.scheduleDate.value
    ensures s.startTime.None? ==> f.startTime == ""
    ensures s.startTime.Some? ==> f.startTime == s.startTime.value
    ensures s.description.None? ==> f.description == ""
    ensures s.description.Some? ==> f.description == s.description.value
    ensures s.streamerUuid.None? ==> f.streamerUuid == ""
    ensures s.streamerUuid.Some? ==> f.streamerUuid == s.streamerUuid.value
  {
    ScheduleForm(s.title, s.scheduleDate.GetOr(""), s.startTime.GetOr(""), s.status,
                 s.description.GetOr(""), s.streamerUuid.GetOr(""))
  }

  /**
   * The edit-conflict check. It passes outside edit mode and without a version stamp;
   * the comparison with the server's copy is commented out, so it passes in edit mode
   * too.
   */
  function CheckForConflicts(mode: Mode, editing: Option<ScheduleData>): (noConflict: bool)
    ensures noConflict
  {
    if mode != Edit || editing.None? || editing.value.lastUpdatedAt.None? || editing.value.lastUpdatedAt.value == "" then true
    else true
  }

  /** Whether a status carries no start time (the time field is cleared and not converted). */
  predicate SkipsTime(s: Status) {
    s == Break || s == TimeTbd
  }

  /**
   * The edit request: the form without streamer, date and local time, with the UTC
   * start only when there is one, and with the version stamp of the schedule.
   */
  function EditBody(f: ScheduleForm, startAtUtc: Option<string>, lastUpdatedAt: Option<string>): (b: ModifyScheduleRequest)
    ensures b.title == f.title && b.status == f.status.Name() && b.description == f.description
    ensures b.startAtUtc == startAtUtc && b.lastUpdatedAt == lastUpdatedAt
  {
    ModifyScheduleRequest(f.title, f.status.Name(), f.description, startAtUtc, lastUpdatedAt)
  }

  /** A title the submit handler treats as missing: nothing left after trimming. */
  predicate Blank(s: string) {
    Trim(s) == ""
  }

  /** The form a create request is built from: a scheduled entry carries its UTC start in `startTime`. */
  function SentForm(f: ScheduleForm, startAtUtc: Option<string>): (g: ScheduleForm)
    ensures SkipsTime(f.status) || startAtUtc.None? ==> g == f
    ensures !SkipsTime(f.status) && startAtUtc.Some? ==> g.startTime == startAtUtc.value
    ensures g.(startTime := f.startTime) == f
  {
    if SkipsTime(f.status) || startAtUtc.None? then f else f.(startTime := startAtUtc.value)
  }

  /** The create request for a form, every field carried over. */
  function CreateRequest(f: ScheduleForm): (c: Call)
    ensures c.CreateNewSchedule?
    ensures c.createBody.title == f.title && c.createBody.scheduleDate == f.scheduleDate
    ensures c.createBody.startTime == f.startTime && c.createBody.status == f.status.Name()
    ensures c.createBody.description == f.description && c.createBody.streamerUuid == f.streamerUuid
  {
    CreateNewSchedule(CreateScheduleRequest(f.title, f.scheduleDate, f.startTime, f.status.Name(), f.description, f.streamerUuid))
  }

  /**
   * What a submit of form `f` leads to. The checks run in order: a blank title, then a
   * missing streamer, then (in edit mode) the conflict check, which always passes. A
   * scheduled status needs the local date and time converted to UTC (`startAtUtc`,
   * None when the conversion throws, which ends the handler). A create sends the form
   * with the UTC time in `startTime`; an edit sends `EditBody` addressed by the form's
   * streamer uuid, or fails at once when no schedule is being edited.
   */
  function Submission(f: ScheduleForm, mode: Mode, editing: Option<ScheduleData>, startAtUtc: Option<string>): SubmitResult
  {
    if Blank(f.title) then TitleRequired
    else if f.streamerUuid == "" then StreamerRequired
    else if !SkipsTime(f.status) && startAtUtc.None? then TimeConversionFailed
    else if mode.Create? then Sent(CreateRequest(SentForm(f, startAtUtc)))
    else if editing.None? then EditTargetMissing
    else Sent(ModifySchedule(f.streamerUuid, EditBody(f, if SkipsTime(f.status) then None else startAtUtc, editing.value.lastUpdatedAt)))
  }

  /**
   * The order of the checks and what each outcome carries: a blank title wins over a
   * missing streamer, which wins over a failed time conversion; a create sends the form
   * with its UTC start; an edit is addressed by the form's streamer uuid and carries the
   * version stamp, with a UTC start exactly for a scheduled status.
   */
  lemma SubmissionOutcomes(f: ScheduleForm, mode: Mode, editing: Option<ScheduleData>, startAtUtc: Option<string>)
    ensures var r := Submission(f, mode, editing, startAtUtc);
      (Blank(f.title) ==> r == TitleRequired) &&
      (!Blank(f.title) && f.streamerUuid == "" ==> r == StreamerRequired) &&
      (r.Sent? ==> !Blank(f.title) && f.streamerUuid != "") &&
      (r == TimeConversionFailed <==>
        !Blank(f.title) && f.streamerUuid != "" && !SkipsTime(f.status) && startAtUtc.None?) &&
      (r == EditTargetMissing <==>
        !Blank(f.title) && f.streamerUuid != "" && (SkipsTime(f.status) || startAtUtc.Some?) &&
        mode.Edit? && editing.None?) &&
      (r.Sent? && mode.Create? ==> r.request == CreateRequest(SentForm(f, startAtUtc))) &&
      (r.Sent? && mode.Edit? ==>
        editing.Some? && r.request.ModifySchedule? && r.request.scheduleUuid == f.streamerUuid &&
        r.request.modifyBody.lastUpdatedAt == editing.value.lastUpdatedAt &&
        (r.request.modifyBody.startAtUtc.Some? <==> !SkipsTime(f.status)) &&
        r.request.modifyBody.title == f.title && r.request.modifyBody.description == f.description)
  {
  }

  class EditorDialog {
    var formData: ScheduleForm
    var selectedStreamer: Option<StreamerChoice>
    var isSubmitting: bool
    var conflictError: Option<string>

    constructor()
      ensures formData == EmptyForm() && selectedStreamer == None && !isSubmitting && conflictError == None
    {
      formData := EmptyForm();
      selectedStreamer := None;
      isSubmitting := false;
      conflictError := None;
    }

    /**
     * The effect that runs when the store's open state, mode or schedule changes.
     * While open, an edit with a schedule fills the form from it and anything else
     * resets the form and the picked streamer; the conflict message is cleared.
     */
    method OnStoreChange(store: EditorStore)
      modifies this
      ensures !store.isScheduleModalOpen ==>
        formData == old(formData) && selectedStreamer == old(selectedStreamer) && conflictError == old(conflictError)
      ensures store.isScheduleModalOpen ==> conflictError == None
      ensures store.isScheduleModalOpen && store.modalMode == Edit && store.editingSchedule.Some? ==>
        formData == FormOf(store.editingSchedule.value) && selectedStreamer == old(selectedStreamer)
      ensures store.isScheduleModalOpen && !(store.modalMode == Edit && store.editingSchedule.Some?) ==>
        formData == EmptyForm() && selectedStreamer == None
      ensures isSubmitting == old(isSubmitting)
    {
      if store.isScheduleModalOpen {
        if store.modalMode == Edit && store.editingSchedule.Some? {
          formData := FormOf(store.editingSchedule.value);
        } else {
          ResetForm();
        }
        conflictError := None;
      }
    }

    method ResetForm()
      modifies this
      ensures formData == EmptyForm() && selectedStreamer == None
      ensures isSubmitting == old(isSubmitting) && conflictError == old(conflictError)
    {
      formData := EmptyForm();
      selectedStreamer := None;
    }

    /** Typing into one text field; in edit mode a shown conflict message goes away. */
    method HandleInputChange(mode: Mode, field: FormField, value: string)
      modifies this
      ensures formData == match field
        case Title => old(formData).(title := value)
        case ScheduleDate => old(formData).(scheduleDate := value)
        case StartTime => old(formData).(startTime := value)
        case Description => old(formData).(description := value)
        case StreamerUuid => old(formData).(streamerUuid := value)
      ensures mode == Edit ==> conflictError == None
      ensures mode != Edit ==> conflictError == old(conflictError)
      ensures selectedStreamer == old(selectedStreamer) && isSubmitting == old(isSubmitting)
    {
      formData := match field
        case Title => formData.(title := value)
        case ScheduleDate => formData.(scheduleDate := value)
        case StartTime => formData.(startTime := value)
        case Description => formData.(description := value)
        case StreamerUuid => formData.(streamerUuid := value);
      if mode == Edit && conflictError.Some? {
        conflictError := None;
      }
    }

    /** Picking a status; a break or an undecided time clears the start time. */
    method HandleStatusChange(value: Status)
      modifies this
      ensures formData.status == value
      ensures SkipsTime(value) ==> formData.startTime == ""
      ensures !SkipsTime(value) ==> formData.startTime == old(formData).startTime
      ensures formData.(status := old(formData).status, startTime := old(formData).startTime) == old(formData)
      ensures selectedStreamer == old(selectedStreamer) && isSubmitting == old(isSubmitting) && conflictError == old(conflictError)
    {
      formData := formData.(status := value, startTime := if value == Break || value == TimeTbd then "" else formData.startTime);
    }

    method HandleStreamerSelect(streamer: StreamerChoice)
      modifies this
      ensures selectedStreamer == Some(streamer) && formData == old(formData).(streamerUuid := streamer.uuid)
      ensures isSubmitting == old(isSubmitting) && conflictError == old(conflictError)
    {
      selectedStreamer := Some(streamer);
      formData := formData.(streamerUuid := streamer.uuid);
    }

    method HandleChangeStreamer()
      modifies this
      ensures selectedStreamer == None && formData == old(formData).(streamerUuid := "")
      ensures isSubmitting == old(isSubmitting) && conflictError == old(conflictError)
    {
      selectedStreamer := None;
      formData := formData.(streamerUuid := "");
    }

    /**
     * The submit handler up to its request: the checks and the request are those of
     * `Submission`; a sent request marks the dialog as submitting, and a create also
     * writes the UTC start time into the form in place.
     */
    method BeginSubmit(store: EditorStore, net: Network, startAtUtc: Option<string>) returns (result: SubmitResult)
      requires !isSubmitting
      modifies this, net
      ensures result == Submission(old(formData), store.modalMode, store.editingSchedule, startAtUtc)
      ensures result.Sent? ==> isSubmitting && net.log == old(net.log) + [result.request]
      ensures !result.Sent? ==> !isSubmitting && net.log == old(net.log)
      ensures formData == if result.Sent? && store.modalMode.Create? then SentForm(old(formData), startAtUtc) else old(formData)
      ensures selectedStreamer == old(selectedStreamer) && conflictError == old(conflictError)
    {
      var mode := store.modalMode;
      result := Submission(formData, mode, store.editingSchedule, startAtUtc);
      if result.Sent? {
        isSubmitting := true;
        if mode.Create? {
          formData := SentForm(formData, startAtUtc);
        }
        net.Send(result.request);
      }
    }

    /** The continuation: success closes the editor, failure leaves it open; submitting ends either way. */
    method FinishSubmit(store: EditorStore, succeeded: bool) returns (notice: Notice)
      requires isSubmitting
      modifies this, store
      ensures !isSubmitting
      ensures succeeded ==> notice == Success && !store.isScheduleModalOpen && store.editingSchedule == None
      ensures !succeeded ==> notice == Failure && store.isScheduleModalOpen == old(store.isScheduleModalOpen) &&
                             store.editingSchedule == old(store.editingSchedule)
      ensures store.modalMode == old(store.modalMode) && formData == old(formData)
    {
      if succeeded {
        store.CloseScheduleModal();
        notice := Success;
      } else {
        notice := Failure;
      }
      isSubmitting := false;
    }

    /** Closing the dialog; ignored while a submit is in flight. */
    method HandleClose(store: EditorStore)
      modifies store
      ensures isSubmitting ==> store.isScheduleModalOpen == old(store.isScheduleModalOpen) &&
                               store.editingSchedule == old(store.editingSchedule)
      ensures !isSubmitting ==> !store.isScheduleModalOpen && store.editingSchedule == None
      ensures store.modalMode == old(store.modalMode)
    {
      if isSubmitting {
        return;
      }
      store.CloseScheduleModal();
    }
  }
}
