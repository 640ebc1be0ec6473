/** The report screen's store: field setters and the submit step.

    `reportPostButtonTapped(postId)` starts a task with the post and the description
    read at dispatch; the task body then calls the service with the reason it reads
    from the state when it runs. Starting the task is a step of its own here
    (`RunReportTask`), so the model shows both reads. */
module Report {
  import opened Common

  /** Stand-in for the report reason enum; only its raw value is used. */
  datatype ReportType = ReportType(rawValue: string)

  datatype ReportState = ReportState(selectedReport: ReportType, description: string, isError: bool)

  datatype ReportIntent =
    | ReportReasonButtonTapped(report: ReportType)
    | ReportPostButtonTapped(postId: int)
    | DescriptionChanged(newDescription: string)
    | BackgroundTapped
    | IsErrorChanged(newIsError: bool)

  /** A started `sendReport` task: the arguments it captured at dispatch. */
  datatype PendingReport = PendingReport(postId: int, description: string)

  /** The `reportPost` service call a task makes. */
  datatype ReportCall = ReportCall(postId: int, report: ReportType, description: string)

  class ReportStore {
    var state: ReportState
    /** Tasks started by the submit button whose body has not run yet. */
    var pending: seq<PendingReport>
    /** Service calls made so far, in order. */
    var calls: seq<ReportCall>

    constructor (initial: ReportState)
      ensures state == initial && pending == [] && calls == []
    {
      state, pending, calls := initial, [], [];
    }

    method Dispatch(intent: ReportIntent)
      modifies this
      ensures intent.ReportReasonButtonTapped? ==>
        state == old(state).(selectedReport := intent.report) &&
        pending == old(pending) && calls == old(calls)
      ensures intent.ReportPostButtonTapped? ==>
        state == old(state) &&
        pending == old(pending) + [PendingReport(intent.postId, old(state).description)] &&
        calls == old(calls)
      ensures intent.DescriptionChanged? ==>
        state == old(state).(description := intent.newDescription) &&
        pending == old(pending) && calls == old(calls)
      ensures intent.BackgroundTapped? ==>
        state == old(state) && pending == old(pending) && calls == old(calls)
      ensures intent.IsErrorChanged? ==>
        state == old(state).(isError := intent.newIsError) &&
        pending == old(pending) && calls == old(calls)
    {
      match intent
      case ReportReasonButtonTapped(report) =>
        ChangeReportType(report);
      case ReportPostButtonTapped(postId) =>
        SendReport(postId, state.description);
      case DescriptionChanged(newValue) =>
        state := state.(description := newValue);
      case BackgroundTapped =>
      case IsErrorChanged(newValue) =>
        state := state.(isError := newValue);
    }

    method ChangeReportType(report: ReportType)
      modifies this
      ensures state == old(state).(selectedReport := report)
      ensures pending == old(pending) && calls == old(calls)
    {
      state := state.(selectedReport := report);
    }

    /** Starts the task; nothing is sent yet. */
    method SendReport(postId: int, description: string)
      modifies this
      ensures state == old(state) && calls == old(calls)
      ensures pending == old(pending) + [PendingReport(postId, description)]
    {
      pending := pending + [PendingReport(postId, description)];
    }

    /** The body of started task `i` runs: `postReport` passes the captured post and
        description and the reason selected now. An index with no task does nothing. */
    method RunReportTask(i: nat)
      modifies this
      ensures state == old(state)
      ensures i < |old(pending)| ==>
        pending == RemoveAt(old(pending), i) &&
        calls == old(calls) + [ReportCall(old(pending)[i].postId, state.selectedReport, old(pending)[i].description)]
      ensures i >= |old(pending)| ==> pending == old(pending) && calls == old(calls)
    {
      if i < |pending| {
        var task := pending[i];
        pending := RemoveAt(pending, i);
        calls := calls + [ReportCall(task.postId, state.selectedReport, task.description)];
      }
    }
  }

  /** Tapping submit and letting its task run before any other intent sends the post,
      the reason and the description as they were at the tap, and changes no state. */
  method SubmitAndRun(store: ReportStore, postId: int)
    modifies store
    ensures store.state == old(store.state) && store.pending == old(store.pending)
    ensures store.calls ==
      old(store.calls) + [ReportCall(postId, old(store.state.selectedReport), old(store.state.description))]
  {
    store.Dispatch(ReportPostButtonTapped(postId));
    store.RunReportTask(|store.pending| - 1);
    assert store.pending == old(store.pending);
  }

  /** A reason picked after the tap but before the task runs is the one sent, while the
      description stays the one read at the tap. */
  method ReasonPickedBeforeTaskRuns(store: ReportStore, postId: int, later: ReportType)
    modifies store
    ensures store.state == old(store.state).(selectedReport := later)
    ensures store.calls == old(store.calls) + [ReportCall(postId, later, old(store.state.description))]
  {
    store.Dispatch(ReportPostButtonTapped(postId));
    store.Dispatch(ReportReasonButtonTapped(later));
    store.RunReportTask(|store.pending| - 1);
  }
}
