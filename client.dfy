/** The browser client (script.js): the submit handler, the status-polling
    interval and the helpers that update the form. The document is reduced to the
    state those helpers write: the progress bar and its text, the message line,
    the submit button, the live polling intervals, the scheduled completion
    timeouts and the download links clicked. Server answers are inputs. */
module Client {
  import opened Json

  const IdleLabel := "Descargar"
  const BusyLabel := "Procesando..."
  const StartingText := "Iniciando..."
  const QueuedText := "Esperando en cola..."
  const WorkingText := "Procesando..."
  const CompletedText := "¡Descarga completada!"
  const ReadyMessage := "¡Listo! La descarga comenzará automáticamente..."
  const UnknownErrorText := "Error desconocido"
  const UnexpectedReplyText := "Respuesta inesperada del servidor."
  const ConnectionErrorMessage := "Error de conexión. Verifica tu conexión a internet."
  const PollErrorMessage := "Error al verificar el estado de la descarga"

  /** The class of the message line: "message", "message success" or "message error". */
  datatype MessageStyle = Plain | SuccessStyle | ErrorStyle

  /** The visible state of the form. */
  datatype Screen = Screen(
    barPercent: int,         // width of the progress bar, in percent
    progressText: string,
    progressShown: bool,     // the progress section is not hidden
    funnyShown: bool,        // the funny-message box is not hidden
    messageText: string,
    messageStyle: MessageStyle,
    buttonBusy: bool,        // the button shows the spinner instead of the download icon
    buttonLabel: string,
    buttonDisabled: bool)
  {
    /** What every helper keeps: the bar within 0..100 and the button disabled
        exactly while it shows the spinner, with the idle label otherwise. */
    predicate Coherent()
    {
      && 0 <= barPercent <= 100
      && buttonDisabled == buttonBusy
      && (!buttonBusy ==> buttonLabel == IdleLabel)
    }

    /** `resetForm()` has run last: the button is usable again and the bar is empty. */
    predicate IsReset()
    {
      !buttonBusy && !buttonDisabled && buttonLabel == IdleLabel && barPercent == 0
    }

    /** The screen after `showSuccess(text)` or `showError(text)`. */
    function Reported(text: string, style: MessageStyle): (r: Screen)
      ensures r.IsReset() && r.Coherent()
      ensures !r.progressShown && !r.funnyShown
      ensures r.messageText == text && r.messageStyle == style
      ensures r.progressText == progressText
    {
      this.(progressShown := false, funnyShown := false, messageText := text, messageStyle := style,
            buttonBusy := false, buttonLabel := IdleLabel, buttonDisabled := false, barPercent := 0)
    }
  }

  /** JavaScript's `s || fallback` for a field that is absent or a string. */
  function OrElse(s: Option<string>, fallback: string): (r: string)
    ensures r == fallback || s == Some(r)
    ensures r != "" || fallback == ""
    ensures s.Some? && s.value != "" ==> r == s.value
  {
    if s.Some? && s.value != "" then s.value else fallback
  }

  /** The fields of a `GET /status/{id}` answer the poller reads. */
  datatype StatusData = StatusData(state: Option<string>, status: Option<string>,
                                   downloadUrl: Option<string>, error: Option<string>)

  /** One tick of the poller: the answer, or an exception from `fetch` or `response.json()`. */
  datatype Poll = Answered(data: StatusData) | PollThrew

  /** The fields of a `POST /download` answer the submit handler reads. */
  datatype SubmitData = SubmitData(success: Value, taskId: Option<string>, error: Option<string>)

  /** The answer to the submit request (`response.ok` and the decoded body), or an
      exception from `fetch` or `response.json()`. */
  datatype SubmitReply = Replied(ok: bool, data: SubmitData) | SubmitThrew

  predicate HasState(poll: Poll, state: string)
  {
    poll.Answered? && poll.data.state == Some(state)
  }

  /** The ticks after which the interval is cleared. */
  predicate Stops(poll: Poll)
  {
    poll.PollThrew? || HasState(poll, "SUCCESS") || HasState(poll, "FAILURE")
  }

  /** A state the poller has no branch for. */
  predicate Unrecognised(poll: Poll)
  {
    poll.Answered? && !HasState(poll, "PENDING") && !HasState(poll, "PROGRESS") && !Stops(poll)
  }

  /** The submit handler starts polling only when `response.ok && data.success`. */
  predicate StartsPolling(reply: SubmitReply)
  {
    reply.Replied? && reply.ok && JsTruthy(reply.data.success)
  }

  class Page {
    var barPercent: int
    var progressText: string
    var progressShown: bool
    var funnyShown: bool
    var messageText: string
    var messageStyle: MessageStyle
    var buttonBusy: bool
    var buttonLabel: string
    var buttonDisabled: bool
    /** One entry per `setInterval` of `pollTaskStatus`, in order: the task id it
        polls. An interval's handle is its index. */
    var polledTasks: seq<Option<string>>
    /** The handles not yet given to `clearInterval`. */
    var polling: set<nat>
    /** The one-second timeouts the SUCCESS branch scheduled and that have not
        fired, each with the `download_url` it will open. */
    var pendingSuccess: seq<Option<string>>
    /** The URLs handed to `downloadFile`, in order. */
    var downloads: seq<Option<string>>

    function View(): Screen
      reads this
    {
      Screen(barPercent, progressText, progressShown, funnyShown, messageText, messageStyle,
             buttonBusy, buttonLabel, buttonDisabled)
    }

    ghost predicate Valid()
      reads this
    {
      && View().Coherent()
      && forall h :: h in polling ==> h < |polledTasks|
    }

    /** Interval `h` was started and has been cleared. */
    ghost predicate Cleared(h: nat)
      reads this
    {
      h < |polledTasks| && h !in polling
    }

    /** The page as loaded: nothing polled, nothing shown, the button idle. */
    constructor ()
      ensures Valid()
      ensures View() == Screen(0, "", false, false, "", Plain, false, IdleLabel, false)
      ensures polledTasks == [] && polling == {} && pendingSuccess == [] && downloads == []
    {
      barPercent, progressText, progressShown, funnyShown := 0, "", false, false;
      messageText, messageStyle := "", Plain;
      buttonBusy, buttonLabel, buttonDisabled := false, IdleLabel, false;
      polledTasks, polling, pendingSuccess, downloads := [], {}, [], [];
    }

    /** `updateButton(loading, text)` */
    method UpdateButton(loading: bool, text: Option<string>)
      requires Valid()
      modifies this`buttonBusy, this`buttonLabel, this`buttonDisabled
      ensures Valid()
      ensures View() == old(View()).(buttonBusy := loading, buttonDisabled := loading,
                                         buttonLabel := if loading then OrElse(text, BusyLabel) else IdleLabel)
    {
      if loading {
        buttonBusy := true;
        buttonLabel := OrElse(text, BusyLabel);
        buttonDisabled := true;
      } else {
        buttonBusy := false;
        buttonLabel := IdleLabel;
        buttonDisabled := false;
      }
    }

    /** `showProgress(status, percentage)` */
    method ShowProgress(status: string, percentage: int)
      requires Valid() && 0 <= percentage <= 100
      modifies this`progressShown, this`barPercent, this`progressText, this`funnyShown
      ensures Valid()
      ensures View() == old(View()).(progressShown := true, barPercent := percentage,
                                         progressText := status, funnyShown := true)
    {
      progressShown := true;
      barPercent := percentage;
      progressText := status;
      funnyShown := true;
    }

    /** `updateProgress(percentage, status)` */
    method UpdateProgress(percentage: int, status: string)
      requires Valid() && 0 <= percentage <= 100
      modifies this`barPercent, this`progressText, this`funnyShown
      ensures Valid()
      ensures View() == old(View()).(barPercent := percentage, progressText := status, funnyShown := true)
    {
      barPercent := percentage;
      progressText := status;
      funnyShown := true;
    }

    /** `resetForm()` */
    method ResetForm()
      requires Valid()
      modifies this`buttonBusy, this`buttonLabel, this`buttonDisabled, this`barPercent
      ensures Valid() && View().IsReset()
      ensures View() == old(View()).(buttonBusy := false, buttonLabel := IdleLabel,
                                         buttonDisabled := false, barPercent := 0)
    {
      UpdateButton(false, None);
      barPercent := 0;
    }

    /** `showSuccess(text)` */
    method ShowSuccess(text: string)
      requires Valid()
      modifies this`progressShown, this`funnyShown, this`messageText, this`messageStyle,
               this`buttonBusy, this`buttonLabel, this`buttonDisabled, this`barPercent
      ensures Valid() && View().IsReset()
      ensures View() == old(View()).Reported(text, SuccessStyle)
    {
      progressShown := false;
      funnyShown := false;
      messageText := text;
      messageStyle := SuccessStyle;
      ResetForm();
    }

    /** `showError(text)` */
    method ShowError(text: string)
      requires Valid()
      modifies this`progressShown, this`funnyShown, this`messageText, this`messageStyle,
               this`buttonBusy, this`buttonLabel, this`buttonDisabled, this`barPercent
      ensures Valid() && View().IsReset()
      ensures View() == old(View()).Reported(text, ErrorStyle)
    {
      progressShown := false;
      funnyShown := false;
      messageText := text;
      messageStyle := ErrorStyle;
      ResetForm();
    }

    /** `downloadFile(url)`: a link to `url` is clicked. */
    method DownloadFile(url: Option<string>)
      requires Valid()
      modifies this`downloads
      ensures Valid()
      ensures downloads == old(downloads) + [url]
    {
      downloads := downloads + [url];
    }

    /** `clearInterval(handle)`; clearing a cleared interval does nothing. */
    method ClearInterval(handle: nat)
      requires Valid()
      modifies this`polling
      ensures Valid()
      ensures polling == old(polling) - {handle}
    {
      polling := polling - {handle};
    }

    /** `pollTaskStatus(taskId)`: a new interval polling `taskId`. */
    method PollTaskStatus(taskId: Option<string>) returns (handle: nat)
      requires Valid()
      modifies this`polledTasks, this`polling
      ensures Valid()
      ensures handle == old(|polledTasks|) && handle !in old(polling)
      ensures polledTasks == old(polledTasks) + [taskId]
      ensures polling == old(polling) + {handle}
      ensures forall h :: old(Cleared(h)) ==> Cleared(h)
    {
      handle := |polledTasks|;
      polledTasks := polledTasks + [taskId];
      polling := polling + {handle};
    }

    /** One tick of interval `handle`, given the status answer or the exception.
        A tick may still complete after its interval was cleared (the callback is
        asynchronous), so `handle` need not be live. */
    method HandleStatus(handle: nat, poll: Poll)
      requires Valid() && handle < |polledTasks|
      modifies this
      ensures Valid()
      ensures polledTasks == old(polledTasks) && downloads == old(downloads)
      ensures polling == if Stops(poll) then old(polling) - {handle} else old(polling)
      ensures polling <= old(polling)
      ensures forall h :: old(Cleared(h)) ==> Cleared(h)
      ensures pendingSuccess == if HasState(poll, "SUCCESS") then old(pendingSuccess) + [poll.data.downloadUrl]
                                else old(pendingSuccess)
      ensures HasState(poll, "PENDING") ==>
                View() == old(View()).(barPercent := 10, progressText := QueuedText, funnyShown := true)
      ensures HasState(poll, "PROGRESS") ==>
                View() == old(View()).(barPercent := 50, progressText := OrElse(poll.data.status, WorkingText),
                                           funnyShown := true)
      ensures HasState(poll, "SUCCESS") ==>
                View() == old(View()).(barPercent := 100, progressText := CompletedText, funnyShown := true)
      ensures HasState(poll, "FAILURE") ==>
                View() == old(View()).Reported("Error: " + OrElse(poll.data.error, UnknownErrorText), ErrorStyle)
      ensures poll.PollThrew? ==> View() == old(View()).Reported(PollErrorMessage, ErrorStyle)
      ensures Unrecognised(poll) ==> View() == old(View())
    {
      match poll {
        case PollThrew =>
          ClearInterval(handle);
          ShowError(PollErrorMessage);
        case Answered(data) =>
          if data.state == Some("PENDING") {
            UpdateProgress(10, QueuedText);
          } else if data.state == Some("PROGRESS") {
            UpdateProgress(50, OrElse(data.status, WorkingText));
          } else if data.state == Some("SUCCESS") {
            ClearInterval(handle);
            UpdateProgress(100, CompletedText);
            pendingSuccess := pendingSuccess + [data.downloadUrl];
          } else if data.state == Some("FAILURE") {
            ClearInterval(handle);
            ShowError("Error: " + OrElse(data.error, UnknownErrorText));
          }
      }
    }

    /** The oldest pending completion timeout fires: the success message, then the download. */
    method FireSuccessTimeout()
      requires Valid() && |pendingSuccess| > 0
      modifies this
      ensures Valid()
      ensures pendingSuccess == old(pendingSuccess[1..])
      ensures downloads == old(downloads) + [old(pendingSuccess[0])]
      ensures View() == old(View()).Reported(ReadyMessage, SuccessStyle)
      ensures polledTasks == old(polledTasks) && polling == old(polling)
    {
      var url := pendingSuccess[0];
      pendingSuccess := pendingSuccess[1..];
      ShowSuccess(ReadyMessage);
      DownloadFile(url);
    }

    /** The submit handler up to its `fetch`: clear the message, show the busy
        button and the progress bar at 5%. */
    method BeginSubmit()
      requires Valid()
      modifies this
      ensures Valid()
      ensures View() == Screen(5, StartingText, true, true, "", Plain, true, BusyLabel, true)
      ensures polledTasks == old(polledTasks) && polling == old(polling)
      ensures pendingSuccess == old(pendingSuccess) && downloads == old(downloads)
    {
      messageText := "";
      messageStyle := Plain;
      UpdateButton(true, Some(BusyLabel));
      ShowProgress(StartingText, 5);
    }

    /** The submit handler after its `fetch`: poll when the server accepted the
        request, otherwise report the error. */
    method FinishSubmit(reply: SubmitReply)
      requires Valid()
      modifies this
      ensures Valid()
      ensures pendingSuccess == old(pendingSuccess) && downloads == old(downloads)
      ensures StartsPolling(reply) ==>
                && polledTasks == old(polledTasks) + [reply.data.taskId]
                && polling == old(polling) + {old(|polledTasks|)}
                && View() == old(View())
      ensures !StartsPolling(reply) ==> polledTasks == old(polledTasks) && polling == old(polling)
      ensures reply.Replied? && !StartsPolling(reply) ==>
                View() == old(View()).Reported("Error: " + OrElse(reply.data.error, UnexpectedReplyText), ErrorStyle)
      ensures reply.SubmitThrew? ==> View() == old(View()).Reported(ConnectionErrorMessage, ErrorStyle)
      ensures forall h :: old(Cleared(h)) ==> Cleared(h)
    {
      match reply {
        case SubmitThrew =>
          ShowError(ConnectionErrorMessage);
        case Replied(ok, data) =>
          if ok && JsTruthy(data.success) {
            var _ := PollTaskStatus(data.taskId);
          } else {
            ShowError("Error: " + OrElse(data.error, UnexpectedReplyText));
          }
      }
    }
  }
  /** A caller's view of the contracts: a job that succeeds while a late tick of
      its interval arrives after the interval was cleared. */
  method LateTickAfterSuccess(url: string)
  {
    var page := new Page();
    page.BeginSubmit();
    page.FinishSubmit(Replied(true, SubmitData(JBool(true), Some("job"), None)));
    assert page.polling == {0} && page.polledTasks == [Some("job")];
    page.HandleStatus(0, Answered(StatusData(Some("PENDING"), None, None, None)));
    assert page.barPercent == 10 && page.polling == {0};
    page.HandleStatus(0, Answered(StatusData(Some("SUCCESS"), None, Some(url), None)));
    assert page.Cleared(0) && page.barPercent == 100 && page.buttonDisabled;
    page.HandleStatus(0, Answered(StatusData(Some("PROGRESS"), Some("descargando"), None, None)));
    assert page.Cleared(0) && page.progressText == "descargando";
    page.FireSuccessTimeout();
    assert page.downloads == [Some(url)] && page.View().IsReset() && page.messageText == ReadyMessage;
  }
}
