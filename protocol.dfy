/** How the browser client reads the answers of the download view. The view
    answers synchronously and never includes a `task_id`; the client was written
    for an asynchronous back end and polls `/status/{task_id}` after a success. */
module Protocol {
  import opened Json
  import Server
  import Client

  /** The submit reply the client receives for a view answer: the JSON body with
      `response.ok` (true for a status from 200 to 299), or an exception from
      `response.json()` on Flask's HTML error page. */
  function AsSubmitReply(response: Server.Response): (r: Client.SubmitReply)
    ensures response.Unhandled? <==> r.SubmitThrew?
    ensures r.Replied? ==> r.data.taskId == None
    ensures response.Success? ==> r.Replied? && r.ok && r.data.success == JBool(true)
    ensures response.Failure? ==> r.Replied? && r.data.error == Some(response.error) && r.data.success == JBool(false)
  {
    match response
    case Success(_) => Client.Replied(true, Client.SubmitData(JBool(true), None, None))
    case Failure(status, error) => Client.Replied(200 <= status < 300, Client.SubmitData(JBool(false), None, Some(error)))
    case Unhandled => Client.SubmitThrew
  }

  /** A successful download makes the client poll a missing task id, and a failed
      one makes it show the view's error text, or the fallback text when that is empty.
      The view always sends a boolean `success`, so the client's truthiness reads it
      as the view meant it. */
  lemma ClientReadsViewAnswer(response: Server.Response)
    ensures response.Success? ==>
              Client.StartsPolling(AsSubmitReply(response)) && AsSubmitReply(response).data.taskId.None?
    ensures response.Failure? ==>
              && !Client.StartsPolling(AsSubmitReply(response))
              && Client.OrElse(AsSubmitReply(response).data.error, Client.UnexpectedReplyText)
                 == if response.error == "" then Client.UnexpectedReplyText else response.error
    ensures response.Unhandled? ==> !Client.StartsPolling(AsSubmitReply(response))
    ensures AsSubmitReply(response).Replied? ==>
              var flag := AsSubmitReply(response).data.success;
              PyTruthy(flag) == JsTruthy(flag)
  {
    var reply := AsSubmitReply(response);
    if reply.Replied? {
      TruthinessDiffers(reply.data.success);
    }
  }

  /** What a user sees after a successful download. The client polls
      `/status/undefined`; the back end has no such route, so its first tick gets
      Flask's HTML 404, `response.json()` throws, polling stops with the status
      error and no download link is ever clicked. */
  method FirstTickAfterSuccess(response: Server.Response)
    returns (message: string, downloads: seq<Option<string>>, scheduled: seq<Option<string>>, live: set<nat>)
    requires response.Success?
    ensures message == Client.PollErrorMessage
    ensures downloads == [] && scheduled == [] && live == {}
  {
    var page := new Client.Page();
    page.BeginSubmit();
    page.FinishSubmit(AsSubmitReply(response));
    page.HandleStatus(0, Client.PollThrew);
    message, downloads, scheduled, live := page.messageText, page.downloads, page.pendingSuccess, page.polling;
  }
}
