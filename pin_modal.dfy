/** The pin modal: the fetched pin and its comments, the comment draft, a
    like that only counts up, and the report menu. */
module PinModal {
  import opened Base
  import opened PinTypes
  import PinsServices
  import Browser
  import Api

  const LikeLimitMessage := "You have reached your daily like limit."
  const LikeErrorMessage := "Something went wrong. Please try again."
  const CommentSuccessMessage := "comment made successfully"
  const CommentLimitMessage := "You have reached your daily comment limit."
  const CommentErrorMessage := "Failed to add comment. Try again."
  const ReportSuccessMessage := "Reporte enviado con éxito"
  const ReportErrorMessage := "Error al enviar el reporte"

  datatype ReportType = Spam | Violence | Sexual | Hate | Other

  /** A `POST /reports` body. */
  datatype ReportRequest = ReportRequest(targetType: string, targetId: string, kind: ReportType, reason: string)

  /** A `POST /pins/comments/:id` request. */
  datatype CommentRequest = CommentRequest(pinId: string, text: string)

  /** The error toast of a failed like. */
  function LikeFailureToast(outcome: Net<()>): (r: Toast)
    ensures r == Error(LikeLimitMessage) <==> outcome.FailedWith(403)
    ensures r == Error(LikeErrorMessage) <==> !outcome.FailedWith(403)
  {
    Error(if outcome.FailedWith(403) then LikeLimitMessage else LikeErrorMessage)
  }

  /** The toasts of a sent comment as the code is written: `addComment`
      never rejects, so the success toast is shown whatever the outcome and
      the catch with its two messages is never entered. */
  function CommentToastsAsWritten(resp: Net<Comment>): (r: seq<Toast>)
    ensures r == [Success(CommentSuccessMessage)]
  {
    [Success(CommentSuccessMessage)]
  }

  /** A failed comment request, even a 403, is reported as a success and the
      limit message is never shown. */
  lemma CommentFailureShownAsSuccess()
    ensures var r := CommentToastsAsWritten(Fail(Some(403)));
      Success(CommentSuccessMessage) in r && Error(CommentLimitMessage) !in r
  {
  }

  /** The toasts evidently intended by the catch: success only when the
      request succeeds, the limit message on 403, the generic one otherwise. */
  function CommentToastsIntended(resp: Net<Comment>): seq<Toast>
  {
    if resp.Ok? then [Success(CommentSuccessMessage)]
    else if resp.FailedWith(403) then [Error(CommentLimitMessage)]
    else [Error(CommentErrorMessage)]
  }

  lemma CommentToastsIntendedClassify(resp: Net<Comment>)
    ensures Success(CommentSuccessMessage) in CommentToastsIntended(resp) <==> resp.Ok?
    ensures Error(CommentLimitMessage) in CommentToastsIntended(resp) <==> resp.FailedWith(403)
    ensures Error(CommentErrorMessage) in CommentToastsIntended(resp) <==> resp.Fail? && !resp.FailedWith(403)
    ensures |CommentToastsIntended(resp)| == 1
  {
  }

  /** The toasts of a report as the code is written: `reportTarget` resolves
      with null instead of rejecting, so the success toast is shown whatever
      the outcome. */
  function ReportToastsAsWritten(targetId: string, resp: Net<()>): (r: seq<Toast>)
    ensures r == [Success(ReportSuccessMessage)]
  {
    [Success(ReportSuccessMessage)]
  }

  lemma ReportFailureShownAsSuccess(targetId: string)
    ensures ReportToastsAsWritten(targetId, Fail(None)) == [Success(ReportSuccessMessage)]
    ensures Error(ReportErrorMessage) !in ReportToastsAsWritten(targetId, Fail(None))
  {
  }

  /** The toasts evidently intended: the error message when the report was
      not stored. */
  function ReportToastsIntended(resp: Net<()>): seq<Toast>
  {
    if resp.Ok? then [Success(ReportSuccessMessage)] else [Error(ReportErrorMessage)]
  }

  lemma ReportToastsIntendedClassify(resp: Net<()>)
    ensures ReportToastsIntended(resp) == [Success(ReportSuccessMessage)] <==> resp.Ok?
    ensures ReportToastsIntended(resp) == [Error(ReportErrorMessage)] <==> resp.Fail?
  {
  }

  class PinModal {
    const id: string
    var pin: Option<PinDetail>
    var loading: bool
    var comments: seq<Comment>
    /** the comment draft */
    var newComment: string
    var showReportMenu: bool
    var reportType: ReportType
    var reason: string
    var toasts: seq<Toast>
    /** the pin ids of the `addLike` requests sent */
    var likeRequests: seq<string>
    var commentRequests: seq<CommentRequest>
    var reportRequests: seq<ReportRequest>

    constructor (pinId: string)
      ensures id == pinId && pin == None && loading && comments == [] && newComment == ""
      ensures !showReportMenu && reportType == Spam && reason == ""
      ensures toasts == [] && likeRequests == [] && commentRequests == [] && reportRequests == []
    {
      id := pinId;
      pin := None;
      loading := true;
      comments := [];
      newComment := "";
      showReportMenu := false;
      reportType := Spam;
      reason := "";
      toasts := [];
      likeRequests := [];
      commentRequests := [];
      reportRequests := [];
    }

    /** `fetchPin`, given the reply to `getPinById`'s request: the response
        interceptor sees the reply first (a 401 ends the session); then a pin
        sets the pin and its comments (or []), and null (a failed request)
        clears both. Loading ends either way. */
    method FetchPin(b: Browser.Browser, resp: Net<PinsServices.PinByIdResponse>)
      modifies this, b
      ensures var data := PinsServices.GetPinById(resp);
        !loading && pin == data &&
        (data.Some? && data.value.comments.Some? ==> comments == data.value.comments.value) &&
        (data.Some? && data.value.comments.None? ==> comments == []) &&
        (data.None? ==> comments == [])
      ensures resp.Fail? <==> pin.None?
      ensures b.storage == Api.SessionAfter(old(b.storage), resp)
      ensures b.redirects == Api.RedirectsAfter(old(b.redirects), resp)
      ensures newComment == old(newComment) && showReportMenu == old(showReportMenu)
      ensures reportType == old(reportType) && reason == old(reason) && toasts == old(toasts)
      ensures likeRequests == old(likeRequests) && commentRequests == old(commentRequests)
      ensures reportRequests == old(reportRequests)
    {
      loading := true;
      var settled := Api.Settle(b, true, resp);
      var data := PinsServices.GetPinById(settled);
      if data.Some? {
        pin := data;
        comments := if data.value.comments.Some? then data.value.comments.value else [];
      } else {
        pin := None;
        comments := [];
      }
      loading := false;
    }

    /** `handleLike`: without a pin nothing happens. A like that succeeds adds
        one to `likes` and changes no other field of the pin; a failed one
        leaves the pin as it was and shows a toast. */
    method HandleLike(b: Browser.Browser, outcome: Net<()>)
      modifies this, b
      ensures old(pin).None? ==> b.storage == old(b.storage) && b.redirects == old(b.redirects)
      ensures old(pin).Some? ==> b.storage == Api.SessionAfter(old(b.storage), outcome) &&
                                 b.redirects == Api.RedirectsAfter(old(b.redirects), outcome)
      ensures old(pin).None? ==> pin == old(pin) && toasts == old(toasts) && likeRequests == old(likeRequests)
      ensures old(pin).Some? ==> likeRequests == old(likeRequests) + [old(pin).value.id]
      ensures old(pin).Some? && outcome.Ok? ==>
        pin.Some? && pin.value.likes == old(pin).value.likes + 1 &&
        pin.value == old(pin).value.(likes := pin.value.likes) && toasts == old(toasts)
      ensures old(pin).Some? && outcome.Fail? ==>
        pin == old(pin) && toasts == old(toasts) + [LikeFailureToast(outcome)]
      ensures loading == old(loading) && comments == old(comments) && newComment == old(newComment)
      ensures showReportMenu == old(showReportMenu) && reportType == old(reportType) && reason == old(reason)
      ensures commentRequests == old(commentRequests) && reportRequests == old(reportRequests)
    {
      if pin.None? {
        return;
      }
      var p := pin.value;
      likeRequests := likeRequests + [p.id];
      var settled := Api.Settle(b, true, outcome);
      if outcome.Ok? {
        pin := Some(p.(likes := p.likes + 1));
      } else {
        toasts := toasts + [LikeFailureToast(outcome)];
      }
    }

    /** Typing in the comment box. */
    method SetDraft(text: string)
      modifies this
      ensures newComment == text
      ensures pin == old(pin) && loading == old(loading) && comments == old(comments)
      ensures showReportMenu == old(showReportMenu) && reportType == old(reportType) && reason == old(reason)
      ensures toasts == old(toasts) && likeRequests == old(likeRequests)
      ensures commentRequests == old(commentRequests) && reportRequests == old(reportRequests)
    {
      newComment := text;
    }

    /** `handleAddComment` as written: nothing without a pin or with a blank
        draft. Otherwise the untrimmed draft is sent and the success toast is
        shown; a response appends its comment after the others and clears
        the draft, no response keeps both as they were. */
    method HandleAddComment(b: Browser.Browser, resp: Net<Comment>)
      modifies this, b
      ensures old(pin).None? || IsBlank(old(newComment)) ==>
        b.storage == old(b.storage) && b.redirects == old(b.redirects)
      ensures old(pin).Some? && !IsBlank(old(newComment)) ==>
        b.storage == Api.SessionAfter(old(b.storage), resp) &&
        b.redirects == Api.RedirectsAfter(old(b.redirects), resp)
      ensures old(pin).None? || IsBlank(old(newComment)) ==>
        comments == old(comments) && newComment == old(newComment) &&
        toasts == old(toasts) && commentRequests == old(commentRequests)
      ensures old(pin).Some? && !IsBlank(old(newComment)) ==>
        commentRequests == old(commentRequests) + [CommentRequest(old(pin).value.id, old(newComment))] &&
        toasts == old(toasts) + CommentToastsAsWritten(resp)
      ensures old(pin).Some? && !IsBlank(old(newComment)) && resp.Ok? ==>
        comments == old(comments) + [resp.value] && newComment == ""
      ensures resp.Fail? ==> comments == old(comments) && newComment == old(newComment)
      ensures pin == old(pin) && loading == old(loading)
      ensures showReportMenu == old(showReportMenu) && reportType == old(reportType) && reason == old(reason)
      ensures likeRequests == old(likeRequests) && reportRequests == old(reportRequests)
    {
      if pin.None? || IsBlank(newComment) {
        return;
      }
      commentRequests := commentRequests + [CommentRequest(pin.value.id, newComment)];
      var settled := Api.Settle(b, true, resp);
      var res := PinsServices.AddComment(settled);
      toasts := toasts + [Success(CommentSuccessMessage)];
      if res.None? {
        return;
      }
      comments := comments + [res.value];
      newComment := "";
    }

    /** `handleAddComment` with a service that rejects on failure, as the
        catch evidently expects: the success toast only for a stored comment,
        and the limit or generic message otherwise, with the draft kept. */
    method HandleAddCommentIntended(b: Browser.Browser, resp: Net<Comment>)
      modifies this, b
      ensures old(pin).None? || IsBlank(old(newComment)) ==>
        b.storage == old(b.storage) && b.redirects == old(b.redirects)
      ensures old(pin).Some? && !IsBlank(old(newComment)) ==>
        b.storage == Api.SessionAfter(old(b.storage), resp) &&
        b.redirects == Api.RedirectsAfter(old(b.redirects), resp)
      ensures old(pin).None? || IsBlank(old(newComment)) ==>
        comments == old(comments) && newComment == old(newComment) &&
        toasts == old(toasts) && commentRequests == old(commentRequests)
      ensures old(pin).Some? && !IsBlank(old(newComment)) ==>
        commentRequests == old(commentRequests) + [CommentRequest(old(pin).value.id, old(newComment))] &&
        toasts == old(toasts) + CommentToastsIntended(resp)
      ensures old(pin).Some? && !IsBlank(old(newComment)) && resp.Ok? ==>
        comments == old(comments) + [resp.value] && newComment == ""
      ensures resp.Fail? ==> comments == old(comments) && newComment == old(newComment)
      ensures pin == old(pin) && loading == old(loading)
      ensures showReportMenu == old(showReportMenu) && reportType == old(reportType) && reason == old(reason)
      ensures likeRequests == old(likeRequests) && reportRequests == old(reportRequests)
    {
      if pin.None? || IsBlank(newComment) {
        return;
      }
      commentRequests := commentRequests + [CommentRequest(pin.value.id, newComment)];
      var settled := Api.Settle(b, true, resp);
      toasts := toasts + CommentToastsIntended(resp);
      if resp.Ok? {
        comments := comments + [resp.value];
        newComment := "";
      }
    }

    /** Opening or closing the report menu. */
    method SetReportMenu(open: bool)
      modifies this
      ensures showReportMenu == open
      ensures pin == old(pin) && loading == old(loading) && comments == old(comments)
      ensures newComment == old(newComment) && reportType == old(reportType) && reason == old(reason)
      ensures toasts == old(toasts) && likeRequests == old(likeRequests)
      ensures commentRequests == old(commentRequests) && reportRequests == old(reportRequests)
    {
      showReportMenu := open;
    }

    /** Choosing the report type and typing the reason. */
    method SetReport(kind: ReportType, text: string)
      modifies this
      ensures reportType == kind && reason == text
      ensures pin == old(pin) && loading == old(loading) && comments == old(comments)
      ensures newComment == old(newComment) && showReportMenu == old(showReportMenu)
      ensures toasts == old(toasts) && likeRequests == old(likeRequests)
      ensures commentRequests == old(commentRequests) && reportRequests == old(reportRequests)
    {
      reportType := kind;
      reason := text;
    }

    /** `handleReport` as written: nothing without a pin. Otherwise the report
        is sent (unless the pin id is empty), the success toast is shown, the
        menu is closed and the reason cleared, whatever the outcome. */
    method HandleReport(b: Browser.Browser, resp: Net<()>)
      modifies this, b
      ensures old(pin).None? || old(pin).value.id == "" ==>
        b.storage == old(b.storage) && b.redirects == old(b.redirects)
      ensures old(pin).Some? && old(pin).value.id != "" ==>
        b.storage == Api.SessionAfter(old(b.storage), resp) &&
        b.redirects == Api.RedirectsAfter(old(b.redirects), resp)
      ensures old(pin).None? ==>
        showReportMenu == old(showReportMenu) && reason == old(reason) &&
        toasts == old(toasts) && reportRequests == old(reportRequests)
      ensures old(pin).Some? ==>
        !showReportMenu && reason == "" &&
        toasts == old(toasts) + ReportToastsAsWritten(old(pin).value.id, resp)
      ensures old(pin).Some? && old(pin).value.id != "" ==>
        reportRequests == old(reportRequests) + [ReportRequest("pin", old(pin).value.id, old(reportType), old(reason))]
      ensures old(pin).Some? && old(pin).value.id == "" ==> reportRequests == old(reportRequests)
      ensures pin == old(pin) && loading == old(loading) && comments == old(comments)
      ensures newComment == old(newComment) && reportType == old(reportType)
      ensures likeRequests == old(likeRequests) && commentRequests == old(commentRequests)
    {
      if pin.None? {
        return;
      }
      var call := PinsServices.ReportTarget(pin.value.id, resp);
      if call.sent {
        var settled := Api.Settle(b, true, resp);
        reportRequests := reportRequests + [ReportRequest("pin", pin.value.id, reportType, reason)];
      }
      toasts := toasts + [Success(ReportSuccessMessage)];
      showReportMenu := false;
      reason := "";
    }

    /** `handleReport` with a service that rejects on failure: a failed
        report shows the error toast and keeps the menu and the reason. */
    method HandleReportIntended(b: Browser.Browser, resp: Net<()>)
      modifies this, b
      ensures old(pin).None? || old(pin).value.id == "" ==>
        b.storage == old(b.storage) && b.redirects == old(b.redirects)
      ensures old(pin).Some? && old(pin).value.id != "" ==>
        b.storage == Api.SessionAfter(old(b.storage), resp) &&
        b.redirects == Api.RedirectsAfter(old(b.redirects), resp)
      ensures old(pin).None? ==>
        showReportMenu == old(showReportMenu) && reason == old(reason) &&
        toasts == old(toasts) && reportRequests == old(reportRequests)
      ensures old(pin).Some? ==> toasts == old(toasts) + ReportToastsIntended(resp)
      ensures old(pin).Some? && resp.Ok? ==> !showReportMenu && reason == ""
      ensures resp.Fail? ==> showReportMenu == old(showReportMenu) && reason == old(reason)
      ensures old(pin).Some? && old(pin).value.id != "" ==>
        reportRequests == old(reportRequests) + [ReportRequest("pin", old(pin).value.id, old(reportType), old(reason))]
      ensures old(pin).Some? && old(pin).value.id == "" ==> reportRequests == old(reportRequests)
      ensures pin == old(pin) && loading == old(loading) && comments == old(comments)
      ensures newComment == old(newComment) && reportType == old(reportType)
      ensures likeRequests == old(likeRequests) && commentRequests == old(commentRequests)
    {
      if pin.None? {
        return;
      }
      if pin.value.id != "" {
        var settled := Api.Settle(b, true, resp);
        reportRequests := reportRequests + [ReportRequest("pin", pin.value.id, reportType, reason)];
      }
      toasts := toasts + ReportToastsIntended(resp);
      if resp.Ok? {
        showReportMenu := false;
        reason := "";
      }
    }
  }
}
