/** The pin service: the token lookup, the response mappers with their
    defaults, and the error fallbacks of the request wrappers. Each HTTP
    call is a `Net` parameter: the body it resolved with, or a rejection. */
module PinsServices {
  import opened Base
  import opened PinTypes
  import Api

  const LocalTokenKey := "auth:token"
  const CookieTokenKey := "auth-token"

  /** `getAuthToken`: the localStorage token when it is non-empty, else the
      cookie token when it is non-empty, else nothing. */
  function GetAuthToken(localToken: Option<string>, cookieToken: Option<string>): (r: Option<string>)
    ensures r == None <==> !Present(localToken) && !Present(cookieToken)
    ensures r.Some? ==> r.value != "" && (r == localToken || r == cookieToken)
    ensures Present(localToken) ==> r == localToken
  {
    if Present(localToken) then localToken
    else if Present(cookieToken) then cookieToken
    else None
  }

  /** The `Authorization` header `addLike`, `fetchLikeStatus` and `addComment`
      set before the request interceptor runs: the template literal prints a
      missing token as "null", and the request goes out either way. */
  function BearerHeader(token: Option<string>): (r: string)
    ensures StartsWith(r, "Bearer ")
    ensures token.Some? ==> r[7..] == token.value
    ensures token.None? ==> r[7..] == "null"
  {
    "Bearer " + (if token.Some? then token.value else "null")
  }

  /** The `Authorization` header such a request carries once the shared
      api's request interceptor has seen it: in a browser with a token under
      one of the interceptor's keys that token replaces the service's own;
      otherwise the service's header goes out as set. */
  function SentAuthorization(hasWindow: bool, storage: map<string, string>, token: Option<string>): (r: string)
    ensures hasWindow && Api.PickToken(storage).Some? ==> r == "Bearer " + Api.PickToken(storage).value
    ensures !(hasWindow && Api.PickToken(storage).Some?) ==> r == BearerHeader(token)
  {
    var headers := Api.DecorateRequest(hasWindow, storage, map["Authorization" := BearerHeader(token)]);
    headers["Authorization"]
  }

  // ---------------------------------------------------------------------------
  // getAllPins, searchPins, getCategories

  /** The pin `getAllPins` builds from one element of `GET /pins`: every field
      it copies, with a missing hashtag list replaced by []; `likes` and
      `comment` are not copied. */
  function ListedPin(p: Pin): Pin
  {
    Pin(p.id, p.image, p.description, p.views, p.user, None, p.likesCount,
        p.liked, p.commentsCount, None, Some(if p.hashtag.Some? then p.hashtag.value else []))
  }

  /** The fields `getAllPins` copies are equal in `a` and `b`. */
  predicate SameListing(a: Pin, b: Pin)
  {
    a.id == b.id && a.image == b.image && a.description == b.description &&
    a.likesCount == b.likesCount && a.liked == b.liked &&
    a.commentsCount == b.commentsCount && a.views == b.views && a.user == b.user
  }

  /** `getAllPins`: one pin per element, in order, with the hashtag list
      defaulted to []; a failed request gives []. */
  function GetAllPins(resp: Net<seq<Pin>>): (r: seq<Pin>)
    ensures resp.Fail? ==> r == []
    ensures resp.Ok? ==> |r| == |resp.value|
    ensures resp.Ok? ==> forall i :: 0 <= i < |r| ==>
      SameListing(r[i], resp.value[i]) && r[i].hashtag.Some? &&
      (resp.value[i].hashtag.Some? ==> r[i].hashtag == resp.value[i].hashtag) &&
      (resp.value[i].hashtag.None? ==> r[i].hashtag == Some([]))
  {
    match resp
    case Fail(_) => []
    case Ok(data) => seq(|data|, i requires 0 <= i < |data| => ListedPin(data[i]))
  }

  /** `searchPins` and `getCategories`: the body, or [] when the request fails. */
  function ListOrEmpty<T>(resp: Net<seq<T>>): (r: seq<T>)
    ensures resp.Fail? ==> r == []
    ensures resp.Ok? ==> r == resp.value
  {
    if resp.Ok? then resp.value else []
  }

  // ---------------------------------------------------------------------------
  // getPinById

  /** The body of `GET /pins/:id`. */
  datatype PinByIdResponse = PinByIdResponse(
    id: string,
    image: string,
    description: Option<string>,
    likes: Option<int>,
    comment: Option<int>,
    name: string,
    views: Option<int>,
    created: Option<string>,
    comments: Option<seq<Comment>>,
    hashtag: Option<seq<Hashtag>>,
    user: string)

  /** `getPinById`: the detail with likes, comment and views defaulted to 0
      and description and created to null; null when the request fails. */
  function GetPinById(resp: Net<PinByIdResponse>): (r: Option<PinDetail>)
    ensures r.None? <==> resp.Fail?
    ensures resp.Ok? ==> var d := resp.value; var p := r.value;
      p.id == d.id && p.name == d.name && p.image == d.image && p.user == d.user &&
      p.description == d.description && p.created == d.created &&
      p.comments == d.comments && p.hashtag == d.hashtag &&
      p.likes == d.likes.GetOr(0) && p.comment == d.comment.GetOr(0) && p.views == d.views.GetOr(0)
  {
    match resp
    case Fail(_) => None
    case Ok(d) =>
      Some(PinDetail(d.id, d.name, d.image, d.description, d.likes.GetOr(0), d.comment.GetOr(0),
                     d.views.GetOr(0), d.created, d.comments, d.hashtag, d.user))
  }

  // ---------------------------------------------------------------------------
  // addComment, reportTarget

  /** `addComment`: the response when the request succeeds; a failure is
      logged and the promise resolves with undefined instead of rejecting. */
  function AddComment(resp: Net<Comment>): (r: Option<Comment>)
    ensures r.Some? <==> resp.Ok?
    ensures resp.Ok? ==> r.value == resp.value
  {
    if resp.Ok? then Some(resp.value) else None
  }

  /** What a call to `reportTarget` did: whether it sent the request, and
      what it resolved with (null for "nothing"). */
  datatype ReportCall<R> = ReportCall(sent: bool, response: Option<R>)

  /** `reportTarget`: no request for an empty target id; otherwise the
      response, or null when the request fails. It never rejects. */
  function ReportTarget<R>(targetId: string, resp: Net<R>): (r: ReportCall<R>)
    ensures r.sent <==> targetId != ""
    ensures r.response.Some? <==> targetId != "" && resp.Ok?
    ensures r.response.Some? ==> r.response.value == resp.value
  {
    if targetId == "" then ReportCall(false, None)
    else ReportCall(true, if resp.Ok? then Some(resp.value) else None)
  }

  // ---------------------------------------------------------------------------
  // explainAxiosError

  /** The body of an error response: a string, or any other value together
      with its `JSON.stringify` text. */
  datatype Body = TextBody(text: string) | OtherBody(json: string)

  function BodyText(b: Body): string
  {
    match b
    case TextBody(t) => t
    case OtherBody(j) => j
  }

  function StatusLabel(status: Option<int>): string
  {
    if status.Some? then IntToString(status.value) else "?"
  }

  /** Everything `explainAxiosError` writes before the body. */
  function ExplainHead(status: Option<int>, statusText: Option<string>): string
  {
    "HTTP " + StatusLabel(status) + " " + statusText.GetOr("") + " :: "
  }

  /** `explainAxiosError`: "HTTP <status or ?> <statusText or empty> :: <body>". */
  function ExplainAxiosError(status: Option<int>, statusText: Option<string>, body: Body): string
  {
    ExplainHead(status, statusText) + BodyText(body)
  }

  /** The status can be read back from the explanation: the digits after
      "HTTP " parse back to it and a blank ends them; a missing status
      reads "?". */
  lemma ExplainStatusReadsBack(status: Option<int>, statusText: Option<string>, body: Body)
    ensures var r := ExplainAxiosError(status, statusText, body);
      StartsWith(r, "HTTP ") &&
      (status.None? ==> r[5] == '?' && r[6] == ' ') &&
      (status.Some? && status.value >= 0 ==>
         var n := |NatToString(status.value)|;
         5 + n < |r| && DigitsValue(r[5..5 + n]) == status.value && r[5 + n] == ' ')
  {
    var rest := " " + statusText.GetOr("") + " :: " + BodyText(body);
    var r := ExplainAxiosError(status, statusText, body);
    assert r == "HTTP " + StatusLabel(status) + rest;
    if status.Some? && status.value >= 0 {
      var d := NatToString(status.value);
      NatToStringRoundTrip(status.value);
      assert r[5..5 + |d|] == d;
    }
  }

  /** A string body is the tail of the explanation, untouched. */
  lemma ExplainBodyIsTail(status: Option<int>, statusText: Option<string>, text: string)
    ensures var r := ExplainAxiosError(status, statusText, TextBody(text));
      |text| <= |r| && r[|r| - |text|..] == text
  {
    var head := ExplainHead(status, statusText);
    assert (head + text)[|head|..] == text;
  }
}
