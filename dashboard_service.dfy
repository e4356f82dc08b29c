/** The dashboard service: the backend shapes of pins, subscriptions and
    payments, the `toUIPost` adapter, and the fallbacks of the fetchers.
    Its axios instance has the same base URL and request interceptor as the
    shared one (`Api.BaseUrl`, `Api.DecorateRequest`) and no response
    interceptor. */
module DashboardService {
  import opened Base

  const Untitled := "Untitled"

  datatype BackendHashtag = BackendHashtag(id: string, tag: string)

  /** A pin as the backend sends it; the counters are `None` when they are
      not numbers. */
  datatype BackendPin = BackendPin(id: string, image: string, description: Option<string>,
                                   likesCount: Option<int>, viewsCount: Option<int>, createdAt: string,
                                   hashtags: Option<seq<BackendHashtag>>)

  datatype Stats = Stats(likes: int, views: int)

  datatype UIPost = UIPost(id: string, title: string, imageUrl: string, stats: Stats,
                           createdAt: string, tags: seq<string>)

  /** The tag strings of the hashtags, in order. */
  function TagsOf(hs: seq<BackendHashtag>): (r: seq<string>)
    ensures |r| == |hs|
    ensures forall k :: 0 <= k < |hs| ==> r[k] == hs[k].tag
  {
    if |hs| == 0 then [] else [hs[0].tag] + TagsOf(hs[1..])
  }

  /** `toUIPost`: the description is the title ("Untitled" when it is missing
      or empty), counters that are not numbers become 0, and the tags are the
      non-empty hashtag strings. */
  function ToUIPost(p: BackendPin): (r: UIPost)
    ensures r.id == p.id && r.imageUrl == p.image && r.createdAt == p.createdAt
    ensures Present(p.description) ==> r.title == p.description.value
    ensures !Present(p.description) ==> r.title == Untitled
    ensures r.stats.likes == p.likesCount.GetOr(0) && r.stats.views == p.viewsCount.GetOr(0)
    ensures p.hashtags.None? ==> r.tags == []
    ensures p.hashtags.Some? ==> r.tags == NonEmpty(TagsOf(p.hashtags.value))
  {
    UIPost(p.id, if Present(p.description) then p.description.value else Untitled, p.image,
           Stats(p.likesCount.GetOr(0), p.viewsCount.GetOr(0)), p.createdAt,
           if p.hashtags.Some? then NonEmpty(TagsOf(p.hashtags.value)) else [])
  }

  /** The tags of a post are the non-empty tags the pin carries, in order:
      none is empty and each is the tag of one of the hashtags. */
  lemma ToUIPostTags(p: BackendPin)
    ensures forall k :: 0 <= k < |ToUIPost(p).tags| ==>
      ToUIPost(p).tags[k] != "" &&
      exists j :: 0 <= j < |p.hashtags.value| && p.hashtags.value[j].tag == ToUIPost(p).tags[k]
  {
    if p.hashtags.Some? {
      var all := TagsOf(p.hashtags.value);
      NonEmptyFilters(all);
      forall k | 0 <= k < |ToUIPost(p).tags|
        ensures exists j :: 0 <= j < |p.hashtags.value| && p.hashtags.value[j].tag == ToUIPost(p).tags[k]
      {
        var t := ToUIPost(p).tags[k];
        assert t in all;
        var j :| 0 <= j < |all| && all[j] == t;
        assert p.hashtags.value[j].tag == t;
      }
    }
  }

  /** `(data ?? []).map(toUIPost)` */
  function ToUIPosts(pins: seq<BackendPin>): (r: seq<UIPost>)
    ensures |r| == |pins|
    ensures forall k :: 0 <= k < |pins| ==> r[k] == ToUIPost(pins[k])
  {
    if |pins| == 0 then [] else [ToUIPost(pins[0])] + ToUIPosts(pins[1..])
  }

  /** `fetchUserPins` and `fetchUserLikedPins`: one post per pin in the same
      order, none for a null body; a failed request is rejected. */
  function FetchPosts(resp: Net<Option<seq<BackendPin>>>): (r: Net<seq<UIPost>>)
    ensures resp.Fail? ==> r == Fail(resp.status)
    ensures resp.Ok? && resp.value.None? ==> r == Ok([])
    ensures resp.Ok? && resp.value.Some? ==> r == Ok(ToUIPosts(resp.value.value))
  {
    match resp
    case Fail(s) => Fail(s)
    case Ok(data) => Ok(if data.Some? then ToUIPosts(data.value) else [])
  }

  /** `plan` of the status response: a string, an object, or nothing. */
  datatype PlanFeatures = NoFeatures | FeatureList(items: seq<string>) | FeatureText(text: string)
  datatype PlanLike = NoPlan | PlanName(name: string) | PlanObject(kind: Option<string>, features: PlanFeatures)

  datatype Benefits = Benefits(name: Option<string>, features: Option<seq<string>>)

  datatype SubStatusResponse = SubStatusResponse(success: bool, hasActivePayment: bool, plan: PlanLike,
                                                 status: Option<string>, endsAt: Option<string>,
                                                 benefits: Option<Benefits>)

  datatype PaymentId = NumericId(n: int) | TextId(s: string)

  /** A row of the payment history; `usdPrice` is `None` when it is not a
      number. */
  datatype PaymentHistoryItem = PaymentHistoryItem(id: PaymentId, paymentId: string, date: string, plan: string,
                                                   description: string, status: string, usdPrice: Option<real>,
                                                   startsAt: string, endsAt: string, isActive: bool)

  datatype PaymentHistoryResponse = PaymentHistoryResponse(success: bool, history: Option<seq<PaymentHistoryItem>>)

  /** `fetchSubscriptionStatus`: the body, or null on a failure or an empty
      body. */
  function FetchSubscriptionStatus(resp: Net<Option<SubStatusResponse>>): (r: Option<SubStatusResponse>)
    ensures resp.Fail? ==> r == None
    ensures resp.Ok? ==> r == resp.value
  {
    if resp.Ok? then resp.value else None
  }

  /** `fetchPaymentHistory`: the history of the body, or [] on a failure, an
      empty body or a body without history. */
  function FetchPaymentHistory(resp: Net<Option<PaymentHistoryResponse>>): (r: seq<PaymentHistoryItem>)
    ensures resp.Fail? || resp.value.None? || resp.value.value.history.None? ==> r == []
    ensures resp.Ok? && resp.value.Some? && resp.value.value.history.Some? ==> r == resp.value.value.history.value
  {
    if resp.Ok? && resp.value.Some? && resp.value.value.history.Some? then resp.value.value.history.value else []
  }
}
