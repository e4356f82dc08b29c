/** The user dashboard: how the subscription and the payments are read from
    the backend answers, how the profile is assembled when the page loads
    (or replaced by a fallback when a request fails), and the avatar update. */
module DashboardView {
  import opened Base
  import opened UiTypes
  import DS = DashboardService
  import Browser

  const NoticeKey := "fallback_notice_dismissed"
  const CardMethod := "CARD"

  // ---------------------------------------------------------------------------
  // mapStatusToUISubscription

  /** The string the plan is classified from: a non-empty string plan, else
      a non-empty `type` of a plan object, else the lower-cased description
      of the latest payment (or ""). Only the last one is lower-cased. */
  function RawType(status: Option<DS.SubStatusResponse>, history: seq<DS.PaymentHistoryItem>): (r: string)
    ensures status.Some? && status.value.plan.PlanName? && status.value.plan.name != "" ==>
      r == status.value.plan.name
    ensures status.Some? && status.value.plan.PlanObject? && Present(status.value.plan.kind) ==>
      r == status.value.plan.kind.value
    ensures (status.None? || status.value.plan.NoPlan? ||
             (status.value.plan.PlanName? && status.value.plan.name == "") ||
             (status.value.plan.PlanObject? && !Present(status.value.plan.kind))) ==>
      r == (if |history| > 0 then Lower(history[0].description) else "")
  {
    if status.Some? && status.value.plan.PlanName? && status.value.plan.name != "" then status.value.plan.name
    else if status.Some? && status.value.plan.PlanObject? && Present(status.value.plan.kind) then status.value.plan.kind.value
    else if |history| > 0 then Lower(history[0].description)
    else ""
  }

  /** "annual" makes a Business plan, else "monthly" a Pro plan; anything
      else (including "free") is Free. */
  function Classify(raw: string): (r: UIPlan)
    ensures r == Business <==> Contains(raw, "annual")
    ensures r == Pro <==> !Contains(raw, "annual") && Contains(raw, "monthly")
    ensures r == Free <==> !Contains(raw, "annual") && !Contains(raw, "monthly")
  {
    if Contains(raw, "annual") then Business
    else if Contains(raw, "monthly") then Pro
    else Free
  }

  /** The feature list of the response: the array of a plan object as it is,
      the comma-separated text of a plan object trimmed and without empty
      items, otherwise the features of the benefits (or none). */
  function FeaturesFrom(status: Option<DS.SubStatusResponse>): (r: seq<string>)
    ensures status.Some? && status.value.plan.PlanObject? && status.value.plan.features.FeatureList? ==>
      r == status.value.plan.features.items
    ensures status.Some? && status.value.plan.PlanObject? && status.value.plan.features.FeatureText? ==>
      r == Clean(Split(status.value.plan.features.text, {','}))
    ensures status.Some? && status.value.plan.PlanObject? && status.value.plan.features.NoFeatures? ==> r == []
    ensures status.None? || !status.value.plan.PlanObject? ==>
      r == (if status.Some? && status.value.benefits.Some? && status.value.benefits.value.features.Some?
            then status.value.benefits.value.features.value else [])
  {
    if status.Some? && status.value.plan.PlanObject? then
      match status.value.plan.features
      case FeatureList(items) => items
      case FeatureText(text) => Clean(Split(text, {','}))
      case NoFeatures => []
    else if status.Some? && status.value.benefits.Some? && status.value.benefits.value.features.Some? then
      status.value.benefits.value.features.value
    else []
  }

  /** Features given as text come out trimmed and non-empty. */
  lemma FeatureTextClean(text: string)
    ensures forall k :: 0 <= k < |Clean(Split(text, {','}))| ==>
      Clean(Split(text, {','}))[k] != "" && Clean(Split(text, {','}))[k] in TrimAll(Split(text, {','}))
  {
    NonEmptyFilters(TrimAll(Split(text, {','})));
  }

  /** The monthly price: the latest payment's `usdPrice` when it is a
      number, else 10 for Pro, 100 for Business and 0 otherwise. */
  function PriceFor(plan: UIPlan, history: seq<DS.PaymentHistoryItem>): (r: real)
    ensures |history| > 0 && history[0].usdPrice.Some? ==> r == history[0].usdPrice.value
    ensures !(|history| > 0 && history[0].usdPrice.Some?) ==>
      r == (if plan == Pro then 10.0 else if plan == Business then 100.0 else 0.0)
  {
    if |history| > 0 && history[0].usdPrice.Some? then history[0].usdPrice.value
    else if plan == Pro then 10.0
    else if plan == Business then 100.0
    else 0.0
  }

  /** `mapStatusToUISubscription`; `now` stands for `new Date().toISOString()`. */
  function MapStatusToUISubscription(status: Option<DS.SubStatusResponse>, history: seq<DS.PaymentHistoryItem>,
                                     now: string): (r: UISubscription)
    ensures r.plan == Classify(RawType(status, history)) && r.plan != Plus
    ensures r.status == Active <==> (status.Some? && status.value.hasActivePayment) || r.plan == Free
    ensures r.status != Active ==> r.status == PastDue
    ensures r.startedAt == (if |history| > 0 then history[0].startsAt else now)
    ensures status.Some? && status.value.hasActivePayment ==> r.renewsAt == status.value.endsAt
    ensures !(status.Some? && status.value.hasActivePayment) ==> r.renewsAt == None
    ensures r.pricePerMonth == PriceFor(r.plan, history) && r.currency == Usd
    ensures |r.features| > 0
    ensures |FeaturesFrom(status)| > 0 ==> r.features == FeaturesFrom(status)
    ensures |FeaturesFrom(status)| == 0 ==> r.features == DefaultFeatures
  {
    var plan := Classify(RawType(status, history));
    var active := status.Some? && status.value.hasActivePayment;
    var features := FeaturesFrom(status);
    UISubscription(plan,
                   if active then Active else if plan == Free then Active else PastDue,
                   if |history| > 0 then history[0].startsAt else now,
                   if active then status.value.endsAt else None,
                   PriceFor(plan, history),
                   Usd,
                   if |features| > 0 then features else DefaultFeatures)
  }

  /** With no status and no history the subscription is the free one. */
  lemma NothingKnownIsFree(now: string)
    ensures MapStatusToUISubscription(None, [], now) == FreeSubscription(now)
  {
    assert !Contains("", "annual") && !Contains("", "monthly");
  }

  // ---------------------------------------------------------------------------
  // mapHistoryToUIPayments

  /** `String(p.id)` */
  function IdText(id: DS.PaymentId): string
  {
    match id
    case NumericId(n) => IntToString(n)
    case TextId(s) => s
  }

  /** One payment row. */
  function PaymentOf(p: DS.PaymentHistoryItem): (r: UIPayment)
    ensures r.id == IdText(p.id) && r.date == p.date && r.description == p.description
    ensures r.payMethod == CardMethod && r.status == p.status && r.amount == p.usdPrice && r.currency == Usd
  {
    UIPayment(IdText(p.id), p.date, p.description, CardMethod, p.status, p.usdPrice, Usd)
  }

  /** `mapHistoryToUIPayments`: one row per payment, in order. */
  function MapHistoryToUIPayments(history: seq<DS.PaymentHistoryItem>): (r: seq<UIPayment>)
    ensures |r| == |history|
    ensures forall k :: 0 <= k < |history| ==> r[k] == PaymentOf(history[k])
  {
    if |history| == 0 then [] else [PaymentOf(history[0])] + MapHistoryToUIPayments(history[1..])
  }

  /** A numeric id is read back from its row. */
  lemma PaymentIdReadsBack(p: DS.PaymentHistoryItem)
    requires p.id.NumericId? && p.id.n >= 0
    ensures DigitsValue(PaymentOf(p).id) == p.id.n
  {
    NatToStringRoundTrip(p.id.n);
  }

  // ---------------------------------------------------------------------------
  // uiPostToUI and the profile

  /** `uiPostToUI`: the post as the grid shows it, every field carried over. */
  function UiPostToUI(p: DS.UIPost): (r: Post)
    ensures r.id == p.id && r.title == p.title && r.imageUrl == p.imageUrl
    ensures r.likes == p.stats.likes && r.views == p.stats.views
    ensures r.createdAt == p.createdAt && r.tags == p.tags
  {
    Post(p.id, p.title, p.imageUrl, p.stats.likes, p.stats.views, p.createdAt, p.tags)
  }

  function UiPostsToUI(ps: seq<DS.UIPost>): (r: seq<Post>)
    ensures |r| == |ps|
    ensures forall k :: 0 <= k < |ps| ==> r[k] == UiPostToUI(ps[k])
  {
    if |ps| == 0 then [] else [UiPostToUI(ps[0])] + UiPostsToUI(ps[1..])
  }

  /** A user as `/users/:id` returns it; every field but the id may be null.
      `createdAt` is held as `toIsoStringSafe` converts it: `None` when it is
      missing or is not a date. */
  datatype BackendUser = BackendUser(id: string, name: Option<string>, username: Option<string>,
                                     email: Option<string>, profilePicture: Option<string>,
                                     biography: Option<string>, pinsCount: Option<int>,
                                     createdAt: Option<string>)

  function FirstOf(a: Option<string>, b: Option<string>, default: string): string
  {
    if a.Some? then a.value else if b.Some? then b.value else default
  }

  /** The profile built from the backend user, when there is one, and the
      session's id, name and e-mail; the join date is the backend user's
      converted creation date, and "" without one. */
  function BaseUser(backend: Option<BackendUser>, id: string, name: Option<string>, email: Option<string>,
                    now: string): (r: UserProfile)
    ensures backend.None? ==>
      r == UserProfile(id, FirstOf(name, email, ""), None, email.GetOr(""), "", Some(""), "", 0,
                       FreeSubscription(now), [])
    ensures backend.Some? ==>
      var u := backend.value;
      r.id == u.id && r.name == FirstOf(u.name, name, FirstOf(email, None, "")) &&
      r.username == u.username && r.email == FirstOf(u.email, email, "") &&
      r.avatar == u.profilePicture.GetOr("") && r.bio == Some(u.biography.GetOr("")) &&
      r.joinDate == u.createdAt.GetOr("") && r.postsCount == u.pinsCount.GetOr(0) &&
      r.subscription == FreeSubscription(now) && r.payments == []
  {
    if backend.None? then
      UserProfile(id, FirstOf(name, email, ""), None, email.GetOr(""), "", Some(""), "", 0,
                  FreeSubscription(now), [])
    else
      var u := backend.value;
      UserProfile(u.id, FirstOf(u.name, name, FirstOf(email, None, "")), u.username, FirstOf(u.email, email, ""),
                  u.profilePicture.GetOr(""), Some(u.biography.GetOr("")), u.createdAt.GetOr(""), u.pinsCount.GetOr(0),
                  FreeSubscription(now), [])
  }

  /** The profile of the `catch`: the session's data and a free plan. */
  function FallbackUser(id: string, name: Option<string>, email: Option<string>, now: string): UserProfile
  {
    UserProfile(id, FirstOf(name, email, ""), None, email.GetOr(""), "", Some(""), now, 0, FreeSubscription(now), [])
  }

  /** The result of the storage upload of an avatar. */
  datatype UploadedImage = UploadedImage(secureUrl: Option<string>, publicId: string)

  /** The avatar after an update: the saved `profilePicture`, else the
      uploaded image's URL, else the previous avatar. */
  function NewAvatar(previous: string, uploaded: UploadedImage, updated: BackendUser): (r: string)
    ensures updated.profilePicture.Some? ==> r == updated.profilePicture.value
    ensures updated.profilePicture.None? && uploaded.secureUrl.Some? ==> r == uploaded.secureUrl.value
    ensures updated.profilePicture.None? && uploaded.secureUrl.None? ==> r == previous
  {
    updated.profilePicture.GetOr(uploaded.secureUrl.GetOr(previous))
  }

  // ---------------------------------------------------------------------------
  // the view

  /** The answers of the requests the loading effect makes. */
  datatype LoadAnswers = LoadAnswers(
    userResp: Net<Option<BackendUser>>,
    pins: Net<Option<seq<DS.BackendPin>>>,
    likedPins: Net<Option<seq<DS.BackendPin>>>,
    status: Net<Option<DS.SubStatusResponse>>,
    history: Net<Option<DS.PaymentHistoryResponse>>)
  {
    /** A request whose failure sends the effect to its `catch`. */
    predicate Throws()
    {
      userResp.Fail? || DS.FetchPosts(pins).Fail? || DS.FetchPosts(likedPins).Fail?
    }
  }

  /** The profile a successful load shows: the base user with the number of
      own posts, the subscription and the payments. */
  function LoadedUser(a: LoadAnswers, id: string, name: Option<string>, email: Option<string>, now: string): (r: UserProfile)
    requires !a.Throws()
    ensures r.postsCount == |DS.FetchPosts(a.pins).value|
    ensures r.payments == MapHistoryToUIPayments(DS.FetchPaymentHistory(a.history))
    ensures r.subscription == MapStatusToUISubscription(DS.FetchSubscriptionStatus(a.status),
                                                        DS.FetchPaymentHistory(a.history), now)
    ensures r == BaseUser(a.userResp.value, id, name, email, now).(
      postsCount := r.postsCount, subscription := r.subscription, payments := r.payments)
  {
    var history := DS.FetchPaymentHistory(a.history);
    BaseUser(a.userResp.value, id, name, email, now).(
      postsCount := |DS.FetchPosts(a.pins).value|,
      subscription := MapStatusToUISubscription(DS.FetchSubscriptionStatus(a.status), history, now),
      payments := MapHistoryToUIPayments(history))
  }

  class Dashboard {
    const browser: Browser.Browser
    var user: Option<UserProfile>
    var posts: seq<Post>
    var liked: seq<Post>
    var showNotice: bool

    constructor (b: Browser.Browser)
      ensures browser == b && user == None && posts == [] && liked == [] && !showNotice
    {
      browser := b;
      user := None;
      posts := [];
      liked := [];
      showNotice := false;
    }

    /** The loading effect. It waits for the session to be hydrated, signed
        in and to have an id. A failing user, pins or liked-pins request
        shows the fallback profile with no posts, and the notice unless it
        was dismissed before. */
    method Load(isHydrated: bool, isAuthenticated: bool, id: Option<string>, name: Option<string>,
                email: Option<string>, a: LoadAnswers, now: string)
      modifies this
      ensures !isHydrated || !isAuthenticated || !Present(id) ==>
        user == old(user) && posts == old(posts) && liked == old(liked) && showNotice == old(showNotice)
      ensures isHydrated && isAuthenticated && Present(id) && !a.Throws() ==>
        user == Some(LoadedUser(a, id.value, name, email, now)) &&
        posts == UiPostsToUI(DS.FetchPosts(a.pins).value) &&
        liked == UiPostsToUI(DS.FetchPosts(a.likedPins).value) &&
        showNotice == old(showNotice)
      ensures isHydrated && isAuthenticated && Present(id) && a.Throws() ==>
        user == Some(FallbackUser(id.value, name, email, now)) && posts == [] && liked == [] &&
        showNotice == (old(showNotice) || browser.GetItem(NoticeKey) != Some("1"))
    {
      if !isHydrated || !isAuthenticated || !Present(id) {
        return;
      }
      if a.Throws() {
        user := Some(FallbackUser(id.value, name, email, now));
        posts := [];
        liked := [];
        var dismissed := browser.GetItem(NoticeKey) == Some("1");
        if !dismissed {
          showNotice := true;
        }
        return;
      }
      var own := UiPostsToUI(DS.FetchPosts(a.pins).value);
      var likes := UiPostsToUI(DS.FetchPosts(a.likedPins).value);
      user := Some(LoadedUser(a, id.value, name, email, now));
      posts := own;
      liked := likes;
    }

    /** `handleSaveAvatar`: once the signature, the upload and the save have
        all answered, the avatar of the shown profile is replaced; any
        failure leaves it. */
    method SaveAvatar(sig: Net<()>, upload: Net<UploadedImage>, updated: Net<BackendUser>)
      modifies this
      ensures sig.Ok? && upload.Ok? && updated.Ok? && old(user).Some? ==>
        user == Some(old(user).value.(avatar := NewAvatar(old(user).value.avatar, upload.value, updated.value)))
      ensures !(sig.Ok? && upload.Ok? && updated.Ok? && old(user).Some?) ==> user == old(user)
      ensures posts == old(posts) && liked == old(liked) && showNotice == old(showNotice)
    {
      if sig.Ok? && upload.Ok? && updated.Ok? && user.Some? {
        user := Some(user.value.(avatar := NewAvatar(user.value.avatar, upload.value, updated.value)));
      }
    }

    /** The notice's `onClose`: hidden now, and remembered as dismissed. */
    method DismissNotice()
      modifies this, browser
      ensures !showNotice
      ensures browser.storage == old(browser.storage)[NoticeKey := "1"]
      ensures browser.redirects == old(browser.redirects)
      ensures user == old(user) && posts == old(posts) && liked == old(liked)
    {
      showNotice := false;
      browser.SetItem(NoticeKey, "1");
    }
  }

  /** Once the notice is dismissed, a later failed load does not show it
      again. */
  method DismissedNoticeStaysHidden(b: Browser.Browser, id: string, a: LoadAnswers, now: string)
    returns (shown: bool)
    requires id != "" && a.Throws()
    modifies b
    ensures !shown
  {
    var view := new Dashboard(b);
    view.DismissNotice();
    view.Load(true, true, Some(id), None, None, a, now);
    shown := view.showNotice;
  }
}
