/** The records the dashboard renders: a post, a subscription, a payment and
    the profile that holds them. */
module UiTypes {
  import opened Base

  datatype UIPlan = Free | Pro | Business | Plus

  datatype UIStatus = Active | Canceled | PastDue | Trialing

  datatype UISubscription = UISubscription(plan: UIPlan, status: UIStatus, startedAt: string,
                                           renewsAt: Option<string>, pricePerMonth: real,
                                           currency: string, features: seq<string>)

  /** A payment row; `amount` is whatever `usdPrice` held (`None` when it was
      not a number). */
  datatype UIPayment = UIPayment(id: string, date: string, description: string, payMethod: string,
                                 status: string, amount: Option<real>, currency: string)

  datatype Post = Post(id: string, title: string, imageUrl: string, likes: int, views: int,
                       createdAt: string, tags: seq<string>)

  datatype UserProfile = UserProfile(id: string, name: string, username: Option<string>, email: string,
                                     avatar: string, bio: Option<string>, joinDate: string,
                                     postsCount: int, subscription: UISubscription,
                                     payments: seq<UIPayment>)

  const DefaultFeatures := ["10 pins/month", "Basic search"]
  const Usd := "USD"

  /** The subscription a profile gets before the real one is known. */
  function FreeSubscription(now: string): UISubscription
  {
    UISubscription(Free, Active, now, None, 0.0, Usd, DefaultFeatures)
  }
}
