/** The like button of a pin card: an optimistic toggle published before the
    request, rolled back when the request fails, with a flag that drops
    clicks while a request is in flight. */
module PinsCard {
  import opened Base
  import opened PinTypes
  import Browser
  import Api

  const LikeLimitMessage := "Has alcanzado tu límite diario de likes."
  const LikeErrorMessage := "Algo salió mal. Intenta de nuevo."

  /** The optimistic state: the flag flips, and the count goes up by one on a
      like and down by one, never below zero, on an unlike. */
  function Toggled(s: LikeState): (r: LikeState)
    ensures r.liked == !s.liked
    ensures r.liked ==> r.likesCount == s.likesCount + 1
    ensures !r.liked && s.likesCount >= 1 ==> r.likesCount == s.likesCount - 1
    ensures !r.liked && s.likesCount < 1 ==> r.likesCount == 0
    ensures s.likesCount >= 0 ==> r.likesCount >= 0
  {
    var liked := !s.liked;
    LikeState(liked, if liked then s.likesCount + 1 else if s.likesCount - 1 > 0 then s.likesCount - 1 else 0)
  }

  /** Liking and then unliking restores a state exactly when the zero floor
      did not clip it: a like that was shown with a count of zero comes back
      as (liked, 1). */
  lemma ToggledTwice(s: LikeState)
    requires s.likesCount >= 0
    ensures Toggled(Toggled(s)) == s <==> !s.liked || s.likesCount >= 1
  {
  }

  /** The error toast of a failed like: the daily-limit text on 403. */
  function LikeFailureMessage(outcome: Net<()>): (r: string)
    ensures r == LikeLimitMessage <==> outcome.FailedWith(403)
    ensures r == LikeErrorMessage <==> !outcome.FailedWith(403)
  {
    if outcome.FailedWith(403) then LikeLimitMessage else LikeErrorMessage
  }

  /** What a failed like adds to the toasts; a successful one adds none. */
  function LikeToasts(outcome: Net<()>): (r: seq<Toast>)
    ensures outcome.Ok? <==> r == []
    ensures outcome.Fail? ==> r == [Error(LikeFailureMessage(outcome))]
  {
    if outcome.Ok? then [] else [Error(LikeFailureMessage(outcome))]
  }

  class LikeButton {
    const pinId: string
    /** the like state the parent holds for this pin (`likesState`) */
    var state: LikeState
    /** `isLiking` */
    var isLiking: bool
    /** `previousState`, kept for the rollback */
    var previous: LikeState
    /** the pin ids of the `addLike` requests sent, in order */
    var likeRequests: seq<string>
    var toasts: seq<Toast>

    constructor (id: string, initial: LikeState)
      ensures pinId == id && state == initial && !isLiking
      ensures likeRequests == [] && toasts == []
    {
      pinId := id;
      state := initial;
      isLiking := false;
      previous := initial;
      likeRequests := [];
      toasts := [];
    }

    /** The click, up to the `await`: a click while a request is in flight
        does nothing; otherwise the state is saved, the toggle is published
        and `addLike` is sent. */
    method BeginLike() returns (sent: bool)
      modifies this
      ensures sent <==> !old(isLiking)
      ensures isLiking
      ensures toasts == old(toasts)
      ensures !sent ==> state == old(state) && previous == old(previous) && likeRequests == old(likeRequests)
      ensures sent ==> previous == old(state) && state == Toggled(old(state))
      ensures sent ==> likeRequests == old(likeRequests) + [pinId]
    {
      if isLiking {
        return false;
      }
      isLiking := true;
      previous := state;
      state := Toggled(state);
      likeRequests := likeRequests + [pinId];
      sent := true;
    }

    /** The rest of the click, once `addLike` settles: the response
        interceptor of the shared api sees the outcome first (a 401 ends the
        session); then a failure puts the saved state back and shows a toast,
        and either way the flag is cleared. */
    method FinishLike(b: Browser.Browser, outcome: Net<()>)
      requires isLiking
      modifies this, b
      ensures !isLiking
      ensures previous == old(previous) && likeRequests == old(likeRequests)
      ensures state == (if outcome.Ok? then old(state) else old(previous))
      ensures toasts == old(toasts) + LikeToasts(outcome)
      ensures b.storage == Api.SessionAfter(old(b.storage), outcome)
      ensures b.redirects == Api.RedirectsAfter(old(b.redirects), outcome)
    {
      var settled := Api.Settle(b, true, outcome);
      if outcome.Fail? {
        state := previous;
        toasts := toasts + [Error(LikeFailureMessage(outcome))];
      }
      isLiking := false;
    }

    /** One click whose request settles before the next click: the toggle
        stays on success and is undone on failure. */
    method HandleLike(b: Browser.Browser, outcome: Net<()>)
      modifies this, b
      ensures old(isLiking) ==> state == old(state) && likeRequests == old(likeRequests) && toasts == old(toasts)
      ensures old(isLiking) ==> b.storage == old(b.storage) && b.redirects == old(b.redirects)
      ensures !old(isLiking) ==> !isLiking && likeRequests == old(likeRequests) + [pinId]
      ensures !old(isLiking) ==> state == (if outcome.Ok? then Toggled(old(state)) else old(state))
      ensures !old(isLiking) ==> toasts == old(toasts) + LikeToasts(outcome)
      ensures !old(isLiking) ==> b.storage == Api.SessionAfter(old(b.storage), outcome) &&
                                 b.redirects == Api.RedirectsAfter(old(b.redirects), outcome)
    {
      var sent := BeginLike();
      if sent {
        FinishLike(b, outcome);
      }
    }
  }

  /** Two clicks before the first request settles send one request, and the
      pin ends up toggled once (or not at all when the request fails). */
  method DoubleClickSendsOnce(id: string, initial: LikeState, outcome: Net<()>)
    returns (requests: seq<string>, final: LikeState)
    ensures requests == [id]
    ensures final == (if outcome.Ok? then Toggled(initial) else initial)
  {
    var b := new Browser.Browser(map[]);
    var button := new LikeButton(id, initial);
    var first := button.BeginLike();
    var second := button.BeginLike();
    button.FinishLike(b, outcome);
    requests, final := button.likeRequests, button.state;
  }
}
