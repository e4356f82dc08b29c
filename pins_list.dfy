/** The pin grid: which pins it shows, the like map it keeps for them (built
    by a fold, then updated one key at a time by the cards and the modal),
    and the selection that opens the pin modal. */
module PinsList {
  import opened Base
  import opened PinTypes
  import PinsServices
  import Browser
  import Api

  const FallbackImage := "/architecture.jpg"

  /** The entry the initial fold writes for one pin. */
  function EntryOf(p: Pin): LikeState
  {
    LikeState(p.liked.GetOr(false), p.likesCount)
  }

  /** The like map the `reduce` builds: pins are folded from the first to the
      last, each writing its own id, so a later pin overwrites an earlier one
      with the same id. */
  function InitialLikes(pins: seq<Pin>): map<string, LikeState>
    decreases |pins|
  {
    if |pins| == 0 then map[]
    else InitialLikes(pins[..|pins| - 1])[pins[|pins| - 1].id := EntryOf(pins[|pins| - 1])]
  }

  function Ids(pins: seq<Pin>): set<string>
  {
    set i | 0 <= i < |pins| :: pins[i].id
  }

  /** The fold has exactly one key per displayed pin id. */
  lemma {:induction false} InitialLikesKeys(pins: seq<Pin>)
    ensures InitialLikes(pins).Keys == Ids(pins)
    decreases |pins|
  {
    if |pins| > 0 {
      var front := pins[..|pins| - 1];
      InitialLikesKeys(front);
      assert Ids(pins) == Ids(front) + {pins[|pins| - 1].id} by {
        forall x | x in Ids(pins) ensures x in Ids(front) + {pins[|pins| - 1].id} {
          var i :| 0 <= i < |pins| && pins[i].id == x;
          if i < |pins| - 1 { assert front[i] == pins[i]; }
        }
        forall x | x in Ids(front) ensures x in Ids(pins) {
          var i :| 0 <= i < |front| && front[i].id == x;
          assert pins[i] == front[i];
        }
      }
    }
  }

  /** The entry of an id is written by the last pin carrying it. */
  lemma {:induction false} InitialLikesLastWins(pins: seq<Pin>, i: int)
    requires 0 <= i < |pins|
    requires forall j :: i < j < |pins| ==> pins[j].id != pins[i].id
    ensures pins[i].id in InitialLikes(pins)
    ensures InitialLikes(pins)[pins[i].id] == EntryOf(pins[i])
    decreases |pins|
  {
    if i < |pins| - 1 {
      var front := pins[..|pins| - 1];
      assert front[i] == pins[i];
      InitialLikesLastWins(front, i);
    }
  }

  /** With distinct ids, every displayed pin is read back with its own
      `liked ?? false` and `likesCount`. */
  lemma InitialLikesDistinct(pins: seq<Pin>, i: int)
    requires 0 <= i < |pins|
    requires forall j, k :: 0 <= j < k < |pins| ==> pins[j].id != pins[k].id
    ensures pins[i].id in InitialLikes(pins)
    ensures InitialLikes(pins)[pins[i].id] == LikeState(pins[i].liked.GetOr(false), pins[i].likesCount)
  {
    InitialLikesLastWins(pins, i);
  }

  /** `normalizePin`: a missing or whitespace-only image becomes the fallback
      image; every other field is kept. */
  function NormalizePin(p: Pin): (r: Pin)
    ensures r == p.(image := r.image)
    ensures p.image.None? || IsBlank(p.image.value) ==> r.image == Some(FallbackImage)
    ensures p.image.Some? && !IsBlank(p.image.value) ==> r.image == p.image
  {
    if p.image.Some? && Trim(p.image.value) != "" then p
    else p.(image := Some(FallbackImage))
  }

  class PinsList {
    /** the `searchResults` prop: null when no search is active */
    var searchResults: Option<seq<Pin>>
    var allPins: seq<Pin>
    var likes: map<string, LikeState>
    var isOpen: bool
    /** `pinSelected` */
    var selected: Option<string>
    /** the pin ids passed to `addView`, in order */
    var viewed: seq<string>

    constructor (search: Option<seq<Pin>>)
      ensures searchResults == search && allPins == [] && likes == map[]
      ensures !isOpen && selected == None && viewed == []
    {
      searchResults := search;
      allPins := [];
      likes := map[];
      isOpen := false;
      selected := None;
      viewed := [];
    }

    /** `displayedPins`: the search results when there are any, otherwise
        every fetched pin. */
    function Displayed(): (r: seq<Pin>)
      reads this
      ensures searchResults.Some? ==> r == searchResults.value
      ensures searchResults.None? ==> r == allPins
    {
      if searchResults.Some? then searchResults.value else allPins
    }

    /** The like state a card or the modal is given: the entry of the pin, or
        (not liked, 0) when it has none. */
    function LikeOf(id: string): (r: LikeState)
      reads this
      ensures id in likes ==> r == likes[id]
      ensures id !in likes ==> r == LikeState(false, 0)
    {
      if id in likes then likes[id] else LikeState(false, 0)
    }

    /** The modal is rendered when it is open and a pin id is selected. */
    predicate ModalShown()
      reads this
    {
      isOpen && Present(selected)
    }

    /** The fetch effect: without search results the pins are fetched and
        stored ([] when the request fails), and the response interceptor sees
        the reply (a 401 ends the session); with search results nothing is
        fetched and the browser is left alone. */
    method FetchPins(b: Browser.Browser, resp: Net<seq<Pin>>)
      modifies this, b
      ensures searchResults.None? ==> allPins == PinsServices.GetAllPins(resp)
      ensures searchResults.None? ==> b.storage == Api.SessionAfter(old(b.storage), resp) &&
                                      b.redirects == Api.RedirectsAfter(old(b.redirects), resp)
      ensures searchResults.Some? ==> allPins == old(allPins)
      ensures searchResults.Some? ==> b.storage == old(b.storage) && b.redirects == old(b.redirects)
      ensures searchResults == old(searchResults) && likes == old(likes)
      ensures isOpen == old(isOpen) && selected == old(selected) && viewed == old(viewed)
    {
      if searchResults.None? {
        var settled := Api.Settle(b, true, resp);
        allPins := PinsServices.GetAllPins(settled);
      }
    }

    /** A new `searchResults` prop. */
    method SetSearchResults(search: Option<seq<Pin>>)
      modifies this
      ensures searchResults == search && allPins == old(allPins) && likes == old(likes)
      ensures isOpen == old(isOpen) && selected == old(selected) && viewed == old(viewed)
    {
      searchResults := search;
    }

    /** The like-map effect: a non-empty displayed list replaces the whole
        map with its fold; an empty one leaves the map as it was. */
    method SyncLikes()
      modifies this
      ensures |old(Displayed())| == 0 ==> likes == old(likes)
      ensures |old(Displayed())| > 0 ==> likes == InitialLikes(old(Displayed()))
      ensures searchResults == old(searchResults) && allPins == old(allPins)
      ensures isOpen == old(isOpen) && selected == old(selected) && viewed == old(viewed)
    {
      var shown := Displayed();
      if |shown| == 0 {
        return;
      }
      likes := InitialLikes(shown);
    }

    /** The `setLikesState` callback a card or the modal gets for pin `id`:
        that entry gets the new state and no other entry changes. */
    method SetLike(id: string, s: LikeState)
      modifies this
      ensures likes == old(likes)[id := s]
      ensures LikeOf(id) == s
      ensures forall k :: k != id ==> LikeOf(k) == old(LikeOf(k))
      ensures searchResults == old(searchResults) && allPins == old(allPins)
      ensures isOpen == old(isOpen) && selected == old(selected) && viewed == old(viewed)
    {
      likes := likes[id := s];
    }

    /** The close effect: a selected id that no displayed pin carries closes
        the modal and clears the selection. */
    method CloseIfGone()
      modifies this
      ensures var gone := Present(old(selected)) &&
                          forall p :: p in old(Displayed()) ==> p.id != old(selected).value;
        (gone ==> !isOpen && selected == None) &&
        (!gone ==> isOpen == old(isOpen) && selected == old(selected))
      ensures searchResults == old(searchResults) && allPins == old(allPins)
      ensures likes == old(likes) && viewed == old(viewed)
    {
      if Present(selected) && forall p :: p in Displayed() ==> p.id != selected.value {
        isOpen := false;
        selected := None;
      }
    }

    /** A click on a card: select it, open the modal, count a view. The
        `addView` request is not awaited, but its reply `view` still passes
        through the response interceptor (a 401 ends the session). */
    method Open(b: Browser.Browser, id: string, view: Net<()>)
      modifies this, b
      ensures selected == Some(id) && isOpen && viewed == old(viewed) + [id]
      ensures searchResults == old(searchResults) && allPins == old(allPins) && likes == old(likes)
      ensures b.storage == Api.SessionAfter(old(b.storage), view)
      ensures b.redirects == Api.RedirectsAfter(old(b.redirects), view)
    {
      var settled := Api.Settle(b, true, view);
      selected := Some(id);
      isOpen := true;
      viewed := viewed + [id];
    }

    /** The modal's `onClose`. */
    method Close()
      modifies this
      ensures !isOpen && selected == None
      ensures searchResults == old(searchResults) && allPins == old(allPins)
      ensures likes == old(likes) && viewed == old(viewed)
    {
      isOpen := false;
      selected := None;
    }
  }
}
