/**
 * The heart badge on a schedule card. What it shows is the like overlay's entry when
 * there is one, else the values the card passed in. A click sends the request first
 * and writes the overlay only once the request has succeeded; while a request is in
 * flight further clicks are ignored.
 *
 * The asynchronous click handler is split at its `await`: `BeginClick` runs up to the
 * request, `FinishClick` is the continuation, and `inFlight` holds the values the
 * suspended handler captured.
 */
module LikeBadge {
  import opened Wrappers
  import opened Services
  import opened ScheduleLikeStore

  /** What a click captured: the shown flag and count when it was pressed. */
  datatype Captured = Captured(wasLiked: bool, count: int)

  datatype ClickResult = Ignored | LoginRequired | Sent(request: Call)

  /** The overlay entry as the badge applies it: `liked ?? initial`, `count ?? initial`. */
  function Shown(likes: LikeStore, uuid: string, initialIsLiked: bool, initialLikeCount: int): (r: (bool, int))
    reads likes
    ensures uuid in likes.likedMap ==> r.0 == likes.likedMap[uuid]
    ensures uuid !in likes.likedMap ==> r.0 == initialIsLiked
    ensures uuid in likes.likeCountMap ==> r.1 == likes.likeCountMap[uuid]
    ensures uuid !in likes.likeCountMap ==> r.1 == initialLikeCount
  {
    (Lookup(likes.likedMap, uuid).GetOr(initialIsLiked), Lookup(likes.likeCountMap, uuid).GetOr(initialLikeCount))
  }

  class Badge {
    const scheduleUuid: string
    /** The optional props, already defaulted to 0 and false. */
    const initialLikeCount: int
    const initialIsLiked: bool
    var isLoading: bool
    var inFlight: Option<Captured>

    ghost predicate Valid()
      reads this
    {
      isLoading <==> inFlight.Some?
    }

    /** A badge for a card that may omit the count and the flag. */
    constructor(uuid: string, likeCount: Option<int>, isLiked: Option<bool>)
      ensures Valid() && !isLoading
      ensures scheduleUuid == uuid
      ensures initialLikeCount == likeCount.GetOr(0) && initialIsLiked == isLiked.GetOr(false)
    {
      scheduleUuid := uuid;
      initialLikeCount := likeCount.GetOr(0);
      initialIsLiked := isLiked.GetOr(false);
      isLoading := false;
      inFlight := None;
    }

    /**
     * The first half of a click: ignored while loading; only a warning when logged
     * out; otherwise it sends remove-like for a shown like and add-like otherwise, and
     * starts loading. The overlay is not touched.
     */
    method BeginClick(isAuthenticated: bool, likes: LikeStore, net: Network) returns (result: ClickResult)
      requires Valid()
      modifies this, net
      ensures Valid()
      ensures old(isLoading) ==> result == Ignored && net.log == old(net.log) && isLoading && inFlight == old(inFlight)
      ensures !old(isLoading) && !isAuthenticated ==> result == LoginRequired && net.log == old(net.log) && !isLoading
      ensures !old(isLoading) && isAuthenticated ==>
        var shown := Shown(likes, scheduleUuid, initialIsLiked, initialLikeCount);
        var call := if shown.0 then RemoveLike(scheduleUuid) else AddLike(scheduleUuid);
        result == Sent(call) && net.log == old(net.log) + [call] &&
        isLoading && inFlight == Some(Captured(shown.0, shown.1))
    {
      if isLoading {
        return Ignored;
      }
      if !isAuthenticated {
        return LoginRequired;
      }
      var shown := Shown(likes, scheduleUuid, initialIsLiked, initialLikeCount);
      isLoading := true;
      inFlight := Some(Captured(shown.0, shown.1));
      var call := if shown.0 then RemoveLike(scheduleUuid) else AddLike(scheduleUuid);
      net.Send(call);
      return Sent(call);
    }

    /**
     * The continuation once the request has settled: on success the overlay gets the
     * flipped flag and the captured count moved by one (not floored at 0); on failure
     * the overlay is left alone. Loading ends either way.
     */
    method FinishClick(likes: LikeStore, succeeded: bool)
      requires Valid() && isLoading
      modifies this, likes
      ensures Valid() && !isLoading
      ensures var c := old(inFlight).value;
        succeeded ==>
          likes.likedMap == old(likes.likedMap)[scheduleUuid := !c.wasLiked] &&
          likes.likeCountMap == old(likes.likeCountMap)[scheduleUuid := if c.wasLiked then c.count - 1 else c.count + 1]
      ensures succeeded ==>
        Shown(likes, scheduleUuid, initialIsLiked, initialLikeCount).0 == !old(inFlight).value.wasLiked
      ensures !succeeded ==> likes.likedMap == old(likes.likedMap) && likes.likeCountMap == old(likes.likeCountMap)
    {
      var c := inFlight.value;
      if succeeded {
        if c.wasLiked {
          likes.SetLike(scheduleUuid, false, c.count - 1);
        } else {
          likes.SetLike(scheduleUuid, true, c.count + 1);
        }
      }
      isLoading := false;
      inFlight := None;
    }
  }
}
