/**
 * The schedule detail dialog. Liking inside the dialog is local: each press flips the
 * flag and moves the count, and nothing is sent. Closing the dialog sends at most one
 * request, and only when the flag ends up different from the one loaded; the like
 * overlay is written only after that request succeeds.
 */
module ScheduleDetailDialog {
  import opened Wrappers
  import opened Services
  import opened ScheduleLikeStore

  /** The parts of a fetched schedule detail the dialog's like state is built from. */
  datatype ScheduleDetail = ScheduleDetail(uuid: string, likeCount: int, isLiked: bool)

  /** The local (liked, likeCount) pair after one press of the heart. */
  function Pressed(liked: bool, likeCount: int): (r: (bool, int))
    ensures r.0 == !liked
    ensures r.1 - likeCount == (if liked then -1 else 1)
  {
    if liked then (false, likeCount - 1) else (true, likeCount + 1)
  }

  /** The local pair after `n` presses. */
  function PressedTimes(liked: bool, likeCount: int, n: nat): (bool, int)
  {
    if n == 0 then (liked, likeCount)
    else
      var p := PressedTimes(liked, likeCount, n - 1);
      Pressed(p.0, p.1)
  }

  /**
   * After `n` presses the flag differs from the loaded one exactly when `n` is odd, so
   * an even number of presses leads to no request on close; and after an even number
   * the count is back where it started.
   */
  lemma {:induction false} PressParity(liked: bool, likeCount: int, n: nat)
    ensures PressedTimes(liked, likeCount, n).0 == liked <==> n % 2 == 0
    ensures n % 2 == 0 ==> PressedTimes(liked, likeCount, n).1 == likeCount
    ensures n % 2 == 1 ==> PressedTimes(liked, likeCount, n).1 == likeCount + (if liked then -1 else 1)
  {
    if n > 0 {
      PressParity(liked, likeCount, n - 1);
    }
  }

  class DetailDialog {
    /** The uuid the dialog was opened for (a prop). */
    const scheduleUuid: string
    var schedule: Option<ScheduleDetail>
    var liked: bool
    var initialLiked: bool
    var likeCount: int

    constructor(uuid: string)
      ensures scheduleUuid == uuid
      ensures schedule == None && !liked && !initialLiked && likeCount == 0
    {
      scheduleUuid := uuid;
      schedule := None;
      liked := false;
      initialLiked := false;
      likeCount := 0;
    }

    /** The detail arrived after opening: the like state is taken from it. */
    method Loaded(data: ScheduleDetail)
      modifies this
      ensures schedule == Some(data)
      ensures likeCount == data.likeCount && liked == data.isLiked && initialLiked == data.isLiked
    {
      schedule := Some(data);
      likeCount := data.likeCount;
      liked := data.isLiked;
      initialLiked := data.isLiked;
    }

    /** A press of the heart; logged out, it only warns. The result says whether it warned. */
    method HandleLikeToggle(isAuthenticated: bool) returns (warned: bool)
      modifies this
      ensures warned <==> !isAuthenticated
      ensures !isAuthenticated ==> liked == old(liked) && likeCount == old(likeCount)
      ensures isAuthenticated ==> (liked, likeCount) == Pressed(old(liked), old(likeCount))
      ensures schedule == old(schedule) && initialLiked == old(initialLiked)
    {
      if !isAuthenticated {
        return true;
      }
      if liked {
        liked := false;
        likeCount := likeCount - 1;
      } else {
        liked := true;
        likeCount := likeCount + 1;
      }
      return false;
    }

    /**
     * Closing. Without a loaded schedule nothing happens. Otherwise one request is
     * sent if the flag changed (add-like when now liked, remove-like otherwise), the
     * overlay takes the local flag and count only if it succeeded, and the dialog is
     * cleared whatever the outcome.
     */
    method HandleClose(likes: LikeStore, net: Network, succeeded: bool)
      modifies this, likes, net
      ensures old(schedule).None? ==>
        schedule == None && liked == old(liked) && initialLiked == old(initialLiked) &&
        net.log == old(net.log) && likes.likedMap == old(likes.likedMap) && likes.likeCountMap == old(likes.likeCountMap)
      ensures old(schedule).Some? ==> schedule == None && !liked && !initialLiked
      ensures old(schedule).Some? && old(liked) == old(initialLiked) ==>
        net.log == old(net.log) && likes.likedMap == old(likes.likedMap) && likes.likeCountMap == old(likes.likeCountMap)
      ensures old(schedule).Some? && old(liked) != old(initialLiked) ==>
        net.log == old(net.log) + [if old(liked) then AddLike(scheduleUuid) else RemoveLike(scheduleUuid)]
      ensures old(schedule).Some? && old(liked) != old(initialLiked) && succeeded ==>
        likes.likedMap == old(likes.likedMap)[scheduleUuid := old(liked)] &&
        likes.likeCountMap == old(likes.likeCountMap)[scheduleUuid := old(likeCount)]
      ensures old(schedule).Some? && old(liked) != old(initialLiked) && !succeeded ==>
        likes.likedMap == old(likes.likedMap) && likes.likeCountMap == old(likes.likeCountMap)
      ensures likeCount == old(likeCount)
    {
      if schedule.None? {
        return;
      }
      if liked != initialLiked {
        if liked {
          net.Send(AddLike(scheduleUuid));
        } else {
          net.Send(RemoveLike(scheduleUuid));
        }
        if succeeded {
          likes.SetLike(scheduleUuid, liked, likeCount);
        }
      }
      schedule := None;
      liked := false;
      initialLiked := false;
    }
  }
}
