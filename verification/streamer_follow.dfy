/**
 * The follow hook: optimistic follow toggling on top of the follow overlay, and the
 * step that reconciles the overlay with the server when a streamer's dialog closes.
 */
module StreamerFollow {
  import opened Services
  import opened StreamerFollowStore

  /** What a streamer's follow button shows. */
  datatype FollowState = FollowState(isFollowed: bool, followCount: int, hasChanges: bool)

  /** The (flag, count) a toggle moves to: following adds one, unfollowing removes one but not below zero. */
  function NextFollow(followed: bool, count: int): (r: (bool, int))
    ensures r.0 == !followed
    ensures r.0 ==> r.1 == count + 1
    ensures !r.0 ==> r.1 >= 0 && (count >= 1 ==> r.1 == count - 1)
    ensures count >= 0 ==> r.1 >= 0
  {
    var newFollowed := !followed;
    (newFollowed, if newFollowed then count + 1 else if count - 1 > 0 then count - 1 else 0)
  }

  /**
   * Two toggles always restore the flag. For a count that is not negative they restore
   * the count too, except from (followed, 0): unfollowing floors at 0 and following
   * again gives 1.
   */
  lemma DoubleToggle(followed: bool, count: int)
    requires count >= 0
    ensures NextFollow(NextFollow(followed, count).0, NextFollow(followed, count).1).0 == followed
    ensures NextFollow(NextFollow(followed, count).0, NextFollow(followed, count).1) == (followed, count)
            <==> !(followed && count == 0)
  {
  }

  /** The state a streamer's button shows: the overlay where it has an entry, else the server's values. */
  function GetFollowState(store: FollowStore, uuid: string, originalFollowed: bool, originalCount: int): (r: FollowState)
    reads store
    ensures r.hasChanges <==> uuid in store.followedMap || uuid in store.followCountMap
    ensures uuid in store.followedMap ==> r.isFollowed == store.followedMap[uuid]
    ensures uuid !in store.followedMap ==> r.isFollowed == originalFollowed
    ensures uuid in store.followCountMap ==> r.followCount == store.followCountMap[uuid]
    ensures uuid !in store.followCountMap ==> r.followCount == originalCount
  {
    FollowState(
      if uuid in store.followedMap then store.followedMap[uuid] else originalFollowed,
      if uuid in store.followCountMap then store.followCountMap[uuid] else originalCount,
      uuid in store.followedMap || uuid in store.followCountMap)
  }

  /** Toggles the shown follow state of one streamer in the overlay; nothing is sent. */
  method ToggleFollow(store: FollowStore, uuid: string, originalFollowed: bool, originalCount: int)
    modifies store
    ensures var before := old(GetFollowState(store, uuid, originalFollowed, originalCount));
      var next := NextFollow(before.isFollowed, before.followCount);
      store.followedMap == old(store.followedMap)[uuid := next.0] &&
      store.followCountMap == old(store.followCountMap)[uuid := next.1]
    ensures var after := GetFollowState(store, uuid, originalFollowed, originalCount);
      after.hasChanges &&
      after.isFollowed == !old(GetFollowState(store, uuid, originalFollowed, originalCount)).isFollowed
  {
    var current := GetFollowState(store, uuid, originalFollowed, originalCount);
    var next := NextFollow(current.isFollowed, current.followCount);
    store.SetFollow(uuid, next.0, next.1);
  }

  /**
   * Reconciles one streamer with the server. A request is sent only when the overlay
   * holds a flag that differs from the server's: follow for true, unfollow for false.
   * The overlay entry is dropped in every case, and the result is false only when the
   * request was sent and failed.
   */
  method SyncToServer(store: FollowStore, net: Network, uuid: string, originalFollowed: bool, succeeded: bool)
    returns (ok: bool)
    modifies store, net
    ensures var changed := uuid in old(store.followedMap) && old(store.followedMap)[uuid] != originalFollowed;
      (!changed ==> net.log == old(net.log) && ok) &&
      (changed ==>
         net.log == old(net.log) + [if old(store.followedMap)[uuid] then FollowStreamer(uuid) else UnfollowStreamer(uuid)] &&
         ok == succeeded)
    ensures store.followedMap == old(store.followedMap) - {uuid}
    ensures store.followCountMap == old(store.followCountMap) - {uuid}
  {
    if uuid in store.followedMap && store.followedMap[uuid] != originalFollowed {
      if store.followedMap[uuid] {
        net.Send(FollowStreamer(uuid));
      } else {
        net.Send(UnfollowStreamer(uuid));
      }
      store.ResetFollow(uuid);
      return succeeded;
    } else {
      store.ResetFollow(uuid);
    }
    return true;
  }

  /**
   * A streamer's dialog in which the button was pressed twice and then closed: the
   * flag is back at the server's value, so no request is sent and the overlay has no
   * entry for the streamer afterwards.
   */
  method ToggleTwiceThenSync(store: FollowStore, net: Network, uuid: string,
                             originalFollowed: bool, originalCount: int, succeeded: bool)
    returns (ok: bool)
    requires uuid !in store.followedMap && uuid !in store.followCountMap
    modifies store, net
    ensures net.log == old(net.log) && ok
    ensures store.followedMap == old(store.followedMap) && store.followCountMap == old(store.followCountMap)
  {
    ghost var f0 := store.followedMap;
    ghost var n0 := store.followCountMap;
    var c1 := NextFollow(originalFollowed, originalCount).1;
    var c2 := NextFollow(!originalFollowed, c1).1;
    ToggleFollow(store, uuid, originalFollowed, originalCount);
    assert store.followedMap == f0[uuid := !originalFollowed];
    assert store.followCountMap == n0[uuid := c1];
    ToggleFollow(store, uuid, originalFollowed, originalCount);
    ghost var f2 := store.followedMap;
    ghost var n2 := store.followCountMap;
    assert f2 == f0[uuid := !originalFollowed][uuid := originalFollowed];
    assert n2 == n0[uuid := c1][uuid := c2];
    assert f2[uuid] == originalFollowed;
    ok := SyncToServer(store, net, uuid, originalFollowed, succeeded);
    assert store.followedMap == f2 - {uuid} && store.followCountMap == n2 - {uuid};
    RestoredAfterReset(f0, uuid, !originalFollowed, originalFollowed);
    RestoredAfterReset(n0, uuid, c1, c2);
  }

  /** Two writes to an absent key and then its removal leave the map as it was. */
  lemma RestoredAfterReset<V>(m: map<string, V>, k: string, a: V, b: V)
    requires k !in m
    ensures m[k := a][k := b] - {k} == m
  {
    assert m[k := a][k := b] == m[k := b];
    SetThenResetRestores(m, k, b);
  }
}
