/**
 * The two optimistic overlay stores. Each holds a pair of records keyed by uuid, a
 * flag and a count, that override what the server last said until they are reset.
 * A record update `{ ...m, [k]: v }` is map update, and the rest pattern
 * `const { [k]: _, ...rest } = m` is map subtraction.
 */
module StreamerFollowStore {

  /** Setting a key and then removing it, when it was not there before, restores the record. */
  lemma {:induction false} SetThenResetRestores<V>(m: map<string, V>, k: string, v: V)
    requires k !in m
    ensures (m[k := v]) - {k} == m
  {
    assert forall x :: x in (m[k := v]) - {k} <==> x in m;
  }

  /** Removing a key that is not there changes nothing. */
  lemma ResetAbsentIsNoOp<V>(m: map<string, V>, k: string)
    requires k !in m
    ensures m - {k} == m
  {
  }

  /** The follow overlay: `followedMap` and `followCountMap`. */
  class FollowStore {
    var followedMap: map<string, bool>
    var followCountMap: map<string, int>

    /** Both records start empty. */
    constructor()
      ensures followedMap == map[] && followCountMap == map[]
    {
      followedMap := map[];
      followCountMap := map[];
    }

    /** Records the flag and the count for one streamer; every other key keeps its value. */
    method SetFollow(uuid: string, followed: bool, count: int)
      modifies this
      ensures followedMap == old(followedMap)[uuid := followed]
      ensures followCountMap == old(followCountMap)[uuid := count]
    {
      followedMap := followedMap[uuid := followed];
      followCountMap := followCountMap[uuid := count];
    }

    /** Drops one streamer from both records; every other key keeps its value. */
    method ResetFollow(uuid: string)
      modifies this
      ensures followedMap == old(followedMap) - {uuid}
      ensures followCountMap == old(followCountMap) - {uuid}
      ensures uuid !in followedMap && uuid !in followCountMap
    {
      followedMap := followedMap - {uuid};
      followCountMap := followCountMap - {uuid};
    }
  }
}

module ScheduleLikeStore {

  /** The like overlay: `likedMap` and `likeCountMap`. */
  class LikeStore {
    var likedMap: map<string, bool>
    var likeCountMap: map<string, int>

    /** Both records start empty. */
    constructor()
      ensures likedMap == map[] && likeCountMap == map[]
    {
      likedMap := map[];
      likeCountMap := map[];
    }

    /** Records the flag and the count for one schedule; every other key keeps its value. */
    method SetLike(uuid: string, liked: bool, count: int)
      modifies this
      ensures likedMap == old(likedMap)[uuid := liked]
      ensures likeCountMap == old(likeCountMap)[uuid := count]
    {
      likedMap := likedMap[uuid := liked];
      likeCountMap := likeCountMap[uuid := count];
    }

    /** Drops one schedule from both records; every other key keeps its value. */
    method ResetLike(uuid: string)
      modifies this
      ensures likedMap == old(likedMap) - {uuid}
      ensures likeCountMap == old(likeCountMap) - {uuid}
      ensures uuid !in likedMap && uuid !in likeCountMap
    {
      likedMap := likedMap - {uuid};
      likeCountMap := likeCountMap - {uuid};
    }
  }
}
