/**
 * The "my streamers" roster store: an ordered list of followed streamers, each with an
 * `isActive` flag that decides whether the calendar fetches its schedules, plus the
 * queue of active-flag changes that is sent to the server as one batch.
 *
 * The list operations are specified by the functions below; the store class applies
 * them to its fields. The module-level `pendingUpdates` map (a JavaScript `Map`,
 * which keeps insertion order and one value per key) is an association list with
 * distinct keys, and the 2-second debounce timer is a flag plus an explicit `Flush`.
 */
module MyStreamers {
  import opened Wrappers
  import opened Services

  datatype PlatformInfo = PlatformInfo(platformName: string, channelUrl: string)

  /** A roster entry. A server entry without `isActive` reads as `false`, as `undefined` is falsy. */
  datatype Streamer = Streamer(
    uuid: string,
    name: string,
    profileImageUrl: string,
    platforms: seq<PlatformInfo>,
    followCount: int,
    isFollowed: bool,
    isActive: bool)

  // ---------------------------------------------------------------------------
  // Uuids, membership, distinctness
  // ---------------------------------------------------------------------------

  /** `streamers.map(s => s.uuid)`. */
  function Uuids(s: seq<Streamer>): (r: seq<string>)
    ensures |r| == |s|
    ensures forall i | 0 <= i < |s| :: r[i] == s[i].uuid
  {
    seq(|s|, i requires 0 <= i < |s| => s[i].uuid)
  }

  /** `streamers.some(s => s.uuid === u)`. */
  predicate HasUuid(s: seq<Streamer>, u: string) {
    exists i | 0 <= i < |s| :: s[i].uuid == u
  }

  /** No uuid occurs twice. */
  predicate DistinctUuids(s: seq<Streamer>) {
    forall i, j | 0 <= i < j < |s| :: s[i].uuid != s[j].uuid
  }

  lemma DistinctCons(x: Streamer, t: seq<Streamer>)
    ensures DistinctUuids([x] + t) <==> !HasUuid(t, x.uuid) && DistinctUuids(t)
  {
    var s := [x] + t;
    if DistinctUuids(s) {
      forall i | 0 <= i < |t| ensures t[i].uuid != x.uuid {
        assert s[0] == x && s[i + 1] == t[i];
      }
      forall i, j | 0 <= i < j < |t| ensures t[i].uuid != t[j].uuid {
        assert s[i + 1] == t[i] && s[j + 1] == t[j];
      }
    }
    if !HasUuid(t, x.uuid) && DistinctUuids(t) {
      forall i, j | 0 <= i < j < |s| ensures s[i].uuid != s[j].uuid {
        assert s[j] == t[j - 1];
        if i > 0 {
          assert s[i] == t[i - 1];
        }
      }
    }
  }

  /** The index `streamers.find(s => s.uuid === u)` stops at: the first entry with that uuid. */
  function FirstIndex(s: seq<Streamer>, u: string): (k: nat)
    requires HasUuid(s, u)
    ensures k < |s| && s[k].uuid == u
    ensures forall j | 0 <= j < k :: s[j].uuid != u
  {
    if s[0].uuid == u then 0
    else
      assert HasUuid(s[1..], u) by {
        var i :| 0 <= i < |s| && s[i].uuid == u;
        assert s[1..][i - 1] == s[i];
      }
      1 + FirstIndex(s[1..], u)
  }

  /** In a list without duplicate uuids, the first entry with a uuid is the only one. */
  lemma FirstIndexUnique(s: seq<Streamer>, u: string, k: nat)
    requires DistinctUuids(s) && k < |s| && s[k].uuid == u
    ensures HasUuid(s, u) && FirstIndex(s, u) == k
  {
  }

  // ---------------------------------------------------------------------------
  // Subsequences and the two uuid projections
  // ---------------------------------------------------------------------------

  /** `a` is `b` with some elements left out, the rest in the same order. */
  predicate IsSubsequence<T(==)>(a: seq<T>, b: seq<T>)
    decreases |b|
  {
    a == [] || (b != [] && ((a[0] == b[0] && IsSubsequence(a[1..], b[1..])) || IsSubsequence(a, b[1..])))
  }

  /** `streamers.filter(s => s.isActive)`. */
  function ActiveEntries(s: seq<Streamer>): (r: seq<Streamer>)
    ensures forall x :: x in r <==> x in s && x.isActive
    ensures |r| <= |s|
  {
    if s == [] then []
    else if s[0].isActive then [s[0]] + ActiveEntries(s[1..])
    else ActiveEntries(s[1..])
  }

  /** The entries `updateStreamers`' comparator puts after the active ones. */
  function InactiveEntries(s: seq<Streamer>): (r: seq<Streamer>)
    ensures forall x :: x in r <==> x in s && !x.isActive
    ensures |r| <= |s|
  {
    if s == [] then []
    else if !s[0].isActive then [s[0]] + InactiveEntries(s[1..])
    else InactiveEntries(s[1..])
  }

  /** The uuids the calendar fetches schedules for: those of the active entries, in list order. */
  function ActiveUuids(s: seq<Streamer>): (r: seq<string>)
    ensures forall u :: u in r <==> exists x | x in s :: x.isActive && x.uuid == u
  {
    var a := ActiveEntries(s);
    var r := Uuids(a);
    assert forall u :: u in r ==> exists x | x in s :: x.isActive && x.uuid == u by {
      forall u | u in r ensures exists x | x in s :: x.isActive && x.uuid == u {
        var i :| 0 <= i < |r| && r[i] == u;
        assert a[i] in s;
      }
    }
    assert forall u :: (exists x | x in s :: x.isActive && x.uuid == u) ==> u in r by {
      forall u | exists x | x in s :: x.isActive && x.uuid == u ensures u in r {
        var x :| x in s && x.isActive && x.uuid == u;
        var i :| 0 <= i < |a| && a[i] == x;
        assert r[i] == u;
      }
    }
    r
  }

  /** The fetch list is the display list with the inactive entries left out. */
  lemma {:induction false} ActiveUuidsSubsequence(s: seq<Streamer>)
    ensures IsSubsequence(ActiveUuids(s), Uuids(s))
  {
    if s != [] {
      ActiveUuidsSubsequence(s[1..]);
      assert Uuids(s)[1..] == Uuids(s[1..]);
      if s[0].isActive {
        assert ActiveEntries(s) == [s[0]] + ActiveEntries(s[1..]);
        assert ActiveUuids(s) == [s[0].uuid] + ActiveUuids(s[1..]);
        assert ActiveUuids(s)[1..] == ActiveUuids(s[1..]);
      } else {
        assert ActiveUuids(s) == ActiveUuids(s[1..]);
      }
    }
  }

  // ---------------------------------------------------------------------------
  // remove
  // ---------------------------------------------------------------------------

  /** `streamers.filter(s => s.uuid !== u)`. */
  function WithoutUuid(s: seq<Streamer>, u: string): (r: seq<Streamer>)
    ensures forall x :: x in r <==> x in s && x.uuid != u
    ensures !HasUuid(s, u) ==> r == s
  {
    if s == [] then []
    else
      var rest := WithoutUuid(s[1..], u);
      if s[0].uuid == u then rest
      else
        assert !HasUuid(s, u) ==> !HasUuid(s[1..], u) by {
          forall i | 0 <= i < |s[1..]| ensures s[1..][i] == s[i + 1] { }
        }
        assert s == [s[0]] + s[1..];
        [s[0]] + rest
  }

  /** In a list without duplicates, removing a uuid deletes exactly its one entry. */
  lemma {:induction false} WithoutUuidDeletesOne(s: seq<Streamer>, k: nat)
    requires DistinctUuids(s) && k < |s|
    ensures WithoutUuid(s, s[k].uuid) == s[..k] + s[k + 1..]
  {
    var u := s[k].uuid;
    var t := s[1..];
    assert s == [s[0]] + t;
    DistinctCons(s[0], t);
    WithoutUuidStep(s, u);
    if k == 0 {
      assert s[..0] + s[1..] == t;
    } else {
      assert t[k - 1] == s[k];
      WithoutUuidDeletesOne(t, k - 1);
      assert s[0].uuid != u;
      ConsSlices(s, k);
    }
  }

  /** Deleting index `k > 0` commutes with putting the head back. */
  lemma ConsSlices<T>(s: seq<T>, k: nat)
    requires 0 < k < |s|
    ensures [s[0]] + (s[1..][..k - 1] + s[1..][k..]) == s[..k] + s[k + 1..]
  {
    assert s[..k] == [s[0]] + s[1..][..k - 1];
    assert s[k + 1..] == s[1..][k..];
  }

  /** One step of the filter. */
  lemma WithoutUuidStep(s: seq<Streamer>, u: string)
    requires s != []
    ensures WithoutUuid(s, u) == if s[0].uuid == u then WithoutUuid(s[1..], u) else [s[0]] + WithoutUuid(s[1..], u)
  {
  }

  /** Removing keeps a list free of duplicates. */
  lemma {:induction false} WithoutUuidDistinct(s: seq<Streamer>, u: string)
    requires DistinctUuids(s)
    ensures DistinctUuids(WithoutUuid(s, u))
  {
    if s != [] {
      DistinctCons(s[0], s[1..]);
      assert [s[0]] + s[1..] == s;
      WithoutUuidDistinct(s[1..], u);
      if s[0].uuid != u {
        var rest := WithoutUuid(s[1..], u);
        NotInSublist(s[0].uuid, rest, s[1..]);
        DistinctCons(s[0], rest);
      }
    }
  }

  /** A uuid absent from a list is absent from any list whose entries all come from it. */
  lemma NotInSublist(u: string, r: seq<Streamer>, s: seq<Streamer>)
    requires forall x | x in r :: x in s
    requires !HasUuid(s, u)
    ensures !HasUuid(r, u)
  {
    forall i | 0 <= i < |r| ensures r[i].uuid != u {
      assert r[i] in s;
    }
  }

  // ---------------------------------------------------------------------------
  // toggleIsActive
  // ---------------------------------------------------------------------------

  /** `streamers.map(s => s.uuid === u ? { ...s, isActive: b } : s)`. */
  function SetActive(s: seq<Streamer>, u: string, b: bool): (r: seq<Streamer>)
    ensures |r| == |s|
    ensures forall i | 0 <= i < |s| :: r[i] == if s[i].uuid == u then s[i].(isActive := b) else s[i]
  {
    seq(|s|, i requires 0 <= i < |s| => if s[i].uuid == u then s[i].(isActive := b) else s[i])
  }

  /**
   * Setting the flag leaves the list's length, its order, every uuid and every other
   * field alone; in a list without duplicates exactly one entry's flag changes.
   */
  lemma SetActiveOnlyFlag(s: seq<Streamer>, u: string, b: bool)
    ensures Uuids(SetActive(s, u, b)) == Uuids(s)
    ensures forall i | 0 <= i < |s| :: SetActive(s, u, b)[i].(isActive := s[i].isActive) == s[i]
    ensures DistinctUuids(SetActive(s, u, b)) <==> DistinctUuids(s)
    ensures DistinctUuids(s) && HasUuid(s, u) ==>
      var k := FirstIndex(s, u);
      SetActive(s, u, b)[k].isActive == b &&
      forall i | 0 <= i < |s| && i != k :: SetActive(s, u, b)[i] == s[i]
  {
  }

  /** In a list without duplicates, toggling the same uuid twice restores the list. */
  lemma ToggleTwiceRestores(s: seq<Streamer>, u: string)
    requires DistinctUuids(s) && HasUuid(s, u)
    ensures var a := s[FirstIndex(s, u)].isActive;
      var once := SetActive(s, u, !a);
      HasUuid(once, u) && SetActive(once, u, !once[FirstIndex(once, u)].isActive) == s
  {
    var k := FirstIndex(s, u);
    var once := SetActive(s, u, !s[k].isActive);
    SetActiveOnlyFlag(s, u, !s[k].isActive);
    FirstIndexUnique(once, u, k);
    var twice := SetActive(once, u, s[k].isActive);
    assert forall i | 0 <= i < |s| :: twice[i] == s[i] by {
      forall i | 0 <= i < |s| ensures twice[i] == s[i] {
        if i == k {
        } else {
          assert s[i].uuid != u;
        }
      }
    }
  }

  // ---------------------------------------------------------------------------
  // pendingUpdates: an insertion-ordered map from uuid to the latest flag
  // ---------------------------------------------------------------------------

  function PendingKeys(p: seq<ActiveUpdate>): (r: seq<string>)
    ensures |r| == |p|
    ensures forall i | 0 <= i < |p| :: r[i] == p[i].streamerUuid
  {
    seq(|p|, i requires 0 <= i < |p| => p[i].streamerUuid)
  }

  predicate DistinctKeys(p: seq<ActiveUpdate>) {
    forall i, j | 0 <= i < j < |p| :: p[i].streamerUuid != p[j].streamerUuid
  }

  /** `pendingUpdates.get(u)`. */
  function PendingGet(p: seq<ActiveUpdate>, u: string): (r: Option<bool>)
    ensures r.Some? <==> u in PendingKeys(p)
    ensures r.Some? ==> exists i | 0 <= i < |p| :: p[i] == ActiveUpdate(u, r.value)
  {
    if p == [] then None
    else if p[|p| - 1].streamerUuid == u then Some(p[|p| - 1].isActive)
    else
      assert PendingKeys(p) == PendingKeys(p[..|p| - 1]) + [p[|p| - 1].streamerUuid];
      PendingGet(p[..|p| - 1], u)
  }

  /**
   * `pendingUpdates.set(u, b)`: an existing key keeps its position and takes the new
   * value; a new key goes to the end.
   */
  function PendingSet(p: seq<ActiveUpdate>, u: string, b: bool): (r: seq<ActiveUpdate>)
    ensures u in PendingKeys(p) ==> |r| == |p| && PendingKeys(r) == PendingKeys(p)
    ensures u !in PendingKeys(p) ==> r == p + [ActiveUpdate(u, b)]
  {
    if u in PendingKeys(p) then
      seq(|p|, i requires 0 <= i < |p| => if p[i].streamerUuid == u then ActiveUpdate(u, b) else p[i])
    else p + [ActiveUpdate(u, b)]
  }

  /** After `set(u, b)` the map has distinct keys, `u` reads `b` and every other key reads as before. */
  lemma {:induction false} PendingSetSemantics(p: seq<ActiveUpdate>, u: string, b: bool, v: string)
    requires DistinctKeys(p)
    ensures DistinctKeys(PendingSet(p, u, b))
    ensures PendingGet(PendingSet(p, u, b), u) == Some(b)
    ensures v != u ==> PendingGet(PendingSet(p, u, b), v) == PendingGet(p, v)
  {
    var r := PendingSet(p, u, b);
    var k: nat;
    if u in PendingKeys(p) {
      k :| k < |p| && PendingKeys(p)[k] == u;
      PendingSetExisting(p, u, b, k);
    } else {
      k := |p|;
      PendingSetNew(p, u, b);
    }
    PendingGetIsUnique(r, u);
    if v != u {
      PendingGetIsUnique(r, v);
      PendingGetIsUnique(p, v);
      SameKeysElsewhere(p, r, u, v);
    }
  }

  /** Setting a present key rewrites its one entry in place. */
  lemma PendingSetExisting(p: seq<ActiveUpdate>, u: string, b: bool, k: nat)
    requires DistinctKeys(p) && k < |p| && p[k].streamerUuid == u
    ensures var r := PendingSet(p, u, b);
      |r| == |p| && DistinctKeys(r) && r[k] == ActiveUpdate(u, b) &&
      (forall i | 0 <= i < |p| :: r[i].streamerUuid == p[i].streamerUuid) &&
      (forall i | 0 <= i < |p| && p[i].streamerUuid != u :: r[i] == p[i])
  {
    assert PendingKeys(p)[k] == u;
  }

  /** Setting an absent key appends one entry. */
  lemma PendingSetNew(p: seq<ActiveUpdate>, u: string, b: bool)
    requires DistinctKeys(p) && u !in PendingKeys(p)
    ensures var r := PendingSet(p, u, b);
      |r| == |p| + 1 && DistinctKeys(r) && r[|p|] == ActiveUpdate(u, b) &&
      (forall i | 0 <= i < |p| :: r[i] == p[i])
  {
    forall i | 0 <= i < |p| ensures p[i].streamerUuid != u {
      assert PendingKeys(p)[i] == p[i].streamerUuid;
    }
  }

  /** A key other than the one set is present before exactly when it is present after. */
  lemma SameKeysElsewhere(p: seq<ActiveUpdate>, r: seq<ActiveUpdate>, u: string, v: string)
    requires |p| <= |r| && v != u
    requires forall i | 0 <= i < |p| :: r[i].streamerUuid == p[i].streamerUuid
    requires forall i | |p| <= i < |r| :: r[i].streamerUuid == u
    ensures v in PendingKeys(r) <==> v in PendingKeys(p)
  {
    if v in PendingKeys(r) {
      var i :| 0 <= i < |r| && PendingKeys(r)[i] == v;
      assert PendingKeys(p)[i] == v;
    }
    if v in PendingKeys(p) {
      var i :| 0 <= i < |p| && PendingKeys(p)[i] == v;
      assert PendingKeys(r)[i] == v;
    }
  }

  lemma PendingGetIsUnique(p: seq<ActiveUpdate>, u: string)
    ensures DistinctKeys(p) ==> forall i | 0 <= i < |p| && p[i].streamerUuid == u :: PendingGet(p, u) == Some(p[i].isActive)
  {
    if DistinctKeys(p) {
      forall i | 0 <= i < |p| && p[i].streamerUuid == u ensures PendingGet(p, u) == Some(p[i].isActive) {
        assert PendingKeys(p)[i] == u;
        var j :| 0 <= j < |p| && p[j] == ActiveUpdate(u, PendingGet(p, u).value);
        assert i == j;
      }
    }
  }

  /** A later `set` of the same key overwrites the earlier one: last write wins. */
  lemma PendingSetLastWins(p: seq<ActiveUpdate>, u: string, a: bool, b: bool)
    ensures PendingSet(PendingSet(p, u, a), u, b) == PendingSet(p, u, b)
  {
    var once := PendingSet(p, u, a);
    assert u in PendingKeys(once) by {
      if u !in PendingKeys(p) {
        assert PendingKeys(once)[|p|] == u;
      }
    }
  }

  /** The body of the batch call: one `{streamerUuid, isActive}` per pending key, in map order. */
  lemma BatchCoversEveryPendingKey(p: seq<ActiveUpdate>, u: string)
    requires DistinctKeys(p)
    ensures PendingGet(p, u).Some? <==> exists i | 0 <= i < |p| :: p[i].streamerUuid == u
    ensures PendingGet(p, u).Some? ==> |set i | 0 <= i < |p| && p[i].streamerUuid == u| == 1
  {
    if PendingGet(p, u).Some? {
      assert PendingKeys(p)[0] == p[0].streamerUuid;
      var k :| 0 <= k < |p| && PendingKeys(p)[k] == u;
      assert (set i | 0 <= i < |p| && p[i].streamerUuid == u) == {k};
    } else {
      forall i | 0 <= i < |p| ensures p[i].streamerUuid != u {
        assert PendingKeys(p)[i] == p[i].streamerUuid;
      }
    }
  }

  // ---------------------------------------------------------------------------
  // syncOnLogin
  // ---------------------------------------------------------------------------

  /** A server entry as merged: it keeps the local `isActive` of the first local entry with its uuid. */
  function Adopt(n: Streamer, current: seq<Streamer>): Streamer {
    if HasUuid(current, n.uuid) then n.(isActive := current[FirstIndex(current, n.uuid)].isActive) else n
  }

  /** The server list, entry by entry adopted. */
  function AdoptAll(server: seq<Streamer>, current: seq<Streamer>): (r: seq<Streamer>)
    ensures |r| == |server|
    ensures forall i | 0 <= i < |server| :: r[i] == Adopt(server[i], current)
  {
    seq(|server|, i requires 0 <= i < |server| => Adopt(server[i], current))
  }

  /** The local entries whose uuid the server list does not have, in local order. */
  function LocalOnly(current: seq<Streamer>, server: seq<Streamer>): (r: seq<Streamer>)
    ensures forall x :: x in r <==> x in current && !HasUuid(server, x.uuid)
    ensures IsSubsequence(r, current)
  {
    if current == [] then []
    else if HasUuid(server, current[0].uuid) then
      var rest := LocalOnly(current[1..], server);
      assert rest != [] ==> IsSubsequence(rest, current[1..]);
      rest
    else
      var rest := LocalOnly(current[1..], server);
      assert ([current[0]] + rest)[1..] == rest;
      [current[0]] + rest
  }

  /** The roster after a login: the server list, then the local-only entries. */
  function Merged(current: seq<Streamer>, server: seq<Streamer>): seq<Streamer> {
    AdoptAll(server, current) + LocalOnly(current, server)
  }

  /**
   * The merged roster starts with the server list in server order, each entry as the
   * server sent it except for `isActive`, which is the local value when the uuid was
   * known and the server's value (not forced to true) when it was not; the local-only
   * entries follow in their original order.
   */
  lemma MergedShape(current: seq<Streamer>, server: seq<Streamer>)
    ensures var m := Merged(current, server);
      |m| >= |server| &&
      Uuids(m)[..|server|] == Uuids(server) &&
      (forall i | 0 <= i < |server| :: m[i].(isActive := server[i].isActive) == server[i]) &&
      (forall i | 0 <= i < |server| && !HasUuid(current, server[i].uuid) :: m[i] == server[i]) &&
      (forall i | 0 <= i < |server| && HasUuid(current, server[i].uuid) ::
         m[i].isActive == current[FirstIndex(current, server[i].uuid)].isActive) &&
      m[|server|..] == LocalOnly(current, server) &&
      IsSubsequence(m[|server|..], current) &&
      (forall x :: x in m[|server|..] <==> x in current && !HasUuid(server, x.uuid))
  {
    var m := Merged(current, server);
    assert m[|server|..] == LocalOnly(current, server);
  }

  lemma {:induction false} LocalOnlyAppend(a: seq<Streamer>, b: seq<Streamer>, server: seq<Streamer>)
    ensures LocalOnly(a + b, server) == LocalOnly(a, server) + LocalOnly(b, server)
  {
    if a != [] {
      var ab := a + b;
      assert ab[1..] == a[1..] + b;
      assert ab[0] == a[0];
      LocalOnlyAppend(a[1..], b, server);
      if HasUuid(server, a[0].uuid) {
        assert LocalOnly(ab, server) == LocalOnly(a[1..] + b, server);
        assert LocalOnly(a, server) == LocalOnly(a[1..], server);
      } else {
        assert LocalOnly(ab, server) == [a[0]] + LocalOnly(a[1..] + b, server);
        assert LocalOnly(a, server) == [a[0]] + LocalOnly(a[1..], server);
      }
    } else {
      assert a + b == b;
    }
  }

  lemma {:induction false} LocalOnlyOfServerUuids(a: seq<Streamer>, server: seq<Streamer>)
    requires forall i | 0 <= i < |a| :: HasUuid(server, a[i].uuid)
    ensures LocalOnly(a, server) == []
  {
    if a != [] {
      LocalOnlyOfServerUuids(a[1..], server);
    }
  }

  lemma {:induction false} LocalOnlyIdempotent(c: seq<Streamer>, server: seq<Streamer>)
    ensures LocalOnly(LocalOnly(c, server), server) == LocalOnly(c, server)
  {
    if c != [] {
      LocalOnlyIdempotent(c[1..], server);
      var rest := LocalOnly(c[1..], server);
      if !HasUuid(server, c[0].uuid) {
        assert ([c[0]] + rest)[1..] == rest;
      }
    }
  }

  /** Logging in twice with the same server list (no duplicate uuids) gives the same roster as once. */
  lemma SyncOnLoginIdempotent(current: seq<Streamer>, server: seq<Streamer>)
    requires DistinctUuids(server)
    ensures Merged(Merged(current, server), server) == Merged(current, server)
  {
    var m := Merged(current, server);
    var a := AdoptAll(server, current);
    var l := LocalOnly(current, server);
    forall i | 0 <= i < |server| ensures AdoptAll(server, m)[i] == a[i] {
      AdoptFromMerged(current, server, i);
    }
    assert AdoptAll(server, m) == a;
    assert forall i | 0 <= i < |a| :: HasUuid(server, a[i].uuid) by {
      forall i | 0 <= i < |a| ensures HasUuid(server, a[i].uuid) {
        assert Uuids(server)[i] == a[i].uuid;
      }
    }
    LocalOnlyAppend(a, l, server);
    LocalOnlyOfServerUuids(a, server);
    LocalOnlyIdempotent(current, server);
    assert LocalOnly(m, server) == l;
    assert Merged(m, server) == AdoptAll(server, m) + LocalOnly(m, server) == a + l;
  }

  /** A server entry adopted again from the merged roster finds its own merged entry. */
  lemma AdoptFromMerged(current: seq<Streamer>, server: seq<Streamer>, i: int)
    requires DistinctUuids(server) && 0 <= i < |server|
    ensures Adopt(server[i], Merged(current, server)) == AdoptAll(server, current)[i]
  {
    var m := Merged(current, server);
    var a := AdoptAll(server, current);
    var u := server[i].uuid;
    assert m[i] == a[i];
    assert HasUuid(m, u);
    var k := FirstIndex(m, u);
    assert k <= i;
    assert m[k] == a[k] && a[k].uuid == server[k].uuid;
    assert k == i;
  }

  /** Two rosters without duplicates merge into a roster without duplicates. */
  lemma MergedDistinct(current: seq<Streamer>, server: seq<Streamer>)
    requires DistinctUuids(current) && DistinctUuids(server)
    ensures DistinctUuids(Merged(current, server))
  {
    var a := AdoptAll(server, current);
    var l := LocalOnly(current, server);
    LocalOnlyDistinct(current, server);
    var m := a + l;
    forall i, j | 0 <= i < j < |m| ensures m[i].uuid != m[j].uuid {
      if j >= |a| && i < |a| {
        assert m[j] in l;
        assert Uuids(server)[i] == m[i].uuid;
      }
      if j >= |a| && i >= |a| {
        assert m[i] == l[i - |a|] && m[j] == l[j - |a|];
      }
    }
  }

  lemma {:induction false} LocalOnlyDistinct(c: seq<Streamer>, server: seq<Streamer>)
    requires DistinctUuids(c)
    ensures DistinctUuids(LocalOnly(c, server))
  {
    if c != [] {
      DistinctCons(c[0], c[1..]);
      assert [c[0]] + c[1..] == c;
      LocalOnlyDistinct(c[1..], server);
      var rest := LocalOnly(c[1..], server);
      if !HasUuid(server, c[0].uuid) {
        NotInSublist(c[0].uuid, rest, c[1..]);
        DistinctCons(c[0], rest);
      }
    }
  }

  // ---------------------------------------------------------------------------
  // updateStreamers
  // ---------------------------------------------------------------------------

  /** `new Map(list.map(s => [s.uuid, s])).get(u)`: for a repeated uuid the later entry wins. */
  function LastByUuid(news: seq<Streamer>, u: string): (r: Option<Streamer>)
    ensures r.Some? <==> HasUuid(news, u)
    ensures r.Some? ==> r.value.uuid == u && r.value in news
    ensures r.Some? ==> exists k | 0 <= k < |news| :: news[k] == r.value && forall j | k < j < |news| :: news[j].uuid != u
  {
    if news == [] then None
    else
      var init := news[..|news| - 1];
      assert Uuids(news) == Uuids(init) + [news[|news| - 1].uuid];
      if news[|news| - 1].uuid == u then Some(news[|news| - 1])
      else
        var r := LastByUuid(init, u);
        assert r.Some? ==> r.value in news by {
          if r.Some? { assert r.value in init; }
        }
        r
  }

  /** One entry refreshed: the new data for its uuid if any, with the entry's own `isActive`. */
  function RefreshOne(x: Streamer, news: seq<Streamer>): (r: Streamer)
    ensures r.uuid == x.uuid && r.isActive == x.isActive
  {
    match LastByUuid(news, x.uuid)
    case None => x
    case Some(n) => n.(isActive := x.isActive)
  }

  function Refreshed(current: seq<Streamer>, news: seq<Streamer>): (r: seq<Streamer>)
    ensures |r| == |current|
    ensures forall i | 0 <= i < |current| :: r[i] == RefreshOne(current[i], news)
  {
    seq(|current|, i requires 0 <= i < |current| => RefreshOne(current[i], news))
  }

  /** The entries ordered by `updateStreamers`' stable sort: active ones first, each group in list order. */
  function ActiveFirst(s: seq<Streamer>): seq<Streamer> {
    ActiveEntries(s) + InactiveEntries(s)
  }

  /** No inactive entry precedes an active one. */
  predicate SortedByActivity(s: seq<Streamer>) {
    forall i, j | 0 <= i < j < |s| :: s[j].isActive ==> s[i].isActive
  }

  lemma {:induction false} ActiveInactiveSplit(s: seq<Streamer>)
    ensures multiset(ActiveEntries(s)) + multiset(InactiveEntries(s)) == multiset(s)
    ensures |ActiveEntries(s)| + |InactiveEntries(s)| == |s|
  {
    if s != [] {
      ActiveInactiveSplit(s[1..]);
      assert s == [s[0]] + s[1..];
    }
  }

  lemma {:induction false} SortedIsSplit(s: seq<Streamer>)
    requires SortedByActivity(s)
    ensures s == ActiveEntries(s) + InactiveEntries(s)
  {
    if s != [] {
      assert [s[0]] + s[1..] == s;
      if s[0].isActive {
        assert SortedByActivity(s[1..]) by {
          forall i, j | 0 <= i < j < |s[1..]| && s[1..][j].isActive ensures s[1..][i].isActive {
            assert s[1..][i] == s[i + 1] && s[1..][j] == s[j + 1];
          }
        }
        SortedIsSplit(s[1..]);
      } else {
        forall x | x in s[1..] ensures !x.isActive {
          var j :| 0 <= j < |s[1..]| && s[1..][j] == x;
          assert s[j + 1] == x;
        }
        InactiveOfAllInactive(s[1..]);
      }
    }
  }

  /**
   * `ActiveFirst` is what a stable sort by the comparator "active before inactive"
   * returns: it is sorted, a permutation of the input, keeps the relative order within
   * each group, and it is the only list with those three properties.
   */
  lemma ActiveFirstIsStableSort(s: seq<Streamer>, other: seq<Streamer>)
    ensures SortedByActivity(ActiveFirst(s))
    ensures multiset(ActiveFirst(s)) == multiset(s)
    ensures ActiveEntries(ActiveFirst(s)) == ActiveEntries(s)
    ensures InactiveEntries(ActiveFirst(s)) == InactiveEntries(s)
    ensures (SortedByActivity(other) && ActiveEntries(other) == ActiveEntries(s) &&
             InactiveEntries(other) == InactiveEntries(s)) ==> other == ActiveFirst(s)
  {
    ActiveInactiveSplit(s);
    var a := ActiveEntries(s);
    var n := InactiveEntries(s);
    var r := a + n;
    assert forall i | 0 <= i < |a| :: a[i] in a;
    assert forall i | 0 <= i < |n| :: n[i] in n;
    assert SortedByActivity(r);
    ActiveOfAllActive(a);
    InactiveOfAllInactive(n);
    ActiveEntriesAppend(a, n);
    InactiveEntriesAppend(a, n);
    if SortedByActivity(other) && ActiveEntries(other) == a && InactiveEntries(other) == n {
      SortedIsSplit(other);
    }
  }

  lemma {:induction false} ActiveOfAllActive(a: seq<Streamer>)
    requires forall x | x in a :: x.isActive
    ensures ActiveEntries(a) == a && InactiveEntries(a) == []
  {
    if a != [] {
      ActiveOfAllActive(a[1..]);
      assert [a[0]] + a[1..] == a;
    }
  }

  lemma {:induction false} InactiveOfAllInactive(n: seq<Streamer>)
    requires forall x | x in n :: !x.isActive
    ensures InactiveEntries(n) == n && ActiveEntries(n) == []
  {
    if n != [] {
      InactiveOfAllInactive(n[1..]);
      assert [n[0]] + n[1..] == n;
    }
  }

  lemma {:induction false} ActiveEntriesAppend(a: seq<Streamer>, b: seq<Streamer>)
    ensures ActiveEntries(a + b) == ActiveEntries(a) + ActiveEntries(b)
  {
    if a == [] {
      assert a + b == b;
    } else {
      assert (a + b)[1..] == a[1..] + b;
      ActiveEntriesAppend(a[1..], b);
    }
  }

  lemma {:induction false} InactiveEntriesAppend(a: seq<Streamer>, b: seq<Streamer>)
    ensures InactiveEntries(a + b) == InactiveEntries(a) + InactiveEntries(b)
  {
    if a == [] {
      assert a + b == b;
    } else {
      assert (a + b)[1..] == a[1..] + b;
      InactiveEntriesAppend(a[1..], b);
    }
  }

  /**
   * A refresh never adds or removes entries and never changes a flag: the refreshed
   * roster has the same uuids, in the same order, each with its old `isActive`; an
   * entry whose uuid is not in the new data is kept as it was, and an entry whose
   * uuid is there takes the last new record for it.
   */
  lemma RefreshKeepsRoster(current: seq<Streamer>, news: seq<Streamer>)
    ensures Uuids(Refreshed(current, news)) == Uuids(current)
    ensures forall i | 0 <= i < |current| :: Refreshed(current, news)[i].isActive == current[i].isActive
    ensures forall i | 0 <= i < |current| && !HasUuid(news, current[i].uuid) :: Refreshed(current, news)[i] == current[i]
    ensures forall i | 0 <= i < |current| && HasUuid(news, current[i].uuid) ::
      Refreshed(current, news)[i] == LastByUuid(news, current[i].uuid).value.(isActive := current[i].isActive)
  {
  }

  /** After a refresh the roster holds the same uuids, each as often as before. */
  lemma UpdateKeepsUuidMultiset(current: seq<Streamer>, news: seq<Streamer>)
    ensures multiset(Uuids(ActiveFirst(Refreshed(current, news)))) == multiset(Uuids(current))
  {
    var r := Refreshed(current, news);
    ActiveFirstIsStableSort(r, r);
    UuidsMultiset(ActiveFirst(r), r);
    RefreshKeepsRoster(current, news);
  }

  lemma UuidsMultiset(a: seq<Streamer>, b: seq<Streamer>)
    requires multiset(a) == multiset(b)
    ensures multiset(Uuids(a)) == multiset(Uuids(b))
    decreases |a|
  {
    if a == [] {
      assert |b| == |multiset(b)| == 0;
    } else {
      var x := a[0];
      assert x in multiset(a);
      var b1, b2 := SplitAround(b, x);
      var a1 := a[1..];
      assert a == [] + [x] + a1 && [] + a1 == a1;
      MultisetCancel(x, a1, b1, b2);
      UuidsMultiset(a1, b1 + b2);
      UuidsMultisetSplit([], x, a1);
      UuidsMultisetSplit(b1, x, b2);
      calc {
        multiset(Uuids(a));
        multiset(Uuids(a1)) + multiset{x.uuid};
        multiset(Uuids(b1 + b2)) + multiset{x.uuid};
        multiset(Uuids(b));
      }
    }
  }

  /** An element of a list splits it into the part before one of its occurrences and the part after. */
  lemma SplitAround<T>(b: seq<T>, x: T) returns (b1: seq<T>, b2: seq<T>)
    requires x in multiset(b)
    ensures b == b1 + [x] + b2
  {
    var k :| 0 <= k < |b| && b[k] == x;
    b1, b2 := b[..k], b[k + 1..];
    assert b == b1 + [x] + b2;
  }

  /** Taking one entry out of a list takes its uuid out of the uuids' multiset. */
  lemma UuidsMultisetSplit(b1: seq<Streamer>, x: Streamer, b2: seq<Streamer>)
    ensures multiset(Uuids(b1 + [x] + b2)) == multiset(Uuids(b1 + b2)) + multiset{x.uuid}
  {
    UuidsAppend(b1 + [x], b2);
    UuidsAppend(b1, [x]);
    UuidsAppend(b1, b2);
    assert Uuids([x]) == [x.uuid];
  }

  lemma UuidsAppend(a: seq<Streamer>, b: seq<Streamer>)
    ensures Uuids(a + b) == Uuids(a) + Uuids(b)
  {
  }

  lemma MultisetCancel<T>(x: T, r: seq<T>, b1: seq<T>, b2: seq<T>)
    requires multiset([x] + r) == multiset(b1 + [x] + b2)
    ensures multiset(r) == multiset(b1 + b2)
  {
    calc {
      multiset(r);
      multiset([x] + r) - multiset{x};
      multiset(b1 + [x] + b2) - multiset{x};
      multiset(b1) + multiset{x} + multiset(b2) - multiset{x};
      multiset(b1 + b2);
    }
  }

  // ---------------------------------------------------------------------------
  // The store
  // ---------------------------------------------------------------------------

  class MyStreamersStore {
    /** The persisted roster. */
    var streamers: seq<Streamer>
    /** The module-level map of not yet saved active-flag changes. */
    var pendingUpdates: seq<ActiveUpdate>
    /** Whether the debounce timer is set. */
    var timerArmed: bool

    /** The pending map has one entry per uuid, and whenever it holds anything a flush is scheduled. */
    ghost predicate Valid()
      reads this
    {
      DistinctKeys(pendingUpdates) && (pendingUpdates != [] ==> timerArmed)
    }

    constructor()
      ensures Valid()
      ensures streamers == [] && pendingUpdates == [] && !timerArmed
    {
      streamers := [];
      pendingUpdates := [];
      timerArmed := false;
    }

    /**
     * Adds a streamer in front of the roster, marked active, unless its uuid is
     * already there; the result says whether it was added.
     */
    method Add(s: Streamer) returns (added: bool)
      modifies this
      ensures added <==> !HasUuid(old(streamers), s.uuid)
      ensures added ==> streamers == [s.(isActive := true)] + old(streamers)
      ensures !added ==> streamers == old(streamers)
      ensures DistinctUuids(old(streamers)) ==> DistinctUuids(streamers)
      ensures pendingUpdates == old(pendingUpdates) && timerArmed == old(timerArmed)
    {
      if HasUuid(streamers, s.uuid) {
        return false;
      }
      DistinctCons(s.(isActive := true), streamers);
      streamers := [s.(isActive := true)] + streamers;
      return true;
    }

    /** Removes the entry with the given uuid; the result says whether there was one. */
    method Remove(u: string) returns (removed: bool)
      modifies this
      ensures removed <==> HasUuid(old(streamers), u)
      ensures streamers == WithoutUuid(old(streamers), u)
      ensures !removed ==> streamers == old(streamers)
      ensures DistinctUuids(old(streamers)) ==> DistinctUuids(streamers)
      ensures pendingUpdates == old(pendingUpdates) && timerArmed == old(timerArmed)
    {
      if !HasUuid(streamers, u) {
        return false;
      }
      if DistinctUuids(streamers) {
        WithoutUuidDistinct(streamers, u);
      }
      streamers := WithoutUuid(streamers, u);
      return true;
    }

    /** The uuids the calendar fetches schedules for. */
    function GetScheduleFetchUuids(): (r: seq<string>)
      reads this
      ensures IsSubsequence(r, GetUuidsToDisplay())
      ensures forall u :: u in r <==> exists x | x in streamers :: x.isActive && x.uuid == u
    {
      ActiveUuidsSubsequence(streamers);
      ActiveUuids(streamers)
    }

    /** Every uuid of the roster, in roster order. */
    function GetUuidsToDisplay(): (r: seq<string>)
      reads this
      ensures |r| == |streamers| && forall i | 0 <= i < |r| :: r[i] == streamers[i].uuid
    {
      Uuids(streamers)
    }

    /**
     * Flips the active flag of the first entry with the uuid and writes the new value
     * into every entry with that uuid, without re-sorting. When that entry is
     * followed, the change is queued (replacing a queued change of the same uuid) and
     * the debounce timer is restarted. The result says whether the uuid was found.
     */
    method ToggleIsActive(u: string) returns (found: bool)
      requires Valid()
      modifies this
      ensures Valid()
      ensures found <==> HasUuid(old(streamers), u)
      ensures !found ==> streamers == old(streamers) && pendingUpdates == old(pendingUpdates) && timerArmed == old(timerArmed)
      ensures found ==>
        var e := old(streamers)[FirstIndex(old(streamers), u)];
        streamers == SetActive(old(streamers), u, !e.isActive) &&
        (e.isFollowed ==> pendingUpdates == PendingSet(old(pendingUpdates), u, !e.isActive) && timerArmed) &&
        (!e.isFollowed ==> pendingUpdates == old(pendingUpdates) && timerArmed == old(timerArmed))
    {
      if !HasUuid(streamers, u) {
        return false;
      }
      var e := streamers[FirstIndex(streamers, u)];
      var newIsActive := !e.isActive;
      streamers := SetActive(streamers, u, newIsActive);
      if e.isFollowed {
        PendingSetSemantics(pendingUpdates, u, newIsActive, u);
        pendingUpdates := PendingSet(pendingUpdates, u, newIsActive);
        timerArmed := true;
      }
      return true;
    }

    /**
     * `saveBatchActiveState`: with nothing queued, no request; otherwise exactly one
     * batch request carrying the queued changes. The queue is empty afterwards whether
     * the request succeeded or not.
     */
    method SaveBatchActiveState(net: Network, succeeded: bool)
      requires Valid()
      modifies this, net
      ensures Valid()
      ensures old(pendingUpdates) == [] ==> net.log == old(net.log)
      ensures old(pendingUpdates) != [] ==> net.log == old(net.log) + [SaveBatchActiveFollowing(old(pendingUpdates))]
      ensures pendingUpdates == []
      ensures streamers == old(streamers) && timerArmed == old(timerArmed)
    {
      if pendingUpdates == [] {
        return;
      }
      net.Send(SaveBatchActiveFollowing(pendingUpdates));
      if succeeded {
        pendingUpdates := [];
      } else {
        pendingUpdates := [];
      }
    }

    /** The debounce timer firing: the batch is saved and the timer is cleared. */
    method Flush(net: Network, succeeded: bool)
      requires Valid() && timerArmed
      modifies this, net
      ensures Valid()
      ensures old(pendingUpdates) == [] ==> net.log == old(net.log)
      ensures old(pendingUpdates) != [] ==> net.log == old(net.log) + [SaveBatchActiveFollowing(old(pendingUpdates))]
      ensures pendingUpdates == [] && !timerArmed && streamers == old(streamers)
    {
      SaveBatchActiveState(net, succeeded);
      timerArmed := false;
    }

    /** Replaces the roster by its merge with the list the server holds for the user. */
    method SyncOnLogin(server: seq<Streamer>)
      modifies this
      ensures streamers == Merged(old(streamers), server)
      ensures DistinctUuids(old(streamers)) && DistinctUuids(server) ==> DistinctUuids(streamers)
      ensures pendingUpdates == old(pendingUpdates) && timerArmed == old(timerArmed)
    {
      if DistinctUuids(streamers) && DistinctUuids(server) {
        MergedDistinct(streamers, server);
      }
      streamers := AdoptAll(server, streamers) + LocalOnly(streamers, server);
    }

    /**
     * Refreshes the roster's entries from fresh server data and puts the active
     * entries first; an empty refresh changes nothing.
     */
    method UpdateStreamers(news: seq<Streamer>)
      modifies this
      ensures news == [] ==> streamers == old(streamers)
      ensures news != [] ==> streamers == ActiveFirst(Refreshed(old(streamers), news))
      ensures SortedByActivity(streamers) || news == []
      ensures multiset(Uuids(streamers)) == multiset(Uuids(old(streamers)))
      ensures pendingUpdates == old(pendingUpdates) && timerArmed == old(timerArmed)
    {
      if news == [] {
        return;
      }
      var updated := Refreshed(streamers, news);
      ActiveFirstIsStableSort(updated, updated);
      UpdateKeepsUuidMultiset(streamers, news);
      streamers := ActiveEntries(updated) + InactiveEntries(updated);
    }
  }
}
