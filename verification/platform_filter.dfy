/**
 * The platform filter the home calendar and the streamer directory page share: a list
 * of selected platforms in which a checkbox click removes the platform when it is
 * there and appends it when it is not.
 */
module PlatformFilter {

  datatype Platform = Chzzk | Soop | Youtube {
    /** The platform's key as the server knows it. */
    function Name(): (s: string)
      ensures s == "chzzk" <==> this == Chzzk
      ensures s == "soop" <==> this == Soop
      ensures s == "youtube" <==> this == Youtube
    {
      match this
      case Chzzk => "chzzk"
      case Soop => "soop"
      case Youtube => "youtube"
    }
  }

  /** Every platform, in the order the home calendar starts with. */
  const AllPlatforms: seq<Platform> := [Chzzk, Soop, Youtube]

  function Names(ps: seq<Platform>): (r: seq<string>)
    ensures |r| == |ps| && forall i | 0 <= i < |ps| :: r[i] == ps[i].Name()
  {
    seq(|ps|, i requires 0 <= i < |ps| => ps[i].Name())
  }

  /** `prev.filter(x => x !== p)`. */
  function Without(ps: seq<Platform>, p: Platform): (r: seq<Platform>)
    ensures forall q :: q in r <==> q in ps && q != p
    ensures |r| <= |ps|
    ensures p !in ps ==> r == ps
  {
    if ps == [] then []
    else if ps[0] == p then Without(ps[1..], p)
    else [ps[0]] + Without(ps[1..], p)
  }

  /** `prev.includes(p) ? prev.filter(x => x !== p) : [...prev, p]`. */
  function Toggle(ps: seq<Platform>, p: Platform): (r: seq<Platform>)
  {
    if p in ps then Without(ps, p) else ps + [p]
  }

  /** A click flips the clicked platform's membership and keeps every other platform's. */
  lemma ToggleFlips(ps: seq<Platform>, p: Platform)
    ensures p in Toggle(ps, p) <==> p !in ps
    ensures forall q | q != p :: q in Toggle(ps, p) <==> q in ps
  {
  }

  /** Two clicks on the same platform restore the selection as a set, and the list itself when the platform was not selected. */
  lemma ToggleTwice(ps: seq<Platform>, p: Platform)
    ensures forall q :: q in Toggle(Toggle(ps, p), p) <==> q in ps
    ensures p !in ps ==> Toggle(Toggle(ps, p), p) == ps
  {
    if p !in ps {
      assert (ps + [p])[..|ps|] == ps;
      WithoutAppend(ps, p);
    }
  }

  lemma {:induction false} WithoutAppend(ps: seq<Platform>, p: Platform)
    requires p !in ps
    ensures Without(ps + [p], p) == ps
  {
    if ps != [] {
      assert (ps + [p])[1..] == ps[1..] + [p];
      WithoutAppend(ps[1..], p);
    }
  }

  /** A selection without repeats keeps having none. */
  lemma ToggleKeepsDistinct(ps: seq<Platform>, p: Platform)
    requires forall i, j | 0 <= i < j < |ps| :: ps[i] != ps[j]
    ensures var r := Toggle(ps, p); forall i, j | 0 <= i < j < |r| :: r[i] != r[j]
  {
    if p in ps {
      WithoutDistinct(ps, p);
      assert Toggle(ps, p) == Without(ps, p);
    } else {
      var r := ps + [p];
      assert Toggle(ps, p) == r;
      assert forall i | 0 <= i < |ps| :: r[i] == ps[i] && ps[i] != p;
    }
  }

  lemma {:induction false} WithoutDistinct(ps: seq<Platform>, p: Platform)
    requires forall i, j | 0 <= i < j < |ps| :: ps[i] != ps[j]
    ensures var r := Without(ps, p); forall i, j | 0 <= i < j < |r| :: r[i] != r[j]
  {
    if ps != [] {
      WithoutDistinct(ps[1..], p);
      if ps[0] != p {
        var r := Without(ps, p);
        assert r == [ps[0]] + Without(ps[1..], p);
        assert ps[0] !in ps[1..];
      }
    }
  }
}
