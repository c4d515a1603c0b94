/** Which videos a profile page shows: the profile owner's videos, and when
    there are none, nothing on one's own profile or the first three videos of
    the feed on someone else's. */
module ProfileView {
  import opened Types

  /** `r` is `s` with some elements left out, the rest in their order. */
  ghost predicate Subsequence(r: seq<VideoData>, s: seq<VideoData>)
    decreases |s|
  {
    if r == [] then true
    else if s == [] then false
    else (r[0] == s[0] && Subsequence(r[1..], s[1..])) || Subsequence(r, s[1..])
  }

  /** `vs.filter(keep)`: every video that passes, in feed order. */
  function Filter(vs: seq<VideoData>, keep: VideoData -> bool): (r: seq<VideoData>)
    ensures |r| <= |vs|
    ensures Subsequence(r, vs)
    ensures forall v :: v in r <==> v in vs && keep(v)
  {
    if vs == [] then []
    else if keep(vs[0]) then [vs[0]] + Filter(vs[1..], keep)
    else Filter(vs[1..], keep)
  }

  /** Filtering a concatenation filters each part: together with filtering a
      single video (kept exactly when it passes) this pins `Filter` down as
      "the passing videos, in order". */
  lemma {:induction false} FilterAppend(a: seq<VideoData>, b: seq<VideoData>, keep: VideoData -> bool)
    ensures Filter(a + b, keep) == Filter(a, keep) + Filter(b, keep)
    ensures forall v :: Filter([v], keep) == if keep(v) then [v] else []
  {
    if a != [] {
      FilterAppend(a[1..], b, keep);
      assert (a + b)[1..] == a[1..] + b;
    } else {
      assert a + b == b;
    }
    forall v ensures Filter([v], keep) == if keep(v) then [v] else [] {
      assert [v][1..] == [];
    }
  }

  /** A video of the signed-in user: `v.username === 'me' || v.username === 'currentUser'`. */
  predicate IsOwnVideo(v: VideoData)
  {
    v.username == "me" || v.username == "currentUser"
  }

  /** The filter a profile applies: the signed-in user's videos on one's own
      profile, otherwise the videos posted under `username`. */
  function OwnerTest(username: string, isCurrentUser: bool): VideoData -> bool
  {
    if isCurrentUser then (v: VideoData) => IsOwnVideo(v)
    else (v: VideoData) => v.username == username
  }

  /** `userVideos`: exactly the profile owner's videos, in feed order. */
  function UserVideos(videos: seq<VideoData>, username: string, isCurrentUser: bool): (r: seq<VideoData>)
    ensures Subsequence(r, videos)
    ensures isCurrentUser ==> forall v :: v in r <==> v in videos && IsOwnVideo(v)
    ensures !isCurrentUser ==> forall v :: v in r <==> v in videos && v.username == username
  {
    Filter(videos, OwnerTest(username, isCurrentUser))
  }

  /** `displayVideos`: the owner's videos when there are any; otherwise nothing
      on one's own profile and the first `min(3, |videos|)` feed videos on
      someone else's. The page is empty exactly when the feed is, or when it is
      one's own profile and the feed holds none of one's videos. */
  function DisplayVideos(videos: seq<VideoData>, username: string, isCurrentUser: bool): (r: seq<VideoData>)
    ensures UserVideos(videos, username, isCurrentUser) != [] ==> r == UserVideos(videos, username, isCurrentUser)
    ensures UserVideos(videos, username, isCurrentUser) == [] && isCurrentUser ==> r == []
    ensures UserVideos(videos, username, isCurrentUser) == [] && !isCurrentUser ==>
      |r| == (if |videos| < 3 then |videos| else 3) && r == videos[..|r|]
    ensures r == [] <==> videos == [] || (isCurrentUser && forall v :: v in videos ==> !IsOwnVideo(v))
  {
    var own := UserVideos(videos, username, isCurrentUser);
    if |own| > 0 then
      assert own[0] in own;
      own
    else if isCurrentUser then []
    else videos[..if |videos| < 3 then |videos| else 3]
  }
}
