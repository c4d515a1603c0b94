/** The per-video updates behind the feed's interaction handlers: each one is a
    `map` over the feed that rewrites every video whose id matches and keeps
    every other video as it is, or (for an upload) a prepend. */
module Interactions {
  import opened Types

  /** The shape shared by the handlers: `vs.map(v => v.id === id ? f(v) : v)`. */
  function UpdateMatching(vs: seq<VideoData>, id: string, f: VideoData -> VideoData): (r: seq<VideoData>)
    ensures |r| == |vs|
    ensures forall i :: 0 <= i < |vs| ==> r[i] == (if vs[i].id == id then f(vs[i]) else vs[i])
  {
    if vs == [] then []
    else [if vs[0].id == id then f(vs[0]) else vs[0]] + UpdateMatching(vs[1..], id, f)
  }

  /** An update that keeps the id keeps the feed's id order. */
  lemma UpdateMatchingKeepsIds(vs: seq<VideoData>, id: string, f: VideoData -> VideoData)
    requires forall v :: f(v).id == v.id
    ensures Ids(UpdateMatching(vs, id, f)) == Ids(vs)
  {
    var r := UpdateMatching(vs, id, f);
    assert forall i :: 0 <= i < |vs| ==> Ids(r)[i] == Ids(vs)[i];
  }

  // ---------------------------------------------------------------- like

  function LikeFlipped(v: VideoData): VideoData
  {
    v.(isLiked := !v.isLiked, likes := if v.isLiked then v.likes - 1 else v.likes + 1)
  }

  /** `handleToggleLike(id)`: flips the liked flag of every matching video and
      moves its like count one step in the same direction; no clamping at zero. */
  function ToggleLike(vs: seq<VideoData>, id: string): (r: seq<VideoData>)
    ensures |r| == |vs| && Ids(r) == Ids(vs)
    ensures forall i :: 0 <= i < |vs| && vs[i].id == id ==>
      && r[i].isLiked == !vs[i].isLiked
      && r[i].likes == (if vs[i].isLiked then vs[i].likes - 1 else vs[i].likes + 1)
      && r[i].(isLiked := vs[i].isLiked, likes := vs[i].likes) == vs[i]
    ensures forall i :: 0 <= i < |vs| && vs[i].id != id ==> r[i] == vs[i]
  {
    UpdateMatchingKeepsIds(vs, id, LikeFlipped);
    UpdateMatching(vs, id, LikeFlipped)
  }

  /** Toggling the like of the same id twice gives back the original feed. */
  lemma {:induction false} ToggleLikeInvolution(vs: seq<VideoData>, id: string)
    ensures ToggleLike(ToggleLike(vs, id), id) == vs
  {
    var once := ToggleLike(vs, id);
    var twice := ToggleLike(once, id);
    forall i | 0 <= i < |vs|
      ensures twice[i] == vs[i]
    {
      assert once[i].id == vs[i].id by { assert Ids(once)[i] == Ids(vs)[i]; }
    }
  }

  /** 1 for a liked video, 0 otherwise. */
  function LikedBit(v: VideoData): int
  {
    if v.isLiked then 1 else 0
  }

  /** `n` successive `handleToggleLike(id)` calls. */
  function ToggleLikeTimes(vs: seq<VideoData>, id: string, n: nat): (r: seq<VideoData>)
    ensures |r| == |vs|
  {
    if n == 0 then vs else ToggleLike(ToggleLikeTimes(vs, id, n - 1), id)
  }

  /** After `n` toggles a matching video is liked exactly when it started liked
      an even number of toggles ago, and its like count moved with the flag: it
      is the old count less the old flag plus the new flag. Other videos and
      every other field are untouched. */
  lemma {:induction false} ToggleLikeTimesEffect(vs: seq<VideoData>, id: string, n: nat)
    ensures Ids(ToggleLikeTimes(vs, id, n)) == Ids(vs)
    ensures forall i :: 0 <= i < |vs| && vs[i].id == id ==>
      var r := ToggleLikeTimes(vs, id, n);
      && r[i].isLiked == (if n % 2 == 0 then vs[i].isLiked else !vs[i].isLiked)
      && r[i].likes == vs[i].likes - LikedBit(vs[i]) + LikedBit(r[i])
      && r[i].(isLiked := vs[i].isLiked, likes := vs[i].likes) == vs[i]
    ensures forall i :: 0 <= i < |vs| && vs[i].id != id ==> ToggleLikeTimes(vs, id, n)[i] == vs[i]
  {
    if n > 0 {
      ToggleLikeTimesEffect(vs, id, n - 1);
      var prev := ToggleLikeTimes(vs, id, n - 1);
      forall i | 0 <= i < |vs|
        ensures prev[i].id == vs[i].id
      {
        assert Ids(prev)[i] == Ids(vs)[i];
      }
    }
  }

  // ------------------------------------------------------------ favorite

  function FavoriteFlipped(v: VideoData): VideoData
  {
    v.(isFavorited := !v.isFavorited)
  }

  /** `handleToggleFavorite(id)`: flips only the favorited flag of every matching video. */
  function ToggleFavorite(vs: seq<VideoData>, id: string): (r: seq<VideoData>)
    ensures |r| == |vs| && Ids(r) == Ids(vs)
    ensures forall i :: 0 <= i < |vs| && vs[i].id == id ==>
      && r[i].isFavorited == !vs[i].isFavorited
      && r[i].(isFavorited := vs[i].isFavorited) == vs[i]
    ensures forall i :: 0 <= i < |vs| && vs[i].id != id ==> r[i] == vs[i]
  {
    UpdateMatchingKeepsIds(vs, id, FavoriteFlipped);
    UpdateMatching(vs, id, FavoriteFlipped)
  }

  /** Toggling the favorite of the same id twice gives back the original feed. */
  lemma {:induction false} ToggleFavoriteInvolution(vs: seq<VideoData>, id: string)
    ensures ToggleFavorite(ToggleFavorite(vs, id), id) == vs
  {
    var once := ToggleFavorite(vs, id);
    var twice := ToggleFavorite(once, id);
    forall i | 0 <= i < |vs|
      ensures twice[i] == vs[i]
    {
      assert once[i].id == vs[i].id by { assert Ids(once)[i] == Ids(vs)[i]; }
    }
  }

  // --------------------------------------------------------------- share

  function ShareCounted(v: VideoData): VideoData
  {
    v.(shares := v.shares + 1)
  }

  /** The counter part of `handleShare(id)`: the share count of every matching
      video goes up by exactly one; nothing else changes. */
  function Share(vs: seq<VideoData>, id: string): (r: seq<VideoData>)
    ensures |r| == |vs| && Ids(r) == Ids(vs)
    ensures forall i :: 0 <= i < |vs| && vs[i].id == id ==>
      && r[i].shares == vs[i].shares + 1
      && r[i].(shares := vs[i].shares) == vs[i]
    ensures forall i :: 0 <= i < |vs| && vs[i].id != id ==> r[i] == vs[i]
  {
    UpdateMatchingKeepsIds(vs, id, ShareCounted);
    UpdateMatching(vs, id, ShareCounted)
  }

  // ------------------------------------------------------------- comment

  /** The comment `handleAddComment` builds from the submitted text. */
  function NewComment(id: string, text: string): (c: Comment)
    ensures c.id == id && c.username == "me" && c.text == text
    ensures c.timestamp == "Just now" && c.likes == 0
  {
    Comment(id, "me", "https://picsum.photos/100/100?random=99", text, "Just now", 0)
  }

  function CommentAppended(c: Comment): VideoData -> VideoData
  {
    (v: VideoData) => v.(commentList := v.commentList + [c], comments := v.comments + 1)
  }

  /** True when `if (!activeCommentVideoId) return;` returns: the id is null
      or the empty string, both falsy in JavaScript. */
  predicate NoTarget(target: Option<string>): (none: bool)
    ensures none <==> target == None || target == Some("")
  {
    target.None? || target.value == ""
  }

  /** `handleAddComment(text)` for the video whose comment drawer is open
      (`target`): nothing happens without a target; otherwise every matching
      video gets `c` at the end of its comment list, its earlier comments in
      order, and its comment count goes up by one. */
  function AddComment(vs: seq<VideoData>, target: Option<string>, c: Comment): (r: seq<VideoData>)
    ensures |r| == |vs| && Ids(r) == Ids(vs)
    ensures NoTarget(target) ==> r == vs
    ensures !NoTarget(target) ==> forall i :: 0 <= i < |vs| && vs[i].id == target.value ==>
      && |r[i].commentList| == |vs[i].commentList| + 1
      && r[i].commentList[..|vs[i].commentList|] == vs[i].commentList
      && r[i].commentList[|vs[i].commentList|] == c
      && r[i].comments == vs[i].comments + 1
      && r[i].(commentList := vs[i].commentList, comments := vs[i].comments) == vs[i]
    ensures !NoTarget(target) ==> forall i :: 0 <= i < |vs| && vs[i].id != target.value ==> r[i] == vs[i]
  {
    if NoTarget(target) then vs
    else
      UpdateMatchingKeepsIds(vs, target.value, CommentAppended(c));
      UpdateMatching(vs, target.value, CommentAppended(c))
  }

  /** How far a video's comment counter is ahead of its comment list. */
  function CommentGap(v: VideoData): int
  {
    v.comments - |v.commentList|
  }

  /** Adding a comment keeps every video's counter-to-list gap, so a counter that
      mirrors its list keeps mirroring it (and one that does not, never will). */
  lemma CommentGapPreserved(vs: seq<VideoData>, target: Option<string>, c: Comment)
    ensures forall i :: 0 <= i < |vs| ==> CommentGap(AddComment(vs, target, c)[i]) == CommentGap(vs[i])
  {
  }

  // -------------------------------------------------------------- upload

  /** The video `handleFileUpload` builds for a picked file: no engagement yet,
      owned by `'me'`, with `id` and `url` standing for `Date.now()` and the
      object URL. */
  function NewVideo(id: string, url: string, fileName: string): (v: VideoData)
    ensures v.id == id && v.url == url && v.username == "me"
    ensures v.likes == 0 && v.comments == 0 && v.shares == 0
    ensures !v.isLiked && !v.isFavorited && v.commentList == []
    ensures exists k :: (0 <= k <= 20 && k <= |fileName| && (k < 20 ==> k == |fileName|)
      && v.description == "My uploaded video: " + fileName[..k] + "...")
  {
    VideoData(
      id, url, "me", "https://picsum.photos/100/100?random=99",
      "My uploaded video: " + fileName[..if |fileName| < 20 then |fileName| else 20] + "...",
      "Original Sound - Me", 0, 0, 0, false, false, [])
  }

  /** The feed part of `handleFileUpload`: the new video first, the old feed
      after it unchanged. */
  function Upload(vs: seq<VideoData>, id: string, url: string, fileName: string): (r: seq<VideoData>)
    ensures |r| == |vs| + 1 && r[1..] == vs && Ids(r) == [id] + Ids(vs)
    ensures r[0].id == id && r[0].url == url && r[0].username == "me"
    ensures r[0].likes == 0 && r[0].comments == 0 && r[0].shares == 0
    ensures !r[0].isLiked && !r[0].isFavorited && r[0].commentList == []
    ensures CommentGap(r[0]) == 0
  {
    var r := [NewVideo(id, url, fileName)] + vs;
    assert Ids(r) == [id] + Ids(vs) by {
      assert forall i :: 0 <= i < |vs| ==> Ids(r)[i + 1] == Ids(vs)[i];
    }
    r
  }

  // ---------------------------------------------------------------- find

  /** Position `k` holds the first video of `vs` whose id is `id`. */
  ghost predicate FirstMatchAt(vs: seq<VideoData>, id: string, k: int)
  {
    0 <= k < |vs| && vs[k].id == id && forall i :: 0 <= i < k ==> vs[i].id != id
  }

  /** `videos.find(v => v.id === activeCommentVideoId)`: the first video whose id
      is the target, if there is one. */
  function FindById(vs: seq<VideoData>, target: Option<string>): (r: Option<VideoData>)
    ensures r.None? <==> target.None? || forall i :: 0 <= i < |vs| ==> vs[i].id != target.value
    ensures r.Some? ==> exists k :: FirstMatchAt(vs, target.value, k) && vs[k] == r.value
  {
    if target.None? || vs == [] then None
    else if vs[0].id == target.value then
      assert FirstMatchAt(vs, target.value, 0);
      Some(vs[0])
    else
      var r := FindById(vs[1..], target);
      assert r.Some? ==> exists k :: FirstMatchAt(vs, target.value, k) && vs[k] == r.value by {
        if r.Some? {
          var k :| FirstMatchAt(vs[1..], target.value, k) && vs[1..][k] == r.value;
          assert FirstMatchAt(vs, target.value, k + 1) by {
            forall i | 0 < i < k + 1 ensures vs[i].id != target.value {
              assert vs[i] == vs[1..][i - 1];
            }
          }
        }
      }
      r
  }

  /** After a comment is added, the video the drawer shows is the one it showed
      before with the new comment appended. */
  lemma {:induction false} AddCommentSeenByDrawer(vs: seq<VideoData>, target: Option<string>, c: Comment)
    requires !NoTarget(target)
    ensures FindById(AddComment(vs, target, c), target) ==
      match FindById(vs, target)
      case None => None
      case Some(v) => Some(CommentAppended(c)(v))
  {
    if vs != [] && vs[0].id != target.value {
      AddCommentSeenByDrawer(vs[1..], target, c);
      assert AddComment(vs, target, c)[1..] == AddComment(vs[1..], target, c);
    }
  }
}
