/** Data shapes shared by the feed, the profile view and the comment drawer
    (the `Comment` and `VideoData` interfaces). Strings are `seq<char>`; the
    JavaScript `number` fields are unbounded integers. */
module Types {

  /** A value that may be absent (`null` / `undefined` in the source). */
  datatype Option<+T> = None | Some(value: T)

  /** One comment under a video. */
  datatype Comment = Comment(
    id: string,
    username: string,
    avatar: string,
    text: string,
    timestamp: string,
    likes: int
  )

  /** One post of the feed with its engagement counters and comments. */
  datatype VideoData = VideoData(
    id: string,
    url: string,
    username: string,
    userAvatar: string,
    description: string,
    songName: string,
    likes: int,
    comments: int,
    shares: int,
    isLiked: bool,
    isFavorited: bool,
    commentList: seq<Comment>
  )

  /** The ids of a feed, in feed order. */
  function Ids(vs: seq<VideoData>): (r: seq<string>)
    ensures |r| == |vs|
    ensures forall i :: 0 <= i < |vs| ==> r[i] == vs[i].id
  {
    if vs == [] then [] else [vs[0].id] + Ids(vs[1..])
  }
}
