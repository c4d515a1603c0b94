# Session logic of a short-video feed

A Dafny model of the logic inside a browser-only short-video feed: the
in-memory session state of the app (the feed of videos, the video whose
comment drawer is open, the view-navigation history and the selected
profile), the per-video updates behind like, favorite, share, comment and
upload, the rule that decides which feed card is active while scrolling,
the choice of videos a profile page shows, and the comment box's submit
guard and AI-suggestion replacement.

The modules follow the source files, with the pure per-video updates of
`App.tsx` in `Interactions` and its session state in `App`:

- `Types` (`types.dfy`): the `Comment` and `VideoData` shapes and an `Option`.
- `Interactions` (`interactions.dfy`): the pure per-video updates of `App.tsx`
  (each a `map` over the feed keyed by id, or a prepend) and `find`.
- `App` (`app.dfy`): the mock initial feed, which profile a view renders, and
  class `Session` with one method per handler; `Session.Valid()` is the
  history invariant (non-empty, home at the bottom, current view on top) that
  every navigation method keeps.
- `VideoFeed` (`videofeed.dfy`): `Math.round(scrollTop / clientHeight)` over
  non-negative integers, the `isActive` test, class `FeedState` holding
  `activeIndex`.
- `ProfileView` (`profileview.dfy`): the two username filters and the display
  fallback.
- `CommentDrawer` (`commentdrawer.dfy`): JavaScript `trim` over the ECMAScript
  white-space and line-terminator characters, the submit guard, class
  `DrawerState` holding `input` and `isGenerating`.

Host calls are parameters: the `Date.now()` ids of a new video or comment,
the object URL and name of an uploaded file, and the text returned by the
text-generation service are arguments of the methods that use them.

Behaviour of the code that the model keeps and a reader might not expect:

- The active index is not clamped to the feed length; an index past the end
  makes no card active. A zero-height container gives `NaN` or `Infinity`,
  which make no card active either.
- The like count is not clamped at zero: unliking moves it down by one whatever it was.
- The comment counter is not kept equal to the comment list's length: the
  mock data starts with counters ahead of the lists, and adding a comment
  only keeps the difference (`InitialCommentCountsAhead`, `CommentGapPreserved`).
- Blank comments are rejected by the drawer's submit guard, not by `handleAddComment`,
  which appends whatever text it is given.
- A suggestion that arrives after the drawer was closed is still written into
  the input box; the drawer's state survives closing because the component stays mounted.
- `handleAddComment` does nothing when the open video id is `null` or the empty
  string (both falsy).

## Model

| member | source | states |
|---|---|---|
| `Interactions.UpdateMatching` | App.tsx:96-101 | the shared `map`: same length, every video with the id rewritten by the update, every other video kept |
| `Interactions.UpdateMatchingKeepsIds` | App.tsx:96-101 | an update that keeps ids keeps the feed's id order |
| `Interactions.ToggleLike` | App.tsx:95-102 | same length and id order; matching videos flip `isLiked`, `likes` goes down by one if it was liked and up by one otherwise, every other field kept; other videos untouched |
| `Interactions.ToggleLikeInvolution` | App.tsx:98 | toggling the like of one id twice restores the feed exactly (no clamping) |
| `Interactions.ToggleLikeTimesEffect` | App.tsx:95-101 | after n toggles a matching video is liked iff it was liked and n is even or it was not and n is odd, and `likes` equals the old count minus old flag plus new flag |
| `Interactions.ToggleFavorite` | App.tsx:104-109 | matching videos flip only `isFavorited`; counters and other videos untouched; length and id order kept |
| `Interactions.ToggleFavoriteInvolution` | App.tsx:106 | toggling the favorite of one id twice restores the feed |
| `Interactions.Share` | App.tsx:121-124 | matching videos get exactly one more share and nothing else changes |
| `Interactions.NoTarget` | App.tsx:158 | `!activeCommentVideoId` holds exactly for a null or empty id |
| `Interactions.NewComment` | App.tsx:160-167 | the new comment has the given id and text, author `me`, timestamp `Just now` and no likes |
| `Interactions.AddComment` | App.tsx:157-179 | no change for a null or empty target; otherwise matching videos get the comment at the end of their list, earlier comments in order, counter up by one, other fields and videos kept |
| `Interactions.CommentGapPreserved` | App.tsx:169-178 | adding a comment keeps `comments - |commentList|` of every video |
| `Interactions.NewVideo` | App.tsx:132-145 | the uploaded video has the given id and URL, owner `me`, zero counters, both flags false, no comments, and a description quoting at most the first 20 characters of the file name |
| `Interactions.Upload` | App.tsx:132-148 | the new video is first with the given id and URL, owner `me`, zero counters, both flags false, no comments; the old feed follows unchanged |
| `Interactions.FindById` | App.tsx:181 | none exactly when no video has the id; otherwise the first video with that id |
| `Interactions.AddCommentSeenByDrawer` | App.tsx:169-181 | after adding a comment, the drawer's video is its previous video with the comment appended |
| `App.InitialCommentCountsAhead` | App.tsx:11-57 | the mock feed has ids 1, 2, 3 and every comment counter is ahead of its list (45 against 2 for the first) |
| `App.ProfileFor` | App.tsx:216-233 | only the `me` and profile views render a profile; it counts as one's own exactly when the name is `me` |
| `App.ProfileOfMeIsOwnProfile` | App.tsx:225-230 | the profile of `me` opened from a video shows what the `me` tab shows |
| `App.Session.constructor` | App.tsx:62-68 | initial feed is the mock data, no drawer open, history `[home]` with home current, no selected profile |
| `App.Session.ActiveVideo` | App.tsx:181 | the drawer's video, when there is one, is in the feed and has the open id |
| `App.Session.TabChange` | App.tsx:70-74 | no change for the current view; otherwise that view becomes current and is pushed; invariant kept |
| `App.Session.NavigateToProfile` | App.tsx:76-80 | selected name set, profile view current and always pushed; invariant kept |
| `App.Session.Back` | App.tsx:82-92 | above the floor pops the top and shows the view below; at the floor keeps `[home]` and shows home; invariant kept |
| `App.Session.ToggleLike` | App.tsx:95-102 | the feed becomes `Interactions.ToggleLike` of the old feed; nothing else changes |
| `App.Session.ToggleFavorite` | App.tsx:104-109 | the feed becomes `Interactions.ToggleFavorite` of the old feed; nothing else changes |
| `App.Session.Share` | App.tsx:111-125 | the feed becomes `Interactions.Share` of the old feed, whichever share path the host takes |
| `App.Session.OpenComments` | App.tsx:207 | the drawer opens on the given video id |
| `App.Session.CloseComments` | App.tsx:255 | no video's drawer is open |
| `App.Session.FileUpload` | App.tsx:127-155 | no file: nothing changes; otherwise the new video is prepended and the home tab selected (pushed unless home was current) |
| `App.Session.AddComment` | App.tsx:157-179 | the feed becomes `Interactions.AddComment` for the open video and a comment by `me` with the given text and id |
| `App.Session.SubmitComment` | components/CommentDrawer.tsx:32-38 | a blank box leaves the feed and the box alone; otherwise the untrimmed text is appended as a comment and the box emptied |
| `App.NavigationScenario` | App.tsx:66-92 | from a fresh page: inbox tab makes inbox current, back gives home, a second back stays home with history `[home]` |
| `VideoFeed.ScrollIndex` | components/VideoFeed.tsx:30 | for a positive height the index n satisfies 2nh <= 2s + h < 2nh + 2h (round half up); height 0 gives NaN or Infinity |
| `VideoFeed.RoundingUnique` | components/VideoFeed.tsx:30 | only one whole number meets those bounds |
| `VideoFeed.ScrollIndexExact` | components/VideoFeed.tsx:30 | scrolled exactly k heights down, the index is k |
| `VideoFeed.ScrollIndexNearest` | components/VideoFeed.tsx:30 | the index's offset is within half a height of the scroll offset |
| `VideoFeed.StrictNotEqual` | components/VideoFeed.tsx:31 | `index !== activeIndex`: false exactly when both are the same number other than NaN; NaN always differs |
| `VideoFeed.IsActive` | components/VideoFeed.tsx:49 | a card is active exactly when the stored index is a number equal to its position |
| `VideoFeed.AtMostOneActive` | components/VideoFeed.tsx:49 | two active cards are the same card, the one at the stored index |
| `VideoFeed.NoCardActiveOutOfRange` | components/VideoFeed.tsx:30-49 | an index past the feed's end, NaN or Infinity makes no card active |
| `VideoFeed.ThreeCardExample` | components/VideoFeed.tsx:30-49 | with 600-pixel cards, offsets 0, 610, 1205 give cards 0, 1, 2 and offset 2000 gives index 3, which leaves none of three cards active |
| `VideoFeed.FeedState.constructor` | components/VideoFeed.tsx:23 | the index starts at 0, so exactly the first card is active |
| `VideoFeed.FeedState.HandleScroll` | components/VideoFeed.tsx:29-34 | the update happens iff the computed index differs (NaN always differs), and afterwards the stored index is the computed one |
| `VideoFeed.RepeatedScroll` | components/VideoFeed.tsx:29-34 | a second scroll at the same offset updates only in the NaN case, and the stored index stays the computed one |
| `ProfileView.Filter` | components/ProfileView.tsx:14-16 | a subsequence of the feed holding exactly the videos that pass |
| `ProfileView.FilterAppend` | components/ProfileView.tsx:14-16 | filtering distributes over concatenation and keeps a single video iff it passes |
| `ProfileView.UserVideos` | components/ProfileView.tsx:14-16 | in feed order, exactly the `me` or `currentUser` videos for one's own profile, otherwise exactly the videos of that username |
| `ProfileView.DisplayVideos` | components/ProfileView.tsx:19 | the owner's videos if any; else empty for one's own profile, else the first min(3, n) feed videos; empty iff the feed is empty or it is one's own profile without own videos |
| `CommentDrawer.TrimStart` | components/CommentDrawer.tsx:34 | a suffix of the text after white space only, not starting with white space |
| `CommentDrawer.TrimEnd` | components/CommentDrawer.tsx:34 | a prefix of the text before white space only, not ending with white space |
| `CommentDrawer.Trim` | components/CommentDrawer.tsx:34 | a middle stretch of the text with only white space around it, neither starting nor ending with white space |
| `CommentDrawer.TrimEmptyIffBlank` | components/CommentDrawer.tsx:34 | the trimmed text is empty iff every character is white space |
| `CommentDrawer.SubmitEnabled` | components/CommentDrawer.tsx:120 | the submit button is enabled, and the submit guard passes, iff the text has a non-white-space character |
| `CommentDrawer.DrawerState.constructor` | components/CommentDrawer.tsx:21-22 | the box starts empty and nothing is generating |
| `CommentDrawer.DrawerState.SetInput` | components/CommentDrawer.tsx:114 | the box holds what was typed |
| `CommentDrawer.DrawerState.HandleSubmit` | components/CommentDrawer.tsx:32-38 | a blank box forwards nothing and is kept; otherwise the untrimmed text is forwarded once and the box emptied |
| `CommentDrawer.DrawerState.BeginSuggestion` | components/CommentDrawer.tsx:40-41 | generating starts; the box is kept |
| `CommentDrawer.DrawerState.FinishSuggestion` | components/CommentDrawer.tsx:42-44 | the box holds the suggestion whatever it held before, and generating is over |

## Left out

- Rendering, styling and icons of every component: presentation only.
- The text-generation service (`services/gemini.ts`): its result, including its two fixed fallback texts, is the `suggestion` argument of `FinishSuggestion`.
- The host's native share and the alert fallback of `handleShare`: the counter update does not depend on them.
- `Date.now()` ids, `URL.createObjectURL` and resetting the file input: ids, URL and file name are arguments. Ids are not assumed unique; every video with a matching id is updated.
- The scroll listener's registration and removal, `scrollIntoView` and input focus.
- `components/VideoCard.tsx` (media play and pause, autoplay rejection, playback progress, the share count shown as the bookmark count), `components/DiscoverView.tsx` and `components/InboxView.tsx`: media control, timers, floating point or static mock lists.
- `VideoFeed.ScrollIndex`: the scroll offset and height are non-negative integers; fractional scroll offsets of the browser are not modelled.
- `Interactions.NewVideo`: `file.name.slice(0, 20)` counts UTF-16 code units in JavaScript; the model counts characters.
- Counters are unbounded integers; the loss of precision of JavaScript numbers above 2^53 is not modelled.
- React's batching and re-rendering: each handler is one atomic step on the state it reads.
