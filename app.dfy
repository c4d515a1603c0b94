/** The application's session state: the feed, the video whose comment drawer
    is open, and the view-navigation history, with one method per handler. */
module App {
  import opened Types
  import I = Interactions
  import ProfileView
  import CommentDrawer

  /** The views the tab bar and the profile links switch between. */
  datatype View = Home | Discover | Inbox | Me | UserProfile

  /** The three mock videos the feed starts with. */
  const InitialVideos: seq<VideoData> := [
    VideoData(
      "1",
      "https://joy1.videvo.net/videvo_files/video/free/2014-12/large_watermarked/Raindrops_Videvo_preview.mp4",
      "nature_lover", "https://picsum.photos/100/100?random=1",
      "Rainy days in the forest \U{F8FF}\U{00FC}\U{00E5}\U{00DF}\U{00D4}\U{220F}\U{00E8} relaxing vibes only.",
      "Rain Sounds - Nature", 1240, 45, 89, false, false,
      [ Comment("c1", "alex_w", "https://picsum.photos/50?random=10", "So peaceful!", "2h", 5),
        Comment("c2", "sarah_j", "https://picsum.photos/50?random=11", "I need this right now.", "1h", 2) ]),
    VideoData(
      "2",
      "https://joy1.videvo.net/videvo_files/video/free/2019-11/large_watermarked/190301_1_25_11_preview.mp4",
      "city_wanderer", "https://picsum.photos/100/100?random=2",
      "Tokyo nights are just different \U{F8FF}\U{00FC}\U{00E8}\U{00C6}\U{201A}\U{00FA}\U{00AE}",
      "Midnight City - M83", 8500, 120, 430, true, false, []),
    VideoData(
      "3",
      "https://assets.mixkit.co/videos/preview/mixkit-girl-in-neon-sign-1232-large.mp4",
      "neon_vibes", "https://picsum.photos/100/100?random=3",
      "Cyberpunk aesthetic IRL \U{F8FF}\U{00FC}\U{00A7}\U{00F1}",
      "Future Tech - Sound", 560, 12, 4, false, true, [])
  ]

  /** The comment counters of the mock data do not mirror the comment lists:
      the first video claims 45 comments and lists 2, the others claim 120 and
      12 and list none. */
  lemma InitialCommentCountsAhead()
    ensures Ids(InitialVideos) == ["1", "2", "3"]
    ensures forall i :: 0 <= i < |InitialVideos| ==> I.CommentGap(InitialVideos[i]) > 0
    ensures I.CommentGap(InitialVideos[0]) == 43
  {
    assert Ids(InitialVideos)[0] == "1" && Ids(InitialVideos)[1] == "2" && Ids(InitialVideos)[2] == "3";
  }

  /** What a profile page is told about its owner. */
  datatype ProfileProps = ProfileProps(username: string, isCurrentUser: bool)

  /** The `ProfileView` the current view renders, if any: the `'me'` tab is
      one's own profile, and a profile reached from a video is one's own
      exactly when the selected name is `'me'`. */
  function ProfileFor(view: View, selectedUserProfile: string): (p: Option<ProfileProps>)
    ensures p.Some? <==> view == Me || view == UserProfile
    ensures p.Some? ==> (p.value.isCurrentUser <==> p.value.username == "me")
    ensures view == Me ==> p == Some(ProfileProps("me", true))
    ensures view == UserProfile ==> p.value.username == selectedUserProfile
  {
    match view
    case Me => Some(ProfileProps("me", true))
    case UserProfile => Some(ProfileProps(selectedUserProfile, selectedUserProfile == "me"))
    case _ => None
  }

  /** Opening the profile of `'me'` from a video shows the same videos as the
      `'me'` tab; any other name shows the videos posted under that name (or
      the fallback). */
  lemma ProfileOfMeIsOwnProfile(videos: seq<VideoData>, selectedUserProfile: string)
    ensures var p := ProfileFor(UserProfile, selectedUserProfile).value;
      var q := ProfileFor(Me, selectedUserProfile).value;
      selectedUserProfile == "me" ==>
        ProfileView.DisplayVideos(videos, p.username, p.isCurrentUser)
        == ProfileView.DisplayVideos(videos, q.username, q.isCurrentUser)
  {
  }

  class Session {
    var videos: seq<VideoData>
    var activeCommentVideoId: Option<string>
    var currentView: View
    var viewHistory: seq<View>
    var selectedUserProfile: string

    /** The history is never empty, starts at home, and ends at the current view. */
    ghost predicate Valid()
      reads this
    {
      |viewHistory| > 0 && viewHistory[0] == Home && currentView == viewHistory[|viewHistory| - 1]
    }

    /** The state of a freshly loaded page. */
    constructor ()
      ensures Valid()
      ensures videos == InitialVideos && activeCommentVideoId == None
      ensures currentView == Home && viewHistory == [Home] && selectedUserProfile == ""
    {
      videos := InitialVideos;
      activeCommentVideoId := None;
      currentView := Home;
      viewHistory := [Home];
      selectedUserProfile := "";
    }

    /** The video whose comment drawer is open (`activeVideo`). */
    function ActiveVideo(): (v: Option<VideoData>)
      reads this
      ensures v.Some? ==> v.value in videos && Some(v.value.id) == activeCommentVideoId
    {
      I.FindById(videos, activeCommentVideoId)
    }

    /** `handleTabChange`: switching to the current view does nothing; any
        other view becomes current and is pushed on the history. */
    method TabChange(view: View)
      requires Valid()
      modifies this`currentView, this`viewHistory
      ensures Valid()
      ensures view == old(currentView) ==> currentView == old(currentView) && viewHistory == old(viewHistory)
      ensures view != old(currentView) ==> currentView == view && viewHistory == old(viewHistory) + [view]
    {
      if view == currentView {
        return;
      }
      currentView := view;
      viewHistory := viewHistory + [view];
    }

    /** `handleNavigateToProfile`: remembers whose profile it is and always
        pushes the profile view, even when a profile is already on show. */
    method NavigateToProfile(username: string)
      requires Valid()
      modifies this`selectedUserProfile, this`currentView, this`viewHistory
      ensures Valid()
      ensures selectedUserProfile == username && currentView == UserProfile
      ensures viewHistory == old(viewHistory) + [UserProfile]
    {
      selectedUserProfile := username;
      currentView := UserProfile;
      viewHistory := viewHistory + [UserProfile];
    }

    /** `handleBack`: with more than one entry, the top is popped and the view
        below it becomes current; at the floor the history stays and the
        current view is home. */
    method Back()
      requires Valid()
      modifies this`currentView, this`viewHistory
      ensures Valid()
      ensures |old(viewHistory)| > 1 ==> viewHistory == old(viewHistory)[..|old(viewHistory)| - 1]
      ensures |old(viewHistory)| > 1 ==> currentView == old(viewHistory)[|old(viewHistory)| - 2]
      ensures |old(viewHistory)| == 1 ==> viewHistory == old(viewHistory) == [Home] && currentView == Home
    {
      if |viewHistory| > 1 {
        var newHistory := viewHistory;
        newHistory := newHistory[..|newHistory| - 1];
        var prevView := newHistory[|newHistory| - 1];
        viewHistory := newHistory;
        currentView := prevView;
      } else {
        currentView := Home;
      }
    }

    /** `handleToggleLike`. */
    method ToggleLike(id: string)
      modifies this`videos
      ensures videos == I.ToggleLike(old(videos), id)
    {
      videos := I.ToggleLike(videos, id);
    }

    /** `handleToggleFavorite`. */
    method ToggleFavorite(id: string)
      modifies this`videos
      ensures videos == I.ToggleFavorite(old(videos), id)
    {
      videos := I.ToggleFavorite(videos, id);
    }

    /** `handleShare`: whichever way the host shares the link, the counter
        update is the same. */
    method Share(id: string)
      modifies this`videos
      ensures videos == I.Share(old(videos), id)
    {
      videos := I.Share(videos, id);
    }

    /** `onOpenComments`: the drawer opens on video `id`. */
    method OpenComments(id: string)
      modifies this`activeCommentVideoId
      ensures activeCommentVideoId == Some(id)
    {
      activeCommentVideoId := Some(id);
    }

    /** The drawer's `onClose`. */
    method CloseComments()
      modifies this`activeCommentVideoId
      ensures activeCommentVideoId == None
    {
      activeCommentVideoId := None;
    }

    /** `handleFileUpload`: without a picked file nothing happens; otherwise
        the new video is put first and the home tab is selected. `fileName` is
        the picked file's name, `id` the `Date.now()` string and `url` the
        local object URL. */
    method FileUpload(fileName: Option<string>, id: string, url: string)
      requires Valid()
      modifies this`videos, this`currentView, this`viewHistory
      ensures Valid()
      ensures fileName.None? ==> videos == old(videos) && currentView == old(currentView) && viewHistory == old(viewHistory)
      ensures fileName.Some? ==> videos == I.Upload(old(videos), id, url, fileName.value) && currentView == Home
      ensures fileName.Some? ==> viewHistory == old(viewHistory) + (if old(currentView) == Home then [] else [Home])
    {
      if fileName.None? {
        return;
      }
      videos := I.Upload(videos, id, url, fileName.value);
      TabChange(Home);
    }

    /** `handleAddComment(text)` for the open drawer; `commentId` stands for the
        `Date.now()` string. */
    method AddComment(text: string, commentId: string)
      modifies this`videos
      ensures videos == I.AddComment(old(videos), activeCommentVideoId, I.NewComment(commentId, text))
    {
      videos := I.AddComment(videos, activeCommentVideoId, I.NewComment(commentId, text));
    }

    /** The drawer's submit wired to `handleAddComment`: a blank box leaves the
        feed alone; any other box appends its text, untrimmed, to the open
        video's comments. */
    method SubmitComment(drawer: CommentDrawer.DrawerState, commentId: string)
      modifies this`videos, drawer
      ensures !CommentDrawer.SubmitEnabled(old(drawer.input)) ==> videos == old(videos) && drawer.input == old(drawer.input)
      ensures CommentDrawer.SubmitEnabled(old(drawer.input)) ==>
        videos == I.AddComment(old(videos), activeCommentVideoId, I.NewComment(commentId, old(drawer.input)))
        && drawer.input == ""
    ensures drawer.isGenerating == old(drawer.isGenerating)
    {
      var forwarded := drawer.HandleSubmit();
      if forwarded.Some? {
        AddComment(forwarded.value, commentId);
      }
    }
  }

  /** From a fresh page: opening the inbox makes it current, going back
      returns home, and going back again stays home at the floor. */
  method NavigationScenario() returns (afterTab: View, afterBack: View, afterSecondBack: View, history: seq<View>)
    ensures afterTab == Inbox && afterBack == Home && afterSecondBack == Home && history == [Home]
  {
    var s := new Session();
    s.TabChange(Inbox);
    afterTab := s.currentView;
    s.Back();
    afterBack := s.currentView;
    s.Back();
    afterSecondBack := s.currentView;
    history := s.viewHistory;
  }
}
