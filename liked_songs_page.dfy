/**
 The liked-songs view: its heart button dispatches to the context's
 confirmed-write `likeSong`/`unlikeSong`, its play button is disabled for a
 song without a stream, and it shows a loading or an empty message.
 */
module LikedSongsPage {
  import opened Songs
  import PlayerContext
  import Trending

  /** Which context call the heart button makes. */
  datatype LikeCall = CallLike | CallUnlike

  /** `toggleLike(song)`: unlike exactly when the song's id is listed. */
  function ToggleLikeCall(liked: seq<Song>, song: Song): (call: LikeCall)
    ensures call == CallUnlike <==> HasId(liked, song.id)
  {
    if HasId(liked, song.id) then CallUnlike else CallLike
  }

  /** The liked list once the call's remote write has answered 2xx (the
      success paths of `likeSong` and `unlikeSong`). */
  function Confirmed(liked: seq<Song>, song: Song, call: LikeCall): seq<Song>
  {
    match call
    case CallLike => WithSong(liked, song)
    case CallUnlike => WithoutId(liked, song.id)
  }

  /** A confirmed toggle flips whether the song is liked, leaves every other
      id as it was and keeps an id-unique list id-unique; and it ends where
      the browse view's optimistic toggle ends, so the two policies differ
      only when a write fails. */
  lemma ConfirmedToggle(liked: seq<Song>, song: Song)
    ensures var after := Confirmed(liked, song, ToggleLikeCall(liked, song));
            && (HasId(after, song.id) <==> !HasId(liked, song.id))
            && (forall k :: k != song.id ==> (HasId(after, k) <==> HasId(liked, k)))
            && (IdUnique(liked) ==> IdUnique(after))
            && after == Trending.ToggleLike(liked, song)
  {
  }

  /** Two confirmed toggles from a list without the song restore it. */
  lemma ConfirmedToggleTwice(liked: seq<Song>, song: Song)
    requires !HasId(liked, song.id)
    ensures var once := Confirmed(liked, song, ToggleLikeCall(liked, song));
            Confirmed(once, song, ToggleLikeCall(once, song)) == liked
  {
    Trending.ToggleLikeTwice(liked, song);
  }

  /** The play button is disabled for a song without a stream. */
  predicate ButtonDisabled(song: Song)
  {
    song.audioUrl == ""
  }

  /** The play button's click: nothing for a song without a stream,
      otherwise pause, resume or play as on the browse view. */
  function PlayButton(currentSrc: Option<string>, isPlaying: bool, song: Song): (a: PlayerContext.Action)
    ensures a == PlayerContext.NoAction <==> ButtonDisabled(song)
    ensures !ButtonDisabled(song) ==> a == Trending.PlayButton(currentSrc, isPlaying, song)
  {
    if song.audioUrl == "" then PlayerContext.NoAction
    else Trending.PlayButton(currentSrc, isPlaying, song)
  }

  /** For a playable song: pause when it is current and playing, resume
      when it is current and paused, play it otherwise. */
  lemma PlayButtonCases(currentSrc: Option<string>, isPlaying: bool, song: Song)
    requires !ButtonDisabled(song)
    ensures currentSrc == Some(song.audioUrl) && isPlaying ==> PlayButton(currentSrc, isPlaying, song) == PlayerContext.PauseAction
    ensures currentSrc == Some(song.audioUrl) && !isPlaying ==> PlayButton(currentSrc, isPlaying, song) == PlayerContext.ResumeAction
    ensures currentSrc != Some(song.audioUrl) ==> PlayButton(currentSrc, isPlaying, song) == PlayerContext.PlayAction(song.audioUrl, song)
  {
  }

  /** "Loading liked songs..." is shown. */
  predicate ShowsLoading(likedLoading: bool)
  {
    likedLoading
  }

  /** "You have no liked songs yet." is shown. */
  predicate ShowsEmpty(liked: seq<Song>, likedLoading: bool)
  {
    |liked| == 0 && !likedLoading
  }

  /** The two messages never show together; with songs listed and no load
      running, neither shows. On a playable song the pause icon (the same
      test as on the browse view) is shown exactly when a click pauses. */
  lemma DisplayConditions(liked: seq<Song>, likedLoading: bool, currentSrc: Option<string>, isPlaying: bool, song: Song)
    ensures !(ShowsLoading(likedLoading) && ShowsEmpty(liked, likedLoading))
    ensures liked != [] && !likedLoading ==> !ShowsLoading(likedLoading) && !ShowsEmpty(liked, likedLoading)
    ensures !ButtonDisabled(song) ==>
              (Trending.ShowsPause(currentSrc, isPlaying, song) <==> PlayButton(currentSrc, isPlaying, song) == PlayerContext.PauseAction)
  {
  }
}
