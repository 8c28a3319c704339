/**
 Client scenarios: what a caller of the player context and the views can
 conclude from their contracts alone.
 */
module Scenarios {
  import opened Songs
  import opened PlayerContext
  import Trending
  import LikedSongsPage

  /** Playing the same source twice loads it once and still requests play;
      once the handle reports playback, the state says so. */
  method PlayTwiceLoadsOnce(song: Song)
  {
    var p := new Player();
    p.Play("/songs/a.mp3", song);
    p.OnPlay();
    p.Play("/songs/a.mp3", song);
    assert p.audio.loads == 1 && p.audio.requested == PlayRequested;
    assert p.currentSrc == Some("/songs/a.mp3") && p.currentSong == Some(song) && p.isPlaying;
  }

  /** A new source replaces the current track at once, before the handle
      confirms anything; the end of the media clears it, and playing it
      again loads it anew. */
  method SwitchEndReplay(first: Song, second: Song)
  {
    var p := new Player();
    p.Play("/songs/a.mp3", first);
    p.OnPlay();
    p.Play("/songs/b.mp3", second);
    assert p.currentSrc == Some("/songs/b.mp3") && p.currentSong == Some(second);
    assert p.audio.src == "/songs/b.mp3" && p.audio.loads == 2;
    p.Seek(42.0);
    assert p.progress == 42.0;
    p.OnEnded();
    assert !p.isPlaying && p.currentSrc == None && p.currentSong == None && p.progress == 0.0;
    p.Play("/songs/b.mp3", second);
    assert p.audio.loads == 3;
  }

  /** Stop keeps the track and rewinds it. */
  method StopKeepsTrack(song: Song)
  {
    var p := new Player();
    p.Play("/songs/a.mp3", song);
    p.OnPlay();
    p.Stop();
    assert !p.isPlaying && p.progress == 0.0 && p.audio.position == 0.0;
    assert p.currentSrc == Some("/songs/a.mp3") && p.currentSong == Some(song);
  }

  /** A song without a stream does nothing on either view: the liked view
      dispatches nothing, and the browse view's play request is the
      empty-source no-op. */
  method UnplayableSongIsInert(song: Song)
    requires song.audioUrl == ""
  {
    var p := new Player();
    p.Play("/songs/a.mp3", song.(audioUrl := "/songs/a.mp3"));
    var liked := LikedSongsPage.PlayButton(p.currentSrc, p.isPlaying, song);
    assert liked == NoAction;
    var browse := Trending.PlayButton(p.currentSrc, p.isPlaying, song);
    assert browse == PlayAction("", song);
    var src, loads := p.currentSrc, p.audio.loads;
    p.Press(browse);
    assert p.currentSrc == src && p.audio.loads == loads;
  }

  /** A like that succeeds followed by an unlike whose write fails leaves
      the song liked. */
  method FailedUnlikeKeepsSong(song: Song)
  {
    var p := new Player();
    p.LikeSong(song, "user@example.com", true);
    p.UnlikeSong(song, "user@example.com", false);
    assert HasId(p.likedSongs, song.id);
    p.UnlikeSong(song, "user@example.com", true);
    assert p.likedSongs == [];
  }

  /** A failed search and an empty one both give the static list. */
  method FallbackOnFailure()
  {
    assert Trending.FetchCategory(Trending.Failed, Trending.Fallback(Trending.Telugu)) == Trending.FallbackTelugu;
    assert Trending.FetchCategory(Trending.Answered([]), Trending.Fallback(Trending.Hindi)) == Trending.FallbackHindi;
  }
}
