/**
 The global player context: the playback state machine over a single audio
 handle, the normalisation of catalog replies into `Song` records, and the
 liked-songs list with its confirmed-write like and unlike.

 Network replies are inputs: a write is summed up by whether it answered
 2xx, a read by the parsed payload or by its failure. The user id read
 from local storage is a string, "" when there is none. `play()` and
 `pause()` on the handle are requests; their effect on `isPlaying` arrives
 only through the `OnPlay` and `OnPause` handlers.
 */
module PlayerContext {
  import opened Songs

  // ---------------------------------------------------------------------
  // Normalisation of `/api/songs/{id}` replies
  // ---------------------------------------------------------------------

  const NoImage := "https://via.placeholder.com/300x160?text=No+Image"
  const UnknownArtist := "Unknown Artist"
  const ImageTiers := ["500x500", "150x150", "50x50"]
  const AudioTiers := ["320kbps", "160kbps", "96kbps", "48kbps", "12kbps"]

  /** The `data` member of a reply: absent (or null), an array of songs, or
      one bare song object. */
  datatype Envelope = NoData | AsList(songs: seq<RawSong>) | AsObject(song: RawSong)

  /** JavaScript's `a || b` on two strings. */
  function Or(a: string, b: string): string
  {
    if a != "" then a else b
  }

  /** A non-array `image` gives ""; otherwise the first non-empty url among
      the 500x500, 150x150 and 50x50 tiers, else the placeholder. */
  function ImageUrl(image: Field<seq<Variant>>): (url: string)
    ensures !image.List? ==> url == ""
    ensures image.List? && FirstUrl(image.items, "500x500") != "" ==>
              url == FirstUrl(image.items, "500x500")
    ensures image.List? && FirstUrl(image.items, "500x500") == "" && FirstUrl(image.items, "150x150") != "" ==>
              url == FirstUrl(image.items, "150x150")
    ensures image.List? && FirstUrl(image.items, "500x500") == "" && FirstUrl(image.items, "150x150") == "" &&
            FirstUrl(image.items, "50x50") != "" ==>
              url == FirstUrl(image.items, "50x50")
    ensures image.List? && FirstUrl(image.items, "500x500") == "" && FirstUrl(image.items, "150x150") == "" &&
            FirstUrl(image.items, "50x50") == "" ==>
              url == NoImage
    ensures url != "" && url != NoImage ==>
              image.List? && exists i :: 0 <= i < |image.items| && image.items[i].url == url &&
                                         image.items[i].quality in ImageTiers
  {
    if image.List? then
      var vs := image.items;
      Or(FirstUrl(vs, "500x500"), Or(FirstUrl(vs, "150x150"), Or(FirstUrl(vs, "50x50"), NoImage)))
    else ""
  }

  /** A non-array `downloadUrl` gives ""; otherwise the first non-empty url
      among 320, 160, 96, 48 and 12 kbps, else "". */
  function AudioUrl(downloadUrl: Field<seq<Variant>>): (url: string)
    ensures !downloadUrl.List? ==> url == ""
    ensures downloadUrl.List? ==>
              (url == "" <==> forall q :: q in AudioTiers ==> FirstUrl(downloadUrl.items, q) == "")
    ensures url != "" ==> downloadUrl.List? && exists q :: q in AudioTiers && FirstUrl(downloadUrl.items, q) == url
  {
    if downloadUrl.List? then
      var vs := downloadUrl.items;
      var a320, a160, a96, a48, a12 :=
        FirstUrl(vs, "320kbps"), FirstUrl(vs, "160kbps"), FirstUrl(vs, "96kbps"),
        FirstUrl(vs, "48kbps"), FirstUrl(vs, "12kbps");
      var url := Or(a320, Or(a160, Or(a96, Or(a48, a12))));
      assert url == "" <==> a320 == "" && a160 == "" && a96 == "" && a48 == "" && a12 == "";
      assert AudioTiers == ["320kbps", "160kbps", "96kbps", "48kbps", "12kbps"];
      assert forall q :: q in AudioTiers <==>
        q == "320kbps" || q == "160kbps" || q == "96kbps" || q == "48kbps" || q == "12kbps";
      assert url == "" ==> forall q :: q in AudioTiers ==> FirstUrl(vs, q) == "";
      assert (forall q :: q in AudioTiers ==> FirstUrl(vs, q) == "") ==> url == "";
      url
    else ""
  }

  /** A chosen stream is listed in the payload under one of the tiers. */
  lemma AudioUrlListed(downloadUrl: Field<seq<Variant>>)
    ensures AudioUrl(downloadUrl) != "" ==>
              downloadUrl.List? &&
              exists i :: 0 <= i < |downloadUrl.items| && downloadUrl.items[i].url == AudioUrl(downloadUrl) &&
                          downloadUrl.items[i].quality in AudioTiers
  {
    var url := AudioUrl(downloadUrl);
    if url != "" {
      var q :| q in AudioTiers && FirstUrl(downloadUrl.items, q) == url;
      var i :| 0 <= i < |downloadUrl.items| && downloadUrl.items[i].quality == q && downloadUrl.items[i].url == url;
    }
  }

  /** The audio cascade picks the highest tier that has a url: when tier
      `k` has one and every better tier has none, tier `k` is chosen. */
  lemma AudioUrlPrefersHigherTiers(vs: seq<Variant>, k: nat)
    requires k < |AudioTiers| && FirstUrl(vs, AudioTiers[k]) != ""
    requires forall j :: 0 <= j < k ==> FirstUrl(vs, AudioTiers[j]) == ""
    ensures AudioUrl(List(vs)) == FirstUrl(vs, AudioTiers[k])
  {
    if k > 0 { assert FirstUrl(vs, AudioTiers[0]) == ""; }
    if k > 1 { assert FirstUrl(vs, AudioTiers[1]) == ""; }
    if k > 2 { assert FirstUrl(vs, AudioTiers[2]) == ""; }
    if k > 3 { assert FirstUrl(vs, AudioTiers[3]) == ""; }
  }

  /** Artist names joined by ", " when `artists.primary` is an array (an
      empty array joins to ""), else "Unknown Artist". */
  function ArtistNames(primary: Field<seq<string>>): (names: string)
    ensures !primary.List? ==> names == UnknownArtist
    ensures primary.List? && primary.items == [] ==> names == ""
    ensures primary.List? && |primary.items| == 1 ==> names == primary.items[0]
  {
    if primary.List? then Join(primary.items, ", ") else UnknownArtist
  }

  /** The flat record built from one raw song: id and name are copied,
      and the other three fields are chosen by the cascades above. */
  function Normalise(raw: RawSong): (song: Song)
    ensures song.id == raw.id && song.name == raw.name
    ensures song.imageUrl == ImageUrl(raw.image) && song.audioUrl == AudioUrl(raw.downloadUrl)
    ensures song.artistNames == ArtistNames(raw.primary)
  {
    Song(raw.id, raw.name, ImageUrl(raw.image), AudioUrl(raw.downloadUrl), ArtistNames(raw.primary))
  }

  /** `fetchSongById` from its reply: `None` stands for a request or parse
      that threw; the result is `None` where the source returns null. The
      HTTP status is not consulted. */
  function ResolveSong(reply: Option<Envelope>): (song: Option<Song>)
    ensures song.Some? <==> reply.Some? && (reply.value.AsObject? || (reply.value.AsList? && reply.value.songs != []))
    ensures reply.Some? && reply.value.AsObject? ==> song == Some(Normalise(reply.value.song))
    ensures reply.Some? && reply.value.AsList? && reply.value.songs != [] ==>
              song == Some(Normalise(reply.value.songs[0]))
  {
    match reply
    case None => None
    case Some(NoData) => None
    case Some(AsList(songs)) => if songs == [] then None else Some(Normalise(songs[0]))
    case Some(AsObject(raw)) => Some(Normalise(raw))
  }

  /** Array-wrapped and bare replies normalise to the same record; a
      resolved song is playable only from a url the payload lists at a
      known tier. */
  lemma ResolveSongShapes(raw: RawSong, rest: seq<RawSong>)
    ensures ResolveSong(Some(AsList([raw] + rest))) == ResolveSong(Some(AsObject(raw)))
    ensures ResolveSong(Some(AsObject(raw))).value.audioUrl != "" ==>
              raw.downloadUrl.List? &&
              exists i :: 0 <= i < |raw.downloadUrl.items| && raw.downloadUrl.items[i].quality in AudioTiers &&
                          raw.downloadUrl.items[i].url == ResolveSong(Some(AsObject(raw))).value.audioUrl
  {
    AudioUrlListed(raw.downloadUrl);
  }

  /** `results.filter((s) => s !== null)`. */
  function Present(results: seq<Option<Song>>): (songs: seq<Song>)
    ensures |songs| <= |results|
    ensures forall s :: s in songs ==> Some(s) in results
    ensures forall i :: 0 <= i < |results| && results[i].Some? ==> results[i].value in songs
    ensures (forall i :: 0 <= i < |results| ==> results[i].Some?) ==> |songs| == |results|
  {
    if results == [] then []
    else
      var rest := Present(results[1..]);
      assert forall i :: 1 <= i < |results| ==> results[i] == results[1..][i - 1];
      (if results[0].Some? then [results[0].value] else []) + rest
  }

  /** The filter keeps the resolved songs of each part, in order. */
  lemma {:induction false} PresentAppend(a: seq<Option<Song>>, b: seq<Option<Song>>)
    ensures Present(a + b) == Present(a) + Present(b)
  {
    if a == [] {
      assert a + b == b;
    } else {
      assert (a + b)[1..] == a[1..] + b;
      PresentAppend(a[1..], b);
    }
  }

  /** The outcome of `GET /api/likes/{userId}`: the request or its JSON
      threw, the status was not 2xx, or the ids arrived. For the last, one
      `fetchSongById` reply per liked id, in the order of `likedSongIds`
      (an absent `likedSongIds` is no ids). */
  datatype LikesReply = LikesFailed | LikesNotOk | LikesOk(songReplies: seq<Option<Envelope>>)

  /** The liked list `fetchLikedSongsForUser` installs from the per-id
      replies: each normalised, nulls dropped, order kept. */
  function LikedFromReplies(replies: seq<Option<Envelope>>): (songs: seq<Song>)
    ensures |songs| <= |replies|
    ensures forall i :: 0 <= i < |replies| && ResolveSong(replies[i]).Some? ==>
              ResolveSong(replies[i]).value in songs
    ensures forall s :: s in songs ==> exists i :: 0 <= i < |replies| && ResolveSong(replies[i]) == Some(s)
  {
    var resolved := seq(|replies|, i requires 0 <= i < |replies| => ResolveSong(replies[i]));
    var songs := Present(resolved);
    assert forall i :: 0 <= i < |replies| ==> resolved[i] == ResolveSong(replies[i]);
    assert forall s :: s in songs ==> Some(s) in resolved;
    songs
  }

  // ---------------------------------------------------------------------
  // The audio handle and the playback state machine
  // ---------------------------------------------------------------------

  /** The last transport request made on the handle. */
  datatype Transport = NoRequest | PlayRequested | PauseRequested

  /** What a play button asks the controller to do. */
  datatype Action = NoAction | PauseAction | ResumeAction | PlayAction(src: string, song: Song)

  /** The one `Audio` element behind `audioRef`. */
  class Audio {
    var src: string
    /** `currentTime`, in seconds. */
    var position: real
    /** `duration`; `None` while the element reports NaN. */
    var duration: Option<real>
    var volume: real
    /** How many times `load()` was called. */
    var loads: nat
    var requested: Transport

    constructor ()
      ensures src == "" && position == 0.0 && duration == None && volume == 1.0
      ensures loads == 0 && requested == NoRequest
    {
      src := "";
      position := 0.0;
      duration := None;
      volume := 1.0;
      loads := 0;
      requested := NoRequest;
    }
  }

  class Player {
    var currentSong: Option<Song>
    var currentSrc: Option<string>
    var isPlaying: bool
    var progress: real
    var duration: real
    var volume: real
    var likedSongs: seq<Song>
    var likedLoading: bool
    const audio: Audio

    /** A track is loaded exactly when a song is current, and the loaded
        source is non-empty and is what the handle was given. */
    ghost predicate Valid()
      reads this, audio
    {
      && (currentSong.Some? <==> currentSrc.Some?)
      && (currentSrc.Some? ==> currentSrc.value != "" && audio.src == currentSrc.value)
    }

    constructor ()
      ensures Valid() && fresh(audio)
      ensures currentSong == None && currentSrc == None && !isPlaying
      ensures progress == 0.0 && duration == 0.0 && volume == 1.0
      ensures likedSongs == [] && !likedLoading
      ensures audio.src == "" && audio.loads == 0 && audio.requested == NoRequest
    {
      currentSong := None;
      currentSrc := None;
      isPlaying := false;
      progress := 0.0;
      duration := 0.0;
      volume := 1.0;
      likedSongs := [];
      likedLoading := false;
      audio := new Audio();
    }

    /** `handlePlay(src, songObj)`. An empty source changes nothing. A
        source other than the loaded one is given to the handle, loaded
        once, and becomes current together with the song; the loaded
        source is kept as it is (no reload, same song). Both paths request
        play. */
    method Play(src: string, song: Song)
      requires Valid()
      modifies this, audio
      ensures Valid()
      ensures src == "" ==> unchanged(this) && unchanged(audio)
      ensures src != "" && old(currentSrc) != Some(src) ==>
                && audio.src == src && audio.loads == old(audio.loads) + 1
                && currentSrc == Some(src) && currentSong == Some(song)
      ensures src != "" && old(currentSrc) == Some(src) ==>
                && audio.src == old(audio.src) && audio.loads == old(audio.loads)
                && currentSrc == old(currentSrc) && currentSong == old(currentSong)
      ensures src != "" ==> audio.requested == PlayRequested
      ensures isPlaying == old(isPlaying) && progress == old(progress)
      ensures duration == old(duration) && volume == old(volume)
      ensures likedSongs == old(likedSongs) && likedLoading == old(likedLoading)
      ensures audio.position == old(audio.position) && audio.duration == old(audio.duration)
      ensures audio.volume == old(audio.volume)
    {
      if src == "" {
        return;
      }
      if currentSrc != Some(src) {
        audio.src := src;
        audio.loads := audio.loads + 1;
        currentSrc := Some(src);
        currentSong := Some(song);
      }
      audio.requested := PlayRequested;
    }

    /** `handlePause`: asks the handle to pause; the position is kept. */
    method Pause()
      requires Valid()
      modifies audio
      ensures Valid()
      ensures audio.requested == PauseRequested
      ensures audio.src == old(audio.src) && audio.position == old(audio.position)
      ensures audio.duration == old(audio.duration) && audio.volume == old(audio.volume)
      ensures audio.loads == old(audio.loads)
    {
      audio.requested := PauseRequested;
    }

    /** `handleResume`: asks the handle to play from where it is. */
    method Resume()
      requires Valid()
      modifies audio
      ensures Valid()
      ensures audio.requested == PlayRequested
      ensures audio.src == old(audio.src) && audio.position == old(audio.position)
      ensures audio.duration == old(audio.duration) && audio.volume == old(audio.volume)
      ensures audio.loads == old(audio.loads)
    {
      audio.requested := PlayRequested;
    }

    /** `handleStop`: pause, rewind the handle, and show a stopped track;
        the current track stays loaded. */
    method Stop()
      requires Valid()
      modifies this, audio
      ensures Valid()
      ensures audio.requested == PauseRequested && audio.position == 0.0
      ensures !isPlaying && progress == 0.0
      ensures currentSrc == old(currentSrc) && currentSong == old(currentSong)
      ensures duration == old(duration) && volume == old(volume)
      ensures likedSongs == old(likedSongs) && likedLoading == old(likedLoading)
      ensures audio.src == old(audio.src) && audio.duration == old(audio.duration)
      ensures audio.volume == old(audio.volume) && audio.loads == old(audio.loads)
    {
      audio.requested := PauseRequested;
      audio.position := 0.0;
      isPlaying := false;
      progress := 0.0;
    }

    /** `handleVolume(v)`: both the state and the handle take `v`, with no
        clamping. */
    method SetVolume(v: real)
      requires Valid()
      modifies this, audio
      ensures Valid()
      ensures volume == v && audio.volume == v
      ensures currentSong == old(currentSong) && currentSrc == old(currentSrc)
      ensures isPlaying == old(isPlaying) && progress == old(progress) && duration == old(duration)
      ensures likedSongs == old(likedSongs) && likedLoading == old(likedLoading)
      ensures audio.src == old(audio.src) && audio.position == old(audio.position)
      ensures audio.duration == old(audio.duration) && audio.loads == old(audio.loads)
      ensures audio.requested == old(audio.requested)
    {
      volume := v;
      audio.volume := v;
    }

    /** `handleSeek(v)`: the handle moves to `v` and `progress` mirrors it
        at once, without waiting for a time update. */
    method Seek(v: real)
      requires Valid()
      modifies this, audio
      ensures Valid()
      ensures audio.position == v && progress == v
      ensures currentSong == old(currentSong) && currentSrc == old(currentSrc)
      ensures isPlaying == old(isPlaying) && duration == old(duration) && volume == old(volume)
      ensures likedSongs == old(likedSongs) && likedLoading == old(likedLoading)
      ensures audio.src == old(audio.src) && audio.duration == old(audio.duration)
      ensures audio.volume == old(audio.volume) && audio.loads == old(audio.loads)
      ensures audio.requested == old(audio.requested)
    {
      audio.position := v;
      progress := v;
    }

    /** The `timeupdate` handler: mirrors the handle's position and its
        duration, 0 while the duration is unknown. */
    method OnTimeUpdate()
      requires Valid()
      modifies this
      ensures Valid()
      ensures progress == audio.position
      ensures duration == match audio.duration case None => 0.0 case Some(d) => d
      ensures currentSong == old(currentSong) && currentSrc == old(currentSrc)
      ensures isPlaying == old(isPlaying) && volume == old(volume)
      ensures likedSongs == old(likedSongs) && likedLoading == old(likedLoading)
    {
      progress := audio.position;
      duration := match audio.duration case None => 0.0 case Some(d) => d;
    }

    /** The `play` handler. */
    method OnPlay()
      requires Valid()
      modifies this
      ensures Valid()
      ensures isPlaying
      ensures currentSong == old(currentSong) && currentSrc == old(currentSrc)
      ensures progress == old(progress) && duration == old(duration) && volume == old(volume)
      ensures likedSongs == old(likedSongs) && likedLoading == old(likedLoading)
    {
      isPlaying := true;
    }

    /** The `pause` handler. */
    method OnPause()
      requires Valid()
      modifies this
      ensures Valid()
      ensures !isPlaying
      ensures currentSong == old(currentSong) && currentSrc == old(currentSrc)
      ensures progress == old(progress) && duration == old(duration) && volume == old(volume)
      ensures likedSongs == old(likedSongs) && likedLoading == old(likedLoading)
    {
      isPlaying := false;
    }

    /** The `ended` handler: from any state, nothing is current, playing or
        elapsed. The handle keeps its source, so playing it again reloads. */
    method OnEnded()
      requires Valid()
      modifies this
      ensures Valid()
      ensures !isPlaying && currentSrc == None && currentSong == None && progress == 0.0
      ensures duration == old(duration) && volume == old(volume)
      ensures likedSongs == old(likedSongs) && likedLoading == old(likedLoading)
    {
      isPlaying := false;
      currentSrc := None;
      currentSong := None;
      progress := 0.0;
    }

    /** A play button's click, as the views dispatch it. */
    method Press(a: Action)
      requires Valid()
      modifies this, audio
      ensures Valid()
      ensures a == NoAction || (a.PlayAction? && a.src == "") ==> unchanged(this) && unchanged(audio)
      ensures a == PauseAction || a == ResumeAction ==>
                && unchanged(this)
                && audio.requested == (if a == PauseAction then PauseRequested else PlayRequested)
                && audio.src == old(audio.src) && audio.position == old(audio.position)
                && audio.duration == old(audio.duration) && audio.volume == old(audio.volume)
                && audio.loads == old(audio.loads)
      ensures a.PlayAction? && a.src != "" && old(currentSrc) != Some(a.src) ==>
                && audio.src == a.src && audio.loads == old(audio.loads) + 1
                && currentSrc == Some(a.src) && currentSong == Some(a.song)
      ensures a.PlayAction? && a.src != "" && old(currentSrc) == Some(a.src) ==>
                && audio.src == old(audio.src) && audio.loads == old(audio.loads)
                && currentSrc == old(currentSrc) && currentSong == old(currentSong)
      ensures a.PlayAction? && a.src != "" ==>
                && audio.requested == PlayRequested
                && isPlaying == old(isPlaying) && progress == old(progress)
                && duration == old(duration) && volume == old(volume)
                && likedSongs == old(likedSongs) && likedLoading == old(likedLoading)
                && audio.position == old(audio.position) && audio.duration == old(audio.duration)
                && audio.volume == old(audio.volume)
    {
      match a
      case NoAction =>
      case PauseAction => Pause();
      case ResumeAction => Resume();
      case PlayAction(src, song) => Play(src, song);
    }

    /** `likeSong(song)`. Without a user id, or when the write does not
        answer 2xx, the list is unchanged; otherwise the song is appended
        unless its id is already listed. */
    method LikeSong(song: Song, userId: string, writeOk: bool)
      requires Valid()
      modifies this
      ensures Valid()
      ensures likedSongs == if userId != "" && writeOk then WithSong(old(likedSongs), song) else old(likedSongs)
      ensures IdUnique(old(likedSongs)) ==> IdUnique(likedSongs)
      ensures currentSong == old(currentSong) && currentSrc == old(currentSrc) && isPlaying == old(isPlaying)
      ensures progress == old(progress) && duration == old(duration) && volume == old(volume)
      ensures likedLoading == old(likedLoading)
    {
      if userId == "" {
        return;
      }
      if writeOk {
        likedSongs := WithSong(likedSongs, song);
      }
    }

    /** `unlikeSong(song)`. Without a user id, or when the write does not
        answer 2xx, the list is unchanged; otherwise every entry with the
        song's id is dropped and the rest keep their order. */
    method UnlikeSong(song: Song, userId: string, writeOk: bool)
      requires Valid()
      modifies this
      ensures Valid()
      ensures likedSongs == if userId != "" && writeOk then WithoutId(old(likedSongs), song.id) else old(likedSongs)
      ensures userId != "" && writeOk ==> !HasId(likedSongs, song.id)
      ensures currentSong == old(currentSong) && currentSrc == old(currentSrc) && isPlaying == old(isPlaying)
      ensures progress == old(progress) && duration == old(duration) && volume == old(volume)
      ensures likedLoading == old(likedLoading)
    {
      if userId == "" {
        return;
      }
      if writeOk {
        likedSongs := WithoutId(likedSongs, song.id);
      }
    }

    /** `fetchLikedSongsForUser(userId)`, once every request has settled.
        An empty id changes nothing (not even the loading flag); otherwise
        loading ends cleared, and only a 2xx reply replaces the list. */
    method LoadLikedSongs(userId: string, reply: LikesReply)
      requires Valid()
      modifies this
      ensures Valid()
      ensures userId == "" ==> unchanged(this)
      ensures userId != "" ==> !likedLoading
      ensures likedSongs == if userId != "" && reply.LikesOk? then LikedFromReplies(reply.songReplies)
                            else old(likedSongs)
      ensures currentSong == old(currentSong) && currentSrc == old(currentSrc) && isPlaying == old(isPlaying)
      ensures progress == old(progress) && duration == old(duration) && volume == old(volume)
    {
      if userId == "" {
        return;
      }
      likedLoading := true;
      if reply.LikesOk? {
        likedSongs := LikedFromReplies(reply.songReplies);
      }
      likedLoading := false;
    }
  }
}
