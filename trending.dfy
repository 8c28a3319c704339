/**
 The browse view: one search per category, each result mapped to a `Song`
 (falling back to a static list when the search fails, throws while
 mapping, or finds nothing), the optimistic like toggle, the play-button
 dispatch of grid cards and list rows, and the show/hide toggle of the
 sections.
 */
module Trending {
  import opened Songs
  import PlayerContext

  const NoCover := "https://via.placeholder.com/300"
  const Unknown := "Unknown"

  // ---------------------------------------------------------------------
  // Categories and their static fallbacks
  // ---------------------------------------------------------------------

  datatype Category = TrendingNow | Hindi | Telugu | English

  /** The key of a category's section in the visibility map. */
  function SectionId(c: Category): string
  {
    match c
    case TrendingNow => "trending"
    case Hindi => "hindi"
    case Telugu => "telugu"
    case English => "english"
  }

  const FallbackTrending := [
    Song("t1", "Blinding Lights", "/songs/blinding-lights.jpg", "/songs/Blinding Lights.mp3", "The Weeknd"),
    Song("t2", "Believer", "/songs/believer.jpg", "/songs/Believer.mp3", "Imagine Dragons")
  ]
  const FallbackHindi := [
    Song("h1", "Kesariya", "/songs/kesariya.jpg", "/songs/kesariya.mp3", "Arijit Singh")
  ]
  const FallbackTelugu := [
    Song("te1", "Naatu Naatu", "/songs/naatu.jpg", "/songs/naatu.mp3", "Rahul Sipligunj, Kaala Bhairava")
  ]
  const FallbackEnglish := [
    Song("e1", "Shape of You", "/songs/shape-of-you.jpg", "/songs/Shape_Of_You.mp3", "Ed Sheeran")
  ]

  function Fallback(c: Category): (songs: seq<Song>)
    ensures songs != [] && IdUnique(songs)
    ensures forall i :: 0 <= i < |songs| ==> songs[i].audioUrl != ""
  {
    match c
    case TrendingNow => FallbackTrending
    case Hindi => FallbackHindi
    case Telugu => FallbackTelugu
    case English => FallbackEnglish
  }

  // ---------------------------------------------------------------------
  // The result mapper of `fetchSongs`
  // ---------------------------------------------------------------------

  /** `data?.data?.results || []` once the reply parsed, or a request or
      parse that threw. */
  datatype SearchReply = Failed | Answered(results: seq<RawSong>)

  /** `song.image?.find(...)?.url || NoCover`. A present non-array `image`
      has no `find`: calling it throws, which is `None`. Only the 500x500
      tier is looked at. */
  function Cover(image: Field<seq<Variant>>): (url: Option<string>)
    ensures url.None? <==> image.NotList?
    ensures image.Missing? ==> url == Some(NoCover)
    ensures image.List? && FirstUrl(image.items, "500x500") != "" ==> url == Some(FirstUrl(image.items, "500x500"))
    ensures image.List? && FirstUrl(image.items, "500x500") == "" ==> url == Some(NoCover)
    ensures url.Some? && url.value != NoCover ==>
              image.List? && exists i :: 0 <= i < |image.items| && image.items[i].quality == "500x500" &&
                                         image.items[i].url == url.value
  {
    match image
    case Missing => Some(NoCover)
    case NotList => None
    case List(vs) => Some(PlayerContext.Or(FirstUrl(vs, "500x500"), NoCover))
  }

  /** `song.downloadUrl?.find(...)?.url || ""`, 320kbps only; `None` when
      `find` is called on a non-array. */
  function Stream(downloadUrl: Field<seq<Variant>>): (url: Option<string>)
    ensures url.None? <==> downloadUrl.NotList?
    ensures downloadUrl.Missing? ==> url == Some("")
    ensures downloadUrl.List? ==> url == Some(FirstUrl(downloadUrl.items, "320kbps"))
    ensures url.Some? && url.value != "" ==>
              downloadUrl.List? && exists i :: 0 <= i < |downloadUrl.items| &&
                                               downloadUrl.items[i].quality == "320kbps" &&
                                               downloadUrl.items[i].url == url.value
  {
    match downloadUrl
    case Missing => Some("")
    case NotList => None
    case List(vs) => Some(FirstUrl(vs, "320kbps"))
  }

  /** `song.artists?.primary?.map((a) => a.name).join(", ") || "Unknown"`;
      `None` when `map` is called on a non-array. */
  function Credits(primary: Field<seq<string>>): (names: Option<string>)
    ensures names.None? <==> primary.NotList?
    ensures primary.Missing? ==> names == Some(Unknown)
    ensures primary.List? && (primary.items == [] || primary.items == [""]) ==> names == Some(Unknown)
    ensures primary.List? && primary.items != [] && primary.items != [""] ==>
              names == Some(Join(primary.items, ", "))
  {
    match primary
    case Missing => Some(Unknown)
    case NotList => None
    case List(parts) =>
      JoinEmpty(parts, ", ");
      Some(PlayerContext.Or(Join(parts, ", "), Unknown))
  }

  /** A result that the mapper can read without throwing. */
  predicate Readable(raw: RawSong)
  {
    !raw.image.NotList? && !raw.downloadUrl.NotList? && !raw.primary.NotList?
  }

  /** The mapper applied to one result; `None` when it throws. */
  function MapSong(raw: RawSong): (song: Option<Song>)
    ensures song.Some? <==> Readable(raw)
    ensures song.Some? ==> song.value.id == raw.id && song.value.name == raw.name
    ensures song.Some? ==> Some(song.value.imageUrl) == Cover(raw.image) &&
                           Some(song.value.audioUrl) == Stream(raw.downloadUrl) &&
                           Some(song.value.artistNames) == Credits(raw.primary)
  {
    match (Cover(raw.image), Stream(raw.downloadUrl), Credits(raw.primary))
    case (Some(imageUrl), Some(audioUrl), Some(artistNames)) =>
      Some(Song(raw.id, raw.name, imageUrl, audioUrl, artistNames))
    case _ => None
  }

  /** `results.map(...)`: one song per result, in order, or `None` when
      any result throws. */
  function MapResults(results: seq<RawSong>): (songs: Option<seq<Song>>)
    ensures songs.None? <==> exists i :: 0 <= i < |results| && !Readable(results[i])
    ensures songs.Some? ==>
              && |songs.value| == |results|
              && forall i :: 0 <= i < |results| ==> MapSong(results[i]) == Some(songs.value[i])
  {
    if results == [] then Some([])
    else
      var first, rest := MapSong(results[0]), MapResults(results[1..]);
      if first.None? then
        None
      else if rest.None? then
        assert exists i :: 0 <= i < |results| && !Readable(results[i]) by {
          var j :| 0 <= j < |results| - 1 && !Readable(results[1..][j]);
          assert !Readable(results[j + 1]);
        }
        None
      else
        assert forall i :: 1 <= i < |results| ==> results[i] == results[1..][i - 1];
        Some([first.value] + rest.value)
  }

  /** `fetchSongs(query, setter, fallbackList)`: the list handed to the
      category's setter. */
  function FetchCategory(reply: SearchReply, fallback: seq<Song>): (songs: seq<Song>)
    ensures reply.Failed? ==> songs == fallback
    ensures reply.Answered? && reply.results == [] ==> songs == fallback
    ensures reply.Answered? && (exists i :: 0 <= i < |reply.results| && !Readable(reply.results[i])) ==>
              songs == fallback
    ensures reply.Answered? && reply.results != [] &&
            (forall i :: 0 <= i < |reply.results| ==> Readable(reply.results[i])) ==>
              |songs| == |reply.results| &&
              forall i :: 0 <= i < |reply.results| ==> MapSong(reply.results[i]) == Some(songs[i])
  {
    match reply
    case Failed => fallback
    case Answered(results) =>
      if |results| > 0 then
        match MapResults(results)
        case Some(mapped) => mapped
        case None => fallback
      else fallback
  }

  /** Whatever the reply, the view gets either the fallback verbatim or
      exactly one mapped song per result; a category is never empty. */
  lemma FetchCategoryNeverEmpty(c: Category, reply: SearchReply)
    ensures var songs := FetchCategory(reply, Fallback(c));
            songs == Fallback(c) ||
            (reply.Answered? && |songs| == |reply.results| > 0 &&
             forall i :: 0 <= i < |songs| ==> MapSong(reply.results[i]) == Some(songs[i]))
    ensures FetchCategory(reply, Fallback(c)) != []
  {
  }

  // ---------------------------------------------------------------------
  // Likes, play buttons and sections
  // ---------------------------------------------------------------------

  /** `toggleLike(song)` of the browse view, applied at once without a
      remote write: drop every entry with the song's id if there is one,
      else append the song. */
  function ToggleLike(liked: seq<Song>, song: Song): (r: seq<Song>)
    ensures HasId(liked, song.id) ==> r == WithoutId(liked, song.id)
    ensures !HasId(liked, song.id) ==> r == liked + [song]
    ensures HasId(r, song.id) <==> !HasId(liked, song.id)
    ensures forall k :: k != song.id ==> (HasId(r, k) <==> HasId(liked, k))
    ensures IdUnique(liked) ==> IdUnique(r)
  {
    if HasId(liked, song.id) then WithoutId(liked, song.id) else WithSong(liked, song)
  }

  /** Starting from a list without the song, two toggles give the list
      back unchanged. */
  lemma ToggleLikeTwice(liked: seq<Song>, song: Song)
    requires !HasId(liked, song.id)
    ensures ToggleLike(ToggleLike(liked, song), song) == liked
  {
    var once := ToggleLike(liked, song);
    assert once == liked + [song];
    WithoutIdAppend(liked, [song], song.id);
    assert WithoutId([song], song.id) == [];
  }

  /** Which action a grid card's or list row's play button dispatches. */
  function PlayButton(currentSrc: Option<string>, isPlaying: bool, song: Song): (a: PlayerContext.Action)
    ensures a == PlayerContext.PauseAction <==> currentSrc == Some(song.audioUrl) && isPlaying
    ensures a == PlayerContext.ResumeAction <==> currentSrc == Some(song.audioUrl) && !isPlaying
    ensures a.PlayAction? <==> currentSrc != Some(song.audioUrl)
    ensures a.PlayAction? ==> a.src == song.audioUrl && a.song == song
  {
    if currentSrc == Some(song.audioUrl) then
      if isPlaying then PlayerContext.PauseAction else PlayerContext.ResumeAction
    else PlayerContext.PlayAction(song.audioUrl, song)
  }

  /** The button shows the pause icon. */
  predicate ShowsPause(currentSrc: Option<string>, isPlaying: bool, song: Song)
  {
    currentSrc == Some(song.audioUrl) && isPlaying
  }

  /** The icon tells what a click does: pause exactly when it shows pause. */
  lemma PauseIconMatchesClick(currentSrc: Option<string>, isPlaying: bool, song: Song)
    ensures ShowsPause(currentSrc, isPlaying, song) <==> PlayButton(currentSrc, isPlaying, song) == PlayerContext.PauseAction
  {
  }

  /** Which sections are open when the view mounts. */
  const InitialSections := map["trending" := true, "hindi" := false, "telugu" := false, "english" := false]

  /** `{ ...prev, [id]: !prev[id] }`; a missing key reads as `undefined`,
      whose negation is `true`. */
  function ToggleSection(active: map<string, bool>, id: string): (r: map<string, bool>)
    ensures r.Keys == active.Keys + {id}
    ensures r[id] == !(id in active && active[id])
    ensures forall k :: k in active && k != id ==> r[k] == active[k]
  {
    active[id := !(id in active && active[id])]
  }

  /** On mount only the trending section is open, and every category has
      a flag; the first click on a closed section opens it. */
  lemma InitialSectionsOpen(c: Category)
    ensures SectionId(c) in InitialSections
    ensures InitialSections[SectionId(c)] <==> c == TrendingNow
    ensures c != TrendingNow ==> ToggleSection(InitialSections, SectionId(c))[SectionId(c)]
  {
  }

  /** Clicking an existing section twice restores the map. */
  lemma ToggleSectionTwice(active: map<string, bool>, id: string)
    requires id in active
    ensures ToggleSection(ToggleSection(active, id), id) == active
  {
  }
}
