# MelodyStream playback and liked songs, modelled in Dafny

This project models the deterministic core of the MelodyStream web player,
with the network and the audio element taken out and supplied as inputs:

- **The player context** (`PlayerContext.jsx`). This is a state machine over one audio handle. `Player.Play`, `Pause`, `Resume`, `Stop`, `SetVolume`
  and `Seek` are the controller's operations. `OnTimeUpdate`, `OnPlay`, `OnPause` and `OnEnded` mirror the handle's events into state.
  `Player.Valid()` is the invariant the methods keep: a song is current exactly when a source is loaded, and that source is non-empty and is
  what the handle holds. The same file normalises `/api/songs/{id}` replies into flat `Song` records. It also holds the confirmed-write
  `likeSong`/`unlikeSong` and the initial load of a user's liked list.
- **The browse view** (`Trending.jsx`). Its parts are the search-result mapper with its static fallbacks, the optimistic like toggle, the play-button
  dispatch and the show/hide toggle of the sections.
- **The liked-songs view** (`LikedSongs.jsx`). Its parts are the heart button, the guarded play button and the loading and empty messages.
- **The backend service** (`LikedSongsService.java`). It runs over a table from user id to `LikedSongs` record and answers with status messages.

Files: `songs.dfy` holds the record, the raw catalog shapes and the shared id-keyed list operations. `player_context.dfy`,
`trending.dfy`, `liked_songs_page.dfy` and `liked_songs_service.dfy` follow the source files. `scenarios.dfy` holds client methods that
derive end-to-end behaviour from the contracts alone.

Modelling conventions:
- JavaScript truthiness on strings is the test `!= ""`. The empty string stands for `null`, `undefined` and `""` alike, as the
  truthiness tests (`!src`, `!userId`, `x?.url || ...`) treat them alike. The strict id comparisons are the exception (see
  "## Left out"). The stored user id is a string, `""` when local storage has none.
- A raw JSON member is `Missing`, `List(items)` or `NotList`. `NotList` is a present value that is not an array.
- A remote write is summed up by whether it answered 2xx. A read is given as its parsed payload, or as its failure.
- `play()`/`pause()` on the handle only record a request in `Audio.requested`. `isPlaying` changes only through `OnPlay`/`OnPause`.
- Times and volume are `real` and are only ever assigned.

Details of the code worth noting:
- The browse mapper does not use the player's quality cascade. It looks only at the 500x500 image and the 320kbps stream, and its artist
  default is `"Unknown"`, not `"Unknown Artist"`.
- In the browse mapper, a present non-array `image`, `downloadUrl` or `artists.primary` makes `find`/`map` throw. The whole category then falls
  back to its static list (`Trending.MapSong`, `Trending.FetchCategory`). The player's normaliser gives `""` for a non-array `image` instead.
- The player's normaliser joins an empty `artists.primary` array to `""`. It does not give `"Unknown Artist"`.
- `fetchSongById` does not look at the HTTP status. It reads the body of any reply.
- `fetchLikedSongsForUser` with an empty user id never sets or clears the loading flag.

## Model

| member | source | states |
|---|---|---|
| Songs.FirstUrl | Frontend/src/context/PlayerContext.jsx:111-113 | `find(q)?.url` is the url of the first entry of quality `q`, even an empty one, and `""` when no entry has that quality; a non-empty result is listed under `q` |
| Songs.Join | Frontend/src/context/PlayerContext.jsx:129 | `join` gives "" for no names and the name itself for one; a longer list starts with its first name and the separator |
| Songs.JoinEmpty | Frontend/src/pages/Trending.jsx:110-111 | joining with a non-empty separator is empty exactly for no names or one empty name, which is when the `"Unknown"` default applies |
| Songs.JoinSnoc | Frontend/src/context/PlayerContext.jsx:129 | joining one more name appends the separator and that name |
| Songs.HasId | Frontend/src/pages/Trending.jsx:160 | `some((s) => s.id === id)`: some entry carries the id |
| Songs.WithoutId | Frontend/src/context/PlayerContext.jsx:196 | the id filter leaves no entry with the id; every other id is listed before exactly when after; it keeps only input entries, keeps every entry with another id, is the identity when the id is absent and preserves id-uniqueness |
| Songs.WithoutIdAppend | Frontend/src/context/PlayerContext.jsx:196 | the filter distributes over concatenation, so the kept entries stay in their order |
| Songs.WithSong | Frontend/src/context/PlayerContext.jsx:178-181 | a listed id returns the list as it is, even one that is not id-unique; an absent one appends the song at the end; afterwards the id is listed, no other id's membership changes, and id-uniqueness is kept |
| PlayerContext.ImageUrl | Frontend/src/context/PlayerContext.jsx:109-115 | a non-array `image` gives `""`; else 500x500, then 150x150, then 50x50, whichever first has a url, else the placeholder; any other result is a listed url of one of those tiers |
| PlayerContext.AudioUrl | Frontend/src/context/PlayerContext.jsx:117-125 | a non-array `downloadUrl` gives `""`; the result is empty exactly when no tier among 320/160/96/48/12 kbps has a url, and otherwise is the url of one of those tiers |
| PlayerContext.AudioUrlPrefersHigherTiers | Frontend/src/context/PlayerContext.jsx:119-124 | when tier k has a url and every better tier has none, tier k's url is chosen |
| PlayerContext.AudioUrlListed | Frontend/src/context/PlayerContext.jsx:117-125 | a chosen stream is an entry of the payload's `downloadUrl` array at one of the five tiers |
| PlayerContext.ArtistNames | Frontend/src/context/PlayerContext.jsx:127-130 | a missing or non-array `primary` gives "Unknown Artist"; an empty array gives `""`; one name gives that name |
| PlayerContext.Normalise | Frontend/src/context/PlayerContext.jsx:132-138 | the record keeps the raw id and name and takes the image, audio and artist cascades of the raw fields |
| PlayerContext.ResolveSong | Frontend/src/context/PlayerContext.jsx:94-143 | a song comes back exactly when the reply parsed and its `data` is an object or a non-empty array; an object normalises to itself, an array to its first element; a thrown fetch, missing `data` or empty array give null |
| PlayerContext.ResolveSongShapes | Frontend/src/context/PlayerContext.jsx:100-106 | an array-wrapped reply normalises to the same record as its first element given bare; a playable result's url is a listed `downloadUrl` entry at one of the stream tiers |
| PlayerContext.Present | Frontend/src/context/PlayerContext.jsx:157 | the null filter keeps every resolved song and only resolved songs, never lengthens the list, and drops nothing when all resolved |
| PlayerContext.PresentAppend | Frontend/src/context/PlayerContext.jsx:157 | the null filter distributes over concatenation, so resolved songs keep the order of `likedSongIds` |
| PlayerContext.LikedFromReplies | Frontend/src/context/PlayerContext.jsx:153-157 | the installed list holds every song some per-id reply resolved to, and only those, and is no longer than the id list |
| PlayerContext.Audio.constructor | Frontend/src/context/PlayerContext.jsx:17 | a fresh handle has no source, position 0, unknown duration, full volume, no loads and no request |
| PlayerContext.Player.constructor | Frontend/src/context/PlayerContext.jsx:6-17 | initial state: nothing current, not playing, progress and duration 0, volume 1, liked list empty and not loading |
| PlayerContext.Player.Play | Frontend/src/context/PlayerContext.jsx:20-30 | empty source changes nothing; a new source is set on the handle, loaded once and made current with the song; the loaded source is not reloaded and the current song is kept; both paths request play; nothing else changes |
| PlayerContext.Player.Pause | Frontend/src/context/PlayerContext.jsx:33-35 | requests pause on the handle and keeps its position, source and volume |
| PlayerContext.Player.Resume | Frontend/src/context/PlayerContext.jsx:38-40 | requests play on the handle from its current position, without reloading |
| PlayerContext.Player.Stop | Frontend/src/context/PlayerContext.jsx:43-48 | requests pause, rewinds the handle to 0, sets not playing and progress 0, keeps the current source and song |
| PlayerContext.Player.SetVolume | Frontend/src/context/PlayerContext.jsx:51-54 | state and handle volume both become exactly `v`, unclamped; nothing else changes |
| PlayerContext.Player.Seek | Frontend/src/context/PlayerContext.jsx:57-60 | handle position and progress both become `v` at once; nothing else changes |
| PlayerContext.Player.OnTimeUpdate | Frontend/src/context/PlayerContext.jsx:66-69 | progress mirrors the handle's position; duration mirrors the handle's, 0 while unknown |
| PlayerContext.Player.OnPlay | Frontend/src/context/PlayerContext.jsx:71 | sets playing and nothing else |
| PlayerContext.Player.OnPause | Frontend/src/context/PlayerContext.jsx:72 | clears playing and nothing else |
| PlayerContext.Player.OnEnded | Frontend/src/context/PlayerContext.jsx:73-78 | from any state: not playing, no current source or song, progress 0 |
| PlayerContext.Player.Press | Frontend/src/pages/Trending.jsx:182-188 | no action and an empty-source play change nothing; pause and resume request pause or play with the rest of the state and the handle kept; play loads a new source and makes the song current, or keeps a loaded one unreloaded, requests play and leaves every other field as it was |
| PlayerContext.Player.LikeSong | Frontend/src/context/PlayerContext.jsx:167-186 | without a user id or a 2xx answer the list is unchanged; otherwise the like update is applied, so id-uniqueness is kept |
| PlayerContext.Player.UnlikeSong | Frontend/src/context/PlayerContext.jsx:188-201 | without a user id or a 2xx answer the list is unchanged; otherwise every entry with the id is dropped and the song is no longer liked |
| PlayerContext.Player.LoadLikedSongs | Frontend/src/context/PlayerContext.jsx:145-165 | an empty user id changes nothing; otherwise loading ends cleared, a 2xx reply installs the resolved songs and a failed or non-2xx one keeps the list |
| Trending.Fallback | Frontend/src/pages/Trending.jsx:47-91 | each category's static list is non-empty, id-unique and fully playable |
| Trending.Cover | Frontend/src/pages/Trending.jsx:112-114 | a non-array `image` throws; a missing one gives the placeholder; for an array, the first 500x500 entry's url when non-empty, else the placeholder, and any other result is a listed 500x500 url |
| Trending.Stream | Frontend/src/pages/Trending.jsx:115-117 | a non-array `downloadUrl` throws; a missing one gives `""`; for an array, the first 320kbps entry's url (`""` when none), which when non-empty is a listed 320kbps url |
| Trending.Credits | Frontend/src/pages/Trending.jsx:109-111 | a non-array `primary` throws; missing, empty or one-empty-name lists give "Unknown"; other lists give the ", " join |
| Trending.MapSong | Frontend/src/pages/Trending.jsx:106-118 | a result maps without throwing exactly when none of its three lists is a non-array; the mapped song keeps id and name and takes cover, stream and credits |
| Trending.MapResults | Frontend/src/pages/Trending.jsx:106-118 | the mapping fails exactly when some result throws; otherwise it is one-to-one, same length and order |
| Trending.FetchCategory | Frontend/src/pages/Trending.jsx:96-127 | a failed request, zero results or a throwing result give the fallback verbatim; readable non-empty results map one-to-one in order |
| Trending.FetchCategoryNeverEmpty | Frontend/src/pages/Trending.jsx:103-124 | a category gets either its fallback or one mapped song per result, and is never empty |
| Trending.ToggleLike | Frontend/src/pages/Trending.jsx:158-164 | a listed id is filtered out, any other song is appended at the end; the toggle flips whether the song's id is listed, leaves other ids alone and keeps id-uniqueness |
| Trending.ToggleLikeTwice | Frontend/src/pages/Trending.jsx:158-164 | from a list without the song, toggling twice gives the list back |
| Trending.PlayButton | Frontend/src/pages/Trending.jsx:170-188 | current and playing gives pause; current and paused gives resume; otherwise play with the song's own stream |
| Trending.ShowsPause | Frontend/src/pages/Trending.jsx:191 | the pause icon shows when the card's song is the loaded source and playing |
| Trending.PauseIconMatchesClick | Frontend/src/pages/Trending.jsx:191-195 | the pause icon shows exactly when a click pauses |
| Trending.ToggleSection | Frontend/src/pages/Trending.jsx:267-268 | only the clicked id's flag flips, with a missing flag read as off; every other section is unchanged |
| Trending.InitialSectionsOpen | Frontend/src/pages/Trending.jsx:35-40 | on mount every category has a flag and only the trending section is open; the first click opens a closed one |
| Trending.ToggleSectionTwice | Frontend/src/pages/Trending.jsx:267-268 | clicking an existing section twice restores the map |
| LikedSongsPage.ToggleLikeCall | Frontend/src/pages/LikedSongs.jsx:19-23 | the heart button unlikes exactly when the song's id is listed, else likes |
| LikedSongsPage.Confirmed | Frontend/src/context/PlayerContext.jsx:177-197 | the liked list after the heart button's call answered 2xx: the like or the unlike update |
| LikedSongsPage.ConfirmedToggle | Frontend/src/context/PlayerContext.jsx:177-197 | a confirmed toggle flips whether the song is liked and keeps id-uniqueness; on success it matches the browse view's optimistic toggle |
| LikedSongsPage.ConfirmedToggleTwice | Frontend/src/pages/LikedSongs.jsx:19-23 | two confirmed toggles from a list without the song restore the list |
| LikedSongsPage.ButtonDisabled | Frontend/src/pages/LikedSongs.jsx:71 | the play button is disabled for a song without a stream |
| LikedSongsPage.PlayButton | Frontend/src/pages/LikedSongs.jsx:61-71 | no action exactly when the button is disabled (empty stream); otherwise the browse view's dispatch |
| LikedSongsPage.PlayButtonCases | Frontend/src/pages/LikedSongs.jsx:63-68 | for a playable song: current and playing pauses, current and paused resumes, otherwise plays it |
| LikedSongsPage.ShowsLoading | Frontend/src/pages/LikedSongs.jsx:37-39 | "Loading liked songs..." shows while the liked list loads |
| LikedSongsPage.ShowsEmpty | Frontend/src/pages/LikedSongs.jsx:40-42 | "You have no liked songs yet." shows for an empty list with no load running |
| LikedSongsPage.DisplayConditions | Frontend/src/pages/LikedSongs.jsx:37-46 | the loading and empty messages never show together, neither shows with songs and no load, and the pause icon shows exactly when a click pauses |
| LikedSongsStore.Added | Backend/src/main/java/com/melodystream/authservice/service/LikedSongsService.java:25-32 | without a record the list is exactly `[songId]`; a listed id leaves the stored list unchanged, an absent one is appended at the end; a duplicate-free list stays duplicate-free |
| LikedSongsStore.IndexOf | Backend/src/main/java/com/melodystream/authservice/service/LikedSongsService.java:44 | the position of a listed id has that id and no earlier occurrence |
| LikedSongsStore.RemoveFirst | Backend/src/main/java/com/melodystream/authservice/service/LikedSongsService.java:44 | an absent id changes nothing; otherwise its first occurrence is cut out and the rest kept in order; one copy leaves the multiset |
| LikedSongsStore.RemoveAfterAdd | Backend/src/main/java/com/melodystream/authservice/service/LikedSongsService.java:29-44 | removing an id just appended to a list without it restores the list |
| LikedSongsStore.RemoveFromUnique | Backend/src/main/java/com/melodystream/authservice/service/LikedSongsService.java:43-45 | from a duplicate-free list the removed id is gone and the list stays duplicate-free |
| LikedSongsStore.LikedSongsService.Stored | Backend/src/main/java/com/melodystream/authservice/service/LikedSongsService.java:19 | `findByUserId`: a stored list exactly when the user has a record |
| LikedSongsStore.LikedSongsService.constructor | Backend/src/main/java/com/melodystream/authservice/service/LikedSongsService.java:14-16 | the service starts over an empty repository |
| LikedSongsStore.LikedSongsService.GetLikedSongs | Backend/src/main/java/com/melodystream/authservice/service/LikedSongsService.java:18-20 | the stored record of the user, or none when there is no record |
| LikedSongsStore.LikedSongsService.AddLikedSong | Backend/src/main/java/com/melodystream/authservice/service/LikedSongsService.java:22-36 | always answers "Song added to liked list!"; only the user's record changes, to the added list; lists stay duplicate-free |
| LikedSongsStore.LikedSongsService.RemoveLikedSong | Backend/src/main/java/com/melodystream/authservice/service/LikedSongsService.java:38-49 | no record answers "No liked songs for user", an absent id "Song not found in liked list", both changing nothing; otherwise only the user's list loses the first occurrence and it answers "Song removed from liked list!" |

## Left out

- All `fetch` calls, `res.json()`, URL construction, `encodeURIComponent` and `localStorage` are left out. Their outcomes are inputs: a
  2xx flag, a parsed payload or a failure, and a user-id string.
- The audio element's own behaviour is left out: load timing, autoplay failures and event delivery. `load()` only counts, and does not
  itself rewind the handle or reset its duration. The browser's resolution of `src` to an absolute URL is left out too.
- Time advancing on the handle is left out. It is whatever the media pipeline writes into `Audio.position`/`Audio.duration` before a
  time update.
- `Promise.all`, the `mounted` flag and the browse page's `loading` flag are concurrency and lifecycle concerns. Likewise the like/unlike
  race between concurrent toggles, and React's batching of state updates. `handlePlay` comparing against a `currentSrc` captured at
  render time is also left out. Each method models the state once its updates have been applied.
- Floating-point behaviour of progress, duration and volume is left out. An infinite duration (a stream) is not modelled.
- Subscribing and unsubscribing the four handle listeners is left out. The handlers themselves are modelled.
- React rendering, icons, animation, CSS, `viewMode` and the unused `teluguSongs` state are left out.
- `ListToStringConverter.java` is a wrapper over Jackson's JSON mapper and is not part of this model. `LikedSongsController.java` always
  answers 200 with the service's message and is not part of this model either. `LikedSongsRepository.java` is the table `map<string,
  LikedSongs>`. `LikedSongs.java` is the `LikedSongs` record.
- JPA persistence details are left out. One is that `List.of(songId)` is immutable until the record is read back. Another is the generated
  row id.
- A `null` element inside a reply's `data` array, or a `null` artist inside `primary`, is left out. The raw shapes have no null entries.
- Ids are strings, so a song whose `id` is missing has the id `""`. The strict comparisons `s.id === song.id`
  (Frontend/src/context/PlayerContext.jsx:179, 196; Frontend/src/pages/Trending.jsx:160-161; Frontend/src/pages/LikedSongs.jsx:20) would
  keep `undefined` apart from `""`. The model does not.
- PlayerContext.Player.SetVolume: the handle takes any `v`. A browser media element rejects a volume outside 0..1 with an error, after
  `setVolume(val)` has already run, which leaves the state and the handle with different volumes. That case is not modelled.
- The search request's query string (`limit=20`, `page=1`, the category keyword) is part of URL construction and is left out.
- PlayerContext.ArtistNames: its contract pins the result for a missing, empty or one-name list only. Longer lists are given by `Join`
  itself.
