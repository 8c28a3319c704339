/**
 The song record every view uses, the raw catalog payload it is built from,
 and the id-keyed list operations that the player context and both pages
 share (`some((s) => s.id === id)`, `filter((s) => s.id !== id)`).

 JavaScript truthiness is modelled on strings: the empty string stands for
 every falsy value a string-typed JSON member can have (absent, `null`,
 `undefined`, `""`), as the truthiness tests (`!src`, `!userId`,
 `x?.url || ...`) treat them alike. The strict id comparisons
 (`s.id === song.id`) would tell a missing id from `""`; here the two are
 the same id.
 */
module Songs {

  datatype Option<+T> = None | Some(value: T)

  /** The flat record of the application. Identity is `id`; an empty
      `audioUrl` means that no playable source was found. */
  datatype Song = Song(id: string, name: string, imageUrl: string, audioUrl: string, artistNames: string)

  /** One `{ quality, url }` entry of a raw `image` or `downloadUrl` list. */
  datatype Variant = Variant(quality: string, url: string)

  /** A member of a raw JSON record: absent (or null), an array, or present
      but not an array (a bare object, a string). */
  datatype Field<+T> = Missing | List(items: T) | NotList

  /** One song as the remote catalog returns it. `primary` is
      `artists.primary` with each artist reduced to its `name`; an absent
      `artists` object reads as an absent `primary`. */
  datatype RawSong = RawSong(
    id: string,
    name: string,
    image: Field<seq<Variant>>,
    downloadUrl: Field<seq<Variant>>,
    primary: Field<seq<string>>)

  // ---------------------------------------------------------------------
  // Raw-field helpers
  // ---------------------------------------------------------------------

  /** `variants.find((v) => v.quality === quality)?.url`: the url of the
      FIRST entry of that quality (even if it is empty), else "". */
  function FirstUrl(variants: seq<Variant>, quality: string): (url: string)
    ensures forall i :: 0 <= i < |variants| && variants[i].quality == quality &&
                        (forall j :: 0 <= j < i ==> variants[j].quality != quality)
                        ==> url == variants[i].url
    ensures (forall i :: 0 <= i < |variants| ==> variants[i].quality != quality) ==> url == ""
    ensures url != "" ==> exists i :: 0 <= i < |variants| && variants[i].quality == quality && variants[i].url == url
  {
    if variants == [] then ""
    else if variants[0].quality == quality then variants[0].url
    else FirstUrl(variants[1..], quality)
  }

  /** `parts.join(sep)`: nothing joins to "", one name to itself, and a
      longer list starts with its first name and the separator. */
  function Join(parts: seq<string>, sep: string): (r: string)
    ensures parts == [] ==> r == ""
    ensures |parts| == 1 ==> r == parts[0]
    ensures |parts| >= 2 ==> |r| >= |parts[0]| + |sep| && r[..|parts[0]| + |sep|] == parts[0] + sep
  {
    if parts == [] then ""
    else if |parts| == 1 then parts[0]
    else parts[0] + sep + Join(parts[1..], sep)
  }

  /** A join with a non-empty separator is empty exactly when there is
      nothing to join or one empty name; this is when the `|| "Unknown"`
      default of the browse view applies to a list of artists. */
  lemma JoinEmpty(parts: seq<string>, sep: string)
    requires sep != ""
    ensures Join(parts, sep) == "" <==> parts == [] || parts == [""]
  {
    if |parts| >= 2 {
      assert |Join(parts, sep)| >= |sep|;
    }
  }

  /** Joining one more name appends the separator and that name. */
  lemma {:induction false} JoinSnoc(parts: seq<string>, sep: string, p: string)
    requires parts != []
    ensures Join(parts + [p], sep) == Join(parts, sep) + sep + p
  {
    if |parts| == 1 {
      assert parts + [p] == [parts[0], p];
    } else {
      assert (parts + [p])[1..] == parts[1..] + [p];
      JoinSnoc(parts[1..], sep, p);
    }
  }

  // ---------------------------------------------------------------------
  // Id-keyed list operations
  // ---------------------------------------------------------------------

  /** `songs.some((s) => s.id === id)`. */
  predicate HasId(songs: seq<Song>, id: string)
  {
    exists i :: 0 <= i < |songs| && songs[i].id == id
  }

  /** No two entries share an id. */
  predicate IdUnique(songs: seq<Song>)
  {
    forall i, j :: 0 <= i < j < |songs| ==> songs[i].id != songs[j].id
  }

  /** Membership by id in a list with one more entry at the front. */
  lemma HasIdCons(s: Song, t: seq<Song>)
    ensures forall k :: HasId([s] + t, k) <==> s.id == k || HasId(t, k)
  {
    forall k ensures HasId([s] + t, k) <==> s.id == k || HasId(t, k) {
      if HasId([s] + t, k) && s.id != k {
        var i :| 0 <= i < |t| + 1 && ([s] + t)[i].id == k;
        assert t[i - 1].id == k;
      }
      if HasId(t, k) {
        var i :| 0 <= i < |t| && t[i].id == k;
        assert ([s] + t)[i + 1].id == k;
      }
      if s.id == k {
        assert ([s] + t)[0].id == k;
      }
    }
  }

  /** A list with one more entry at the front is id-unique exactly when its
      tail is and does not hold the new entry's id. */
  lemma UniqueCons(s: Song, t: seq<Song>)
    ensures IdUnique([s] + t) <==> !HasId(t, s.id) && IdUnique(t)
  {
    var r := [s] + t;
    if IdUnique(r) {
      forall i | 0 <= i < |t| ensures t[i].id != s.id {
        assert r[0] == s && r[i + 1] == t[i];
        assert r[0].id != r[i + 1].id;
      }
      forall i, j | 0 <= i < j < |t| ensures t[i].id != t[j].id {
        assert r[i + 1].id != r[j + 1].id;
      }
    }
    if !HasId(t, s.id) && IdUnique(t) {
      forall i, j | 0 <= i < j < |r| ensures r[i].id != r[j].id {
        if i == 0 {
          assert t[j - 1].id == r[j].id;
        } else {
          assert r[i] == t[i - 1] && r[j] == t[j - 1];
        }
      }
    }
  }

  /** `songs.filter((s) => s.id !== id)`. */
  function WithoutId(songs: seq<Song>, id: string): (r: seq<Song>)
    ensures !HasId(r, id)
    ensures forall k :: k != id ==> (HasId(r, k) <==> HasId(songs, k))
    ensures forall s :: s in r ==> s in songs
    ensures forall i :: 0 <= i < |songs| && songs[i].id != id ==> songs[i] in r
    ensures !HasId(songs, id) ==> r == songs
    ensures IdUnique(songs) ==> IdUnique(r)
  {
    if songs == [] then []
    else
      var rest := WithoutId(songs[1..], id);
      assert songs == [songs[0]] + songs[1..];
      HasIdCons(songs[0], songs[1..]);
      UniqueCons(songs[0], songs[1..]);
      if songs[0].id == id then rest
      else
        HasIdCons(songs[0], rest);
        UniqueCons(songs[0], rest);
        [songs[0]] + rest
  }

  /** The filter distributes over concatenation: it keeps the entries of
      each part, in order. */
  lemma {:induction false} WithoutIdAppend(a: seq<Song>, b: seq<Song>, id: string)
    ensures WithoutId(a + b, id) == WithoutId(a, id) + WithoutId(b, id)
  {
    if a == [] {
      assert a + b == b;
    } else {
      assert (a + b)[1..] == a[1..] + b;
      WithoutIdAppend(a[1..], b, id);
    }
  }

  /** The success path of `likeSong`: append the song unless an entry with
      its id is already there, in which case the list is returned as it is
      (even one that is not id-unique). */
  function WithSong(songs: seq<Song>, song: Song): (r: seq<Song>)
    ensures HasId(songs, song.id) ==> r == songs
    ensures !HasId(songs, song.id) ==> r == songs + [song]
    ensures HasId(r, song.id)
    ensures forall k :: k != song.id ==> (HasId(r, k) <==> HasId(songs, k))
    ensures IdUnique(songs) ==> IdUnique(r)
    ensures r == songs || r == songs + [song]
  {
    if HasId(songs, song.id) then songs
    else
      var r := songs + [song];
      assert r[|songs|].id == song.id;
      assert forall k :: HasId(r, k) <==> HasId(songs, k) || k == song.id by {
        forall k ensures HasId(r, k) <==> HasId(songs, k) || k == song.id {
          if HasId(songs, k) {
            var i :| 0 <= i < |songs| && songs[i].id == k;
            assert r[i].id == k;
          }
        }
      }
      r
  }
}
